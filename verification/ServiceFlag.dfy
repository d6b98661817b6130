/**
  Service follows the lifecycle: over runs of successful jobs the router serves the active
  subscriptions and no others, exactly as long as every job reaches what it has to switch.
 */
module ServiceFlag {
  import opened Basics
  import opened Provisioning
  import opened JobQueue
  import opened JobOrder

  ghost predicate Flags(db: Db) {
    WellKeyed(db) && forall i :: 0 <= i < |db.subs| ==> Flagged(db.subs[i], RowsAt(db, i))
  }

  // If the handler is entered, it succeeds, over whatever connection.
  predicate Succeeds(db: Db, j: nat, link: Link)
    requires ValidDb(db) && j < |db.jobs|
  {
    var e := EffectOf(db, j, link);
    e.Some? ==> e.value.ok
  }

  // If the handler is entered, all it has to switch is reached.
  predicate Effective(db: Db, j: nat, link: Link)
    requires ValidDb(db) && j < |db.jobs|
  {
    EffectOf(db, j, link).Some? ==>
      var i := db.jobs[j].sub.value;
      Lands(db.jobs[j].kind, db.subs[i], PlanOf(db, i), RowsAt(db, i), link.line)
  }

  lemma RowsCommitted(db: Db, kind: Kind, i: nat, link: Link)
    requires ValidDb(db) && i < |db.subs| && kind != Other && db.subs[i].router.Some?
    ensures ValidDb(Commit(db, i, EffectAt(db, kind, i, link)))
    ensures RowsAt(Commit(db, i, EffectAt(db, kind, i, link)), i) == EffectAt(db, kind, i, link).rows
  {
    CommitValid(db, kind, i, link);
    HandleKeepsKeyless(kind, db.subs[i], PlanOf(db, i), RowsAt(db, i), link);
    LookStore(db.routers[db.subs[i].router.value], KeysAt(db, i), EffectAt(db, kind, i, link).rows);
  }

  // The subscription of the job, after a successful execution.
  lemma OwnFlag(db: Db, j: nat, link: Link)
    requires Flags(db) && j < |db.jobs| && Succeeds(db, j, link) && EffectOf(db, j, link).Some?
    ensures var db' := Execute(db, j, link).0;
            var i := db.jobs[j].sub.value;
            && ValidDb(db') && i < |db'.subs|
            && (Flagged(db'.subs[i], RowsAt(db', i)) <==> Effective(db, j, link))
  {
    var i := db.jobs[j].sub.value;
    var e := EffectOf(db, j, link).value;
    ExecuteValid(db, j, link);
    ExecuteForm(db, j, link);
    HandleKeepsFlag(db.jobs[j].kind, db.subs[i], PlanOf(db, i), RowsAt(db, i), link);
    RowsCommitted(db, db.jobs[j].kind, i, link);
    assert RowsAt(Execute(db, j, link).0, i) == RowsAt(Commit(db, i, e), i);
  }

  // A successful execution keeps all flags exactly when it is effective.
  lemma ExecutionKeepsFlagsIff(db: Db, j: nat, link: Link)
    requires Flags(db) && j < |db.jobs| && Succeeds(db, j, link)
    ensures Flags(Execute(db, j, link).0) <==> Effective(db, j, link)
  {
    var db' := Execute(db, j, link).0;
    ExecuteValid(db, j, link);
    ExecuteForm(db, j, link);
    WellKeyedStays(db, db');
    if EffectOf(db, j, link).Some? { OwnFlag(db, j, link); }
    forall k | 0 <= k < |db.subs| && db.jobs[j].sub != Some(k)
      ensures Flagged(db'.subs[k], RowsAt(db', k))
    {
      OtherSubscriptionsUntouched(db, j, link, k);
    }
    if EffectOf(db, j, link).None? {
      forall k | 0 <= k < |db.subs| ensures Flagged(db'.subs[k], RowsAt(db', k)) {
        assert db'.subs == db.subs && RowsAt(db', k) == RowsAt(db, k);
      }
    }
  }

  ghost predicate SuccessfulRun(db: Db, js: seq<nat>, links: nat -> Link)
    requires ValidDb(db) && InJobs(js, db)
    decreases |js|
  {
    js != [] ==>
      Succeeds(db, js[0], links(js[0]))
      && (ExecuteValid(db, js[0], links(js[0])); SuccessfulRun(Execute(db, js[0], links(js[0])).0, js[1..], links))
  }

  ghost predicate EffectiveRun(db: Db, js: seq<nat>, links: nat -> Link)
    requires ValidDb(db) && InJobs(js, db)
    decreases |js|
  {
    js != [] ==>
      Effective(db, js[0], links(js[0]))
      && (ExecuteValid(db, js[0], links(js[0])); EffectiveRun(Execute(db, js[0], links(js[0])).0, js[1..], links))
  }

  // Before and after every execution of the run.
  ghost predicate FlagsThroughout(db: Db, js: seq<nat>, links: nat -> Link)
    requires ValidDb(db) && InJobs(js, db)
    decreases |js|
  {
    Flags(db) && (js != [] ==>
      (ExecuteValid(db, js[0], links(js[0])); FlagsThroughout(Execute(db, js[0], links(js[0])).0, js[1..], links)))
  }

  // Over every run of successful jobs: suspended and terminated subscriptions have nothing
  // enabled, active ones nothing disabled, terminated ones no queue row, all along, exactly
  // if each of the jobs is effective.
  lemma {:induction false} ServiceFollowsLifecycle(db: Db, js: seq<nat>, links: nat -> Link)
    requires Flags(db) && InJobs(js, db) && SuccessfulRun(db, js, links)
    ensures FlagsThroughout(db, js, links) <==> EffectiveRun(db, js, links)
    ensures EffectiveRun(db, js, links) ==> Flags(ExecuteAll(db, js, links))
    decreases |js|
  {
    if js == [] {
    } else {
      ExecuteValid(db, js[0], links(js[0]));
      ExecutionKeepsFlagsIff(db, js[0], links(js[0]));
      var next := Execute(db, js[0], links(js[0])).0;
      if Effective(db, js[0], links(js[0])) {
        ServiceFollowsLifecycle(next, js[1..], links);
      }
    }
  }

  // Over healthy connections, with plan changes only for subscriptions not cut off, every
  // job is effective when its turn comes.
  lemma HealthyIsEffective(db: Db, j: nat, link: Link)
    requires ValidDb(db) && j < |db.jobs| && Healthy(link)
    requires db.jobs[j].kind == ChangePlan && db.jobs[j].sub.Some? ==>
               db.subs[db.jobs[j].sub.value].state in {Lifecycle.Draft, Active}
    ensures Effective(db, j, link)
  {
    if EffectOf(db, j, link).Some? && db.jobs[j].kind != ChangePlan {
      var i := db.jobs[j].sub.value;
      HealthyLands(db.jobs[j].kind, db.subs[i], PlanOf(db, i), RowsAt(db, i), link);
    }
  }

  // A run on which the flag is lost although every job succeeds over a healthy connection:
  // a suspension, and then a plan change, which switches the secret back on.
  lemma PlanChangeReenables(db: Db, links: nat -> Link)
    requires Flags(db) && db.subs != [] && db.jobs == [NewJob(Suspend, 0), NewJob(ChangePlan, 0)]
    requires db.subs[0].state == Active && db.subs[0].located && db.subs[0].router.Some?
    requires PlanOf(db, 0).service == Pppoe && Healthy(links(0)) && Healthy(links(1))
    ensures ValidDb(Execute(db, 0, links(0)).0)
    ensures var db1 := Execute(db, 0, links(0)).0;
            var db2 := Execute(db1, 1, links(1)).0;
            && Flags(db1) && db1.subs[0].state == Suspended && Succeeds(db1, 1, links(1))
            && db2.jobs[0].state == Success && db2.jobs[1].state == Success && !Flags(db2)
  {
    SuspendFirst(db, links(0));
    ChangeSecond(Execute(db, 0, links(0)).0, links(1));
  }

  lemma SuspendFirst(db: Db, link: Link)
    requires Flags(db) && db.subs != [] && db.jobs == [NewJob(Suspend, 0), NewJob(ChangePlan, 0)]
    requires Serviceable(db.subs[0]) && db.subs[0].state == Active && PlanOf(db, 0).service == Pppoe && Healthy(link)
    ensures var db1 := Execute(db, 0, link).0;
            && Flags(db1) && db1.subs[0].state == Suspended && Serviceable(db1.subs[0])
            && PlanOf(db1, 0).service == Pppoe
            && |db1.jobs| == 2 && db1.jobs[0].state == Success && db1.jobs[1] == NewJob(ChangePlan, 0)
  {
    HealthySucceeds(Suspend, db.subs[0], PlanOf(db, 0), RowsAt(db, 0), link);
    HandleState(Suspend, db.subs[0], PlanOf(db, 0), RowsAt(db, 0), link);
    HealthyIsEffective(db, 0, link);
    ExecutionKeepsFlagsIff(db, 0, link);
    ExecuteValid(db, 0, link);
    ExecuteForm(db, 0, link);
  }

  lemma ChangeSecond(db: Db, link: Link)
    requires Flags(db) && db.subs != [] && |db.jobs| == 2 && db.jobs[0].state == Success
    requires db.jobs[1] == NewJob(ChangePlan, 0)
    requires Serviceable(db.subs[0]) && db.subs[0].state == Suspended && PlanOf(db, 0).service == Pppoe && Healthy(link)
    ensures var db2 := Execute(db, 1, link).0;
            && Succeeds(db, 1, link) && !Flags(db2)
            && |db2.jobs| == 2 && db2.jobs[0].state == Success && db2.jobs[1].state == Success
  {
    HealthySucceeds(ChangePlan, db.subs[0], PlanOf(db, 0), RowsAt(db, 0), link);
    ExecutionKeepsFlagsIff(db, 1, link);
    ExecuteValid(db, 1, link);
    ExecuteForm(db, 1, link);
  }
}
