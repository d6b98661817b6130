/** A paid-up subscription is back in service after a number of worker runs fixed by the queue. */
module Payment {
  import opened Basics
  import opened Provisioning
  import opened JobQueue
  import opened JobOrder
  import opened Billing

  function QueuedCount(jobs: seq<Job>): nat {
    if jobs == [] then 0 else (if jobs[0].state == Queued then 1 else 0) + QueuedCount(jobs[1..])
  }

  lemma {:induction false} CountConcat(a: seq<Job>, b: seq<Job>)
    ensures QueuedCount(a + b) == QueuedCount(a) + QueuedCount(b)
  {
    if a == [] {
      assert a + b == b;
    } else {
      CountConcat(a[1..], b);
      assert (a + b)[0] == a[0] && (a + b)[1..] == a[1..] + b;
    }
  }

  lemma CountUpdate(jobs: seq<Job>, j: nat, job: Job)
    requires j < |jobs| && jobs[j].state == Queued && job.state != Queued
    ensures QueuedCount(jobs[j := job]) == QueuedCount(jobs) - 1
  {
    assert jobs == jobs[..j] + ([jobs[j]] + jobs[j + 1..]);
    assert jobs[j := job] == jobs[..j] + ([job] + jobs[j + 1..]);
    CountConcat(jobs[..j], [jobs[j]] + jobs[j + 1..]);
    CountConcat(jobs[..j], [job] + jobs[j + 1..]);
  }

  lemma {:induction false} BatchSize(jobs: seq<Job>, i: nat, n: nat)
    requires i <= |jobs|
    ensures |QueuedFrom(jobs, i, n)| == if QueuedCount(jobs[i..]) < n then QueuedCount(jobs[i..]) else n
    decreases |jobs| - i
  {
    if i == |jobs| || n == 0 {
    } else {
      assert jobs[i..][1..] == jobs[i + 1..];
      BatchSize(jobs, i + 1, n - 1);
      BatchSize(jobs, i + 1, n);
    }
  }

  // All that is queued are suspensions and reconnections with attempts left.
  ghost predicate Smooth(db: Db) {
    && ValidDb(db)
    && forall j :: 0 <= j < |db.jobs| && db.jobs[j].state == Queued ==>
         db.jobs[j].kind in {Suspend, Reconnect} && db.jobs[j].sub.Some? && db.jobs[j].attempts < db.jobs[j].maxAttempts
  }

  // The subscription is in service, or a reconnection for it is the only thing queued.
  ghost predicate Coming(db: Db, i: nat)
    requires i < |db.subs|
  {
    && (forall j :: 0 <= j < |db.jobs| && db.jobs[j].state == Queued && db.jobs[j].sub == Some(i) ==>
          db.jobs[j].kind == Reconnect)
    && (db.subs[i].state == Active
        || exists j :: 0 <= j < |db.jobs| && db.jobs[j].state == Queued && db.jobs[j].sub == Some(i))
  }

  predicate Serving(db: Db, i: nat)
    requires i < |db.subs|
  {
    db.subs[i].state in {Active, Suspended}
  }

  lemma SmoothStep(db: Db, j: nat, link: Link)
    requires Smooth(db) && j < |db.jobs| && db.jobs[j].state == Queued && !Execute(db, j, link).1
    ensures var db' := Execute(db, j, link).0;
            && Smooth(db') && Kept(db, db')
            && db'.jobs == db.jobs[j := db'.jobs[j]] && db'.jobs[j].state == Success
            && QueuedCount(db'.jobs) == QueuedCount(db.jobs) - 1
            && (forall i :: 0 <= i < |db.subs| ==>
                  db'.subs[i].state == if db.jobs[j].sub != Some(i) then db.subs[i].state
                                       else if db.jobs[j].kind == Suspend then Suspended else Active)
  {
    var db' := Execute(db, j, link).0;
    var i := db.jobs[j].sub.value;
    ExecuteValid(db, j, link);
    ExecuteForm(db, j, link);
    ExecuteDone(db, j, link);
    assert EffectOf(db, j, link).value.ok;
    HandleState(db.jobs[j].kind, db.subs[i], PlanOf(db, i), RowsAt(db, i), link);
    CountUpdate(db.jobs, j, db'.jobs[j]);
  }

  lemma SmoothStepFor(db: Db, j: nat, link: Link, i: nat)
    requires Smooth(db) && j < |db.jobs| && db.jobs[j].state == Queued && !Execute(db, j, link).1 && i < |db.subs|
    ensures i < |Execute(db, j, link).0.subs|
    ensures Serving(db, i) ==> Serving(Execute(db, j, link).0, i)
    ensures Coming(db, i) ==> Coming(Execute(db, j, link).0, i)
  {
    SmoothStep(db, j, link);
    var db' := Execute(db, j, link).0;
    if Coming(db, i) { StillComing(db, db', j, i); }
  }

  lemma StillComing(db: Db, db': Db, j: nat, i: nat)
    requires j < |db.jobs| && i < |db.subs| && Coming(db, i) && |db'.subs| == |db.subs| && |db'.jobs| == |db.jobs|
    requires db.jobs[j].state == Queued && db'.jobs == db.jobs[j := db'.jobs[j]] && db'.jobs[j].state == Success
    requires db'.subs[i].state == if db.jobs[j].sub != Some(i) then db.subs[i].state
                                  else if db.jobs[j].kind == Suspend then Suspended else Active
    ensures Coming(db', i)
  {
    if db'.subs[i].state != Active {
      var p :| 0 <= p < |db.jobs| && db.jobs[p].state == Queued && db.jobs[p].sub == Some(i);
      assert p != j;
      assert db'.jobs[p] == db.jobs[p];
    }
  }

  lemma {:induction false} SmoothBatch(db: Db, js: seq<nat>, links: nat -> Link, i: nat)
    requires Smooth(db) && InJobs(js, db) && i < |db.subs| && !RunJobs(db, js, links).1
    requires forall k :: 0 <= k < |js| ==> db.jobs[js[k]].state == Queued
    requires forall k, l :: 0 <= k < l < |js| ==> js[k] < js[l]
    ensures var db' := RunJobs(db, js, links).0;
            && Smooth(db') && Kept(db, db') && QueuedCount(db'.jobs) == QueuedCount(db.jobs) - |js|
            && (Serving(db, i) ==> Serving(db', i)) && (Coming(db, i) ==> Coming(db', i))
    decreases |js|
  {
    if js == [] {
    } else {
      var next := SmoothHead(db, js, links, i);
      SmoothBatch(next, js[1..], links, i);
      KeptThen(db, next, RunJobs(next, js[1..], links).0);
    }
  }

  // The first job of a batch.
  lemma SmoothHead(db: Db, js: seq<nat>, links: nat -> Link, i: nat) returns (next: Db)
    requires Smooth(db) && InJobs(js, db) && i < |db.subs| && js != [] && !RunJobs(db, js, links).1
    requires forall k :: 0 <= k < |js| ==> db.jobs[js[k]].state == Queued
    requires forall k, l :: 0 <= k < l < |js| ==> js[k] < js[l]
    ensures Smooth(next) && Kept(db, next) && InJobs(js[1..], next) && i < |next.subs|
    ensures QueuedCount(next.jobs) == QueuedCount(db.jobs) - 1
    ensures (Serving(db, i) ==> Serving(next, i)) && (Coming(db, i) ==> Coming(next, i))
    ensures RunJobs(next, js[1..], links) == RunJobs(db, js, links)
    ensures forall k :: 0 <= k < |js[1..]| ==> next.jobs[js[1..][k]].state == Queued
  {
    ExecuteValid(db, js[0], links(js[0]));
    SmoothStep(db, js[0], links(js[0]));
    SmoothStepFor(db, js[0], links(js[0]), i);
    next := Execute(db, js[0], links(js[0])).0;
    forall k | 0 <= k < |js[1..]| ensures next.jobs[js[1..][k]].state == Queued {
      assert js[0] < js[k + 1];
    }
  }

  lemma KeptThen(a: Db, b: Db, c: Db)
    requires Kept(a, b) && Kept(b, c)
    ensures Kept(a, c)
  {
    forall i | 0 <= i < |a.subs| ensures SameIdentity(a.subs[i], c.subs[i]) {
      assert SameIdentity(a.subs[i], b.subs[i]) && SameIdentity(b.subs[i], c.subs[i]);
    }
  }

  // n worker runs.
  function WorkerRuns(db: Db, n: nat, links: nat -> (nat -> Link)): Db
    requires ValidDb(db)
    decreases n
  {
    if n == 0 then db
    else
      RunJobsValid(db, QueuedFrom(db.jobs, 0, BATCH), links(n));
      WorkerRuns(WorkerRun(db, links(n)).0, n - 1, links)
  }

  // None of these runs meets a job that raises.
  ghost predicate Calm(db: Db, n: nat, links: nat -> (nat -> Link))
    requires ValidDb(db)
    decreases n
  {
    n > 0 ==>
      !WorkerRun(db, links(n)).1
      && (RunJobsValid(db, QueuedFrom(db.jobs, 0, BATCH), links(n)); Calm(WorkerRun(db, links(n)).0, n - 1, links))
  }

  function Batches(count: nat): nat {
    (count + BATCH - 1) / BATCH
  }

  // One run takes twenty jobs, or all there are.
  lemma OneRun(db: Db, links: nat -> Link, i: nat)
    requires Smooth(db) && i < |db.subs| && !WorkerRun(db, links).1
    ensures var db' := WorkerRun(db, links).0;
            var q := QueuedCount(db.jobs);
            && Smooth(db') && Kept(db, db') && QueuedCount(db'.jobs) == (if q < BATCH then 0 else q - BATCH)
            && (Serving(db, i) ==> Serving(db', i)) && (Coming(db, i) ==> Coming(db', i))
  {
    BatchSize(db.jobs, 0, BATCH);
    assert db.jobs[0..] == db.jobs;
    SmoothBatch(db, QueuedFrom(db.jobs, 0, BATCH), links, i);
  }

  // Enough runs empty the queue, and meanwhile the subscription does not get lost.
  lemma {:induction false} RunsDrain(db: Db, n: nat, links: nat -> (nat -> Link), i: nat)
    requires Smooth(db) && i < |db.subs| && QueuedCount(db.jobs) <= BATCH * n
    requires Calm(db, n, links)
    ensures var db' := WorkerRuns(db, n, links);
            && Smooth(db') && Kept(db, db') && QueuedCount(db'.jobs) == 0
            && (Serving(db, i) ==> Serving(db', i)) && (Coming(db, i) ==> Coming(db', i))
    decreases n
  {
    if n == 0 {
    } else {
      OneRun(db, links(n), i);
      var db1 := WorkerRun(db, links(n)).0;
      RunsDrain(db1, n - 1, links, i);
      KeptThen(db, db1, WorkerRuns(db1, n - 1, links));
    }
  }

  lemma {:induction false} NoneQueued(jobs: seq<Job>)
    requires QueuedCount(jobs) == 0
    ensures forall j :: 0 <= j < |jobs| ==> jobs[j].state != Queued
  {
    if jobs == [] {
    } else {
      NoneQueued(jobs[1..]);
      assert forall j :: 1 <= j < |jobs| ==> jobs[j] == jobs[1..][j - 1];
    }
  }

  lemma {:induction false} AllQueued(jobs: seq<Job>)
    requires forall job :: job in jobs ==> job.state == Queued
    ensures QueuedCount(jobs) == |jobs|
  {
    if jobs == [] {
    } else {
      AllQueued(jobs[1..]);
    }
  }

  // The reconnection cron on an empty queue.
  lemma CronBrings(db: Db, i: nat)
    requires Smooth(db) && i < |db.subs| && QueuedCount(db.jobs) == 0 && Serving(db, i) && !HasOpen(db, i)
    ensures var db' := ReconnectCron(db);
            && Smooth(db') && Coming(db', i) && QueuedCount(db'.jobs) == |ReconnectJobs(db, |db.subs|)|
  {
    var more := ReconnectJobs(db, |db.subs|);
    ReconnectJobsExact(db, |db.subs|);
    NoneQueued(db.jobs);
    AllQueued(more);
    CountConcat(db.jobs, more);
    if db.subs[i].state == Suspended { assert NewJob(Reconnect, i) in more; }
    AppendedComing(db, more, i);
  }

  // Only reconnections are queued, and one for subscription i if it is suspended.
  lemma AppendedComing(db: Db, more: seq<Job>, i: nat)
    requires Smooth(db) && i < |db.subs| && Serving(db, i)
    requires forall j :: 0 <= j < |db.jobs| ==> db.jobs[j].state != Queued
    requires forall job :: job in more ==>
               job.sub.Some? && job.sub.value < |db.subs| && job == NewJob(Reconnect, job.sub.value)
    requires db.subs[i].state == Suspended ==> NewJob(Reconnect, i) in more
    ensures var db' := db.(jobs := db.jobs + more); Smooth(db') && Coming(db', i)
  {
    var db' := db.(jobs := db.jobs + more);
    forall j | |db.jobs| <= j < |db'.jobs| ensures db'.jobs[j] in more {}
    if db.subs[i].state == Suspended {
      var k :| 0 <= k < |more| && more[k] == NewJob(Reconnect, i);
      assert db'.jobs[|db.jobs| + k] == NewJob(Reconnect, i);
    }
  }

  // The subscription is active, and neither billing cron would queue a job for it.
  ghost predicate InService(db: Db, i: nat) {
    && ValidDb(db) && i < |db.subs| && db.subs[i].state == Active
    && (forall job :: job in ReconnectJobs(db, |db.subs|) ==> job.sub != Some(i))
    && (forall today, standard, job :: job in SuspendJobs(db, |db.invoices|, today, standard) ==> job.sub != Some(i))
  }

  // What is left when the queue has been drained twice with the cron in between.
  lemma Restored(db: Db, i: nat)
    requires Smooth(db) && i < |db.subs| && QueuedCount(db.jobs) == 0 && Coming(db, i) && !HasOpen(db, i)
    ensures InService(db, i)
  {
    NoneQueued(db.jobs);
    ReconnectJobsExact(db, |db.subs|);
    forall today, standard, job | job in SuspendJobs(db, |db.invoices|, today, standard)
      ensures job.sub != Some(i)
    {
      OnlySuspendJobs(db, |db.invoices|, today, standard);
    }
  }

  // From any queue of Q suspensions and reconnections that succeed, stale and duplicate
  // ones included: ceil(Q/20) worker runs, one reconnection cron queueing S jobs, and
  // ceil(S/20) more runs leave a subscription without open invoices active, and then
  // neither cron queues anything more for it.
  lemma PaymentConverges(db: Db, i: nat, links: nat -> (nat -> Link), links': nat -> (nat -> Link))
    requires Smooth(db) && i < |db.subs| && Serving(db, i) && !HasOpen(db, i)
    requires Calm(db, Batches(QueuedCount(db.jobs)), links)
    ensures var db1 := WorkerRuns(db, Batches(QueuedCount(db.jobs)), links);
            ValidDb(db1) && ValidDb(ReconnectCron(db1))
    ensures var db1 := WorkerRuns(db, Batches(QueuedCount(db.jobs)), links);
            var n := Batches(|ReconnectJobs(db1, |db1.subs|)|);
            Calm(ReconnectCron(db1), n, links') ==> InService(WorkerRuns(ReconnectCron(db1), n, links'), i)
  {
    var n := Batches(QueuedCount(db.jobs));
    RunsDrain(db, n, links, i);
    var db1 := WorkerRuns(db, n, links);
    CronBrings(db1, i);
    var n' := Batches(|ReconnectJobs(db1, |db1.subs|)|);
    if Calm(ReconnectCron(db1), n', links') {
      RunsDrain(ReconnectCron(db1), n', links', i);
      Restored(WorkerRuns(ReconnectCron(db1), n', links'), i);
    }
  }

  /* When jobs succeed */

  // Whoever has a queued job, or may get a reconnection, is serviceable.
  ghost predicate Provided(db: Db) {
    && Smooth(db)
    && (forall i :: 0 <= i < |db.subs| && db.subs[i].state == Suspended ==> Serviceable(db.subs[i]))
    && (forall j :: 0 <= j < |db.jobs| && db.jobs[j].state == Queued ==> Serviceable(db.subs[db.jobs[j].sub.value]))
  }

  lemma HealthyStep(db: Db, j: nat, link: Link)
    requires Provided(db) && j < |db.jobs| && db.jobs[j].state == Queued && Healthy(link)
    ensures !Execute(db, j, link).1 && Provided(Execute(db, j, link).0)
  {
    var i := db.jobs[j].sub.value;
    var db' := Execute(db, j, link).0;
    HealthySucceeds(db.jobs[j].kind, db.subs[i], PlanOf(db, i), RowsAt(db, i), link);
    ExecuteRaises(db, j, link);
    SmoothStep(db, j, link);
    forall k | 0 <= k < |db'.subs| ensures Serviceable(db'.subs[k]) == Serviceable(db.subs[k]) {
      assert SameIdentity(db.subs[k], db'.subs[k]);
    }
  }

  lemma ExecuteRaises(db: Db, j: nat, link: Link)
    requires ValidDb(db) && j < |db.jobs| && EffectOf(db, j, link).Some? && EffectOf(db, j, link).value.ok
    ensures !Execute(db, j, link).1
  {
    ExecuteForm(db, j, link);
    ExecuteDone(db, j, link);
  }

  lemma {:induction false} HealthyBatch(db: Db, js: seq<nat>, links: nat -> Link)
    requires Provided(db) && InJobs(js, db) && forall k :: Healthy(links(k))
    requires forall k :: 0 <= k < |js| ==> db.jobs[js[k]].state == Queued
    requires forall k, l :: 0 <= k < l < |js| ==> js[k] < js[l]
    ensures !RunJobs(db, js, links).1 && Provided(RunJobs(db, js, links).0)
    decreases |js|
  {
    if js == [] {
    } else {
      ExecuteValid(db, js[0], links(js[0]));
      HealthyStep(db, js[0], links(js[0]));
      var db1 := Execute(db, js[0], links(js[0])).0;
      forall k | 0 <= k < |js[1..]| ensures db1.jobs[js[1..][k]].state == Queued {
        assert js[0] < js[k + 1];
      }
      HealthyBatch(db1, js[1..], links);
    }
  }

  lemma {:induction false} HealthyRunsCalm(db: Db, n: nat, links: nat -> (nat -> Link))
    requires Provided(db) && forall k, j :: Healthy(links(k)(j))
    ensures Calm(db, n, links) && Provided(WorkerRuns(db, n, links))
    decreases n
  {
    if n == 0 {
    } else {
      HealthyBatch(db, QueuedFrom(db.jobs, 0, BATCH), links(n));
      HealthyRunsCalm(WorkerRun(db, links(n)).0, n - 1, links);
    }
  }

  lemma CronProvided(db: Db)
    requires Provided(db)
    ensures Provided(ReconnectCron(db))
  {
    var more := ReconnectJobs(db, |db.subs|);
    ReconnectJobsExact(db, |db.subs|);
    var db' := ReconnectCron(db);
    forall j | |db.jobs| <= j < |db'.jobs| ensures db'.jobs[j] in more {}
  }

  // Over healthy connections convergence follows from what can be checked beforehand; an
  // unrelated draft without coordinates or router does not matter.
  lemma HealthyPaymentConverges(db: Db, i: nat, links: nat -> (nat -> Link), links': nat -> (nat -> Link))
    requires Provided(db) && i < |db.subs| && Serving(db, i) && !HasOpen(db, i)
    requires forall k, j :: Healthy(links(k)(j)) && Healthy(links'(k)(j))
    ensures var db1 := WorkerRuns(db, Batches(QueuedCount(db.jobs)), links);
            && ValidDb(db1) && ValidDb(ReconnectCron(db1))
            && InService(WorkerRuns(ReconnectCron(db1), Batches(|ReconnectJobs(db1, |db1.subs|)|), links'), i)
  {
    var n := Batches(QueuedCount(db.jobs));
    HealthyRunsCalm(db, n, links);
    PaymentConverges(db, i, links, links');
    var db1 := WorkerRuns(db, n, links);
    CronProvided(db1);
    HealthyRunsCalm(ReconnectCron(db1), Batches(|ReconnectJobs(db1, |db1.subs|)|), links');
  }
}
