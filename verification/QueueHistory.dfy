/** What new jobs, worker runs and manual runs do to each job of the queue. */
module QueueHistory {
  import opened Provisioning
  import opened JobQueue

  datatype Event =
    | Worker(links: nat -> Link)
    | Manual(js: seq<nat>, links: nat -> Link)
    | Submit(kind: Kind, i: nat, token: string)

  ghost predicate Possible(db: Db, e: Event) {
    match e
    case Worker(_) => true
    case Manual(js, _) => InJobs(js, db)
    case Submit(_, i, _) => i < |db.subs|
  }

  function Happen(db: Db, e: Event): Db
    requires ValidDb(db) && Possible(db, e)
  {
    match e
    case Worker(links) => WorkerRun(db, links).0
    case Manual(js, links) => RunJobs(db, js, links).0
    case Submit(kind, i, token) => LifecycleAction(db, i, kind, token)
  }

  // The jobs whose handler a list of executions enters, in order.
  function Entered(db: Db, js: seq<nat>, links: nat -> Link): seq<nat>
    requires ValidDb(db) && InJobs(js, db)
    decreases |js|
  {
    if js == [] then []
    else
      ExecuteValid(db, js[0], links(js[0]));
      var (db', raised) := Execute(db, js[0], links(js[0]));
      (if Ready(db.jobs[js[0]]) then [js[0]] else []) + (if raised then [] else Entered(db', js[1..], links))
  }

  function EnteredIn(db: Db, e: Event): seq<nat>
    requires ValidDb(db) && Possible(db, e)
  {
    match e
    case Worker(links) => Entered(db, QueuedFrom(db.jobs, 0, BATCH), links)
    case Manual(js, links) => Entered(db, js, links)
    case Submit(_, _, _) => []
  }

  predicate Finished(job: Job) {
    job.state in {Success, Failed}
  }

  // From one point of a history to a later one, with n entries of the handler in between:
  // none or one, counted as attempts; a job that is not queued never changes again.
  predicate Progress(before: Job, after: Job, n: nat) {
    && after.kind == before.kind && after.sub == before.sub && after.maxAttempts == before.maxAttempts
    && after.attempts == before.attempts + n
    && n <= 1 && (n == 1 ==> Ready(before) && Finished(after))
    && (before.state != Queued || after.state == Queued ==> after == before)
  }

  lemma ProgressThen(a: Job, b: Job, c: Job, m: nat, n: nat)
    requires Progress(a, b, m) && Progress(b, c, n)
    ensures Progress(a, c, m + n)
  {
  }

  lemma ExecuteProgress(db: Db, j: nat, link: Link, k: nat)
    requires ValidDb(db) && j < |db.jobs| && k < |db.jobs|
    ensures |Execute(db, j, link).0.jobs| == |db.jobs|
    ensures Progress(db.jobs[k], Execute(db, j, link).0.jobs[k], if k == j && Ready(db.jobs[j]) then 1 else 0)
  {
    ExecuteValid(db, j, link);
    ExecuteDone(db, j, link);
  }

  lemma EnteredCount(db: Db, js: seq<nat>, links: nat -> Link, k: nat)
    requires ValidDb(db) && InJobs(js, db) && js != []
    ensures var (db', raised) := Execute(db, js[0], links(js[0]));
            && ValidDb(db') && InJobs(js[1..], db')
            && multiset(Entered(db, js, links))[k] ==
               (if k == js[0] && Ready(db.jobs[js[0]]) then 1 else 0)
               + (if raised then 0 else multiset(Entered(db', js[1..], links))[k])
  {
    ExecuteValid(db, js[0], links(js[0]));
    var (db', raised) := Execute(db, js[0], links(js[0]));
    var head := if Ready(db.jobs[js[0]]) then [js[0]] else [];
    var tail := if raised then [] else Entered(db', js[1..], links);
    assert Entered(db, js, links) == head + tail;
    assert multiset(head + tail)[k] == multiset(head)[k] + multiset(tail)[k];
  }

  lemma {:induction false} RunProgress(db: Db, js: seq<nat>, links: nat -> Link, k: nat)
    requires ValidDb(db) && InJobs(js, db) && k < |db.jobs|
    ensures ValidDb(RunJobs(db, js, links).0) && |RunJobs(db, js, links).0.jobs| == |db.jobs|
    ensures Progress(db.jobs[k], RunJobs(db, js, links).0.jobs[k], multiset(Entered(db, js, links))[k])
    decreases |js|
  {
    if js == [] {
    } else {
      ExecuteValid(db, js[0], links(js[0]));
      ExecuteProgress(db, js[0], links(js[0]), k);
      EnteredCount(db, js, links, k);
      var (db', raised) := Execute(db, js[0], links(js[0]));
      if !raised {
        RunProgress(db', js[1..], links, k);
        ProgressThen(db.jobs[k], db'.jobs[k], RunJobs(db', js[1..], links).0.jobs[k],
                     if k == js[0] && Ready(db.jobs[js[0]]) then 1 else 0, multiset(Entered(db', js[1..], links))[k]);
      }
    }
  }

  lemma HappenValid(db: Db, e: Event)
    requires ValidDb(db) && Possible(db, e)
    ensures ValidDb(Happen(db, e)) && |Happen(db, e).jobs| >= |db.jobs|
  {
    match e
    case Worker(links) => RunJobsValid(db, QueuedFrom(db.jobs, 0, BATCH), links);
    case Manual(js, links) => RunJobsValid(db, js, links);
    case Submit(kind, i, token) => LifecycleActionForm(db, i, kind, token);
  }

  lemma EventProgress(db: Db, e: Event, k: nat)
    requires ValidDb(db) && Possible(db, e) && k < |db.jobs|
    ensures k < |Happen(db, e).jobs|
    ensures Progress(db.jobs[k], Happen(db, e).jobs[k], multiset(EnteredIn(db, e))[k])
  {
    match e
    case Worker(links) => RunProgress(db, QueuedFrom(db.jobs, 0, BATCH), links, k);
    case Manual(js, links) => RunProgress(db, js, links, k);
    case Submit(kind, i, token) => LifecycleActionForm(db, i, kind, token);
  }
}
