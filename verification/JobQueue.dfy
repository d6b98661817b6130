/**
  The provider's records, the provisioning queue and the executions that work it off.
  Records are referred to by position and jobs are queued in order of position.
 */
module JobQueue {
  import opened Basics
  import opened Calendar
  import opened Provisioning

  datatype JobState = Queued | Running | Success | Failed
  datatype Job = Job(kind: Kind, sub: Option<nat>, state: JobState, attempts: nat, maxAttempts: nat)

  datatype Invoice = Invoice(sub: Option<nat>, posted: bool, paid: bool, issued: Option<Date>, due: Option<Date>)

  datatype Mode = Immediate | NextCycle | Custom
  datatype Stage = Draft | Submitted | Approved | Rejected | Applied
  datatype Request = Request(sub: nat, plan: nat, mode: Mode, effective: Option<Date>, stage: Stage, reasoned: bool)

  datatype Db = Db(plans: seq<Plan>, subs: seq<Sub>, routers: seq<Net>, jobs: seq<Job>,
                   invoices: seq<Invoice>, requests: seq<Request>)

  const BATCH := 20
  const MAX_ATTEMPTS := 3

  ghost predicate ValidDb(db: Db) {
    && (forall i :: 0 <= i < |db.subs| ==> db.subs[i].plan < |db.plans|
                                           && (db.subs[i].router.Some? ==> db.subs[i].router.value < |db.routers|))
    && (forall j :: 0 <= j < |db.jobs| ==> db.jobs[j].sub.Some? ==> db.jobs[j].sub.value < |db.subs|)
    && (forall m :: 0 <= m < |db.invoices| ==> db.invoices[m].sub.Some? ==> db.invoices[m].sub.value < |db.subs|)
    && (forall r :: 0 <= r < |db.requests| ==> db.requests[r].sub < |db.subs| && db.requests[r].plan < |db.plans|)
  }

  function NewJob(kind: Kind, i: nat): Job {
    Job(kind, Some(i), Queued, 0, MAX_ATTEMPTS)
  }

  function QueueJob(db: Db, i: nat, kind: Kind): Db {
    db.(jobs := db.jobs + [NewJob(kind, i)])
  }

  function PlanOf(db: Db, i: nat): Plan
    requires ValidDb(db) && i < |db.subs|
  {
    db.plans[db.subs[i].plan]
  }

  function KeysAt(db: Db, i: nat): Keys
    requires ValidDb(db) && i < |db.subs|
  {
    KeysOf(db.subs[i], PlanOf(db, i))
  }

  // A lifecycle action queues its job; activation fills in missing credentials first.
  function LifecycleAction(db: Db, i: nat, kind: Kind, token: string): Db
    requires ValidDb(db) && i < |db.subs|
  {
    var s := if kind == Activate then EnsureCredentials(db.subs[i], PlanOf(db, i), token) else db.subs[i];
    QueueJob(db.(subs := db.subs[i := s]), i, kind)
  }

  lemma LifecycleActionForm(db: Db, i: nat, kind: Kind, token: string)
    requires ValidDb(db) && i < |db.subs|
    ensures var db' := LifecycleAction(db, i, kind, token);
            && ValidDb(db') && db'.jobs == db.jobs + [NewJob(kind, i)] && |db'.subs| == |db.subs|
            && db' == db.(jobs := db'.jobs, subs := db'.subs)
            && forall k :: 0 <= k < |db.subs| ==>
                 SameIdentity(db.subs[k], db'.subs[k]) && db'.subs[k].state == db.subs[k].state
  {
  }

  // The rows of a subscription on its router, none if it has no router.
  function RowsAt(db: Db, i: nat): Rows
    requires ValidDb(db) && i < |db.subs|
  {
    if db.subs[i].router.None? then Rows(None, None, None)
    else Look(db.routers[db.subs[i].router.value], KeysAt(db, i))
  }

  // Write a handler's effect back: the subscription and its rows, nothing else.
  function Commit(db: Db, i: nat, e: Effect): Db
    requires ValidDb(db) && i < |db.subs|
  {
    var db1 := db.(subs := db.subs[i := e.sub]);
    if db.subs[i].router.None? then db1
    else
      var r := db.subs[i].router.value;
      db1.(routers := db.routers[r := Store(db.routers[r], KeysAt(db, i), e.rows)])
  }

  function EffectAt(db: Db, kind: Kind, i: nat, link: Link): Effect
    requires ValidDb(db) && i < |db.subs| && kind != Other
  {
    Handle(kind, db.subs[i], PlanOf(db, i), RowsAt(db, i), link)
  }

  // The handler of one job: the new records, and whether it returned without raising.
  function Dispatch(db: Db, j: nat, link: Link): (Db, bool)
    requires ValidDb(db) && j < |db.jobs|
  {
    var job := db.jobs[j];
    if job.kind == Other then (db, link.other)
    else if job.sub.None? then (db, false)
    else
      var e := EffectAt(db, job.kind, job.sub.value, link);
      (Commit(db, job.sub.value, e), e.ok)
  }

  // The handler of this job would be entered if it were executed now.
  predicate Ready(job: Job) {
    job.state == Queued && job.attempts < job.maxAttempts
  }

  // Execute one job: the new records and whether it raised.
  function Execute(db: Db, j: nat, link: Link): (Db, bool)
    requires ValidDb(db) && j < |db.jobs|
  {
    var job := db.jobs[j];
    if job.state != Queued then (db, false)
    else if job.attempts >= job.maxAttempts then (db.(jobs := db.jobs[j := job.(state := Failed)]), false)
    else
      var running := job.(state := Running, attempts := job.attempts + 1);
      var (db', ok) := Dispatch(db.(jobs := db.jobs[j := running]), j, link);
      (db'.(jobs := db'.jobs[j := running.(state := if ok then Success else Failed)]), !ok)
  }

  lemma ValidRunning(db: Db, j: nat, job: Job)
    requires ValidDb(db) && j < |db.jobs| && job.sub == db.jobs[j].sub
    ensures ValidDb(db.(jobs := db.jobs[j := job]))
  {
  }

  lemma CommitValid(db: Db, kind: Kind, i: nat, link: Link)
    requires ValidDb(db) && i < |db.subs| && kind != Other
    ensures ValidDb(Commit(db, i, EffectAt(db, kind, i, link)))
    ensures SameIdentity(db.subs[i], EffectAt(db, kind, i, link).sub)
  {
    HandleKeepsIdentity(kind, db.subs[i], PlanOf(db, i), RowsAt(db, i), link);
  }

  // Records other than the jobs' own that an execution may not change.
  predicate Kept(db: Db, db': Db) {
    && db'.plans == db.plans && db'.invoices == db.invoices && db'.requests == db.requests
    && |db'.jobs| == |db.jobs| && |db'.subs| == |db.subs| && |db'.routers| == |db.routers|
    && forall i :: 0 <= i < |db.subs| ==> SameIdentity(db.subs[i], db'.subs[i])
  }

  lemma DispatchValid(db: Db, j: nat, link: Link)
    requires ValidDb(db) && j < |db.jobs|
    ensures var db' := Dispatch(db, j, link).0; ValidDb(db') && Kept(db, db') && db'.jobs == db.jobs
  {
    var job := db.jobs[j];
    if job.kind != Other && job.sub.Some? { CommitValid(db, job.kind, job.sub.value, link); }
  }

  // What an execution is allowed to change.
  lemma ExecuteValid(db: Db, j: nat, link: Link)
    requires ValidDb(db) && j < |db.jobs|
    ensures var db' := Execute(db, j, link).0; ValidDb(db') && Kept(db, db')
    ensures forall k :: 0 <= k < |db.jobs| && k != j ==> Execute(db, j, link).0.jobs[k] == db.jobs[k]
  {
    var job := db.jobs[j];
    if Ready(job) {
      var running := job.(state := Running, attempts := job.attempts + 1);
      var db1 := db.(jobs := db.jobs[j := running]);
      ValidRunning(db, j, running);
      DispatchValid(db1, j, link);
      var db2 := Dispatch(db1, j, link).0;
      ValidRunning(db2, j, running.(state := Success));
      ValidRunning(db2, j, running.(state := Failed));
    }
  }

  /* Worker runs */

  predicate InJobs(js: seq<nat>, db: Db) {
    forall k :: 0 <= k < |js| ==> js[k] < |db.jobs|
  }

  // Execute jobs one after another, up to the first that raises.
  function RunJobs(db: Db, js: seq<nat>, links: nat -> Link): (Db, bool)
    requires ValidDb(db) && InJobs(js, db)
    decreases |js|
  {
    if js == [] then (db, false)
    else
      ExecuteValid(db, js[0], links(js[0]));
      var (db', raised) := Execute(db, js[0], links(js[0]));
      if raised then (db', true) else RunJobs(db', js[1..], links)
  }

  // The first n queued jobs from position i on.
  function QueuedFrom(jobs: seq<Job>, i: nat, n: nat): (js: seq<nat>)
    requires i <= |jobs|
    ensures |js| <= n
    ensures forall k :: 0 <= k < |js| ==> i <= js[k] < |jobs| && jobs[js[k]].state == Queued
    ensures forall k, l :: 0 <= k < l < |js| ==> js[k] < js[l]
    ensures forall j :: i <= j < |jobs| && jobs[j].state == Queued && j !in js ==>
              |js| == n && forall k :: 0 <= k < |js| ==> js[k] < j
    decreases |jobs| - i
  {
    if i == |jobs| || n == 0 then []
    else if jobs[i].state == Queued then [i] + QueuedFrom(jobs, i + 1, n - 1)
    else QueuedFrom(jobs, i + 1, n)
  }

  function WorkerRun(db: Db, links: nat -> Link): (Db, bool)
    requires ValidDb(db)
  {
    RunJobs(db, QueuedFrom(db.jobs, 0, BATCH), links)
  }

  lemma {:induction false} RunJobsValid(db: Db, js: seq<nat>, links: nat -> Link)
    requires ValidDb(db) && InJobs(js, db)
    ensures var db' := RunJobs(db, js, links).0;
            && ValidDb(db') && Kept(db, db')
            && (forall k :: 0 <= k < |db.jobs| && k !in js ==> db'.jobs[k] == db.jobs[k])
    decreases |js|
  {
    if js == [] {
    } else {
      ExecuteValid(db, js[0], links(js[0]));
      var (db', raised) := Execute(db, js[0], links(js[0]));
      if !raised { RunJobsValid(db', js[1..], links); }
    }
  }

  // How a queued job looks once it has been executed.
  predicate Done(before: Job, after: Job, ok: bool) {
    if before.attempts < before.maxAttempts
    then after == before.(state := if ok then Success else Failed, attempts := before.attempts + 1)
    else after == before.(state := Failed)
  }

  lemma ExecuteDone(db: Db, j: nat, link: Link)
    requires ValidDb(db) && j < |db.jobs|
    ensures var (db', raised) := Execute(db, j, link);
            if db.jobs[j].state == Queued then Done(db.jobs[j], db'.jobs[j], !raised) else db' == db && !raised
  {
  }

  // The first m jobs of a list were executed, the last of them raising or not; every
  // other job is as it was.
  ghost predicate Worked(db: Db, js: seq<nat>, m: nat, raised: bool, db': Db) {
    && InJobs(js, db) && m <= |js| && (raised ==> m > 0) && (!raised ==> m == |js|) && |db'.jobs| == |db.jobs|
    && (forall k :: 0 <= k < m ==> Done(db.jobs[js[k]], db'.jobs[js[k]], !(raised && k == m - 1)))
    && (forall j :: 0 <= j < |db.jobs| && j !in js[..m] ==> db'.jobs[j] == db.jobs[j])
  }

  predicate NoRepeats(js: seq<nat>) {
    forall k, l :: 0 <= k < l < |js| ==> js[k] != js[l]
  }

  lemma WorkedMore(db: Db, js: seq<nat>, db1: Db, n: nat, raised: bool, db': Db)
    requires js != [] && InJobs(js, db) && NoRepeats(js) && |db1.jobs| == |db.jobs|
    requires Done(db.jobs[js[0]], db1.jobs[js[0]], true)
    requires forall j :: 0 <= j < |db.jobs| && j != js[0] ==> db1.jobs[j] == db.jobs[j]
    requires Worked(db1, js[1..], n, raised, db')
    ensures Worked(db, js, n + 1, raised, db')
  {
    var rest := js[1..];
    assert js[..n + 1] == [js[0]] + rest[..n];
    assert js[0] !in rest;
    assert db'.jobs[js[0]] == db1.jobs[js[0]];
    forall k | 0 <= k < n + 1
      ensures Done(db.jobs[js[k]], db'.jobs[js[k]], !(raised && k == n))
    {
      if k > 0 { assert js[k] == rest[k - 1] && js[k] != js[0]; }
    }
  }

  // A worker run completes the oldest queued jobs in order, at most twenty, up to and
  // including the first that raises; every other job is left as it was.
  lemma {:induction false} RunDiscipline(db: Db, js: seq<nat>, links: nat -> Link) returns (m: nat)
    requires ValidDb(db) && InJobs(js, db) && NoRepeats(js)
    requires forall k :: 0 <= k < |js| ==> db.jobs[js[k]].state == Queued
    ensures Worked(db, js, m, RunJobs(db, js, links).1, RunJobs(db, js, links).0)
    decreases |js|
  {
    if js == [] {
      m := 0;
    } else {
      ExecuteValid(db, js[0], links(js[0]));
      ExecuteDone(db, js[0], links(js[0]));
      var (db1, raised) := Execute(db, js[0], links(js[0]));
      if raised {
        m := 1;
        assert js[..1] == [js[0]];
      } else {
        var rest := js[1..];
        forall k | 0 <= k < |rest| ensures db1.jobs[rest[k]].state == Queued {
          assert rest[k] == js[k + 1] && js[0] != js[k + 1];
        }
        var n := RunDiscipline(db1, rest, links);
        WorkedMore(db, js, db1, n, RunJobs(db1, rest, links).1, RunJobs(db1, rest, links).0);
        m := n + 1;
      }
    }
  }

  // For the worker's own list.
  lemma WorkerDiscipline(db: Db, links: nat -> Link) returns (m: nat)
    requires ValidDb(db)
    ensures var js := QueuedFrom(db.jobs, 0, 20);
            Worked(db, js, m, WorkerRun(db, links).1, WorkerRun(db, links).0)
  {
    m := RunDiscipline(db, QueuedFrom(db.jobs, 0, BATCH), links);
  }

}
