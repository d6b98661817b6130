/**
  Worker runs of any sizes, one after the other: together they work off the queue from the
  front, and two ways of cutting the queue into batches end alike.
 */
module Batching {
  import opened Provisioning
  import opened JobQueue
  import opened JobOrder

  // The queued jobs from position i on, oldest first.
  function Waiting(jobs: seq<Job>, i: nat): seq<nat>
    requires i <= |jobs|
    decreases |jobs| - i
  {
    if i == |jobs| then []
    else (if jobs[i].state == Queued then [i] else []) + Waiting(jobs, i + 1)
  }

  lemma {:induction false} WaitingAreQueued(jobs: seq<Job>, i: nat)
    requires i <= |jobs|
    ensures forall k :: 0 <= k < |Waiting(jobs, i)| ==>
              i <= Waiting(jobs, i)[k] < |jobs| && jobs[Waiting(jobs, i)[k]].state == Queued
    decreases |jobs| - i
  {
    if i == |jobs| {
    } else {
      WaitingAreQueued(jobs, i + 1);
    }
  }

  // Runs that take at most so many jobs each; a job that raises ends its run, and the next
  // run starts from what is queued then. Each job meets its own connection.
  function BatchRuns(db: Db, limits: seq<nat>, links: nat -> Link): Db
    requires ValidDb(db)
    decreases |limits|
  {
    if limits == [] then db
    else
      var js := QueuedFrom(db.jobs, 0, limits[0]);
      RunJobsValid(db, js, links);
      BatchRuns(RunJobs(db, js, links).0, limits[1..], links)
  }

  function Front(js: seq<nat>, n: nat): seq<nat> {
    if n < |js| then js[..n] else js
  }

  // A limit takes the front of what is waiting.
  lemma {:induction false} LimitTakesFront(jobs: seq<Job>, i: nat, n: nat)
    requires i <= |jobs|
    ensures QueuedFrom(jobs, i, n) == Front(Waiting(jobs, i), n)
    decreases |jobs| - i
  {
    if i == |jobs| || n == 0 {
      assert QueuedFrom(jobs, i, n) == [];
    } else {
      WaitingHead(jobs, i);
      if jobs[i].state == Queued {
        LimitTakesFront(jobs, i + 1, n - 1);
        FrontCons(i, Waiting(jobs, i + 1), n);
      } else {
        LimitTakesFront(jobs, i + 1, n);
      }
    }
  }

  lemma WaitingHead(jobs: seq<Job>, i: nat)
    requires i < |jobs|
    ensures Waiting(jobs, i) == if jobs[i].state == Queued then [i] + Waiting(jobs, i + 1) else Waiting(jobs, i + 1)
  {
  }

  lemma FrontCons(j: nat, js: seq<nat>, n: nat)
    requires n > 0
    ensures Front([j] + js, n) == [j] + Front(js, n - 1)
  {
  }

  lemma {:induction false} SameWaiting(a: seq<Job>, b: seq<Job>, i: nat)
    requires |a| == |b| && i <= |a| && forall k :: i <= k < |a| ==> a[k] == b[k]
    ensures Waiting(a, i) == Waiting(b, i)
    decreases |a| - i
  {
    if i == |a| {
    } else {
      SameWaiting(a, b, i + 1);
    }
  }

  // When the oldest queued job is done, the others remain.
  lemma {:induction false} OldestDone(jobs: seq<Job>, jobs': seq<Job>, i: nat)
    requires |jobs'| == |jobs| && i <= |jobs| && Waiting(jobs, i) != []
    requires var j := Waiting(jobs, i)[0];
             && j < |jobs| && jobs'[j].state != Queued
             && forall k :: 0 <= k < |jobs| && k != j ==> jobs'[k] == jobs[k]
    ensures Waiting(jobs', i) == Waiting(jobs, i)[1..]
    decreases |jobs| - i
  {
    if jobs[i].state == Queued {
      SameWaiting(jobs, jobs', i + 1);
    } else {
      OldestDone(jobs, jobs', i + 1);
    }
  }

  lemma WaitingInJobs(db: Db)
    ensures InJobs(Waiting(db.jobs, 0), db)
  {
    WaitingAreQueued(db.jobs, 0);
  }

  lemma ExecuteOldest(db: Db, link: Link)
    requires ValidDb(db) && Waiting(db.jobs, 0) != []
    ensures var j := Waiting(db.jobs, 0)[0];
            && j < |db.jobs| && ValidDb(Execute(db, j, link).0)
            && Waiting(Execute(db, j, link).0.jobs, 0) == Waiting(db.jobs, 0)[1..]
  {
    WaitingAreQueued(db.jobs, 0);
    var j := Waiting(db.jobs, 0)[0];
    ExecuteValid(db, j, link);
    ExecuteDone(db, j, link);
    OldestDone(db.jobs, Execute(db, j, link).0.jobs, 0);
  }

  // From db to db', the first m waiting jobs have been executed in order; the rest wait.
  ghost predicate WorkedOff(db: Db, m: nat, links: nat -> Link, db': Db)
    requires ValidDb(db)
  {
    var queue := Waiting(db.jobs, 0);
    && m <= |queue| && InJobs(queue[..m], db)
    && db' == ExecuteAll(db, queue[..m], links) && Waiting(db'.jobs, 0) == queue[m..]
  }

  lemma NothingWorkedOff(db: Db, links: nat -> Link)
    requires ValidDb(db)
    ensures WorkedOff(db, 0, links, db)
  {
    assert Waiting(db.jobs, 0)[..0] == [];
  }

  lemma FrontOfRest(queue: seq<nat>, m: nat)
    requires m < |queue|
    ensures queue[..m + 1] == [queue[0]] + queue[1..][..m] && queue[1..][m..] == queue[m + 1..]
  {
  }

  // The oldest job and then m more.
  lemma OneMoreWorkedOff(db: Db, next: Db, m: nat, links: nat -> Link, db': Db)
    requires ValidDb(db) && ValidDb(next) && Waiting(db.jobs, 0) != [] && Waiting(db.jobs, 0)[0] < |db.jobs|
    requires next == Execute(db, Waiting(db.jobs, 0)[0], links(Waiting(db.jobs, 0)[0])).0
    requires Waiting(next.jobs, 0) == Waiting(db.jobs, 0)[1..] && WorkedOff(next, m, links, db')
    ensures WorkedOff(db, m + 1, links, db')
  {
    var queue := Waiting(db.jobs, 0);
    WaitingInJobs(db);
    FrontOfRest(queue, m);
    Unroll(db, queue[0], queue[1..][..m], links);
  }

  // The first job of a run: it ends the run if it raises.
  lemma RunHead(db: Db, js: seq<nat>, links: nat -> Link) returns (next: Db, raised: bool)
    requires ValidDb(db) && js != [] && js <= Waiting(db.jobs, 0)
    ensures InJobs(js, db) && ValidDb(next) && js[1..] <= Waiting(next.jobs, 0) && InJobs(js[1..], next)
    ensures RunJobs(db, js, links) == if raised then (next, true) else RunJobs(next, js[1..], links)
    ensures next == Execute(db, js[0], links(js[0])).0 && Waiting(next.jobs, 0) == Waiting(db.jobs, 0)[1..]
  {
    WaitingInJobs(db);
    ExecuteOldest(db, links(js[0]));
    ExecuteValid(db, js[0], links(js[0]));
    next := Execute(db, js[0], links(js[0])).0;
    raised := Execute(db, js[0], links(js[0])).1;
  }

  // The rest of a run and the runs after it.
  function Onwards(db: Db, js: seq<nat>, limits: seq<nat>, links: nat -> Link): Db
    requires ValidDb(db) && InJobs(js, db)
  {
    RunJobsValid(db, js, links);
    BatchRuns(RunJobs(db, js, links).0, limits, links)
  }

  lemma NextRun(db: Db, limits: seq<nat>, links: nat -> Link) returns (js: seq<nat>)
    requires ValidDb(db) && limits != []
    ensures js <= Waiting(db.jobs, 0) && InJobs(js, db)
    ensures Onwards(db, [], limits, links) == Onwards(db, js, limits[1..], links)
  {
    LimitTakesFront(db.jobs, 0, limits[0]);
    js := QueuedFrom(db.jobs, 0, limits[0]);
  }

  lemma OnwardsHead(db: Db, js: seq<nat>, limits: seq<nat>, links: nat -> Link) returns (next: Db, rest: seq<nat>)
    requires ValidDb(db) && js != [] && js <= Waiting(db.jobs, 0)
    ensures InJobs(js, db) && ValidDb(next) && |rest| < |js| && rest <= Waiting(next.jobs, 0) && InJobs(rest, next)
    ensures Onwards(db, js, limits, links) == Onwards(next, rest, limits, links)
    ensures next == Execute(db, js[0], links(js[0])).0 && Waiting(next.jobs, 0) == Waiting(db.jobs, 0)[1..]
  {
    var raised;
    next, raised := RunHead(db, js, links);
    rest := if raised then [] else js[1..];
  }

  // Any number of runs of any sizes, a raise ending its run, execute the first jobs of the
  // queue in order and leave the rest waiting.
  lemma {:induction false} OnwardsWorksOff(db: Db, js: seq<nat>, limits: seq<nat>, links: nat -> Link) returns (m: nat)
    requires ValidDb(db) && js <= Waiting(db.jobs, 0) && InJobs(js, db)
    ensures WorkedOff(db, m, links, Onwards(db, js, limits, links))
    decreases |limits|, |js|
  {
    if js != [] {
      var next, rest := OnwardsHead(db, js, limits, links);
      var n := OnwardsWorksOff(next, rest, limits, links);
      m := n + 1;
      OneMoreWorkedOff(db, next, n, links, Onwards(next, rest, limits, links));
    } else if limits != [] {
      var first := NextRun(db, limits, links);
      m := OnwardsWorksOff(db, first, limits[1..], links);
    } else {
      m := 0;
      NothingWorkedOff(db, links);
    }
  }

  lemma RunsTakeFront(db: Db, limits: seq<nat>, links: nat -> Link) returns (m: nat)
    requires ValidDb(db)
    ensures m <= |Waiting(db.jobs, 0)| && InJobs(Waiting(db.jobs, 0)[..m], db)
    ensures BatchRuns(db, limits, links) == ExecuteAll(db, Waiting(db.jobs, 0)[..m], links)
    ensures Waiting(BatchRuns(db, limits, links).jobs, 0) == Waiting(db.jobs, 0)[m..]
  {
    m := OnwardsWorksOff(db, [], limits, links);
  }

  // Runs that empty the queue amount to executing it in order.
  lemma RunsDrain(db: Db, limits: seq<nat>, links: nat -> Link)
    requires ValidDb(db) && Waiting(BatchRuns(db, limits, links).jobs, 0) == []
    ensures InJobs(Waiting(db.jobs, 0), db)
    ensures BatchRuns(db, limits, links) == ExecuteAll(db, Waiting(db.jobs, 0), links)
  {
    WaitingInJobs(db);
    var m := RunsTakeFront(db, limits, links);
    WholeFront(Waiting(db.jobs, 0), m);
  }

  lemma WholeFront(queue: seq<nat>, m: nat)
    requires m <= |queue| && queue[m..] == []
    ensures queue[..m] == queue
  {
    assert m == |queue| by { assert |queue[m..]| == |queue| - m; }
  }

  // Two ways of splitting the work that both empty the queue end in the same records and
  // the same router tables.
  lemma BatchingsAgree(db: Db, limits: seq<nat>, limits': seq<nat>, links: nat -> Link)
    requires ValidDb(db)
    requires Waiting(BatchRuns(db, limits, links).jobs, 0) == [] && Waiting(BatchRuns(db, limits', links).jobs, 0) == []
    ensures BatchRuns(db, limits, links) == BatchRuns(db, limits', links)
  {
    RunsDrain(db, limits, links);
    RunsDrain(db, limits', links);
  }
}
