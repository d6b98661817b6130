/**
  Jobs of different subscriptions do not interfere: however executions are interleaved
  or cut into batches, what counts is each subscription's own order.
 */
module JobOrder {
  import opened Basics
  import opened Provisioning
  import opened JobQueue

  // Distinct names, user names and addresses for all subscriptions.
  ghost predicate WellKeyed(db: Db) {
    ValidDb(db) &&
    forall i, k :: 0 <= i < |db.subs| && 0 <= k < |db.subs| && i != k ==> Apart(KeysAt(db, i), KeysAt(db, k))
  }

  // Executions one after another; a raise ends a batch, and the next batch goes on.
  function ExecuteAll(db: Db, js: seq<nat>, links: nat -> Link): Db
    requires ValidDb(db) && InJobs(js, db)
    decreases |js|
  {
    if js == [] then db
    else (ExecuteValid(db, js[0], links(js[0])); ExecuteAll(Execute(db, js[0], links(js[0])).0, js[1..], links))
  }

  // A batch executes a prefix of its list.
  lemma {:induction false} BatchIsPrefix(db: Db, js: seq<nat>, links: nat -> Link) returns (m: nat)
    requires ValidDb(db) && InJobs(js, db)
    ensures m <= |js| && RunJobs(db, js, links).0 == ExecuteAll(db, js[..m], links)
    ensures !RunJobs(db, js, links).1 ==> m == |js|
    decreases |js|
  {
    if js == [] {
      m := 0;
    } else {
      ExecuteValid(db, js[0], links(js[0]));
      var (db', raised) := Execute(db, js[0], links(js[0]));
      if raised {
        m := 1;
        assert js[..1][1..] == [];
      } else {
        var n := BatchIsPrefix(db', js[1..], links);
        m := n + 1;
        assert js[..m][1..] == js[1..][..n];
      }
    }
  }

  lemma KeysStay(db: Db, db': Db, i: nat)
    requires ValidDb(db) && ValidDb(db') && Kept(db, db') && i < |db.subs|
    ensures KeysAt(db', i) == KeysAt(db, i) && PlanOf(db', i) == PlanOf(db, i)
  {
    assert SameIdentity(db.subs[i], db'.subs[i]);
  }

  lemma WellKeyedStays(db: Db, db': Db)
    requires WellKeyed(db) && ValidDb(db') && Kept(db, db')
    ensures WellKeyed(db')
  {
    forall i, k | 0 <= i < |db'.subs| && 0 <= k < |db'.subs| && i != k
      ensures Apart(KeysAt(db', i), KeysAt(db', k))
    {
      KeysStay(db, db', i);
      KeysStay(db, db', k);
    }
  }

  // A committed effect on one subscription is invisible to every other.
  lemma OthersUnseen(db: Db, i: nat, e: Effect, k: nat)
    requires WellKeyed(db) && i < |db.subs| && k < |db.subs| && i != k && SameIdentity(db.subs[i], e.sub)
    ensures var db' := Commit(db, i, e);
            ValidDb(db') && db'.subs[k] == db.subs[k] && RowsAt(db', k) == RowsAt(db, k)
  {
    if db.subs[i].router.Some? && db.subs[k].router.Some? {
      var r := db.subs[i].router.value;
      StoreApart(db.routers[r], KeysAt(db, i), KeysAt(db, k), e.rows, e.rows);
    }
  }

  lemma CommitsCommute(db: Db, i: nat, e: Effect, k: nat, f: Effect)
    requires WellKeyed(db) && i < |db.subs| && k < |db.subs| && i != k
    requires SameIdentity(db.subs[i], e.sub) && SameIdentity(db.subs[k], f.sub)
    ensures ValidDb(Commit(db, i, e)) && ValidDb(Commit(db, k, f))
    ensures Commit(Commit(db, i, e), k, f) == Commit(Commit(db, k, f), i, e)
  {
    OthersUnseen(db, i, e, k);
    OthersUnseen(db, k, f, i);
    assert db.subs[i := e.sub][k := f.sub] == db.subs[k := f.sub][i := e.sub];
    if db.subs[i].router.Some? && db.subs[k].router.Some? {
      var r, s := db.subs[i].router.value, db.subs[k].router.value;
      StoreApart(db.routers[r], KeysAt(db, i), KeysAt(db, k), e.rows, f.rows);
      var a, b := Commit(Commit(db, i, e), k, f), Commit(Commit(db, k, f), i, e);
      assert a.routers == b.routers;
    }
  }

  /* One execution, taken apart */

  // The handler effect of executing a job now, if there is any.
  function EffectOf(db: Db, j: nat, link: Link): Option<Effect>
    requires ValidDb(db) && j < |db.jobs|
  {
    var job := db.jobs[j];
    if !Ready(job) || job.kind == Other || job.sub.None? then None
    else Some(EffectAt(db, job.kind, job.sub.value, link))
  }

  function JobAfter(job: Job, e: Option<Effect>, link: Link): Job {
    if job.state != Queued then job
    else if job.attempts >= job.maxAttempts then job.(state := Failed)
    else
      var ok := if job.kind == Other then link.other else e.Some? && e.value.ok;
      job.(state := if ok then Success else Failed, attempts := job.attempts + 1)
  }

  lemma ExecuteForm(db: Db, j: nat, link: Link)
    requires ValidDb(db) && j < |db.jobs|
    ensures var e := EffectOf(db, j, link);
            Execute(db, j, link).0 ==
            (if e.None? then db else Commit(db, db.jobs[j].sub.value, e.value))
            .(jobs := db.jobs[j := JobAfter(db.jobs[j], e, link)])
  {
    var job := db.jobs[j];
    if Ready(job) {
      var running := job.(state := Running, attempts := job.attempts + 1);
      var db1 := db.(jobs := db.jobs[j := running]);
      ValidRunning(db, j, running);
      if job.kind != Other && job.sub.Some? {
        var i := job.sub.value;
        assert RowsAt(db1, i) == RowsAt(db, i) && PlanOf(db1, i) == PlanOf(db, i);
        assert EffectAt(db1, job.kind, i, link) == EffectAt(db, job.kind, i, link);
      }
      var done := JobAfter(job, EffectOf(db, j, link), link);
      assert db.jobs[j := running][j := done] == db.jobs[j := done];
    } else if job.state != Queued {
      assert db.jobs[j := job] == db.jobs;
    }
  }

  // An execution for another subscription leaves a job's effect what it was.
  lemma EffectUnseen(db: Db, j: nat, k: nat, link: Link, link': Link)
    requires WellKeyed(db) && j < |db.jobs| && k < |db.jobs| && db.jobs[j].sub != db.jobs[k].sub
    ensures ValidDb(Execute(db, j, link).0) && k < |Execute(db, j, link).0.jobs|
    ensures EffectOf(Execute(db, j, link).0, k, link') == EffectOf(db, k, link')
  {
    ExecuteValid(db, j, link);
    ExecuteForm(db, j, link);
    var e := EffectOf(db, j, link);
    if e.Some? && db.jobs[k].sub.Some? {
      var i := db.jobs[j].sub.value;
      CommitValid(db, db.jobs[j].kind, i, link);
      OthersUnseen(db, i, e.value, db.jobs[k].sub.value);
    }
  }

  // Two executions for different subscriptions can change places.
  lemma ExecutionsCommute(db: Db, j: nat, k: nat, links: nat -> Link)
    requires WellKeyed(db) && j < |db.jobs| && k < |db.jobs| && db.jobs[j].sub != db.jobs[k].sub
    ensures var a, b := Execute(db, j, links(j)).0, Execute(db, k, links(k)).0;
            && ValidDb(a) && ValidDb(b) && k < |a.jobs| && j < |b.jobs|
            && Execute(a, k, links(k)).0 == Execute(b, j, links(j)).0
  {
    var a, b := Execute(db, j, links(j)).0, Execute(db, k, links(k)).0;
    var e, f := EffectOf(db, j, links(j)), EffectOf(db, k, links(k));
    ExecuteValid(db, j, links(j));
    ExecuteValid(db, k, links(k));
    EffectUnseen(db, j, k, links(j), links(k));
    EffectUnseen(db, k, j, links(k), links(j));
    ExecuteForm(db, j, links(j));
    ExecuteForm(db, k, links(k));
    ExecuteForm(a, k, links(k));
    ExecuteForm(b, j, links(j));
    var jobs' := db.jobs[j := JobAfter(db.jobs[j], e, links(j))][k := JobAfter(db.jobs[k], f, links(k))];
    assert jobs' == db.jobs[k := JobAfter(db.jobs[k], f, links(k))][j := JobAfter(db.jobs[j], e, links(j))];
    if e.Some? && f.Some? {
      CommitValid(db, db.jobs[j].kind, db.jobs[j].sub.value, links(j));
      CommitValid(db, db.jobs[k].kind, db.jobs[k].sub.value, links(k));
      CommitsCommute(db, db.jobs[j].sub.value, e.value, db.jobs[k].sub.value, f.value);
    }
  }

  /* Interleavings */

  // The executions of one subscription's jobs, in their order.
  function Projection(jobs: seq<Job>, js: seq<nat>, owner: Option<nat>): seq<nat> {
    if js == [] then []
    else
      (if js[0] < |jobs| && jobs[js[0]].sub == owner then [js[0]] else []) + Projection(jobs, js[1..], owner)
  }

  lemma {:induction false} ProjectionConcat(jobs: seq<Job>, u: seq<nat>, v: seq<nat>, owner: Option<nat>)
    ensures Projection(jobs, u + v, owner) == Projection(jobs, u, owner) + Projection(jobs, v, owner)
  {
    if u == [] {
      assert u + v == v;
    } else {
      ProjectionConcat(jobs, u[1..], v, owner);
      assert (u + v)[0] == u[0] && (u + v)[1..] == u[1..] + v;
      Associates(if u[0] < |jobs| && jobs[u[0]].sub == owner then [u[0]] else [],
                 Projection(jobs, u[1..], owner), Projection(jobs, v, owner));
    }
  }

  lemma {:induction false} SameOwners(jobs: seq<Job>, jobs': seq<Job>, js: seq<nat>, owner: Option<nat>)
    requires |jobs| == |jobs'| && forall j :: 0 <= j < |jobs| ==> jobs'[j].sub == jobs[j].sub
    ensures Projection(jobs', js, owner) == Projection(jobs, js, owner)
  {
    if js == [] {
    } else {
      SameOwners(jobs, jobs', js[1..], owner);
    }
  }

  lemma OwnersStay(db: Db, j: nat, link: Link)
    requires ValidDb(db) && j < |db.jobs|
    ensures var jobs' := Execute(db, j, link).0.jobs;
            |jobs'| == |db.jobs| && forall k :: 0 <= k < |db.jobs| ==> jobs'[k].sub == db.jobs[k].sub
  {
    ExecuteValid(db, j, link);
    ExecuteForm(db, j, link);
  }

  lemma InConcat(u: seq<nat>, x: nat, z: seq<nat>, db: Db)
    requires InJobs(u, db) && x < |db.jobs| && InJobs(z, db)
    ensures InJobs(u + [x] + z, db) && InJobs([x] + u + z, db) && InJobs(u + z, db)
  {
  }

  lemma Unroll(db: Db, x: nat, rest: seq<nat>, links: nat -> Link)
    requires ValidDb(db) && x < |db.jobs| && InJobs(rest, db)
    ensures ValidDb(Execute(db, x, links(x)).0) && InJobs(rest, Execute(db, x, links(x)).0)
    ensures InJobs([x] + rest, db)
    ensures ExecuteAll(db, [x] + rest, links) == ExecuteAll(Execute(db, x, links(x)).0, rest, links)
  {
    ExecuteValid(db, x, links(x));
    assert ([x] + rest)[1..] == rest;
  }

  // A job can be brought forward past jobs of other subscriptions.
  lemma {:induction false} BringForward(db: Db, w: seq<nat>, x: nat, z: seq<nat>, links: nat -> Link)
    requires WellKeyed(db) && InJobs(w, db) && x < |db.jobs| && InJobs(z, db)
    requires forall k :: 0 <= k < |w| ==> db.jobs[w[k]].sub != db.jobs[x].sub
    ensures InJobs(w + [x] + z, db) && InJobs([x] + w + z, db)
    ensures ExecuteAll(db, w + [x] + z, links) == ExecuteAll(db, [x] + w + z, links)
    decreases |w|
  {
    InConcat(w, x, z, db);
    if w == [] {
      assert w + [x] + z == [x] + w + z;
    } else {
      BringFirst(db, w, x, z, links);
    }
  }

  lemma SwapFront(db: Db, y: nat, x: nat, rest: seq<nat>, links: nat -> Link)
    requires WellKeyed(db) && y < |db.jobs| && x < |db.jobs| && InJobs(rest, db) && db.jobs[y].sub != db.jobs[x].sub
    ensures InJobs([y] + ([x] + rest), db) && InJobs([x] + ([y] + rest), db)
    ensures ExecuteAll(db, [y] + ([x] + rest), links) == ExecuteAll(db, [x] + ([y] + rest), links)
  {
    Unroll(db, y, [x] + rest, links);
    Unroll(db, x, [y] + rest, links);
    ExecutionsCommute(db, y, x, links);
    Unroll(Execute(db, y, links(y)).0, x, rest, links);
    Unroll(Execute(db, x, links(x)).0, y, rest, links);
  }

  lemma {:induction false} BringFirst(db: Db, w: seq<nat>, x: nat, z: seq<nat>, links: nat -> Link)
    requires WellKeyed(db) && InJobs(w, db) && x < |db.jobs| && InJobs(z, db) && w != []
    requires forall k :: 0 <= k < |w| ==> db.jobs[w[k]].sub != db.jobs[x].sub
    ensures InJobs(w + [x] + z, db) && InJobs([x] + w + z, db)
    ensures ExecuteAll(db, w + [x] + z, links) == ExecuteAll(db, [x] + w + z, links)
    decreases |w|, 0
  {
    var y, w' := w[0], w[1..];
    assert w + [x] + z == [y] + (w' + [x] + z);
    assert [x] + w' + z == [x] + (w' + z);
    assert [x] + w + z == [x] + ([y] + (w' + z));
    InConcat(w', x, z, db);
    SwapFront(db, y, x, w' + z, links);
    Unroll(db, y, w' + [x] + z, links);
    Unroll(db, y, [x] + (w' + z), links);
    AfterFirst(db, w, x, z, links);
  }

  lemma {:induction false} AfterFirst(db: Db, w: seq<nat>, x: nat, z: seq<nat>, links: nat -> Link)
    requires WellKeyed(db) && InJobs(w, db) && x < |db.jobs| && InJobs(z, db) && w != []
    requires forall k :: 0 <= k < |w| ==> db.jobs[w[k]].sub != db.jobs[x].sub
    ensures var db1 := Execute(db, w[0], links(w[0])).0;
            && ValidDb(db1) && InJobs(w[1..] + [x] + z, db1) && InJobs([x] + w[1..] + z, db1)
            && ExecuteAll(db1, w[1..] + [x] + z, links) == ExecuteAll(db1, [x] + w[1..] + z, links)
    decreases |w|, 0, 0
  {
    var db1 := Execute(db, w[0], links(w[0])).0;
    ExecuteValid(db, w[0], links(w[0]));
    OwnersStay(db, w[0], links(w[0]));
    WellKeyedStays(db, db1);
    BringForward(db1, w[1..], x, z, links);
  }

  // The first execution for an owner is the first of its projection.
  lemma {:induction false} FirstOf(jobs: seq<Job>, v: seq<nat>, owner: Option<nat>) returns (p: nat)
    requires Projection(jobs, v, owner) != []
    ensures p < |v| && v[p] < |jobs| && jobs[v[p]].sub == owner && v[p] == Projection(jobs, v, owner)[0]
    ensures forall k :: 0 <= k < p ==> !(v[k] < |jobs| && jobs[v[k]].sub == owner)
  {
    if v[0] < |jobs| && jobs[v[0]].sub == owner {
      p := 0;
    } else {
      var q := FirstOf(jobs, v[1..], owner);
      p := q + 1;
      assert forall k :: 1 <= k < p ==> v[k] == v[1..][k - 1];
    }
  }

  // Taking that execution out of both lists leaves equal projections.
  lemma RemoveFirst(jobs: seq<Job>, u: seq<nat>, w: seq<nat>, z: seq<nat>, c: Option<nat>)
    requires u != [] && u[0] < |jobs|
    requires Projection(jobs, u, c) == Projection(jobs, w + [u[0]] + z, c)
    requires forall k :: 0 <= k < |w| ==> !(w[k] < |jobs| && jobs[w[k]].sub == jobs[u[0]].sub)
    ensures Projection(jobs, u[1..], c) == Projection(jobs, w + z, c)
  {
    var x := u[0];
    ProjectionConcat(jobs, w, [x], c);
    ProjectionConcat(jobs, w + [x], z, c);
    ProjectionConcat(jobs, w, z, c);
    assert [x][1..] == [];
    if c == jobs[x].sub {
      NoneBefore(jobs, w, c);
      assert Projection(jobs, [x], c) == [x];
      assert Projection(jobs, u, c)[1..] == Projection(jobs, u[1..], c);
      assert Projection(jobs, w + [x] + z, c)[1..] == Projection(jobs, z, c) == Projection(jobs, w + z, c);
    } else {
      assert Projection(jobs, [x], c) == [];
      assert Projection(jobs, w, c) + [] == Projection(jobs, w, c);
    }
  }

  lemma ProjectionHead(jobs: seq<Job>, v: seq<nat>)
    requires v != [] && v[0] < |jobs|
    ensures Projection(jobs, v, jobs[v[0]].sub) != []
  {
  }

  // Two interleavings that keep each subscription's own order end in the same records
  // and the same router tables.
  lemma {:induction false} InterleavingsAgree(db: Db, u: seq<nat>, v: seq<nat>, links: nat -> Link)
    requires WellKeyed(db) && InJobs(u, db) && InJobs(v, db)
    requires forall owner: Option<nat> :: Projection(db.jobs, u, owner) == Projection(db.jobs, v, owner)
    ensures ExecuteAll(db, u, links) == ExecuteAll(db, v, links)
    decreases |u|
  {
    if u == [] {
      if v != [] { ProjectionHead(db.jobs, v); }
    } else {
      var x := u[0];
      assert Projection(db.jobs, u, db.jobs[x].sub) == Projection(db.jobs, v, db.jobs[x].sub);
      var p := FirstOf(db.jobs, v, db.jobs[x].sub);
      var w, z := v[..p], v[p + 1..];
      assert v == w + [x] + z;
      BringForward(db, w, x, z, links);
      RestAgrees(db, u, w, z, links);
    }
  }

  lemma {:induction false} RestAgrees(db: Db, u: seq<nat>, w: seq<nat>, z: seq<nat>, links: nat -> Link)
    requires WellKeyed(db) && InJobs(u, db) && u != [] && InJobs(w, db) && InJobs(z, db)
    requires forall c: Option<nat> :: Projection(db.jobs, u, c) == Projection(db.jobs, w + [u[0]] + z, c)
    requires forall k :: 0 <= k < |w| ==> db.jobs[w[k]].sub != db.jobs[u[0]].sub
    ensures InJobs([u[0]] + w + z, db) && ExecuteAll(db, u, links) == ExecuteAll(db, [u[0]] + w + z, links)
    decreases |u|, 0
  {
    var x := u[0];
    var db' := Execute(db, x, links(x)).0;
    ExecuteValid(db, x, links(x));
    OwnersStay(db, x, links(x));
    WellKeyedStays(db, db');
    InConcat(w, x, z, db);
    forall c: Option<nat>
      ensures Projection(db'.jobs, u[1..], c) == Projection(db'.jobs, w + z, c)
    {
      assert Projection(db.jobs, u, c) == Projection(db.jobs, w + [x] + z, c);
      RemoveFirst(db.jobs, u, w, z, c);
      SameOwners(db.jobs, db'.jobs, u[1..], c);
      SameOwners(db.jobs, db'.jobs, w + z, c);
    }
    InterleavingsAgree(db', u[1..], w + z, links);
    assert u == [x] + u[1..] && [x] + w + z == [x] + (w + z);
    Unroll(db, x, u[1..], links);
    Unroll(db, x, w + z, links);
  }

  lemma {:induction false} NoneBefore(jobs: seq<Job>, w: seq<nat>, owner: Option<nat>)
    requires forall k :: 0 <= k < |w| ==> !(w[k] < |jobs| && jobs[w[k]].sub == owner)
    ensures Projection(jobs, w, owner) == []
  {
    if w == [] {
    } else {
      NoneBefore(jobs, w[1..], owner);
    }
  }

  // No execution touches another subscription's record or rows.
  lemma OtherSubscriptionsUntouched(db: Db, j: nat, link: Link, i: nat)
    requires WellKeyed(db) && j < |db.jobs| && i < |db.subs| && db.jobs[j].sub != Some(i)
    ensures var db' := Execute(db, j, link).0;
            ValidDb(db') && i < |db'.subs| && db'.subs[i] == db.subs[i] && RowsAt(db', i) == RowsAt(db, i)
  {
    ExecuteValid(db, j, link);
    ExecuteForm(db, j, link);
    var e := EffectOf(db, j, link);
    if e.Some? {
      var k := db.jobs[j].sub.value;
      CommitValid(db, db.jobs[j].kind, k, link);
      OthersUnseen(db, k, e.value, i);
    }
  }
}
