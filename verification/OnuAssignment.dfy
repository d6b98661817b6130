/**
  Which ONU serves which subscription. Only the records touched by a batch are checked,
  and a batch that fails a check is rejected as a whole.
 */
module OnuAssignment {
  import opened Basics

  datatype Assignment = Assignment(onu: nat, sub: nat, active: bool, assignedAt: Option<nat>, unassignedAt: Option<nat>)
  datatype Patch = Patch(onu: Option<nat>, sub: Option<nat>, active: Option<bool>)

  predicate OnuClash(rows: seq<Assignment>, i: nat)
    requires i < |rows|
  {
    rows[i].active && exists k :: 0 <= k < |rows| && k != i && rows[k].active && rows[k].onu == rows[i].onu
  }

  predicate SubClash(rows: seq<Assignment>, i: nat)
    requires i < |rows|
  {
    rows[i].active && exists k :: 0 <= k < |rows| && k != i && rows[k].active && rows[k].sub == rows[i].sub
  }

  // The active assignments match ONUs and subscriptions one to one.
  ghost predicate Matching(rows: seq<Assignment>) {
    forall i, k :: 0 <= i < k < |rows| && rows[i].active && rows[k].active ==>
      rows[i].onu != rows[k].onu && rows[i].sub != rows[k].sub
  }

  function Stamped(v: Assignment, now: nat): Assignment {
    if v.active && v.assignedAt.None? then v.(assignedAt := Some(now)) else v
  }

  function Created(rows: seq<Assignment>, more: seq<Assignment>, now: nat): seq<Assignment> {
    rows + seq(|more|, k requires 0 <= k < |more| => Stamped(more[k], now))
  }

  function Patched(v: Assignment, p: Patch): Assignment {
    v.(onu := if p.onu.Some? then p.onu.value else v.onu,
       sub := if p.sub.Some? then p.sub.value else v.sub,
       active := if p.active.Some? then p.active.value else v.active)
  }

  function Written(rows: seq<Assignment>, ids: seq<nat>, p: Patch): seq<Assignment> {
    seq(|rows|, i requires 0 <= i < |rows| => if i in ids then Patched(rows[i], p) else rows[i])
  }

  // The time stamps that follow a write of the active flag.
  function Dated(v: Assignment, now: nat): Assignment {
    if v.active && v.assignedAt.None? then v.(assignedAt := Some(now))
    else if !v.active && v.unassignedAt.None? then v.(unassignedAt := Some(now))
    else v
  }

  function AllDated(rows: seq<Assignment>, ids: seq<nat>, p: Patch, now: nat): seq<Assignment> {
    seq(|rows|, i requires 0 <= i < |rows| => if p.active.Some? && i in ids then Dated(rows[i], now) else rows[i])
  }

  // The checks that run: for the touched records, and only for fields that were written.
  ghost predicate ChecksPass(rows: seq<Assignment>, ids: seq<nat>, onu: bool, sub: bool) {
    forall i :: i in ids && i < |rows| ==> (onu ==> !OnuClash(rows, i)) && (sub ==> !SubClash(rows, i))
  }

  // On a store that is a matching, the checks on the touched records decide exactly
  // whether the whole store still is one.
  lemma TouchedChecksDecide(rows: seq<Assignment>, rows': seq<Assignment>, ids: seq<nat>, onu: bool, sub: bool)
    requires Matching(rows) && |rows| <= |rows'|
    requires forall i :: 0 <= i < |rows| && i !in ids ==> rows'[i] == rows[i]
    requires forall i :: |rows| <= i < |rows'| ==> i in ids
    requires !onu ==> forall i :: 0 <= i < |rows| ==> rows'[i].onu == rows[i].onu && rows'[i].active == rows[i].active
    requires !sub ==> forall i :: 0 <= i < |rows| ==> rows'[i].sub == rows[i].sub && rows'[i].active == rows[i].active
    requires !onu || !sub ==> |rows'| == |rows|
    ensures ChecksPass(rows', ids, onu, sub) <==> Matching(rows')
  {
    if ChecksPass(rows', ids, onu, sub) {
      forall i, k | 0 <= i < k < |rows'| && rows'[i].active && rows'[k].active
        ensures rows'[i].onu != rows'[k].onu && rows'[i].sub != rows'[k].sub
      {
        if i in ids {
          assert onu ==> !OnuClash(rows', i);
          assert sub ==> !SubClash(rows', i);
        } else if k in ids {
          assert onu ==> !OnuClash(rows', k);
          assert sub ==> !SubClash(rows', k);
        }
      }
    } else {
      var i :| i in ids && i < |rows'| && ((onu && OnuClash(rows', i)) || (sub && SubClash(rows', i)));
      if onu && OnuClash(rows', i) {
        var k :| 0 <= k < |rows'| && k != i && rows'[k].active && rows'[k].onu == rows'[i].onu;
      } else {
        var k :| 0 <= k < |rows'| && k != i && rows'[k].active && rows'[k].sub == rows'[i].sub;
      }
    }
  }

  // New assignments go to the end as they are, active ones with a time.
  lemma CreatedRows(rows: seq<Assignment>, more: seq<Assignment>, now: nat)
    ensures var rows' := Created(rows, more, now);
            && rows <= rows' && |rows'| == |rows| + |more|
            && forall k :: 0 <= k < |more| ==>
                 var v, v' := more[k], rows'[|rows| + k];
                 v' == Assignment(v.onu, v.sub, v.active,
                                  if v.active && v.assignedAt == None then Some(now) else v.assignedAt, v.unassignedAt)
  {
  }

  // A write sets the given fields of the named records; where it gives activity, a record
  // without a time for it gets one.
  lemma WrittenRows(rows: seq<Assignment>, ids: seq<nat>, p: Patch, now: nat)
    ensures var rows' := AllDated(Written(rows, ids, p), ids, p, now);
            && |rows'| == |rows|
            && forall i :: 0 <= i < |rows| ==>
                 var v, v' := rows[i], rows'[i];
                 if i !in ids then v' == v
                 else
                   && v'.onu == (if p.onu.Some? then p.onu.value else v.onu)
                   && v'.sub == (if p.sub.Some? then p.sub.value else v.sub)
                   && v'.active == (if p.active.Some? then p.active.value else v.active)
                   && v'.assignedAt == (if p.active == Some(true) && v.assignedAt == None then Some(now)
                                        else v.assignedAt)
                   && v'.unassignedAt == (if p.active == Some(false) && v.unassignedAt == None then Some(now)
                                          else v.unassignedAt)
  {
  }

  class Store {
    var rows: seq<Assignment>

    constructor ()
      ensures rows == [] && Matching(rows)
    {
      rows := [];
    }

    // How many other active assignments have the ONU, and how many the subscription.
    method Others(i: nat) returns (sameOnu: bool, sameSub: bool)
      requires i < |rows|
      ensures sameOnu <==> exists k :: 0 <= k < |rows| && k != i && rows[k].active && rows[k].onu == rows[i].onu
      ensures sameSub <==> exists k :: 0 <= k < |rows| && k != i && rows[k].active && rows[k].sub == rows[i].sub
    {
      sameOnu, sameSub := false, false;
      for k := 0 to |rows|
        invariant sameOnu <==> exists l :: 0 <= l < k && l != i && rows[l].active && rows[l].onu == rows[i].onu
        invariant sameSub <==> exists l :: 0 <= l < k && l != i && rows[l].active && rows[l].sub == rows[i].sub
      {
        if k != i && rows[k].active {
          if rows[k].onu == rows[i].onu { sameOnu := true; }
          if rows[k].sub == rows[i].sub { sameSub := true; }
        }
      }
    }

    method Check(ids: seq<nat>, onu: bool, sub: bool) returns (ok: bool)
      ensures ok <==> ChecksPass(rows, ids, onu, sub)
    {
      for n := 0 to |ids|
        invariant forall m :: 0 <= m < n && ids[m] < |rows| ==>
                    (onu ==> !OnuClash(rows, ids[m])) && (sub ==> !SubClash(rows, ids[m]))
      {
        var i := ids[n];
        if i < |rows| && rows[i].active {
          var sameOnu, sameSub := Others(i);
          if (onu && sameOnu) || (sub && sameSub) {
            assert i in ids;
            return false;
          }
        }
      }
      ok := true;
    }

    // A batch of new assignments: accepted exactly if the store stays a matching.
    method Create(more: seq<Assignment>, now: nat) returns (ok: bool)
      requires Matching(rows)
      modifies this
      ensures Matching(rows)
      ensures ok <==> Matching(Created(old(rows), more, now))
      ensures rows == if ok then Created(old(rows), more, now) else old(rows)
    {
      var before := rows;
      var first := |rows|;
      var ids := seq(|more|, k requires 0 <= k < |more| => first + k);
      rows := Created(rows, more, now);
      forall i | |before| <= i < |rows| ensures i in ids {
        assert ids[i - |before|] == i;
      }
      ok := Check(ids, true, true);
      TouchedChecksDecide(before, rows, ids, true, true);
      if !ok { rows := before; }
    }

    // A batch write of some fields: likewise.
    method Write(ids: seq<nat>, p: Patch, now: nat) returns (ok: bool)
      requires Matching(rows)
      modifies this
      ensures Matching(rows)
      ensures ok <==> Matching(Written(old(rows), ids, p))
      ensures rows == if ok then AllDated(Written(old(rows), ids, p), ids, p, now) else old(rows)
    {
      var before := rows;
      rows := Written(rows, ids, p);
      var onu, sub := p.onu.Some? || p.active.Some?, p.sub.Some? || p.active.Some?;
      ok := Check(ids, onu, sub);
      TouchedChecksDecide(before, rows, ids, onu, sub);
      if ok {
        rows := AllDated(rows, ids, p, now);
      } else {
        rows := before;
      }
    }
  }
}
