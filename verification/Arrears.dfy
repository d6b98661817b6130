/**
  Two computations of one status: the dashboard's loop over invoices and the portal's
  over one subscription. They agree except on a mixture of old and recent debts.
 */
module Arrears {
  import opened Basics
  import opened Calendar
  import opened Provisioning
  import opened JobQueue
  import opened Billing

  datatype Status = UpToDate | Grace | InArrears

  predicate Counts(v: Invoice, i: nat) {
    v.sub == Some(i) && Unpaid(v) && v.due.Some?
  }

  predicate WithinGrace(v: Invoice, today: Date, grace: int)
    requires v.due.Some?
  {
    Ordinal(v.due.value) + grace >= Ordinal(today)
  }

  predicate HasRecent(invoices: seq<Invoice>, i: nat, today: Date, grace: int) {
    exists v :: v in invoices && Counts(v, i) && WithinGrace(v, today, grace)
  }

  predicate HasOld(invoices: seq<Invoice>, i: nat, today: Date, grace: int) {
    exists v :: v in invoices && Counts(v, i) && !WithinGrace(v, today, grace)
  }

  // The worst of a subscription's debts decides.
  function Worst(invoices: seq<Invoice>, i: nat, today: Date, grace: int): Status {
    if HasOld(invoices, i, today, grace) then InArrears
    else if HasRecent(invoices, i, today, grace) then Grace
    else UpToDate
  }

  function ActiveOnes(subs: seq<Sub>): set<nat> {
    set i: nat | i < |subs| && subs[i].state == Active
  }

  // One more invoice.
  function Bump(s: Status, v: Invoice, i: nat, today: Date, grace: int): Status {
    if !Counts(v, i) then s
    else if !WithinGrace(v, today, grace) then InArrears
    else if s == InArrears then s
    else Grace
  }

  lemma WorstSnoc(invoices: seq<Invoice>, v: Invoice, i: nat, today: Date, grace: int)
    ensures Worst(invoices + [v], i, today, grace) == Bump(Worst(invoices, i, today, grace), v, i, today, grace)
  {
    var all := invoices + [v];
    assert v in all && forall u :: u in invoices ==> u in all;
  }

  // What the loop does with one invoice.
  method CountIn(status: map<nat, Status>, v: Invoice, today: Date, grace: int) returns (status': map<nat, Status>)
    ensures status'.Keys == status.Keys
    ensures forall i :: i in status ==> status'[i] == Bump(status[i], v, i, today, grace)
  {
    status' := status;
    if v.sub.Some? && v.sub.value in status && Unpaid(v) && v.due.Some? {
      var i := v.sub.value;
      if Ordinal(v.due.value) + grace >= Ordinal(today) {
        if status[i] != InArrears { status' := status[i := Grace]; }
      } else {
        status' := status[i := InArrears];
      }
    }
  }

  // The dashboard: one pass over all invoices, in whatever order they come.
  method StatusMap(subs: seq<Sub>, invoices: seq<Invoice>, today: Date, grace: int) returns (status: map<nat, Status>)
    ensures status.Keys == ActiveOnes(subs)
    ensures forall i :: i in status ==> status[i] == Worst(invoices, i, today, grace)
  {
    status := map i | i in ActiveOnes(subs) :: UpToDate;
    for m := 0 to |invoices|
      invariant status.Keys == ActiveOnes(subs)
      invariant forall i :: i in status ==> status[i] == Worst(invoices[..m], i, today, grace)
    {
      assert invoices[..m + 1] == invoices[..m] + [invoices[m]];
      forall i | i in status
        ensures Worst(invoices[..m + 1], i, today, grace) == Bump(status[i], invoices[m], i, today, grace)
      {
        WorstSnoc(invoices[..m], invoices[m], i, today, grace);
      }
      status := CountIn(status, invoices[m], today, grace);
    }
    assert invoices[..|invoices|] == invoices;
  }

  function With(status: map<nat, Status>, s: Status): set<nat> {
    set i | i in status && status[i] == s
  }

  function Tally(status: map<nat, Status>, s: Status): nat {
    |With(status, s)|
  }

  // The three counts account for every active subscription once.
  lemma CountsSum(subs: seq<Sub>, status: map<nat, Status>)
    requires status.Keys == ActiveOnes(subs)
    ensures Tally(status, UpToDate) + Tally(status, Grace) + Tally(status, InArrears) == |ActiveOnes(subs)|
  {
    ThreeParts(With(status, UpToDate), With(status, Grace), With(status, InArrears));
    assert With(status, UpToDate) + With(status, Grace) + With(status, InArrears) == status.Keys;
  }

  lemma ThreeParts(a: set<nat>, b: set<nat>, c: set<nat>)
    requires a !! b && a !! c && b !! c
    ensures |a + b + c| == |a| + |b| + |c|
  {
    assert |a + b| == |a| + |b|;
    assert |(a + b) + c| == |a + b| + |c|;
  }

  datatype Portal = Portal(status: Status) | Label(state: Lifecycle)

  // What the portal shows for an active subscription: any debt within grace wins.
  function PortalOf(invoices: seq<Invoice>, i: nat, today: Date, grace: int): Status {
    if HasRecent(invoices, i, today, grace) then Grace
    else if HasOld(invoices, i, today, grace) then InArrears
    else UpToDate
  }

  // The portal: one subscription, stopping at the first invoice within grace.
  method PortalStatus(s: Sub, i: nat, invoices: seq<Invoice>, today: Date, grace: int) returns (p: Portal)
    ensures s.state != Active ==> p == Label(s.state)
    ensures s.state == Active ==> p == Portal(PortalOf(invoices, i, today, grace))
  {
    if s.state != Active { return Label(s.state); }
    var overdue, recent := false, false;
    for m := 0 to |invoices|
      invariant overdue == exists k :: 0 <= k < m && Counts(invoices[k], i)
    {
      if Counts(invoices[m], i) { overdue := true; }
    }
    if overdue {
      var m := 0;
      while m < |invoices| && !recent
        invariant m <= |invoices|
        invariant recent ==> HasRecent(invoices, i, today, grace)
        invariant !recent ==>
                    forall k :: 0 <= k < m && Counts(invoices[k], i) ==> !WithinGrace(invoices[k], today, grace)
        decreases |invoices| - m, !recent
      {
        if Counts(invoices[m], i) && WithinGrace(invoices[m], today, grace) {
          assert invoices[m] in invoices;
          recent := true;
        }
        m := m + 1;
      }
    }
    if overdue && !recent {
      var k :| 0 <= k < |invoices| && Counts(invoices[k], i);
      assert invoices[k] in invoices && !WithinGrace(invoices[k], today, grace);
    }
    p := Portal(if overdue && !recent then InArrears else if overdue then Grace else UpToDate);
  }

  // Dashboard and portal agree on an active subscription exactly when it does not have
  // both a debt within grace and one past it.
  lemma ComputationsAgreeIff(invoices: seq<Invoice>, i: nat, today: Date, grace: int)
    ensures Worst(invoices, i, today, grace) == PortalOf(invoices, i, today, grace)
            <==> !(HasRecent(invoices, i, today, grace) && HasOld(invoices, i, today, grace))
  {
  }

  // A posted, unpaid invoice of the subscription, due so many days ago.
  predicate Owed(v: Invoice, i: nat, today: Date, days: int) {
    v.sub == Some(i) && v.posted && !v.paid && v.due.Some? && days == Ordinal(today) - Ordinal(v.due.value)
  }

  // Both in terms of invoices: in arrears with a debt older than grace on the dashboard, only
  // with no debt within it on the portal; up to date without any.
  lemma StatusRules(invoices: seq<Invoice>, i: nat, today: Date, grace: int)
    ensures var late := exists v, days :: v in invoices && Owed(v, i, today, days) && days > grace;
            var recent := exists v, days :: v in invoices && Owed(v, i, today, days) && days <= grace;
            && Worst(invoices, i, today, grace) == (if late then InArrears else if recent then Grace else UpToDate)
            && PortalOf(invoices, i, today, grace) == (if recent then Grace else if late then InArrears else UpToDate)
  {
    forall v | v in invoices && Counts(v, i)
      ensures Owed(v, i, today, Ordinal(today) - Ordinal(v.due.value))
    {
    }
  }

  // One debt due today and one past grace: in arrears on the dashboard, while the portal
  // shows the grace period.
  lemma MixedDebtsDisagree(i: nat, today: Date, old': Date, grace: nat)
    requires Ordinal(old') + grace < Ordinal(today)
    ensures var invoices := [Invoice(Some(i), true, false, None, Some(today)),
                             Invoice(Some(i), true, false, None, Some(old'))];
            Worst(invoices, i, today, grace) == InArrears && PortalOf(invoices, i, today, grace) == Grace
  {
    var recent := Invoice(Some(i), true, false, None, Some(today));
    var past := Invoice(Some(i), true, false, None, Some(old'));
    assert recent in [recent, past] && past in [recent, past];
    assert Counts(recent, i) && WithinGrace(recent, today, grace);
    assert Counts(past, i) && !WithinGrace(past, today, grace);
  }

  // Invoices in another order, or repeated, give the same status.
  lemma OrderIrrelevant(a: seq<Invoice>, b: seq<Invoice>, i: nat, today: Date, grace: int)
    requires forall v :: v in a <==> v in b
    ensures Worst(a, i, today, grace) == Worst(b, i, today, grace)
  {
  }

  // If suspension waits longer than grace, every subscription that qualifies through a
  // due-dated invoice is in arrears on the dashboard.
  lemma QualifyingInArrears(db: Db, v: Invoice, today: Date, standard: int, grace: int)
    requires ValidDb(db) && v in db.invoices && v.due.Some? && (v.sub.Some? ==> v.sub.value < |db.subs|)
    requires Qualifies(db, v, today, standard)
    requires EffectiveDays(PlanOf(db, v.sub.value), standard) > grace
    ensures Worst(db.invoices, v.sub.value, today, grace) == InArrears
  {
    assert Counts(v, v.sub.value) && !WithinGrace(v, today, grace);
  }

  // And only then: with a shorter wait some day suspends what is still within grace.
  lemma ThresholdExact(days: int, grace: int, due: Date)
    requires Ordinal(due) + days >= 1
    ensures (forall today: Date :: Ordinal(today) >= Ordinal(due) + days ==> Ordinal(due) + grace < Ordinal(today))
            <==> days > grace
  {
    OrdinalOfDate(Ordinal(due) + days);
  }
}
