/** The billing crons: invoices by calendar, suspension of the overdue, reconnection of the paid up. */
module Billing {
  import opened Basics
  import opened Calendar
  import opened Provisioning
  import opened JobQueue

  /* Invoices */

  function InvoiceOn(today: Date, i: nat, posted: bool): Invoice {
    Invoice(Some(i), posted, false, Some(today), Some(today))
  }

  function GenerateInvoice(db: Db, i: nat, today: Date, posted: bool): Db
    requires i < |db.subs|
  {
    var from := if db.subs[i].nextInvoice.Some? then db.subs[i].nextInvoice.value else today;
    db.(invoices := db.invoices + [InvoiceOn(today, i, posted)],
        subs := db.subs[i := db.subs[i].(nextInvoice := Some(AddMonth(from)))])
  }

  predicate InvoiceDue(s: Sub, today: Date) {
    s.state == Active && s.nextInvoice.Some? && Ordinal(s.nextInvoice.value) <= Ordinal(today)
  }

  // Subscriptions n - 1 down to 0, one invoice each where due.
  function InvoiceDown(db: Db, n: nat, today: Date, posted: nat -> bool): Db
    requires n <= |db.subs|
    decreases n
  {
    if n == 0 then db
    else if InvoiceDue(db.subs[n - 1], today)
    then InvoiceDown(GenerateInvoice(db, n - 1, today, posted(n - 1)), n - 1, today, posted)
    else InvoiceDown(db, n - 1, today, posted)
  }

  function InvoiceCron(db: Db, today: Date, posted: nat -> bool): Db {
    InvoiceDown(db, |db.subs|, today, posted)
  }

  function InvoicesOf(invoices: seq<Invoice>, i: nat): nat {
    if invoices == [] then 0
    else (if invoices[0].sub == Some(i) then 1 else 0) + InvoicesOf(invoices[1..], i)
  }

  lemma {:induction false} InvoicesSnoc(invoices: seq<Invoice>, v: Invoice, i: nat)
    ensures InvoicesOf(invoices + [v], i) == InvoicesOf(invoices, i) + (if v.sub == Some(i) then 1 else 0)
  {
    if invoices == [] {
    } else {
      InvoicesSnoc(invoices[1..], v, i);
      assert (invoices + [v])[1..] == invoices[1..] + [v];
    }
  }

  // What one cron run does to one subscription: a single invoice and a single month if
  // it is due, else nothing; everything but invoices and next dates is left alone.
  lemma {:induction false} InvoiceDownOn(db: Db, n: nat, today: Date, posted: nat -> bool, i: nat)
    requires n <= |db.subs| && i < |db.subs|
    ensures var db' := InvoiceDown(db, n, today, posted);
            var due := i < n && InvoiceDue(db.subs[i], today);
            && db' == db.(invoices := db'.invoices, subs := db'.subs) && |db'.subs| == |db.subs|
            && db.invoices <= db'.invoices
            && db'.subs[i] == (if due then db.subs[i].(nextInvoice := Some(AddMonth(db.subs[i].nextInvoice.value)))
                               else db.subs[i])
            && InvoicesOf(db'.invoices, i) == InvoicesOf(db.invoices, i) + (if due then 1 else 0)
    decreases n
  {
    if n == 0 {
    } else {
      if InvoiceDue(db.subs[n - 1], today) {
        var db1 := GenerateInvoice(db, n - 1, today, posted(n - 1));
        InvoicesSnoc(db.invoices, InvoiceOn(today, n - 1, posted(n - 1)), i);
        InvoiceDownOn(db1, n - 1, today, posted, i);
      } else {
        InvoiceDownOn(db, n - 1, today, posted, i);
      }
    }
  }

  /* Catching up */

  // One run of the cron: the day, and which invoices can be posted.
  datatype CronRun = CronRun(day: Date, posted: nat -> bool)

  function InvoiceRuns(db: Db, runs: seq<CronRun>): Db
    decreases |runs|
  {
    if runs == [] then db else InvoiceRuns(InvoiceCron(db, runs[0].day, runs[0].posted), runs[1..])
  }

  ghost predicate Consecutive(runs: seq<CronRun>) {
    forall k :: 0 <= k < |runs| - 1 ==> Ordinal(runs[k + 1].day) == Ordinal(runs[k].day) + 1
  }

  // Run daily, the cron makes up a lag of L days within L / 27 + 1 runs.
  lemma {:induction false} CatchUp(db: Db, runs: seq<CronRun>, i: nat) returns (k: nat)
    requires i < |db.subs| && db.subs[i].state == Active && db.subs[i].nextInvoice.Some?
    requires runs != [] && Consecutive(runs)
    requires Ordinal(db.subs[i].nextInvoice.value) <= Ordinal(runs[0].day)
    requires |runs| == (Ordinal(runs[0].day) - Ordinal(db.subs[i].nextInvoice.value)) / 27 + 1
    ensures 1 <= k <= |runs|
    ensures var db' := InvoiceRuns(db, runs[..k]);
            && i < |db'.subs| && db'.subs[i].nextInvoice.Some?
            && Ordinal(db'.subs[i].nextInvoice.value) > Ordinal(runs[k - 1].day)
    decreases |runs|
  {
    var next := db.subs[i].nextInvoice.value;
    var lag := Ordinal(runs[0].day) - Ordinal(next);
    var db1 := InvoiceCron(db, runs[0].day, runs[0].posted);
    InvoiceDownOn(db, |db.subs|, runs[0].day, runs[0].posted, i);
    MonthGap(next);
    assert InvoiceRuns(db, runs[..1]) == db1 by { assert runs[..1][1..] == []; }
    if Ordinal(AddMonth(next)) > Ordinal(runs[0].day) {
      k := 1;
    } else {
      var lag' := lag + 1 - (Ordinal(AddMonth(next)) - Ordinal(next));
      var rest := runs[1..1 + lag' / 27 + 1];
      assert lag' <= lag - 27;
      assert forall m :: 0 <= m < |rest| ==> rest[m] == runs[m + 1];
      var m := CatchUp(db1, rest, i);
      k := m + 1;
      assert runs[..k][1..] == rest[..m];
    }
  }

  /* Suspending the overdue */

  predicate Unpaid(v: Invoice) {
    v.posted && !v.paid
  }

  function EffectiveDays(plan: Plan, standard: int): int {
    if plan.suspendAfter != 0 then plan.suspendAfter else standard
  }

  function DueDate(v: Invoice): Option<Date> {
    if v.due.Some? then v.due else v.issued
  }

  predicate Qualifies(db: Db, v: Invoice, today: Date, standard: int)
    requires ValidDb(db) && (v.sub.Some? ==> v.sub.value < |db.subs|)
  {
    && Unpaid(v) && v.sub.Some? && db.subs[v.sub.value].state == Active && DueDate(v).Some?
    && Ordinal(today) >= Ordinal(DueDate(v).value) + EffectiveDays(PlanOf(db, v.sub.value), standard)
  }

  // One suspend job per qualifying invoice, in order.
  function SuspendJobs(db: Db, m: nat, today: Date, standard: int): seq<Job>
    requires ValidDb(db) && m <= |db.invoices|
  {
    if m == 0 then []
    else
      SuspendJobs(db, m - 1, today, standard)
      + (if Qualifies(db, db.invoices[m - 1], today, standard) then [NewJob(Suspend, db.invoices[m - 1].sub.value)]
         else [])
  }

  function SuspendCron(db: Db, today: Date, standard: int): Db
    requires ValidDb(db)
  {
    db.(jobs := db.jobs + SuspendJobs(db, |db.invoices|, today, standard))
  }

  predicate QualifiesFor(db: Db, k: nat, i: nat, today: Date, standard: int)
    requires ValidDb(db) && k < |db.invoices|
  {
    Qualifies(db, db.invoices[k], today, standard) && db.invoices[k].sub == Some(i)
  }

  ghost function QualifyingOf(db: Db, m: nat, i: nat, today: Date, standard: int): set<nat>
    requires ValidDb(db) && m <= |db.invoices|
  {
    set k: nat | k < m && QualifiesFor(db, k, i, today, standard)
  }

  lemma QualifyingStep(db: Db, m: nat, i: nat, today: Date, standard: int)
    requires ValidDb(db) && 0 < m <= |db.invoices|
    ensures |QualifyingOf(db, m, i, today, standard)| ==
            |QualifyingOf(db, m - 1, i, today, standard)|
            + (if QualifiesFor(db, m - 1, i, today, standard) then 1 else 0)
  {
    var before, after := QualifyingOf(db, m - 1, i, today, standard), QualifyingOf(db, m, i, today, standard);
    var extra := if QualifiesFor(db, m - 1, i, today, standard) then {m - 1} else {};
    forall k ensures k in after <==> k in before + extra {
    }
    assert after == before + extra;
  }

  // The cron queues exactly one job per qualifying invoice of each subscription.
  lemma {:induction false} OneJobPerInvoice(db: Db, m: nat, i: nat, today: Date, standard: int)
    requires ValidDb(db) && m <= |db.invoices|
    ensures multiset(SuspendJobs(db, m, today, standard))[NewJob(Suspend, i)]
            == |QualifyingOf(db, m, i, today, standard)|
  {
    if m == 0 {
      assert QualifyingOf(db, 0, i, today, standard) == {};
    } else {
      OneJobPerInvoice(db, m - 1, i, today, standard);
      QualifyingStep(db, m, i, today, standard);
    }
  }

  lemma {:induction false} OnlySuspendJobs(db: Db, m: nat, today: Date, standard: int)
    requires ValidDb(db) && m <= |db.invoices|
    ensures forall job :: job in SuspendJobs(db, m, today, standard) ==>
              job.sub.Some? && job.sub.value < |db.subs| && job == NewJob(Suspend, job.sub.value)
              && exists v :: v in db.invoices && v.sub == job.sub && Qualifies(db, v, today, standard)
  {
    if m == 0 {
    } else {
      OnlySuspendJobs(db, m - 1, today, standard);
      assert db.invoices[m - 1] in db.invoices;
    }
  }

  /* Reconnecting the paid up */

  predicate HasOpen(db: Db, i: nat) {
    exists v :: v in db.invoices && v.sub == Some(i) && Unpaid(v)
  }

  predicate Reconnectable(db: Db, i: nat)
    requires i < |db.subs|
  {
    db.subs[i].state == Suspended && !HasOpen(db, i)
  }

  // Subscriptions n - 1 down to 0.
  function ReconnectJobs(db: Db, n: nat): seq<Job>
    requires n <= |db.subs|
  {
    if n == 0 then []
    else (if Reconnectable(db, n - 1) then [NewJob(Reconnect, n - 1)] else []) + ReconnectJobs(db, n - 1)
  }

  function ReconnectCron(db: Db): Db {
    db.(jobs := db.jobs + ReconnectJobs(db, |db.subs|))
  }

  // Exactly one job for each subscription that is suspended and has nothing open.
  lemma {:induction false} ReconnectJobsExact(db: Db, n: nat)
    requires n <= |db.subs|
    ensures forall job :: job in ReconnectJobs(db, n) <==>
              job.sub.Some? && job.sub.value < n && Reconnectable(db, job.sub.value)
              && job == NewJob(Reconnect, job.sub.value)
    ensures forall k, l :: 0 <= k < l < |ReconnectJobs(db, n)| ==> ReconnectJobs(db, n)[k] != ReconnectJobs(db, n)[l]
  {
    if n == 0 {
    } else {
      ReconnectJobsExact(db, n - 1);
    }
  }
}
