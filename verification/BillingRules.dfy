/** What the billing crons queue and write, in terms of the fields of invoices and plans alone. */
module BillingRules {
  import opened Basics
  import opened Calendar
  import opened Provisioning
  import opened JobQueue
  import opened Billing

  /* Suspension */

  // Subscription i has a debt old enough for its plan: n days past the due date, or past the
  // invoice date where none is given; n is the plan's, or the standard where that is 0.
  predicate Overdue(db: Db, v: Invoice, i: nat, today: Date, standard: int)
    requires i < |db.subs| && db.subs[i].plan < |db.plans|
  {
    var days := db.plans[db.subs[i].plan].suspendAfter;
    && v.sub == Some(i) && v.posted && !v.paid && (v.due.Some? || v.issued.Some?)
    && Ordinal(today) - Ordinal(if v.due.Some? then v.due.value else v.issued.value)
       >= if days == 0 then standard else days
  }

  lemma QualifiesIff(db: Db, v: Invoice, i: nat, today: Date, standard: int)
    requires ValidDb(db) && i < |db.subs| && (v.sub.Some? ==> v.sub.value < |db.subs|)
    ensures Qualifies(db, v, today, standard) && v.sub == Some(i)
            <==> db.subs[i].state == Active && Overdue(db, v, i, today, standard)
  {
  }

  // The cron queues suspensions only, at the end and nothing else: for subscription i if and
  // only if it is active with such a debt, and as many as it has.
  lemma SuspendsIff(db: Db, i: nat, today: Date, standard: int)
    requires ValidDb(db) && i < |db.subs|
    ensures var db' := SuspendCron(db, today, standard);
            && db.jobs <= db'.jobs && db' == db.(jobs := db'.jobs)
            && var queued := db'.jobs[|db.jobs|..];
               && (forall job :: job in queued ==> job == Job(Suspend, job.sub, Queued, 0, 3) && job.sub.Some?)
               && ((exists job :: job in queued && job.sub == Some(i))
                   <==> db.subs[i].state == Active && exists v :: v in db.invoices && Overdue(db, v, i, today, standard))
               && multiset(queued)[Job(Suspend, Some(i), Queued, 0, 3)] ==
                  |set m: nat | m < |db.invoices| && db.subs[i].state == Active
                                && Overdue(db, db.invoices[m], i, today, standard)|
  {
    var queued := SuspendJobs(db, |db.invoices|, today, standard);
    assert SuspendCron(db, today, standard).jobs[|db.jobs|..] == queued;
    OnlySuspensions(db, today, standard);
    QueuedIff(db, i, today, standard);
    SuspendCount(db, i, today, standard);
  }

  lemma OnlySuspensions(db: Db, today: Date, standard: int)
    requires ValidDb(db)
    ensures forall job :: job in SuspendJobs(db, |db.invoices|, today, standard) ==>
              job == Job(Suspend, job.sub, Queued, 0, 3) && job.sub.Some?
  {
    OnlySuspendJobs(db, |db.invoices|, today, standard);
  }

  lemma QueuedIff(db: Db, i: nat, today: Date, standard: int)
    requires ValidDb(db) && i < |db.subs|
    ensures (exists job :: job in SuspendJobs(db, |db.invoices|, today, standard) && job.sub == Some(i))
            <==> db.subs[i].state == Active && exists v :: v in db.invoices && Overdue(db, v, i, today, standard)
  {
    var queued := SuspendJobs(db, |db.invoices|, today, standard);
    if job :| job in queued && job.sub == Some(i) {
      OnlySuspendJobs(db, |db.invoices|, today, standard);
      var v :| v in db.invoices && v.sub == job.sub && Qualifies(db, v, today, standard);
      QualifiesIff(db, v, i, today, standard);
    }
    if v :| v in db.invoices && db.subs[i].state == Active && Overdue(db, v, i, today, standard) {
      QualifiesIff(db, v, i, today, standard);
      var m :| 0 <= m < |db.invoices| && db.invoices[m] == v;
      JobFor(db, |db.invoices|, m, today, standard);
    }
  }

  lemma {:induction false} JobFor(db: Db, n: nat, m: nat, today: Date, standard: int)
    requires ValidDb(db) && m < n <= |db.invoices| && Qualifies(db, db.invoices[m], today, standard)
    ensures NewJob(Suspend, db.invoices[m].sub.value) in SuspendJobs(db, n, today, standard)
  {
    if m == n - 1 {
    } else {
      JobFor(db, n - 1, m, today, standard);
    }
  }

  lemma SuspendCount(db: Db, i: nat, today: Date, standard: int)
    requires ValidDb(db) && i < |db.subs|
    ensures multiset(SuspendJobs(db, |db.invoices|, today, standard))[Job(Suspend, Some(i), Queued, 0, 3)] ==
            |set m: nat | m < |db.invoices| && db.subs[i].state == Active
                          && Overdue(db, db.invoices[m], i, today, standard)|
  {
    OneJobPerInvoice(db, |db.invoices|, i, today, standard);
    var counted := set m: nat | m < |db.invoices| && db.subs[i].state == Active
                                && Overdue(db, db.invoices[m], i, today, standard);
    forall m: nat ensures m in QualifyingOf(db, |db.invoices|, i, today, standard) <==> m in counted {
      if m < |db.invoices| { QualifiesIff(db, db.invoices[m], i, today, standard); }
    }
    assert QualifyingOf(db, |db.invoices|, i, today, standard) == counted;
  }

  /* Reconnection */

  // One reconnection for subscription i if and only if it is suspended and none of its
  // posted invoices is unpaid; nothing else.
  lemma ReconnectsIff(db: Db, i: nat)
    requires i < |db.subs|
    ensures var db' := ReconnectCron(db);
            && db.jobs <= db'.jobs && db' == db.(jobs := db'.jobs)
            && var queued := db'.jobs[|db.jobs|..];
               && (forall job :: job in queued ==> job == Job(Reconnect, job.sub, Queued, 0, 3) && job.sub.Some?)
               && (forall k, l :: 0 <= k < l < |queued| ==> queued[k] != queued[l])
               && ((exists job :: job in queued && job.sub == Some(i))
                   <==> db.subs[i].state == Suspended
                        && forall v :: v in db.invoices && v.sub == Some(i) && v.posted ==> v.paid)
  {
    var queued := ReconnectJobs(db, |db.subs|);
    assert ReconnectCron(db).jobs[|db.jobs|..] == queued;
    ReconnectJobsExact(db, |db.subs|);
    if db.subs[i].state == Suspended && forall v :: v in db.invoices && v.sub == Some(i) && v.posted ==> v.paid {
      assert Reconnectable(db, i);
      assert NewJob(Reconnect, i) in queued;
    }
  }

  /* Invoices */

  // Active, and its next date has come.
  predicate ToBill(s: Sub, today: Date) {
    s.state == Active && s.nextInvoice.Some? && Ordinal(s.nextInvoice.value) <= Ordinal(today)
  }

  // Every new invoice is one of today for a subscription to be billed: due today, not paid,
  // and posted if it could be.
  lemma {:induction false} NewInvoices(db: Db, n: nat, today: Date, posted: nat -> bool)
    requires n <= |db.subs|
    ensures var db' := InvoiceDown(db, n, today, posted);
            && db.invoices <= db'.invoices
            && forall v :: v in db'.invoices[|db.invoices|..] ==>
                 && v.sub.Some? && v.sub.value < n && ToBill(db.subs[v.sub.value], today)
                 && v == Invoice(v.sub, posted(v.sub.value), false, Some(today), Some(today))
    decreases n
  {
    if n == 0 {
    } else if InvoiceDue(db.subs[n - 1], today) {
      var db1 := GenerateInvoice(db, n - 1, today, posted(n - 1));
      var added := db1.invoices[|db.invoices|];
      NewInvoices(db1, n - 1, today, posted);
      var db' := InvoiceDown(db, n, today, posted);
      assert db'.invoices[|db.invoices|..] == [added] + db'.invoices[|db1.invoices|..];
    } else {
      NewInvoices(db, n - 1, today, posted);
    }
  }

  // One run of the cron, seen from subscription i.
  lemma BillsIff(db: Db, i: nat, today: Date, posted: nat -> bool)
    requires i < |db.subs|
    ensures var db' := InvoiceCron(db, today, posted);
            && db' == db.(invoices := db'.invoices, subs := db'.subs) && |db'.subs| == |db.subs|
            && db.invoices <= db'.invoices
            && db'.subs[i] == (if ToBill(db.subs[i], today)
                               then db.subs[i].(nextInvoice := Some(AddMonth(db.subs[i].nextInvoice.value)))
                               else db.subs[i])
            && ((exists v :: v in db'.invoices[|db.invoices|..] && v.sub == Some(i)) <==> ToBill(db.subs[i], today))
  {
    InvoiceDownOn(db, |db.subs|, today, posted, i);
    NewInvoices(db, |db.subs|, today, posted);
    var db' := InvoiceCron(db, today, posted);
    var fresh' := db'.invoices[|db.invoices|..];
    assert db'.invoices == db.invoices + fresh';
    InvoicesConcat(db.invoices, fresh', i);
    NoneOf(fresh', i);
  }

  lemma {:induction false} InvoicesConcat(a: seq<Invoice>, b: seq<Invoice>, i: nat)
    ensures InvoicesOf(a + b, i) == InvoicesOf(a, i) + InvoicesOf(b, i)
  {
    if a == [] {
      assert a + b == b;
    } else {
      assert (a + b)[0] == a[0] && (a + b)[1..] == a[1..] + b;
      InvoicesConcat(a[1..], b, i);
    }
  }

  lemma {:induction false} NoneOf(invoices: seq<Invoice>, i: nat)
    ensures InvoicesOf(invoices, i) == 0 <==> forall v :: v in invoices ==> v.sub != Some(i)
  {
    if invoices == [] {
    } else {
      NoneOf(invoices[1..], i);
      assert invoices == [invoices[0]] + invoices[1..];
    }
  }

  // Billed by hand, a subscription without a next date counts its month from today.
  lemma BilledByHand(db: Db, i: nat, today: Date, posted: bool)
    requires i < |db.subs|
    ensures var db' := GenerateInvoice(db, i, today, posted);
            && |db'.invoices| == |db.invoices| + 1 && db.invoices <= db'.invoices && |db'.subs| == |db.subs|
            && db'.invoices[|db.invoices|] == Invoice(Some(i), posted, false, Some(today), Some(today))
            && db'.subs[i].nextInvoice.Some?
            && 28 <= Ordinal(db'.subs[i].nextInvoice.value)
                     - Ordinal(if db.subs[i].nextInvoice.Some? then db.subs[i].nextInvoice.value else today) <= 31
  {
    MonthGap(if db.subs[i].nextInvoice.Some? then db.subs[i].nextInvoice.value else today);
  }
}
