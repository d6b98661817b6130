/**
  Whole histories of the system, whatever happens in between: invoices against months,
  entries of handlers, and plan changes against their effective dates.
 */
module SystemHistory {
  import opened Basics
  import opened Calendar
  import opened Provisioning
  import opened JobQueue
  import opened QueueHistory
  import opened Billing
  import opened PlanChanges
  import opened SystemRuns

  /* Invoices and months */

  lemma {:induction false} SameOwnersSameCount(a: seq<Invoice>, b: seq<Invoice>, i: nat)
    requires |a| == |b| && forall m :: 0 <= m < |a| ==> b[m].sub == a[m].sub
    ensures InvoicesOf(b, i) == InvoicesOf(a, i)
  {
    if a == [] {
    } else {
      SameOwnersSameCount(a[1..], b[1..], i);
    }
  }

  // How often an event bills a subscription: the cron where it is due, the action always.
  function Billings(db: Db, e: SystemEvent, i: nat): nat
    requires i < |db.subs|
  {
    match e
    case Bill(run) => if InvoiceDue(db.subs[i], run.day) then 1 else 0
    case InvoiceNow(k, _, _) => if k == i then 1 else 0
    case _ => 0
  }

  // So many invoices more, and so many months later.
  ghost predicate Advanced(db: Db, db': Db, i: nat, n: nat) {
    && i < |db.subs| && i < |db'.subs| && db.subs[i].nextInvoice.Some?
    && InvoicesOf(db'.invoices, i) == InvoicesOf(db.invoices, i) + n
    && db'.subs[i].nextInvoice == Some(AddMonths(db.subs[i].nextInvoice.value, n))
  }

  lemma AdvancedThen(a: Db, b: Db, c: Db, i: nat, m: nat, n: nat)
    requires Advanced(a, b, i, m) && Advanced(b, c, i, n)
    ensures Advanced(a, c, i, m + n)
  {
    AddMonthsAdd(a.subs[i].nextInvoice.value, m, n);
  }

  lemma ChangeBillsNone(db: Db, e: ChangeEvent, today: Date, i: nat)
    requires ValidDb(db) && ChangePossible(db, e) && i < |db.subs| && db.subs[i].nextInvoice.Some?
    ensures Advanced(db, ChangeHappens(db, e, today), i, 0)
  {
    match e
    case Create(_) =>
    case SubmitIt(_, _) =>
    case RejectIt(_) =>
    case ApproveIt(r, token) =>
      var q := db.requests[r].(effective := EffectiveDate(db, db.requests[r], today), stage := Approved);
      RestageValid(db, r, q);
      ApplyOne(Restage(db, r, q), r, token);
    case Cron(tokens) => ApplyDownFrame(db, |db.requests|, today, tokens);
  }

  lemma EventBills(db: Db, e: SystemEvent, i: nat)
    requires ValidDb(db) && CanHappen(db, e) && i < |db.subs| && db.subs[i].nextInvoice.Some?
    ensures Advanced(db, Advance(db, e), i, Billings(db, e, i))
  {
    match e
    case Work(event) => WorkKeeps(db, event);
    case RolledBack(event) =>
    case Change(change, today) => ChangeBillsNone(db, change, today, i);
    case ApplyNow(r, token) => ApplyOne(db, r, token);
    case Overdue(_, _) =>
    case PaidUp =>
    case Bill(run) => InvoiceDownOn(db, |db.subs|, run.day, run.posted, i);
    case InvoiceNow(k, today, posted) => InvoicesSnoc(db.invoices, InvoiceOn(today, k, posted), i);
    case Pay(_) => SameOwnersSameCount(db.invoices, Advance(db, e).invoices, i);
  }

  function BillingsIn(db: Db, es: seq<SystemEvent>, i: nat): nat
    requires ValidDb(db) && CanRun(db, es) && i < |db.subs|
    decreases |es|
  {
    if es == [] then 0
    else
      AdvanceValid(db, es[0]);
      SubsStay(db, es[0]);
      Billings(db, es[0], i) + BillingsIn(Advance(db, es[0]), es[1..], i)
  }

  lemma SubsStay(db: Db, e: SystemEvent)
    requires ValidDb(db) && CanHappen(db, e)
    ensures |Advance(db, e).subs| == |db.subs|
  {
    match e
    case Work(event) => WorkKeeps(db, event);
    case RolledBack(event) =>
    case Change(change, today) => if change.Cron? { ApplyDownFrame(db, |db.requests|, today, change.tokens); }
    case ApplyNow(r, token) => ApplyOne(db, r, token);
    case Overdue(_, _) =>
    case PaidUp =>
    case Bill(run) => BillFrame(db, |db.subs|, run.day, run.posted);
    case InvoiceNow(_, _, _) =>
    case Pay(_) =>
  }

  lemma {:induction false} RunBills(db: Db, es: seq<SystemEvent>, i: nat)
    requires ValidDb(db) && CanRun(db, es) && i < |db.subs| && db.subs[i].nextInvoice.Some?
    ensures Advanced(db, AfterRun(db, es), i, BillingsIn(db, es, i))
    decreases |es|
  {
    if es == [] {
    } else {
      AdvanceValid(db, es[0]);
      SubsStay(db, es[0]);
      var db' := Advance(db, es[0]);
      assert Advanced(db, db', i, Billings(db, es[0], i)) by { EventBills(db, es[0], i); }
      RunBills(db', es[1..], i);
      AdvancedThen(db, db', AfterRun(db', es[1..]), i, Billings(db, es[0], i), BillingsIn(db', es[1..], i));
    }
  }

  // Over every run of the system the months a subscription's next date advances are the
  // invoices it got, one for each time it was due or billed by hand: none skipped, none
  // billed twice, whatever happens in between.
  lemma InvoicesMatchMonths(db: Db, es: seq<SystemEvent>, i: nat)
    requires ValidDb(db) && CanRun(db, es) && i < |db.subs| && db.subs[i].nextInvoice.Some?
    ensures var db', n := AfterRun(db, es), BillingsIn(db, es, i);
            && Advanced(db, db', i, n)
            && MonthIndex(db'.subs[i].nextInvoice.value) == MonthIndex(db.subs[i].nextInvoice.value) + n
  {
    RunBills(db, es, i);
    AddMonthsClosed(db.subs[i].nextInvoice.value, BillingsIn(db, es, i));
  }

  /* Entries of handlers */

  // The entries an event leaves on record.
  function EntriesOn(db: Db, e: SystemEvent): seq<nat>
    requires ValidDb(db) && CanHappen(db, e)
  {
    if e.Work? then EnteredIn(db, e.event) else []
  }

  function EntriesIn(db: Db, es: seq<SystemEvent>): seq<nat>
    requires ValidDb(db) && CanRun(db, es)
    decreases |es|
  {
    if es == [] then []
    else (AdvanceValid(db, es[0]); EntriesOn(db, es[0]) + EntriesIn(Advance(db, es[0]), es[1..]))
  }

  lemma ChangeAddsJobs(db: Db, e: ChangeEvent, today: Date)
    requires ValidDb(db) && ChangePossible(db, e)
    ensures db.jobs <= ChangeHappens(db, e, today).jobs
  {
    match e
    case Create(_) =>
    case SubmitIt(_, _) =>
    case RejectIt(_) =>
    case ApproveIt(r, token) =>
    case Cron(tokens) => ApplyDownJobs(db, |db.requests|, today, tokens);
  }

  lemma EventEnters(db: Db, e: SystemEvent, k: nat)
    requires ValidDb(db) && CanHappen(db, e) && k < |db.jobs|
    ensures k < |Advance(db, e).jobs|
    ensures Progress(db.jobs[k], Advance(db, e).jobs[k], multiset(EntriesOn(db, e))[k])
  {
    match e
    case Work(event) => EventProgress(db, event, k);
    case RolledBack(event) =>
    case Change(change, today) => ChangeAddsJobs(db, change, today);
    case ApplyNow(r, token) => ApplyOne(db, r, token);
    case Overdue(_, _) =>
    case PaidUp =>
    case Bill(run) => BillFrame(db, |db.subs|, run.day, run.posted);
    case InvoiceNow(_, _, _) =>
    case Pay(_) =>
  }

  // In every run of the system a job's handler is entered at most once, rolled back
  // entries aside; its attempts count the entries, and once it has succeeded or failed it
  // never changes again.
  lemma {:induction false} HandlerEnteredAtMostOnce(db: Db, es: seq<SystemEvent>, k: nat)
    requires ValidDb(db) && CanRun(db, es) && k < |db.jobs|
    ensures k < |AfterRun(db, es).jobs|
    ensures Progress(db.jobs[k], AfterRun(db, es).jobs[k], multiset(EntriesIn(db, es))[k])
    decreases |es|
  {
    if es == [] {
    } else {
      AdvanceValid(db, es[0]);
      EventEnters(db, es[0], k);
      var db' := Advance(db, es[0]);
      HandlerEnteredAtMostOnce(db', es[1..], k);
      ProgressThen(db.jobs[k], db'.jobs[k], AfterRun(db', es[1..]).jobs[k],
                   multiset(EntriesOn(db, es[0]))[k], multiset(EntriesIn(db', es[1..]))[k]);
    }
  }

  // A job whose handler raised once is never tried again, whatever its maximum.
  lemma NoRetry(db: Db, es: seq<SystemEvent>, k: nat)
    requires ValidDb(db) && CanRun(db, es) && k < |db.jobs| && db.jobs[k].state == Failed
    ensures k < |AfterRun(db, es).jobs| && AfterRun(db, es).jobs[k] == db.jobs[k] && k !in EntriesIn(db, es)
  {
    HandlerEnteredAtMostOnce(db, es, k);
    assert multiset(EntriesIn(db, es))[k] == 0;
  }

  // Attempts stay within the maximum.
  lemma AttemptsBounded(db: Db, es: seq<SystemEvent>, k: nat)
    requires ValidDb(db) && CanRun(db, es) && k < |db.jobs| && db.jobs[k].attempts <= db.jobs[k].maxAttempts
    ensures k < |AfterRun(db, es).jobs| && AfterRun(db, es).jobs[k].attempts <= AfterRun(db, es).jobs[k].maxAttempts
  {
    HandlerEnteredAtMostOnce(db, es, k);
  }

  // A rollback is the way to a second entry: a job that a run entered waits as before.
  lemma RollbackReenters(db: Db, k: nat, links: nat -> Link)
    requires ValidDb(db) && k < |db.jobs| && Ready(db.jobs[k])
    ensures var run := Manual([k], links);
            && EnteredIn(db, run) == [k]
            && ValidDb(Advance(db, RolledBack(run))) && EnteredIn(Advance(db, RolledBack(run)), run) == [k]
  {
    var run := Manual([k], links);
    AdvanceValid(db, RolledBack(run));
    OnlyEntry(db, k, links);
    OnlyEntry(Advance(db, RolledBack(run)), k, links);
  }

  lemma OnlyEntry(db: Db, k: nat, links: nat -> Link)
    requires ValidDb(db) && k < |db.jobs| && Ready(db.jobs[k])
    ensures Entered(db, [k], links) == [k]
  {
    ExecuteValid(db, k, links(k));
    var (db', raised) := Execute(db, k, links(k));
    assert [k][1..] == [] && Entered(db', [], links) == [];
  }

  /* Plan changes and effective dates */

  // The day of the latest request event.
  function Clock(e: SystemEvent, today: Date): Date {
    if e.Change? then e.day else today
  }

  function LastDay(es: seq<SystemEvent>, today: Date): Date {
    if es == [] then today else LastDay(es[1..], Clock(es[0], today))
  }

  // Days do not run backwards.
  predicate InTime(es: seq<SystemEvent>, today: Date) {
    es != [] ==> Ordinal(today) <= Ordinal(Clock(es[0], today)) && InTime(es[1..], Clock(es[0], today))
  }

  ghost function AppliedByHand(es: seq<SystemEvent>): set<nat> {
    set e | e in es && e.ApplyNow? :: e.request
  }

  lemma EventNotEarly(db: Db, e: SystemEvent, today: Date, byHand: set<nat>)
    requires ValidDb(db) && CanHappen(db, e) && Ordinal(today) <= Ordinal(Clock(e, today))
    requires NoneEarly(db, today, byHand) && (e.ApplyNow? ==> e.request in byHand)
    ensures NoneEarly(Advance(db, e), Clock(e, today), byHand)
  {
    match e
    case Work(event) => WorkKeeps(db, event);
    case RolledBack(event) =>
    case Change(change, day) => NoneEarlyStep(db, change, day, byHand);
    case ApplyNow(r, token) => ApplyOne(db, r, token);
    case Overdue(_, _) =>
    case PaidUp =>
    case Bill(run) => BillFrame(db, |db.subs|, run.day, run.posted);
    case InvoiceNow(_, _, _) =>
    case Pay(_) =>
  }

  // As days pass, only what is applied by hand is ever applied before its effective date.
  lemma {:induction false} NeverEarly(db: Db, es: seq<SystemEvent>, today: Date, byHand: set<nat>)
    requires ValidDb(db) && CanRun(db, es) && InTime(es, today)
    requires NoneEarly(db, today, byHand) && AppliedByHand(es) <= byHand
    ensures NoneEarly(AfterRun(db, es), LastDay(es, today), byHand)
    decreases |es|
  {
    if es == [] {
    } else {
      AdvanceValid(db, es[0]);
      assert es[0].ApplyNow? ==> es[0].request in AppliedByHand(es);
      EventNotEarly(db, es[0], today, byHand);
      assert AppliedByHand(es[1..]) <= AppliedByHand(es);
      NeverEarly(Advance(db, es[0]), es[1..], Clock(es[0], today), byHand);
    }
  }
}
