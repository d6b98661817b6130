/**
  The whole system: queue, plan changes and billing crons in any order, any run of the
  queue rolled back or not. The router's speed limits agree with the plans except where a
  plan change job is queued or failed.
 */
module SystemRuns {
  import opened Basics
  import opened Calendar
  import opened Provisioning
  import opened JobQueue
  import opened JobOrder
  import opened QueueHistory
  import opened Billing
  import opened PlanChanges

  /* Agreement of router and plans */

  function QueueAt(db: Db, i: nat): Option<Queue>
    requires ValidDb(db) && i < |db.subs|
  {
    RowsAt(db, i).queue
  }

  ghost predicate NamesDistinct(db: Db) {
    forall i, k :: 0 <= i < k < |db.subs| ==> db.subs[i].name != db.subs[k].name
  }

  // A plan change for the subscription is still to come, or went wrong.
  ghost predicate Pending(db: Db, i: nat) {
    exists j :: 0 <= j < |db.jobs| && db.jobs[j].kind == ChangePlan && db.jobs[j].sub == Some(i)
                && db.jobs[j].state in {Queued, JobState.Failed}
  }

  ghost predicate AgreedAt(db: Db, i: nat)
    requires ValidDb(db) && i < |db.subs|
  {
    && (db.subs[i].ip == "" ==> QueueAt(db, i).None?)
    && (QueueAt(db, i).Some? ==> QueueAt(db, i).value.limit == PlanOf(db, i).limit || Pending(db, i))
  }

  ghost predicate Agreed(db: Db) {
    ValidDb(db) && NamesDistinct(db) && forall i :: 0 <= i < |db.subs| ==> AgreedAt(db, i)
  }

  lemma QueueUnseen(db: Db, i: nat, e: Effect, k: nat)
    requires ValidDb(db) && NamesDistinct(db) && i < |db.subs| && k < |db.subs| && i != k
    requires SameIdentity(db.subs[i], e.sub)
    ensures ValidDb(Commit(db, i, e)) && QueueAt(Commit(db, i, e), k) == QueueAt(db, k)
  {
  }

  lemma QueueCommitted(db: Db, i: nat, e: Effect)
    requires ValidDb(db) && i < |db.subs| && SameIdentity(db.subs[i], e.sub)
    ensures ValidDb(Commit(db, i, e))
    ensures QueueAt(Commit(db, i, e), i) == if db.subs[i].router.Some? then e.rows.queue else None
  {
  }

  lemma NamesStay(db: Db, db': Db)
    requires ValidDb(db) && NamesDistinct(db) && Kept(db, db')
    ensures NamesDistinct(db')
  {
    forall i, k | 0 <= i < k < |db'.subs| ensures db'.subs[i].name != db'.subs[k].name {
      assert SameIdentity(db.subs[i], db'.subs[i]) && SameIdentity(db.subs[k], db'.subs[k]);
    }
  }

  // The execution's own subscription.
  lemma ExecuteAgreesAt(db: Db, j: nat, link: Link, i: nat)
    requires Agreed(db) && j < |db.jobs| && i < |db.subs| && db.jobs[j].sub == Some(i)
    ensures ValidDb(Execute(db, j, link).0) && i < |Execute(db, j, link).0.subs| && AgreedAt(Execute(db, j, link).0, i)
  {
    var db' := Execute(db, j, link).0;
    ExecuteValid(db, j, link);
    ExecuteForm(db, j, link);
    KeysStay(db, db', i);
    assert AgreedAt(db, i);
    var e := EffectOf(db, j, link);
    if e.Some? {
      HandleLimit(db.jobs[j].kind, db.subs[i], PlanOf(db, i), RowsAt(db, i), link);
      CommitValid(db, db.jobs[j].kind, i, link);
      QueueCommitted(db, i, e.value);
      assert QueueAt(db', i) == QueueAt(Commit(db, i, e.value), i);
    }
    if Pending(db, i) && !(QueueAt(db', i).Some? ==> QueueAt(db', i).value.limit == PlanOf(db', i).limit) {
      var p :| 0 <= p < |db.jobs| && db.jobs[p].kind == ChangePlan && db.jobs[p].sub == Some(i)
               && db.jobs[p].state in {Queued, JobState.Failed};
      assert db'.jobs[p].kind == ChangePlan && db'.jobs[p].sub == Some(i)
             && db'.jobs[p].state in {Queued, JobState.Failed};
    }
  }

  // Every other subscription.
  lemma ExecuteAgreesElsewhere(db: Db, j: nat, link: Link, k: nat)
    requires Agreed(db) && j < |db.jobs| && k < |db.subs| && db.jobs[j].sub != Some(k)
    ensures ValidDb(Execute(db, j, link).0) && k < |Execute(db, j, link).0.subs| && AgreedAt(Execute(db, j, link).0, k)
  {
    var db' := Execute(db, j, link).0;
    ExecuteValid(db, j, link);
    ExecuteForm(db, j, link);
    KeysStay(db, db', k);
    assert AgreedAt(db, k);
    var e := EffectOf(db, j, link);
    if e.Some? {
      var i := db.jobs[j].sub.value;
      CommitValid(db, db.jobs[j].kind, i, link);
      QueueUnseen(db, i, e.value, k);
      assert QueueAt(db', k) == QueueAt(Commit(db, i, e.value), k);
    }
    if Pending(db, k) {
      var p :| 0 <= p < |db.jobs| && db.jobs[p].kind == ChangePlan && db.jobs[p].sub == Some(k)
               && db.jobs[p].state in {Queued, JobState.Failed};
      assert db'.jobs[p] == db.jobs[p];
    }
  }

  lemma ExecuteAgrees(db: Db, j: nat, link: Link)
    requires Agreed(db) && j < |db.jobs|
    ensures Agreed(Execute(db, j, link).0)
  {
    ExecuteValid(db, j, link);
    NamesStay(db, Execute(db, j, link).0);
    forall i | 0 <= i < |db.subs| ensures AgreedAt(Execute(db, j, link).0, i) {
      if db.jobs[j].sub == Some(i) { ExecuteAgreesAt(db, j, link, i); } else { ExecuteAgreesElsewhere(db, j, link, i); }
    }
  }

  lemma {:induction false} RunAgrees(db: Db, js: seq<nat>, links: nat -> Link)
    requires Agreed(db) && InJobs(js, db)
    ensures Agreed(RunJobs(db, js, links).0)
    decreases |js|
  {
    if js == [] {
    } else {
      ExecuteValid(db, js[0], links(js[0]));
      ExecuteAgrees(db, js[0], links(js[0]));
      var (db', raised) := Execute(db, js[0], links(js[0]));
      if !raised { RunAgrees(db', js[1..], links); }
    }
  }

  // What decides about a subscription's queue row.
  predicate SamePlace(a: Sub, b: Sub) {
    b.name == a.name && b.plan == a.plan && b.ip == a.ip && b.router == a.router
  }

  // Steps that add jobs and leave plans, names, addresses and routers alone.
  lemma FrameAgrees(db: Db, db': Db)
    requires Agreed(db) && ValidDb(db') && db'.plans == db.plans && db'.routers == db.routers
    requires |db'.subs| == |db.subs| && db.jobs <= db'.jobs
    requires forall i :: 0 <= i < |db.subs| ==> SamePlace(db.subs[i], db'.subs[i])
    ensures Agreed(db')
  {
    forall i, k | 0 <= i < k < |db'.subs| ensures db'.subs[i].name != db'.subs[k].name {
      assert SamePlace(db.subs[i], db'.subs[i]) && SamePlace(db.subs[k], db'.subs[k]);
    }
    forall i | 0 <= i < |db'.subs| ensures AgreedAt(db', i) {
      assert AgreedAt(db, i) && SamePlace(db.subs[i], db'.subs[i]) && QueueAt(db', i) == QueueAt(db, i);
      if Pending(db, i) {
        var p :| 0 <= p < |db.jobs| && db.jobs[p].kind == ChangePlan && db.jobs[p].sub == Some(i)
                 && db.jobs[p].state in {Queued, JobState.Failed};
        assert db'.jobs[p] == db.jobs[p];
      }
    }
  }

  lemma ApplyAgrees(db: Db, r: nat, token: string)
    requires Agreed(db) && r < |db.requests|
    ensures Agreed(ApplyRequest(db, r, token))
  {
    ApplyOne(db, r, token);
    var db' := ApplyRequest(db, r, token);
    var n := |db.jobs|;
    forall i | 0 <= i < |db'.subs| ensures AgreedAt(db', i) {
      assert AgreedAt(db, i);
      if i == db.requests[r].sub {
        assert db'.jobs[n] == NewJob(ChangePlan, i);
      } else if Pending(db, i) {
        var p :| 0 <= p < |db.jobs| && db.jobs[p].kind == ChangePlan && db.jobs[p].sub == Some(i)
                 && db.jobs[p].state in {Queued, JobState.Failed};
        assert db'.jobs[p] == db.jobs[p];
      }
    }
  }

  ghost predicate AgreedWith(db: Db, n: nat) {
    Agreed(db) && n <= |db.requests|
  }

  lemma PassAgrees(db: Db, r: nat, today: Date, tokens: nat -> string) returns (next: Db)
    requires Agreed(db) && r < |db.requests|
    ensures AgreedWith(next, r) && ApplyDown(db, r + 1, today, tokens) == ApplyDown(next, r, today, tokens)
  {
    next := db;
    if Due(db.requests[r], today) {
      next := ApplyRequest(db, r, tokens(r));
      ApplyAgrees(db, r, tokens(r));
    }
  }

  lemma {:induction false} ApplyDownAgrees(db: Db, n: nat, today: Date, tokens: nat -> string)
    requires AgreedWith(db, n)
    ensures Agreed(ApplyDown(db, n, today, tokens))
    decreases n
  {
    if n == 0 {
    } else {
      var next := PassAgrees(db, n - 1, today, tokens);
      ApplyDownAgrees(next, n - 1, today, tokens);
    }
  }

  /* The system */

  datatype SystemEvent =
    | Work(event: Event)                             // worker run, manual run, lifecycle action
    | RolledBack(event: Event)                       // the same, undone except on the routers
    | Change(change: ChangeEvent, day: Date)         // requests and their cron
    | ApplyNow(request: nat, token: string)          // manual application
    | Overdue(day: Date, standard: int)              // suspension cron
    | PaidUp                                         // reconnection cron
    | Bill(run: CronRun)                             // invoice cron
    | InvoiceNow(sub: nat, day: Date, posted: bool)  // manual invoice
    | Pay(invoice: nat)

  ghost predicate CanHappen(db: Db, e: SystemEvent) {
    match e
    case Work(event) => Possible(db, event)
    case RolledBack(event) => Possible(db, event)
    case Change(change, _) => ChangePossible(db, change)
    case ApplyNow(r, _) => r < |db.requests|
    case InvoiceNow(i, _, _) => i < |db.subs|
    case Pay(m) => m < |db.invoices|
    case _ => true
  }

  function Advance(db: Db, e: SystemEvent): Db
    requires ValidDb(db) && CanHappen(db, e)
  {
    match e
    case Work(event) => Happen(db, event)
    case RolledBack(event) => db.(routers := Happen(db, event).routers)
    case Change(change, today) => ChangeHappens(db, change, today)
    case ApplyNow(r, token) => ApplyRequest(db, r, token)
    case Overdue(today, standard) => SuspendCron(db, today, standard)
    case PaidUp => ReconnectCron(db)
    case Bill(run) => InvoiceCron(db, run.day, run.posted)
    case InvoiceNow(i, today, posted) => GenerateInvoice(db, i, today, posted)
    case Pay(m) => db.(invoices := db.invoices[m := db.invoices[m].(paid := true)])
  }

  // What the invoice cron may change.
  ghost predicate Billed(db: Db, db': Db) {
    && ValidDb(db') && db' == db.(invoices := db'.invoices, subs := db'.subs) && |db'.subs| == |db.subs|
    && forall i :: 0 <= i < |db.subs| ==> db'.subs[i] == db.subs[i].(nextInvoice := db'.subs[i].nextInvoice)
  }

  lemma GenerateBills(db: Db, i: nat, today: Date, posted: bool)
    requires ValidDb(db) && i < |db.subs|
    ensures Billed(db, GenerateInvoice(db, i, today, posted))
  {
  }

  lemma BillOne(db: Db, i: nat, today: Date, posted: nat -> bool) returns (next: Db)
    requires ValidDb(db) && i < |db.subs|
    ensures Billed(db, next) && InvoiceDown(db, i + 1, today, posted) == InvoiceDown(next, i, today, posted)
  {
    next := db;
    if InvoiceDue(db.subs[i], today) {
      next := GenerateInvoice(db, i, today, posted(i));
      GenerateBills(db, i, today, posted(i));
    }
  }

  lemma BilledThen(a: Db, b: Db, c: Db)
    requires Billed(a, b) && Billed(b, c)
    ensures Billed(a, c)
  {
    forall i | 0 <= i < |a.subs| ensures c.subs[i] == a.subs[i].(nextInvoice := c.subs[i].nextInvoice) {
      assert b.subs[i] == a.subs[i].(nextInvoice := b.subs[i].nextInvoice);
    }
  }

  lemma {:induction false} BillFrame(db: Db, n: nat, today: Date, posted: nat -> bool)
    requires ValidDb(db) && n <= |db.subs|
    ensures Billed(db, InvoiceDown(db, n, today, posted))
    decreases n
  {
    if n == 0 {
    } else {
      var next := BillOne(db, n - 1, today, posted);
      var last := InvoiceDown(next, n - 1, today, posted);
      assert InvoiceDown(db, n, today, posted) == last;
      assert Billed(next, last) by { BillFrame(next, n - 1, today, posted); }
      assert Billed(db, last) by { BilledThen(db, next, last); }
    }
  }

  lemma ChangeAgrees(db: Db, e: ChangeEvent, today: Date)
    requires Agreed(db) && ChangePossible(db, e)
    ensures Agreed(ChangeHappens(db, e, today))
  {
    ChangeValid(db, e, today);
    match e
    case Create(_) => FrameAgrees(db, ChangeHappens(db, e, today));
    case SubmitIt(r, _) => FrameAgrees(db, ChangeHappens(db, e, today));
    case RejectIt(_) => FrameAgrees(db, ChangeHappens(db, e, today));
    case ApproveIt(r, token) =>
      var q := db.requests[r].(effective := EffectiveDate(db, db.requests[r], today), stage := Approved);
      RestageValid(db, r, q);
      FrameAgrees(db, Restage(db, r, q));
      ApplyAgrees(Restage(db, r, q), r, token);
    case Cron(tokens) => ApplyDownAgrees(db, |db.requests|, today, tokens);
  }

  lemma WorkAgrees(db: Db, event: Event)
    requires Agreed(db) && Possible(db, event)
    ensures Agreed(Happen(db, event))
  {
    match event
    case Worker(links) => RunAgrees(db, QueuedFrom(db.jobs, 0, BATCH), links);
    case Manual(js, links) => RunAgrees(db, js, links);
    case Submit(kind, i, token) =>
      LifecycleActionForm(db, i, kind, token);
      FrameAgrees(db, LifecycleAction(db, i, kind, token));
  }

  // What an event of the queue never changes.
  lemma WorkKeeps(db: Db, event: Event)
    requires ValidDb(db) && Possible(db, event)
    ensures var db' := Happen(db, event);
            && ValidDb(db') && db'.plans == db.plans && db'.invoices == db.invoices && db'.requests == db.requests
            && |db'.subs| == |db.subs| && |db'.routers| == |db.routers| && |db'.jobs| >= |db.jobs|
            && forall i :: 0 <= i < |db.subs| ==> SameIdentity(db.subs[i], db'.subs[i])
  {
    match event
    case Worker(links) => RunJobsValid(db, QueuedFrom(db.jobs, 0, BATCH), links);
    case Manual(js, links) => RunJobsValid(db, js, links);
    case Submit(kind, i, token) => LifecycleActionForm(db, i, kind, token);
  }

  // A plan change that a run leaves queued or failed was queued or failed before it.
  lemma PendingBefore(db: Db, event: Event, i: nat)
    requires ValidDb(db) && Possible(db, event) && !event.Submit? && Pending(Happen(db, event), i)
    ensures Pending(db, i)
  {
    var db' := Happen(db, event);
    var p :| 0 <= p < |db'.jobs| && db'.jobs[p].kind == ChangePlan && db'.jobs[p].sub == Some(i)
             && db'.jobs[p].state in {Queued, JobState.Failed};
    match event {
      case Worker(links) => RunJobsValid(db, QueuedFrom(db.jobs, 0, BATCH), links);
      case Manual(js, links) => RunJobsValid(db, js, links);
    }
    EventProgress(db, event, p);
    assert db.jobs[p].kind == ChangePlan && db.jobs[p].sub == Some(i)
           && db.jobs[p].state in {Queued, JobState.Failed};
  }

  lemma RollbackAgreesAt(db: Db, db': Db, i: nat)
    requires Agreed(db) && Agreed(db') && |db'.routers| == |db.routers| && db'.plans == db.plans
    requires i < |db.subs| == |db'.subs| && SameIdentity(db.subs[i], db'.subs[i])
    requires Pending(db', i) ==> Pending(db, i)
    ensures ValidDb(db.(routers := db'.routers)) && AgreedAt(db.(routers := db'.routers), i)
  {
    var back := db.(routers := db'.routers);
    assert AgreedAt(db', i) && QueueAt(back, i) == QueueAt(db', i) && PlanOf(back, i) == PlanOf(db', i);
    if Pending(db, i) {
      var p :| 0 <= p < |db.jobs| && db.jobs[p].kind == ChangePlan && db.jobs[p].sub == Some(i)
               && db.jobs[p].state in {Queued, JobState.Failed};
      assert back.jobs[p] == db.jobs[p];
    }
  }

  // Records restored, routers as the run left them.
  lemma RollbackAgrees(db: Db, event: Event)
    requires Agreed(db) && Possible(db, event)
    ensures Agreed(Advance(db, RolledBack(event)))
  {
    WorkKeeps(db, event);
    WorkAgrees(db, event);
    if event.Submit? {
      assert Advance(db, RolledBack(event)) == db;
    } else {
      forall i | 0 <= i < |db.subs| ensures AgreedAt(Advance(db, RolledBack(event)), i) {
        if Pending(Happen(db, event), i) { PendingBefore(db, event, i); }
        RollbackAgreesAt(db, Happen(db, event), i);
      }
    }
  }

  // Every step of the system keeps the agreement.
  lemma AdvanceAgrees(db: Db, e: SystemEvent)
    requires Agreed(db) && CanHappen(db, e)
    ensures Agreed(Advance(db, e))
  {
    match e
    case Work(event) => WorkAgrees(db, event);
    case RolledBack(event) => RollbackAgrees(db, event);
    case Change(change, today) => ChangeAgrees(db, change, today);
    case ApplyNow(r, token) => ApplyAgrees(db, r, token);
    case Overdue(today, standard) =>
      OnlySuspendJobs(db, |db.invoices|, today, standard);
      AppendValid(db, SuspendJobs(db, |db.invoices|, today, standard));
      FrameAgrees(db, SuspendCron(db, today, standard));
    case PaidUp =>
      ReconnectJobsExact(db, |db.subs|);
      AppendValid(db, ReconnectJobs(db, |db.subs|));
      FrameAgrees(db, ReconnectCron(db));
    case Bill(run) =>
      BillFrame(db, |db.subs|, run.day, run.posted);
      FrameAgrees(db, InvoiceCron(db, run.day, run.posted));
    case InvoiceNow(i, today, posted) =>
      GenerateBills(db, i, today, posted);
      FrameAgrees(db, GenerateInvoice(db, i, today, posted));
    case Pay(_) => FrameAgrees(db, Advance(db, e));
  }

  lemma AppendValid(db: Db, more: seq<Job>)
    requires ValidDb(db) && forall job :: job in more ==> job.sub.Some? && job.sub.value < |db.subs|
    ensures ValidDb(db.(jobs := db.jobs + more))
  {
    var all := db.jobs + more;
    forall j | 0 <= j < |all| && all[j].sub.Some? ensures all[j].sub.value < |db.subs| {
      if j >= |db.jobs| { assert all[j] in more; }
    }
  }

  lemma AdvanceValid(db: Db, e: SystemEvent)
    requires ValidDb(db) && CanHappen(db, e)
    ensures ValidDb(Advance(db, e))
  {
    match e
    case Work(event) => WorkKeeps(db, event);
    case RolledBack(event) => WorkKeeps(db, event);
    case Change(change, today) => ChangeValid(db, change, today);
    case ApplyNow(r, token) => ApplyValid(db, r, token);
    case Overdue(today, standard) =>
      OnlySuspendJobs(db, |db.invoices|, today, standard);
      AppendValid(db, SuspendJobs(db, |db.invoices|, today, standard));
    case PaidUp =>
      ReconnectJobsExact(db, |db.subs|);
      AppendValid(db, ReconnectJobs(db, |db.subs|));
    case Bill(run) => BillFrame(db, |db.subs|, run.day, run.posted);
    case InvoiceNow(i, today, posted) => GenerateBills(db, i, today, posted);
    case Pay(_) =>
  }

  ghost predicate CanRun(db: Db, es: seq<SystemEvent>)
    requires ValidDb(db)
    decreases |es|
  {
    es != [] ==> CanHappen(db, es[0]) && (AdvanceValid(db, es[0]); CanRun(Advance(db, es[0]), es[1..]))
  }

  function AfterRun(db: Db, es: seq<SystemEvent>): (db': Db)
    requires ValidDb(db) && CanRun(db, es)
    ensures ValidDb(db')
    decreases |es|
  {
    if es == [] then db else (AdvanceValid(db, es[0]); AfterRun(Advance(db, es[0]), es[1..]))
  }

  // In every state the system can reach, each queue row carries the live plan's limit,
  // or a plan change job for its subscription is queued or has failed.
  lemma {:induction false} AgreementModuloPending(db: Db, es: seq<SystemEvent>)
    requires Agreed(db) && CanRun(db, es)
    ensures Agreed(AfterRun(db, es))
    decreases |es|
  {
    if es == [] {
    } else {
      AdvanceAgrees(db, es[0]);
      AgreementModuloPending(Advance(db, es[0]), es[1..]);
    }
  }

  // Once all jobs have succeeded, every queue row agrees with the live plan.
  lemma AgreementWhenDone(db: Db, es: seq<SystemEvent>, i: nat)
    requires Agreed(db) && CanRun(db, es) && i < |AfterRun(db, es).subs|
    requires forall j :: 0 <= j < |AfterRun(db, es).jobs| ==> AfterRun(db, es).jobs[j].state == Success
    ensures Agreed(AfterRun(db, es))
    ensures var db' := AfterRun(db, es);
            QueueAt(db', i).Some? ==> QueueAt(db', i).value.limit == PlanOf(db', i).limit
  {
    AgreementModuloPending(db, es);
    assert AgreedAt(AfterRun(db, es), i);
  }

  /* Unpaid invoices over whole runs */

  // Invoices are only added and paid.
  ghost predicate InvoicesKept(a: Db, b: Db) {
    && b.plans == a.plans && |a.invoices| <= |b.invoices|
    && forall m :: 0 <= m < |a.invoices| ==>
         (b.invoices[m] == a.invoices[m] || b.invoices[m] == a.invoices[m].(paid := true))
  }

  lemma ChangeKeepsInvoices(db: Db, e: ChangeEvent, today: Date)
    requires ValidDb(db) && ChangePossible(db, e)
    ensures InvoicesKept(db, ChangeHappens(db, e, today))
  {
    match e
    case Create(_) =>
    case SubmitIt(_, _) =>
    case RejectIt(_) =>
    case ApproveIt(r, token) =>
      var q := db.requests[r].(effective := EffectiveDate(db, db.requests[r], today), stage := Approved);
      RestageValid(db, r, q);
      ApplyOne(Restage(db, r, q), r, token);
    case Cron(tokens) => ApplyDownFrame(db, |db.requests|, today, tokens);
  }

  lemma AdvanceKeepsInvoices(db: Db, e: SystemEvent)
    requires ValidDb(db) && CanHappen(db, e)
    ensures InvoicesKept(db, Advance(db, e))
  {
    match e
    case Work(event) => WorkKeeps(db, event);
    case RolledBack(event) => WorkKeeps(db, event);
    case Change(change, today) => ChangeKeepsInvoices(db, change, today);
    case ApplyNow(r, token) => ApplyOne(db, r, token);
    case Overdue(_, _) =>
    case PaidUp =>
    case Bill(run) =>
      if db.subs != [] { InvoiceDownOn(db, |db.subs|, run.day, run.posted, 0); }
    case InvoiceNow(_, _, _) =>
    case Pay(_) =>
  }

  lemma {:induction false} RunKeepsInvoices(db: Db, es: seq<SystemEvent>)
    requires ValidDb(db) && CanRun(db, es)
    ensures InvoicesKept(db, AfterRun(db, es))
    decreases |es|
  {
    if es == [] {
    } else {
      AdvanceValid(db, es[0]);
      AdvanceKeepsInvoices(db, es[0]);
      RunKeepsInvoices(Advance(db, es[0]), es[1..]);
    }
  }

  // An invoice that qualifies for suspension goes on qualifying, whatever happens in
  // between, exactly as long as it is unpaid and its subscription active, on a plan that
  // does not wait longer.
  lemma QualifyingLasts(db: Db, es: seq<SystemEvent>, m: nat, today: Date, later: Date, standard: int)
    requires ValidDb(db) && CanRun(db, es) && m < |db.invoices|
    requires Qualifies(db, db.invoices[m], today, standard) && Ordinal(today) <= Ordinal(later)
    ensures var db' := AfterRun(db, es);
            && m < |db'.invoices| && db'.invoices[m].sub == db.invoices[m].sub
            && (EffectiveDays(PlanOf(db', db'.invoices[m].sub.value), standard)
                <= EffectiveDays(PlanOf(db, db.invoices[m].sub.value), standard) ==>
                  (Qualifies(db', db'.invoices[m], later, standard) <==>
                     !db'.invoices[m].paid && db'.subs[db'.invoices[m].sub.value].state == Active))
  {
    RunKeepsInvoices(db, es);
  }
}
