/** Plan change requests: their effective dates, their stages, and the cron that applies them. */
module PlanChanges {
  import opened Basics
  import opened Calendar
  import opened Provisioning
  import opened JobQueue

  function EffectiveDate(db: Db, r: Request, today: Date): Option<Date>
    requires r.sub < |db.subs|
  {
    if r.effective.Some? then r.effective
    else
      match r.mode
      case Immediate => Some(today)
      case NextCycle =>
        var next := db.subs[r.sub].nextInvoice;
        if next.Some? then next else Some(AddMonth(today))
      case Custom => None
  }

  function Restage(db: Db, r: nat, request: Request): Db
    requires r < |db.requests|
  {
    db.(requests := db.requests[r := request])
  }

  // Immediate changes may be submitted by administrators and the operations centre only.
  function SubmitRequest(db: Db, r: nat, today: Date, privileged: bool): (Db, bool)
    requires ValidDb(db) && r < |db.requests|
  {
    var q := db.requests[r];
    if q.mode == Immediate && !privileged then (db, false)
    else (Restage(db, r, q.(effective := EffectiveDate(db, q, today), stage := Submitted)), true)
  }

  // Apply: the subscription gets the plan, a job is queued, the request is done.
  function ApplyRequest(db: Db, r: nat, token: string): Db
    requires ValidDb(db) && r < |db.requests|
  {
    var q := db.requests[r];
    var s := db.subs[q.sub].(plan := q.plan);
    var db1 := db.(subs := db.subs[q.sub := EnsureCredentials(s, db.plans[q.plan], token)]);
    Restage(QueueJob(db1, q.sub, ChangePlan), r, q.(stage := Applied))
  }

  function ApproveRequest(db: Db, r: nat, today: Date, token: string): Db
    requires ValidDb(db) && r < |db.requests|
  {
    var q := db.requests[r];
    var approved := q.(effective := EffectiveDate(db, q, today), stage := Approved);
    var db1 := Restage(db, r, approved);
    if approved.effective.Some? && Ordinal(approved.effective.value) <= Ordinal(today)
    then (RestageValid(db, r, approved); ApplyRequest(db1, r, token))
    else db1
  }

  function RejectRequest(db: Db, r: nat): (Db, bool)
    requires ValidDb(db) && r < |db.requests|
  {
    if !db.requests[r].reasoned then (db, false)
    else (Restage(db, r, db.requests[r].(stage := Rejected)), true)
  }

  lemma RestageValid(db: Db, r: nat, q: Request)
    requires ValidDb(db) && r < |db.requests| && q.sub == db.requests[r].sub && q.plan == db.requests[r].plan
    ensures ValidDb(Restage(db, r, q))
  {
  }

  lemma ApplyValid(db: Db, r: nat, token: string)
    requires ValidDb(db) && r < |db.requests|
    ensures ValidDb(ApplyRequest(db, r, token))
  {
    var q := db.requests[r];
    var s := EnsureCredentials(db.subs[q.sub].(plan := q.plan), db.plans[q.plan], token);
    var db' := ApplyRequest(db, r, token);
    forall i | 0 <= i < |db'.subs|
      ensures db'.subs[i].plan < |db'.plans| && (db'.subs[i].router.Some? ==> db'.subs[i].router.value < |db'.routers|)
    {
      assert db'.subs[i] == if i == q.sub then s else db.subs[i];
    }
  }

  predicate Due(q: Request, today: Date) {
    q.stage == Approved && q.effective.Some? && Ordinal(q.effective.value) <= Ordinal(today)
  }

  // Requests n - 1 down to 0: newest first.
  function ApplyDown(db: Db, n: nat, today: Date, tokens: nat -> string): Db
    requires ValidDb(db) && n <= |db.requests|
    decreases n
  {
    if n == 0 then db
    else if Due(db.requests[n - 1], today)
    then (ApplyValid(db, n - 1, tokens(n - 1)); ApplyDown(ApplyRequest(db, n - 1, tokens(n - 1)), n - 1, today, tokens))
    else ApplyDown(db, n - 1, today, tokens)
  }

  function ChangeCron(db: Db, today: Date, tokens: nat -> string): Db
    requires ValidDb(db)
  {
    ApplyDown(db, |db.requests|, today, tokens)
  }

  /* One run of the cron */

  // The due request for subscription i with the lowest position, or n if there is none.
  function LowestDue(requests: seq<Request>, n: nat, i: nat, today: Date): (r: nat)
    requires n <= |requests|
    ensures r <= n
    ensures r < n ==> Due(requests[r], today) && requests[r].sub == i
    ensures forall k :: 0 <= k < r ==> !(Due(requests[k], today) && requests[k].sub == i)
  {
    if n == 0 then 0
    else
      var r := LowestDue(requests, n - 1, i, today);
      if r < n - 1 then r
      else if Due(requests[n - 1], today) && requests[n - 1].sub == i then n - 1
      else n
  }

  function DueCount(requests: seq<Request>, n: nat, today: Date): nat
    requires n <= |requests|
  {
    if n == 0 then 0 else DueCount(requests, n - 1, today) + (if Due(requests[n - 1], today) then 1 else 0)
  }

  // What applying a request may change in a subscription.
  predicate PlanChanged(a: Sub, b: Sub) {
    b == a.(plan := b.plan, user := b.user, password := b.password, profile := b.profile)
  }

  lemma ApplyOne(db: Db, r: nat, token: string)
    requires ValidDb(db) && r < |db.requests|
    ensures var db' := ApplyRequest(db, r, token);
            var q := db.requests[r];
            && ValidDb(db') && db'.requests == db.requests[r := q.(stage := Applied)]
            && db'.jobs == db.jobs + [NewJob(ChangePlan, q.sub)]
            && db'.plans == db.plans && db'.routers == db.routers && db'.invoices == db.invoices
            && |db'.subs| == |db.subs| && PlanChanged(db.subs[q.sub], db'.subs[q.sub]) && db'.subs[q.sub].plan == q.plan
            && db'.subs == db.subs[q.sub := db'.subs[q.sub]]
  {
    ApplyValid(db, r, token);
  }

  // What the cron makes of one request.
  ghost predicate Passed(a: Db, b: Db, r: nat, today: Date)
    requires ValidDb(a) && r < |a.requests|
  {
    var q := a.requests[r];
    var due := Due(q, today);
    && ValidDb(b) && |b.subs| == |a.subs| && b.plans == a.plans && b.routers == a.routers && b.invoices == a.invoices
    && b.requests == (if due then a.requests[r := q.(stage := Applied)] else a.requests)
    && b.jobs == (if due then a.jobs + [NewJob(ChangePlan, q.sub)] else a.jobs)
    && (forall i :: 0 <= i < |a.subs| ==> PlanChanged(a.subs[i], b.subs[i]))
    && (forall i :: 0 <= i < |a.subs| ==> b.subs[i].plan == if due && i == q.sub then q.plan else a.subs[i].plan)
  }

  lemma PassOne(db: Db, r: nat, today: Date, tokens: nat -> string) returns (next: Db)
    requires ValidDb(db) && r < |db.requests|
    ensures Passed(db, next, r, today)
    ensures ApplyDown(db, r + 1, today, tokens) == ApplyDown(next, r, today, tokens)
  {
    if Due(db.requests[r], today) {
      next := ApplyRequest(db, r, tokens(r));
      ApplyOne(db, r, tokens(r));
    } else {
      next := db;
    }
  }

  // The cron touches requests below n, credentials and plans, and adds jobs.
  lemma {:induction false} ApplyDownFrame(db: Db, n: nat, today: Date, tokens: nat -> string)
    requires ValidDb(db) && n <= |db.requests|
    ensures var db' := ApplyDown(db, n, today, tokens);
            && ValidDb(db') && |db'.requests| == |db.requests| && |db'.subs| == |db.subs|
            && db'.plans == db.plans && db'.routers == db.routers && db'.invoices == db.invoices
            && forall i :: 0 <= i < |db.subs| ==> PlanChanged(db.subs[i], db'.subs[i])
    decreases n
  {
    if n == 0 {
    } else {
      var next := PassOne(db, n - 1, today, tokens);
      ApplyDownFrame(next, n - 1, today, tokens);
    }
  }

  // Exactly the due requests are applied.
  lemma {:induction false} ApplyDownRequests(db: Db, n: nat, today: Date, tokens: nat -> string)
    requires ValidDb(db) && n <= |db.requests|
    ensures var db' := ApplyDown(db, n, today, tokens);
            |db'.requests| == |db.requests|
            && forall r :: 0 <= r < |db.requests| ==>
                 (db'.requests[r] == if r < n && Due(db.requests[r], today) then db.requests[r].(stage := Applied)
                                     else db.requests[r])
    decreases n
  {
    if n == 0 {
    } else {
      var next := PassOne(db, n - 1, today, tokens);
      ApplyDownRequests(next, n - 1, today, tokens);
    }
  }

  // The queue has grown by so many change jobs.
  predicate ChangesQueued(before: seq<Job>, after: seq<Job>, count: nat) {
    && before <= after && |after| == |before| + count
    && forall j :: |before| <= j < |after| ==> after[j].sub.Some? && after[j] == NewJob(ChangePlan, after[j].sub.value)
  }

  lemma QueuedThen(a: seq<Job>, b: seq<Job>, c: seq<Job>, m: nat, n: nat)
    requires ChangesQueued(a, b, m) && ChangesQueued(b, c, n)
    ensures ChangesQueued(a, c, m + n)
  {
  }

  lemma PassJobs(db: Db, n: nat, today: Date, tokens: nat -> string) returns (next: Db, k: nat)
    requires ValidDb(db) && n < |db.requests|
    ensures ValidDb(next) && n <= |next.requests| && ChangesQueued(db.jobs, next.jobs, k)
    ensures DueCount(db.requests, n + 1, today) == k + DueCount(next.requests, n, today)
    ensures ApplyDown(db, n + 1, today, tokens) == ApplyDown(next, n, today, tokens)
  {
    next := PassOne(db, n, today, tokens);
    k := if Due(db.requests[n], today) then 1 else 0;
    DueCountBelow(db.requests, next.requests, n, today);
  }

  // One change job is queued per applied request.
  lemma {:induction false} ApplyDownJobs(db: Db, n: nat, today: Date, tokens: nat -> string)
    requires ValidDb(db) && n <= |db.requests|
    ensures ChangesQueued(db.jobs, ApplyDown(db, n, today, tokens).jobs, DueCount(db.requests, n, today))
    decreases n
  {
    if n == 0 {
    } else {
      var next, k := PassJobs(db, n - 1, today, tokens);
      ApplyDownJobs(next, n - 1, today, tokens);
      QueuedThen(db.jobs, next.jobs, ApplyDown(next, n - 1, today, tokens).jobs, k,
                 DueCount(next.requests, n - 1, today));
    }
  }

  // The plan of subscription i after the requests below n, seen from the records as they are.
  function PlanToBe(db: Db, n: nat, i: nat, today: Date): nat
    requires n <= |db.requests| && i < |db.subs|
  {
    var r := LowestDue(db.requests, n, i, today);
    if r < n then db.requests[r].plan else db.subs[i].plan
  }

  lemma PassPlans(db: Db, n: nat, today: Date, tokens: nat -> string, i: nat) returns (next: Db)
    requires ValidDb(db) && n < |db.requests| && i < |db.subs|
    ensures ValidDb(next) && n <= |next.requests| && i < |next.subs|
    ensures PlanToBe(db, n + 1, i, today) == PlanToBe(next, n, i, today)
    ensures ApplyDown(db, n + 1, today, tokens) == ApplyDown(next, n, today, tokens)
  {
    next := PassOne(db, n, today, tokens);
    LowestDueNext(db.requests, next.requests, n, i, today);
  }

  // A subscription with several due requests ends on the plan of the lowest one.
  lemma {:induction false} ApplyDownPlans(db: Db, n: nat, today: Date, tokens: nat -> string, i: nat)
    requires ValidDb(db) && n <= |db.requests| && i < |db.subs|
    ensures var db' := ApplyDown(db, n, today, tokens);
            i < |db'.subs| && db'.subs[i].plan == PlanToBe(db, n, i, today)
    decreases n
  {
    if n == 0 {
    } else {
      var next := PassPlans(db, n - 1, today, tokens, i);
      ApplyDownPlans(next, n - 1, today, tokens, i);
    }
  }

  lemma {:induction false} DueCountBelow(a: seq<Request>, b: seq<Request>, n: nat, today: Date)
    requires n <= |a| && n <= |b| && forall k :: 0 <= k < n ==> a[k] == b[k]
    ensures DueCount(a, n, today) == DueCount(b, n, today)
  {
    if n == 0 {
    } else {
      DueCountBelow(a, b, n - 1, today);
    }
  }

  lemma {:induction false} LowestDueBelow(a: seq<Request>, b: seq<Request>, n: nat, i: nat, today: Date)
    requires n <= |a| && n <= |b| && forall k :: 0 <= k < n ==> a[k] == b[k]
    ensures LowestDue(a, n, i, today) == LowestDue(b, n, i, today)
  {
    if n == 0 {
    } else {
      LowestDueBelow(a, b, n - 1, i, today);
    }
  }

  lemma LowestDueNext(a: seq<Request>, b: seq<Request>, n: nat, i: nat, today: Date)
    requires n < |a| && n <= |b| && forall k :: 0 <= k < n ==> a[k] == b[k]
    ensures var r := LowestDue(b, n, i, today);
            LowestDue(a, n + 1, i, today) == if r < n || (Due(a[n], today) && a[n].sub == i) then r else n + 1
  {
    LowestDueBelow(a, b, n, i, today);
  }

  /* What may happen to requests, manual application aside */

  datatype ChangeEvent =
    | Create(request: Request)
    | SubmitIt(r: nat, privileged: bool)
    | ApproveIt(r: nat, token: string)
    | RejectIt(r: nat)
    | Cron(tokens: nat -> string)

  ghost predicate ChangePossible(db: Db, e: ChangeEvent) {
    match e
    case Create(q) => q.stage == Stage.Draft && q.sub < |db.subs| && q.plan < |db.plans|
    case SubmitIt(r, _) => r < |db.requests|
    case ApproveIt(r, _) => r < |db.requests|
    case RejectIt(r) => r < |db.requests|
    case Cron(_) => true
  }

  function ChangeHappens(db: Db, e: ChangeEvent, today: Date): Db
    requires ValidDb(db) && ChangePossible(db, e)
  {
    match e
    case Create(q) => db.(requests := db.requests + [q.(effective := EffectiveDate(db, q, today))])
    case SubmitIt(r, privileged) => SubmitRequest(db, r, today, privileged).0
    case ApproveIt(r, token) => ApproveRequest(db, r, today, token)
    case RejectIt(r) => RejectRequest(db, r).0
    case Cron(tokens) => ChangeCron(db, today, tokens)
  }

  // Every applied request has reached its effective date, those applied by hand aside.
  ghost predicate NoneEarly(db: Db, today: Date, byHand: set<nat>) {
    forall r :: 0 <= r < |db.requests| && db.requests[r].stage == Applied && r !in byHand ==>
      db.requests[r].effective.Some? && Ordinal(db.requests[r].effective.value) <= Ordinal(today)
  }

  lemma ChangeValid(db: Db, e: ChangeEvent, today: Date)
    requires ValidDb(db) && ChangePossible(db, e)
    ensures ValidDb(ChangeHappens(db, e, today))
  {
    match e
    case Create(_) =>
    case SubmitIt(r, _) =>
    case RejectIt(_) =>
    case ApproveIt(r, token) =>
      var q := db.requests[r].(effective := EffectiveDate(db, db.requests[r], today), stage := Approved);
      RestageValid(db, r, q);
      ApplyValid(Restage(db, r, q), r, token);
    case Cron(tokens) => ApplyDownFrame(db, |db.requests|, today, tokens);
  }

  lemma NoneEarlyStep(db: Db, e: ChangeEvent, today: Date, byHand: set<nat>)
    requires ValidDb(db) && ChangePossible(db, e) && NoneEarly(db, today, byHand)
    ensures NoneEarly(ChangeHappens(db, e, today), today, byHand)
  {
    match e
    case Create(_) =>
    case SubmitIt(_, _) =>
    case RejectIt(_) =>
    case ApproveIt(r, token) =>
    case Cron(tokens) => ApplyDownRequests(db, |db.requests|, today, tokens);
  }

  // The first cron run on or after the effective date applies an approved request, and
  // after any run none that is due is left.
  lemma CronAppliesDue(db: Db, today: Date, tokens: nat -> string)
    requires ValidDb(db)
    ensures var db' := ChangeCron(db, today, tokens);
            && |db'.requests| == |db.requests|
            && (forall r :: 0 <= r < |db.requests| && Due(db.requests[r], today) ==> db'.requests[r].stage == Applied)
            && (forall r :: 0 <= r < |db.requests| ==> !Due(db'.requests[r], today))
  {
    ApplyDownRequests(db, |db.requests|, today, tokens);
  }
}
