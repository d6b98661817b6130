/** What each action on a plan change request makes of the records, in terms of their fields alone. */
module PlanChangeRules {
  import opened Basics
  import opened Calendar
  import opened Provisioning
  import opened JobQueue
  import opened PlanChanges

  // The date a request has once it was seen to: a given one is kept; else today for an
  // immediate change, the next invoice date, or a month from today, for the next cycle, and
  // none for a custom one.
  predicate DatedAs(q: Request, next: Option<Date>, today: Date, date: Option<Date>) {
    if q.effective.Some? then date == q.effective
    else
      match q.mode
      case Immediate => date == Some(today)
      case NextCycle => if next.Some? then date == next else date.Some? && MonthFrom(today, date.value)
      case Custom => date == None
  }

  // The next month, on the same day or the last there is.
  predicate MonthFrom(d: Date, later: Date) {
    && MonthIndex(later) == MonthIndex(d) + 1
    && later.day == if d.day <= Length(MonthIndex(d) + 1) then d.day else Length(MonthIndex(d) + 1)
  }

  lemma DateRule(db: Db, q: Request, today: Date)
    requires q.sub < |db.subs|
    ensures DatedAs(q, db.subs[q.sub].nextInvoice, today, EffectiveDate(db, q, today))
  {
    AddMonthAdvances(today);
  }

  predicate Reached(date: Option<Date>, today: Date) {
    date.Some? && Ordinal(date.value) <= Ordinal(today)
  }

  // A new request gets its date at once.
  lemma CreateRule(db: Db, q: Request, today: Date)
    requires ValidDb(db) && ChangePossible(db, Create(q))
    ensures var db' := ChangeHappens(db, Create(q), today);
            && |db'.requests| == |db.requests| + 1 && db' == db.(requests := db'.requests) && db.requests <= db'.requests
            && var made := db'.requests[|db.requests|];
               made == q.(effective := made.effective)
               && DatedAs(q, db.subs[q.sub].nextInvoice, today, made.effective)
  {
    DateRule(db, q, today);
  }

  // Submission: refused for an immediate change by the unprivileged, who change nothing.
  lemma SubmitRule(db: Db, r: nat, today: Date, privileged: bool)
    requires ValidDb(db) && r < |db.requests|
    ensures var (db', ok) := SubmitRequest(db, r, today, privileged);
            var q := db.requests[r];
            && (ok <==> q.mode != Immediate || privileged) && (!ok ==> db' == db) && |db'.requests| == |db.requests|
            && (ok ==> && db' == db.(requests := db.requests[r := db'.requests[r]])
                       && db'.requests[r] == q.(stage := Submitted, effective := db'.requests[r].effective)
                       && DatedAs(q, db.subs[q.sub].nextInvoice, today, db'.requests[r].effective))
  {
    DateRule(db, db.requests[r], today);
  }

  lemma RejectRule(db: Db, r: nat)
    requires ValidDb(db) && r < |db.requests|
    ensures var (db', ok) := RejectRequest(db, r);
            && (ok <==> db.requests[r].reasoned) && (!ok ==> db' == db)
            && (ok ==> db' == db.(requests := db.requests[r := db.requests[r].(stage := Rejected)]))
  {
  }

  // The subscription on its new plan, with missing credentials filled in.
  function Moved(s: Sub, p: nat, plan: Plan, token: string): Sub {
    var pppoe := s.auth == ByPppoe;
    s.(plan := p,
       user := if pppoe && s.user == "" then s.name else s.user,
       password := if pppoe && s.password == "" then token else s.password,
       profile := if pppoe && s.profile == "" then plan.profile else s.profile)
  }

  // The records in which request r, with this date, is applied.
  ghost predicate AppliedOn(db: Db, db': Db, r: nat, date: Option<Date>, token: string)
    requires ValidDb(db) && r < |db.requests|
  {
    var q := db.requests[r];
    db' == db.(requests := db.requests[r := q.(stage := Applied, effective := date)],
               subs := db.subs[q.sub := Moved(db.subs[q.sub], q.plan, db.plans[q.plan], token)],
               jobs := db.jobs + [Job(ChangePlan, Some(q.sub), Queued, 0, 3)])
  }

  lemma ApplyRule(db: Db, r: nat, token: string)
    requires ValidDb(db) && r < |db.requests|
    ensures AppliedOn(db, ApplyRequest(db, r, token), r, db.requests[r].effective, token)
  {
  }

  // Approval: before its date the request only changes its stage, on or after it the request
  // is applied at once.
  lemma ApproveRule(db: Db, r: nat, today: Date, token: string)
    requires ValidDb(db) && r < |db.requests|
    ensures var db' := ApproveRequest(db, r, today, token);
            var q := db.requests[r];
            && |db'.requests| == |db.requests|
            && var date := db'.requests[r].effective;
               && DatedAs(q, db.subs[q.sub].nextInvoice, today, date)
               && if Reached(date, today) then AppliedOn(db, db', r, date, token)
                  else db' == db.(requests := db.requests[r := q.(stage := Approved, effective := date)])
  {
    DateRule(db, db.requests[r], today);
  }

  // So an undated request for the next cycle waits for the next invoice date...
  lemma NextCycleWaits(db: Db, r: nat, today: Date, token: string)
    requires ValidDb(db) && r < |db.requests| && db.requests[r].mode == NextCycle && db.requests[r].effective == None
    ensures var db' := ApproveRequest(db, r, today, token);
            var q := db.requests[r];
            var next := db.subs[q.sub].nextInvoice;
            && |db'.requests| == |db.requests|
            && (db'.requests[r].stage == Approved <==> next == None || Ordinal(today) < Ordinal(next.value))
            && (db'.requests[r].stage == Approved ==> db' == db.(requests := db'.requests))
            && (next.Some? ==> db'.requests[r].effective == next)
  {
    ApproveRule(db, r, today, token);
    MonthGap(today);
  }

  // ...and an undated immediate one is applied when it is approved.
  lemma ImmediateApplies(db: Db, r: nat, today: Date, token: string)
    requires ValidDb(db) && r < |db.requests| && db.requests[r].mode == Immediate && db.requests[r].effective == None
    ensures AppliedOn(db, ApproveRequest(db, r, today, token), r, Some(today), token)
  {
    ApproveRule(db, r, today, token);
  }

  /* The cron */

  // Approved, and its date has come.
  predicate Ripe(q: Request, today: Date) {
    q.stage == Approved && Reached(q.effective, today)
  }

  // A run applies the approved requests whose date has come and no others; the earliest of
  // those for a subscription decides its plan, and all others keep theirs.
  lemma CronRule(db: Db, today: Date, tokens: nat -> string, r: nat, i: nat)
    requires ValidDb(db) && r < |db.requests| && i < |db.subs|
    ensures var db' := ChangeCron(db, today, tokens);
            && |db'.requests| == |db.requests| && |db'.subs| == |db.subs|
            && db'.requests[r] == (if Ripe(db.requests[r], today) then db.requests[r].(stage := Applied)
                                   else db.requests[r])
            && (Ripe(db.requests[r], today) && db.requests[r].sub == i
                && (forall k :: 0 <= k < r ==> !(Ripe(db.requests[k], today) && db.requests[k].sub == i))
                ==> db'.subs[i].plan == db.requests[r].plan)
            && ((forall k :: 0 <= k < |db.requests| ==> !(Ripe(db.requests[k], today) && db.requests[k].sub == i))
                ==> db'.subs[i].plan == db.subs[i].plan)
  {
    ApplyDownRequests(db, |db.requests|, today, tokens);
    ApplyDownFrame(db, |db.requests|, today, tokens);
    ApplyDownPlans(db, |db.requests|, today, tokens, i);
    assert forall q :: Due(q, today) <==> Ripe(q, today);
  }
}
