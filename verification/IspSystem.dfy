/**
  The provider's system as it runs: records and router tables updated step by step by
  handlers, the worker, the crons and the request actions. Every method is proved
  equal to the function on records that the results elsewhere are about.
 */
module IspSystem {
  import opened Basics
  import opened Calendar
  import opened Provisioning
  import opened JobQueue
  import opened Billing
  import opened PlanChanges

  // The key a command needs is there.
  predicate Addressed(c: Command, keys: Keys) {
    && (c.AddSecret? || c.SetSecret? || c.FlagSecret? ==> keys.secret.Some?)
    && (c.AddLease? || c.SetLease? ==> keys.lease.Some?)
  }

  predicate Fits(rows: Rows, keys: Keys) {
    (keys.secret.None? ==> rows.secret.None?) && (keys.lease.None? ==> rows.lease.None?)
  }

  lemma IssueFits(w: Wire, c: Command, keys: Keys)
    requires Fits(w.rows, keys) && Addressed(c, keys)
    ensures Fits(Issue(w, c).0.rows, keys)
  {
  }

  // Storing twice is storing the last, and what is stored is seen.
  lemma Chain(net: Net, keys: Keys, first: Rows, second: Rows)
    requires Fits(first, keys)
    ensures Look(Store(net, keys, first), keys) == first
    ensures Store(Store(net, keys, first), keys, second) == Store(net, keys, second)
  {
    LookStore(net, keys, first);
    assert Replace(Replace(net.secrets, keys.secret, first.secret), keys.secret, second.secret)
           == Replace(net.secrets, keys.secret, second.secret);
    assert Replace(Replace(net.leases, keys.lease, first.lease), keys.lease, second.lease)
           == Replace(net.leases, keys.lease, second.lease);
    assert Replace(Replace(net.queues, Some(keys.queue), first.queue), Some(keys.queue), second.queue)
           == Replace(net.queues, Some(keys.queue), second.queue);
  }

  class Isp {
    var plans: seq<Plan>
    var subs: seq<Sub>
    var routers: seq<Net>
    var jobs: seq<Job>
    var invoices: seq<Invoice>
    var requests: seq<Request>

    constructor (db: Db)
      ensures State() == db
    {
      plans, subs, routers := db.plans, db.subs, db.routers;
      jobs, invoices, requests := db.jobs, db.invoices, db.requests;
    }

    ghost function State(): Db
      reads this
    {
      Db(plans, subs, routers, jobs, invoices, requests)
    }

    /* Router commands */

    // One command on one router, addressed by the keys of one subscription.
    method Cmd(r: nat, keys: Keys, c: Command, line: Line) returns (ok: bool, left: Line)
      requires r < |routers| && Addressed(c, keys)
      modifies `routers
      ensures var (w, done) := Issue(Wire(Look(old(routers)[r], keys), line), c);
              && ok == done && left == w.line
              && routers == old(routers)[r := Store(old(routers)[r], keys, w.rows)]
    {
      var net := routers[r];
      StoreSame(net, keys);
      left := Line(if line.life > 0 then line.life - 1 else 0, line.lands && line.life > 0);
      if line.life == 0 && !line.lands { return false, left; }
      ok := true;
      match c {
        case AddSecret(s) =>
          if keys.secret.value in net.secrets { ok := false; }
          else { net := net.(secrets := net.secrets[keys.secret.value := s]); }
        case SetSecret(password, profile) =>
          if keys.secret.value !in net.secrets { ok := false; }
          else { net := net.(secrets := net.secrets[keys.secret.value := Secret(password, profile, false)]); }
        case FlagSecret(disabled) =>
          if keys.secret.value !in net.secrets { ok := false; }
          else {
            var user := keys.secret.value;
            net := net.(secrets := net.secrets[user := net.secrets[user].(disabled := disabled)]);
          }
        case AddLease(l) =>
          if keys.lease.value in net.leases { ok := false; }
          else { net := net.(leases := net.leases[keys.lease.value := l]); }
        case SetLease(comment) =>
          if keys.lease.value !in net.leases { ok := false; }
          else {
            net := net.(leases := net.leases[keys.lease.value :=
                          net.leases[keys.lease.value].(comment := comment, disabled := false)]);
          }
        case AddQueue(q) =>
          if keys.queue in net.queues { ok := false; }
          else { net := net.(queues := net.queues[keys.queue := q]); }
        case SetQueue(limit) =>
          if keys.queue !in net.queues { ok := false; }
          else {
            var queue := net.queues[keys.queue].(limit := limit, disabled := false);
            net := net.(queues := net.queues[keys.queue := queue]);
          }
        case DisableQueue =>
          if keys.queue !in net.queues { ok := false; }
          else { net := net.(queues := net.queues[keys.queue := net.queues[keys.queue].(disabled := true)]); }
        case RemoveQueue =>
          if keys.queue !in net.queues { ok := false; }
          else { net := net.(queues := net.queues - {keys.queue}); }
      }
      routers := routers[r := net];
      ok := ok && line.life > 0;
    }

    // try: add / except: set
    method CmdElse(r: nat, keys: Keys, add: Command, set': Command, line: Line) returns (ok: bool, left: Line)
      requires r < |routers| && Addressed(add, keys) && Addressed(set', keys)
      modifies `routers
      ensures var (w, done) := AddElseSet(Wire(Look(old(routers)[r], keys), line), add, set');
              && ok == done && left == w.line
              && routers == old(routers)[r := Store(old(routers)[r], keys, w.rows)]
              && Fits(w.rows, keys)
    {
      ghost var net := routers[r];
      ghost var w := Wire(Look(net, keys), line);
      IssueFits(w, add, keys);
      ok, left := Cmd(r, keys, add, line);
      if !ok {
        ghost var w1 := Issue(w, add).0;
        Chain(net, keys, w1.rows, Issue(w1, set').0.rows);
        IssueFits(w1, set', keys);
        ok, left := Cmd(r, keys, set', left);
      }
    }

    method PppoeEnsureSecret(r: nat, s: Sub, plan: Plan, line: Line) returns (ok: bool, left: Line)
      requires r < |routers| && plan.service == Pppoe
      modifies `routers
      ensures var keys := KeysOf(s, plan);
              var (w, done) := EnsureSecret(Wire(Look(old(routers)[r], keys), line), s, plan);
              && ok == done && left == w.line && Fits(w.rows, keys)
              && routers == old(routers)[r := Store(old(routers)[r], keys, w.rows)]
    {
      var profile := if plan.profile != "" then plan.profile else "default";
      ok, left := CmdElse(r, KeysOf(s, plan), AddSecret(Secret(s.password, profile, false)),
                          SetSecret(s.password, profile), line);
    }

    method DhcpEnsureLease(r: nat, s: Sub, plan: Plan, line: Line) returns (ok: bool, left: Line)
      requires r < |routers| && plan.service == Dhcp
      modifies `routers
      ensures var keys := KeysOf(s, plan);
              var (w, done) := EnsureLease(Wire(Look(old(routers)[r], keys), line), s);
              && ok == done && left == w.line && Fits(w.rows, keys)
              && routers == old(routers)[r := Store(old(routers)[r], keys, w.rows)]
    {
      if s.ip == "" || s.mac == "" {
        StoreSame(routers[r], KeysOf(s, plan));
        return true, line;
      }
      ok, left := CmdElse(r, KeysOf(s, plan), AddLease(Lease(s.mac, s.name, false)), SetLease(s.name), line);
    }

    method QueueEnsure(r: nat, s: Sub, plan: Plan, line: Line) returns (ok: bool, left: Line)
      requires r < |routers|
      modifies `routers
      ensures var keys := KeysOf(s, plan);
              var (w, done) := EnsureQueue(Wire(Look(old(routers)[r], keys), line), s, plan);
              && ok == done && left == w.line && Fits(w.rows, keys)
              && routers == old(routers)[r := Store(old(routers)[r], keys, w.rows)]
    {
      if s.ip == "" {
        StoreSame(routers[r], KeysOf(s, plan));
        return true, line;
      }
      ok, left := CmdElse(r, KeysOf(s, plan), AddQueue(Queue(s.ip + "/32", plan.limit, false)), SetQueue(plan.limit),
                          line);
    }

    /* Handlers: each leaves what the effect on the subscription and its rows says */

    // Go to a lifecycle state; going live needs coordinates.
    method WriteState(i: nat, state: Lifecycle) returns (ok: bool)
      requires i < |subs|
      modifies `subs
      ensures var e := Enter(old(subs)[i], Rows(None, None, None), state);
              ok == e.ok && subs == old(subs)[i := e.sub]
    {
      ok := !(state in {Active, Suspended}) || subs[i].located;
      if ok { subs := subs[i := subs[i].(state := state)]; }
    }

    method WriteCredentials(i: nat, token: string)
      requires ValidDb(State()) && i < |subs|
      modifies `subs
      ensures subs == old(subs)[i := EnsureCredentials(old(subs)[i], old(plans)[old(subs)[i].plan], token)]
    {
      var s := subs[i];
      if s.auth == ByPppoe {
        if s.user == "" { subs := subs[i := subs[i].(user := s.name)]; }
        if s.password == "" { subs := subs[i := subs[i].(password := token)]; }
        if s.profile == "" { subs := subs[i := subs[i].(profile := plans[s.plan].profile)]; }
      }
    }

    method HandleActivate(i: nat, link: Link) returns (ok: bool)
      requires ValidDb(State()) && i < |subs|
      modifies `subs, `routers
      ensures Handled(old(State()), Activate, i, link, State(), ok)
    {
      ghost var db := State();
      WriteCredentials(i, link.token);
      var s, plan := subs[i], plans[subs[i].plan];
      assert KeysOf(s, plan) == KeysAt(db, i);
      Untouched(db, i);
      if s.router == None || !link.up { return false; }
      ok := ActivateOn(s.router.value, s, plan, link.line);
      ActivationForm(s, plan, Wire(RowsAt(db, i), link.line), link.today);
      if !ok { return; }
      ok := WriteState(i, Active);
      if ok && s.start == None { subs := subs[i := subs[i].(start := Some(link.today))]; }
    }

    // The router part of an activation.
    method ActivateOn(r: nat, s: Sub, plan: Plan, line: Line) returns (ok: bool)
      requires r < |routers|
      modifies `routers
      ensures var keys := KeysOf(s, plan);
              var (w, done) := ActivationRows(s, plan, Wire(Look(old(routers)[r], keys), line));
              ok == done && routers == old(routers)[r := Store(old(routers)[r], keys, w.rows)]
    {
      ghost var net, keys := routers[r], KeysOf(s, plan);
      ghost var w := Wire(Look(net, keys), line);
      StoreSame(net, keys);
      var left := line;
      ok := true;
      match plan.service {
        case Pppoe => ok, left := PppoeEnsureSecret(r, s, plan, line);
        case Dhcp => ok, left := DhcpEnsureLease(r, s, plan, line);
        case Hotspot =>
      }
      if !ok { return; }
      ghost var w1 :=
        match plan.service
        case Pppoe => EnsureSecret(w, s, plan).0
        case Dhcp => EnsureLease(w, s).0
        case Hotspot => w;
      Chain(net, keys, w1.rows, EnsureQueue(w1, s, plan).0.rows);
      ok, left := QueueEnsure(r, s, plan, left);
    }

    method HandleSuspend(i: nat, link: Link) returns (ok: bool)
      requires ValidDb(State()) && i < |subs|
      modifies `subs, `routers
      ensures Handled(old(State()), Suspend, i, link, State(), ok)
    {
      ghost var db := State();
      var s, plan := subs[i], plans[subs[i].plan];
      var keys := KeysOf(s, plan);
      Untouched(db, i);
      if s.router == None || !link.up { return false; }
      var r, line := s.router.value, link.line;
      ghost var w := Wire(RowsAt(db, i), line);
      var quiet := true;
      if plan.service == Pppoe {
        IssueFits(w, FlagSecret(true), keys);
        quiet, line := Cmd(r, keys, FlagSecret(true), line);
        w := Issue(w, FlagSecret(true)).0;
      }
      Chain(db.routers[r], keys, w.rows, Issue(w, DisableQueue).0.rows);
      quiet, line := Cmd(r, keys, DisableQueue, line);
      ok := WriteState(i, Suspended);
    }

    method HandleReconnect(i: nat, link: Link) returns (ok: bool)
      requires ValidDb(State()) && i < |subs|
      modifies `subs, `routers
      ensures Handled(old(State()), Reconnect, i, link, State(), ok)
    {
      ghost var db := State();
      var s, plan := subs[i], plans[subs[i].plan];
      var keys := KeysOf(s, plan);
      Untouched(db, i);
      if s.router == None || !link.up { return false; }
      var r, line := s.router.value, link.line;
      ghost var w := Wire(RowsAt(db, i), line);
      if plan.service == Pppoe {
        IssueFits(w, FlagSecret(false), keys);
        var quiet: bool;
        quiet, line := Cmd(r, keys, FlagSecret(false), line);
        w := Issue(w, FlagSecret(false)).0;
      }
      Chain(db.routers[r], keys, w.rows, EnsureQueue(w, s, plan).0.rows);
      ok, line := QueueEnsure(r, s, plan, line);
      if !ok { return; }
      ok := WriteState(i, Active);
    }

    method HandleTerminate(i: nat, link: Link) returns (ok: bool)
      requires ValidDb(State()) && i < |subs|
      modifies `subs, `routers
      ensures Handled(old(State()), Terminate, i, link, State(), ok)
    {
      ghost var db := State();
      var s, plan := subs[i], plans[subs[i].plan];
      var keys := KeysOf(s, plan);
      Untouched(db, i);
      if s.router == None || !link.up { return false; }
      var r, line := s.router.value, link.line;
      ghost var w := Wire(RowsAt(db, i), line);
      var quiet := true;
      if plan.service == Pppoe {
        IssueFits(w, FlagSecret(true), keys);
        quiet, line := Cmd(r, keys, FlagSecret(true), line);
        w := Issue(w, FlagSecret(true)).0;
      }
      Chain(db.routers[r], keys, w.rows, Issue(w, RemoveQueue).0.rows);
      quiet, line := Cmd(r, keys, RemoveQueue, line);
      ok := WriteState(i, Terminated);
    }

    method HandleChangePlan(i: nat, link: Link) returns (ok: bool)
      requires ValidDb(State()) && i < |subs|
      modifies `routers
      ensures Handled(old(State()), ChangePlan, i, link, State(), ok)
    {
      ghost var db := State();
      var s, plan := subs[i], plans[subs[i].plan];
      Untouched(db, i);
      if s.router == None || !link.up { return false; }
      var r, line := s.router.value, link.line;
      ghost var w := Wire(RowsAt(db, i), line);
      ok := true;
      if plan.service == Pppoe { ok, line := PppoeEnsureSecret(r, s, plan, line); }
      if !ok { return; }
      ghost var w1 := if plan.service == Pppoe then EnsureSecret(w, s, plan).0 else w;
      Chain(db.routers[r], KeysOf(s, plan), w1.rows, EnsureQueue(w1, s, plan).0.rows);
      ok, line := QueueEnsure(r, s, plan, line);
    }

    /* The queue */

    method RunHandler(j: nat, link: Link) returns (ok: bool)
      requires ValidDb(State()) && j < |jobs|
      modifies `subs, `routers
      ensures (State(), ok) == Dispatch(old(State()), j, link)
    {
      var job := jobs[j];
      if job.kind == Other { return link.other; }
      if job.sub == None { return false; }
      var i := job.sub.value;
      match job.kind {
        case Activate => ok := HandleActivate(i, link);
        case Suspend => ok := HandleSuspend(i, link);
        case Reconnect => ok := HandleReconnect(i, link);
        case Terminate => ok := HandleTerminate(i, link);
        case ChangePlan => ok := HandleChangePlan(i, link);
      }
    }

    method ExecuteJob(j: nat, link: Link) returns (raised: bool)
      requires ValidDb(State()) && j < |jobs|
      modifies `subs, `routers, `jobs
      ensures (State(), raised) == Execute(old(State()), j, link) && ValidDb(State()) && |jobs| == |old(jobs)|
    {
      ExecuteValid(State(), j, link);
      var job := jobs[j];
      if job.state != Queued { return false; }
      if job.attempts >= job.maxAttempts {
        jobs := jobs[j := job.(state := Failed)];
        return false;
      }
      ValidRunning(State(), j, job.(state := Running, attempts := job.attempts + 1));
      jobs := jobs[j := job.(state := Running, attempts := job.attempts + 1)];
      var ok := RunHandler(j, link);
      jobs := jobs[j := jobs[j].(state := if ok then Success else Failed)];
      raised := !ok;
    }

    // Run selected jobs by hand; a raise ends the run.
    method ActionRun(js: seq<nat>, links: nat -> Link) returns (raised: bool)
      requires ValidDb(State()) && InJobs(js, State())
      modifies `subs, `routers, `jobs
      ensures (State(), raised) == RunJobs(old(State()), js, links)
    {
      raised := false;
      var k := 0;
      assert js[0..] == js;
      while k < |js| && !raised
        invariant k <= |js| && ValidDb(State()) && InJobs(js, State())
        invariant if raised then (State(), true) == RunJobs(old(State()), js, links)
                  else RunJobs(old(State()), js, links) == RunJobs(State(), js[k..], links)
        decreases |js| - k, !raised
      {
        assert js[k..][1..] == js[k + 1..];
        raised := ExecuteJob(js[k], links(js[k]));
        k := k + 1;
      }
    }

    // The oldest queued jobs, found by looking through the queue once.
    method PendingJobs() returns (js: seq<nat>)
      ensures js == QueuedFrom(jobs, 0, BATCH)
    {
      js := [];
      var k := 0;
      while k < |jobs| && |js| < BATCH
        invariant k <= |jobs| && |js| <= BATCH
        invariant js + QueuedFrom(jobs, k, BATCH - |js|) == QueuedFrom(jobs, 0, BATCH)
      {
        PendingStep(jobs, js, k);
        if jobs[k].state == Queued { js := js + [k]; }
        k := k + 1;
      }
    }

    method CronRunPendingJobs(links: nat -> Link) returns (raised: bool)
      requires ValidDb(State())
      modifies `subs, `routers, `jobs
      ensures (State(), raised) == WorkerRun(old(State()), links)
    {
      var js := PendingJobs();
      raised := ActionRun(js, links);
    }

    method Enqueue(i: nat, kind: Kind)
      requires i < |subs|
      modifies `jobs
      ensures State() == QueueJob(old(State()), i, kind)
    {
      jobs := jobs + [NewJob(kind, i)];
    }

    // Activation, suspension and the other actions on one subscription.
    method TakeAction(i: nat, kind: Kind, token: string)
      requires ValidDb(State()) && i < |subs|
      modifies `subs, `jobs
      ensures State() == LifecycleAction(old(State()), i, kind, token)
    {
      if kind == Activate { WriteCredentials(i, token); }
      assert subs == subs[i := subs[i]];
      Enqueue(i, kind);
    }

    /* Billing */

    method InvoiceOne(i: nat, today: Date, posted: bool)
      requires i < |subs|
      modifies `subs, `invoices
      ensures State() == GenerateInvoice(old(State()), i, today, posted)
    {
      invoices := invoices + [InvoiceOn(today, i, posted)];
      var next := if subs[i].nextInvoice.Some? then subs[i].nextInvoice.value else today;
      subs := subs[i := subs[i].(nextInvoice := Some(AddMonth(next)))];
    }

    method CronGenerateInvoices(today: Date, posted: nat -> bool)
      modifies `subs, `invoices
      ensures State() == InvoiceCron(old(State()), today, posted)
    {
      var n: nat := |subs|;
      while n > 0
        invariant n <= |subs|
        invariant InvoiceCron(old(State()), today, posted) == InvoiceDown(State(), n, today, posted)
      {
        n := n - 1;
        if InvoiceDue(subs[n], today) { InvoiceOne(n, today, posted(n)); }
      }
    }

    method CronSuspendOverdue(today: Date, standard: int)
      requires ValidDb(State())
      modifies `jobs
      ensures State() == SuspendCron(old(State()), today, standard)
    {
      ghost var db := State();
      for m := 0 to |invoices|
        invariant State() == db.(jobs := db.jobs + SuspendJobs(db, m, today, standard))
      {
        var v := invoices[m];
        if Unpaid(v) && v.sub.Some? && subs[v.sub.value].state == Active && DueDate(v).Some? {
          var days := EffectiveDays(plans[subs[v.sub.value].plan], standard);
          if Ordinal(today) >= Ordinal(DueDate(v).value) + days { Enqueue(v.sub.value, Suspend); }
        }
      }
    }

    method OpenInvoices(i: nat) returns (open: bool)
      ensures open == HasOpen(State(), i)
    {
      for m := 0 to |invoices|
        invariant forall k :: 0 <= k < m ==> !(invoices[k].sub == Some(i) && Unpaid(invoices[k]))
      {
        if invoices[m].sub == Some(i) && Unpaid(invoices[m]) { return true; }
      }
      open := false;
    }

    method CronReconnectOnPayment()
      modifies `jobs
      ensures State() == ReconnectCron(old(State()))
    {
      ghost var db := State();
      var n: nat := |subs|;
      while n > 0
        invariant n <= |subs| && State() == db.(jobs := jobs)
        invariant jobs + ReconnectJobs(db, n) == db.jobs + ReconnectJobs(db, |db.subs|)
      {
        n := n - 1;
        if subs[n].state == Suspended {
          var open := OpenInvoices(n);
          assert open == HasOpen(db, n);
          if !open { Enqueue(n, Reconnect); }
        }
      }
    }

    /* Plan changes */

    method Submit(r: nat, today: Date, privileged: bool) returns (ok: bool)
      requires ValidDb(State()) && r < |requests|
      modifies `requests
      ensures (State(), ok) == SubmitRequest(old(State()), r, today, privileged)
    {
      if requests[r].mode == Immediate && !privileged { return false; }
      ghost var before := requests;
      SetEffectiveDate(r, today);
      requests := requests[r := requests[r].(stage := Submitted)];
      assert requests == before[r := requests[r]];
      ok := true;
    }

    method SetEffectiveDate(r: nat, today: Date)
      requires ValidDb(State()) && r < |requests|
      modifies `requests
      ensures var q := old(requests)[r];
              requests == old(requests)[r := q.(effective := EffectiveDate(old(State()), q, today))]
    {
      var q := requests[r];
      if q.effective.Some? { return; }
      match q.mode {
        case Immediate => requests := requests[r := q.(effective := Some(today))];
        case NextCycle =>
          var next := subs[q.sub].nextInvoice;
          requests := requests[r := q.(effective := if next.Some? then next else Some(AddMonth(today)))];
        case Custom =>
      }
    }

    method Approve(r: nat, today: Date, token: string)
      requires ValidDb(State()) && r < |requests|
      modifies `requests, `subs, `jobs
      ensures State() == ApproveRequest(old(State()), r, today, token)
    {
      SetEffectiveDate(r, today);
      requests := requests[r := requests[r].(stage := Approved)];
      RestageValid(old(State()), r, requests[r]);
      assert State() == Restage(old(State()), r, requests[r]);
      if requests[r].effective.Some? && Ordinal(requests[r].effective.value) <= Ordinal(today) {
        ApplyOneRequest(r, token);
      }
    }

    method Reject(r: nat) returns (ok: bool)
      requires ValidDb(State()) && r < |requests|
      modifies `requests
      ensures (State(), ok) == RejectRequest(old(State()), r)
    {
      if !requests[r].reasoned { return false; }
      requests := requests[r := requests[r].(stage := Rejected)];
      ok := true;
    }

    method ApplyOneRequest(r: nat, token: string)
      requires ValidDb(State()) && r < |requests|
      modifies `requests, `subs, `jobs
      ensures State() == ApplyRequest(old(State()), r, token)
    {
      var q := requests[r];
      subs := subs[q.sub := subs[q.sub].(plan := q.plan)];
      SetPlanValid(old(State()), q.sub, q.plan);
      WriteCredentials(q.sub, token);
      Enqueue(q.sub, ChangePlan);
      requests := requests[r := q.(stage := Applied)];
    }

    method CronApplyPlanChanges(today: Date, tokens: nat -> string)
      requires ValidDb(State())
      modifies `requests, `subs, `jobs
      ensures State() == ChangeCron(old(State()), today, tokens)
    {
      var n: nat := |requests|;
      while n > 0
        invariant n <= |requests| && ValidDb(State())
        invariant ChangeCron(old(State()), today, tokens) == ApplyDown(State(), n, today, tokens)
      {
        n := n - 1;
        if Due(requests[n], today) {
          ApplyValid(State(), n, tokens(n));
          ApplyOneRequest(n, tokens(n));
        }
      }
    }
  }

  lemma PendingStep(jobs: seq<Job>, js: seq<nat>, k: nat)
    requires k < |jobs| && |js| < BATCH
    ensures js + QueuedFrom(jobs, k, BATCH - |js|) ==
            if jobs[k].state == Queued then (js + [k]) + QueuedFrom(jobs, k + 1, BATCH - |js| - 1)
            else js + QueuedFrom(jobs, k + 1, BATCH - |js|)
  {
    if jobs[k].state == Queued { Associates(js, [k], QueuedFrom(jobs, k + 1, BATCH - |js| - 1)); }
  }

  // The rows after the router part of an activation, and whether it went through.
  function ActivationRows(s: Sub, plan: Plan, w: Wire): (Wire, bool) {
    var (w1, ok1) :=
      match plan.service
      case Pppoe => EnsureSecret(w, s, plan)
      case Dhcp => EnsureLease(w, s)
      case Hotspot => (w, true);
    if !ok1 then (w1, false) else EnsureQueue(w1, s, plan)
  }

  lemma ActivationForm(s: Sub, plan: Plan, w: Wire, today: Date)
    ensures var (w', ok) := ActivationRows(s, plan, w);
            var e := Enter(s, w'.rows, Active);
            Activation(s, plan, w, today) ==
              if !ok then Effect(s, w'.rows, false)
              else if e.ok && s.start == None then e.(sub := e.sub.(start := Some(today))) else e
  {
  }

  // A handler on subscription i has done what the effect says.
  ghost predicate Handled(db: Db, kind: Kind, i: nat, link: Link, db': Db, ok: bool)
    requires ValidDb(db) && i < |db.subs| && kind != Other
  {
    var e := EffectAt(db, kind, i, link);
    db' == Commit(db, i, e) && ok == e.ok
  }

  lemma Untouched(db: Db, i: nat)
    requires ValidDb(db) && i < |db.subs|
    ensures Fits(RowsAt(db, i), KeysAt(db, i))
    ensures db.subs[i].router.Some? ==>
              var r := db.subs[i].router.value;
              Store(db.routers[r], KeysAt(db, i), RowsAt(db, i)) == db.routers[r]
  {
    if db.subs[i].router.Some? { StoreSame(db.routers[db.subs[i].router.value], KeysAt(db, i)); }
  }

  lemma SetPlanValid(db: Db, i: nat, p: nat)
    requires ValidDb(db) && i < |db.subs| && p < |db.plans|
    ensures ValidDb(db.(subs := db.subs[i := db.subs[i].(plan := p)]))
  {
  }
}
