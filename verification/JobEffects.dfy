/**
  What each successful job leaves in the subscription and in the router's tables, over any
  connection and any rows found, and when a job succeeds.
 */
module JobEffects {
  import opened Basics
  import opened Calendar
  import opened Provisioning
  import opened JobQueue

  /* Rows */

  // The secret after it was ensured with this password.
  predicate SecretEnsured(rows: Rows, rows': Rows, password: string, plan: Plan) {
    if plan.service == Pppoe
    then rows'.secret == Some(Secret(password, if plan.profile == "" then "default" else plan.profile, false))
    else rows'.secret == rows.secret
  }

  // A lease that is there keeps its device, a new one is for the subscription's.
  predicate LeaseEnsured(rows: Rows, rows': Rows, s: Sub, plan: Plan) {
    if plan.service == Dhcp && s.ip != "" && s.mac != ""
    then rows'.lease == Some(Lease(if rows.lease.Some? then rows.lease.value.mac else s.mac, s.name, false))
    else rows'.lease == rows.lease
  }

  // A queue that is there keeps its target, a new one is for the subscription's address.
  predicate QueueEnsured(rows: Rows, rows': Rows, s: Sub, plan: Plan) {
    if s.ip != ""
    then rows'.queue == Some(Queue(if rows.queue.Some? then rows.queue.value.target else s.ip + "/32", plan.limit, false))
    else rows'.queue == rows.queue
  }

  // How many commands it takes to ensure a row: one to add it, or a failing one and another.
  function Tries<T>(row: Option<T>): nat {
    if row.Some? then 2 else 1
  }

  lemma SecretLeaves(w: Wire, s: Sub, plan: Plan)
    requires plan.service == Pppoe
    ensures var (w', ok) := EnsureSecret(w, s, plan);
            && (ok <==> w.line.life >= Tries(w.rows.secret))
            && (ok ==> SecretEnsured(w.rows, w'.rows, s.password, plan)
                       && w'.line.life == w.line.life - Tries(w.rows.secret))
            && w'.rows.lease == w.rows.lease && w'.rows.queue == w.rows.queue
  {
  }

  lemma LeaseLeaves(w: Wire, s: Sub, plan: Plan)
    requires plan.service == Dhcp
    ensures var (w', ok) := EnsureLease(w, s);
            var tries := if s.ip != "" && s.mac != "" then Tries(w.rows.lease) else 0;
            && (ok <==> w.line.life >= tries)
            && (ok ==> LeaseEnsured(w.rows, w'.rows, s, plan) && w'.line.life == w.line.life - tries)
            && w'.rows.secret == w.rows.secret && w'.rows.queue == w.rows.queue
  {
  }

  lemma QueueLeaves(w: Wire, s: Sub, plan: Plan)
    ensures var (w', ok) := EnsureQueue(w, s, plan);
            && (ok <==> w.line.life >= (if s.ip != "" then Tries(w.rows.queue) else 0))
            && (ok ==> QueueEnsured(w.rows, w'.rows, s, plan))
            && w'.rows.secret == w.rows.secret && w'.rows.lease == w.rows.lease
  {
  }

  // The commands an activation or a plan change needs answered before the queue's turn.
  function Before(s: Sub, plan: Plan, rows: Rows, withLease: bool): nat {
    if plan.service == Pppoe then Tries(rows.secret)
    else if withLease && plan.service == Dhcp && s.ip != "" && s.mac != "" then Tries(rows.lease)
    else 0
  }

  function QueueTries(s: Sub, rows: Rows): nat {
    if s.ip != "" then Tries(rows.queue) else 0
  }

  // The subscription after an activation: live, started if it was not, credentials filled in.
  function Activated(s: Sub, plan: Plan, today: Date, token: string): Sub {
    var pppoe := s.auth == ByPppoe;
    s.(state := Active, start := if s.start == None then Some(today) else s.start,
       user := if pppoe && s.user == "" then s.name else s.user,
       password := if pppoe && s.password == "" then token else s.password,
       profile := if pppoe && s.profile == "" then plan.profile else s.profile)
  }

  lemma ActivationLeaves(s: Sub, plan: Plan, rows: Rows, link: Link)
    ensures var e := Handle(Activate, s, plan, rows, link);
            && (e.ok <==> s.router.Some? && link.up && s.located
                          && link.line.life >= Before(s, plan, rows, true) + QueueTries(s, rows))
            && (e.ok ==> e.sub == Activated(s, plan, link.today, link.token)
                         && SecretEnsured(rows, e.rows, e.sub.password, plan) && LeaseEnsured(rows, e.rows, s, plan)
                         && QueueEnsured(rows, e.rows, s, plan))
  {
    var s1 := EnsureCredentials(s, plan, link.token);
    var w := Wire(rows, link.line);
    match plan.service
    case Pppoe =>
      SecretLeaves(w, s1, plan);
      QueueLeaves(EnsureSecret(w, s1, plan).0, s1, plan);
    case Dhcp =>
      LeaseLeaves(w, s1, plan);
      QueueLeaves(EnsureLease(w, s1).0, s1, plan);
    case Hotspot => QueueLeaves(w, s1, plan);
  }

  lemma PlanChangeLeaves(s: Sub, plan: Plan, rows: Rows, link: Link)
    ensures var e := Handle(ChangePlan, s, plan, rows, link);
            && (e.ok <==> s.router.Some? && link.up
                          && link.line.life >= Before(s, plan, rows, false) + QueueTries(s, rows))
            && e.sub == s
            && (e.ok ==> SecretEnsured(rows, e.rows, s.password, plan) && e.rows.lease == rows.lease
                         && QueueEnsured(rows, e.rows, s, plan))
  {
    var w := Wire(rows, link.line);
    if plan.service == Pppoe {
      SecretLeaves(w, s, plan);
      QueueLeaves(EnsureSecret(w, s, plan).0, s, plan);
    } else {
      QueueLeaves(w, s, plan);
    }
  }

  // The secret after a switch that reached the router, or not.
  function Switched(secret: Option<Secret>, plan: Plan, line: Line, off: bool): Option<Secret> {
    if plan.service == Pppoe && Reach(line) >= 1 && secret.Some? then Some(secret.value.(disabled := off)) else secret
  }

  lemma SuspensionLeaves(s: Sub, plan: Plan, rows: Rows, link: Link)
    ensures var e := Handle(Suspend, s, plan, rows, link);
            && (e.ok <==> s.router.Some? && link.up && s.located)
            && (e.ok ==> && e.sub == s.(state := Suspended)
                         && e.rows.secret == Switched(rows.secret, plan, link.line, true) && e.rows.lease == rows.lease
                         && e.rows.queue == if rows.queue.Some? && Reach(link.line) >= Ahead(plan) + 1
                                            then Some(rows.queue.value.(disabled := true)) else rows.queue)
  {
  }

  lemma TerminationLeaves(s: Sub, plan: Plan, rows: Rows, link: Link)
    ensures var e := Handle(Terminate, s, plan, rows, link);
            && (e.ok <==> s.router.Some? && link.up)
            && (e.ok ==> && e.sub == s.(state := Terminated)
                         && e.rows.secret == Switched(rows.secret, plan, link.line, true) && e.rows.lease == rows.lease
                         && e.rows.queue == if Reach(link.line) >= Ahead(plan) + 1 then None else rows.queue)
  {
  }

  lemma ReconnectionLeaves(s: Sub, plan: Plan, rows: Rows, link: Link)
    ensures var e := Handle(Reconnect, s, plan, rows, link);
            && (e.ok <==> s.router.Some? && link.up && s.located
                          && (s.ip == "" || link.line.life >= Ahead(plan) + Tries(rows.queue)))
            && (e.ok ==> && e.sub == s.(state := Active)
                         && e.rows.secret == Switched(rows.secret, plan, link.line, false) && e.rows.lease == rows.lease
                         && QueueEnsured(rows, e.rows, s, plan))
  {
    var w := Wire(rows, link.line);
    QueueLeaves(if plan.service == Pppoe then Issue(w, FlagSecret(false)).0 else w, s, plan);
  }

  // A job that raises leaves state and start date; only an activation fills in credentials.
  lemma FailureLeaves(kind: Kind, s: Sub, plan: Plan, rows: Rows, link: Link)
    requires kind != Other && !Handle(kind, s, plan, rows, link).ok
    ensures var sub := Handle(kind, s, plan, rows, link).sub;
            sub == if kind == Activate
                   then Activated(s, plan, link.today, link.token).(state := s.state, start := s.start) else s
  {
  }

  // An action queues one fresh job with three attempts; activation fills in credentials first.
  lemma ActionLeaves(db: Db, i: nat, kind: Kind, token: string)
    requires ValidDb(db) && i < |db.subs|
    ensures var s, profile := db.subs[i], db.plans[db.subs[i].plan].profile;
            var s' := if kind != Activate || s.auth != ByPppoe then s
                      else s.(user := if s.user == "" then s.name else s.user,
                              password := if s.password == "" then token else s.password,
                              profile := if s.profile == "" then profile else s.profile);
            LifecycleAction(db, i, kind, token) ==
            db.(subs := db.subs[i := s'], jobs := db.jobs + [Job(kind, Some(i), Queued, 0, 3)])
  {
    assert db.subs[i := db.subs[i]] == db.subs;
  }

  /* Records and router tables */

  // The records after a job: one subscription and one router's tables replaced.
  ghost predicate Only(db: Db, db': Db, i: nat, s: Sub, net: Net)
    requires i < |db.subs| && db.subs[i].router.Some? && db.subs[i].router.value < |db.routers|
  {
    db' == db.(subs := db.subs[i := s], routers := db.routers[db.subs[i].router.value := net])
  }

  function SecretsWith(net: Net, s: Sub, plan: Plan): map<string, Secret> {
    if plan.service == Pppoe
    then net.secrets[s.user := Secret(s.password, if plan.profile == "" then "default" else plan.profile, false)]
    else net.secrets
  }

  function LeasesWith(net: Net, s: Sub, plan: Plan): map<string, Lease> {
    if plan.service == Dhcp && s.ip != "" && s.mac != ""
    then net.leases[s.ip := Lease(if s.ip in net.leases then net.leases[s.ip].mac else s.mac, s.name, false)]
    else net.leases
  }

  function QueuesWith(net: Net, s: Sub, plan: Plan): map<string, Queue> {
    if s.ip != ""
    then net.queues[s.name := Queue(if s.name in net.queues then net.queues[s.name].target else s.ip + "/32",
                                    plan.limit, false)]
    else net.queues
  }

  // A job of this kind for subscription i, and its handler returned.
  ghost predicate Handled(db: Db, j: nat, kind: Kind, i: nat, link: Link)
    requires ValidDb(db)
  {
    j < |db.jobs| && i < |db.subs| && db.jobs[j].kind == kind && db.jobs[j].sub == Some(i) && Dispatch(db, j, link).1
  }

  // Tables that hold the rows ensured for a subscription with this user name.
  lemma StoredRows(net: Net, s: Sub, keys: Keys, plan: Plan, rows: Rows, withLease: bool)
    requires keys.secret == (if plan.service == Pppoe then Some(s.user) else None) && keys.queue == s.name
    requires keys.lease == if plan.service == Dhcp && s.ip != "" && s.mac != "" then Some(s.ip) else None
    requires SecretEnsured(Look(net, keys), rows, s.password, plan) && QueueEnsured(Look(net, keys), rows, s, plan)
    requires if withLease then LeaseEnsured(Look(net, keys), rows, s, plan) else rows.lease == Look(net, keys).lease
    ensures Store(net, keys, rows) ==
            Net(SecretsWith(net, s, plan), if withLease then LeasesWith(net, s, plan) else net.leases,
                QueuesWith(net, s, plan))
  {
    assert Replace(net.secrets, keys.secret, rows.secret) == SecretsWith(net, s, plan);
    assert Replace(net.leases, keys.lease, rows.lease) == if withLease then LeasesWith(net, s, plan) else net.leases;
    assert Replace(net.queues, Some(keys.queue), rows.queue) == QueuesWith(net, s, plan);
  }

  // An execution with attempts left succeeds exactly if the handler returns, and leaves what
  // the handler leaves; a job without a subscription raises.
  lemma ExecutionFollows(db: Db, j: nat, link: Link)
    requires ValidDb(db) && j < |db.jobs| && db.jobs[j].state == Queued
    requires db.jobs[j].attempts < db.jobs[j].maxAttempts
    ensures var job, (after, ok) := db.jobs[j], Dispatch(db, j, link);
            && Execute(db, j, link) ==
               (after.(jobs := db.jobs[j := job.(state := if ok then Success else Failed, attempts := job.attempts + 1)]),
                !ok)
            && (job.kind == Other ==> after == db && ok == link.other)
            && (job.kind != Other && job.sub == None ==> after == db && !ok)
  {
    var job := db.jobs[j];
    var running := job.(state := Running, attempts := job.attempts + 1);
    var db1 := db.(jobs := db.jobs[j := running]);
    assert forall done: JobState :: db1.jobs[j := running.(state := done)] == db.jobs[j := running.(state := done)];
    assert job.kind != Other && job.sub.Some? ==>
        EffectAt(db1, job.kind, job.sub.value, link) == EffectAt(db, job.kind, job.sub.value, link);
  }

  lemma ActivatedRecords(db: Db, j: nat, i: nat, link: Link)
    requires ValidDb(db) && Handled(db, j, Activate, i, link)
    ensures db.subs[i].router.Some?
    ensures var s, plan := db.subs[i], db.plans[db.subs[i].plan];
            var net, s' := db.routers[s.router.value], Activated(s, plan, link.today, link.token);
            Only(db, Dispatch(db, j, link).0, i, s',
                 Net(SecretsWith(net, s', plan), LeasesWith(net, s', plan), QueuesWith(net, s', plan)))
  {
    var s, plan := db.subs[i], PlanOf(db, i);
    ActivationLeaves(s, plan, RowsAt(db, i), link);
    StoredRows(db.routers[s.router.value], Activated(s, plan, link.today, link.token), KeysAt(db, i), plan,
               EffectAt(db, Activate, i, link).rows, true);
  }

  // The subscription with the user name its secret goes by.
  function Named(s: Sub): Sub {
    s.(user := if s.auth == ByPppoe && s.user == "" then s.name else s.user)
  }

  lemma ChangedRecords(db: Db, j: nat, i: nat, link: Link)
    requires ValidDb(db) && Handled(db, j, ChangePlan, i, link)
    ensures db.subs[i].router.Some?
    ensures var s, plan := db.subs[i], db.plans[db.subs[i].plan];
            var net := db.routers[s.router.value];
            Only(db, Dispatch(db, j, link).0, i, s,
                 Net(SecretsWith(net, Named(s), plan), net.leases, QueuesWith(net, s, plan)))
  {
    var s, plan := db.subs[i], PlanOf(db, i);
    PlanChangeLeaves(s, plan, RowsAt(db, i), link);
    StoredRows(db.routers[s.router.value], Named(s), KeysAt(db, i), plan, EffectAt(db, ChangePlan, i, link).rows, false);
    assert db.subs[i := s] == db.subs;
  }

  // The secrets after a switch over this connection.
  function SecretsSwitched(net: Net, s: Sub, plan: Plan, line: Line, off: bool): map<string, Secret> {
    var user := Named(s).user;
    if plan.service == Pppoe && user in net.secrets && Reach(line) >= 1
    then net.secrets[user := net.secrets[user].(disabled := off)] else net.secrets
  }

  lemma StoredSwitch(net: Net, s: Sub, plan: Plan, line: Line, off: bool)
    ensures var keys := KeysOf(s, plan);
            Replace(net.secrets, keys.secret, Switched(Find(net.secrets, keys.secret), plan, line, off))
            == SecretsSwitched(net, s, plan, line, off)
    ensures Replace(net.leases, KeysOf(s, plan).lease, Find(net.leases, KeysOf(s, plan).lease)) == net.leases
  {
  }

  lemma SuspendedRecords(db: Db, j: nat, i: nat, link: Link)
    requires ValidDb(db) && Handled(db, j, Suspend, i, link)
    ensures db.subs[i].router.Some?
    ensures var s, plan := db.subs[i], db.plans[db.subs[i].plan];
            var net := db.routers[s.router.value];
            var queues := if s.name in net.queues && Reach(link.line) >= (if plan.service == Pppoe then 2 else 1)
                          then net.queues[s.name := net.queues[s.name].(disabled := true)] else net.queues;
            Only(db, Dispatch(db, j, link).0, i, s.(state := Suspended),
                 Net(SecretsSwitched(net, s, plan, link.line, true), net.leases, queues))
  {
    var s, plan := db.subs[i], PlanOf(db, i);
    SuspensionLeaves(s, plan, RowsAt(db, i), link);
    var net, rows := db.routers[s.router.value], EffectAt(db, Suspend, i, link).rows;
    StoredSwitch(net, s, plan, link.line, true);
    assert Replace(net.queues, Some(s.name), rows.queue) ==
           if s.name in net.queues && Reach(link.line) >= (if plan.service == Pppoe then 2 else 1)
              then net.queues[s.name := net.queues[s.name].(disabled := true)] else net.queues;
  }

  lemma TerminatedRecords(db: Db, j: nat, i: nat, link: Link)
    requires ValidDb(db) && Handled(db, j, Terminate, i, link)
    ensures db.subs[i].router.Some?
    ensures var s, plan := db.subs[i], db.plans[db.subs[i].plan];
            var net := db.routers[s.router.value];
            var queues := if Reach(link.line) >= (if plan.service == Pppoe then 2 else 1)
                          then net.queues - {s.name} else net.queues;
            Only(db, Dispatch(db, j, link).0, i, s.(state := Terminated),
                 Net(SecretsSwitched(net, s, plan, link.line, true), net.leases, queues))
  {
    var s, plan := db.subs[i], PlanOf(db, i);
    TerminationLeaves(s, plan, RowsAt(db, i), link);
    var net, rows := db.routers[s.router.value], EffectAt(db, Terminate, i, link).rows;
    StoredSwitch(net, s, plan, link.line, true);
    assert Replace(net.queues, Some(s.name), rows.queue) ==
           if Reach(link.line) >= (if plan.service == Pppoe then 2 else 1) then net.queues - {s.name} else net.queues;
  }

  lemma ReconnectedRecords(db: Db, j: nat, i: nat, link: Link)
    requires ValidDb(db) && Handled(db, j, Reconnect, i, link)
    ensures db.subs[i].router.Some?
    ensures var s, plan := db.subs[i], db.plans[db.subs[i].plan];
            var net := db.routers[s.router.value];
            Only(db, Dispatch(db, j, link).0, i, s.(state := Active),
                 Net(SecretsSwitched(net, s, plan, link.line, false), net.leases, QueuesWith(net, s, plan)))
  {
    var s, plan := db.subs[i], PlanOf(db, i);
    ReconnectionLeaves(s, plan, RowsAt(db, i), link);
    var net, rows := db.routers[s.router.value], EffectAt(db, Reconnect, i, link).rows;
    StoredSwitch(net, s, plan, link.line, false);
    assert Replace(net.queues, Some(s.name), rows.queue) ==
           QueuesWith(net, s, plan);
  }
}
