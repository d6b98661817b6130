/**
  What a provisioning job does for one subscription: the three rows that belong to it
  on its router, the commands that change them over a connection that may die, and
  the handlers built on those commands.
 */
module Provisioning {
  import opened Basics
  import opened Calendar

  datatype ServiceType = Pppoe | Dhcp | Hotspot
  datatype Limit = Limit(down: real, up: real)
  datatype Plan = Plan(service: ServiceType, limit: Limit, profile: string, suspendAfter: int)

  datatype Lifecycle = Draft | Active | Suspended | Terminated
  datatype Auth = ByDhcp | ByPppoe
  // The empty string stands for a text that is not set; located: GPS coordinates given.
  datatype Sub = Sub(
    name: string, plan: nat, auth: Auth, user: string, password: string, profile: string,
    ip: string, mac: string, located: bool, state: Lifecycle, start: Option<Date>,
    router: Option<nat>, nextInvoice: Option<Date>)

  datatype Secret = Secret(password: string, profile: string, disabled: bool)
  datatype Lease = Lease(mac: string, comment: string, disabled: bool)
  datatype Queue = Queue(target: string, limit: Limit, disabled: bool)
  datatype Net = Net(secrets: map<string, Secret>, leases: map<string, Lease>, queues: map<string, Queue>)

  /* The rows of one subscription */

  datatype Keys = Keys(secret: Option<string>, lease: Option<string>, queue: string)
  datatype Rows = Rows(secret: Option<Secret>, lease: Option<Lease>, queue: Option<Queue>)

  function Find<T>(m: map<string, T>, k: Option<string>): Option<T> {
    if k.Some? && k.value in m then Some(m[k.value]) else None
  }

  function Replace<T>(m: map<string, T>, k: Option<string>, v: Option<T>): map<string, T> {
    match k
    case None => m
    case Some(key) => if v.Some? then m[key := v.value] else m - {key}
  }

  function Look(net: Net, keys: Keys): Rows {
    Rows(Find(net.secrets, keys.secret), Find(net.leases, keys.lease), Find(net.queues, Some(keys.queue)))
  }

  function Store(net: Net, keys: Keys, rows: Rows): Net {
    Net(Replace(net.secrets, keys.secret, rows.secret),
        Replace(net.leases, keys.lease, rows.lease),
        Replace(net.queues, Some(keys.queue), rows.queue))
  }

  // The user name a subscription has once its credentials are ensured.
  function UserOf(s: Sub): string {
    if s.user == "" && s.auth == ByPppoe then s.name else s.user
  }

  function KeysOf(s: Sub, plan: Plan): Keys {
    Keys(if plan.service == Pppoe then Some(UserOf(s)) else None,
         if plan.service == Dhcp && s.ip != "" && s.mac != "" then Some(s.ip) else None,
         s.name)
  }

  predicate Apart(a: Keys, b: Keys) {
    && (a.secret.None? || a.secret != b.secret)
    && (a.lease.None? || a.lease != b.lease)
    && a.queue != b.queue
  }

  lemma ReplaceApart<T>(m: map<string, T>, a: Option<string>, b: Option<string>, va: Option<T>, vb: Option<T>)
    requires a.None? || a != b
    ensures Find(Replace(m, a, va), b) == Find(m, b)
    ensures Replace(Replace(m, a, va), b, vb) == Replace(Replace(m, b, vb), a, va)
  {
  }

  // Rows under other keys are neither seen nor changed.
  lemma StoreApart(net: Net, a: Keys, b: Keys, ra: Rows, rb: Rows)
    requires Apart(a, b)
    ensures Look(Store(net, a, ra), b) == Look(net, b)
    ensures Store(Store(net, a, ra), b, rb) == Store(Store(net, b, rb), a, ra)
  {
    ReplaceApart(net.secrets, a.secret, b.secret, ra.secret, rb.secret);
    ReplaceApart(net.leases, a.lease, b.lease, ra.lease, rb.lease);
    ReplaceApart(net.queues, Some(a.queue), Some(b.queue), ra.queue, rb.queue);
  }

  lemma LookStore(net: Net, keys: Keys, rows: Rows)
    requires keys.secret.None? ==> rows.secret.None?
    requires keys.lease.None? ==> rows.lease.None?
    ensures Look(Store(net, keys, rows), keys) == rows
  {
  }

  lemma StoreSame(net: Net, keys: Keys)
    ensures Store(net, keys, Look(net, keys)) == net
  {
    assert Replace(net.secrets, keys.secret, Find(net.secrets, keys.secret)) == net.secrets;
    assert Replace(net.leases, keys.lease, Find(net.leases, keys.lease)) == net.leases;
    assert Replace(net.queues, Some(keys.queue), Find(net.queues, Some(keys.queue))) == net.queues;
  }

  /* Commands */

  datatype Command =
    | AddSecret(secret: Secret)
    | SetSecret(password: string, profile: string)  // and enabled
    | FlagSecret(disabled: bool)
    | AddLease(lease: Lease)
    | SetLease(comment: string)                     // and enabled
    | AddQueue(queue: Queue)
    | SetQueue(limit: Limit)                        // and enabled
    | DisableQueue
    | RemoveQueue

  // `add` traps when the row is there, everything else when it is not.
  function Exec(rows: Rows, c: Command): Option<Rows> {
    match c
    case AddSecret(s) => if rows.secret.Some? then None else Some(rows.(secret := Some(s)))
    case SetSecret(password, profile) =>
      if rows.secret.None? then None else Some(rows.(secret := Some(Secret(password, profile, false))))
    case FlagSecret(disabled) =>
      if rows.secret.None? then None else Some(rows.(secret := Some(rows.secret.value.(disabled := disabled))))
    case AddLease(l) => if rows.lease.Some? then None else Some(rows.(lease := Some(l)))
    case SetLease(comment) =>
      if rows.lease.None? then None
      else Some(rows.(lease := Some(rows.lease.value.(comment := comment, disabled := false))))
    case AddQueue(q) => if rows.queue.Some? then None else Some(rows.(queue := Some(q)))
    case SetQueue(limit) =>
      if rows.queue.None? then None
      else Some(rows.(queue := Some(rows.queue.value.(limit := limit, disabled := false))))
    case DisableQueue =>
      if rows.queue.None? then None else Some(rows.(queue := Some(rows.queue.value.(disabled := true))))
    case RemoveQueue => if rows.queue.None? then None else Some(rows.(queue := None))
  }

  // The rows and what the connection is still good for.
  datatype Wire = Wire(rows: Rows, line: Line)

  // How many more commands are answered, and whether the first one that is not still lands.
  datatype Line = Line(life: nat, lands: bool)

  function Issue(w: Wire, c: Command): (Wire, bool) {
    var o := Exec(w.rows, c);
    if w.line.life == 0 then (Wire(if o.Some? && w.line.lands then o.value else w.rows, Line(0, false)), false)
    else (Wire(if o.Some? then o.value else w.rows, w.line.(life := w.line.life - 1)), o.Some?)
  }

  // try: add / except: set
  function AddElseSet(w: Wire, add: Command, set': Command): (Wire, bool) {
    var (w', ok) := Issue(w, add);
    if ok then (w', true) else Issue(w', set')
  }

  function EnsureSecret(w: Wire, s: Sub, plan: Plan): (Wire, bool) {
    var profile := if plan.profile != "" then plan.profile else "default";
    AddElseSet(w, AddSecret(Secret(s.password, profile, false)), SetSecret(s.password, profile))
  }

  function EnsureLease(w: Wire, s: Sub): (Wire, bool) {
    if s.ip == "" || s.mac == "" then (w, true)
    else AddElseSet(w, AddLease(Lease(s.mac, s.name, false)), SetLease(s.name))
  }

  function EnsureQueue(w: Wire, s: Sub, plan: Plan): (Wire, bool) {
    if s.ip == "" then (w, true)
    else AddElseSet(w, AddQueue(Queue(s.ip + "/32", plan.limit, false)), SetQueue(plan.limit))
  }

  /* Handlers */

  datatype Kind = Activate | Suspend | Reconnect | Terminate | ChangePlan | Other

  // The environment of one execution: whether the router can be reached, what the
  // connection is good for, the day, the random password, and how a job of another kind
  // ends.
  datatype Link = Link(up: bool, line: Line, today: Date, token: string, other: bool)

  datatype Effect = Effect(sub: Sub, rows: Rows, ok: bool)

  function EnsureCredentials(s: Sub, plan: Plan, token: string): Sub {
    if s.auth != ByPppoe then s
    else s.(user := if s.user == "" then s.name else s.user,
            password := if s.password == "" then token else s.password,
            profile := if s.profile == "" then plan.profile else s.profile)
  }

  // Writing the state fails for a subscription without coordinates going live.
  function Enter(s: Sub, rows: Rows, state: Lifecycle): Effect {
    if state in {Active, Suspended} && !s.located then Effect(s, rows, false)
    else Effect(s.(state := state), rows, true)
  }

  function Activation(s: Sub, plan: Plan, w: Wire, today: Date): Effect {
    var (w1, ok1) :=
      match plan.service
      case Pppoe => EnsureSecret(w, s, plan)
      case Dhcp => EnsureLease(w, s)
      case Hotspot => (w, true);
    if !ok1 then Effect(s, w1.rows, false)
    else
      var (w2, ok2) := EnsureQueue(w1, s, plan);
      if !ok2 then Effect(s, w2.rows, false)
      else
        var e := Enter(s, w2.rows, Active);
        if e.ok && s.start == None then e.(sub := e.sub.(start := Some(today))) else e
  }

  function Suspension(s: Sub, plan: Plan, w: Wire): Effect {
    var w1 := if plan.service == Pppoe then Issue(w, FlagSecret(true)).0 else w;
    Enter(s, Issue(w1, DisableQueue).0.rows, Suspended)
  }

  function Reconnection(s: Sub, plan: Plan, w: Wire): Effect {
    var w1 := if plan.service == Pppoe then Issue(w, FlagSecret(false)).0 else w;
    var (w2, ok) := EnsureQueue(w1, s, plan);
    if ok then Enter(s, w2.rows, Active) else Effect(s, w2.rows, false)
  }

  function Termination(s: Sub, plan: Plan, w: Wire): Effect {
    var w1 := if plan.service == Pppoe then Issue(w, FlagSecret(true)).0 else w;
    Enter(s, Issue(w1, RemoveQueue).0.rows, Terminated)
  }

  function PlanChange(s: Sub, plan: Plan, w: Wire): Effect {
    var (w1, ok1) := if plan.service == Pppoe then EnsureSecret(w, s, plan) else (w, true);
    if !ok1 then Effect(s, w1.rows, false)
    else
      var (w2, ok2) := EnsureQueue(w1, s, plan);
      Effect(s, w2.rows, ok2)
  }

  function Handle(kind: Kind, s: Sub, plan: Plan, rows: Rows, link: Link): Effect
    requires kind != Other
  {
    var s1 := if kind == Activate then EnsureCredentials(s, plan, link.token) else s;
    if s.router.None? || !link.up then Effect(s1, rows, false)
    else
      var w := Wire(rows, link.line);
      match kind
      case Activate => Activation(s1, plan, w, link.today)
      case Suspend => Suspension(s1, plan, w)
      case Reconnect => Reconnection(s1, plan, w)
      case Terminate => Termination(s1, plan, w)
      case ChangePlan => PlanChange(s1, plan, w)
  }

  // All that a job may change in a subscription is its state, start date and credentials.
  predicate SameIdentity(a: Sub, b: Sub) {
    b == a.(state := b.state, start := b.start, user := b.user, password := b.password, profile := b.profile)
    && UserOf(b) == UserOf(a)
  }

  lemma HandleKeepsIdentity(kind: Kind, s: Sub, plan: Plan, rows: Rows, link: Link)
    requires kind != Other
    ensures SameIdentity(s, Handle(kind, s, plan, rows, link).sub)
  {
    var w := Wire(rows, link.line);
    match kind
    case Activate =>
      var s1 := EnsureCredentials(s, plan, link.token);
      assert SameIdentity(s, s1);
      var e := Activation(s1, plan, w, link.today);
      assert e.sub == s1.(state := e.sub.state, start := e.sub.start);
    case Suspend =>
    case Reconnect =>
    case Terminate =>
    case ChangePlan =>
  }

  lemma QueueKeepsOthers(w: Wire, s: Sub, plan: Plan)
    ensures var rows := EnsureQueue(w, s, plan).0.rows; rows.secret == w.rows.secret && rows.lease == w.rows.lease
    ensures EnsureLease(w, s).0.rows.secret == w.rows.secret && EnsureSecret(w, s, plan).0.rows.lease == w.rows.lease
    ensures s.ip == "" || s.mac == "" ==> EnsureLease(w, s).0 == w
  {
  }

  // Without a key, a row is never touched.
  lemma HandleKeepsKeyless(kind: Kind, s: Sub, plan: Plan, rows: Rows, link: Link)
    requires kind != Other
    ensures var rows' := Handle(kind, s, plan, rows, link).rows;
            (KeysOf(s, plan).secret.None? ==> rows'.secret == rows.secret)
            && (KeysOf(s, plan).lease.None? ==> rows'.lease == rows.lease)
  {
    var w := Wire(rows, link.line);
    match kind
    case Activate => ActivationKeepsKeyless(EnsureCredentials(s, plan, link.token), plan, w, link.today);
    case Suspend =>
    case Reconnect =>
      QueueKeepsOthers(if plan.service == Pppoe then Issue(w, FlagSecret(false)).0 else w, s, plan);
    case Terminate =>
    case ChangePlan =>
      QueueKeepsOthers(w, s, plan);
      QueueKeepsOthers(if plan.service == Pppoe then EnsureSecret(w, s, plan).0 else w, s, plan);
  }

  lemma ActivationKeepsKeyless(s: Sub, plan: Plan, w: Wire, today: Date)
    ensures var rows' := Activation(s, plan, w, today).rows;
            (KeysOf(s, plan).secret.None? ==> rows'.secret == w.rows.secret)
            && (KeysOf(s, plan).lease.None? ==> rows'.lease == w.rows.lease)
  {
    QueueKeepsOthers(w, s, plan);
    match plan.service
    case Pppoe => QueueKeepsOthers(EnsureSecret(w, s, plan).0, s, plan);
    case Dhcp => QueueKeepsOthers(EnsureLease(w, s).0, s, plan);
    case Hotspot =>
  }

  /* The service flag */

  predicate SecretOff(rows: Rows) { rows.secret.Some? ==> rows.secret.value.disabled }
  predicate SecretOn(rows: Rows) { rows.secret.Some? ==> !rows.secret.value.disabled }
  predicate QueueOff(rows: Rows) { rows.queue.Some? ==> rows.queue.value.disabled }
  predicate QueueOn(rows: Rows) { rows.queue.Some? ==> !rows.queue.value.disabled }

  // The router serves exactly the subscriptions that are active.
  predicate Flagged(s: Sub, rows: Rows) {
    && (s.ip == "" ==> rows.queue.None?)
    && match s.state
       case Draft => true
       case Active => SecretOn(rows) && QueueOn(rows)
       case Suspended => SecretOff(rows) && QueueOff(rows)
       case Terminated => SecretOff(rows) && rows.queue.None?
  }

  // Enough life for the longest handler.
  predicate Healthy(link: Link) {
    link.up && link.line.life >= 4
  }

  // The commands spent on the secret before the queue's turn.
  function Ahead(plan: Plan): nat {
    if plan.service == Pppoe then 1 else 0
  }

  // How many commands reach the router, answered or not.
  function Reach(line: Line): nat {
    line.life + (if line.lands then 1 else 0)
  }

  // The connection lives long enough for every command that has something to switch, and
  // a plan change does not switch a cut-off subscription back on.
  predicate Lands(kind: Kind, s: Sub, plan: Plan, rows: Rows, line: Line) {
    match kind
    case Activate => true
    case Suspend => (SecretOff(rows) || Reach(line) >= 1) && (QueueOff(rows) || Reach(line) >= Ahead(plan) + 1)
    case Reconnect => SecretOn(rows) || Reach(line) >= 1
    case Terminate => (SecretOff(rows) || Reach(line) >= 1) && (rows.queue.None? || Reach(line) >= Ahead(plan) + 1)
    case ChangePlan => s.state in {Draft, Active} || (s.ip == "" && plan.service != Pppoe)
    case Other => true
  }

  // A job that succeeds, over whatever connection, keeps the flag exactly when it lands.
  lemma HandleKeepsFlag(kind: Kind, s: Sub, plan: Plan, rows: Rows, link: Link)
    requires kind != Other && Flagged(s, rows)
    requires plan.service != Pppoe ==> rows.secret.None?
    requires Handle(kind, s, plan, rows, link).ok
    ensures var e := Handle(kind, s, plan, rows, link);
            && (Flagged(e.sub, e.rows) <==> Lands(kind, s, plan, rows, link.line))
            && (plan.service != Pppoe ==> e.rows.secret.None?)
  {
    match kind
    case Activate => ActivationFlags(EnsureCredentials(s, plan, link.token), plan, Wire(rows, link.line), link.today);
    case Suspend => SuspensionOverLink(s, plan, rows, link);
    case Reconnect => ReconnectionOverLink(s, plan, rows, link);
    case Terminate => TerminationOverLink(s, plan, rows, link);
    case ChangePlan => PlanChangeFlags(s, plan, Wire(rows, link.line));
  }

  // Over a healthy connection only a plan change can fail to land.
  lemma HealthyLands(kind: Kind, s: Sub, plan: Plan, rows: Rows, link: Link)
    requires Healthy(link) && kind != ChangePlan
    ensures Lands(kind, s, plan, rows, link.line)
  {
  }

  // What the two ensuring commands leave in the secret and the queue.
  lemma EnsuredRows(w: Wire, s: Sub, plan: Plan)
    ensures var (w', ok) := EnsureSecret(w, s, plan);
            w'.rows.queue == w.rows.queue && (ok ==> w'.rows.secret.Some? && SecretOn(w'.rows))
    ensures var (w', ok) := EnsureQueue(w, s, plan);
            && w'.rows.secret == w.rows.secret
            && (s.ip == "" ==> w'.rows.queue == w.rows.queue)
            && (ok && s.ip != "" ==> w'.rows.queue.Some? && QueueOn(w'.rows))
    ensures var (w', _) := EnsureLease(w, s);
            w'.rows.secret == w.rows.secret && w'.rows.queue == w.rows.queue
  {
  }

  lemma ActivationFlags(s: Sub, plan: Plan, w: Wire, today: Date)
    requires (s.ip == "" ==> w.rows.queue.None?) && (plan.service != Pppoe ==> w.rows.secret.None?)
    requires Activation(s, plan, w, today).ok
    ensures var e := Activation(s, plan, w, today);
            Flagged(e.sub, e.rows) && (plan.service != Pppoe ==> e.rows.secret.None?)
  {
    EnsuredRows(w, s, plan);
    match plan.service
    case Pppoe => EnsuredRows(EnsureSecret(w, s, plan).0, s, plan);
    case Dhcp => EnsuredRows(EnsureLease(w, s).0, s, plan);
    case Hotspot =>
  }

  lemma PlanChangeFlags(s: Sub, plan: Plan, w: Wire)
    requires Flagged(s, w.rows) && (plan.service != Pppoe ==> w.rows.secret.None?) && PlanChange(s, plan, w).ok
    ensures var e := PlanChange(s, plan, w);
            && (Flagged(e.sub, e.rows) <==> s.state in {Draft, Active} || (s.ip == "" && plan.service != Pppoe))
            && (plan.service != Pppoe ==> e.rows.secret.None?)
  {
    EnsuredRows(w, s, plan);
    if plan.service == Pppoe { EnsuredRows(EnsureSecret(w, s, plan).0, s, plan); }
  }

  // What each successful job does to the lifecycle.
  lemma HandleState(kind: Kind, s: Sub, plan: Plan, rows: Rows, link: Link)
    requires kind != Other && Handle(kind, s, plan, rows, link).ok
    ensures Handle(kind, s, plan, rows, link).sub.state ==
            match kind
            case Activate => Active case Suspend => Suspended case Reconnect => Active
            case Terminate => Terminated case ChangePlan => s.state
  {
  }

  // Jobs for it cannot fail over a healthy connection.
  predicate Serviceable(s: Sub) {
    s.located && s.router.Some?
  }

  // Healthy jobs of a located subscription with a router cannot fail.
  lemma HealthySucceeds(kind: Kind, s: Sub, plan: Plan, rows: Rows, link: Link)
    requires kind != Other && Healthy(link) && Serviceable(s)
    ensures Handle(kind, s, plan, rows, link).ok
  {
  }

  // A suspension is reported as done however few commands reach the router; service
  // then really stops exactly when the commands that had a row to disable got through.
  lemma SuspensionOverLink(s: Sub, plan: Plan, rows: Rows, link: Link)
    requires link.up && s.router.Some? && s.located
    requires s.ip == "" ==> rows.queue.None?
    requires plan.service != Pppoe ==> rows.secret.None?
    ensures var e := Handle(Suspend, s, plan, rows, link);
            && e.ok && e.sub.state == Suspended
            && (plan.service != Pppoe ==> e.rows.secret.None?)
            && (Flagged(e.sub, e.rows) <==>
                  (SecretOff(rows) || Reach(link.line) >= 1) && (QueueOff(rows) || Reach(link.line) >= Ahead(plan) + 1))
  {
  }

  // So is a termination, which needs no coordinates either.
  lemma TerminationOverLink(s: Sub, plan: Plan, rows: Rows, link: Link)
    requires link.up && s.router.Some?
    requires s.ip == "" ==> rows.queue.None?
    requires plan.service != Pppoe ==> rows.secret.None?
    ensures var e := Handle(Terminate, s, plan, rows, link);
            && e.ok && e.sub.state == Terminated
            && (plan.service != Pppoe ==> e.rows.secret.None?)
            && (Flagged(e.sub, e.rows) <==>
                  (SecretOff(rows) || Reach(link.line) >= 1)
                  && (rows.queue.None? || Reach(link.line) >= Ahead(plan) + 1))
  {
  }

  // A reconnection succeeds exactly when the queue, if there is to be one, could be
  // ensured. Without a service address it succeeds over a dead connection too, and then
  // serves exactly if the secret needed no enabling.
  lemma ReconnectionOverLink(s: Sub, plan: Plan, rows: Rows, link: Link)
    requires link.up && s.router.Some? && s.located
    requires s.ip == "" ==> rows.queue.None?
    requires plan.service != Pppoe ==> rows.secret.None?
    ensures var e := Handle(Reconnect, s, plan, rows, link);
            && (e.ok <==> s.ip == "" || link.line.life >= Ahead(plan) + (if rows.queue.Some? then 2 else 1))
            && (plan.service != Pppoe ==> e.rows.secret.None?)
            && (e.ok ==> e.sub.state == Active && (Flagged(e.sub, e.rows) <==> SecretOn(rows) || Reach(link.line) >= 1))
  {
    var w := Wire(rows, link.line);
    var w1 := if plan.service == Pppoe then Issue(w, FlagSecret(false)).0 else w;
    EnsuredRows(w1, s, plan);
    assert w1.rows.queue == rows.queue;
    assert w1.line.life == if link.line.life < Ahead(plan) then 0 else link.line.life - Ahead(plan);
    QueueOk(w1, s, plan);
  }

  lemma QueueOk(w: Wire, s: Sub, plan: Plan)
    ensures EnsureQueue(w, s, plan).1 <==> s.ip == "" || w.line.life >= (if w.rows.queue.Some? then 2 else 1)
  {
  }

  // A dead connection: the customer is told of a suspension, but the secret stays enabled...
  lemma DeadSuspension(s: Sub, plan: Plan, link: Link)
    requires link.up && Reach(link.line) == 0 && s.router.Some? && s.located && s.state == Active && s.ip == ""
    requires plan.service == Pppoe
    ensures var rows := Rows(Some(Secret("p", "default", false)), None, None);
            var e := Handle(Suspend, s, plan, rows, link);
            Flagged(s, rows) && e.ok && e.sub.state == Suspended && e.rows == rows && !Flagged(e.sub, e.rows)
  {
  }

  // ...and of a reconnection, but the secret stays disabled.
  lemma DeadReconnection(s: Sub, plan: Plan, link: Link)
    requires link.up && Reach(link.line) == 0 && s.router.Some? && s.located && s.state == Suspended && s.ip == ""
    requires plan.service == Pppoe
    ensures var rows := Rows(Some(Secret("p", "default", true)), None, None);
            var e := Handle(Reconnect, s, plan, rows, link);
            Flagged(s, rows) && e.ok && e.sub.state == Active && e.rows == rows && !Flagged(e.sub, e.rows)
  {
  }

  /* The speed limit */

  // The limit of a queue row after the queue is ensured.
  lemma QueueLimit(w: Wire, s: Sub, plan: Plan)
    requires s.ip == "" ==> w.rows.queue.None?
    ensures var (w', ok) := EnsureQueue(w, s, plan);
            && (s.ip == "" ==> w'.rows.queue.None?)
            && (w'.rows.queue.Some? ==>
                  w'.rows.queue.value.limit == plan.limit || (!ok && w'.rows.queue == w.rows.queue))
  {
  }

  lemma SecretKeepsQueue(w: Wire, s: Sub, plan: Plan)
    ensures EnsureSecret(w, s, plan).0.rows.queue == w.rows.queue && EnsureLease(w, s).0.rows.queue == w.rows.queue
    ensures forall off :: Issue(w, FlagSecret(off)).0.rows.queue == w.rows.queue
  {
  }

  // A successful plan change leaves the queue row, if any, at the plan's limit; no job
  // changes the limit of a row to anything but the plan's.
  lemma HandleLimit(kind: Kind, s: Sub, plan: Plan, rows: Rows, link: Link)
    requires kind != Other && (s.ip == "" ==> rows.queue.None?)
    ensures var e := Handle(kind, s, plan, rows, link);
            && (s.ip == "" ==> e.rows.queue.None?)
            && (e.rows.queue.Some? ==>
                  e.rows.queue.value.limit == plan.limit
                  || (rows.queue.Some? && e.rows.queue.value.limit == rows.queue.value.limit))
            && (kind == ChangePlan && e.ok && e.rows.queue.Some? ==> e.rows.queue.value.limit == plan.limit)
  {
    var w := Wire(rows, link.line);
    var s1 := if kind == Activate then EnsureCredentials(s, plan, link.token) else s;
    SecretKeepsQueue(w, s1, plan);
    if kind == Activate || kind == ChangePlan {
      var w1 := if plan.service == Pppoe then EnsureSecret(w, s1, plan).0
                else if kind == Activate && plan.service == Dhcp then EnsureLease(w, s1).0 else w;
      QueueLimit(w1, s1, plan);
    } else if kind == Reconnect {
      QueueLimit(if plan.service == Pppoe then Issue(w, FlagSecret(false)).0 else w, s1, plan);
    }
  }
}
