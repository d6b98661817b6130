/**
  Restarting the preloader. The sector configuration converges from every cut, on
  every router and configuration, although each attempt reads the management
  interface afresh. The whole script is idempotent exactly when its first run does
  not create what its own discovery step was looking for.
 */
module PreloaderRestart {
  import opened Basics
  import opened RouterOs
  import opened Reconciler
  import opened Preloader

  /* Steps that leave a menu alone */

  predicate Elsewhere(s: Step, m: Menu) {
    s.Configure? || s.Raise? || s.menu != m
  }

  ghost predicate AllElsewhere(steps: seq<Step>, m: Menu) {
    forall i :: 0 <= i < |steps| ==> Elsewhere(steps[i], m)
  }

  lemma StepElsewhere(s: Step, d: Device, m: Menu)
    requires Elsewhere(s, m) && Apply(s, d).Ok?
    ensures TableOf(Apply(s, d).value, m) == TableOf(d, m)
  {
    match s
    case EnsureRow(menu, _, _, attrs) => CommandElsewhere(Add(menu, attrs), menu, d, m);
    case Upsert(menu, value, attrs) =>
      CommandElsewhere(Add(menu, attrs[Key(menu) := value]), menu, d, m);
      var i := First(Printed(d, menu), Key(menu), value);
      if i < |Printed(d, menu)| { CommandElsewhere(Set(menu, ById(Printed(d, menu)[i].id), attrs), menu, d, m); }
    case Patch(menu, name, attrs) => CommandElsewhere(Set(menu, ByName(name), attrs), menu, d, m);
    case Join(menu, iface, groupField, group) =>
      CommandElsewhere(Add(menu, map["interface" := iface, groupField := group]), menu, d, m);
    case LiftFirst(menu, comment) =>
      CommandElsewhere(MoveToTop(menu, Printed(d, menu)[First(Printed(d, menu), "comment", comment)].id), menu, d, m);
    case Configure(_, _, _) =>
  }

  lemma CommandElsewhere(c: Command, menu: Menu, d: Device, m: Menu)
    requires !c.Put? && c.menu == menu && menu != m
    ensures Execute(d, c).Some? ==> TableOf(Execute(d, c).value, m) == TableOf(d, m)
  {
    match c
    case Add(_, attrs) =>
      var t := TableOf(d, menu);
      TableElsewhere(d, menu, Table(t.rows + [Row(t.nextId, attrs)], t.nextId + 1), m);
    case Set(_, _, _) =>
      if Execute(d, c).Some? { TableElsewhere(d, menu, TableOf(Execute(d, c).value, menu), m); }
    case MoveToTop(_, _) =>
      if Execute(d, c).Some? { TableElsewhere(d, menu, TableOf(Execute(d, c).value, menu), m); }
  }

  lemma TableElsewhere(d: Device, menu: Menu, t: Table, m: Menu)
    requires menu != m
    ensures TableOf(WithTable(d, menu, t), m) == TableOf(d, m)
  {
  }

  lemma {:induction false} RunElsewhere(steps: seq<Step>, d: Device, m: Menu)
    requires AllElsewhere(steps, m)
    ensures TableOf(Run(steps, d).0, m) == TableOf(d, m)
  {
    if steps == [] {
    } else if Apply(steps[0], d).Ok? {
      StepElsewhere(steps[0], d, m);
      RunElsewhere(steps[1..], Apply(steps[0], d).value, m);
    }
  }

  /* The management interface can only be found late, never changed */

  predicate Addressed(rows: seq<Row>, ip: string) {
    exists r :: r in rows && OnAddress(r, ip)
  }

  lemma {:induction false} MgmtAfterAppend(rows: seq<Row>, r: Row, ip: string)
    ensures Addressed(rows, ip) ==> MgmtOf(rows + [r], ip) == MgmtOf(rows, ip)
    ensures !Addressed(rows, ip) ==> MgmtOf(rows, ip) == None && MgmtOf(rows + [r], ip) == MgmtOf([r], ip)
  {
    if rows == [] {
      assert rows + [r] == [r];
    } else {
      assert (rows + [r])[0] == rows[0] && (rows + [r])[1..] == rows[1..] + [r];
      MgmtAfterAppend(rows[1..], r, ip);
      assert rows == [rows[0]] + rows[1..];
    }
  }

  lemma MgmtAfterAddress(c: SectorConfig, d: Device, ip: string)
    requires Apply(AddressStep(c), d).Ok?
    ensures var mgmt' := MgmtInterface(Apply(AddressStep(c), d).value, ip);
            mgmt' == MgmtInterface(d, ip)
            || (!Addressed(TableOf(d, Addresses).rows, ip) && MgmtInterface(d, ip) == None
                && ip + "/" <= c.address && mgmt' == Some(c.bridge))
  {
    var rows, rows' := TableOf(d, Addresses).rows, TableOf(Apply(AddressStep(c), d).value, Addresses).rows;
    if rows' != rows {
      var r := rows'[|rows|];
      assert rows' == rows + [r];
      MgmtAfterAppend(rows, r, ip);
      assert MgmtOf([r], ip) == if ip + "/" <= c.address then Some(c.bridge) else None;
    }
  }

  lemma {:induction false} PortsElsewhere(bridge: string, ports: seq<string>, mgmt: Option<string>)
    ensures AllElsewhere(PortSteps(bridge, ports, mgmt), Addresses)
    ensures forall s :: s in PortSteps(bridge, ports, mgmt) ==> s in PortSteps(bridge, ports, None)
  {
    if ports == [] {
    } else {
      PortsElsewhere(bridge, ports[1..], mgmt);
    }
  }

  // A script around the port steps whose ports depend on the management interface.
  function Around(u: seq<Step>, c: SectorConfig, mgmt: Option<string>, v: seq<Step>): seq<Step> {
    u + PortSteps(c.bridge, c.ports, mgmt) + ([AddressStep(c)] + v)
  }

  // On the way, the management interface stays what it was or becomes the bridge.
  lemma MgmtAlong(u: seq<Step>, c: SectorConfig, mgmt: Option<string>, v: seq<Step>, d: Device, mid: Device, ip: string)
    requires AllElsewhere(u, Addresses) && AllElsewhere(v, Addresses)
    requires Reached(Around(u, c, mgmt, v), d, mid)
    ensures MgmtInterface(mid, ip) == MgmtInterface(d, ip)
            || (!Addressed(TableOf(d, Addresses).rows, ip) && MgmtInterface(d, ip) == None
                && ip + "/" <= c.address && MgmtInterface(mid, ip) == Some(c.bridge))
  {
    var ports := PortSteps(c.bridge, c.ports, mgmt);
    var steps := Around(u, c, mgmt, v);
    var k :| 0 <= k <= |steps| && Run(steps[..k], d) == (mid, None);
    var n := |u + ports|;
    PortsElsewhere(c.bridge, c.ports, mgmt);
    if k <= n {
      assert steps[..k] == (u + ports)[..k];
      RunElsewhere(steps[..k], d, Addresses);
    } else {
      var done := v[..k - n - 1];
      assert steps[..k] == (u + ports) + ([AddressStep(c)] + done);
      RunSplit(u + ports, [AddressStep(c)] + done, d);
      RunElsewhere(u + ports, d, Addresses);
      var before := Run(u + ports, d).0;
      MgmtAfterAddress(c, before, ip);
      assert ([AddressStep(c)] + done)[1..] == done;
      RunElsewhere(done, Apply(AddressStep(c), before).value, Addresses);
    }
  }

  // Once the address may have been added, everything before it is established, and a
  // restart that reads another management interface does the same from there on.
  lemma SameFromAddress(u: seq<Step>, c: SectorConfig, v: seq<Step>, d: Device, mid: Device, ip: string)
    requires ValidDevice(d) && AllElsewhere(u, Addresses) && AllElsewhere(v, Addresses)
    requires AllWellShaped(Around(u, c, MgmtInterface(d, ip), v)) && Ordered(Around(u, c, MgmtInterface(d, ip), v), d)
    requires Reached(Around(u, c, MgmtInterface(d, ip), v), d, mid)
    ensures MgmtInterface(mid, ip) == MgmtInterface(d, ip)
            || (Run(u + PortSteps(c.bridge, c.ports, MgmtInterface(d, ip)), mid) == (mid, None)
                && EstablishedRun(u + PortSteps(c.bridge, c.ports, MgmtInterface(mid, ip)), mid))
  {
    var m, m' := MgmtInterface(d, ip), MgmtInterface(mid, ip);
    var ports, ports' := PortSteps(c.bridge, c.ports, m), PortSteps(c.bridge, c.ports, m');
    var steps := Around(u, c, m, v);
    MgmtAlong(u, c, m, v, d, mid, ip);
    PortsElsewhere(c.bridge, c.ports, m);
    PortsElsewhere(c.bridge, c.ports, m');
    var k :| 0 <= k <= |steps| && Run(steps[..k], d) == (mid, None);
    if k <= |u + ports| {
      assert steps[..k] == (u + ports)[..k];
      RunElsewhere(steps[..k], d, Addresses);
    } else {
      RunKeepsValid(steps[..k], d);
      CompletedAreEstablished(steps[..k], d);
      EstablishedPrefix(steps[..k], u + ports, mid);
      PortsEstablished(steps[..k], u, ports, ports', mid);
    }
  }

  // Restarted with the management interface read again, such a script still converges:
  // the address that could reveal another interface is added only after all ports.
  lemma RestartAround(u: seq<Step>, c: SectorConfig, v: seq<Step>, d: Device, mid: Device, ip: string)
    requires ValidDevice(d) && AllElsewhere(u, Addresses) && AllElsewhere(v, Addresses)
    requires AllWellShaped(Around(u, c, MgmtInterface(d, ip), v)) && Ordered(Around(u, c, MgmtInterface(d, ip), v), d)
    requires Reached(Around(u, c, MgmtInterface(d, ip), v), d, mid)
    ensures Run(Around(u, c, MgmtInterface(mid, ip), v), mid) == Run(Around(u, c, MgmtInterface(d, ip), v), d)
  {
    var m, m' := MgmtInterface(d, ip), MgmtInterface(mid, ip);
    RestartConverges(Around(u, c, m, v), d, mid);
    SameFromAddress(u, c, v, d, mid, ip);
    if m' != m {
      EstablishedRunSkips(u + PortSteps(c.bridge, c.ports, m'), mid);
      RunSplit(u + PortSteps(c.bridge, c.ports, m), [AddressStep(c)] + v, mid);
      RunSplit(u + PortSteps(c.bridge, c.ports, m'), [AddressStep(c)] + v, mid);
    }
  }

  // And it passes only through states of the uncut run.
  lemma RestartAroundReaches(u: seq<Step>, c: SectorConfig, v: seq<Step>, d: Device, mid: Device, d': Device,
                             ip: string)
    requires ValidDevice(d) && AllElsewhere(u, Addresses) && AllElsewhere(v, Addresses)
    requires AllWellShaped(Around(u, c, MgmtInterface(d, ip), v)) && Ordered(Around(u, c, MgmtInterface(d, ip), v), d)
    requires Reached(Around(u, c, MgmtInterface(d, ip), v), d, mid)
    requires Reached(Around(u, c, MgmtInterface(mid, ip), v), mid, d')
    ensures Reached(Around(u, c, MgmtInterface(d, ip), v), d, d')
  {
    var m, m' := MgmtInterface(d, ip), MgmtInterface(mid, ip);
    var steps, steps' := Around(u, c, m, v), Around(u, c, m', v);
    SameFromAddress(u, c, v, d, mid, ip);
    if m' != m {
      ReachedPastFirst(u + PortSteps(c.bridge, c.ports, m), u + PortSteps(c.bridge, c.ports, m'),
                       [AddressStep(c)] + v, mid, d');
    }
    RestartReaches(steps, d, mid, d');
  }

  // Two beginnings that both have nothing left to do lead through the same states.
  lemma ReachedPastFirst(first: seq<Step>, first': seq<Step>, v: seq<Step>, mid: Device, d': Device)
    requires Run(first, mid) == (mid, None) && EstablishedRun(first', mid) && Reached(first' + v, mid, d')
    ensures Reached(first + v, mid, d')
  {
    var steps, steps' := first + v, first' + v;
    var j :| 0 <= j <= |steps'| && Run(steps'[..j], mid) == (d', None);
    if j <= |first'| {
      assert steps'[..j] == first'[..j];
      EstablishedRunSkips(first'[..j], mid);
      assert Run(steps[..0], mid) == (mid, None);
    } else {
      var i := j - |first'|;
      assert steps'[..j] == first' + v[..i];
      EstablishedRunSkips(first', mid);
      RunSplit(first', v[..i], mid);
      RunSplit(first, v[..i], mid);
      assert steps[..|first| + i] == first + v[..i];
    }
  }

  ghost predicate EstablishedRun(steps: seq<Step>, d: Device) {
    ValidDevice(d) && AllWellShaped(steps) && forall i :: 0 <= i < |steps| ==> Established(steps[i], d)
  }

  lemma EstablishedRunSkips(steps: seq<Step>, d: Device)
    requires EstablishedRun(steps, d)
    ensures Run(steps, d) == (d, None)
  {
    EstablishedRunIsNoOp(steps, d);
  }

  lemma EstablishedPrefix(done: seq<Step>, part: seq<Step>, d: Device)
    requires part <= done && ValidDevice(d) && AllWellShaped(done)
    requires forall i :: 0 <= i < |done| ==> Established(done[i], d)
    ensures Run(part, d) == (d, None)
  {
    EstablishedRunIsNoOp(part, d);
  }

  lemma PortsEstablished(done: seq<Step>, u: seq<Step>, ports: seq<Step>, ports': seq<Step>, d: Device)
    requires u + ports <= done && ValidDevice(d) && AllWellShaped(done)
    requires forall s :: s in ports' ==> s in ports
    requires forall i :: 0 <= i < |done| ==> Established(done[i], d)
    ensures EstablishedRun(u + ports', d)
  {
    forall i | 0 <= i < |u + ports'|
      ensures WellShaped((u + ports')[i]) && Established((u + ports')[i], d)
    {
      assert (u + ports')[i] in u + ports;
      var j :| 0 <= j < |u + ports| && (u + ports)[j] == (u + ports')[i];
      assert done[j] == (u + ports)[j];
    }
  }

  /* Sector configuration */

  lemma SpansOrdered(steps: seq<Step>, lo: nat, hi: nat, d: Device)
    requires Spans(steps, lo, hi)
    requires forall i, j :: 0 <= i < j < |steps| && Premature(steps[i], steps[j]) ==> Settled(steps[i], d)
    ensures AllWellShaped(steps) && Ordered(steps, d)
  {
    forall i, j | 0 <= i < j < |steps|
      ensures Spares(steps[j], steps[i])
              || (Settled(steps[i], d) && steps[j].EnsureRow? && steps[j].menu == Bridges)
    {
      if !Premature(steps[i], steps[j]) { BeforeSpares(steps[i], steps[j]); }
    }
  }

  lemma SpansElsewhere(steps: seq<Step>, lo: nat, hi: nat, m: Menu)
    requires Spans(steps, lo, hi)
    requires (m == Addresses && (hi <= 13 || 14 <= lo)) || (m == ListMembers && (hi <= 5 || 6 <= lo))
             || (m == InterfaceLists && (hi <= 4 || 5 <= lo)) || (m in {Bridges, Interfaces} && (hi <= 11 || 12 <= lo))
    ensures AllElsewhere(steps, m)
  {
  }

  lemma SectorReady(cfg: Config, c: SectorConfig, mgmt: Option<string>, d: Device)
    requires cfg.sector == Some(c) && Complete(c)
    ensures SectorSteps(cfg, mgmt) == Around(HeadSteps(c), c, mgmt, ServiceSteps(cfg, c))
    ensures AllWellShaped(SectorSteps(cfg, mgmt)) && Ordered(SectorSteps(cfg, mgmt), d)
    ensures AllElsewhere(HeadSteps(c), Addresses) && AllElsewhere(ServiceSteps(cfg, c), Addresses)
  {
    SectorOrdered(cfg, mgmt, d);
    AroundSector(cfg, c);
  }

  lemma SectorOrdered(cfg: Config, mgmt: Option<string>, d: Device)
    ensures AllWellShaped(SectorSteps(cfg, mgmt)) && Ordered(SectorSteps(cfg, mgmt), d)
  {
    var steps := SectorSteps(cfg, mgmt);
    SectorSpans(cfg, mgmt);
    LateNotPremature(steps);
    SpansOrdered(steps, 10, 23, d);
  }

  // No join of discovery comes in the sector's part.
  lemma LateNotPremature(steps: seq<Step>)
    requires Spans(steps, 10, 23)
    ensures forall i, j :: 0 <= i < j < |steps| ==> !Premature(steps[i], steps[j])
  {
    forall i, j | 0 <= i < j < |steps| ensures !Premature(steps[i], steps[j]) {
      assert Before(steps[i], steps[j]);
    }
  }

  lemma AroundSector(cfg: Config, c: SectorConfig)
    ensures AllElsewhere(HeadSteps(c), Addresses) && AllElsewhere(ServiceSteps(cfg, c), Addresses)
  {
    HeadSpans(c);
    SpansElsewhere(HeadSteps(c), 10, 12, Addresses);
    ServiceSpans(cfg, c);
    SpansElsewhere(ServiceSteps(cfg, c), 14, 23, Addresses);
  }

  // Cut anywhere, the sector configuration run again from scratch ends like the uncut run.
  lemma SectorRestart(cfg: Config, d: Device, mid: Device, ip: string)
    requires ValidDevice(d) && Reached(SectorSteps(cfg, MgmtInterface(d, ip)), d, mid)
    ensures SectorRun(cfg, mid, ip) == SectorRun(cfg, d, ip)
  {
    if cfg.sector.Some? && Complete(cfg.sector.value) {
      var c := cfg.sector.value;
      SectorReady(cfg, c, MgmtInterface(d, ip), d);
      RestartAround(HeadSteps(c), c, ServiceSteps(cfg, c), d, mid, ip);
    }
  }

  // The restarted run may be cut again: it stays on the uncut run's path.
  lemma SectorRestartReaches(cfg: Config, d: Device, mid: Device, d': Device, ip: string)
    requires ValidDevice(d) && Reached(SectorSteps(cfg, MgmtInterface(d, ip)), d, mid)
    requires Reached(SectorSteps(cfg, MgmtInterface(mid, ip)), mid, d')
    ensures Reached(SectorSteps(cfg, MgmtInterface(d, ip)), d, d')
  {
    if cfg.sector.Some? && Complete(cfg.sector.value) {
      var c := cfg.sector.value;
      SectorReady(cfg, c, MgmtInterface(d, ip), d);
      RestartAroundReaches(HeadSteps(c), c, ServiceSteps(cfg, c), d, mid, d', ip);
    }
  }

  // A second run in full ends where the first one ended, in success or in failure.
  lemma SectorIdempotent(cfg: Config, d: Device, ip: string)
    requires ValidDevice(d)
    ensures SectorRun(cfg, SectorRun(cfg, d, ip).0, ip) == SectorRun(cfg, d, ip)
  {
    FailureIsReached(SectorSteps(cfg, MgmtInterface(d, ip)), d);
    SectorRestart(cfg, d, SectorRun(cfg, d, ip).0, ip);
  }

  /* The whole script */

  predicate Bridging(cfg: Config) {
    cfg.applySector && cfg.sector.Some? && Complete(cfg.sector.value)
  }

  // Discovery does not look for the bridge before the script has created it.
  predicate Clear(cfg: Config, ifaces: seq<string>, d: Device) {
    Bridging(cfg) && cfg.sector.value.bridge in ifaces ==>
      Settled(Join(ListMembers, cfg.sector.value.bridge, "list", LAN), d)
  }

  // Adding the sector's address cannot change which interface discovery guesses.
  predicate Steady(cfg: Config, d: Device, ip: string) {
    cfg.discovery != [] || Addressed(TableOf(d, Addresses).rows, ip)
    || !Bridging(cfg) || !(ip + "/" <= cfg.sector.value.address)
  }

  lemma PhaseOf(steps: seq<Step>, lo: nat, hi: nat, s: Step)
    requires Spans(steps, lo, hi) && s in steps && !s.Raise?
    ensures lo <= Phase(s) < hi
  {
  }

  lemma OnboardSegments(cfg: Config, ifaces: seq<string>, mgmt: Option<string>, s: Step)
    requires s in OnboardSteps(cfg, ifaces, mgmt) && !s.Raise?
    ensures 4 <= Phase(s) < 9 ==> s in DiscoverySteps(ifaces)
    ensures 10 <= Phase(s) < 23 ==> cfg.applySector && s in SectorSteps(cfg, mgmt)
    ensures 4 <= Phase(s) < 9 || s in OnboardSteps(cfg, [], mgmt)
  {
    AccessSpans(cfg);
    DiscoverySpans(ifaces);
    FirewallSpans(cfg.port, cfg.allowed);
    SectorSpans(cfg, mgmt);
    CallHomeSpans(cfg.callHome);
    SegmentOf(AccessSteps(cfg), DiscoverySteps(ifaces), FirewallSteps(cfg.port, cfg.allowed),
              if cfg.applySector then SectorSteps(cfg, mgmt) else [], CallHomeSteps(cfg.callHome), s);
    assert DiscoverySteps([]) == [];
  }

  lemma FirewallSpans(port: string, allowed: seq<string>)
    ensures Spans(FirewallSteps(port, allowed), 9, 10)
  {
    AllowSpans(port, allowed);
  }

  // The phase of a step tells which of five consecutive segments it comes from.
  lemma SegmentOf(a: seq<Step>, b: seq<Step>, c: seq<Step>, e: seq<Step>, h: seq<Step>, s: Step)
    requires Spans(a, 0, 4) && Spans(b, 4, 9) && Spans(c, 9, 10) && Spans(e, 10, 23) && Spans(h, 23, 25)
    requires s in a + b + c + e + h && !s.Raise?
    ensures 4 <= Phase(s) < 9 ==> s in b
    ensures 10 <= Phase(s) < 23 ==> s in e
    ensures 4 <= Phase(s) < 9 || s in a + [] + c + e + h
  {
    if s in a { PhaseOf(a, 0, 4, s); }
    if s in b { PhaseOf(b, 4, 9, s); }
    if s in c { PhaseOf(c, 9, 10, s); }
    if s in e { PhaseOf(e, 10, 23, s); }
    if s in h { PhaseOf(h, 23, 25, s); }
  }

  lemma OnboardMembers(cfg: Config, ifaces: seq<string>, mgmt: Option<string>, s: Step)
    requires s in OnboardSteps(cfg, ifaces, mgmt)
    ensures s.Join? && s.menu == ListMembers ==> s.iface in ifaces && s == Join(ListMembers, s.iface, "list", LAN)
    ensures s.EnsureRow? && s.menu == Bridges ==>
              Bridging(cfg) && s.attrs == map["name" := cfg.sector.value.bridge]
  {
    if s.Join? && s.menu == ListMembers {
      OnboardSegments(cfg, ifaces, mgmt, s);
      assert s in ListSteps(ifaces);
    } else if s.EnsureRow? && s.menu == Bridges {
      OnboardSegments(cfg, ifaces, mgmt, s);
      var c := cfg.sector.value;
      PortSpans(c.bridge, c.ports, mgmt);
      TailSpans(cfg, c);
      assert s in HeadSteps(c);
    }
  }

  lemma OnboardOrdered(cfg: Config, ifaces: seq<string>, mgmt: Option<string>, d: Device)
    requires Clear(cfg, ifaces, d)
    ensures AllWellShaped(OnboardSteps(cfg, ifaces, mgmt)) && Ordered(OnboardSteps(cfg, ifaces, mgmt), d)
  {
    var steps := OnboardSteps(cfg, ifaces, mgmt);
    OnboardSpans(cfg, ifaces, mgmt);
    forall i, j | 0 <= i < j < |steps| && Premature(steps[i], steps[j])
      ensures Settled(steps[i], d)
    {
      OnboardMembers(cfg, ifaces, mgmt, steps[i]);
      OnboardMembers(cfg, ifaces, mgmt, steps[j]);
    }
    SpansOrdered(steps, 0, 25, d);
  }

  lemma OnboardAround(cfg: Config, ifaces: seq<string>, mgmt: Option<string>)
    requires Bridging(cfg)
    ensures var c := cfg.sector.value;
            OnboardSteps(cfg, ifaces, mgmt)
            == Around(EntrySteps(cfg, ifaces) + HeadSteps(c), c, mgmt,
                      ServiceSteps(cfg, c) + CallHomeSteps(cfg.callHome))
  {
    var c := cfg.sector.value;
    Regroup(EntrySteps(cfg, ifaces), HeadSteps(c), PortSteps(c.bridge, c.ports, mgmt), [AddressStep(c)],
            ServiceSteps(cfg, c), CallHomeSteps(cfg.callHome));
  }

  lemma Regroup<T>(e: seq<T>, h: seq<T>, p: seq<T>, a: seq<T>, s: seq<T>, r: seq<T>)
    ensures e + (h + p + (a + s)) + r == e + h + p + (a + (s + r))
  {
  }

  lemma WithoutBridgingElsewhere(cfg: Config, ifaces: seq<string>, mgmt: Option<string>)
    requires !Bridging(cfg)
    ensures AllElsewhere(OnboardSteps(cfg, ifaces, mgmt), Addresses)
  {
    var steps := OnboardSteps(cfg, ifaces, mgmt);
    OnboardSpans(cfg, ifaces, mgmt);
    forall i | 0 <= i < |steps| ensures Elsewhere(steps[i], Addresses) {
      NoAddressStep(cfg, ifaces, mgmt, steps[i]);
    }
  }

  lemma NoAddressStep(cfg: Config, ifaces: seq<string>, mgmt: Option<string>, s: Step)
    requires !Bridging(cfg) && Usual(s) && s in OnboardSteps(cfg, ifaces, mgmt)
    ensures Elsewhere(s, Addresses)
  {
    if !Elsewhere(s, Addresses) {
      assert 10 <= Phase(s) < 23;
      OnboardSegments(cfg, ifaces, mgmt, s);
      NoSectorSteps(cfg, mgmt, s);
    }
  }

  lemma NoSectorSteps(cfg: Config, mgmt: Option<string>, s: Step)
    requires !Bridging(cfg) && cfg.applySector && s in SectorSteps(cfg, mgmt)
    ensures s.Raise?
  {
  }

  // The run goes the same way from every state it reaches.
  lemma OnboardRestart(cfg: Config, d: Device, mid: Device, ip: string)
    requires ValidDevice(d) && Steady(cfg, d, ip) && Clear(cfg, DiscoveryInterfaces(cfg, d, ip), d)
    requires Reached(OnboardSteps(cfg, DiscoveryInterfaces(cfg, d, ip), MgmtInterface(d, ip)), d, mid)
    ensures OnboardRun(cfg, mid, ip) == OnboardRun(cfg, d, ip)
    ensures DiscoveryInterfaces(cfg, mid, ip) == DiscoveryInterfaces(cfg, d, ip)
  {
    var ifaces, mgmt := DiscoveryInterfaces(cfg, d, ip), MgmtInterface(d, ip);
    var steps := OnboardSteps(cfg, ifaces, mgmt);
    OnboardOrdered(cfg, ifaces, mgmt, d);
    if Bridging(cfg) {
      var c := cfg.sector.value;
      var u, v := EntrySteps(cfg, ifaces) + HeadSteps(c), ServiceSteps(cfg, c) + CallHomeSteps(cfg.callHome);
      OnboardAround(cfg, ifaces, mgmt);
      OnboardAround(cfg, ifaces, MgmtInterface(mid, ip));
      AroundElsewhere(cfg, ifaces, c);
      MgmtAlong(u, c, mgmt, v, d, mid, ip);
      RestartAround(u, c, v, d, mid, ip);
    } else {
      RestartConverges(steps, d, mid);
      WithoutBridgingElsewhere(cfg, ifaces, mgmt);
      var k :| 0 <= k <= |steps| && Run(steps[..k], d) == (mid, None);
      RunElsewhere(steps[..k], d, Addresses);
    }
  }

  lemma AroundElsewhere(cfg: Config, ifaces: seq<string>, c: SectorConfig)
    ensures AllElsewhere(EntrySteps(cfg, ifaces) + HeadSteps(c), Addresses)
    ensures AllElsewhere(ServiceSteps(cfg, c) + CallHomeSteps(cfg.callHome), Addresses)
  {
    EntrySpans(cfg, ifaces);
    HeadSpans(c);
    ServiceSpans(cfg, c);
    SpansElsewhere(EntrySteps(cfg, ifaces), 0, 10, Addresses);
    SpansElsewhere(HeadSteps(c), 10, 12, Addresses);
    SpansElsewhere(ServiceSteps(cfg, c), 14, 23, Addresses);
    CallHomeSpans(cfg.callHome);
    SpansElsewhere(CallHomeSteps(cfg.callHome), 23, 25, Addresses);
  }

  /* Exactly when a second successful run of the whole script changes nothing */

  // Discovery of the bridge has nothing left to do on the router as it is now.
  predicate Discovering(d: Device, bridge: string) {
    && Any(TableOf(d, InterfaceLists).rows, "name", LAN)
    && Member(TableOf(d, ListMembers).rows, bridge, "list", LAN)
    && (forall s :: s in {Discovery, MacServer, MacWinbox} && s in d.settings ==>
          Includes(d.settings[s], if s == Discovery then map["discover-interface-list" := LAN]
                                  else map["allowed-interface-list" := LAN]))
  }

  predicate RerunSafe(cfg: Config, d: Device, ip: string) {
    if Steady(cfg, d, ip) then Clear(cfg, DiscoveryInterfaces(cfg, d, ip), d)
    else Discovering(d, cfg.sector.value.bridge)
  }

  lemma BridgeStays(u: seq<Step>, name: string, rest: seq<Step>, d: Device)
    requires ValidDevice(d) && AllWellShaped(u) && AllWellShaped(rest)
    requires var step := EnsureRow(Bridges, "name", name, map["name" := name]);
             Run(u + ([step] + rest), d).1.None?
    ensures var step := EnsureRow(Bridges, "name", name, map["name" := name]);
            Any(Printed(Run(u + ([step] + rest), d).0, Interfaces), "name", name)
  {
    var step := EnsureRow(Bridges, "name", name, map["name" := name]);
    RunSplit(u, [step] + rest, d);
    RunKeepsValid(u, d);
    var before := Run(u, d).0;
    assert ([step] + rest)[0] == step && ([step] + rest)[1..] == rest;
    BridgeIsInterface(step, name, before);
    InterfaceStaysThroughout(rest, Apply(step, before).value, name);
  }

  lemma BridgeIsInterface(step: Step, name: string, d: Device)
    requires ValidDevice(d) && step == EnsureRow(Bridges, "name", name, map["name" := name]) && Apply(step, d).Ok?
    ensures Any(Printed(Apply(step, d).value, Interfaces), "name", name)
  {
    SuccessEstablishes(step, d);
    var after := Apply(step, d).value;
    var i := First(TableOf(after, Bridges).rows, "name", name);
    assert Has(Printed(after, Interfaces)[|TableOf(after, Interfaces).rows| + i], "name", name);
  }

  lemma BridgeExistsAfter(cfg: Config, ifaces: seq<string>, mgmt: Option<string>, d: Device)
    requires Bridging(cfg) && ValidDevice(d) && Run(OnboardSteps(cfg, ifaces, mgmt), d).1.None?
    ensures Any(Printed(Run(OnboardSteps(cfg, ifaces, mgmt), d).0, Interfaces), "name", cfg.sector.value.bridge)
  {
    var c := cfg.sector.value;
    var u, rest := BeforeBridge(cfg, ifaces, c), AfterBridge(cfg, c, mgmt);
    var step := EnsureRow(Bridges, "name", c.bridge, map["name" := c.bridge]);
    OnboardSpans(cfg, ifaces, mgmt);
    OnboardAtBridge(cfg, ifaces, mgmt);
    SplitShaped(u, step, rest);
    BridgeStays(u, c.bridge, rest, d);
  }

  function BeforeBridge(cfg: Config, ifaces: seq<string>, c: SectorConfig): seq<Step> {
    EntrySteps(cfg, ifaces) + HeadSteps(c)[..|HeadSteps(c)| - 1]
  }

  function AfterBridge(cfg: Config, c: SectorConfig, mgmt: Option<string>): seq<Step> {
    PortSteps(c.bridge, c.ports, mgmt) + TailSteps(cfg, c) + CallHomeSteps(cfg.callHome)
  }

  lemma OnboardAtBridge(cfg: Config, ifaces: seq<string>, mgmt: Option<string>)
    requires Bridging(cfg)
    ensures var c := cfg.sector.value;
            OnboardSteps(cfg, ifaces, mgmt)
            == BeforeBridge(cfg, ifaces, c) + ([EnsureRow(Bridges, "name", c.bridge, map["name" := c.bridge])]
                                               + AfterBridge(cfg, c, mgmt))
  {
    var c := cfg.sector.value;
    var h := HeadSteps(c);
    assert h[|h| - 1] == EnsureRow(Bridges, "name", c.bridge, map["name" := c.bridge]);
    SplitAtLast(EntrySteps(cfg, ifaces), h, PortSteps(c.bridge, c.ports, mgmt), TailSteps(cfg, c),
                CallHomeSteps(cfg.callHome));
  }

  lemma SplitAtLast<T>(e: seq<T>, h: seq<T>, p: seq<T>, t: seq<T>, r: seq<T>)
    requires h != []
    ensures e + (h + p + t) + r == (e + h[..|h| - 1]) + ([h[|h| - 1]] + (p + t + r))
  {
    assert h == h[..|h| - 1] + [h[|h| - 1]];
  }

  lemma SplitShaped(u: seq<Step>, step: Step, rest: seq<Step>)
    requires AllWellShaped(u + ([step] + rest))
    ensures AllWellShaped(u) && AllWellShaped(rest)
  {
    var all := u + ([step] + rest);
    assert forall i :: 0 <= i < |u| ==> u[i] == all[i];
    assert forall i :: 0 <= i < |rest| ==> rest[i] == all[|u| + 1 + i];
  }

  lemma {:induction false} InterfaceStaysThroughout(steps: seq<Step>, d: Device, iface: string)
    requires AllWellShaped(steps) && Any(Printed(d, Interfaces), "name", iface)
    ensures Any(Printed(Run(steps, d).0, Interfaces), "name", iface)
  {
    if steps == [] {
    } else if Apply(steps[0], d).Ok? {
      InterfaceStays(steps[0], d, iface);
      InterfaceStaysThroughout(steps[1..], Apply(steps[0], d).value, iface);
    }
  }

  // A run that changes nothing finds all its steps established.
  lemma NoOpRunIsEstablished(cfg: Config, ifaces: seq<string>, mgmt: Option<string>, d: Device)
    requires ValidDevice(d) && Clear(cfg, ifaces, d)
    requires Run(OnboardSteps(cfg, ifaces, mgmt), d) == (d, None)
    ensures forall s :: s in OnboardSteps(cfg, ifaces, mgmt) ==> Established(s, d)
  {
    OnboardOrdered(cfg, ifaces, mgmt, d);
    CompletedAreEstablished(OnboardSteps(cfg, ifaces, mgmt), d);
  }

  // Before the bridge exists, discovery does not make it a member of the list.
  lemma {:induction false} NoEarlyMember(steps: seq<Step>, d: Device, iface: string)
    requires forall s :: s in steps ==> Elsewhere(s, Interfaces) && Elsewhere(s, Bridges)
                                        && (s.Join? || Elsewhere(s, ListMembers))
    requires !Any(Printed(d, Interfaces), "name", iface)
    requires !Member(TableOf(d, ListMembers).rows, iface, "list", LAN)
    ensures !Member(TableOf(Run(steps, d).0, ListMembers).rows, iface, "list", LAN)
  {
    if steps == [] {
    } else if Apply(steps[0], d).Ok? {
      var d' := Apply(steps[0], d).value;
      StepElsewhere(steps[0], d, Interfaces);
      StepElsewhere(steps[0], d, Bridges);
      if Elsewhere(steps[0], ListMembers) { StepElsewhere(steps[0], d, ListMembers); }
      assert !Member(TableOf(d', ListMembers).rows, iface, "list", LAN);
      NoEarlyMember(steps[1..], d', iface);
    }
  }

  lemma BeforeBridgeElsewhere(cfg: Config, ifaces: seq<string>, c: SectorConfig)
    ensures forall s :: s in BeforeBridge(cfg, ifaces, c) ==>
              Elsewhere(s, Interfaces) && Elsewhere(s, Bridges) && (s.Join? || Elsewhere(s, ListMembers))
  {
    EntrySpans(cfg, ifaces);
    forall s | s in EntrySteps(cfg, ifaces)
      ensures Elsewhere(s, Interfaces) && Elsewhere(s, Bridges) && (s.Join? || Elsewhere(s, ListMembers))
    {
      if !s.Raise? { PhaseOf(EntrySteps(cfg, ifaces), 0, 10, s); }
    }
  }

  lemma NotMemberAfter(cfg: Config, ifaces: seq<string>, mgmt: Option<string>, d: Device)
    requires Bridging(cfg) && !Settled(Join(ListMembers, cfg.sector.value.bridge, "list", LAN), d)
    ensures var f := Run(OnboardSteps(cfg, ifaces, mgmt), d).0;
            !Member(TableOf(f, ListMembers).rows, cfg.sector.value.bridge, "list", LAN)
  {
    var c := cfg.sector.value;
    var u, rest := BeforeBridge(cfg, ifaces, c), AfterBridge(cfg, c, mgmt);
    var step := EnsureRow(Bridges, "name", c.bridge, map["name" := c.bridge]);
    OnboardAtBridge(cfg, ifaces, mgmt);
    RunSplit(u, [step] + rest, d);
    BeforeBridgeElsewhere(cfg, ifaces, c);
    NoEarlyMember(u, d, c.bridge);
    AfterBridgeElsewhere(cfg, c, mgmt);
    RunElsewhere([step] + rest, Run(u, d).0, ListMembers);
  }

  lemma AfterBridgeElsewhere(cfg: Config, c: SectorConfig, mgmt: Option<string>)
    ensures AllElsewhere([EnsureRow(Bridges, "name", c.bridge, map["name" := c.bridge])] + AfterBridge(cfg, c, mgmt),
                         ListMembers)
  {
    AfterBridgeSpans(cfg, c, mgmt);
    SpansElsewhere(AfterBridge(cfg, c, mgmt), 12, 25, ListMembers);
    ElsewhereCons(EnsureRow(Bridges, "name", c.bridge, map["name" := c.bridge]), AfterBridge(cfg, c, mgmt),
                  ListMembers);
  }

  lemma AfterBridgeSpans(cfg: Config, c: SectorConfig, mgmt: Option<string>)
    ensures Spans(AfterBridge(cfg, c, mgmt), 12, 25)
  {
    PortSpans(c.bridge, c.ports, mgmt);
    TailSpans(cfg, c);
    CallHomeSpans(cfg.callHome);
    SpansConcat(PortSteps(c.bridge, c.ports, mgmt), TailSteps(cfg, c), 12, 13, 23);
    SpansConcat(PortSteps(c.bridge, c.ports, mgmt) + TailSteps(cfg, c), CallHomeSteps(cfg.callHome), 12, 23, 25);
  }

  lemma ElsewhereCons(s: Step, rest: seq<Step>, m: Menu)
    requires Elsewhere(s, m) && AllElsewhere(rest, m)
    ensures AllElsewhere([s] + rest, m)
  {
  }

  // On a router where the script's own address is the first to match, it finds the bridge next time.
  lemma FindsBridgeAfter(cfg: Config, d: Device, ip: string)
    requires ValidDevice(d) && !Steady(cfg, d, ip) && OnboardRun(cfg, d, ip).1.None?
    ensures MgmtInterface(d, ip) == None && DiscoveryInterfaces(cfg, d, ip) == []
    ensures MgmtInterface(OnboardRun(cfg, d, ip).0, ip) == Some(cfg.sector.value.bridge)
  {
    var c := cfg.sector.value;
    var rows := TableOf(d, Addresses).rows;
    MgmtAfterAppend(rows, Row(0, map[]), ip);
    var u, v := EntrySteps(cfg, []) + HeadSteps(c), ServiceSteps(cfg, c) + CallHomeSteps(cfg.callHome);
    var ports := PortSteps(c.bridge, c.ports, None);
    var before := Run(u + ports, d).0;
    AroundElsewhere(cfg, [], c);
    assert TableOf(before, Addresses) == TableOf(d, Addresses) by {
      PortsElsewhere(c.bridge, c.ports, None);
      RunElsewhere(u + ports, d, Addresses);
    }
    OnboardAround(cfg, [], None);
    RunSplit(u + ports, [AddressStep(c)] + v, d);
    assert ([AddressStep(c)] + v)[1..] == v;
    AddressRevealsBridge(c, before, ip);
    RunElsewhere(v, Apply(AddressStep(c), before).value, Addresses);
  }

  lemma AddressRevealsBridge(c: SectorConfig, d: Device, ip: string)
    requires !Addressed(TableOf(d, Addresses).rows, ip) && ip + "/" <= c.address && Apply(AddressStep(c), d).Ok?
    ensures MgmtInterface(Apply(AddressStep(c), d).value, ip) == Some(c.bridge)
  {
    var rows := TableOf(d, Addresses).rows;
    var i := First(rows, "address", c.address);
    if i < |rows| { assert OnAddress(rows[i], ip); }
    MgmtAfterAppend(rows, Row(TableOf(d, Addresses).nextId, AddressStep(c).attrs), ip);
  }

  lemma SettingKept(s: Step, d: Device, setting: Setting)
    requires !(s.Configure? && s.setting == setting) && Apply(s, d).Ok?
    ensures setting in Apply(s, d).value.settings <==> setting in d.settings
    ensures setting in d.settings ==> Apply(s, d).value.settings[setting] == d.settings[setting]
  {
    match s
    case EnsureRow(_, _, _, _) =>
    case Upsert(_, _, _) =>
    case Patch(_, _, _) =>
    case Join(_, _, _, _) =>
    case LiftFirst(_, _) =>
    case Configure(_, _, _) =>
  }

  lemma {:induction false} SettingsKept(steps: seq<Step>, d: Device, setting: Setting)
    requires forall s :: s in steps ==> !(s.Configure? && s.setting == setting)
    ensures var f := Run(steps, d).0;
            (setting in f.settings <==> setting in d.settings)
            && (setting in d.settings ==> f.settings[setting] == d.settings[setting])
  {
    if steps == [] {
    } else if Apply(steps[0], d).Ok? {
      SettingKept(steps[0], d, setting);
      SettingsKept(steps[1..], Apply(steps[0], d).value, setting);
    }
  }

  lemma NoDiscoveryPhases(cfg: Config)
    ensures forall s :: s in OnboardSteps(cfg, [], None) ==> Usual(s) && (s.Raise? || !(4 <= Phase(s) < 9))
  {
    OnboardSpans(cfg, [], None);
    forall s | s in OnboardSteps(cfg, [], None) && !s.Raise?
      ensures !(4 <= Phase(s) < 9)
    {
      OnboardSegments(cfg, [], None, s);
    }
  }

  lemma PhasesElsewhere(s: Step)
    requires Usual(s) && (s.Raise? || !(4 <= Phase(s) < 9))
    ensures Elsewhere(s, InterfaceLists) && Elsewhere(s, ListMembers)
    ensures s.Configure? ==> s.setting !in {Discovery, MacServer, MacWinbox}
  {
  }

  // A run without discovery, or any part of it, leaves everything discovery is about alone.
  lemma DiscoveringKept(cfg: Config, part: seq<Step>, d: Device, bridge: string)
    requires forall s :: s in part ==> s in OnboardSteps(cfg, [], None)
    ensures Discovering(Run(part, d).0, bridge) == Discovering(d, bridge)
  {
    NoDiscoveryPhases(cfg);
    forall s | s in part
      ensures Elsewhere(s, InterfaceLists) && Elsewhere(s, ListMembers)
      ensures s.Configure? ==> s.setting !in {Discovery, MacServer, MacWinbox}
    {
      PhasesElsewhere(s);
    }
    UntouchedDiscovery(part, d, bridge);
  }

  lemma UntouchedDiscovery(part: seq<Step>, d: Device, bridge: string)
    requires forall s :: s in part ==> Elsewhere(s, InterfaceLists) && Elsewhere(s, ListMembers)
    requires forall s :: s in part ==> (s.Configure? ==> s.setting !in {Discovery, MacServer, MacWinbox})
    ensures Discovering(Run(part, d).0, bridge) == Discovering(d, bridge)
  {
    RunElsewhere(part, d, InterfaceLists);
    RunElsewhere(part, d, ListMembers);
    SettingsKept(part, d, Discovery);
    SettingsKept(part, d, MacServer);
    SettingsKept(part, d, MacWinbox);
  }

  lemma DiscoveryOfBridge(bridge: string)
    ensures DiscoverySteps([bridge]) ==
            [ EnsureRow(InterfaceLists, "name", LAN, map["name" := LAN]), Join(ListMembers, bridge, "list", LAN),
              Configure(Discovery, map["discover-interface-list" := LAN], true),
              Configure(MacServer, map["allowed-interface-list" := LAN], true),
              Configure(MacWinbox, map["allowed-interface-list" := LAN], true) ]
  {
    assert ListSteps([bridge]) == [Join(ListMembers, bridge, "list", LAN)];
  }

  lemma SettingsIff(d: Device)
    ensures (forall s :: s in {Discovery, MacServer, MacWinbox} && s in d.settings ==>
               Includes(d.settings[s], if s == Discovery then map["discover-interface-list" := LAN]
                                       else map["allowed-interface-list" := LAN]))
            <==>
            (Established(Configure(Discovery, map["discover-interface-list" := LAN], true), d)
             && Established(Configure(MacServer, map["allowed-interface-list" := LAN], true), d)
             && Established(Configure(MacWinbox, map["allowed-interface-list" := LAN], true), d))
  {
  }

  lemma DiscoveringEstablished(d: Device, bridge: string)
    requires Any(Printed(d, Interfaces), "name", bridge)
    ensures Discovering(d, bridge) <==> forall s :: s in DiscoverySteps([bridge]) ==> Established(s, d)
  {
    DiscoveryOfBridge(bridge);
    SettingsIff(d);
    var steps := DiscoverySteps([bridge]);
    FiveEstablished(steps[0], steps[1], steps[2], steps[3], steps[4], d);
    assert steps == [steps[0], steps[1], steps[2], steps[3], steps[4]];
  }

  lemma FiveEstablished(a: Step, b: Step, c: Step, e: Step, f: Step, d: Device)
    ensures (forall s :: s in [a, b, c, e, f] ==> Established(s, d))
            <==> Established(a, d) && Established(b, d) && Established(c, d) && Established(e, d) && Established(f, d)
  {
    var all := [a, b, c, e, f];
    assert a in all && b in all && c in all && e in all && f in all;
  }

  lemma SecondRunSteps(cfg: Config, bridge: string, s: Step)
    requires s in OnboardSteps(cfg, [bridge], Some(bridge))
    ensures s in OnboardSteps(cfg, [], None) || s in DiscoverySteps([bridge])
  {
    if s in EntrySteps(cfg, [bridge]) {
    } else if cfg.applySector && s in SectorSteps(cfg, Some(bridge)) {
      if Bridging(cfg) {
        var c := cfg.sector.value;
        PortsElsewhere(c.bridge, c.ports, Some(bridge));
      }
      assert s in SectorSteps(cfg, None);
    }
  }

  // The guessed bridge: a second run then starts discovery on it.
  lemma UnsteadyIff(cfg: Config, d: Device, f: Device, ip: string)
    requires ValidDevice(d) && !Steady(cfg, d, ip) && OnboardRun(cfg, d, ip) == (f, None)
    ensures OnboardRun(cfg, f, ip) == (f, None) <==> Discovering(d, cfg.sector.value.bridge)
  {
    var bridge := cfg.sector.value.bridge;
    var steps, steps' := OnboardSteps(cfg, [], None), OnboardSteps(cfg, [bridge], Some(bridge));
    FindsBridgeAfter(cfg, d, ip);
    BridgeExistsAfter(cfg, [], None, d);
    DiscoveringKept(cfg, steps, d, bridge);
    DiscoveringEstablished(f, bridge);
    OnboardOrdered(cfg, [], None, d);
    RunKeepsValid(steps, d);
    if OnboardRun(cfg, f, ip) == (f, None) {
      NoOpRunIsEstablished(cfg, [bridge], Some(bridge), f);
    }
    if Discovering(d, bridge) {
      CompletedAreEstablished(steps, d);
      OnboardOrdered(cfg, [bridge], Some(bridge), f);
      forall i | 0 <= i < |steps'|
        ensures Established(steps'[i], f)
      {
        SecondRunSteps(cfg, bridge, steps'[i]);
        assert steps'[i] in steps || steps'[i] in DiscoverySteps([bridge]);
      }
      EstablishedRunIsNoOp(steps', f);
    }
  }

  // Steady, but not clear: a second run still has to make the bridge a member.
  lemma NotClearNotIdempotent(cfg: Config, d: Device, f: Device, ip: string)
    requires ValidDevice(d) && Steady(cfg, d, ip) && OnboardRun(cfg, d, ip) == (f, None)
    requires !Clear(cfg, DiscoveryInterfaces(cfg, d, ip), d)
    ensures OnboardRun(cfg, f, ip) != (f, None)
  {
    var ifaces, mgmt := DiscoveryInterfaces(cfg, d, ip), MgmtInterface(d, ip);
    var c := cfg.sector.value;
    SameDiscovery(cfg, d, f, ip);
    BridgeExistsAfter(cfg, ifaces, mgmt, d);
    OnboardSpans(cfg, ifaces, mgmt);
    RunKeepsValid(OnboardSteps(cfg, ifaces, mgmt), d);
    NotMemberAfter(cfg, ifaces, mgmt, d);
    if OnboardRun(cfg, f, ip) == (f, None) { SecondRunJoins(cfg, ifaces, MgmtInterface(f, ip), c.bridge, f); }
  }

  lemma SecondRunJoins(cfg: Config, ifaces: seq<string>, mgmt: Option<string>, bridge: string, f: Device)
    requires ValidDevice(f) && Clear(cfg, ifaces, f) && Run(OnboardSteps(cfg, ifaces, mgmt), f) == (f, None)
    requires bridge in ifaces && Any(Printed(f, Interfaces), "name", bridge)
    ensures Member(TableOf(f, ListMembers).rows, bridge, "list", LAN)
  {
    NoOpRunIsEstablished(cfg, ifaces, mgmt, f);
    JoinIsStep(cfg, ifaces, mgmt, bridge);
  }

  lemma SameDiscovery(cfg: Config, d: Device, f: Device, ip: string)
    requires Bridging(cfg) && Steady(cfg, d, ip) && OnboardRun(cfg, d, ip) == (f, None)
    ensures DiscoveryInterfaces(cfg, f, ip) == DiscoveryInterfaces(cfg, d, ip)
  {
    var ifaces, mgmt := DiscoveryInterfaces(cfg, d, ip), MgmtInterface(d, ip);
    var c := cfg.sector.value;
    FailureIsReached(OnboardSteps(cfg, ifaces, mgmt), d);
    OnboardAround(cfg, ifaces, mgmt);
    AroundElsewhere(cfg, ifaces, c);
    MgmtAlong(EntrySteps(cfg, ifaces) + HeadSteps(c), c, mgmt,
              ServiceSteps(cfg, c) + CallHomeSteps(cfg.callHome), d, f, ip);
  }

  // A known or configured discovery: the second run repeats the same steps.
  lemma SteadyIff(cfg: Config, d: Device, f: Device, ip: string)
    requires ValidDevice(d) && Steady(cfg, d, ip) && OnboardRun(cfg, d, ip) == (f, None)
    ensures OnboardRun(cfg, f, ip) == (f, None) <==> Clear(cfg, DiscoveryInterfaces(cfg, d, ip), d)
  {
    if Clear(cfg, DiscoveryInterfaces(cfg, d, ip), d) {
      FailureIsReached(OnboardSteps(cfg, DiscoveryInterfaces(cfg, d, ip), MgmtInterface(d, ip)), d);
      OnboardRestart(cfg, d, f, ip);
    } else {
      NotClearNotIdempotent(cfg, d, f, ip);
    }
  }

  lemma JoinIsStep(cfg: Config, ifaces: seq<string>, mgmt: Option<string>, iface: string)
    requires iface in ifaces
    ensures Join(ListMembers, iface, "list", LAN) in OnboardSteps(cfg, ifaces, mgmt)
  {
    var i :| 0 <= i < |ifaces| && ifaces[i] == iface;
    assert ListSteps(ifaces)[i] == Join(ListMembers, iface, "list", LAN);
    assert Join(ListMembers, iface, "list", LAN) in DiscoverySteps(ifaces);
  }

  // The claim "the script is idempotent" holds of a successful run exactly when the
  // router is rerun safe before it.
  lemma OnboardIdempotentIff(cfg: Config, d: Device, f: Device, ip: string)
    requires ValidDevice(d) && OnboardRun(cfg, d, ip) == (f, None)
    ensures OnboardRun(cfg, f, ip) == (f, None) <==> RerunSafe(cfg, d, ip)
  {
    if Steady(cfg, d, ip) { SteadyIff(cfg, d, f, ip); } else { UnsteadyIff(cfg, d, f, ip); }
  }
}
