/**
  What a successful run leaves on the router, menu by menu and field by field, as a function
  of the configuration and of what was there before.
 */
module PreloaderResult {
  import opened Basics
  import opened RouterOs
  import opened Reconciler
  import opened Preloader
  import opened FirewallOrder

  // A row with this value: left as it is where there is one, else added with these fields.
  predicate RowEnsured(t: Table, t': Table, field: string, value: string, attrs: Attrs) {
    t' == if exists r :: r in t.rows && Has(r, field, value) then t
          else Table(t.rows + [Row(t.nextId, attrs)], t.nextId + 1)
  }

  // The first row with this value gets these fields, its others and all other rows stay; if
  // there is none, one is added.
  predicate RowSet(t: Table, t': Table, field: string, value: string, attrs: Attrs) {
    var i := First(t.rows, field, value);
    t' == if i < |t.rows| then t.(rows := t.rows[i := t.rows[i].(attrs := t.rows[i].attrs + attrs)])
          else Table(t.rows + [Row(t.nextId, attrs[field := value])], t.nextId + 1)
  }

  ghost predicate Known(d: Device, iface: string) {
    exists r :: r in Printed(d, Interfaces) && Has(r, "name", iface)
  }

  // The rows of one interface.
  function RowsOf(d: Device, m: Menu, iface: string): seq<Row> {
    Select(TableOf(d, m).rows, "interface", iface)
  }

  lemma KnownAny(d: Device, iface: string)
    ensures Known(d, iface) <==> Any(Printed(d, Interfaces), "name", iface)
  {
  }

  /* A menu that one step of a run is about */

  predicate Elsewhere(s: Step, m: Menu) {
    s.Configure? || s.Raise? || s.menu != m
  }

  lemma ElsewhereKeeps(s: Step, d: Device, m: Menu)
    requires Elsewhere(s, m) && Apply(s, d).Ok?
    ensures TableOf(Apply(s, d).value, m) == TableOf(d, m)
  {
  }

  lemma {:induction false} RunElsewhere(steps: seq<Step>, d: Device, m: Menu)
    requires forall s :: s in steps ==> Elsewhere(s, m)
    ensures TableOf(Run(steps, d).0, m) == TableOf(d, m)
  {
    if steps == [] {
    } else if Apply(steps[0], d).Ok? {
      ElsewhereKeeps(steps[0], d, m);
      RunElsewhere(steps[1..], Apply(steps[0], d).value, m);
    }
  }

  lemma CutAt<T>(s: seq<T>, k: nat)
    requires k < |s|
    ensures s == s[..k] + ([s[k]] + s[k + 1..])
  {
  }

  lemma ElsewhereSlice(steps: seq<Step>, m: Menu, lo: nat, hi: nat)
    requires lo <= hi <= |steps| && forall i :: lo <= i < hi ==> Elsewhere(steps[i], m)
    ensures forall s :: s in steps[lo..hi] ==> Elsewhere(s, m)
  {
  }

  // The state in which step k is taken, in a run none of whose other steps is about the menu.
  lemma Around(steps: seq<Step>, k: nat, d: Device, m: Menu) returns (mid: Device)
    requires ValidDevice(d) && AllWellShaped(steps) && k < |steps| && Run(steps, d).1 == None
    requires forall i :: 0 <= i < |steps| && i != k ==> Elsewhere(steps[i], m)
    ensures ValidDevice(mid) && TableOf(mid, m) == TableOf(d, m) && Apply(steps[k], mid).Ok?
    ensures TableOf(Run(steps, d).0, m) == TableOf(Apply(steps[k], mid).value, m)
  {
    var u, v := steps[..k], steps[k + 1..];
    CutAt(steps, k);
    RunSplit(u, [steps[k]] + v, d);
    mid := Run(u, d).0;
    RunKeepsValid(u, d);
    ElsewhereSlice(steps, m, 0, k);
    RunElsewhere(u, d, m);
    assert ([steps[k]] + v)[1..] == v;
    ElsewhereSlice(steps, m, k + 1, |steps|);
    assert v == steps[k + 1..|steps|];
    RunElsewhere(v, Apply(steps[k], mid).value, m);
  }

  // Within its span a list has one step at most about such a menu.
  predicate Single(m: Menu, hi: nat) {
    m !in {Filter, ListMembers, BridgePorts} && (m == DhcpServers ==> hi <= 22)
  }

  lemma OthersElsewhere(steps: seq<Step>, k: nat, lo: nat, hi: nat)
    requires Spans(steps, lo, hi) && k < |steps| && !steps[k].Configure? && !steps[k].Raise?
    requires Single(steps[k].menu, hi)
    ensures forall i :: 0 <= i < |steps| && i != k ==> Elsewhere(steps[i], steps[k].menu)
  {
    forall i | 0 <= i < |steps| && i != k ensures Elsewhere(steps[i], steps[k].menu) {
      assert if i < k then Before(steps[i], steps[k]) else Before(steps[k], steps[i]);
      assert Usual(steps[i]) && Usual(steps[k]);
    }
  }

  lemma EnsureResult(steps: seq<Step>, s: Step, d: Device, lo: nat, hi: nat)
    requires ValidDevice(d) && Spans(steps, lo, hi) && Run(steps, d).1 == None
    requires s in steps && s.EnsureRow? && Single(s.menu, hi)
    ensures RowEnsured(TableOf(d, s.menu), TableOf(Run(steps, d).0, s.menu), s.field, s.value, s.attrs)
  {
    var k :| 0 <= k < |steps| && steps[k] == s;
    OthersElsewhere(steps, k, lo, hi);
    var mid := Around(steps, k, d, s.menu);
    assert WellShaped(s) && Printed(mid, s.menu) == TableOf(d, s.menu).rows;
  }

  lemma UpsertResult(steps: seq<Step>, s: Step, d: Device, lo: nat, hi: nat)
    requires ValidDevice(d) && Spans(steps, lo, hi) && Run(steps, d).1 == None
    requires s in steps && s.Upsert? && Single(s.menu, hi)
    ensures RowSet(TableOf(d, s.menu), TableOf(Run(steps, d).0, s.menu), Key(s.menu), s.value, s.attrs)
  {
    var k :| 0 <= k < |steps| && steps[k] == s;
    OthersElsewhere(steps, k, lo, hi);
    var mid := Around(steps, k, d, s.menu);
    UpsertLeaves(s, mid);
  }

  lemma UpsertLeaves(s: Step, d: Device)
    requires s.Upsert? && WellShaped(s) && ValidDevice(d) && Apply(s, d).Ok?
    ensures RowSet(TableOf(d, s.menu), TableOf(Apply(s, d).value, s.menu), Key(s.menu), s.value, s.attrs)
  {
    var i := First(TableOf(d, s.menu).rows, Key(s.menu), s.value);
    if i < |TableOf(d, s.menu).rows| { IdLocates(s.menu, TableOf(d, s.menu), i); }
  }

  /* Settings */

  // The setting gets these fields and keeps its others.
  predicate FieldsPut(d: Device, d': Device, setting: Setting, attrs: Attrs) {
    setting in d.settings && setting in d'.settings && d'.settings[setting] == d.settings[setting] + attrs
  }

  predicate SettingKept(d: Device, d': Device, setting: Setting) {
    (setting in d.settings <==> setting in d'.settings)
    && (setting in d.settings ==> d'.settings[setting] == d.settings[setting])
  }

  predicate About(s: Step, setting: Setting) {
    s.Configure? && s.setting == setting
  }

  lemma {:induction false} RunKeepsSetting(steps: seq<Step>, d: Device, setting: Setting)
    requires forall s :: s in steps ==> !About(s, setting)
    ensures SettingKept(d, Run(steps, d).0, setting)
  {
    if steps == [] {
    } else if Apply(steps[0], d).Ok? {
      StepKeepsSetting(steps[0], d, setting);
      RunKeepsSetting(steps[1..], Apply(steps[0], d).value, setting);
    }
  }

  lemma StepKeepsSetting(s: Step, d: Device, setting: Setting)
    requires !About(s, setting) && Apply(s, d).Ok?
    ensures SettingKept(d, Apply(s, d).value, setting)
  {
    if !s.Configure? { StepKeepsSettings(s, d); }
  }

  lemma StepKeepsSettings(s: Step, d: Device)
    requires !s.Configure? && Apply(s, d).Ok?
    ensures Apply(s, d).value.settings == d.settings
  {
  }

  lemma ConfigureResult(steps: seq<Step>, s: Step, d: Device, lo: nat, hi: nat)
    requires Spans(steps, lo, hi) && Run(steps, d).1 == None && s in steps && s.Configure?
    ensures FieldsPut(d, Run(steps, d).0, s.setting, s.attrs)
            || (s.quiet && s.setting !in d.settings && s.setting !in Run(steps, d).0.settings)
  {
    var k :| 0 <= k < |steps| && steps[k] == s;
    OtherSettings(steps, k, lo, hi);
    SettingAt(steps, k, d);
  }

  lemma AboutSlice(steps: seq<Step>, setting: Setting, lo: nat, hi: nat)
    requires lo <= hi <= |steps| && forall i :: lo <= i < hi ==> !About(steps[i], setting)
    ensures forall s :: s in steps[lo..hi] ==> !About(s, setting)
  {
  }

  lemma SettingAt(steps: seq<Step>, k: nat, d: Device)
    requires k < |steps| && steps[k].Configure? && Run(steps, d).1 == None
    requires forall i :: 0 <= i < |steps| && i != k ==> !About(steps[i], steps[k].setting)
    ensures var d' := Run(steps, d).0;
            var s := steps[k];
            FieldsPut(d, d', s.setting, s.attrs)
            || (s.quiet && s.setting !in d.settings && s.setting !in d'.settings)
  {
    var s, u, v := steps[k], steps[..k], steps[k + 1..];
    CutAt(steps, k);
    AboutSlice(steps, s.setting, 0, k);
    AboutSlice(steps, s.setting, k + 1, |steps|);
    assert v == steps[k + 1..|steps|];
    SettingAround(u, s, v, d);
  }

  lemma SettingAround(u: seq<Step>, s: Step, v: seq<Step>, d: Device)
    requires s.Configure? && Run(u + ([s] + v), d).1 == None
    requires (forall t :: t in u ==> !About(t, s.setting)) && (forall t :: t in v ==> !About(t, s.setting))
    ensures var d' := Run(u + ([s] + v), d).0;
            FieldsPut(d, d', s.setting, s.attrs)
            || (s.quiet && s.setting !in d.settings && s.setting !in d'.settings)
  {
    RunSplit(u, [s] + v, d);
    assert ([s] + v)[1..] == v;
    var mid := Run(u, d).0;
    RunKeepsSetting(u, d, s.setting);
    RunKeepsSetting(v, Apply(s, mid).value, s.setting);
  }

  lemma OtherSettings(steps: seq<Step>, k: nat, lo: nat, hi: nat)
    requires Spans(steps, lo, hi) && k < |steps| && steps[k].Configure?
    ensures forall i :: 0 <= i < |steps| && i != k ==> !About(steps[i], steps[k].setting)
  {
    forall i | 0 <= i < |steps| && i != k ensures !About(steps[i], steps[k].setting) {
      assert if i < k then Before(steps[i], steps[k]) else Before(steps[k], steps[i]);
    }
  }

  /* Joining interfaces to a bridge or a list */

  ghost predicate Joins(steps: seq<Step>, m: Menu, groupField: string, group: string) {
    && m in {BridgePorts, ListMembers} && groupField != "interface"
    && forall s :: s in steps ==> s.Join? && s == Join(m, s.iface, groupField, group)
  }

  ghost predicate Asked(steps: seq<Step>, iface: string) {
    exists s :: s in steps && s.Join? && s.iface == iface
  }

  // The rows of an interface that is to be joined: as they were if it is a member already,
  // else one more.
  ghost predicate Joined(rows: seq<Row>, rows': seq<Row>, iface: string, groupField: string, group: string) {
    if exists r :: r in rows && Has(r, groupField, group) then rows' == rows
    else |rows'| == |rows| + 1 && rows'[..|rows|] == rows
         && rows'[|rows|].attrs == map["interface" := iface, groupField := group]
  }

  lemma {:induction false} SelectAppend(rows: seq<Row>, r: Row, field: string, value: string)
    ensures Select(rows + [r], field, value) == Select(rows, field, value) + (if Has(r, field, value) then [r] else [])
  {
    if rows == [] {
      assert [r][1..] == [];
    } else {
      SelectAppend(rows[1..], r, field, value);
      assert (rows + [r])[1..] == rows[1..] + [r];
    }
  }

  lemma MemberSelected(rows: seq<Row>, iface: string, groupField: string, group: string)
    ensures Member(rows, iface, groupField, group)
            <==> exists r :: r in Select(rows, "interface", iface) && Has(r, groupField, group)
  {
    SelectHead(rows, "interface", iface);
  }

  lemma JoinOne(s: Step, d: Device, x: string)
    requires s.Join? && WellShaped(s) && Apply(s, d).Ok?
    ensures var d' := Apply(s, d).value;
            && Printed(d', Interfaces) == Printed(d, Interfaces)
            && if x == s.iface && Known(d, x)
               then Joined(RowsOf(d, s.menu, x), RowsOf(d', s.menu, x), x, s.groupField, s.group)
               else RowsOf(d', s.menu, x) == RowsOf(d, s.menu, x)
  {
    KnownAny(d, s.iface);
    MemberSelected(TableOf(d, s.menu).rows, s.iface, s.groupField, s.group);
    var d' := Apply(s, d).value;
    if d' != d {
      var r := Row(TableOf(d, s.menu).nextId, map["interface" := s.iface, s.groupField := s.group]);
      SelectAppend(TableOf(d, s.menu).rows, r, "interface", x);
      assert TableOf(d', s.menu).rows == TableOf(d, s.menu).rows + [r];
    }
  }

  // Interfaces that are asked for and known end up joined, the rows of all others stay.
  lemma {:induction false} JoinsResult(steps: seq<Step>, m: Menu, groupField: string, group: string, d: Device, x: string)
    requires Joins(steps, m, groupField, group) && Run(steps, d).1 == None
    ensures var d' := Run(steps, d).0;
            && Printed(d', Interfaces) == Printed(d, Interfaces)
            && if Asked(steps, x) && Known(d, x) then Joined(RowsOf(d, m, x), RowsOf(d', m, x), x, groupField, group)
               else RowsOf(d', m, x) == RowsOf(d, m, x)
  {
    if steps == [] {
    } else {
      var s, rest := steps[0], steps[1..];
      assert s in steps && forall t :: t in rest ==> t in steps;
      JoinOne(s, d, x);
      JoinsResult(rest, m, groupField, group, Apply(s, d).value, x);
      assert Asked(steps, x) <==> s.iface == x || Asked(rest, x);
      if s.iface == x && Known(d, x) { JoinedTwice(d, Apply(s, d).value, m, x, groupField, group); }
    }
  }

  lemma JoinedTwice(d: Device, d': Device, m: Menu, x: string, groupField: string, group: string)
    requires Joined(RowsOf(d, m, x), RowsOf(d', m, x), x, groupField, group) && groupField != "interface"
    ensures exists r :: r in RowsOf(d', m, x) && Has(r, groupField, group)
  {
    var rows, rows' := RowsOf(d, m, x), RowsOf(d', m, x);
    if exists r :: r in rows && Has(r, groupField, group) {
    } else {
      assert Has(rows'[|rows|], groupField, group) && rows'[|rows|] in rows';
    }
  }

  /* Which menus a part of the script is about */

  function PhasesOf(m: Menu): set<nat> {
    match m
    case Interfaces => {}
    case Services => {1}
    case Groups => {2}
    case Users => {3}
    case InterfaceLists => {4}
    case ListMembers => {5}
    case Filter => {9}
    case DhcpClients => {10}
    case Bridges => {11}
    case BridgePorts => {12}
    case Addresses => {13}
    case Pools => {14}
    case DhcpServers => {15, 22}
    case DhcpNetworks => {16}
    case Nat => {18}
    case HotspotProfiles => {19}
    case Hotspots => {20}
    case WalledGarden => {21}
    case Scripts => {23}
    case Schedulers => {24}
  }

  lemma SpanElsewhere(steps: seq<Step>, lo: nat, hi: nat, m: Menu)
    requires Spans(steps, lo, hi) && forall n :: n in PhasesOf(m) ==> n < lo || hi <= n
    ensures forall s :: s in steps ==> Elsewhere(s, m)
  {
    forall s | s in steps ensures Elsewhere(s, m) {
      var i :| 0 <= i < |steps| && steps[i] == s;
      if !Elsewhere(s, m) { PhaseInMenu(s); }
    }
  }

  lemma SpanSpares(steps: seq<Step>, lo: nat, hi: nat, m: Menu, d: Device)
    requires Spans(steps, lo, hi) && forall n :: n in PhasesOf(m) ==> n < lo || hi <= n
    ensures TableOf(Run(steps, d).0, m) == TableOf(d, m)
  {
    SpanElsewhere(steps, lo, hi, m);
    RunElsewhere(steps, d, m);
  }

  lemma PhaseInMenu(s: Step)
    requires Usual(s) && !s.Configure? && !s.Raise?
    ensures Phase(s) in PhasesOf(s.menu)
  {
  }

  /* The sector configuration */

  // A run that found the router in state d went through and left it in state d'.
  ghost predicate SectorDone(cfg: Config, d: Device, ip: string, d': Device) {
    ValidDevice(d) && cfg.sector.Some? && SectorRun(cfg, d, ip) == (d', None)
  }

  // The parts such a run consists of, and the span of the whole.
  lemma SectorParts(cfg: Config, d: Device, ip: string, d': Device)
    returns (c: SectorConfig, ports: seq<Step>, steps: seq<Step>)
    requires SectorDone(cfg, d, ip, d')
    ensures cfg.sector == Some(c) && Complete(c) && ports == PortSteps(c.bridge, c.ports, MgmtInterface(d, ip))
    ensures steps == HeadSteps(c) + ports + TailSteps(cfg, c) && Run(steps, d) == (d', None)
    ensures Spans(steps, 10, 23) && Spans(HeadSteps(c), 10, 12) && Spans(ports, 12, 13)
    ensures Spans(TailSteps(cfg, c), 13, 23)
  {
    c := cfg.sector.value;
    ports := PortSteps(c.bridge, c.ports, MgmtInterface(d, ip));
    steps := SectorSteps(cfg, MgmtInterface(d, ip));
    SectorSpans(cfg, MgmtInterface(d, ip));
    HeadSpans(c);
    PortSpans(c.bridge, c.ports, MgmtInterface(d, ip));
    TailSpans(cfg, c);
  }

  // An uplink client, unless that is switched off.
  lemma ClientResult(cfg: Config, d: Device, ip: string, d': Device)
    requires SectorDone(cfg, d, ip, d')
    ensures var c := cfg.sector.value;
            if c.dhcpClientOnWan
            then RowEnsured(TableOf(d, DhcpClients), TableOf(d', DhcpClients), "interface", c.wan,
                            map["interface" := c.wan, "disabled" := "no", "add-default-route" := "yes",
                                "use-peer-dns" := "yes", "comment" := "ISP-WAN"])
            else TableOf(d', DhcpClients) == TableOf(d, DhcpClients)
  {
    var c := cfg.sector.value;
    if c.dhcpClientOnWan {
      ClientAdded(cfg, d, ip, d');
      ClientFields(TableOf(d, DhcpClients), TableOf(d', DhcpClients), c);
    } else {
      var head, ports, tail, d1, d2 := ThreeParts(cfg, d, ip, d');
      ClientAbsent(c, ports, tail, d, d1, d2);
    }
  }

  lemma ClientAdded(cfg: Config, d: Device, ip: string, d': Device)
    requires SectorDone(cfg, d, ip, d') && cfg.sector.value.dhcpClientOnWan
    ensures var s := HeadSteps(cfg.sector.value)[0];
            s.EnsureRow? && RowEnsured(TableOf(d, DhcpClients), TableOf(d', DhcpClients), s.field, s.value, s.attrs)
  {
    var c, ports, steps := SectorParts(cfg, d, ip, d');
    assert steps[0] == HeadSteps(c)[0];
    EnsureResult(steps, HeadSteps(c)[0], d, 10, 23);
  }

  lemma ClientAbsent(c: SectorConfig, ports: seq<Step>, tail: seq<Step>, d: Device, d1: Device, d2: Device)
    requires !c.dhcpClientOnWan && d1 == Run(HeadSteps(c), d).0 && d2 == Run(ports, d1).0
    requires Spans(ports, 12, 13) && Spans(tail, 13, 23)
    ensures TableOf(Run(tail, d2).0, DhcpClients) == TableOf(d, DhcpClients)
  {
    HeadSpares(c, d);
    AfterHead(ports, tail, d1);
  }

  lemma HeadSpares(c: SectorConfig, d: Device)
    requires !c.dhcpClientOnWan
    ensures TableOf(Run(HeadSteps(c), d).0, DhcpClients) == TableOf(d, DhcpClients)
  {
    NoClient(c);
    RunElsewhere(HeadSteps(c), d, DhcpClients);
  }

  lemma AfterHead(ports: seq<Step>, tail: seq<Step>, d: Device)
    requires Spans(ports, 12, 13) && Spans(tail, 13, 23)
    ensures TableOf(Run(tail, Run(ports, d).0).0, DhcpClients) == TableOf(d, DhcpClients)
  {
    SpanSpares(ports, 12, 13, DhcpClients, d);
    SpanSpares(tail, 13, 23, DhcpClients, Run(ports, d).0);
  }

  lemma ClientFields(t: Table, t': Table, c: SectorConfig)
    requires c.dhcpClientOnWan
    requires var s := HeadSteps(c)[0]; s.EnsureRow? && RowEnsured(t, t', s.field, s.value, s.attrs)
    ensures RowEnsured(t, t', "interface", c.wan,
                       map["interface" := c.wan, "disabled" := "no", "add-default-route" := "yes",
                           "use-peer-dns" := "yes", "comment" := "ISP-WAN"])
  {
  }

  lemma NoClient(c: SectorConfig)
    requires !c.dhcpClientOnWan
    ensures forall s :: s in HeadSteps(c) ==> Elsewhere(s, DhcpClients)
  {
  }

  // The bridge, and the sector's address on it.
  lemma BridgeResult(cfg: Config, d: Device, ip: string, d': Device)
    requires SectorDone(cfg, d, ip, d')
    ensures var c := cfg.sector.value;
            && RowEnsured(TableOf(d, Bridges), TableOf(d', Bridges), "name", c.bridge, map["name" := c.bridge])
            && RowEnsured(TableOf(d, Addresses), TableOf(d', Addresses), "address", c.address,
                          map["address" := c.address, "interface" := c.bridge])
  {
    var c, ports, steps := SectorParts(cfg, d, ip, d');
    var bridge := HeadSteps(c)[|HeadSteps(c)| - 1];
    assert bridge in HeadSteps(c) && bridge in steps;
    EnsureResult(steps, bridge, d, 10, 23);
    assert AddressStep(c) in TailSteps(cfg, c) && AddressStep(c) in steps;
    EnsureResult(steps, AddressStep(c), d, 10, 23);
  }

  // A step of the last part, and a menu that none of its steps is about.
  lemma TailMember(cfg: Config, d: Device, ip: string, d': Device, s: Step) returns (steps: seq<Step>)
    requires SectorDone(cfg, d, ip, d') && s in ServiceSteps(cfg, cfg.sector.value)
    ensures Spans(steps, 10, 23) && Run(steps, d) == (d', None) && s in steps
  {
    var c, ports;
    c, ports, steps := SectorParts(cfg, d, ip, d');
    assert s in TailSteps(cfg, c);
  }

  lemma TailAbsent(cfg: Config, d: Device, ip: string, d': Device, m: Menu)
    requires SectorDone(cfg, d, ip, d') && m in {Nat, HotspotProfiles, Hotspots, WalledGarden}
    requires forall s :: s in ServiceSteps(cfg, cfg.sector.value) ==> Elsewhere(s, m)
    ensures TableOf(d', m) == TableOf(d, m)
  {
    var head, ports, tail, d1, d2 := ThreeParts(cfg, d, ip, d');
    SpanSpares(head, 10, 12, m, d);
    SpanSpares(ports, 12, 13, m, d1);
    TailSpares(cfg, cfg.sector.value, m, d2);
  }

  lemma TailSpares(cfg: Config, c: SectorConfig, m: Menu, d: Device)
    requires m in {Nat, HotspotProfiles, Hotspots, WalledGarden}
    requires forall s :: s in ServiceSteps(cfg, c) ==> Elsewhere(s, m)
    ensures TableOf(Run(TailSteps(cfg, c), d).0, m) == TableOf(d, m)
  {
    RunElsewhere(TailSteps(cfg, c), d, m);
  }

  // The part of an address before the slash, if it has one.
  predicate HostPart(address: string, host: string) {
    '/' !in host && (address == host || host + "/" <= address)
  }

  lemma {:induction false} HostIsBeforeSlash(address: string, host: string)
    ensures HostPart(address, host) <==> host == BeforeSlash(address)
  {
    if address == "" {
    } else if address[0] == '/' {
      if host != "" && host + "/" <= address { assert host[0] == (host + "/")[0] == address[0]; }
    } else {
      HostIsBeforeSlash(address[1..], BeforeSlash(address[1..]));
      if host == "" {
        assert !(host + "/" <= address);
      } else {
        HostIsBeforeSlash(address[1..], host[1..]);
        assert host == [host[0]] + host[1..];
        assert (host + "/")[1..] == host[1..] + "/";
        assert HostPart(address, host) <==> host[0] == address[0] && HostPart(address[1..], host[1..]);
      }
    }
  }

  // The address pool, and the network with the address as gateway and the server's names.
  lemma PoolResult(cfg: Config, d: Device, ip: string, d': Device, host: string)
    requires SectorDone(cfg, d, ip, d') && HostPart(cfg.sector.value.address, host)
    ensures var c := cfg.sector.value;
            && RowSet(TableOf(d, Pools), TableOf(d', Pools), "name", c.pool, map["ranges" := c.range])
            && RowSet(TableOf(d, DhcpNetworks), TableOf(d', DhcpNetworks), "address", c.network,
                      map["gateway" := host, "dns-server" := if c.dns != "" then c.dns else host])
  {
    var c := cfg.sector.value;
    DhcpMembers(cfg, c);
    UpsertInTail(cfg, d, ip, d', PoolStep(c));
    PoolFields(TableOf(d, Pools), TableOf(d', Pools), c);
    UpsertInTail(cfg, d, ip, d', NetworkStep(c));
    NetworkFields(TableOf(d, DhcpNetworks), TableOf(d', DhcpNetworks), c, host);
  }

  lemma DhcpMembers(cfg: Config, c: SectorConfig)
    ensures PoolStep(c) in ServiceSteps(cfg, c) && NetworkStep(c) in ServiceSteps(cfg, c)
  {
    assert DhcpSteps(c)[0] == PoolStep(c) && DhcpSteps(c)[2] == NetworkStep(c);
    assert forall s :: s in DhcpSteps(c) ==> s in ServiceSteps(cfg, c);
  }

  lemma UpsertInTail(cfg: Config, d: Device, ip: string, d': Device, s: Step)
    requires SectorDone(cfg, d, ip, d') && s in ServiceSteps(cfg, cfg.sector.value)
    requires s.Upsert? && Single(s.menu, 23)
    ensures RowSet(TableOf(d, s.menu), TableOf(d', s.menu), Key(s.menu), s.value, s.attrs)
  {
    var steps := TailMember(cfg, d, ip, d', s);
    UpsertResult(steps, s, d, 10, 23);
  }

  lemma EnsureInTail(cfg: Config, d: Device, ip: string, d': Device, s: Step)
    requires SectorDone(cfg, d, ip, d') && s in ServiceSteps(cfg, cfg.sector.value)
    requires s.EnsureRow? && Single(s.menu, 23)
    ensures RowEnsured(TableOf(d, s.menu), TableOf(d', s.menu), s.field, s.value, s.attrs)
  {
    var steps := TailMember(cfg, d, ip, d', s);
    EnsureResult(steps, s, d, 10, 23);
  }

  // The fields of the steps, written out.
  lemma PoolFields(t: Table, t': Table, c: SectorConfig)
    requires var s := PoolStep(c); RowSet(t, t', Key(s.menu), s.value, s.attrs)
    ensures RowSet(t, t', "name", c.pool, map["ranges" := c.range])
  {
  }

  lemma NetworkFields(t: Table, t': Table, c: SectorConfig, host: string)
    requires HostPart(c.address, host)
    requires var s := NetworkStep(c); RowSet(t, t', Key(s.menu), s.value, s.attrs)
    ensures RowSet(t, t', "address", c.network,
                   map["gateway" := host, "dns-server" := if c.dns != "" then c.dns else host])
  {
    HostIsBeforeSlash(c.address, host);
  }

  lemma ProfileFields(t: Table, t': Table, h: HotspotConfig)
    requires var s := ProfileStep(h); RowSet(t, t', Key(s.menu), s.value, s.attrs)
    ensures RowSet(t, t', "name", h.profile,
                   map["dns-name" := h.dnsName, "login-by" := h.loginBy, "html-directory" := h.htmlDir])
  {
  }

  lemma HotspotFields(t: Table, t': Table, c: SectorConfig, h: HotspotConfig)
    requires var s := HotspotStep(c, h); RowSet(t, t', Key(s.menu), s.value, s.attrs)
    ensures RowSet(t, t', "name", h.server,
                   map["interface" := c.bridge, "address-pool" := c.pool, "profile" := h.profile])
  {
  }

  lemma OtherServices(cfg: Config, c: SectorConfig, m: Menu)
    requires m in {Nat, HotspotProfiles, Hotspots, WalledGarden}
    ensures forall s :: s in DhcpSteps(c) ==> Elsewhere(s, m)
    ensures forall s :: s in DnsSteps(c) ==> Elsewhere(s, m)
    ensures m != Nat ==> forall s :: s in NatSteps(c) ==> Elsewhere(s, m)
    ensures m == Nat ==> forall s :: s in HotspotSteps(c) ==> Elsewhere(s, m)
    ensures forall s :: s in LeaseSteps(cfg.lease, cfg.clearLease, c.server) ==> Elsewhere(s, m)
  {
    DhcpSpans(c);
    DnsSpans(c);
    LeaseSpans(cfg.lease, cfg.clearLease, c.server);
    SpanElsewhere(DhcpSteps(c), 14, 17, m);
    SpanElsewhere(DnsSteps(c), 17, 18, m);
    SpanElsewhere(LeaseSteps(cfg.lease, cfg.clearLease, c.server), 22, 23, m);
    if m == Nat {
      HotspotSpans(c);
      SpanElsewhere(HotspotSteps(c), 19, 22, m);
    } else {
      NatSpans(c);
      SpanElsewhere(NatSteps(c), 18, 19, m);
    }
  }

  lemma NatMember(cfg: Config, c: SectorConfig)
    requires c.masquerade
    ensures NatSteps(c)[0] in ServiceSteps(cfg, c)
  {
    assert NatSteps(c)[0] in NatSteps(c);
  }

  lemma NatFields(t: Table, t': Table, c: SectorConfig)
    requires c.masquerade
    requires var s := NatSteps(c)[0]; RowEnsured(t, t', s.field, s.value, s.attrs)
    ensures RowEnsured(t, t', "comment", "ISP-NAT",
                       map["chain" := "srcnat", "out-interface" := c.wan, "action" := "masquerade",
                           "comment" := "ISP-NAT"])
  {
  }

  // Masquerading on the uplink, unless that is switched off.
  lemma NatResult(cfg: Config, d: Device, ip: string, d': Device)
    requires SectorDone(cfg, d, ip, d')
    ensures var c := cfg.sector.value;
            if c.masquerade
            then RowEnsured(TableOf(d, Nat), TableOf(d', Nat), "comment", "ISP-NAT",
                            map["chain" := "srcnat", "out-interface" := c.wan, "action" := "masquerade",
                                "comment" := "ISP-NAT"])
            else TableOf(d', Nat) == TableOf(d, Nat)
  {
    var c := cfg.sector.value;
    if c.masquerade {
      NatMember(cfg, c);
      EnsureInTail(cfg, d, ip, d', NatSteps(c)[0]);
      NatFields(TableOf(d, Nat), TableOf(d', Nat), c);
    } else {
      WithoutNat(cfg, c);
      TailAbsent(cfg, d, ip, d', Nat);
    }
  }

  lemma WithoutNat(cfg: Config, c: SectorConfig)
    requires !c.masquerade
    ensures forall s :: s in ServiceSteps(cfg, c) ==> Elsewhere(s, Nat)
  {
    OtherServices(cfg, c, Nat);
  }

  // The resolver, where one is configured; no other setting changes.
  lemma DnsResult(cfg: Config, d: Device, ip: string, d': Device)
    requires SectorDone(cfg, d, ip, d')
    ensures var c := cfg.sector.value;
            if c.dns != "" then FieldsPut(d, d', Dns, map["servers" := c.dns, "allow-remote-requests" := "yes"])
            else SettingKept(d, d', Dns)
    ensures forall setting :: setting != Dns ==> SettingKept(d, d', setting)
  {
    var c, ports, steps := SectorParts(cfg, d, ip, d');
    if c.dns != "" {
      steps := TailMember(cfg, d, ip, d', DnsSteps(c)[0]);
      ConfigureResult(steps, DnsSteps(c)[0], d, 10, 23);
    }
    forall setting | setting != Dns || c.dns == "" ensures SettingKept(d, d', setting) {
      if setting != Dns {
        SpanSettings(steps, 10, 23, setting);
        RunKeepsSetting(steps, d, setting);
      } else {
        NoDns(cfg, d, ip, d');
      }
    }
  }

  function PhaseOf(setting: Setting): nat {
    match setting case Identity => 0 case Discovery => 6 case MacServer => 7 case MacWinbox => 8 case Dns => 17
  }

  lemma SpanSettings(steps: seq<Step>, lo: nat, hi: nat, setting: Setting)
    requires Spans(steps, lo, hi) && (PhaseOf(setting) < lo || hi <= PhaseOf(setting))
    ensures forall s :: s in steps ==> !About(s, setting)
  {
    forall s | s in steps ensures !About(s, setting) {
      var i :| 0 <= i < |steps| && steps[i] == s;
    }
  }

  lemma NoDns(cfg: Config, d: Device, ip: string, d': Device)
    requires SectorDone(cfg, d, ip, d') && cfg.sector.value.dns == ""
    ensures SettingKept(d, d', Dns)
  {
    var c, ports, steps := SectorParts(cfg, d, ip, d');
    SpanSettings(HeadSteps(c), 10, 12, Dns);
    SpanSettings(ports, 12, 13, Dns);
    ServicesNoDns(cfg, c);
    RunKeepsSetting(steps, d, Dns);
  }

  lemma ServicesNoDns(cfg: Config, c: SectorConfig)
    requires c.dns == ""
    ensures forall s :: s in ServiceSteps(cfg, c) ==> !About(s, Dns)
  {
    DhcpSpans(c);
    NatSpans(c);
    HotspotSpans(c);
    LeaseSpans(cfg.lease, cfg.clearLease, c.server);
    SpanSettings(DhcpSteps(c), 14, 17, Dns);
    SpanSettings(NatSteps(c), 18, 19, Dns);
    SpanSettings(HotspotSteps(c), 19, 22, Dns);
    SpanSettings(LeaseSteps(cfg.lease, cfg.clearLease, c.server), 22, 23, Dns);
  }

  // The hotspot, where one is configured.
  lemma HotspotResult(cfg: Config, d: Device, ip: string, d': Device)
    requires SectorDone(cfg, d, ip, d')
    ensures var c := cfg.sector.value;
            match c.hotspot
            case None =>
              && TableOf(d', HotspotProfiles) == TableOf(d, HotspotProfiles)
              && TableOf(d', Hotspots) == TableOf(d, Hotspots) && TableOf(d', WalledGarden) == TableOf(d, WalledGarden)
            case Some(h) =>
              && h.dnsName != ""
              && RowSet(TableOf(d, HotspotProfiles), TableOf(d', HotspotProfiles), "name", h.profile,
                        map["dns-name" := h.dnsName, "login-by" := h.loginBy, "html-directory" := h.htmlDir])
              && RowSet(TableOf(d, Hotspots), TableOf(d', Hotspots), "name", h.server,
                        map["interface" := c.bridge, "address-pool" := c.pool, "profile" := h.profile])
              && if h.walledGarden == "" then TableOf(d', WalledGarden) == TableOf(d, WalledGarden)
                 else RowEnsured(TableOf(d, WalledGarden), TableOf(d', WalledGarden), "comment", "ISP-WALLED-GARDEN",
                                 map["dst-host" := h.walledGarden, "comment" := "ISP-WALLED-GARDEN"])
  {
    var c := cfg.sector.value;
    match c.hotspot
    case None =>
      NoHotspot(cfg, d, ip, d', HotspotProfiles);
      NoHotspot(cfg, d, ip, d', Hotspots);
      NoHotspot(cfg, d, ip, d', WalledGarden);
    case Some(h) =>
      HotspotNamed(cfg, d, ip, d');
      HotspotMembers(cfg, c, h);
      UpsertInTail(cfg, d, ip, d', ProfileStep(h));
      ProfileFields(TableOf(d, HotspotProfiles), TableOf(d', HotspotProfiles), h);
      UpsertInTail(cfg, d, ip, d', HotspotStep(c, h));
      HotspotFields(TableOf(d, Hotspots), TableOf(d', Hotspots), c, h);
      GardenResult(cfg, d, ip, d', h);
  }

  lemma HotspotMembers(cfg: Config, c: SectorConfig, h: HotspotConfig)
    requires c.hotspot == Some(h) && h.dnsName != ""
    ensures ProfileStep(h) in ServiceSteps(cfg, c) && HotspotStep(c, h) in ServiceSteps(cfg, c)
    ensures h.walledGarden != "" ==> GardenStep(h) in ServiceSteps(cfg, c)
  {
    var steps := HotspotSteps(c);
    assert steps[0] == ProfileStep(h) && steps[1] == HotspotStep(c, h);
    assert h.walledGarden != "" ==> steps[2] == GardenStep(h);
    assert forall s :: s in steps ==> s in ServiceSteps(cfg, c);
  }

  lemma GardenResult(cfg: Config, d: Device, ip: string, d': Device, h: HotspotConfig)
    requires SectorDone(cfg, d, ip, d') && cfg.sector.value.hotspot == Some(h) && h.dnsName != ""
    ensures if h.walledGarden == "" then TableOf(d', WalledGarden) == TableOf(d, WalledGarden)
            else RowEnsured(TableOf(d, WalledGarden), TableOf(d', WalledGarden), "comment", "ISP-WALLED-GARDEN",
                            map["dst-host" := h.walledGarden, "comment" := "ISP-WALLED-GARDEN"])
  {
    if h.walledGarden == "" {
      NoHotspot(cfg, d, ip, d', WalledGarden);
    } else {
      HotspotMembers(cfg, cfg.sector.value, h);
      EnsureInTail(cfg, d, ip, d', GardenStep(h));
      GardenFields(TableOf(d, WalledGarden), TableOf(d', WalledGarden), h);
    }
  }

  lemma GardenFields(t: Table, t': Table, h: HotspotConfig)
    requires var s := GardenStep(h); RowEnsured(t, t', s.field, s.value, s.attrs)
    ensures RowEnsured(t, t', "comment", "ISP-WALLED-GARDEN",
                       map["dst-host" := h.walledGarden, "comment" := "ISP-WALLED-GARDEN"])
  {
  }

  lemma NoHotspot(cfg: Config, d: Device, ip: string, d': Device, m: Menu)
    requires SectorDone(cfg, d, ip, d') && m in {HotspotProfiles, Hotspots, WalledGarden}
    requires forall s :: s in HotspotSteps(cfg.sector.value) ==> Elsewhere(s, m)
    ensures TableOf(d', m) == TableOf(d, m)
  {
    var c := cfg.sector.value;
    OtherServices(cfg, c, m);
    TailAbsent(cfg, d, ip, d', m);
  }

  lemma {:induction false} NoRaise(steps: seq<Step>, d: Device)
    requires Run(steps, d).1 == None
    ensures forall s :: s in steps ==> !s.Raise?
  {
    if steps == [] {
    } else {
      NoRaise(steps[1..], Apply(steps[0], d).value);
    }
  }

  lemma HotspotNamed(cfg: Config, d: Device, ip: string, d': Device)
    requires SectorDone(cfg, d, ip, d') && cfg.sector.value.hotspot.Some?
    ensures cfg.sector.value.hotspot.value.dnsName != ""
  {
    var c, ports, steps := SectorParts(cfg, d, ip, d');
    if c.hotspot.value.dnsName == "" {
      var s := HotspotSteps(c)[0];
      assert s in ServiceSteps(cfg, c) && s in TailSteps(cfg, c) && s in steps;
    }
    NoRaise(steps, d);
  }

  /* The bridge ports */

  lemma {:induction false} PortsAsked(bridge: string, ports: seq<string>, mgmt: Option<string>, x: string)
    ensures Joins(PortSteps(bridge, ports, mgmt), BridgePorts, "bridge", bridge)
    ensures Asked(PortSteps(bridge, ports, mgmt), x) <==> x in ports && !(x != "" && mgmt == Some(x))
  {
    if ports == [] {
    } else {
      var rest := PortSteps(bridge, ports[1..], mgmt);
      var first := if Skipped(ports[0], mgmt) then [] else [Join(BridgePorts, ports[0], "bridge", bridge)];
      PortsAsked(bridge, ports[1..], mgmt, x);
      assert PortSteps(bridge, ports, mgmt) == first + rest;
      assert forall s :: s in first + rest <==> s in first || s in rest;
      assert Asked(first + rest, x) <==> Asked(first, x) || Asked(rest, x);
      if first != [] { assert first[0] in first; }
    }
  }

  // Every configured port that exists, except the interface the router is managed through,
  // is in the bridge; the rows of all other interfaces are those from before.
  lemma PortResult(cfg: Config, d: Device, ip: string, d': Device, x: string)
    requires SectorDone(cfg, d, ip, d')
    ensures var c := cfg.sector.value;
            if x in c.ports && Known(d', x) && !(x != "" && MgmtInterface(d, ip) == Some(x))
            then Joined(RowsOf(d, BridgePorts, x), RowsOf(d', BridgePorts, x), x, "bridge", c.bridge)
            else RowsOf(d', BridgePorts, x) == RowsOf(d, BridgePorts, x)
  {
    var bridge := cfg.sector.value.bridge;
    var ports, d1, d2 := PortFrame(cfg, d, ip, d');
    PortsAsked(bridge, cfg.sector.value.ports, MgmtInterface(d, ip), x);
    JoinsResult(ports, BridgePorts, "bridge", bridge, d1, x);
  }

  lemma ThreeParts(cfg: Config, d: Device, ip: string, d': Device)
    returns (head: seq<Step>, ports: seq<Step>, tail: seq<Step>, d1: Device, d2: Device)
    requires SectorDone(cfg, d, ip, d')
    ensures ports == PortSteps(cfg.sector.value.bridge, cfg.sector.value.ports, MgmtInterface(d, ip))
    ensures head == HeadSteps(cfg.sector.value) && tail == TailSteps(cfg, cfg.sector.value) && Spans(ports, 12, 13)
    ensures Run(head, d) == (d1, None) && Run(ports, d1) == (d2, None) && Run(tail, d2) == (d', None)
    ensures Spans(head, 10, 12) && Spans(tail, 13, 23)
  {
    var c, steps;
    c, ports, steps := SectorParts(cfg, d, ip, d');
    head, tail := HeadSteps(c), TailSteps(cfg, c);
    RunSplit(head + ports, tail, d);
    RunSplit(head, ports, d);
    d1 := Run(head, d).0;
    d2 := Run(ports, d1).0;
  }

  // The states before and after the joining.
  lemma PortFrame(cfg: Config, d: Device, ip: string, d': Device)
    returns (ports: seq<Step>, d1: Device, d2: Device)
    requires SectorDone(cfg, d, ip, d')
    ensures ports == PortSteps(cfg.sector.value.bridge, cfg.sector.value.ports, MgmtInterface(d, ip))
    ensures Run(ports, d1) == (d2, None) && TableOf(d1, BridgePorts) == TableOf(d, BridgePorts)
    ensures TableOf(d', BridgePorts) == TableOf(d2, BridgePorts)
    ensures Printed(d', Interfaces) == Printed(d2, Interfaces)
  {
    var head, tail;
    head, ports, tail, d1, d2 := ThreeParts(cfg, d, ip, d');
    BeforePorts(head, d);
    AfterPorts(tail, d2);
  }

  lemma BeforePorts(head: seq<Step>, d: Device)
    requires Spans(head, 10, 12)
    ensures TableOf(Run(head, d).0, BridgePorts) == TableOf(d, BridgePorts)
  {
    SpanSpares(head, 10, 12, BridgePorts, d);
  }

  lemma AfterPorts(tail: seq<Step>, d: Device)
    requires Spans(tail, 13, 23)
    ensures TableOf(Run(tail, d).0, BridgePorts) == TableOf(d, BridgePorts)
    ensures Printed(Run(tail, d).0, Interfaces) == Printed(d, Interfaces)
  {
    SpanSpares(tail, 13, 23, BridgePorts, d);
    SpanSpares(tail, 13, 23, Interfaces, d);
    SpanSpares(tail, 13, 23, Bridges, d);
  }

  // In other words: such a port has a row in the bridge.
  lemma PortInBridge(cfg: Config, d: Device, ip: string, d': Device, x: string)
    requires SectorDone(cfg, d, ip, d') && x in cfg.sector.value.ports && Known(d', x)
    requires x == "" || MgmtInterface(d, ip) != Some(x)
    ensures exists r :: r in TableOf(d', BridgePorts).rows && Has(r, "interface", x)
                        && Has(r, "bridge", cfg.sector.value.bridge)
  {
    PortResult(cfg, d, ip, d', x);
    JoinedTwice(d, d', BridgePorts, x, "bridge", cfg.sector.value.bridge);
    SelectHead(TableOf(d', BridgePorts).rows, "interface", x);
  }

  /* The DHCP server and its lease script */

  lemma ServerParts(cfg: Config, d: Device, ip: string, d': Device) returns (u: seq<Step>, v: seq<Step>)
    requires SectorDone(cfg, d, ip, d')
    ensures v == LeaseSteps(cfg.lease, cfg.clearLease, cfg.sector.value.server) && Run(u + v, d) == (d', None)
    ensures Spans(u, 10, 22) && ServerStep(cfg.sector.value) in u
  {
    var c, ports, steps := SectorParts(cfg, d, ip, d');
    v := LeaseSteps(cfg.lease, cfg.clearLease, c.server);
    var rest := ServiceParts(cfg, c);
    u := UntilServer(c, ports, rest);
    Associates(HeadSteps(c) + ports, rest, v);
  }

  lemma UntilServer(c: SectorConfig, ports: seq<Step>, rest: seq<Step>) returns (u: seq<Step>)
    requires Spans(ports, 12, 13) && Spans(rest, 13, 22) && ServerStep(c) in rest
    ensures u == HeadSteps(c) + ports + rest && Spans(u, 10, 22) && ServerStep(c) in u
  {
    u := HeadSteps(c) + ports + rest;
    HeadSpans(c);
    SpansConcat(HeadSteps(c), ports, 10, 12, 13);
    SpansConcat(HeadSteps(c) + ports, rest, 10, 13, 22);
  }

  // All but the lease script.
  lemma ServiceParts(cfg: Config, c: SectorConfig) returns (u: seq<Step>)
    ensures u == [AddressStep(c)] + (DhcpSteps(c) + DnsSteps(c) + NatSteps(c) + HotspotSteps(c))
    ensures TailSteps(cfg, c) == u + LeaseSteps(cfg.lease, cfg.clearLease, c.server)
    ensures Spans(u, 13, 22) && ServerStep(c) in u
  {
    var services := DhcpSteps(c) + DnsSteps(c) + NatSteps(c) + HotspotSteps(c);
    u := [AddressStep(c)] + services;
    UntilLease(cfg, c);
    SpanOne(AddressStep(c), 13, 14);
    SpansConcat([AddressStep(c)], services, 13, 14, 22);
    Associates([AddressStep(c)], services, LeaseSteps(cfg.lease, cfg.clearLease, c.server));
    ServerAmong(c);
  }

  lemma ServerAmong(c: SectorConfig)
    ensures ServerStep(c) in DhcpSteps(c) + DnsSteps(c) + NatSteps(c) + HotspotSteps(c)
  {
    assert DhcpSteps(c)[1] == ServerStep(c);
  }

  lemma UntilLease(cfg: Config, c: SectorConfig)
    ensures Spans(DhcpSteps(c) + DnsSteps(c) + NatSteps(c) + HotspotSteps(c), 14, 22)
  {
    DhcpSpans(c);
    DnsSpans(c);
    NatSpans(c);
    HotspotSpans(c);
    SpansConcat(DhcpSteps(c), DnsSteps(c), 14, 17, 18);
    SpansConcat(DhcpSteps(c) + DnsSteps(c), NatSteps(c), 14, 18, 19);
    SpansConcat(DhcpSteps(c) + DnsSteps(c) + NatSteps(c), HotspotSteps(c), 14, 19, 22);
  }

  // Fields set on the row a moment after others.
  lemma SetTwice(t: Table, t1: Table, t2: Table, name: string, first: Attrs, second: Attrs)
    requires RowSet(t, t1, "name", name, first) && RowSet(t1, t2, "name", name, second)
    requires "name" !in first && "name" !in second
    ensures RowSet(t, t2, "name", name, first + second)
  {
    var i := First(t.rows, "name", name);
    if i < |t.rows| {
      FirstAfterUpdate(t.rows, i, first, "name", name);
      assert t.rows[i].attrs + first + second == t.rows[i].attrs + (first + second);
    } else {
      FirstUnique(t1.rows, "name", name, |t.rows|);
      assert first["name" := name] + second == (first + second)["name" := name];
    }
  }

  // The server on the bridge with its pool, its lease time, and the script to run for each
  // lease: the configured one, or none if the old one is to be cleared.
  lemma ServerResult(cfg: Config, d: Device, ip: string, d': Device)
    requires SectorDone(cfg, d, ip, d')
    ensures var c := cfg.sector.value;
            var fields := map["interface" := c.bridge, "address-pool" := c.pool, "lease-time" := c.leaseTime];
            var t, t' := TableOf(d, DhcpServers), TableOf(d', DhcpServers);
            match cfg.lease
            case NoToken => false
            case Script(text) => RowSet(t, t', "name", c.server, fields["lease-script" := text])
            case NoScript => RowSet(t, t', "name", c.server, if cfg.clearLease then fields["lease-script" := ""] else fields)
  {
    var u, v := ServerParts(cfg, d, ip, d');
    var c := cfg.sector.value;
    var fields := map["interface" := c.bridge, "address-pool" := c.pool, "lease-time" := c.leaseTime];
    RunSplit(u, v, d);
    UpsertResult(u, ServerStep(c), d, 10, 22);
    LeaseLeaves(cfg.lease, cfg.clearLease, c.server, TableOf(d, DhcpServers), fields, Run(u, d).0, d');
  }

  lemma LeaseLeaves(lease: LeaseScript, clear: bool, server: string, t: Table, fields: Attrs, mid: Device, d': Device)
    requires RowSet(t, TableOf(mid, DhcpServers), "name", server, fields) && "name" !in fields
    requires Run(LeaseSteps(lease, clear, server), mid) == (d', None)
    ensures var t' := TableOf(d', DhcpServers);
            match lease
            case NoToken => false
            case Script(text) => RowSet(t, t', "name", server, fields["lease-script" := text])
            case NoScript => RowSet(t, t', "name", server, if clear then fields["lease-script" := ""] else fields)
  {
    match lease
    case NoToken => RunOne(LeaseSteps(lease, clear, server)[0], mid);
    case Script(text) => ScriptLeaves(text, server, t, fields, mid, d');
    case NoScript => if clear { ScriptLeaves("", server, t, fields, mid, d'); }
  }

  lemma OneField(fields: Attrs, field: string, value: string)
    ensures fields + map[field := value] == fields[field := value]
  {
  }

  lemma ScriptLeaves(text: string, server: string, t: Table, fields: Attrs, mid: Device, d': Device)
    requires RowSet(t, TableOf(mid, DhcpServers), "name", server, fields) && "name" !in fields
    requires Run([Patch(DhcpServers, server, map["lease-script" := text])], mid) == (d', None)
    ensures RowSet(t, TableOf(d', DhcpServers), "name", server, fields["lease-script" := text])
  {
    var s := Patch(DhcpServers, server, map["lease-script" := text]);
    RunOne(s, mid);
    PatchLeaves(s, mid);
    SetTwice(t, TableOf(mid, DhcpServers), TableOf(d', DhcpServers), server, fields, s.attrs);
    OneField(fields, "lease-script", text);
  }

  lemma PatchLeaves(s: Step, d: Device)
    requires s.Patch? && Apply(s, d).Ok?
    ensures RowSet(TableOf(d, s.menu), TableOf(Apply(s, d).value, s.menu), "name", s.name, s.attrs)
  {
  }

  /* What the sector configuration does not touch */

  lemma SectorSpares(cfg: Config, d: Device, ip: string, d': Device, m: Menu)
    requires SectorDone(cfg, d, ip, d')
    requires m in {Interfaces, InterfaceLists, ListMembers, Groups, Users, Services, Filter, Scripts, Schedulers}
    ensures TableOf(d', m) == TableOf(d, m) && d'.canMove == d.canMove
  {
    var c, ports, steps := SectorParts(cfg, d, ip, d');
    SpanElsewhere(steps, 10, 23, m);
    RunElsewhere(steps, d, m);
    RunKeepsMoving(steps, d);
  }

  lemma {:induction false} RunKeepsMoving(steps: seq<Step>, d: Device)
    ensures Run(steps, d).0.canMove == d.canMove
  {
    if steps == [] {
    } else if Apply(steps[0], d).Ok? {
      RunKeepsMoving(steps[1..], Apply(steps[0], d).value);
    }
  }

  /* When it goes through */

  // The interface is in no bridge, or in this one.
  ghost predicate Free(d: Device, iface: string, bridge: string) {
    RowsOf(d, BridgePorts, iface) == [] || exists r :: r in RowsOf(d, BridgePorts, iface) && Has(r, "bridge", bridge)
  }

  lemma JoinSucceedsIff(s: Step, bridge: string, d: Device)
    requires s.Join? && s == Join(BridgePorts, s.iface, "bridge", bridge)
    ensures Apply(s, d).Ok? <==> Known(d, s.iface) ==> Free(d, s.iface, bridge)
    ensures Apply(s, d).Ok? ==>
              forall x :: (Known(Apply(s, d).value, x) <==> Known(d, x))
                          && (Known(d, x) ==> (Free(Apply(s, d).value, x, bridge) <==> Free(d, x, bridge)))
  {
    KnownAny(d, s.iface);
    MemberSelected(TableOf(d, BridgePorts).rows, s.iface, "bridge", bridge);
    SelectHead(TableOf(d, BridgePorts).rows, "interface", s.iface);
    if Apply(s, d).Ok? {
      forall x
        ensures Known(Apply(s, d).value, x) <==> Known(d, x)
        ensures Known(d, x) ==> (Free(Apply(s, d).value, x, bridge) <==> Free(d, x, bridge))
      {
        JoinOne(s, d, x);
        if x == s.iface && Known(d, x) { JoinedTwice(d, Apply(s, d).value, BridgePorts, x, "bridge", bridge); }
      }
    }
  }

  lemma {:induction false} JoinsSucceedIff(steps: seq<Step>, bridge: string, d: Device)
    requires Joins(steps, BridgePorts, "bridge", bridge)
    ensures Run(steps, d).1 == None <==> forall x :: Asked(steps, x) && Known(d, x) ==> Free(d, x, bridge)
  {
    if steps == [] {
    } else {
      var s, rest := steps[0], steps[1..];
      assert s in steps && forall t :: t in rest ==> t in steps;
      forall x ensures Asked(steps, x) <==> s.iface == x || Asked(rest, x) {}
      JoinSucceedsIff(s, bridge, d);
      if Apply(s, d).Ok? {
        JoinsSucceedIff(rest, bridge, Apply(s, d).value);
      } else {
        assert Asked(steps, s.iface) && Known(d, s.iface) && !Free(d, s.iface, bridge);
      }
    }
  }

  // Steps that no router can refuse.
  predicate Sure(s: Step, settings: set<Setting>) {
    && WellShaped(s)
    && match s
       case EnsureRow(m, _, _, _) => m != Bridges
       case Upsert(_, _, _) => true
       case Configure(setting, _, quiet) => quiet || setting in settings
       case _ => false
  }

  lemma SureSucceeds(s: Step, d: Device)
    requires ValidDevice(d) && Sure(s, d.settings.Keys)
    ensures Apply(s, d).Ok? && Apply(s, d).value.settings.Keys == d.settings.Keys && ValidDevice(Apply(s, d).value)
  {
    if s.Upsert? {
      var i := First(TableOf(d, s.menu).rows, Key(s.menu), s.value);
      if i < |TableOf(d, s.menu).rows| { IdLocates(s.menu, TableOf(d, s.menu), i); }
    }
    ApplyKeepsValid(s, d);
  }

  lemma {:induction false} SureRuns(steps: seq<Step>, d: Device)
    requires ValidDevice(d) && forall s :: s in steps ==> Sure(s, d.settings.Keys)
    ensures Run(steps, d).1 == None && ValidDevice(Run(steps, d).0)
    ensures Run(steps, d).0.settings.Keys == d.settings.Keys
  {
    if steps == [] {
    } else {
      SureSucceeds(steps[0], d);
      SureRuns(steps[1..], Apply(steps[0], d).value);
    }
  }

  // What the configuration has to say, and the router to be like, for it to go through.
  ghost predicate SectorFits(cfg: Config, d: Device, ip: string)
    requires cfg.sector.Some?
  {
    var c := cfg.sector.value;
    && c.wan != "" && c.bridge != "" && c.address != "" && c.pool != "" && c.range != "" && c.server != ""
    && c.network != "" && (c.hotspot.Some? ==> c.hotspot.value.dnsName != "") && cfg.lease != NoToken
    && (c.dns != "" ==> Dns in d.settings)
    && BridgeNameFree(d, c.bridge)
    && forall x :: x in c.ports && (Known(d, x) || x == c.bridge) && !(x != "" && MgmtInterface(d, ip) == Some(x)) ==>
         Free(d, x, c.bridge)
  }

  // No interface but a bridge has the name.
  ghost predicate BridgeNameFree(d: Device, bridge: string) {
    Known(d, bridge) ==> exists r :: r in TableOf(d, Bridges).rows && Has(r, "name", bridge)
  }

  lemma HeadForm(c: SectorConfig) returns (client: seq<Step>, bridge: Step)
    ensures HeadSteps(c) == client + [bridge]
    ensures bridge.EnsureRow? && bridge.value == c.bridge
    ensures bridge == EnsureRow(Bridges, "name", c.bridge, map["name" := c.bridge])
    ensures forall s :: s in client ==> s.EnsureRow? && s.menu == DhcpClients && WellShaped(s)
  {
    client := if c.dhcpClientOnWan then [HeadSteps(c)[0]] else [];
    bridge := EnsureRow(Bridges, "name", c.bridge, map["name" := c.bridge]);
  }

  lemma HeadSucceedsIff(c: SectorConfig, d: Device)
    requires ValidDevice(d)
    ensures Run(HeadSteps(c), d).1 == None <==> BridgeNameFree(d, c.bridge)
    ensures Run(HeadSteps(c), d).1 == None ==>
              var d1 := Run(HeadSteps(c), d).0;
              && ValidDevice(d1) && d1.settings == d.settings && TableOf(d1, BridgePorts) == TableOf(d, BridgePorts)
              && forall x :: Known(d1, x) <==> Known(d, x) || x == c.bridge
  {
    var client, bridge := HeadForm(c);
    RunSplit(client, [bridge], d);
    SureRuns(client, d);
    var mid := Run(client, d).0;
    ClientSpares(client, d);
    SameInterfaces(d, mid);
    RunOne(bridge, mid);
    BridgeSucceedsIff(bridge, mid);
  }

  lemma RunOne(s: Step, d: Device)
    ensures Run([s], d) == if Apply(s, d).Ok? then (Apply(s, d).value, None) else (d, Some(Apply(s, d).error))
  {
    assert [s][1..] == [];
  }

  lemma SameInterfaces(d: Device, d': Device)
    requires TableOf(d', Interfaces) == TableOf(d, Interfaces) && TableOf(d', Bridges) == TableOf(d, Bridges)
    ensures forall x :: Known(d', x) <==> Known(d, x)
    ensures forall x :: BridgeNameFree(d', x) <==> BridgeNameFree(d, x)
  {
    assert Printed(d', Interfaces) == Printed(d, Interfaces);
  }

  lemma ClientSpares(client: seq<Step>, d: Device)
    requires forall s :: s in client ==> s.EnsureRow? && s.menu == DhcpClients
    ensures var mid := Run(client, d).0;
            && mid.settings == d.settings && (forall m :: m != DhcpClients ==> TableOf(mid, m) == TableOf(d, m))
  {
    if client == [] {
    } else if Apply(client[0], d).Ok? {
      ClientSpares(client[1..], Apply(client[0], d).value);
    }
  }

  lemma BridgeSucceedsIff(s: Step, d: Device)
    requires ValidDevice(d) && s.EnsureRow? && s == EnsureRow(Bridges, "name", s.value, map["name" := s.value])
    ensures Apply(s, d).Ok? <==> BridgeNameFree(d, s.value)
    ensures Apply(s, d).Ok? ==>
              var d1 := Apply(s, d).value;
              && ValidDevice(d1) && d1.settings == d.settings && TableOf(d1, BridgePorts) == TableOf(d, BridgePorts)
              && forall x :: Known(d1, x) <==> Known(d, x) || x == s.value
  {
    KnownAny(d, s.value);
    if Apply(s, d).Ok? {
      ApplyKeepsValid(s, d);
      var d1 := Apply(s, d).value;
      if d1 == d {
        var r :| r in TableOf(d, Bridges).rows && Has(r, "name", s.value);
        assert r in Printed(d, Interfaces);
      } else {
        KnownAfterBridge(d, s.value);
      }
    }
  }

  lemma KnownAfterBridge(d: Device, bridge: string)
    ensures forall x :: Known(Append(d, Bridges, map["name" := bridge]), x) <==> Known(d, x) || x == bridge
  {
    var d1 := Append(d, Bridges, map["name" := bridge]);
    var r := Row(TableOf(d, Bridges).nextId, map["name" := bridge]);
    assert Printed(d1, Interfaces) == Printed(d, Interfaces) + [r];
    assert r in Printed(d1, Interfaces) && Has(r, "name", bridge);
    forall x ensures Known(d1, x) <==> Known(d, x) || x == bridge {
      assert forall q :: q in Printed(d1, Interfaces) <==> q in Printed(d, Interfaces) || q == r;
    }
  }

  lemma ServicesSure(c: SectorConfig, settings: set<Setting>)
    requires (c.hotspot.Some? ==> c.hotspot.value.dnsName != "") && (c.dns != "" ==> Dns in settings)
    ensures forall s :: s in DhcpSteps(c) + DnsSteps(c) + NatSteps(c) + HotspotSteps(c) ==> Sure(s, settings)
  {
    assert forall s :: s in DhcpSteps(c) ==> Sure(s, settings);
    assert forall s :: s in DnsSteps(c) ==> Sure(s, settings);
    assert forall s :: s in NatSteps(c) ==> Sure(s, settings);
    HotspotSure(c, settings);
  }

  lemma SureHotspot(c: SectorConfig, h: HotspotConfig, settings: set<Setting>)
    ensures Sure(ProfileStep(h), settings) && Sure(HotspotStep(c, h), settings) && Sure(GardenStep(h), settings)
  {
  }

  lemma HotspotSure(c: SectorConfig, settings: set<Setting>)
    requires c.hotspot.Some? ==> c.hotspot.value.dnsName != ""
    ensures forall s :: s in HotspotSteps(c) ==> Sure(s, settings)
  {
    if c.hotspot.Some? {
      var h := c.hotspot.value;
      SureHotspot(c, h, settings);
    }
  }

  lemma RowSetFound(t: Table, t': Table, name: string, attrs: Attrs)
    requires RowSet(t, t', "name", name, attrs) && "name" !in attrs
    ensures Any(t'.rows, "name", name)
  {
    var i := First(t.rows, "name", name);
    if i < |t.rows| {
      FirstAfterUpdate(t.rows, i, attrs, "name", name);
    } else {
      FirstUnique(t'.rows, "name", name, |t.rows|);
    }
  }

  lemma TailSucceeds(cfg: Config, c: SectorConfig, d: Device)
    requires ValidDevice(d) && (c.hotspot.Some? ==> c.hotspot.value.dnsName != "") && cfg.lease != NoToken
    requires c.dns != "" ==> Dns in d.settings
    ensures Run(TailSteps(cfg, c), d).1 == None
  {
    var u := BeforeLease(cfg, c, d.settings.Keys);
    SureRuns(u, d);
    ServerFound(u, c, d);
    LeaseSucceeds(cfg.lease, cfg.clearLease, c.server, Run(u, d).0);
    RunSplit(u, LeaseSteps(cfg.lease, cfg.clearLease, c.server), d);
  }

  lemma ServerFound(u: seq<Step>, c: SectorConfig, d: Device)
    requires ValidDevice(d) && Spans(u, 13, 22) && ServerStep(c) in u && Run(u, d).1 == None
    ensures Any(TableOf(Run(u, d).0, DhcpServers).rows, "name", c.server)
  {
    UpsertResult(u, ServerStep(c), d, 13, 22);
    RowSetFound(TableOf(d, DhcpServers), TableOf(Run(u, d).0, DhcpServers), c.server, ServerStep(c).attrs);
  }

  lemma LeaseSucceeds(lease: LeaseScript, clear: bool, server: string, d: Device)
    requires lease != NoToken && Any(TableOf(d, DhcpServers).rows, "name", server)
    ensures Run(LeaseSteps(lease, clear, server), d).1 == None
  {
    var v := LeaseSteps(lease, clear, server);
    if v != [] { RunOne(v[0], d); }
  }

  lemma BeforeLease(cfg: Config, c: SectorConfig, settings: set<Setting>) returns (u: seq<Step>)
    requires (c.hotspot.Some? ==> c.hotspot.value.dnsName != "") && (c.dns != "" ==> Dns in settings)
    ensures TailSteps(cfg, c) == u + LeaseSteps(cfg.lease, cfg.clearLease, c.server)
    ensures Spans(u, 13, 22) && ServerStep(c) in u && forall s :: s in u ==> Sure(s, settings)
  {
    u := ServiceParts(cfg, c);
    ServicesSure(c, settings);
    assert Sure(AddressStep(c), settings);
  }

  lemma {:induction false} JoinsKeepSettings(steps: seq<Step>, m: Menu, groupField: string, group: string, d: Device)
    requires ValidDevice(d) && Joins(steps, m, groupField, group)
    ensures Run(steps, d).0.settings == d.settings && ValidDevice(Run(steps, d).0)
  {
    if steps == [] {
    } else if Apply(steps[0], d).Ok? {
      assert steps[0] in steps;
      ApplyKeepsValid(steps[0], d);
      JoinsKeepSettings(steps[1..], m, groupField, group, Apply(steps[0], d).value);
    }
  }

  // Whether the ports go through, seen from the router before the bridge is there.
  lemma PortsSucceedIff(c: SectorConfig, mgmt: Option<string>, d: Device, d1: Device)
    requires TableOf(d1, BridgePorts) == TableOf(d, BridgePorts)
    requires forall x :: Known(d1, x) <==> Known(d, x) || x == c.bridge
    ensures Run(PortSteps(c.bridge, c.ports, mgmt), d1).1 == None
            <==> forall x :: x in c.ports && (Known(d, x) || x == c.bridge) && !(x != "" && mgmt == Some(x)) ==>
                   Free(d, x, c.bridge)
  {
    var ports := PortSteps(c.bridge, c.ports, mgmt);
    forall x ensures Asked(ports, x) <==> x in c.ports && !(x != "" && mgmt == Some(x)) {
      PortsAsked(c.bridge, c.ports, mgmt, x);
    }
    PortsAsked(c.bridge, c.ports, mgmt, "");
    JoinsSucceedIff(ports, c.bridge, d1);
    assert forall x :: Free(d1, x, c.bridge) <==> Free(d, x, c.bridge);
  }

  // The sector configuration goes through exactly on routers that it fits.
  lemma SectorSucceedsIff(cfg: Config, d: Device, ip: string)
    requires ValidDevice(d) && cfg.sector.Some?
    ensures SectorRun(cfg, d, ip).1 == None <==> SectorFits(cfg, d, ip)
  {
    var c := cfg.sector.value;
    if SectorRun(cfg, d, ip).1 == None {
      SectorFitsOnSuccess(cfg, d, ip);
    } else if SectorFits(cfg, d, ip) {
      var mgmt := MgmtInterface(d, ip);
      var head, ports := HeadSteps(c), PortSteps(c.bridge, c.ports, mgmt);
      HeadSucceedsIff(c, d);
      var d1 := Run(head, d).0;
      PortsSucceedIff(c, mgmt, d, d1);
      PortsAsked(c.bridge, c.ports, mgmt, "");
      JoinsKeepSettings(ports, BridgePorts, "bridge", c.bridge, d1);
      TailSucceeds(cfg, c, Run(ports, d1).0);
      RunSplit(head, ports, d);
      RunSplit(head + ports, TailSteps(cfg, c), d);
    }
  }

  lemma SectorFitsOnSuccess(cfg: Config, d: Device, ip: string)
    requires ValidDevice(d) && cfg.sector.Some? && SectorRun(cfg, d, ip).1 == None
    ensures SectorFits(cfg, d, ip)
  {
    var d' := SectorRun(cfg, d, ip).0;
    var c, ports, steps := SectorParts(cfg, d, ip, d');
    RunSplit(HeadSteps(c) + ports, TailSteps(cfg, c), d);
    RunSplit(HeadSteps(c), ports, d);
    HeadSucceedsIff(c, d);
    PortsSucceedIff(c, MgmtInterface(d, ip), d, Run(HeadSteps(c), d).0);
    HotspotResult(cfg, d, ip, d');
    ServerResult(cfg, d, ip, d');
    DnsResult(cfg, d, ip, d');
  }
}
