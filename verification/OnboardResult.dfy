/**
  What the whole script leaves on a router: access, discovery, firewall and call-home, the
  sector configuration in between, and when it goes through.
 */
module OnboardResult {
  import opened Basics
  import opened RouterOs
  import opened Reconciler
  import opened Preloader
  import opened FirewallOrder
  import opened PreloaderResult

  ghost predicate OnboardDone(cfg: Config, d: Device, ip: string, d': Device) {
    ValidDevice(d) && OnboardRun(cfg, d, ip) == (d', None)
  }

  /* What the script reads first */

  // The row's address is on the management ip: the ip, a slash and a prefix length.
  predicate HoldsIp(row: Row, ip: string) {
    && "address" in row.attrs && |ip| < |row.attrs["address"]|
    && row.attrs["address"][..|ip|] == ip && row.attrs["address"][|ip|] == '/'
  }

  // The management interface is that of the first such address, if that names one.
  lemma {:induction false} MgmtFirst(rows: seq<Row>, ip: string, i: nat)
    requires i <= |rows| && (forall j :: 0 <= j < i ==> !HoldsIp(rows[j], ip)) && (i < |rows| ==> HoldsIp(rows[i], ip))
    ensures MgmtOf(rows, ip) ==
            if i < |rows| && "interface" in rows[i].attrs then Some(rows[i].attrs["interface"]) else None
  {
    if rows == [] {
    } else {
      var a := if "address" in rows[0].attrs then rows[0].attrs["address"] else "";
      assert ip + "/" <= a <==> |ip| < |a| && a[..|ip|] == ip && a[|ip|] == '/' by {
        if |ip| < |a| { assert a[..|ip| + 1] == a[..|ip|] + [a[|ip|]]; }
      }
      if i > 0 { MgmtFirst(rows[1..], ip, i - 1); }
    }
  }

  // Neighbours are discovered on the configured interfaces, or else on the management
  // interface, if there is one.
  predicate Discovering(cfg: Config, d: Device, ip: string, iface: string) {
    if cfg.discovery != [] then iface in cfg.discovery else iface != "" && MgmtInterface(d, ip) == Some(iface)
  }

  lemma DiscoveryFrom(cfg: Config, d: Device, ip: string, iface: string)
    ensures iface in DiscoveryInterfaces(cfg, d, ip) <==> Discovering(cfg, d, ip, iface)
  {
  }

  /* Its parts */

  function LastDiscovery(): seq<Step> {
    [ Configure(Discovery, map["discover-interface-list" := LAN], true),
      Configure(MacServer, map["allowed-interface-list" := LAN], true),
      Configure(MacWinbox, map["allowed-interface-list" := LAN], true) ]
  }

  lemma Parts(cfg: Config, d: Device, ip: string) returns (ifaces: seq<string>, sector: seq<Step>, steps: seq<Step>)
    ensures ifaces == DiscoveryInterfaces(cfg, d, ip)
    ensures sector == if cfg.applySector then SectorSteps(cfg, MgmtInterface(d, ip)) else []
    ensures steps == OnboardSteps(cfg, ifaces, MgmtInterface(d, ip)) && Spans(steps, 0, 25)
    ensures steps == EntrySteps(cfg, ifaces) + sector + CallHomeSteps(cfg.callHome)
    ensures Spans(EntrySteps(cfg, ifaces), 0, 10) && Spans(sector, 10, 23) && Spans(CallHomeSteps(cfg.callHome), 23, 25)
  {
    ifaces := DiscoveryInterfaces(cfg, d, ip);
    sector := if cfg.applySector then SectorSteps(cfg, MgmtInterface(d, ip)) else [];
    steps := OnboardSteps(cfg, ifaces, MgmtInterface(d, ip));
    OnboardSpans(cfg, ifaces, MgmtInterface(d, ip));
    EntrySpans(cfg, ifaces);
    SectorSpans(cfg, MgmtInterface(d, ip));
    CallHomeSpans(cfg.callHome);
  }

  /* Access */

  // Identity, API service, management group and user.
  lemma AccessResult(cfg: Config, d: Device, ip: string, d': Device)
    requires OnboardDone(cfg, d, ip, d')
    ensures FieldsPut(d, d', Identity, map["name" := cfg.identity])
    ensures RowSet(TableOf(d, Services), TableOf(d', Services), "name", "api", map["disabled" := "no"])
    ensures RowEnsured(TableOf(d, Groups), TableOf(d', Groups), "name", "odoo_noc_group",
                       map["name" := "odoo_noc_group",
                           "policy" := "read,write,api,!local,!telnet,!ssh,!ftp,!reboot,!policy,!password,!sniff,!sensitive"])
    ensures RowSet(TableOf(d, Users), TableOf(d', Users), "name", cfg.user,
                   map["password" := cfg.password, "group" := "odoo_noc_group"])
  {
    IdentityResult(cfg, d, ip, d');
    ServiceResult(cfg, d, ip, d');
    var steps := AccessMember(cfg, d, ip, 2);
    EnsureResult(steps, AccessSteps(cfg)[2], d, 0, 25);
    UserResult(cfg, d, ip, d');
  }

  lemma IdentityResult(cfg: Config, d: Device, ip: string, d': Device)
    requires OnboardDone(cfg, d, ip, d')
    ensures FieldsPut(d, d', Identity, map["name" := cfg.identity])
  {
    var steps := AccessMember(cfg, d, ip, 0);
    ConfigureResult(steps, AccessSteps(cfg)[0], d, 0, 25);
  }

  lemma ServiceResult(cfg: Config, d: Device, ip: string, d': Device)
    requires OnboardDone(cfg, d, ip, d')
    ensures RowSet(TableOf(d, Services), TableOf(d', Services), "name", "api", map["disabled" := "no"])
  {
    var steps := AccessMember(cfg, d, ip, 1);
    PatchResult(steps, AccessSteps(cfg)[1], d, 0, 25);
  }

  lemma UserResult(cfg: Config, d: Device, ip: string, d': Device)
    requires OnboardDone(cfg, d, ip, d')
    ensures RowSet(TableOf(d, Users), TableOf(d', Users), "name", cfg.user,
                   map["password" := cfg.password, "group" := "odoo_noc_group"])
  {
    var steps := AccessMember(cfg, d, ip, 3);
    UpsertResult(steps, AccessSteps(cfg)[3], d, 0, 25);
  }

  lemma AccessMember(cfg: Config, d: Device, ip: string, i: nat) returns (steps: seq<Step>)
    requires i < 4
    ensures Spans(steps, 0, 25) && Run(steps, d) == OnboardRun(cfg, d, ip) && AccessSteps(cfg)[i] in steps
  {
    var ifaces, sector;
    ifaces, sector, steps := Parts(cfg, d, ip);
    assert AccessSteps(cfg)[i] in EntrySteps(cfg, ifaces);
  }

  lemma PatchResult(steps: seq<Step>, s: Step, d: Device, lo: nat, hi: nat)
    requires ValidDevice(d) && Spans(steps, lo, hi) && Run(steps, d).1 == None
    requires s in steps && s.Patch? && Single(s.menu, hi)
    ensures RowSet(TableOf(d, s.menu), TableOf(Run(steps, d).0, s.menu), "name", s.name, s.attrs)
  {
    var k :| 0 <= k < |steps| && steps[k] == s;
    OthersElsewhere(steps, k, lo, hi);
    var mid := Around(steps, k, d, s.menu);
    PatchLeaves(s, mid);
  }

  /* Discovery */

  // The list, and the three settings that use it where the router has them.
  lemma DiscoveryResult(cfg: Config, d: Device, ip: string, d': Device, iface: string)
    requires OnboardDone(cfg, d, ip, d') && Discovering(cfg, d, ip, iface)
    ensures RowEnsured(TableOf(d, InterfaceLists), TableOf(d', InterfaceLists), "name", "LAN", map["name" := "LAN"])
    ensures Discovery in d.settings ==> FieldsPut(d, d', Discovery, map["discover-interface-list" := "LAN"])
    ensures MacServer in d.settings ==> FieldsPut(d, d', MacServer, map["allowed-interface-list" := "LAN"])
    ensures MacWinbox in d.settings ==> FieldsPut(d, d', MacWinbox, map["allowed-interface-list" := "LAN"])
  {
    var ifaces, sector, steps := Parts(cfg, d, ip);
    DiscoveryFrom(cfg, d, ip, iface);
    var list, last := EnsureRow(InterfaceLists, "name", LAN, map["name" := LAN]), LastDiscovery();
    assert forall i :: 0 <= i < 3 ==> last[i] in last;
    assert DiscoverySteps(ifaces) == [list] + ListSteps(ifaces) + last;
    assert forall s :: s in DiscoverySteps(ifaces) ==> s in EntrySteps(cfg, ifaces) && s in steps;
    assert list in DiscoverySteps(ifaces) && forall s :: s in last ==> s in DiscoverySteps(ifaces);
    EnsureResult(steps, list, d, 0, 25);
    ConfigureResult(steps, last[0], d, 0, 25);
    ConfigureResult(steps, last[1], d, 0, 25);
    ConfigureResult(steps, last[2], d, 0, 25);
  }

  lemma ListAsked(ifaces: seq<string>, x: string)
    ensures Joins(ListSteps(ifaces), ListMembers, "list", LAN)
    ensures Asked(ListSteps(ifaces), x) <==> x in ifaces
  {
    var steps := ListSteps(ifaces);
    if x in ifaces {
      var i :| 0 <= i < |ifaces| && ifaces[i] == x;
      assert steps[i] in steps;
    }
  }

  // The steps before, at and after the joining.
  lemma ListParts(cfg: Config, d: Device, ip: string) returns (u: seq<Step>, v: seq<Step>)
    requires DiscoveryInterfaces(cfg, d, ip) != []
    ensures var ifaces := DiscoveryInterfaces(cfg, d, ip);
            OnboardSteps(cfg, ifaces, MgmtInterface(d, ip)) == u + ListSteps(ifaces) + v
    ensures u == AccessSteps(cfg) + [EnsureRow(InterfaceLists, "name", LAN, map["name" := LAN])]
    ensures forall s :: s in v ==> Elsewhere(s, ListMembers)
  {
    var ifaces, sector, steps := Parts(cfg, d, ip);
    var list := EnsureRow(InterfaceLists, "name", LAN, map["name" := LAN]);
    u := AccessSteps(cfg) + [list];
    v := AfterLists(cfg, sector);
    assert DiscoverySteps(ifaces) == [list] + ListSteps(ifaces) + LastDiscovery();
    Regrouped(AccessSteps(cfg), [list], ListSteps(ifaces), LastDiscovery(), FirewallSteps(cfg.port, cfg.allowed), sector,
              CallHomeSteps(cfg.callHome));
  }

  lemma Regrouped<T>(a: seq<T>, b: seq<T>, c: seq<T>, d: seq<T>, e: seq<T>, f: seq<T>, g: seq<T>)
    ensures a + (b + c + d) + e + f + g == (a + b) + c + (d + e + f + g)
  {
  }

  lemma AfterLists(cfg: Config, sector: seq<Step>) returns (v: seq<Step>)
    requires Spans(sector, 10, 23)
    ensures v == LastDiscovery() + FirewallSteps(cfg.port, cfg.allowed) + sector + CallHomeSteps(cfg.callHome)
    ensures forall s :: s in v ==> Elsewhere(s, ListMembers)
  {
    v := LastDiscovery() + FirewallSteps(cfg.port, cfg.allowed) + sector + CallHomeSteps(cfg.callHome);
    FirewallElsewhere(cfg.port, cfg.allowed, ListMembers);
    SpanElsewhere(sector, 10, 23, ListMembers);
    CallHomeSpans(cfg.callHome);
    SpanElsewhere(CallHomeSteps(cfg.callHome), 23, 25, ListMembers);
  }

  lemma BeforeLists(cfg: Config, m: Menu)
    requires m in {Interfaces, Bridges, ListMembers}
    ensures forall s :: s in AccessSteps(cfg) + [EnsureRow(InterfaceLists, "name", LAN, map["name" := LAN])] ==>
              Elsewhere(s, m)
  {
    AccessSpans(cfg);
    SpanElsewhere(AccessSteps(cfg), 0, 4, m);
  }

  lemma FirewallElsewhere(port: string, allowed: seq<string>, m: Menu)
    requires m != Filter
    ensures forall s :: s in FirewallSteps(port, allowed) ==> Elsewhere(s, m)
  {
    AllowSpans(port, allowed);
    if 9 !in PhasesOf(m) { SpanElsewhere(AllowSteps(port, allowed), 9, 10, m); }
  }

  // Each of these interfaces that exists is in the list; the memberships of all others are
  // those from before.
  lemma ListResult(cfg: Config, d: Device, ip: string, d': Device, x: string)
    requires OnboardDone(cfg, d, ip, d')
    ensures if Discovering(cfg, d, ip, x) && Known(d, x)
            then Joined(RowsOf(d, ListMembers, x), RowsOf(d', ListMembers, x), x, "list", "LAN")
            else RowsOf(d', ListMembers, x) == RowsOf(d, ListMembers, x)
  {
    var ifaces := DiscoveryInterfaces(cfg, d, ip);
    DiscoveryFrom(cfg, d, ip, x);
    if ifaces == [] {
      NoDiscovery(cfg, d, ip, d', ListMembers);
    } else {
      var u, v := ListParts(cfg, d, ip);
      RunSplit(u + ListSteps(ifaces), v, d);
      RunSplit(u, ListSteps(ifaces), d);
      ListAsked(ifaces, x);
      var d1 := Run(u, d).0;
      JoinsResult(ListSteps(ifaces), ListMembers, "list", LAN, d1, x);
      BeforeLists(cfg, ListMembers);
      RunElsewhere(u, d, ListMembers);
      BeforeLists(cfg, Interfaces);
      RunElsewhere(u, d, Interfaces);
      BeforeLists(cfg, Bridges);
      RunElsewhere(u, d, Bridges);
      SameInterfaces(d, d1);
      RunElsewhere(v, Run(ListSteps(ifaces), d1).0, ListMembers);
    }
  }

  // Without an interface to discover on, lists and their members stay.
  lemma NoDiscovery(cfg: Config, d: Device, ip: string, d': Device, m: Menu)
    requires OnboardDone(cfg, d, ip, d') && m in {InterfaceLists, ListMembers}
    requires forall x :: !Discovering(cfg, d, ip, x)
    ensures TableOf(d', m) == TableOf(d, m)
  {
    var ifaces, sector, steps := Parts(cfg, d, ip);
    if ifaces != [] { DiscoveryFrom(cfg, d, ip, ifaces[0]); }
    AccessSpans(cfg);
    SpanElsewhere(AccessSteps(cfg), 0, 4, m);
    FirewallElsewhere(cfg.port, cfg.allowed, m);
    SpanElsewhere(sector, 10, 23, m);
    SpanElsewhere(CallHomeSteps(cfg.callHome), 23, 25, m);
    RunElsewhere(steps, d, m);
  }

  /* Firewall */

  // The rule list after the script: rules written out, the accepting one for the first
  // address only, and put on top where rules can be moved.
  lemma RulesResult(cfg: Config, d: Device, ip: string, d': Device)
    requires OnboardDone(cfg, d, ip, d') && cfg.allowed != []
    requires !Any(Rules(d), "comment", "ALLOW ODOO/NOC API") && !Any(Rules(d), "comment", "DROP API OTHERS")
    ensures var n := TableOf(d, Filter).nextId;
            var allow := Row(n, map["chain" := "input", "src-address" := cfg.allowed[0], "protocol" := "tcp",
                                    "dst-port" := cfg.port, "action" := "accept", "comment" := "ALLOW ODOO/NOC API"]);
            var drop := Row(n + 1, map["chain" := "input", "protocol" := "tcp", "dst-port" := cfg.port,
                                       "action" := "drop", "comment" := "DROP API OTHERS"]);
            Rules(d') == (if d.canMove then [allow] + Rules(d) else Rules(d) + [allow]) + [drop]
  {
    FreshRules(cfg, d, ip, d');
    RuleFields(cfg.port, cfg.allowed[0]);
  }

  lemma FreshRules(cfg: Config, d: Device, ip: string, d': Device)
    requires OnboardDone(cfg, d, ip, d') && cfg.allowed != []
    requires !Any(Rules(d), "comment", ALLOW) && !Any(Rules(d), "comment", DROP)
    ensures var n := TableOf(d, Filter).nextId;
            var allow, drop := Row(n, AllowRule(cfg.port, cfg.allowed[0])), Row(n + 1, DropRule(cfg.port));
            Rules(d') == (if d.canMove then [allow] + Rules(d) else Rules(d) + [allow]) + [drop]
  {
    var d1 := FirewallWithin(cfg, d, ip, d');
    FreshFrom(cfg.port, cfg.allowed, d, d1);
  }

  lemma FreshFrom(port: string, allowed: seq<string>, d: Device, d1: Device)
    requires ValidDevice(d1) && TableOf(d1, Filter) == TableOf(d, Filter) && d1.canMove == d.canMove && allowed != []
    requires !Any(Rules(d), "comment", ALLOW) && !Any(Rules(d), "comment", DROP)
    ensures var n := TableOf(d, Filter).nextId;
            var allow, drop := Row(n, AllowRule(port, allowed[0])), Row(n + 1, DropRule(port));
            Rules(Run(FirewallSteps(port, allowed), d1).0)
            == (if d.canMove then [allow] + Rules(d) else Rules(d) + [allow]) + [drop]
  {
    FreshFirewall(port, allowed, d1);
  }

  lemma RuleFields(port: string, ip: string)
    ensures AllowRule(port, ip) == map["chain" := "input", "src-address" := ip, "protocol" := "tcp",
                                       "dst-port" := port, "action" := "accept", "comment" := "ALLOW ODOO/NOC API"]
    ensures DropRule(port) == map["chain" := "input", "protocol" := "tcp", "dst-port" := port, "action" := "drop",
                                  "comment" := "DROP API OTHERS"]
  {
  }

  // With no address allowed, only the dropping rule is seen to.
  lemma NobodyAllowed(cfg: Config, d: Device, ip: string, d': Device)
    requires OnboardDone(cfg, d, ip, d') && cfg.allowed == []
    ensures RowEnsured(TableOf(d, Filter), TableOf(d', Filter), "comment", "DROP API OTHERS",
                       map["chain" := "input", "protocol" := "tcp", "dst-port" := cfg.port, "action" := "drop",
                           "comment" := "DROP API OTHERS"])
  {
    var d1 := FirewallWithin(cfg, d, ip, d');
    RunOne(FirewallSteps(cfg.port, [])[0], d1);
    RuleFields(cfg.port, "");
  }

  // The firewall steps find the rules the script found, and leave those it leaves.
  lemma FirewallWithin(cfg: Config, d: Device, ip: string, d': Device) returns (d1: Device)
    requires OnboardDone(cfg, d, ip, d')
    ensures ValidDevice(d1) && TableOf(d1, Filter) == TableOf(d, Filter) && d1.canMove == d.canMove
    ensures TableOf(d', Filter) == TableOf(Run(FirewallSteps(cfg.port, cfg.allowed), d1).0, Filter)
  {
    var ifaces, sector, steps := Parts(cfg, d, ip);
    var u, v := AccessSteps(cfg) + DiscoverySteps(ifaces), CallHomeSteps(cfg.callHome);
    var firewall := FirewallSteps(cfg.port, cfg.allowed);
    RunSplit(u + firewall + sector, v, d);
    RunSplit(u + firewall, sector, d);
    RunSplit(u, firewall, d);
    d1 := Run(u, d).0;
    UntilFirewall(cfg, ifaces, d);
    SpanSpares(sector, 10, 23, Filter, Run(firewall, d1).0);
    SpanSpares(v, 23, 25, Filter, Run(sector, Run(firewall, d1).0).0);
  }

  lemma UntilFirewall(cfg: Config, ifaces: seq<string>, d: Device)
    requires ValidDevice(d)
    ensures var d1 := Run(AccessSteps(cfg) + DiscoverySteps(ifaces), d).0;
            ValidDevice(d1) && TableOf(d1, Filter) == TableOf(d, Filter) && d1.canMove == d.canMove
  {
    var u := AccessSteps(cfg) + DiscoverySteps(ifaces);
    BeforeFirewall(cfg, ifaces);
    RunElsewhere(u, d, Filter);
    RunKeepsValid(u, d);
    RunKeepsMoving(u, d);
  }

  lemma BeforeFirewall(cfg: Config, ifaces: seq<string>)
    ensures forall s :: s in AccessSteps(cfg) + DiscoverySteps(ifaces) ==> Elsewhere(s, Filter)
    ensures AllWellShaped(AccessSteps(cfg) + DiscoverySteps(ifaces))
  {
    AccessSpans(cfg);
    DiscoverySpans(ifaces);
    SpansConcat(AccessSteps(cfg), DiscoverySteps(ifaces), 0, 4, 9);
    SpanElsewhere(AccessSteps(cfg) + DiscoverySteps(ifaces), 0, 9, Filter);
  }

  /* Call-home */

  lemma CallHomeResult(cfg: Config, d: Device, ip: string, d': Device)
    requires OnboardDone(cfg, d, ip, d')
    ensures match cfg.callHome
            case Incomplete(_) => false
            case Off => TableOf(d', Scripts) == TableOf(d, Scripts) && TableOf(d', Schedulers) == TableOf(d, Schedulers)
            case On(script, scheduler, interval, source) =>
              && RowSet(TableOf(d, Scripts), TableOf(d', Scripts), "name", script,
                        map["source" := source, "policy" := "read,write,test"])
              && RowSet(TableOf(d, Schedulers), TableOf(d', Schedulers), "name", scheduler,
                        map["interval" := interval, "on-event" := "/system/script/run name=" + script,
                            "start-time" := "startup", "disabled" := "no"])
  {
    var ifaces, sector, steps := Parts(cfg, d, ip);
    match cfg.callHome
    case Off =>
      NoCallHome(cfg, d, ip, d', Scripts);
      NoCallHome(cfg, d, ip, d', Schedulers);
    case Incomplete(_) =>
      assert CallHomeSteps(cfg.callHome)[0] in steps;
      NoRaise(steps, d);
    case On(script, scheduler, interval, source) =>
      CallHomeUpsert(cfg, d, ip, d', 0);
      CallHomeUpsert(cfg, d, ip, d', 1);
      CallHomeFields(cfg.callHome);
  }

  lemma CallHomeUpsert(cfg: Config, d: Device, ip: string, d': Device, i: nat)
    requires OnboardDone(cfg, d, ip, d') && cfg.callHome.On? && i < 2
    ensures var s := CallHomeSteps(cfg.callHome)[i];
            s.Upsert? && RowSet(TableOf(d, s.menu), TableOf(d', s.menu), Key(s.menu), s.value, s.attrs)
  {
    var ifaces, sector, steps := Parts(cfg, d, ip);
    assert CallHomeSteps(cfg.callHome)[i] in steps;
    UpsertResult(steps, CallHomeSteps(cfg.callHome)[i], d, 0, 25);
  }

  lemma CallHomeFields(h: CallHome)
    requires h.On?
    ensures CallHomeSteps(h)[0] == Upsert(Scripts, h.script, map["source" := h.source, "policy" := "read,write,test"])
    ensures CallHomeSteps(h)[1] ==
            Upsert(Schedulers, h.scheduler,
                   map["interval" := h.interval, "on-event" := "/system/script/run name=" + h.script,
                       "start-time" := "startup", "disabled" := "no"])
    ensures Key(Scripts) == Key(Schedulers) == "name"
  {
  }

  lemma NoCallHome(cfg: Config, d: Device, ip: string, d': Device, m: Menu)
    requires OnboardDone(cfg, d, ip, d') && cfg.callHome == Off && m in {Scripts, Schedulers}
    ensures TableOf(d', m) == TableOf(d, m)
  {
    var ifaces, sector, steps := Parts(cfg, d, ip);
    SpanElsewhere(EntrySteps(cfg, ifaces), 0, 10, m);
    SpanElsewhere(sector, 10, 23, m);
    RunElsewhere(steps, d, m);
  }

  /* The sector configuration within the script */

  predicate SectorMenu(m: Menu) {
    m in {Interfaces, DhcpClients, Bridges, BridgePorts, Addresses, Pools, DhcpServers, DhcpNetworks, Nat,
          HotspotProfiles, Hotspots, WalledGarden}
  }

  // The same menus, resolver and management interface.
  ghost predicate SameSector(d: Device, d': Device, ip: string) {
    && (forall m :: SectorMenu(m) ==> TableOf(d', m) == TableOf(d, m)) && SettingKept(d, d', Dns)
    && MgmtInterface(d', ip) == MgmtInterface(d, ip)
  }

  lemma OutsideSector(steps: seq<Step>, d: Device, ip: string, lo: nat, hi: nat)
    requires Spans(steps, lo, hi) && (hi <= 10 || lo >= 23)
    ensures SameSector(d, Run(steps, d).0, ip)
  {
    forall m | SectorMenu(m) ensures TableOf(Run(steps, d).0, m) == TableOf(d, m) {
      SpanElsewhere(steps, lo, hi, m);
      RunElsewhere(steps, d, m);
    }
    SpanSettings(steps, lo, hi, Dns);
    RunKeepsSetting(steps, d, Dns);
  }

  // What the sector configuration finds is what the script found, and what it leaves the
  // script leaves, so that its results are those of the script. Switched off, the script
  // does not touch what it is about.
  lemma SectorWithin(cfg: Config, d: Device, ip: string, d': Device) returns (before: Device, after: Device)
    requires OnboardDone(cfg, d, ip, d')
    ensures SameSector(d, before, ip) && SameSector(after, d', ip)
    ensures if cfg.applySector && cfg.sector.Some? then SectorDone(cfg, before, ip, after) else after == before
  {
    var ifaces, sector, steps := Parts(cfg, d, ip);
    var entry, call := EntrySteps(cfg, ifaces), CallHomeSteps(cfg.callHome);
    RunSplit(entry + sector, call, d);
    RunSplit(entry, sector, d);
    before := Run(entry, d).0;
    after := Run(sector, before).0;
    RunKeepsValid(entry, d);
    OutsideSector(entry, d, ip, 0, 10);
    OutsideSector(call, after, ip, 23, 25);
  }

  /* When it goes through */

  lemma SameFits(cfg: Config, d: Device, d': Device, ip: string)
    requires cfg.sector.Some? && SameSector(d, d', ip)
    ensures SectorFits(cfg, d', ip) <==> SectorFits(cfg, d, ip)
  {
    assert SectorMenu(Interfaces) && SectorMenu(Bridges) && SectorMenu(BridgePorts);
    SameInterfaces(d, d');
    assert forall x :: Free(d', x, cfg.sector.value.bridge) <==> Free(d, x, cfg.sector.value.bridge);
  }

  lemma AccessSucceedsIff(cfg: Config, d: Device)
    requires ValidDevice(d)
    ensures Run(AccessSteps(cfg), d).1 == None <==> Identity in d.settings && Any(TableOf(d, Services).rows, "name", "api")
  {
    var identity, api, rest := AccessSteps(cfg)[0], AccessSteps(cfg)[1], AccessSteps(cfg)[2..];
    assert AccessSteps(cfg) == [identity] + ([api] + rest);
    RunSplit([identity], [api] + rest, d);
    RunOne(identity, d);
    IdentitySucceedsIff(identity, cfg.identity, d);
    if Identity in d.settings {
      var d1 := Apply(identity, d).value;
      RunSplit([api], rest, d1);
      RunOne(api, d1);
      ApiSucceedsIff(api, d1);
      if Apply(api, d1).Ok? { LoginSucceeds(cfg, Apply(api, d1).value); }
    }
  }

  lemma IdentitySucceedsIff(s: Step, name: string, d: Device)
    requires ValidDevice(d) && s == Configure(Identity, map["name" := name], false)
    ensures Apply(s, d).Ok? <==> Identity in d.settings
    ensures Apply(s, d).Ok? ==> ValidDevice(Apply(s, d).value) && Apply(s, d).value.tables == d.tables
  {
  }

  lemma ApiSucceedsIff(s: Step, d: Device)
    requires ValidDevice(d) && s == Patch(Services, "api", map["disabled" := "no"])
    ensures Apply(s, d).Ok? <==> Any(TableOf(d, Services).rows, "name", "api")
    ensures Apply(s, d).Ok? ==> ValidDevice(Apply(s, d).value)
  {
    if Apply(s, d).Ok? { ApplyKeepsValid(s, d); }
  }

  lemma LoginSucceeds(cfg: Config, d: Device)
    requires ValidDevice(d)
    ensures Run(AccessSteps(cfg)[2..], d).1 == None
  {
    var group, user := AccessSteps(cfg)[2], AccessSteps(cfg)[3];
    assert AccessSteps(cfg)[2..] == [group, user];
    assert Sure(group, d.settings.Keys) && Sure(user, d.settings.Keys);
    SureRuns([group, user], d);
  }

  lemma {:induction false} ListingSucceeds(steps: seq<Step>, d: Device)
    requires ValidDevice(d) && Joins(steps, ListMembers, "list", LAN)
    ensures Run(steps, d).1 == None && ValidDevice(Run(steps, d).0)
  {
    if steps == [] {
    } else {
      assert steps[0] in steps;
      ApplyKeepsValid(steps[0], d);
      ListingSucceeds(steps[1..], Apply(steps[0], d).value);
    }
  }

  lemma DiscoverySucceeds(ifaces: seq<string>, d: Device)
    requires ValidDevice(d)
    ensures Run(DiscoverySteps(ifaces), d).1 == None && ValidDevice(Run(DiscoverySteps(ifaces), d).0)
  {
    if ifaces != [] {
      var list := EnsureRow(InterfaceLists, "name", LAN, map["name" := LAN]);
      SureSucceeds(list, d);
      RunOne(list, d);
      var d1 := Apply(list, d).value;
      ListAsked(ifaces, "");
      ListingSucceeds(ListSteps(ifaces), d1);
      RunSplit([list], ListSteps(ifaces), d);
      LastSucceeds(Run(ListSteps(ifaces), d1).0);
      RunSplit([list] + ListSteps(ifaces), LastDiscovery(), d);
    }
  }

  lemma LastSucceeds(d: Device)
    requires ValidDevice(d)
    ensures Run(LastDiscovery(), d).1 == None && ValidDevice(Run(LastDiscovery(), d).0)
  {
    assert forall s :: s in LastDiscovery() ==> Sure(s, d.settings.Keys);
    SureRuns(LastDiscovery(), d);
  }

  lemma FirewallSucceeds(port: string, allowed: seq<string>, d: Device)
    requires ValidDevice(d)
    ensures Run(FirewallSteps(port, allowed), d).1 == None
  {
    if allowed == [] { RunOne(FirewallSteps(port, [])[0], d); } else { FirewallResult(port, allowed, d); }
  }

  lemma EntrySucceedsIff(cfg: Config, ifaces: seq<string>, d: Device)
    requires ValidDevice(d)
    ensures Run(EntrySteps(cfg, ifaces), d).1 == None
            <==> Identity in d.settings && Any(TableOf(d, Services).rows, "name", "api")
  {
    var access, discovery, firewall := AccessSteps(cfg), DiscoverySteps(ifaces), FirewallSteps(cfg.port, cfg.allowed);
    AccessSucceedsIff(cfg, d);
    RunSplit(access + discovery, firewall, d);
    RunSplit(access, discovery, d);
    if Run(access, d).1 == None {
      AccessSpans(cfg);
      RunKeepsValid(access, d);
      DiscoverySucceeds(ifaces, Run(access, d).0);
      FirewallSucceeds(cfg.port, cfg.allowed, Run(discovery, Run(access, d).0).0);
    }
  }

  lemma CallHomeSucceedsIff(h: CallHome, d: Device)
    requires ValidDevice(d)
    ensures Run(CallHomeSteps(h), d).1 == None <==> !h.Incomplete?
  {
    match h
    case Off =>
    case Incomplete(_) =>
    case On(_, _, _, _) =>
      CallHomeSpans(h);
      SureRuns(CallHomeSteps(h), d);
  }

  // The script goes through exactly on a router that has an identity and an API service, fits
  // the sector configuration if that is to be applied, and with a call-home that is complete.
  lemma OnboardSucceedsIff(cfg: Config, d: Device, ip: string)
    requires ValidDevice(d)
    ensures OnboardRun(cfg, d, ip).1 == None
            <==> && Identity in d.settings && Any(TableOf(d, Services).rows, "name", "api")
                 && (cfg.applySector && cfg.sector.Some? ==> SectorFits(cfg, d, ip)) && !cfg.callHome.Incomplete?
  {
    var ifaces, sector, steps := Parts(cfg, d, ip);
    var entry, call := EntrySteps(cfg, ifaces), CallHomeSteps(cfg.callHome);
    EntrySucceedsIff(cfg, ifaces, d);
    RunSplit(entry + sector, call, d);
    RunSplit(entry, sector, d);
    var before := Run(entry, d).0;
    RunKeepsValid(entry, d);
    OutsideSector(entry, d, ip, 0, 10);
    if cfg.applySector && cfg.sector.Some? {
      SameFits(cfg, d, before, ip);
      SectorSucceedsIff(cfg, before, ip);
    }
    RunKeepsValid(sector, before);
    CallHomeSucceedsIff(cfg.callHome, Run(sector, before).0);
  }
}
