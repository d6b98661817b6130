/**
  A router and two configurations on which the preloader's second run is not a no-op: in
  one, discovery is told to use the bridge that the same run creates only later; in the
  other, discovery guesses its interface and finds that bridge only the second time.
 */
module RerunExample {
  import opened Basics
  import opened RouterOs
  import opened Reconciler
  import opened Preloader
  import opened PreloaderRestart

  const BRIDGE := "br-pon"

  const SECTOR := SectorConfig("ether2", BRIDGE, [], "10.10.10.1/24", "pon_pool", "10.10.10.100-10.10.10.200",
                               "pon_dhcp", "1h", "10.10.10.0/24", "", false, false, None)

  const CONFIG := Config("MT-1", "8728", "odoo_noc", "secret", [BRIDGE], [], true, Some(SECTOR), NoScript, false, Off)

  // The same without a word about discovery.
  const SILENT := CONFIG.(discovery := [])

  // As good as empty: the API service and the identity every router has.
  const DEVICE := Device(map[Services := Table([Row(0, map["name" := "api"])], 1)], map[Identity := map[]], true)

  // Steps that succeed on every router.
  predicate Easy(s: Step) {
    && Usual(s)
    && match s
       case EnsureRow(m, field, _, _) => m != Bridges
       case Upsert(_, _, _) => true
       case Join(m, _, _, _) => m == ListMembers
       case Configure(_, _, quiet) => quiet
       case _ => false
  }

  lemma EasyApplies(s: Step, d: Device)
    requires Easy(s)
    ensures Apply(s, d).Ok?
  {
  }

  lemma {:induction false} EasyRuns(steps: seq<Step>, d: Device)
    requires forall s :: s in steps ==> Easy(s)
    ensures Run(steps, d).1 == None
  {
    if steps == [] {
    } else {
      assert steps[0] in steps;
      EasyApplies(steps[0], d);
      EasyRuns(steps[1..], Apply(steps[0], d).value);
    }
  }

  function IdentityStep(): Step { Configure(Identity, map["name" := "MT-1"], false) }
  function ServiceStep(): Step { Patch(Services, "api", map["disabled" := "no"]) }

  lemma FirstTwo()
    ensures Run([IdentityStep(), ServiceStep()], DEVICE).1 == None
  {
    var d := Apply(IdentityStep(), DEVICE).value;
    assert TableOf(d, Services).rows == [Row(0, map["name" := "api"])];
    assert Has(TableOf(d, Services).rows[0], "name", "api");
    var d' := Apply(ServiceStep(), d).value;
    assert Run([], d') == (d', None);
    assert [ServiceStep()][1..] == [];
    assert Run([ServiceStep()], d) == (d', None);
    assert [IdentityStep(), ServiceStep()][1..] == [ServiceStep()];
  }

  function Later(ifaces: seq<string>): seq<Step> {
    AccessSteps(CONFIG)[2..] + DiscoverySteps(ifaces) + FirewallSteps("8728", [])
  }

  lemma DiscoveryEasy(ifaces: seq<string>)
    ensures forall s :: s in DiscoverySteps(ifaces) ==> Easy(s)
  {
    DiscoverySpans(ifaces);
  }

  lemma LaterEasy(ifaces: seq<string>)
    ensures forall s :: s in Later(ifaces) ==> Easy(s)
  {
    DiscoveryEasy(ifaces);
    AccessEasy(CONFIG);
    DropEasy("8728");
  }

  lemma AccessEasy(cfg: Config)
    ensures forall s :: s in AccessSteps(cfg)[2..] ==> Easy(s)
  {
  }

  lemma DropEasy(port: string)
    ensures forall s :: s in FirewallSteps(port, []) ==> Easy(s)
  {
  }

  lemma EntrySplit(ifaces: seq<string>)
    ensures EntrySteps(CONFIG, ifaces) == [IdentityStep(), ServiceStep()] + Later(ifaces)
  {
    assert AccessSteps(CONFIG)[..2] == [IdentityStep(), ServiceStep()];
    TakeTwo(AccessSteps(CONFIG), DiscoverySteps(ifaces), FirewallSteps("8728", []));
  }

  lemma TakeTwo(a: seq<Step>, b: seq<Step>, c: seq<Step>)
    requires |a| >= 2
    ensures a + b + c == a[..2] + (a[2..] + b + c)
  {
    assert a == a[..2] + a[2..];
  }

  lemma EntrySucceeds(ifaces: seq<string>)
    ensures Run(EntrySteps(CONFIG, ifaces), DEVICE).1 == None
  {
    EntrySplit(ifaces);
    FirstTwo();
    RunSplit([IdentityStep(), ServiceStep()], Later(ifaces), DEVICE);
    LaterEasy(ifaces);
    EasyRuns(Later(ifaces), Run([IdentityStep(), ServiceStep()], DEVICE).0);
  }

  lemma NoInterfaces(ifaces: seq<string>)
    ensures Printed(Run(EntrySteps(CONFIG, ifaces), DEVICE).0, Interfaces) == []
  {
    var steps := EntrySteps(CONFIG, ifaces);
    EntrySpans(CONFIG, ifaces);
    SpansElsewhere(steps, 0, 10, Interfaces);
    SpansElsewhere(steps, 0, 10, Bridges);
    RunElsewhere(steps, DEVICE, Interfaces);
    RunElsewhere(steps, DEVICE, Bridges);
  }

  lemma DhcpEasy(c: SectorConfig)
    ensures Easy(AddressStep(c)) && Easy(PoolStep(c)) && Easy(ServerStep(c)) && Easy(NetworkStep(c))
  {
  }

  lemma PlainTail(cfg: Config, c: SectorConfig)
    requires c.ports == [] && c.dns == "" && !c.masquerade && c.hotspot == None
    requires cfg.lease == NoScript && !cfg.clearLease && cfg.callHome == Off
    ensures AfterBridge(cfg, c, None) == [AddressStep(c), PoolStep(c), ServerStep(c), NetworkStep(c)]
  {
  }

  lemma TailEasy()
    ensures forall s :: s in AfterBridge(CONFIG, SECTOR, None) ==> Easy(s)
  {
    PlainTail(CONFIG, SECTOR);
    DhcpEasy(SECTOR);
  }

  lemma FirstRunSplit(ifaces: seq<string>)
    ensures OnboardSteps(CONFIG, ifaces, None) ==
            EntrySteps(CONFIG, ifaces)
            + ([EnsureRow(Bridges, "name", BRIDGE, map["name" := BRIDGE])] + AfterBridge(CONFIG, SECTOR, None))
  {
    OnboardAtBridge(CONFIG, ifaces, None);
    assert BeforeBridge(CONFIG, ifaces, SECTOR) == EntrySteps(CONFIG, ifaces);
  }

  lemma FirstRunSucceeds(ifaces: seq<string>)
    ensures Run(OnboardSteps(CONFIG, ifaces, None), DEVICE).1 == None
  {
    var bridge := EnsureRow(Bridges, "name", BRIDGE, map["name" := BRIDGE]);
    var entry, rest := EntrySteps(CONFIG, ifaces), AfterBridge(CONFIG, SECTOR, None);
    EntrySucceeds(ifaces);
    NoInterfaces(ifaces);
    FirstRunSplit(ifaces);
    RunSplit(entry, [bridge] + rest, DEVICE);
    TailEasy();
    BridgeThenEasy(bridge, rest, Run(entry, DEVICE).0);
  }

  lemma BridgeThenEasy(bridge: Step, rest: seq<Step>, d: Device)
    requires Apply(bridge, d).Ok? && forall s :: s in rest ==> Easy(s)
    ensures Run([bridge] + rest, d).1 == None
  {
    assert ([bridge] + rest)[1..] == rest;
    EasyRuns(rest, Apply(bridge, d).value);
  }

  lemma NotRerunSafe()
    ensures ValidDevice(DEVICE) && !RerunSafe(CONFIG, DEVICE, "192.168.88.1")
  {
    assert Printed(DEVICE, Interfaces) == [];
    assert TableOf(DEVICE, ListMembers).rows == [];
    assert Bridging(CONFIG) && BRIDGE in CONFIG.discovery;
  }

  // The run succeeds, but repeating it changes the router.
  lemma SecondRunChanges()
    ensures ValidDevice(DEVICE)
    ensures var (d, e) := OnboardRun(CONFIG, DEVICE, "192.168.88.1");
            e == None && OnboardRun(CONFIG, d, "192.168.88.1") != (d, None)
  {
    var ip := "192.168.88.1";
    NotRerunSafe();
    FirstRunSucceeds([BRIDGE]);
    assert TableOf(DEVICE, Addresses).rows == [];
    assert MgmtInterface(DEVICE, ip) == None;
    OnboardIdempotentIff(CONFIG, DEVICE, OnboardRun(CONFIG, DEVICE, ip).0, ip);
  }

  lemma GuessNotRerunSafe()
    ensures ValidDevice(DEVICE) && !RerunSafe(SILENT, DEVICE, "10.10.10.1")
  {
    assert "10.10.10.1" + "/" <= SECTOR.address;
    assert TableOf(DEVICE, Addresses).rows == [] && TableOf(DEVICE, InterfaceLists).rows == [];
    assert Bridging(SILENT) && SILENT.discovery == [];
  }

  // Without configured discovery the first run finds no interface to use, and the second,
  // thanks to the address the first has set, finds the bridge.
  lemma SecondGuessChanges()
    ensures ValidDevice(DEVICE)
    ensures var (d, e) := OnboardRun(SILENT, DEVICE, "10.10.10.1");
            e == None && OnboardRun(SILENT, d, "10.10.10.1") != (d, None)
  {
    var ip := "10.10.10.1";
    GuessNotRerunSafe();
    FirstRunSucceeds([]);
    assert TableOf(DEVICE, Addresses).rows == [];
    assert MgmtInterface(DEVICE, ip) == None && DiscoveryInterfaces(SILENT, DEVICE, ip) == [];
    SilentSteps();
    OnboardIdempotentIff(SILENT, DEVICE, OnboardRun(SILENT, DEVICE, ip).0, ip);
  }

  lemma SilentSteps()
    ensures OnboardSteps(SILENT, [], None) == OnboardSteps(CONFIG, [], None)
  {
  }
}
