/**
  The whole script, restarted: from every state a run reaches it goes the way of the uncut
  run exactly on the routers on which it is also idempotent.
 */
module RestartIff {
  import opened Basics
  import opened RouterOs
  import opened Reconciler
  import opened Preloader
  import opened PreloaderRestart

  // Everything up to the ports, as the run makes it that discovers the bridge.
  function Beginning(cfg: Config, c: SectorConfig): seq<Step> {
    EntrySteps(cfg, [c.bridge]) + HeadSteps(c) + PortSteps(c.bridge, c.ports, Some(c.bridge))
  }

  lemma BridgeListed(d: Device, name: string)
    requires Any(TableOf(d, Bridges).rows, "name", name)
    ensures Any(Printed(d, Interfaces), "name", name)
  {
    var i := First(TableOf(d, Bridges).rows, "name", name);
    assert Has(Printed(d, Interfaces)[|TableOf(d, Interfaces).rows| + i], "name", name);
  }

  lemma HeadHasBridge(c: SectorConfig)
    ensures EnsureRow(Bridges, "name", c.bridge, map["name" := c.bridge]) in HeadSteps(c)
  {
    var h := HeadSteps(c);
    assert h[|h| - 1] == EnsureRow(Bridges, "name", c.bridge, map["name" := c.bridge]);
  }

  // A step of that beginning is one of discovery, or of the beginning without discovery.
  lemma BeginningStep(cfg: Config, c: SectorConfig, s: Step)
    requires s in Beginning(cfg, c)
    ensures s in DiscoverySteps([c.bridge])
            || s in EntrySteps(cfg, []) + HeadSteps(c) + PortSteps(c.bridge, c.ports, Some(c.bridge))
  {
  }

  lemma ShapedBeginning(cfg: Config, c: SectorConfig)
    ensures AllWellShaped(Beginning(cfg, c))
  {
    EntrySpans(cfg, [c.bridge]);
    HeadSpans(c);
    PortSpans(c.bridge, c.ports, Some(c.bridge));
    SpansConcat(EntrySteps(cfg, [c.bridge]), HeadSteps(c), 0, 10, 12);
    SpansConcat(EntrySteps(cfg, [c.bridge]) + HeadSteps(c), PortSteps(c.bridge, c.ports, Some(c.bridge)), 0, 12, 13);
  }

  // Once the ports are done and discovery has nothing left to do, nor has that beginning.
  lemma BeginningEstablished(cfg: Config, c: SectorConfig, d: Device)
    requires EstablishedRun(EntrySteps(cfg, []) + HeadSteps(c) + PortSteps(c.bridge, c.ports, Some(c.bridge)), d)
    requires Discovering(d, c.bridge)
    ensures EstablishedRun(Beginning(cfg, c), d)
  {
    var rest := EntrySteps(cfg, []) + HeadSteps(c) + PortSteps(c.bridge, c.ports, Some(c.bridge));
    var all := Beginning(cfg, c);
    HeadHasBridge(c);
    var bridge := EnsureRow(Bridges, "name", c.bridge, map["name" := c.bridge]);
    EstablishedMember(rest, d, bridge);
    BridgeListed(d, c.bridge);
    DiscoveringEstablished(d, c.bridge);
    ShapedBeginning(cfg, c);
    forall i | 0 <= i < |all| ensures Established(all[i], d) {
      BeginningStep(cfg, c, all[i]);
      if all[i] in rest { EstablishedMember(rest, d, all[i]); }
    }
  }

  lemma EstablishedMember(steps: seq<Step>, d: Device, s: Step)
    requires EstablishedRun(steps, d) && s in steps
    ensures Established(s, d)
  {
    var i :| 0 <= i < |steps| && steps[i] == s;
  }

  // The guess has changed on the way: both ways of going on agree.
  lemma GuessedRestart(cfg: Config, d: Device, mid: Device, ip: string)
    requires ValidDevice(d) && Bridging(cfg) && MgmtInterface(d, ip) == None
    requires Reached(OnboardSteps(cfg, [], None), d, mid) && Discovering(d, cfg.sector.value.bridge)
    requires MgmtInterface(mid, ip) == Some(cfg.sector.value.bridge)
    ensures Run(OnboardSteps(cfg, [cfg.sector.value.bridge], Some(cfg.sector.value.bridge)), mid)
            == Run(OnboardSteps(cfg, [], None), mid)
  {
    var c := cfg.sector.value;
    var steps := OnboardSteps(cfg, [], None);
    var u, v := EntrySteps(cfg, []) + HeadSteps(c), ServiceSteps(cfg, c) + CallHomeSteps(cfg.callHome);
    OnboardOrdered(cfg, [], None, d);
    OnboardAround(cfg, [], None);
    OnboardAround(cfg, [c.bridge], Some(c.bridge));
    AroundElsewhere(cfg, [], c);
    SameFromAddress(u, c, v, d, mid, ip);
    var k :| 0 <= k <= |steps| && Run(steps[..k], d) == (mid, None);
    DiscoveringKept(cfg, steps[..k], d, c.bridge);
    BeginningEstablished(cfg, c, mid);
    EstablishedRunSkips(Beginning(cfg, c), mid);
    RunSplit(Beginning(cfg, c), [AddressStep(c)] + v, mid);
    RunSplit(u + PortSteps(c.bridge, c.ports, None), [AddressStep(c)] + v, mid);
  }

  // On a rerun safe router the script goes the same way from every state it reaches, in
  // success and in failure.
  lemma OnboardRestartSafe(cfg: Config, d: Device, mid: Device, ip: string)
    requires ValidDevice(d) && RerunSafe(cfg, d, ip)
    requires Reached(OnboardSteps(cfg, DiscoveryInterfaces(cfg, d, ip), MgmtInterface(d, ip)), d, mid)
    ensures OnboardRun(cfg, mid, ip) == OnboardRun(cfg, d, ip)
  {
    if Steady(cfg, d, ip) {
      OnboardRestart(cfg, d, mid, ip);
    } else {
      UnsteadyRestart(cfg, d, mid, ip);
    }
  }

  lemma UnsteadyRestart(cfg: Config, d: Device, mid: Device, ip: string)
    requires ValidDevice(d) && !Steady(cfg, d, ip) && Discovering(d, cfg.sector.value.bridge)
    requires Reached(OnboardSteps(cfg, DiscoveryInterfaces(cfg, d, ip), MgmtInterface(d, ip)), d, mid)
    ensures OnboardRun(cfg, mid, ip) == OnboardRun(cfg, d, ip)
  {
    var c := cfg.sector.value;
    MgmtAfterAppend(TableOf(d, Addresses).rows, Row(0, map[]), ip);
    assert MgmtInterface(d, ip) == None && DiscoveryInterfaces(cfg, d, ip) == [];
    OnboardOrdered(cfg, [], None, d);
    RestartConverges(OnboardSteps(cfg, [], None), d, mid);
    OnboardAround(cfg, [], None);
    AroundElsewhere(cfg, [], c);
    MgmtAlong(EntrySteps(cfg, []) + HeadSteps(c), c, None, ServiceSteps(cfg, c) + CallHomeSteps(cfg.callHome),
              d, mid, ip);
    if MgmtInterface(mid, ip) != None { GuessedRestart(cfg, d, mid, ip); }
  }

  // A successful run converges from every state it passes through exactly if the router is
  // rerun safe before it.
  lemma OnboardRestartIff(cfg: Config, d: Device, ip: string)
    requires ValidDevice(d) && OnboardRun(cfg, d, ip).1 == None
    ensures (forall mid :: Reached(OnboardSteps(cfg, DiscoveryInterfaces(cfg, d, ip), MgmtInterface(d, ip)), d, mid) ==>
                             OnboardRun(cfg, mid, ip) == OnboardRun(cfg, d, ip))
            <==> RerunSafe(cfg, d, ip)
  {
    var steps := OnboardSteps(cfg, DiscoveryInterfaces(cfg, d, ip), MgmtInterface(d, ip));
    var f := OnboardRun(cfg, d, ip).0;
    FailureIsReached(steps, d);
    OnboardIdempotentIff(cfg, d, f, ip);
    if RerunSafe(cfg, d, ip) {
      forall mid | Reached(steps, d, mid) ensures OnboardRun(cfg, mid, ip) == OnboardRun(cfg, d, ip) {
        OnboardRestartSafe(cfg, d, mid, ip);
      }
    }
  }
}
