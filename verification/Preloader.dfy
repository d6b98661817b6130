/**
  The preloader's configuration, the steps it takes on a router, and the order they come in:
  no step undoes an earlier one.
 */
module Preloader {
  import opened Basics
  import opened RouterOs
  import opened Reconciler

  /* Configuration; the empty string stands for a value that is not set */

  datatype HotspotConfig = HotspotConfig(
    profile: string, server: string, dnsName: string, loginBy: string, htmlDir: string, walledGarden: string)

  datatype SectorConfig = SectorConfig(
    wan: string, bridge: string, ports: seq<string>, address: string, pool: string, range: string,
    server: string, leaseTime: string, network: string, dns: string,
    dhcpClientOnWan: bool, masquerade: bool, hotspot: Option<HotspotConfig>)

  datatype LeaseScript = NoScript | NoToken | Script(text: string)
  datatype CallHome =
    | Off
    | Incomplete(reason: string)
    | On(script: string, scheduler: string, interval: string, source: string)

  datatype Config = Config(
    identity: string, port: string, user: string, password: string,
    discovery: seq<string>, allowed: seq<string>,
    applySector: bool, sector: Option<SectorConfig>,
    lease: LeaseScript, clearLease: bool, callHome: CallHome)

  const GROUP := "odoo_noc_group"
  const GROUP_POLICY := "read,write,api,!local,!telnet,!ssh,!ftp,!reboot,!policy,!password,!sniff,!sensitive"
  const LAN := "LAN"
  const ALLOW := "ALLOW ODOO/NOC API"
  const DROP := "DROP API OTHERS"

  /* The steps */

  function AccessSteps(cfg: Config): seq<Step> {
    [ Configure(Identity, map["name" := cfg.identity], false),
      Patch(Services, "api", map["disabled" := "no"]),
      EnsureRow(Groups, "name", GROUP, map["name" := GROUP, "policy" := GROUP_POLICY]),
      Upsert(Users, cfg.user, map["password" := cfg.password, "group" := GROUP]) ]
  }

  function ListSteps(ifaces: seq<string>): seq<Step> {
    seq(|ifaces|, i requires 0 <= i < |ifaces| => Join(ListMembers, ifaces[i], "list", LAN))
  }

  function DiscoverySteps(ifaces: seq<string>): seq<Step> {
    if ifaces == [] then []
    else
      [EnsureRow(InterfaceLists, "name", LAN, map["name" := LAN])]
      + ListSteps(ifaces)
      + [ Configure(Discovery, map["discover-interface-list" := LAN], true),
          Configure(MacServer, map["allowed-interface-list" := LAN], true),
          Configure(MacWinbox, map["allowed-interface-list" := LAN], true) ]
  }

  function AllowRule(port: string, ip: string): Attrs {
    map["chain" := "input", "src-address" := ip, "protocol" := "tcp", "dst-port" := port,
        "action" := "accept", "comment" := ALLOW]
  }

  function DropRule(port: string): Attrs {
    map["chain" := "input", "protocol" := "tcp", "dst-port" := port, "action" := "drop", "comment" := DROP]
  }

  // One allowed address: the rule is added unless one with the comment exists, then put on top.
  function AllowSteps(port: string, allowed: seq<string>): seq<Step> {
    if allowed == [] then []
    else
      [EnsureRow(Filter, "comment", ALLOW, AllowRule(port, allowed[0])), LiftFirst(Filter, ALLOW)]
      + AllowSteps(port, allowed[1..])
  }

  function FirewallSteps(port: string, allowed: seq<string>): seq<Step> {
    AllowSteps(port, allowed) + [EnsureRow(Filter, "comment", DROP, DropRule(port))]
  }

  predicate Complete(c: SectorConfig) {
    && c.wan != "" && c.bridge != "" && c.address != "" && c.pool != ""
    && c.range != "" && c.server != "" && c.network != ""
  }

  function HeadSteps(c: SectorConfig): seq<Step> {
    (if c.dhcpClientOnWan then
       [EnsureRow(DhcpClients, "interface", c.wan,
                  map["interface" := c.wan, "disabled" := "no", "add-default-route" := "yes",
                      "use-peer-dns" := "yes", "comment" := "ISP-WAN"])]
     else [])
    + [EnsureRow(Bridges, "name", c.bridge, map["name" := c.bridge])]
  }

  // The management interface is not put into the bridge.
  predicate Skipped(port: string, mgmt: Option<string>) {
    mgmt.Some? && mgmt.value != "" && port == mgmt.value
  }

  function PortSteps(bridge: string, ports: seq<string>, mgmt: Option<string>): seq<Step> {
    if ports == [] then []
    else
      (if Skipped(ports[0], mgmt) then [] else [Join(BridgePorts, ports[0], "bridge", bridge)])
      + PortSteps(bridge, ports[1..], mgmt)
  }

  function BeforeSlash(s: string): string {
    if s == "" || s[0] == '/' then "" else [s[0]] + BeforeSlash(s[1..])
  }

  function AddressStep(c: SectorConfig): Step {
    EnsureRow(Addresses, "address", c.address, map["address" := c.address, "interface" := c.bridge])
  }

  function ProfileStep(h: HotspotConfig): Step {
    Upsert(HotspotProfiles, h.profile,
           map["dns-name" := h.dnsName, "login-by" := h.loginBy, "html-directory" := h.htmlDir])
  }

  function HotspotStep(c: SectorConfig, h: HotspotConfig): Step {
    Upsert(Hotspots, h.server, map["interface" := c.bridge, "address-pool" := c.pool, "profile" := h.profile])
  }

  function GardenStep(h: HotspotConfig): Step {
    EnsureRow(WalledGarden, "comment", "ISP-WALLED-GARDEN",
              map["dst-host" := h.walledGarden, "comment" := "ISP-WALLED-GARDEN"])
  }

  function HotspotSteps(c: SectorConfig): seq<Step> {
    match c.hotspot
    case None => []
    case Some(h) =>
      if h.dnsName == "" then [Raise(Refused("hotspot_dns_name is required when enable_hotspot is true"))]
      else [ProfileStep(h), HotspotStep(c, h)] + (if h.walledGarden == "" then [] else [GardenStep(h)])
  }

  function LeaseSteps(lease: LeaseScript, clear: bool, server: string): seq<Step> {
    match lease
    case NoToken => [Raise(Refused("webhook token missing: set webhook.token_env or webhook.token_value"))]
    case NoScript => if clear then [Patch(DhcpServers, server, map["lease-script" := ""])] else []
    case Script(text) => [Patch(DhcpServers, server, map["lease-script" := text])]
  }

  function DnsSteps(c: SectorConfig): seq<Step> {
    if c.dns == "" then [] else [Configure(Dns, map["servers" := c.dns, "allow-remote-requests" := "yes"], false)]
  }

  function NatSteps(c: SectorConfig): seq<Step> {
    if !c.masquerade then []
    else [EnsureRow(Nat, "comment", "ISP-NAT",
                    map["chain" := "srcnat", "out-interface" := c.wan, "action" := "masquerade",
                        "comment" := "ISP-NAT"])]
  }

  function ServiceSteps(cfg: Config, c: SectorConfig): seq<Step> {
    DhcpSteps(c) + DnsSteps(c) + NatSteps(c) + HotspotSteps(c)
    + LeaseSteps(cfg.lease, cfg.clearLease, c.server)
  }

  function PoolStep(c: SectorConfig): Step {
    Upsert(Pools, c.pool, map["ranges" := c.range])
  }

  function ServerStep(c: SectorConfig): Step {
    Upsert(DhcpServers, c.server, map["interface" := c.bridge, "address-pool" := c.pool, "lease-time" := c.leaseTime])
  }

  function NetworkStep(c: SectorConfig): Step {
    Upsert(DhcpNetworks, c.network,
           map["gateway" := BeforeSlash(c.address),
               "dns-server" := if c.dns != "" then c.dns else BeforeSlash(c.address)])
  }

  function DhcpSteps(c: SectorConfig): seq<Step> {
    [PoolStep(c), ServerStep(c), NetworkStep(c)]
  }

  function TailSteps(cfg: Config, c: SectorConfig): seq<Step> {
    [AddressStep(c)] + ServiceSteps(cfg, c)
  }

  function SectorSteps(cfg: Config, mgmt: Option<string>): seq<Step> {
    match cfg.sector
    case None => []
    case Some(c) =>
      if !Complete(c) then [Raise(Refused("Missing routeros.config required values"))]
      else HeadSteps(c) + PortSteps(c.bridge, c.ports, mgmt) + TailSteps(cfg, c)
  }

  function CallHomeSteps(h: CallHome): seq<Step> {
    match h
    case Off => []
    case Incomplete(reason) => [Raise(Refused(reason))]
    case On(script, scheduler, interval, source) =>
      [ Upsert(Scripts, script, map["source" := source, "policy" := "read,write,test"]),
        Upsert(Schedulers, scheduler,
               map["interval" := interval, "on-event" := "/system/script/run name=" + script,
                   "start-time" := "startup", "disabled" := "no"]) ]
  }

  // Everything before the sector configuration.
  function EntrySteps(cfg: Config, ifaces: seq<string>): seq<Step> {
    AccessSteps(cfg) + DiscoverySteps(ifaces) + FirewallSteps(cfg.port, cfg.allowed)
  }

  function OnboardSteps(cfg: Config, ifaces: seq<string>, mgmt: Option<string>): seq<Step> {
    EntrySteps(cfg, ifaces) + (if cfg.applySector then SectorSteps(cfg, mgmt) else []) + CallHomeSteps(cfg.callHome)
  }

  /* What the preloader reads off the router before it starts */

  predicate OnAddress(row: Row, ip: string) {
    "address" in row.attrs && ip + "/" <= row.attrs["address"]
  }

  // Interface of the first address that the management ip belongs to.
  function MgmtOf(rows: seq<Row>, ip: string): Option<string> {
    if rows == [] then None
    else if OnAddress(rows[0], ip) then
      if "interface" in rows[0].attrs then Some(rows[0].attrs["interface"]) else None
    else MgmtOf(rows[1..], ip)
  }

  function MgmtInterface(d: Device, ip: string): Option<string> {
    MgmtOf(TableOf(d, Addresses).rows, ip)
  }

  function DiscoveryInterfaces(cfg: Config, d: Device, ip: string): seq<string> {
    if cfg.discovery != [] then cfg.discovery
    else
      var guess := MgmtInterface(d, ip);
      if guess.Some? && guess.value != "" then [guess.value] else []
  }

  // The run the script makes when it finds the router in state d.
  function SectorRun(cfg: Config, d: Device, ip: string): (Device, Option<Error>) {
    Run(SectorSteps(cfg, MgmtInterface(d, ip)), d)
  }

  function OnboardRun(cfg: Config, d: Device, ip: string): (Device, Option<Error>) {
    Run(OnboardSteps(cfg, DiscoveryInterfaces(cfg, d, ip), MgmtInterface(d, ip)), d)
  }

  /* The steps come in an order in which none undoes an earlier one */

  function Phase(s: Step): nat {
    match s
    case Configure(setting, _, _) =>
      (match setting case Identity => 0 case Discovery => 6 case MacServer => 7 case MacWinbox => 8 case Dns => 17)
    case Patch(m, _, _) => if m == Services then 1 else 22
    case EnsureRow(m, _, _, _) =>
      (match m case Groups => 2 case InterfaceLists => 4 case Filter => 9 case DhcpClients => 10
               case Bridges => 11 case Addresses => 13 case Nat => 18 case _ => 21)
    case Upsert(m, _, _) =>
      (match m case Users => 3 case Pools => 14 case DhcpServers => 15 case DhcpNetworks => 16
               case HotspotProfiles => 19 case Hotspots => 20 case Scripts => 23 case _ => 24)
    case Join(m, _, _, _) => if m == ListMembers then 5 else 12
    case LiftFirst(_, _) => 9
    case Raise(_) => 25
  }

  predicate Usual(s: Step) {
    WellShaped(s) &&
    match s
    case EnsureRow(m, _, _, _) =>
      m in {Groups, InterfaceLists, Filter, DhcpClients, Bridges, Addresses, Nat, WalledGarden}
    case Upsert(m, _, attrs) =>
      && m in {Users, Pools, DhcpServers, DhcpNetworks, HotspotProfiles, Hotspots, Scripts, Schedulers}
      && "lease-script" !in attrs
    case Patch(m, _, attrs) =>
      m == Services || (m == DhcpServers && attrs.Keys == {"lease-script"})
    case LiftFirst(m, comment) => comment == ALLOW
    case _ => true
  }

  predicate Repeatable(n: nat) { n in {5, 9, 12} }

  predicate Before(a: Step, b: Step) {
    b.Raise? || a.Raise? || Phase(a) < Phase(b) || (Phase(a) == Phase(b) && Repeatable(Phase(a)))
  }

  // A join of the interface that the bridge step is about to create.
  predicate Premature(a: Step, b: Step) {
    a.Join? && b.EnsureRow? && b.menu == Bridges && "name" in b.attrs && b.attrs["name"] == a.iface
  }

  lemma BeforeSpares(a: Step, b: Step)
    requires Usual(a) && Usual(b) && Before(a, b) && !Premature(a, b)
    ensures Spares(b, a)
  {
    match b
    case Raise(_) =>
    case Configure(_, _, _) =>
    case EnsureRow(_, _, _, _) =>
    case Upsert(_, _, _) =>
    case Patch(_, _, _) =>
    case Join(_, _, _, _) =>
    case LiftFirst(_, _) =>
  }

  // Usual steps, sorted, with phases in a range.
  ghost predicate Spans(steps: seq<Step>, lo: nat, hi: nat) {
    && (forall i :: 0 <= i < |steps| ==> Usual(steps[i]) && (steps[i].Raise? || lo <= Phase(steps[i]) < hi))
    && (forall i, j :: 0 <= i < j < |steps| ==> Before(steps[i], steps[j]))
  }

  lemma SpansConcat(u: seq<Step>, v: seq<Step>, lo: nat, mid: nat, hi: nat)
    requires Spans(u, lo, mid) && Spans(v, mid, hi) && lo <= mid <= hi
    ensures Spans(u + v, lo, hi)
  {
  }

  lemma AccessSpans(cfg: Config)
    ensures Spans(AccessSteps(cfg), 0, 4)
  {
    var steps := AccessSteps(cfg);
    SpansFour(steps[0], steps[1], steps[2], steps[3]);
    assert steps == [steps[0], steps[1], steps[2], steps[3]];
  }

  lemma SpansFour(a: Step, b: Step, c: Step, d: Step)
    requires Usual(a) && Usual(b) && Usual(c) && Usual(d)
    requires Phase(a) == 0 && Phase(b) == 1 && Phase(c) == 2 && Phase(d) == 3
    ensures Spans([a, b, c, d], 0, 4)
  {
  }

  lemma DiscoverySpans(ifaces: seq<string>)
    ensures Spans(DiscoverySteps(ifaces), 4, 9)
  {
    if ifaces != [] {
      var first := [EnsureRow(InterfaceLists, "name", LAN, map["name" := LAN])];
      var last := [ Configure(Discovery, map["discover-interface-list" := LAN], true),
                    Configure(MacServer, map["allowed-interface-list" := LAN], true),
                    Configure(MacWinbox, map["allowed-interface-list" := LAN], true) ];
      assert Spans(first, 4, 5);
      assert Spans(ListSteps(ifaces), 5, 6);
      assert Spans(last, 6, 9);
      SpansConcat(first, ListSteps(ifaces), 4, 5, 6);
      SpansConcat(first + ListSteps(ifaces), last, 4, 6, 9);
    }
  }

  lemma {:induction false} AllowSpans(port: string, allowed: seq<string>)
    ensures Spans(AllowSteps(port, allowed), 9, 10)
  {
    if allowed == [] {
    } else {
      AllowSpans(port, allowed[1..]);
    }
  }

  lemma {:induction false} PortSpans(bridge: string, ports: seq<string>, mgmt: Option<string>)
    ensures Spans(PortSteps(bridge, ports, mgmt), 12, 13)
  {
    if ports == [] {
    } else {
      PortSpans(bridge, ports[1..], mgmt);
    }
  }

  lemma SpanOne(s: Step, lo: nat, hi: nat)
    requires Usual(s) && (s.Raise? || lo <= Phase(s) < hi)
    ensures Spans([s], lo, hi)
  {
  }

  lemma DnsSpans(c: SectorConfig)
    ensures Spans(DnsSteps(c), 17, 18)
  {
    if c.dns != "" { SpanOne(DnsSteps(c)[0], 17, 18); }
  }

  lemma NatSpans(c: SectorConfig)
    ensures Spans(NatSteps(c), 18, 19)
  {
    if c.masquerade { SpanOne(NatSteps(c)[0], 18, 19); }
  }

  lemma LeaseSpans(lease: LeaseScript, clear: bool, server: string)
    ensures Spans(LeaseSteps(lease, clear, server), 22, 23)
  {
    if LeaseSteps(lease, clear, server) != [] { SpanOne(LeaseSteps(lease, clear, server)[0], 22, 23); }
  }

  lemma HotspotSpans(c: SectorConfig)
    ensures Spans(HotspotSteps(c), 19, 22)
  {
    match c.hotspot
    case None =>
    case Some(h) =>
      if h.dnsName == "" { SpanOne(HotspotSteps(c)[0], 19, 22); } else { HotspotOnSpans(c, h); }
  }

  lemma HotspotOnSpans(c: SectorConfig, h: HotspotConfig)
    ensures Spans([ProfileStep(h), HotspotStep(c, h)] + (if h.walledGarden == "" then [] else [GardenStep(h)]), 19, 22)
  {
    SpanOne(ProfileStep(h), 19, 20);
    SpanOne(HotspotStep(c, h), 20, 21);
    SpanOne(GardenStep(h), 21, 22);
    SpansConcat([ProfileStep(h)], [HotspotStep(c, h)], 19, 20, 21);
    assert [ProfileStep(h), HotspotStep(c, h)] == [ProfileStep(h)] + [HotspotStep(c, h)];
    SpansConcat([ProfileStep(h), HotspotStep(c, h)], if h.walledGarden == "" then [] else [GardenStep(h)], 19, 21, 22);
  }

  lemma DhcpSpans(c: SectorConfig)
    ensures Spans(DhcpSteps(c), 14, 17)
  {
    SpanOne(PoolStep(c), 14, 15);
    SpanOne(ServerStep(c), 15, 16);
    SpanOne(NetworkStep(c), 16, 17);
    SpansConcat([PoolStep(c)], [ServerStep(c)], 14, 15, 16);
    SpansConcat([PoolStep(c)] + [ServerStep(c)], [NetworkStep(c)], 14, 16, 17);
    assert DhcpSteps(c) == [PoolStep(c)] + [ServerStep(c)] + [NetworkStep(c)];
  }

  lemma ServiceSpans(cfg: Config, c: SectorConfig)
    ensures Spans(ServiceSteps(cfg, c), 14, 23)
  {
    DnsSpans(c);
    NatSpans(c);
    HotspotSpans(c);
    LeaseSpans(cfg.lease, cfg.clearLease, c.server);
    DhcpSpans(c);
    var lease := LeaseSteps(cfg.lease, cfg.clearLease, c.server);
    SpansConcat(DhcpSteps(c), DnsSteps(c), 14, 17, 18);
    SpansConcat(DhcpSteps(c) + DnsSteps(c), NatSteps(c), 14, 18, 19);
    SpansConcat(DhcpSteps(c) + DnsSteps(c) + NatSteps(c), HotspotSteps(c), 14, 19, 22);
    SpansConcat(DhcpSteps(c) + DnsSteps(c) + NatSteps(c) + HotspotSteps(c), lease, 14, 22, 23);
  }

  lemma HeadSpans(c: SectorConfig)
    ensures Spans(HeadSteps(c), 10, 12)
  {
  }

  lemma TailSpans(cfg: Config, c: SectorConfig)
    ensures Spans(TailSteps(cfg, c), 13, 23)
  {
    ServiceSpans(cfg, c);
    assert Spans([AddressStep(c)], 13, 14);
    SpansConcat([AddressStep(c)], ServiceSteps(cfg, c), 13, 14, 23);
  }

  lemma SectorSpans(cfg: Config, mgmt: Option<string>)
    ensures Spans(SectorSteps(cfg, mgmt), 10, 23)
  {
    match cfg.sector
    case None =>
    case Some(c) =>
      var ports := PortSteps(c.bridge, c.ports, mgmt);
      HeadSpans(c);
      PortSpans(c.bridge, c.ports, mgmt);
      TailSpans(cfg, c);
      SpansConcat(HeadSteps(c), ports, 10, 12, 13);
      SpansConcat(HeadSteps(c) + ports, TailSteps(cfg, c), 10, 13, 23);
  }

  lemma EntrySpans(cfg: Config, ifaces: seq<string>)
    ensures Spans(EntrySteps(cfg, ifaces), 0, 10)
  {
    AccessSpans(cfg);
    DiscoverySpans(ifaces);
    AllowSpans(cfg.port, cfg.allowed);
    SpansConcat(AccessSteps(cfg), DiscoverySteps(ifaces), 0, 4, 9);
    SpansConcat(AccessSteps(cfg) + DiscoverySteps(ifaces), FirewallSteps(cfg.port, cfg.allowed), 0, 9, 10);
  }

  lemma CallHomeSpans(h: CallHome)
    ensures Spans(CallHomeSteps(h), 23, 25)
  {
  }

  lemma OnboardSpans(cfg: Config, ifaces: seq<string>, mgmt: Option<string>)
    ensures Spans(OnboardSteps(cfg, ifaces, mgmt), 0, 25)
  {
    EntrySpans(cfg, ifaces);
    SectorSpans(cfg, mgmt);
    var sector := if cfg.applySector then SectorSteps(cfg, mgmt) else [];
    SpansConcat(EntrySteps(cfg, ifaces), sector, 0, 10, 23);
    CallHomeSpans(cfg.callHome);
    SpansConcat(EntrySteps(cfg, ifaces) + sector, CallHomeSteps(cfg.callHome), 0, 23, 25);
  }
}
