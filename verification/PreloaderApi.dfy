/**
  The preloader as it runs: a connection that may die at any call, lookups that take
  either of two paths, and the procedures built on them. Each procedure is tied to
  its list of steps; a connection that dies leaves the router in a state the list
  passes through.
 */
module PreloaderApi {
  import opened Basics
  import opened RouterOs
  import opened Reconciler
  import opened Preloader
  import opened PreloaderRestart

  class Router {
    var device: Device

    constructor (d: Device)
      ensures device == d
    {
      device := d;
    }
  }

  // The environment's choices for one connection: whether it opens, how many calls it
  // carries, whether the call it dies on still reaches the router, and which calls
  // accept a filtered query.
  datatype Link = Link(up: bool, lifetime: nat, lastLands: bool, accepts: nat -> bool)

  class Api {
    const router: Router
    const link: Link
    var calls: nat

    constructor (router: Router, link: Link)
      ensures this.router == router && this.link == link && calls == 0
    {
      this.router, this.link, calls := router, link, 0;
    }

    predicate Dead()
      reads this
    {
      calls > link.lifetime
    }

    method Print(menu: Menu) returns (r: Result<seq<Row>, Error>)
      modifies this`calls
      ensures if Dead() then r == Err(LinkLost) else r == Ok(Printed(router.device, menu))
      ensures old(Dead()) ==> Dead()
    {
      calls := calls + 1;
      r := if Dead() then Err(LinkLost) else Ok(Printed(router.device, menu));
    }

    method PrintWhere(menu: Menu, field: string, value: string) returns (r: Result<seq<Row>, Error>)
      modifies this`calls
      ensures if Dead() then r == Err(LinkLost)
              else r in {Ok(Select(Printed(router.device, menu), field, value)), Err(UnknownParameter)}
      ensures old(Dead()) ==> Dead()
    {
      calls := calls + 1;
      r := if Dead() then Err(LinkLost)
           else if !link.accepts(calls) then Err(UnknownParameter)
           else Ok(Select(Printed(router.device, menu), field, value));
    }

    method Exec(c: Command) returns (e: Option<Error>)
      modifies this`calls, router`device
      ensures old(Dead()) ==> Dead() && router.device == old(router.device)
      ensures Dead() ==> e == Some(LinkLost)
                         && (router.device == old(router.device)
                             || Execute(old(router.device), c) == Some(router.device))
      ensures !Dead() ==> match Execute(old(router.device), c)
                          case Some(d) => e == None && router.device == d
                          case None => e == Some(Trap) && router.device == old(router.device)
    {
      var o := Execute(router.device, c);
      if o.Some? && (calls < link.lifetime || (calls == link.lifetime && link.lastLands)) {
        router.device := o.value;
      }
      calls := calls + 1;
      e := if Dead() then Some(LinkLost) else if o.None? then Some(Trap) else None;
    }
  }

  /* What a procedure may report and leave behind */

  // A list of steps taken over a connection that is dead or alive at the end.
  ghost predicate Took(steps: seq<Step>, d: Device, e: Option<Error>, d': Device, dead: bool) {
    if dead then Reached(steps, d, d')
    else e != Some(LinkLost) && Run(steps, d) == (d', e)
  }

  lemma NothingDone(steps: seq<Step>, d: Device)
    ensures Reached(steps, d, d)
  {
    assert Run(steps[..0], d) == (d, None);
  }

  lemma OneStep(s: Step, d: Device, d': Device)
    requires d' == d || Apply(s, d) == Ok(d')
    ensures Reached([s], d, d')
    ensures Apply(s, d) == Ok(d') ==> Run([s], d) == (d', None)
    ensures Apply(s, d).Err? ==> Run([s], d) == (d, Some(Apply(s, d).error))
  {
    if d' == d {
      NothingDone([s], d);
    } else {
      assert [s][..1] == [s] && Run([s], d) == (d', None);
    }
  }

  lemma ReachedPrefix(u: seq<Step>, v: seq<Step>, d: Device, mid: Device)
    requires Reached(u, d, mid)
    ensures Reached(u + v, d, mid)
  {
    var k :| 0 <= k <= |u| && Run(u[..k], d) == (mid, None);
    assert (u + v)[..k] == u[..k];
  }

  lemma ReachedLater(u: seq<Step>, v: seq<Step>, d: Device, mid: Device, d': Device)
    requires Run(u, d) == (mid, None) && Reached(v, mid, d')
    ensures Reached(u + v, d, d')
  {
    var k :| 0 <= k <= |v| && Run(v[..k], mid) == (d', None);
    assert (u + v)[..|u| + k] == u + v[..k];
    RunSplit(u, v[..k], d);
  }

  // One list after another: the second starts only if the first went well, and over
  // a dead connection it does nothing.
  lemma Sequence(u: seq<Step>, v: seq<Step>, d: Device, e: Option<Error>, mid: Device, dead: bool,
                 e': Option<Error>, d': Device, dead': bool)
    requires Took(u, d, e, mid, dead)
    requires !dead && e == None ==> Took(v, mid, e', d', dead')
    requires dead || e != None ==> d' == mid && (dead ==> dead') && (!dead ==> e' == e && !dead')
    ensures Took(u + v, d, e', d', dead')
  {
    if dead {
      ReachedPrefix(u, v, d, mid);
    } else {
      RunSplit(u, v, d);
      if e == None && dead' { ReachedLater(u, v, d, mid, d'); }
    }
  }

  /* Lookups */

  lemma PrintedSafe(d: Device, menu: Menu, field: string, value: string)
    requires ValidDevice(d)
    requires value != "None" || IdField(menu) == Some(field)
    ensures LookupSafe(Printed(d, menu), field, value)
  {
    if menu == Interfaces && value == "None" {
      assert ValidTable(Interfaces, TableOf(d, Interfaces));
      assert ValidTable(Bridges, TableOf(d, Bridges));
    } else if value == "None" {
      assert ValidTable(menu, TableOf(d, menu));
    }
  }

  lemma {:induction false} SelectByTextSnoc(rows: seq<Row>, row: Row, field: string, value: string)
    ensures SelectByText(rows + [row], field, value)
            == SelectByText(rows, field, value) + (if TextOf(row, field) == value then [row] else [])
  {
    if rows == [] {
      assert rows + [row] == [row] + [];
      SelectByTextCons(row, [], field, value);
    } else {
      assert rows + [row] == [rows[0]] + (rows[1..] + [row]);
      SelectByTextCons(rows[0], rows[1..] + [row], field, value);
      SelectByTextSnoc(rows[1..], row, field, value);
      Associates(if TextOf(rows[0], field) == value then [rows[0]] else [], SelectByText(rows[1..], field, value),
                 if TextOf(row, field) == value then [row] else []);
    }
  }

  lemma SelectByTextCons(row: Row, rest: seq<Row>, field: string, value: string)
    ensures SelectByText([row] + rest, field, value)
            == (if TextOf(row, field) == value then [row] else []) + SelectByText(rest, field, value)
  {
    assert ([row] + rest)[1..] == rest;
  }

  // The comparison of a full print, row by row.
  method MatchByText(items: seq<Row>, field: string, value: string) returns (matched: seq<Row>)
    ensures matched == SelectByText(items, field, value)
  {
    matched := [];
    for i := 0 to |items|
      invariant matched == SelectByText(items[..i], field, value)
    {
      assert items[..i + 1] == items[..i] + [items[i]];
      SelectByTextSnoc(items[..i], items[i], field, value);
      if TextOf(items[i], field) == value { matched := matched + [items[i]]; }
    }
    assert items[..|items|] == items;
  }

  // Whichever path the lookup takes, it finds the rows with the value, unless the value is
  // the word None and some row lacks the field.
  method Find(api: Api, menu: Menu, field: string, value: string) returns (r: Result<seq<Row>, Error>)
    modifies api`calls
    ensures if api.Dead() then r == Err(LinkLost)
            else
              var rows := Printed(api.router.device, menu);
              && (r == Ok(Select(rows, field, value)) || r == Ok(SelectByText(rows, field, value)))
              && (LookupSafe(rows, field, value) ==> r == Ok(Select(rows, field, value)))
    ensures old(api.Dead()) ==> api.Dead()
  {
    r := api.PrintWhere(menu, field, value);
    if r == Err(UnknownParameter) {
      r := api.Print(menu);
      if r.Ok? {
        LookupPathsAgree(r.value, field, value);
        var matched := MatchByText(r.value, field, value);
        r := Ok(matched);
      }
    }
  }

  // The lookups of the script, none of which can go wrong in this way.
  method FindSafely(api: Api, menu: Menu, field: string, value: string) returns (r: Result<seq<Row>, Error>)
    requires ValidDevice(api.router.device)
    requires value != "None" || IdField(menu) == Some(field)
    modifies api`calls
    ensures if api.Dead() then r == Err(LinkLost)
            else r == Ok(Select(Printed(api.router.device, menu), field, value))
    ensures old(api.Dead()) ==> api.Dead()
  {
    PrintedSafe(api.router.device, menu, field, value);
    r := Find(api, menu, field, value);
  }

  /* The ensure procedures */

  method EnsurePresent(api: Api, menu: Menu, field: string, value: string, attrs: Attrs) returns (e: Option<Error>)
    requires ValidDevice(api.router.device)
    requires WellShaped(EnsureRow(menu, field, value, attrs))
    requires value != "None" || IdField(menu) == Some(field)
    modifies api`calls, api.router`device
    ensures ValidDevice(api.router.device)
    ensures Took([EnsureRow(menu, field, value, attrs)], old(api.router.device), e, api.router.device, api.Dead())
    ensures old(api.Dead()) ==> api.Dead() && api.router.device == old(api.router.device)
    ensures api.Dead() ==> e == Some(LinkLost)
  {
    ghost var step, d := EnsureRow(menu, field, value, attrs), api.router.device;
    var found := FindSafely(api, menu, field, value);
    if found.Err? {
      NothingDone([step], d);
      return Some(found.error);
    }
    SelectHead(Printed(d, menu), field, value);
    if found.value != [] {
      OneStep(step, d, d);
      return None;
    }
    e := api.Exec(Add(menu, attrs));
    OneStep(step, d, api.router.device);
    if api.router.device != d { ApplyKeepsValid(step, d); }
  }

  // Set by id, or for address pools by name: both lead to the row that was found.
  method EnsureSet(api: Api, menu: Menu, value: string, attrs: Attrs, byName: bool) returns (e: Option<Error>)
    requires ValidDevice(api.router.device)
    requires WellShaped(Upsert(menu, value, attrs)) && (byName ==> IdField(menu) == Some("name"))
    modifies api`calls, api.router`device
    ensures ValidDevice(api.router.device)
    ensures Took([Upsert(menu, value, attrs)], old(api.router.device), e, api.router.device, api.Dead())
    ensures old(api.Dead()) ==> api.Dead() && api.router.device == old(api.router.device)
    ensures api.Dead() ==> e == Some(LinkLost)
  {
    ghost var step, d := Upsert(menu, value, attrs), api.router.device;
    var found := FindSafely(api, menu, Key(menu), value);
    if found.Err? {
      NothingDone([step], d);
      return Some(found.error);
    }
    SelectHead(Printed(d, menu), Key(menu), value);
    if found.value != [] {
      IdLocates(menu, TableOf(d, menu), First(TableOf(d, menu).rows, Key(menu), value));
      e := api.Exec(Set(menu, if byName then ByName(value) else ById(found.value[0].id), attrs));
    } else {
      e := api.Exec(Add(menu, attrs[Key(menu) := value]));
    }
    OneStep(step, d, api.router.device);
    if api.router.device != d { ApplyKeepsValid(step, d); }
  }

  // Adding traps exactly when the user exists; then setting by name is the upsert.
  lemma UserCommands(d: Device, name: string, attrs: Attrs)
    requires ValidDevice(d) && "name" !in attrs
    ensures var added := Execute(d, Add(Users, attrs["name" := name]));
            Apply(Upsert(Users, name, attrs), d)
            == Run1(if added.Some? then added else Execute(d, Set(Users, ByName(name), attrs)))
  {
    var rows := TableOf(d, Users).rows;
    var i := First(rows, "name", name);
    assert Taken(d, Users, attrs["name" := name]) == Any(rows, "name", name);
    if i < |rows| {
      IdLocates(Users, TableOf(d, Users), i);
      assert Locate(rows, ById(rows[i].id)) == Locate(rows, ByName(name));
    }
  }

  // The management user: add it, and if that traps set it instead.
  method EnsureUser(api: Api, name: string, password: string, group: string) returns (e: Option<Error>)
    requires ValidDevice(api.router.device)
    modifies api`calls, api.router`device
    ensures ValidDevice(api.router.device)
    ensures Took([Upsert(Users, name, map["password" := password, "group" := group])],
                 old(api.router.device), e, api.router.device, api.Dead())
    ensures old(api.Dead()) ==> api.Dead() && api.router.device == old(api.router.device)
    ensures api.Dead() ==> e == Some(LinkLost)
  {
    var attrs := map["password" := password, "group" := group];
    ghost var step, d := Upsert(Users, name, attrs), api.router.device;
    UserCommands(d, name, attrs);
    e := api.Exec(Add(Users, attrs["name" := name]));
    if e.Some? {
      e := api.Exec(Set(Users, ByName(name), attrs));
    }
    OneStep(step, d, api.router.device);
    if api.router.device != d { ApplyKeepsValid(step, d); }
  }

  method SomeHas(rows: seq<Row>, field: string, value: string) returns (b: bool)
    ensures b <==> exists r :: r in rows && Has(r, field, value)
  {
    for i := 0 to |rows|
      invariant forall j :: 0 <= j < i ==> !Has(rows[j], field, value)
    {
      if Has(rows[i], field, value) { return true; }
    }
    b := false;
  }

  // An interface into a bridge or an interface list; a missing interface is skipped.
  method EnsureJoined(api: Api, menu: Menu, iface: string, groupField: string, group: string) returns (e: Option<Error>)
    requires ValidDevice(api.router.device) && WellShaped(Join(menu, iface, groupField, group))
    modifies api`calls, api.router`device
    ensures ValidDevice(api.router.device)
    ensures Took([Join(menu, iface, groupField, group)], old(api.router.device), e, api.router.device, api.Dead())
    ensures old(api.Dead()) ==> api.Dead() && api.router.device == old(api.router.device)
    ensures api.Dead() ==> e == Some(LinkLost)
  {
    ghost var step, d := Join(menu, iface, groupField, group), api.router.device;
    NothingDone([step], d);
    var present := FindSafely(api, Interfaces, "name", iface);
    if present.Err? { return Some(present.error); }
    SelectHead(Printed(d, Interfaces), "name", iface);
    if present.value == [] {
      OneStep(step, d, d);
      return None;
    }
    var found := FindSafely(api, menu, "interface", iface);
    if found.Err? { return Some(found.error); }
    SelectHead(Printed(d, menu), "interface", iface);
    var member := SomeHas(found.value, groupField, group);
    if member {
      OneStep(step, d, d);
      return None;
    }
    e := api.Exec(Add(menu, map["interface" := iface, groupField := group]));
    OneStep(step, d, api.router.device);
    if api.router.device != d { ApplyKeepsValid(step, d); }
  }

  // Change one field of a named row, by id if the lookup finds it and else by name.
  method SetNamed(api: Api, menu: Menu, name: string, attrs: Attrs, lookup: bool) returns (e: Option<Error>)
    requires ValidDevice(api.router.device) && WellShaped(Patch(menu, name, attrs))
    modifies api`calls, api.router`device
    ensures ValidDevice(api.router.device)
    ensures Took([Patch(menu, name, attrs)], old(api.router.device), e, api.router.device, api.Dead())
    ensures old(api.Dead()) ==> api.Dead() && api.router.device == old(api.router.device)
    ensures api.Dead() ==> e == Some(LinkLost)
  {
    ghost var step, d := Patch(menu, name, attrs), api.router.device;
    var ref := ByName(name);
    if lookup {
      var found := FindSafely(api, menu, "name", name);
      if found.Err? {
        NothingDone([step], d);
        return Some(found.error);
      }
      SelectHead(Printed(d, menu), "name", name);
      if found.value != [] {
        IdLocates(menu, TableOf(d, menu), First(TableOf(d, menu).rows, "name", name));
        ref := ById(found.value[0].id);
      }
    }
    e := api.Exec(Set(menu, ref, attrs));
    OneStep(step, d, api.router.device);
    if api.router.device != d { ApplyKeepsValid(step, d); }
  }

  method SetSetting(api: Api, setting: Setting, attrs: Attrs, quiet: bool) returns (e: Option<Error>)
    requires ValidDevice(api.router.device)
    modifies api`calls, api.router`device
    ensures ValidDevice(api.router.device)
    ensures Took([Configure(setting, attrs, quiet)], old(api.router.device), e, api.router.device, api.Dead())
    ensures old(api.Dead()) ==> api.Dead() && api.router.device == old(api.router.device)
    ensures if quiet then e == None else api.Dead() ==> e == Some(LinkLost)
  {
    ghost var step, d := Configure(setting, attrs, quiet), api.router.device;
    e := api.Exec(Put(setting, attrs));
    OneStep(step, d, api.router.device);
    if quiet { e := None; }
  }

  /* Groups of procedures. A failed step ends the group: later ones are passed over. */

  method EnsureNeighborDiscovery(api: Api, ifaces: seq<string>) returns (e: Option<Error>)
    requires ValidDevice(api.router.device)
    modifies api`calls, api.router`device
    ensures ValidDevice(api.router.device)
    ensures Took(DiscoverySteps(ifaces), old(api.router.device), e, api.router.device, api.Dead())
    ensures old(api.Dead()) ==> api.Dead() && api.router.device == old(api.router.device)
  {
    ghost var d := api.router.device;
    NothingDone(DiscoverySteps(ifaces), d);
    if ifaces == [] { return None; }
    e := EnsurePresent(api, InterfaceLists, "name", LAN, map["name" := LAN]);
    ghost var done := [EnsureRow(InterfaceLists, "name", LAN, map["name" := LAN])];
    ghost var mid, e0, dead := api.router.device, e, api.Dead();
    if e == None { e := JoinAll(api, ifaces); }
    Sequence(done, ListSteps(ifaces), d, e0, mid, dead, e, api.router.device, api.Dead());
    done, mid, e0, dead := done + ListSteps(ifaces), api.router.device, e, api.Dead();
    if e == None {
      e := SetSetting(api, Discovery, map["discover-interface-list" := LAN], true);
    }
    Sequence(done, [Configure(Discovery, map["discover-interface-list" := LAN], true)], d, e0, mid, dead, e,
             api.router.device, api.Dead());
    done, mid, e0, dead := done + [Configure(Discovery, map["discover-interface-list" := LAN], true)],
        api.router.device, e, api.Dead();
    if e == None {
      e := SetSetting(api, MacServer, map["allowed-interface-list" := LAN], true);
    }
    Sequence(done, [Configure(MacServer, map["allowed-interface-list" := LAN], true)], d, e0, mid, dead, e,
             api.router.device, api.Dead());
    done, mid, e0, dead := done + [Configure(MacServer, map["allowed-interface-list" := LAN], true)],
        api.router.device, e, api.Dead();
    if e == None {
      e := SetSetting(api, MacWinbox, map["allowed-interface-list" := LAN], true);
    }
    Sequence(done, [Configure(MacWinbox, map["allowed-interface-list" := LAN], true)], d, e0, mid, dead, e,
             api.router.device, api.Dead());
    assert DiscoverySteps(ifaces) == done + [Configure(MacWinbox, map["allowed-interface-list" := LAN], true)];
  }

  // One more interface after those before it, unless one of them raised.
  method EnsureNextMember(api: Api, iface: string, e: Option<Error>, ghost before: seq<Step>, ghost d: Device)
    returns (e': Option<Error>)
    requires ValidDevice(api.router.device) && Took(before, d, e, api.router.device, api.Dead())
    modifies api`calls, api.router`device
    ensures ValidDevice(api.router.device)
    ensures Took(before + [Join(ListMembers, iface, "list", LAN)], d, e', api.router.device, api.Dead())
    ensures old(api.Dead()) ==> api.Dead() && api.router.device == old(api.router.device)
  {
    ghost var mid, dead := api.router.device, api.Dead();
    e' := e;
    if e == None { e' := EnsureJoined(api, ListMembers, iface, "list", LAN); }
    Sequence(before, [Join(ListMembers, iface, "list", LAN)], d, e, mid, dead, e', api.router.device, api.Dead());
  }

  method JoinAll(api: Api, ifaces: seq<string>) returns (e: Option<Error>)
    requires ValidDevice(api.router.device)
    modifies api`calls, api.router`device
    ensures ValidDevice(api.router.device)
    ensures Took(ListSteps(ifaces), old(api.router.device), e, api.router.device, api.Dead())
    ensures old(api.Dead()) ==> api.Dead() && api.router.device == old(api.router.device)
  {
    ghost var d := api.router.device;
    e := None;
    NothingDone([], d);
    for i := 0 to |ifaces|
      invariant ValidDevice(api.router.device)
      invariant Took(ListSteps(ifaces)[..i], d, e, api.router.device, api.Dead())
      invariant old(api.Dead()) ==> api.Dead() && api.router.device == d
    {
      e := EnsureNextMember(api, ifaces[i], e, ListSteps(ifaces)[..i], d);
      assert ListSteps(ifaces)[..i + 1] == ListSteps(ifaces)[..i] + [ListSteps(ifaces)[i]];
    }
    assert ListSteps(ifaces)[..|ifaces|] == ListSteps(ifaces);
  }

  // Put the first rule with the comment on top; that it cannot be moved is ignored.
  method LiftRule(api: Api, rules: seq<Row>) returns (ok: bool)
    requires ValidDevice(api.router.device)
    requires rules == Select(TableOf(api.router.device, Filter).rows, "comment", ALLOW) && rules != []
    modifies api`calls, api.router`device
    ensures ValidDevice(api.router.device)
    ensures Took([LiftFirst(Filter, ALLOW)], old(api.router.device), None, api.router.device, api.Dead())
    ensures old(api.Dead()) ==> api.Dead() && api.router.device == old(api.router.device)
  {
    ghost var step, d := LiftFirst(Filter, ALLOW), api.router.device;
    SelectHead(TableOf(d, Filter).rows, "comment", ALLOW);
    var e := api.Exec(MoveToTop(Filter, rules[0].id));
    ok := e == None;
    OneStep(step, d, api.router.device);
    if api.router.device != d { ApplyKeepsValid(step, d); }
  }

  method EnsureFirewallAllow(api: Api, port: string, ip: string) returns (e: Option<Error>)
    requires ValidDevice(api.router.device)
    modifies api`calls, api.router`device
    ensures ValidDevice(api.router.device)
    ensures Took([EnsureRow(Filter, "comment", ALLOW, AllowRule(port, ip)), LiftFirst(Filter, ALLOW)],
                 old(api.router.device), e, api.router.device, api.Dead())
    ensures old(api.Dead()) ==> api.Dead() && api.router.device == old(api.router.device)
  {
    ghost var add, lift := EnsureRow(Filter, "comment", ALLOW, AllowRule(port, ip)), LiftFirst(Filter, ALLOW);
    ghost var d := api.router.device;
    NothingDone([add, lift], d);
    assert [add, lift] == [add] + [lift];
    var found := FindSafely(api, Filter, "comment", ALLOW);
    if found.Err? { return Some(found.error); }
    SelectHead(TableOf(d, Filter).rows, "comment", ALLOW);
    if found.value != [] {
      OneStep(add, d, d);
      var ok := LiftRule(api, found.value);
      Sequence([add], [lift], d, None, d, false, None, api.router.device, api.Dead());
      return None;
    }
    e := api.Exec(Add(Filter, AllowRule(port, ip)));
    ghost var mid, e0, dead := api.router.device, e, api.Dead();
    OneStep(add, d, mid);
    if mid != d { ApplyKeepsValid(add, d); }
    if e == None {
      var added := FindSafely(api, Filter, "comment", ALLOW);
      NothingDone([lift], mid);
      if added.Ok? {
        SuccessEstablishes(add, d);
        SelectHead(TableOf(mid, Filter).rows, "comment", ALLOW);
        var ok := LiftRule(api, added.value);
      }
    }
    Sequence([add], [lift], d, e0, mid, dead, e, api.router.device, api.Dead());
  }

  // The loop over the allowed addresses.
  method EnsureAllowed(api: Api, port: string, allowed: seq<string>) returns (e: Option<Error>)
    requires ValidDevice(api.router.device)
    modifies api`calls, api.router`device
    ensures ValidDevice(api.router.device)
    ensures Took(AllowSteps(port, allowed), old(api.router.device), e, api.router.device, api.Dead())
    ensures old(api.Dead()) ==> api.Dead() && api.router.device == old(api.router.device)
  {
    ghost var d := api.router.device;
    e := None;
    NothingDone([], d);
    for i := 0 to |allowed|
      invariant ValidDevice(api.router.device)
      invariant Took(AllowSteps(port, allowed[..i]), d, e, api.router.device, api.Dead())
      invariant old(api.Dead()) ==> api.Dead() && api.router.device == d
    {
      ghost var mid, e0, dead := api.router.device, e, api.Dead();
      if e == None { e := EnsureFirewallAllow(api, port, allowed[i]); }
      AllowSnoc(port, allowed[..i], allowed[i]);
      assert allowed[..i + 1] == allowed[..i] + [allowed[i]];
      Sequence(AllowSteps(port, allowed[..i]),
               [EnsureRow(Filter, "comment", ALLOW, AllowRule(port, allowed[i])), LiftFirst(Filter, ALLOW)],
               d, e0, mid, dead, e, api.router.device, api.Dead());
    }
    assert allowed[..|allowed|] == allowed;
  }

  method EnsureFirewall(api: Api, port: string, allowed: seq<string>) returns (e: Option<Error>)
    requires ValidDevice(api.router.device)
    modifies api`calls, api.router`device
    ensures ValidDevice(api.router.device)
    ensures Took(FirewallSteps(port, allowed), old(api.router.device), e, api.router.device, api.Dead())
    ensures old(api.Dead()) ==> api.Dead() && api.router.device == old(api.router.device)
    ensures api.Dead() ==> e != None
  {
    ghost var d := api.router.device;
    e := EnsureAllowed(api, port, allowed);
    ghost var mid, e0, dead := api.router.device, e, api.Dead();
    if e == None { e := EnsurePresent(api, Filter, "comment", DROP, DropRule(port)); }
    Sequence(AllowSteps(port, allowed), [EnsureRow(Filter, "comment", DROP, DropRule(port))],
             d, e0, mid, dead, e, api.router.device, api.Dead());
  }

  lemma {:induction false} AllowSnoc(port: string, allowed: seq<string>, ip: string)
    ensures AllowSteps(port, allowed + [ip])
            == AllowSteps(port, allowed)
               + [EnsureRow(Filter, "comment", ALLOW, AllowRule(port, ip)), LiftFirst(Filter, ALLOW)]
  {
    if allowed == [] {
      assert AllowSteps(port, ([ip])[1..]) == [];
    } else {
      AllowSnoc(port, allowed[1..], ip);
      assert (allowed + [ip])[0] == allowed[0] && (allowed + [ip])[1..] == allowed[1..] + [ip];
    }
  }

  // The interface of the management address; any failure reads as "unknown".
  method GetMgmtInterface(api: Api, ip: string) returns (mgmt: Option<string>)
    modifies api`calls
    ensures !api.Dead() ==> mgmt == MgmtInterface(api.router.device, ip)
    ensures old(api.Dead()) ==> api.Dead()
  {
    var printed := api.Print(Addresses);
    if printed.Err? { return None; }
    var rows := printed.value;
    for i := 0 to |rows|
      invariant MgmtOf(rows, ip) == MgmtOf(rows[i..], ip)
    {
      if OnAddress(rows[i], ip) {
        return if "interface" in rows[i].attrs then Some(rows[i].attrs["interface"]) else None;
      }
      assert rows[i..][1..] == rows[i + 1..];
    }
    mgmt := None;
  }

  method EnsurePort(api: Api, bridge: string, port: string, mgmt: Option<string>) returns (e: Option<Error>)
    requires ValidDevice(api.router.device)
    modifies api`calls, api.router`device
    ensures ValidDevice(api.router.device)
    ensures Took(PortSteps(bridge, [port], mgmt), old(api.router.device), e, api.router.device, api.Dead())
    ensures old(api.Dead()) ==> api.Dead() && api.router.device == old(api.router.device)
    ensures api.Dead() && !old(api.Dead()) ==> e != None
  {
    OnePort(bridge, port, mgmt);
    if Skipped(port, mgmt) {
      NothingDone([], api.router.device);
      return None;
    }
    e := EnsureJoined(api, BridgePorts, port, "bridge", bridge);
  }

  lemma OnePort(bridge: string, port: string, mgmt: Option<string>)
    ensures PortSteps(bridge, [port], mgmt)
            == if Skipped(port, mgmt) then [] else [Join(BridgePorts, port, "bridge", bridge)]
  {
    assert [port][1..] == [];
  }

  // One more port after those before it, unless one of them raised.
  method EnsureNextPort(api: Api, bridge: string, port: string, mgmt: Option<string>, e: Option<Error>,
                        ghost before: seq<string>, ghost d: Device) returns (e': Option<Error>)
    requires ValidDevice(api.router.device)
    requires Took(PortSteps(bridge, before, mgmt), d, e, api.router.device, api.Dead())
    modifies api`calls, api.router`device
    ensures ValidDevice(api.router.device)
    ensures Took(PortSteps(bridge, before + [port], mgmt), d, e', api.router.device, api.Dead())
    ensures old(api.Dead()) ==> api.Dead() && api.router.device == old(api.router.device)
    ensures api.Dead() && !old(api.Dead()) ==> e' != None
    ensures e != None ==> e' == e
  {
    ghost var mid, dead := api.router.device, api.Dead();
    e' := e;
    if e == None { e' := EnsurePort(api, bridge, port, mgmt); }
    PortTook(bridge, before, port, mgmt, d, e, mid, dead, e', api.router.device, api.Dead());
  }

  method EnsurePorts(api: Api, bridge: string, ports: seq<string>, mgmt: Option<string>) returns (e: Option<Error>)
    requires ValidDevice(api.router.device)
    modifies api`calls, api.router`device
    ensures ValidDevice(api.router.device)
    ensures Took(PortSteps(bridge, ports, mgmt), old(api.router.device), e, api.router.device, api.Dead())
    ensures old(api.Dead()) ==> api.Dead() && api.router.device == old(api.router.device)
    ensures api.Dead() && !old(api.Dead()) ==> e != None
  {
    ghost var d := api.router.device;
    e := None;
    assert Took(PortSteps(bridge, ports[..0], mgmt), d, e, d, api.Dead()) by { NothingDone([], d); }
    for i := 0 to |ports|
      invariant ValidDevice(api.router.device)
      invariant Took(PortSteps(bridge, ports[..i], mgmt), d, e, api.router.device, api.Dead())
      invariant old(api.Dead()) ==> api.Dead() && api.router.device == d
      invariant api.Dead() && !old(api.Dead()) ==> e != None
    {
      e := EnsureNextPort(api, bridge, ports[i], mgmt, e, ports[..i], d);
      assert ports[..i + 1] == ports[..i] + [ports[i]];
    }
    assert ports[..|ports|] == ports;
  }

  // One more port after those before it.
  lemma PortTook(bridge: string, ports: seq<string>, port: string, mgmt: Option<string>,
                 d: Device, e: Option<Error>, mid: Device, dead: bool, e': Option<Error>, d': Device, dead': bool)
    requires Took(PortSteps(bridge, ports, mgmt), d, e, mid, dead)
    requires !dead && e == None ==> Took(PortSteps(bridge, [port], mgmt), mid, e', d', dead')
    requires dead || e != None ==> d' == mid && (dead ==> dead') && (!dead ==> e' == e && !dead')
    ensures Took(PortSteps(bridge, ports + [port], mgmt), d, e', d', dead')
  {
    Sequence(PortSteps(bridge, ports, mgmt), PortSteps(bridge, [port], mgmt), d, e, mid, dead, e', d', dead');
    PortSnoc(bridge, ports, port, mgmt);
  }

  lemma {:induction false} PortSnoc(bridge: string, ports: seq<string>, port: string, mgmt: Option<string>)
    ensures PortSteps(bridge, ports + [port], mgmt)
            == PortSteps(bridge, ports, mgmt)
               + PortSteps(bridge, [port], mgmt)
  {
    if ports == [] {
      assert ports + [port] == [port];
    } else {
      PortSnoc(bridge, ports[1..], port, mgmt);
      assert (ports + [port])[0] == ports[0] && (ports + [port])[1..] == ports[1..] + [port];
      Associates(if Skipped(ports[0], mgmt) then [] else [Join(BridgePorts, ports[0], "bridge", bridge)],
                 PortSteps(bridge, ports[1..], mgmt), PortSteps(bridge, [port], mgmt));
    }
  }

  method EnsureHead(api: Api, c: SectorConfig) returns (e: Option<Error>)
    requires ValidDevice(api.router.device)
    modifies api`calls, api.router`device
    ensures ValidDevice(api.router.device)
    ensures Took(HeadSteps(c), old(api.router.device), e, api.router.device, api.Dead())
    ensures old(api.Dead()) ==> api.Dead() && api.router.device == old(api.router.device)
    ensures api.Dead() ==> e != None
  {
    ghost var d := api.router.device;
    e := None;
    ghost var done: seq<Step>, e0: Option<Error>, mid, dead := [], None, d, api.Dead();
    NothingDone([], d);
    if c.dhcpClientOnWan {
      done := HeadSteps(c)[..1];
      e := EnsurePresent(api, DhcpClients, "interface", c.wan,
                         map["interface" := c.wan, "disabled" := "no", "add-default-route" := "yes",
                             "use-peer-dns" := "yes", "comment" := "ISP-WAN"]);
      e0, mid, dead := e, api.router.device, api.Dead();
    }
    if e == None {
      e := EnsurePresent(api, Bridges, "name", c.bridge, map["name" := c.bridge]);
    }
    Sequence(done, [EnsureRow(Bridges, "name", c.bridge, map["name" := c.bridge])],
             d, e0, mid, dead, e, api.router.device, api.Dead());
  }

  method EnsureAddress(api: Api, c: SectorConfig) returns (e: Option<Error>)
    requires ValidDevice(api.router.device)
    modifies api`calls, api.router`device
    ensures ValidDevice(api.router.device)
    ensures Took([AddressStep(c)] + [PoolStep(c)], old(api.router.device), e, api.router.device, api.Dead())
    ensures old(api.Dead()) ==> api.Dead() && api.router.device == old(api.router.device)
    ensures api.Dead() ==> e != None
  {
    ghost var d := api.router.device;
    e := EnsurePresent(api, Addresses, "address", c.address, AddressStep(c).attrs);
    ghost var e0, mid, dead := e, api.router.device, api.Dead();
    if e == None { e := EnsureSet(api, Pools, c.pool, PoolStep(c).attrs, true); }
    Sequence([AddressStep(c)], [PoolStep(c)], d, e0, mid, dead, e, api.router.device, api.Dead());
  }

  method EnsureDhcp(api: Api, c: SectorConfig) returns (e: Option<Error>)
    requires ValidDevice(api.router.device)
    modifies api`calls, api.router`device
    ensures ValidDevice(api.router.device)
    ensures Took([ServerStep(c)] + [NetworkStep(c)], old(api.router.device), e, api.router.device, api.Dead())
    ensures old(api.Dead()) ==> api.Dead() && api.router.device == old(api.router.device)
    ensures api.Dead() ==> e != None
  {
    ghost var d := api.router.device;
    e := EnsureSet(api, DhcpServers, c.server, ServerStep(c).attrs, false);
    ghost var e0, mid, dead := e, api.router.device, api.Dead();
    if e == None { e := EnsureSet(api, DhcpNetworks, c.network, NetworkStep(c).attrs, false); }
    Sequence([ServerStep(c)], [NetworkStep(c)], d, e0, mid, dead, e, api.router.device, api.Dead());
  }

  method EnsureHotspot(api: Api, c: SectorConfig) returns (e: Option<Error>)
    requires ValidDevice(api.router.device) && !api.Dead()
    modifies api`calls, api.router`device
    ensures ValidDevice(api.router.device)
    ensures Took(HotspotSteps(c), old(api.router.device), e, api.router.device, api.Dead())
    ensures api.Dead() ==> e != None
  {
    match c.hotspot {
      case None => return None;
      case Some(h) =>
        if h.dnsName == "" { return Some(HotspotSteps(c)[0].error); }
        e := EnsureHotspotOn(api, c, h);
    }
  }

  method EnsureHotspotOn(api: Api, c: SectorConfig, h: HotspotConfig) returns (e: Option<Error>)
    requires ValidDevice(api.router.device)
    modifies api`calls, api.router`device
    ensures ValidDevice(api.router.device)
    ensures Took([ProfileStep(h), HotspotStep(c, h)] + (if h.walledGarden == "" then [] else [GardenStep(h)]),
                 old(api.router.device), e, api.router.device, api.Dead())
    ensures api.Dead() ==> e != None
  {
    ghost var d := api.router.device;
    e := EnsureHotspotPair(api, c, h);
    ghost var e0, mid, dead := e, api.router.device, api.Dead();
    ghost var pair := [ProfileStep(h), HotspotStep(c, h)];
    if h.walledGarden != "" {
      if e == None { e := EnsurePresent(api, WalledGarden, "comment", "ISP-WALLED-GARDEN", GardenStep(h).attrs); }
      Sequence(pair, [GardenStep(h)], d, e0, mid, dead, e, api.router.device, api.Dead());
    } else {
      assert pair + [] == pair;
    }
  }

  method EnsureHotspotPair(api: Api, c: SectorConfig, h: HotspotConfig) returns (e: Option<Error>)
    requires ValidDevice(api.router.device)
    modifies api`calls, api.router`device
    ensures ValidDevice(api.router.device)
    ensures Took([ProfileStep(h), HotspotStep(c, h)], old(api.router.device), e, api.router.device, api.Dead())
    ensures old(api.Dead()) ==> api.Dead() && api.router.device == old(api.router.device)
    ensures api.Dead() ==> e != None
  {
    ghost var d := api.router.device;
    e := EnsureSet(api, HotspotProfiles, h.profile, ProfileStep(h).attrs, false);
    ghost var e0, mid, dead := e, api.router.device, api.Dead();
    if e == None { e := EnsureSet(api, Hotspots, h.server, HotspotStep(c, h).attrs, false); }
    Sequence([ProfileStep(h)], [HotspotStep(c, h)], d, e0, mid, dead, e, api.router.device, api.Dead());
    assert [ProfileStep(h)] + [HotspotStep(c, h)] == [ProfileStep(h), HotspotStep(c, h)];
  }

  method SetLeaseScript(api: Api, cfg: Config, server: string) returns (e: Option<Error>)
    requires ValidDevice(api.router.device) && !api.Dead()
    modifies api`calls, api.router`device
    ensures ValidDevice(api.router.device)
    ensures Took(LeaseSteps(cfg.lease, cfg.clearLease, server), old(api.router.device), e, api.router.device,
                 api.Dead())
    ensures api.Dead() ==> e != None
  {
    match cfg.lease {
      case NoToken => e := Some(LeaseSteps(cfg.lease, cfg.clearLease, server)[0].error);
      case NoScript =>
        e := None;
        if cfg.clearLease { e := SetNamed(api, DhcpServers, server, map["lease-script" := ""], true); }
      case Script(text) =>
        e := SetNamed(api, DhcpServers, server, map["lease-script" := text], true);
    }
  }

  method EnsureServices(api: Api, cfg: Config, c: SectorConfig) returns (e: Option<Error>)
    requires ValidDevice(api.router.device) && !api.Dead()
    modifies api`calls, api.router`device
    ensures ValidDevice(api.router.device)
    ensures Took(ExtraSteps(cfg, c), old(api.router.device), e, api.router.device, api.Dead())
    ensures api.Dead() ==> e != None
  {
    ghost var d := api.router.device;
    e := None;
    if c.dns != "" { e := SetSetting(api, Dns, map["servers" := c.dns, "allow-remote-requests" := "yes"], false); }
    ghost var done, e0, mid, dead := DnsSteps(c), e, api.router.device, api.Dead();
    if e == None && c.masquerade { e := EnsurePresent(api, Nat, "comment", "ISP-NAT", NatSteps(c)[0].attrs); }
    Sequence(done, NatSteps(c), d, e0, mid, dead, e, api.router.device, api.Dead());
    done, e0, mid, dead := done + NatSteps(c), e, api.router.device, api.Dead();
    if e == None { e := EnsureHotspot(api, c); }
    Sequence(done, HotspotSteps(c), d, e0, mid, dead, e, api.router.device, api.Dead());
    done, e0, mid, dead := done + HotspotSteps(c), e, api.router.device, api.Dead();
    if e == None { e := SetLeaseScript(api, cfg, c.server); }
    Sequence(done, LeaseSteps(cfg.lease, cfg.clearLease, c.server), d, e0, mid, dead, e, api.router.device, api.Dead());
  }

  // One attempt at the sector configuration.
  method ApplySectorConfig(api: Api, cfg: Config, mgmt: Option<string>) returns (e: Option<Error>)
    requires ValidDevice(api.router.device)
    modifies api`calls, api.router`device
    ensures ValidDevice(api.router.device)
    ensures Took(SectorSteps(cfg, mgmt), old(api.router.device), e, api.router.device, api.Dead())
    ensures old(api.Dead()) ==> api.Dead() && api.router.device == old(api.router.device)
    ensures api.Dead() && cfg.sector.Some? ==> e != None
  {
    ghost var d := api.router.device;
    NothingDone(SectorSteps(cfg, mgmt), d);
    match cfg.sector {
      case None => return None;
      case Some(c) =>
        if !Complete(c) { return Some(Refused("Missing routeros.config required values")); }
        e := ApplyComplete(api, cfg, c, mgmt);
    }
  }

  method ApplyComplete(api: Api, cfg: Config, c: SectorConfig, mgmt: Option<string>) returns (e: Option<Error>)
    requires ValidDevice(api.router.device)
    modifies api`calls, api.router`device
    ensures ValidDevice(api.router.device)
    ensures Took(HeadSteps(c) + PortSteps(c.bridge, c.ports, mgmt) + TailSteps(cfg, c),
                 old(api.router.device), e, api.router.device, api.Dead())
    ensures old(api.Dead()) ==> api.Dead() && api.router.device == old(api.router.device)
    ensures api.Dead() ==> e != None
  {
    ghost var d := api.router.device;
    e := ApplyBridge(api, c, mgmt);
    ghost var e0, mid, dead := e, api.router.device, api.Dead();
    if e == None { e := ApplyTail(api, cfg, c); }
    Sequence(HeadSteps(c) + PortSteps(c.bridge, c.ports, mgmt), TailSteps(cfg, c),
             d, e0, mid, dead, e, api.router.device, api.Dead());
  }

  method ApplyBridge(api: Api, c: SectorConfig, mgmt: Option<string>) returns (e: Option<Error>)
    requires ValidDevice(api.router.device)
    modifies api`calls, api.router`device
    ensures ValidDevice(api.router.device)
    ensures Took(HeadSteps(c) + PortSteps(c.bridge, c.ports, mgmt), old(api.router.device), e, api.router.device,
                 api.Dead())
    ensures old(api.Dead()) ==> api.Dead() && api.router.device == old(api.router.device)
    ensures api.Dead() ==> e != None
  {
    ghost var d := api.router.device;
    e := EnsureHead(api, c);
    ghost var e0, mid, dead := e, api.router.device, api.Dead();
    if e == None { e := EnsurePorts(api, c.bridge, c.ports, mgmt); }
    Sequence(HeadSteps(c), PortSteps(c.bridge, c.ports, mgmt), d, e0, mid, dead, e, api.router.device, api.Dead());
  }

  function ExtraSteps(cfg: Config, c: SectorConfig): seq<Step> {
    DnsSteps(c) + NatSteps(c) + HotspotSteps(c) + LeaseSteps(cfg.lease, cfg.clearLease, c.server)
  }

  lemma TailSplit(cfg: Config, c: SectorConfig)
    ensures TailSteps(cfg, c)
            == [AddressStep(c)] + [PoolStep(c)] + ([ServerStep(c)] + [NetworkStep(c)]) + ExtraSteps(cfg, c)
  {
    Regroup(AddressStep(c), PoolStep(c), ServerStep(c), NetworkStep(c), DnsSteps(c), NatSteps(c), HotspotSteps(c),
            LeaseSteps(cfg.lease, cfg.clearLease, c.server));
  }

  lemma Regroup<T>(a: T, b: T, c: T, d: T, w: seq<T>, x: seq<T>, y: seq<T>, z: seq<T>)
    ensures [a] + ([b, c, d] + w + x + y + z) == [a] + [b] + ([c] + [d]) + (w + x + y + z)
  {
    assert [b, c, d] + w + x + y + z == [b, c, d] + (w + x + y + z);
  }

  method ApplyTail(api: Api, cfg: Config, c: SectorConfig) returns (e: Option<Error>)
    requires ValidDevice(api.router.device) && !api.Dead()
    modifies api`calls, api.router`device
    ensures ValidDevice(api.router.device)
    ensures Took(TailSteps(cfg, c), old(api.router.device), e, api.router.device, api.Dead())
    ensures api.Dead() ==> e != None
  {
    ghost var d := api.router.device;
    ghost var address, dhcp := [AddressStep(c)] + [PoolStep(c)], [ServerStep(c)] + [NetworkStep(c)];
    e := EnsureAddress(api, c);
    ghost var e0, mid, dead := e, api.router.device, api.Dead();
    if e == None { e := EnsureDhcp(api, c); }
    Sequence(address, dhcp, d, e0, mid, dead, e, api.router.device, api.Dead());
    e0, mid, dead := e, api.router.device, api.Dead();
    if e == None { e := EnsureServices(api, cfg, c); }
    TailSplit(cfg, c);
    Sequence(address + dhcp, ExtraSteps(cfg, c), d, e0, mid, dead, e, api.router.device, api.Dead());
  }

  method Connect(router: Router, link: Link) returns (api: Option<Api>)
    ensures api.Some? ==> fresh(api.value) && api.value.router == router && !api.value.Dead()
  {
    if !link.up { return None; }
    var connection := new Api(router, link);
    api := Some(connection);
  }

  // One attempt, with the management interface read first.
  method AttemptSector(api: Api, cfg: Config, ip: string) returns (e: Option<Error>)
    requires ValidDevice(api.router.device) && !api.Dead()
    modifies api`calls, api.router`device
    ensures ValidDevice(api.router.device)
    ensures Took(SectorSteps(cfg, MgmtInterface(old(api.router.device), ip)), old(api.router.device), e,
                 api.router.device, api.Dead())
    ensures api.Dead() && cfg.sector.Some? ==> e != None
  {
    var mgmt := GetMgmtInterface(api, ip);
    NothingDone(SectorSteps(cfg, MgmtInterface(api.router.device, ip)), api.router.device);
    e := ApplySectorConfig(api, cfg, mgmt);
  }

  lemma AttemptEnds(cfg: Config, ip: string, d: Device, e: Option<Error>, d': Device, dead: bool)
    requires Took(SectorSteps(cfg, MgmtInterface(d, ip)), d, e, d', dead)
    ensures Reached(SectorSteps(cfg, MgmtInterface(d, ip)), d, d')
    ensures dead && cfg.sector.None? ==> SectorRun(cfg, d, ip) == (d', None)
  {
    if !dead { FailureIsReached(SectorSteps(cfg, MgmtInterface(d, ip)), d); }
  }

  // Two attempts. A first attempt cut anywhere is repeated in full over a new
  // connection, with the management interface read again; success means the router
  // is where one uncut run would have left it.
  method SectorWithRetry(api: Api, retry: Link, cfg: Config, ip: string) returns (e: Option<Error>, used: Api)
    requires ValidDevice(api.router.device) && !api.Dead()
    modifies api`calls, api.router`device
    ensures used == api || fresh(used)
    ensures used.router == api.router && ValidDevice(api.router.device)
    ensures e == None ==> (used.Dead() ==> cfg.sector.None?)
                          && SectorRun(cfg, old(api.router.device), ip) == (api.router.device, None)
    ensures e.Some? ==>
              Reached(SectorSteps(cfg, MgmtInterface(old(api.router.device), ip)), old(api.router.device),
                      api.router.device)
    ensures e.Some? && e != Some(LinkLost) && !used.Dead() ==>
              SectorRun(cfg, old(api.router.device), ip) == (api.router.device, e)
  {
    ghost var d := api.router.device;
    used := api;
    e := AttemptSector(api, cfg, ip);
    ghost var mid := api.router.device;
    AttemptEnds(cfg, ip, d, e, mid, api.Dead());
    if e == None { return; }
    var again := Connect(api.router, retry);
    if again == None { return Some(LinkLost), used; }
    used := again.value;
    e := AttemptSector(used, cfg, ip);
    AttemptEnds(cfg, ip, mid, e, api.router.device, used.Dead());
    SectorRestart(cfg, d, mid, ip);
    SectorRestartReaches(cfg, d, mid, api.router.device, ip);
  }

  method EnsureAccess(api: Api, cfg: Config) returns (e: Option<Error>)
    requires ValidDevice(api.router.device)
    modifies api`calls, api.router`device
    ensures ValidDevice(api.router.device)
    ensures Took(AccessSteps(cfg), old(api.router.device), e, api.router.device, api.Dead())
    ensures api.Dead() ==> e != None
  {
    ghost var d := api.router.device;
    ghost var identity := Configure(Identity, map["name" := cfg.identity], false);
    ghost var service := Patch(Services, "api", map["disabled" := "no"]);
    ghost var group := EnsureRow(Groups, "name", GROUP, map["name" := GROUP, "policy" := GROUP_POLICY]);
    ghost var user := Upsert(Users, cfg.user, map["password" := cfg.password, "group" := GROUP]);
    e := SetSetting(api, Identity, map["name" := cfg.identity], false);
    ghost var e0, mid, dead := e, api.router.device, api.Dead();
    if e == None { e := SetNamed(api, Services, "api", map["disabled" := "no"], false); }
    Sequence([identity], [service], d, e0, mid, dead, e, api.router.device, api.Dead());
    e0, mid, dead := e, api.router.device, api.Dead();
    if e == None { e := EnsureGroupAndUser(api, cfg); }
    Sequence([identity] + [service], [group] + [user], d, e0, mid, dead, e, api.router.device, api.Dead());
    assert AccessSteps(cfg) == [identity] + [service] + ([group] + [user]);
  }

  method EnsureGroupAndUser(api: Api, cfg: Config) returns (e: Option<Error>)
    requires ValidDevice(api.router.device)
    modifies api`calls, api.router`device
    ensures ValidDevice(api.router.device)
    ensures Took([EnsureRow(Groups, "name", GROUP, map["name" := GROUP, "policy" := GROUP_POLICY])]
                 + [Upsert(Users, cfg.user, map["password" := cfg.password, "group" := GROUP])],
                 old(api.router.device), e, api.router.device, api.Dead())
    ensures old(api.Dead()) ==> api.Dead() && api.router.device == old(api.router.device)
    ensures api.Dead() ==> e != None
  {
    ghost var d := api.router.device;
    e := EnsurePresent(api, Groups, "name", GROUP, map["name" := GROUP, "policy" := GROUP_POLICY]);
    ghost var e0, mid, dead := e, api.router.device, api.Dead();
    if e == None { e := EnsureUser(api, cfg.user, cfg.password, GROUP); }
    Sequence([EnsureRow(Groups, "name", GROUP, map["name" := GROUP, "policy" := GROUP_POLICY])],
             [Upsert(Users, cfg.user, map["password" := cfg.password, "group" := GROUP])],
             d, e0, mid, dead, e, api.router.device, api.Dead());
  }

  // The interfaces discovery is to run on: configured ones, else the management interface.
  method ChooseDiscovery(api: Api, cfg: Config, ip: string) returns (ifaces: seq<string>)
    modifies api`calls
    ensures !api.Dead() ==> ifaces == DiscoveryInterfaces(cfg, api.router.device, ip)
    ensures old(api.Dead()) ==> api.Dead()
  {
    ifaces := cfg.discovery;
    if ifaces == [] {
      var guess := GetMgmtInterface(api, ip);
      if guess.Some? && guess.value != "" { ifaces := [guess.value]; }
    }
  }

  // Everything before the sector configuration.
  method EnsureEntry(api: Api, cfg: Config, ip: string) returns (e: Option<Error>)
    requires ValidDevice(api.router.device) && !api.Dead()
    modifies api`calls, api.router`device
    ensures ValidDevice(api.router.device)
    ensures Took(EntrySteps(cfg, DiscoveryInterfaces(cfg, old(api.router.device), ip)), old(api.router.device), e,
                 api.router.device, api.Dead())
    ensures api.Dead() ==> e != None
  {
    ghost var d, known := api.router.device, DiscoveryInterfaces(cfg, api.router.device, ip);
    e := EnsureAccess(api, cfg);
    ghost var e0, mid, dead := e, api.router.device, api.Dead();
    if e == None {
      AccessSpans(cfg);
      SpansElsewhere(AccessSteps(cfg), 0, 4, Addresses);
      RunElsewhere(AccessSteps(cfg), d, Addresses);
      var ifaces := ChooseDiscovery(api, cfg, ip);
      NothingDone(DiscoverySteps(known), mid);
      e := EnsureNeighborDiscovery(api, ifaces);
    }
    Sequence(AccessSteps(cfg), DiscoverySteps(known), d, e0, mid, dead, e, api.router.device, api.Dead());
    e0, mid, dead := e, api.router.device, api.Dead();
    if e == None { e := EnsureFirewall(api, cfg.port, cfg.allowed); }
    Sequence(AccessSteps(cfg) + DiscoverySteps(known), FirewallSteps(cfg.port, cfg.allowed),
             d, e0, mid, dead, e, api.router.device, api.Dead());
  }

  lemma EndReached(steps: seq<Step>, d: Device, e: Option<Error>, d': Device, dead: bool)
    requires Took(steps, d, e, d', dead)
    ensures Reached(steps, d, d')
  {
    FailureIsReached(steps, d);
  }

  method ApplyCallHome(api: Api, h: CallHome) returns (e: Option<Error>)
    requires ValidDevice(api.router.device)
    modifies api`calls, api.router`device
    ensures ValidDevice(api.router.device)
    ensures e == None ==> Run(CallHomeSteps(h), old(api.router.device)) == (api.router.device, None)
    ensures Reached(CallHomeSteps(h), old(api.router.device), api.router.device)
  {
    ghost var d := api.router.device;
    NothingDone(CallHomeSteps(h), d);
    if h.Off? { return None; }
    if h.Incomplete? { return Some(Refused(h.reason)); }
    ghost var script := Upsert(Scripts, h.script, CallHomeSteps(h)[0].attrs);
    ghost var scheduler := Upsert(Schedulers, h.scheduler, CallHomeSteps(h)[1].attrs);
    e := EnsureSet(api, Scripts, h.script, map["source" := h.source, "policy" := "read,write,test"], false);
    ghost var e0, mid, dead := e, api.router.device, api.Dead();
    if e == None {
      e := EnsureSet(api, Schedulers, h.scheduler,
                     map["interval" := h.interval, "on-event" := "/system/script/run name=" + h.script,
                         "start-time" := "startup", "disabled" := "no"], false);
    }
    Sequence([script], [scheduler], d, e0, mid, dead, e, api.router.device, api.Dead());
    assert CallHomeSteps(h) == [script] + [scheduler];
    EndReached(CallHomeSteps(h), d, e, api.router.device, api.Dead());
    if e == None {
      var ran := api.Print(Scripts); // running the script changes no row, and its failure is ignored
    }
  }

  // The whole script on one router. Success means the router is where one uninterrupted
  // run leaves it; any failure leaves it in a state such a run passes through.
  method Onboard(router: Router, first: Link, retry: Link, cfg: Config, ip: string) returns (e: Option<Error>)
    requires ValidDevice(router.device)
    modifies router
    ensures ValidDevice(router.device)
    ensures e == None ==> OnboardRun(cfg, old(router.device), ip) == (router.device, None)
    ensures Reached(OnboardSteps(cfg, DiscoveryInterfaces(cfg, old(router.device), ip),
                                 MgmtInterface(old(router.device), ip)),
                    old(router.device), router.device)
  {
    ghost var d := router.device;
    ghost var ifaces, mgmt := DiscoveryInterfaces(cfg, d, ip), MgmtInterface(d, ip);
    ghost var entry, home := EntrySteps(cfg, ifaces), CallHomeSteps(cfg.callHome);
    ghost var sector := if cfg.applySector then SectorSteps(cfg, mgmt) else [];
    NothingDone(OnboardSteps(cfg, ifaces, mgmt), d);
    var connection := Connect(router, first);
    if connection == None { return Some(LinkLost); }
    var api := connection.value;
    e := EnsureEntry(api, cfg, ip);
    ghost var mid := router.device;
    EntryEnds(cfg, d, ifaces, mgmt, e, mid, api.Dead());
    if e != None { return; }
    if cfg.applySector {
      e, api := SectorWithRetry(api, retry, cfg, ip);
      ghost var after := router.device;
      if e != None {
        ReachedLater(entry, sector, d, mid, after);
        ReachedPrefix(entry + sector, home, d, after);
        return;
      }
      RunSplit(entry, sector, d);
    } else {
      assert entry + sector == entry;
    }
    ghost var after := router.device;
    e := ApplyCallHome(api, cfg.callHome);
    ReachedLater(entry + sector, home, d, after, router.device);
    RunSplit(entry + sector, home, d);
  }

  lemma EntryEnds(cfg: Config, d: Device, ifaces: seq<string>, mgmt: Option<string>, e: Option<Error>, mid: Device,
                  dead: bool)
    requires Took(EntrySteps(cfg, ifaces), d, e, mid, dead)
    ensures Reached(OnboardSteps(cfg, ifaces, mgmt), d, mid)
    ensures forall ip :: MgmtInterface(mid, ip) == MgmtInterface(d, ip)
  {
    var entry := EntrySteps(cfg, ifaces);
    var rest := (if cfg.applySector then SectorSteps(cfg, mgmt) else []) + CallHomeSteps(cfg.callHome);
    assert OnboardSteps(cfg, ifaces, mgmt) == entry + rest;
    if !dead { FailureIsReached(entry, d); }
    ReachedPrefix(entry, rest, d, mid);
    EntrySpans(cfg, ifaces);
    SpansElsewhere(entry, 0, 10, Addresses);
    var k :| 0 <= k <= |entry| && Run(entry[..k], d) == (mid, None);
    RunElsewhere(entry[..k], d, Addresses);
  }
}
