/**
  The router the preloader talks to: menus of ordered rows with ids, single
  settings, and the commands that change them. A command that cannot be carried
  out traps: `add` when the identifying field is taken, `set` and `move` when the
  row is missing, a setting when the router has no such menu.
 */
module RouterOs {
  import opened Basics

  datatype Menu =
    | Interfaces | Bridges | BridgePorts | InterfaceLists | ListMembers
    | Groups | Users | Services | Scripts | Schedulers
    | DhcpClients | Addresses | Pools | DhcpServers | DhcpNetworks
    | Filter | Nat | HotspotProfiles | Hotspots | WalledGarden

  datatype Setting = Identity | Dns | Discovery | MacServer | MacWinbox

  type Attrs = map<string, string>
  datatype Row = Row(id: nat, attrs: Attrs)
  datatype Table = Table(rows: seq<Row>, nextId: nat)
  datatype Device = Device(tables: map<Menu, Table>, settings: map<Setting, Attrs>, canMove: bool)

  // How a command names a row: by internal id or by its name.
  datatype Ref = ById(id: nat) | ByName(name: string)

  datatype Command =
    | Add(menu: Menu, attrs: Attrs)
    | Set(menu: Menu, ref: Ref, attrs: Attrs)
    | MoveToTop(menu: Menu, id: nat)
    | Put(setting: Setting, attrs: Attrs)

  // The field every row of a menu carries, if there is one.
  function IdField(m: Menu): Option<string> {
    match m
    case BridgePorts | ListMembers | DhcpClients => Some("interface")
    case Addresses | DhcpNetworks => Some("address")
    case Filter | Nat | WalledGarden => None
    case _ => Some("name")
  }

  // Menus whose identifying field may not be repeated.
  predicate Unique(m: Menu) {
    IdField(m).Some? && m != ListMembers
  }

  function TableOf(d: Device, m: Menu): Table {
    if m in d.tables then d.tables[m] else Table([], 0)
  }

  // The rows a print of the menu shows: bridges are interfaces too.
  function Printed(d: Device, m: Menu): seq<Row> {
    if m == Interfaces then TableOf(d, Interfaces).rows + TableOf(d, Bridges).rows
    else TableOf(d, m).rows
  }

  predicate Has(row: Row, field: string, value: string) {
    field in row.attrs && row.attrs[field] == value
  }

  // Position of the first row with the given value, or the length when there is none.
  function First(rows: seq<Row>, field: string, value: string): (i: nat)
    ensures i <= |rows|
    ensures i < |rows| ==> Has(rows[i], field, value)
    ensures forall j :: 0 <= j < i ==> !Has(rows[j], field, value)
  {
    if rows == [] then 0
    else if Has(rows[0], field, value) then 0
    else
      var i := First(rows[1..], field, value);
      assert forall j :: 1 <= j < 1 + i ==> rows[j] == rows[1..][j - 1];
      1 + i
  }

  predicate Any(rows: seq<Row>, field: string, value: string) {
    First(rows, field, value) < |rows|
  }

  function FirstId(rows: seq<Row>, id: nat): (i: nat)
    ensures i <= |rows|
    ensures i < |rows| ==> rows[i].id == id
    ensures forall j :: 0 <= j < i ==> rows[j].id != id
  {
    if rows == [] then 0
    else if rows[0].id == id then 0
    else
      var i := FirstId(rows[1..], id);
      assert forall j :: 1 <= j < 1 + i ==> rows[j] == rows[1..][j - 1];
      1 + i
  }

  function Locate(rows: seq<Row>, ref: Ref): (i: nat)
    ensures i <= |rows|
  {
    match ref
    case ById(id) => FirstId(rows, id)
    case ByName(name) => First(rows, "name", name)
  }

  function WithTable(d: Device, m: Menu, t: Table): Device {
    d.(tables := d.tables[m := t])
  }

  function Append(d: Device, m: Menu, attrs: Attrs): Device {
    var t := TableOf(d, m);
    WithTable(d, m, Table(t.rows + [Row(t.nextId, attrs)], t.nextId + 1))
  }

  function Update(d: Device, m: Menu, i: nat, attrs: Attrs): Device
    requires i < |TableOf(d, m).rows|
  {
    var t := TableOf(d, m);
    WithTable(d, m, t.(rows := t.rows[i := t.rows[i].(attrs := t.rows[i].attrs + attrs)]))
  }

  function Lifted(rows: seq<Row>, i: nat): seq<Row>
    requires i < |rows|
  {
    [rows[i]] + rows[..i] + rows[i + 1..]
  }

  function Lift(d: Device, m: Menu, i: nat): Device
    requires i < |TableOf(d, m).rows|
  {
    var t := TableOf(d, m);
    WithTable(d, m, t.(rows := Lifted(t.rows, i)))
  }

  // A bridge shares its name space with all other interfaces.
  predicate Taken(d: Device, m: Menu, attrs: Attrs) {
    Unique(m) && IdField(m).value in attrs
    && Any(Printed(d, if m == Bridges then Interfaces else m), IdField(m).value, attrs[IdField(m).value])
  }

  function Execute(d: Device, c: Command): Option<Device> {
    match c
    case Add(m, attrs) =>
      if Taken(d, m, attrs) then None else Some(Append(d, m, attrs))
    case Set(m, ref, attrs) =>
      var i := Locate(TableOf(d, m).rows, ref);
      if i < |TableOf(d, m).rows| then Some(Update(d, m, i, attrs)) else None
    case MoveToTop(m, id) =>
      var i := FirstId(TableOf(d, m).rows, id);
      if d.canMove && i < |TableOf(d, m).rows| then Some(Lift(d, m, i)) else None
    case Put(s, attrs) =>
      if s in d.settings then Some(d.(settings := d.settings[s := d.settings[s] + attrs])) else None
  }

  // What every router keeps: ids are never reused, and identifying fields are present.
  ghost predicate ValidTable(m: Menu, t: Table) {
    && (forall i, j :: 0 <= i < j < |t.rows| ==> t.rows[i].id != t.rows[j].id)
    && (forall i :: 0 <= i < |t.rows| ==> t.rows[i].id < t.nextId)
    && (IdField(m).Some? ==> forall i :: 0 <= i < |t.rows| ==> IdField(m).value in t.rows[i].attrs)
  }

  ghost predicate ValidDevice(d: Device) {
    forall m :: m in d.tables ==> ValidTable(m, d.tables[m])
  }

  lemma AppendValid(m: Menu, t: Table, attrs: Attrs)
    requires ValidTable(m, t)
    requires IdField(m).Some? ==> IdField(m).value in attrs
    ensures ValidTable(m, Table(t.rows + [Row(t.nextId, attrs)], t.nextId + 1))
  {
  }

  lemma UpdateValid(m: Menu, t: Table, i: nat, attrs: Attrs)
    requires ValidTable(m, t) && i < |t.rows|
    ensures ValidTable(m, t.(rows := t.rows[i := t.rows[i].(attrs := t.rows[i].attrs + attrs)]))
  {
  }

  lemma LiftValid(m: Menu, t: Table, i: nat)
    requires ValidTable(m, t) && i < |t.rows|
    ensures ValidTable(m, t.(rows := Lifted(t.rows, i)))
  {
    var rows := Lifted(t.rows, i);
    forall j | 0 <= j < |rows|
      ensures rows[j] == t.rows[if j == 0 then i else if j <= i then j - 1 else j]
    {
    }
  }

  // Every command keeps the router valid, as long as a new row has its identifying field.
  lemma ExecuteKeepsValid(d: Device, c: Command)
    requires ValidDevice(d) && Execute(d, c).Some?
    requires c.Add? && IdField(c.menu).Some? ==> IdField(c.menu).value in c.attrs
    ensures ValidDevice(Execute(d, c).value)
  {
    match c
    case Add(m, attrs) =>
      AppendValid(m, TableOf(d, m), attrs);
    case Set(m, ref, attrs) =>
      UpdateValid(m, TableOf(d, m), Locate(TableOf(d, m).rows, ref), attrs);
    case MoveToTop(m, id) =>
      LiftValid(m, TableOf(d, m), FirstId(TableOf(d, m).rows, id));
    case Put(s, attrs) =>
  }

  /* Looking rows up */

  // The rows a filtered query returns.
  function Select(rows: seq<Row>, field: string, value: string): seq<Row> {
    if rows == [] then []
    else (if Has(rows[0], field, value) then [rows[0]] else []) + Select(rows[1..], field, value)
  }

  // The text a full print is compared by: a missing field reads as the word None.
  function TextOf(row: Row, field: string): string {
    if field in row.attrs then row.attrs[field] else "None"
  }

  function SelectByText(rows: seq<Row>, field: string, value: string): seq<Row> {
    if rows == [] then []
    else (if TextOf(rows[0], field) == value then [rows[0]] else []) + SelectByText(rows[1..], field, value)
  }

  ghost predicate LookupSafe(rows: seq<Row>, field: string, value: string) {
    value != "None" || forall i :: 0 <= i < |rows| ==> field in rows[i].attrs
  }

  // The two lookups agree exactly when a missing field cannot be mistaken for the value.
  lemma {:induction false} LookupPathsAgree(rows: seq<Row>, field: string, value: string)
    ensures Select(rows, field, value) == SelectByText(rows, field, value) <==> LookupSafe(rows, field, value)
  {
    if rows == [] {
    } else {
      LookupPathsAgree(rows[1..], field, value);
      SelectInText(rows[1..], field, value);
      if LookupSafe(rows, field, value) {
        assert LookupSafe(rows[1..], field, value);
      } else {
        var i :| 0 <= i < |rows| && field !in rows[i].attrs;
        if i > 0 { assert rows[1..][i - 1] == rows[i]; }
      }
    }
  }

  lemma {:induction false} SelectInText(rows: seq<Row>, field: string, value: string)
    ensures |Select(rows, field, value)| <= |SelectByText(rows, field, value)|
    ensures |Select(rows, field, value)| == |SelectByText(rows, field, value)| ==>
              Select(rows, field, value) == SelectByText(rows, field, value)
  {
    if rows == [] {
    } else {
      SelectInText(rows[1..], field, value);
    }
  }

  // The head of a selection is the first matching row.
  lemma {:induction false} SelectHead(rows: seq<Row>, field: string, value: string)
    ensures Select(rows, field, value) == [] <==> !Any(rows, field, value)
    ensures Any(rows, field, value) ==> Select(rows, field, value)[0] == rows[First(rows, field, value)]
    ensures forall r :: r in Select(rows, field, value) <==> r in rows && Has(r, field, value)
  {
    if rows == [] {
    } else {
      SelectHead(rows[1..], field, value);
      assert rows == [rows[0]] + rows[1..];
    }
  }

  // A row's id leads back to that row.
  lemma IdLocates(m: Menu, t: Table, i: nat)
    requires ValidTable(m, t) && i < |t.rows|
    ensures FirstId(t.rows, t.rows[i].id) == i
  {
  }
}
