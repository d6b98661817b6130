/**
  The preloader's "find, then set or add" steps, what running a list of them does,
  and the restart theorem: a run cut after any step and then repeated in full ends
  exactly like the run that was never cut.
 */
module Reconciler {
  import opened Basics
  import opened RouterOs

  datatype Error = LinkLost | Trap | UnknownParameter | Refused(reason: string)

  datatype Step =
    | EnsureRow(menu: Menu, field: string, value: string, attrs: Attrs)  // leave alone if found, else add
    | Upsert(menu: Menu, value: string, attrs: Attrs)                    // set if found, else add
    | Patch(menu: Menu, name: string, attrs: Attrs)                      // set, trap if missing
    | Join(menu: Menu, iface: string, groupField: string, group: string) // interface into bridge or list
    | LiftFirst(menu: Menu, comment: string)                             // move to the top, failures ignored
    | Configure(setting: Setting, attrs: Attrs, quiet: bool)
    | Raise(error: Error)

  function Run1(o: Option<Device>): Result<Device, Error> {
    match o
    case Some(d) => Ok(d)
    case None => Err(Trap)
  }

  predicate Member(rows: seq<Row>, iface: string, groupField: string, group: string) {
    exists r :: r in rows && Has(r, "interface", iface) && Has(r, groupField, group)
  }

  function Key(m: Menu): string {
    if IdField(m).Some? then IdField(m).value else "name"
  }

  function Apply(s: Step, d: Device): Result<Device, Error> {
    match s
    case EnsureRow(m, field, value, attrs) =>
      if Any(Printed(d, m), field, value) then Ok(d) else Run1(Execute(d, Add(m, attrs)))
    case Upsert(m, value, attrs) =>
      var i := First(Printed(d, m), Key(m), value);
      if i < |Printed(d, m)| then Run1(Execute(d, Set(m, ById(Printed(d, m)[i].id), attrs)))
      else Run1(Execute(d, Add(m, attrs[Key(m) := value])))
    case Patch(m, name, attrs) =>
      Run1(Execute(d, Set(m, ByName(name), attrs)))
    case Join(m, iface, groupField, group) =>
      if !Any(Printed(d, Interfaces), "name", iface) then Ok(d)
      else if Member(Printed(d, m), iface, groupField, group) then Ok(d)
      else Run1(Execute(d, Add(m, map["interface" := iface, groupField := group])))
    case LiftFirst(m, comment) =>
      var i := First(Printed(d, m), "comment", comment);
      if i == |Printed(d, m)| then Err(Trap)
      else
        var o := Execute(d, MoveToTop(m, Printed(d, m)[i].id));
        Ok(if o.Some? then o.value else d)
    case Configure(setting, attrs, quiet) =>
      var o := Execute(d, Put(setting, attrs));
      if quiet && o.None? then Ok(d) else Run1(o)
    case Raise(e) => Err(e)
  }

  // Steps up to and including the first that fails; None when all succeed.
  function Run(steps: seq<Step>, d: Device): (Device, Option<Error>) {
    if steps == [] then (d, None)
    else match Apply(steps[0], d)
      case Ok(d') => Run(steps[1..], d')
      case Err(e) => (d, Some(e))
  }

  // The states a run passes through, one for each number of steps completed.
  ghost predicate Reached(steps: seq<Step>, d: Device, mid: Device) {
    exists k :: 0 <= k <= |steps| && Run(steps[..k], d) == (mid, None)
  }

  /* Shape of the steps the preloader uses */

  predicate WellShaped(s: Step) {
    match s
    case EnsureRow(m, field, value, attrs) =>
      && m != Interfaces && field in attrs && attrs[field] == value
      && (IdField(m).Some? ==> field == IdField(m).value)
      && (field != "comment" ==> IdField(m).Some?)
    case Upsert(m, value, attrs) =>
      m !in {Interfaces, Bridges, BridgePorts, ListMembers} && Unique(m) && Key(m) !in attrs
    case Patch(m, name, attrs) =>
      m !in {Interfaces, Bridges} && IdField(m) == Some("name") && "name" !in attrs
    case Join(m, iface, groupField, group) =>
      && m in {BridgePorts, ListMembers} && groupField != "interface"
    case LiftFirst(m, comment) => m == Filter
    case Configure(_, _, _) => true
    case Raise(e) => e != LinkLost
  }

  ghost predicate AllWellShaped(steps: seq<Step>) {
    forall i :: 0 <= i < |steps| ==> WellShaped(steps[i])
  }

  predicate Agree(a: Attrs, b: Attrs) {
    forall k :: k in a && k in b ==> a[k] == b[k]
  }

  predicate Includes(all: Attrs, some: Attrs) {
    forall k :: k in some ==> k in all && all[k] == some[k]
  }

  // Step b does not undo what step a established.
  predicate Spares(b: Step, a: Step) {
    match b
    case Raise(_) => true
    case Configure(setting, attrs, _) =>
      a.Configure? && a.setting == setting ==> Agree(a.attrs, attrs)
    case EnsureRow(m, _, _, attrs) =>
      a.Join? && m == Bridges ==> !("name" in attrs && attrs["name"] == a.iface)
    case Join(_, _, _, _) => true
    case Upsert(m, _, attrs) =>
      (a.EnsureRow? || a.Join? || a.LiftFirst? ==> a.menu != m)
      && ((a.Upsert? || a.Patch?) && a.menu == m ==> Agree(a.attrs, attrs))
    case Patch(m, _, attrs) =>
      (a.EnsureRow? || a.Join? || a.LiftFirst? ==> a.menu != m)
      && ((a.Upsert? || a.Patch?) && a.menu == m ==> Agree(a.attrs, attrs))
    case LiftFirst(m, comment) =>
      (a.Upsert? || a.Patch? ==> a.menu != m)
      && (a.LiftFirst? && a.menu == m ==> a.comment == comment)
  }

  // A join that finds its interface, or its membership, from the start.
  predicate Settled(a: Step, d: Device) {
    a.Join? && (Any(Printed(d, Interfaces), "name", a.iface)
                || Member(TableOf(d, a.menu).rows, a.iface, a.groupField, a.group))
  }

  // No step undoes an earlier one. A new bridge may carry a name that an earlier join
  // looked for, as long as that join was settled before.
  ghost predicate Ordered(steps: seq<Step>, d: Device) {
    forall i, j :: 0 <= i < j < |steps| ==>
      Spares(steps[j], steps[i])
      || (Settled(steps[i], d) && steps[j].EnsureRow? && steps[j].menu == Bridges)
  }

  /* What a completed step has established */

  // For the steps that concern one menu: what its rows then look like.
  predicate Holds(s: Step, rows: seq<Row>, canMove: bool) {
    match s
    case EnsureRow(_, field, value, _) => Any(rows, field, value)
    case Upsert(m, value, attrs) =>
      var i := First(rows, Key(m), value);
      i < |rows| && Includes(rows[i].attrs, attrs)
    case Patch(_, name, attrs) =>
      var i := First(rows, "name", name);
      i < |rows| && Includes(rows[i].attrs, attrs)
    case Join(_, iface, groupField, group) => Member(rows, iface, groupField, group)
    case LiftFirst(_, comment) =>
      Any(rows, "comment", comment) && (canMove ==> First(rows, "comment", comment) == 0)
    case Configure(_, _, _) | Raise(_) => false
  }

  predicate Established(s: Step, d: Device) {
    match s
    case Configure(setting, attrs, quiet) =>
      if setting in d.settings then Includes(d.settings[setting], attrs) else quiet
    case Raise(_) => false
    case Join(m, iface, _, _) =>
      !Any(Printed(d, Interfaces), "name", iface) || Holds(s, TableOf(d, m).rows, d.canMove)
    case _ => Holds(s, TableOf(d, s.menu).rows, d.canMove)
  }

  lemma FirstUnique(rows: seq<Row>, field: string, value: string, i: nat)
    requires i <= |rows|
    requires i < |rows| ==> Has(rows[i], field, value)
    requires forall j :: 0 <= j < i ==> !Has(rows[j], field, value)
    ensures First(rows, field, value) == i
  {
  }

  lemma ApplyKeepsValid(s: Step, d: Device)
    requires ValidDevice(d) && WellShaped(s) && Apply(s, d).Ok?
    ensures ValidDevice(Apply(s, d).value)
  {
    if Apply(s, d).value != d {
      match s
      case EnsureRow(m, _, _, attrs) => ExecuteKeepsValid(d, Add(m, attrs));
      case Upsert(m, value, attrs) =>
        var i := First(Printed(d, m), Key(m), value);
        if i < |Printed(d, m)| {
          ExecuteKeepsValid(d, Set(m, ById(Printed(d, m)[i].id), attrs));
        } else {
          ExecuteKeepsValid(d, Add(m, attrs[Key(m) := value]));
        }
      case Patch(m, name, attrs) => ExecuteKeepsValid(d, Set(m, ByName(name), attrs));
      case Join(m, iface, groupField, group) =>
        ExecuteKeepsValid(d, Add(m, map["interface" := iface, groupField := group]));
      case LiftFirst(m, comment) =>
        ExecuteKeepsValid(d, MoveToTop(m, Printed(d, m)[First(Printed(d, m), "comment", comment)].id));
      case Configure(setting, attrs, _) => ExecuteKeepsValid(d, Put(setting, attrs));
    }
  }

  lemma UpdateNoOp(d: Device, m: Menu, i: nat, attrs: Attrs)
    requires i < |TableOf(d, m).rows| && Includes(TableOf(d, m).rows[i].attrs, attrs)
    ensures Update(d, m, i, attrs) == d
  {
    var rows := TableOf(d, m).rows;
    assert rows[i].attrs + attrs == rows[i].attrs;
    assert rows[i := rows[i]] == rows;
  }

  lemma LiftNoOp(d: Device, m: Menu)
    requires |TableOf(d, m).rows| > 0
    ensures Lift(d, m, 0) == d
  {
    assert Lifted(TableOf(d, m).rows, 0) == TableOf(d, m).rows;
  }

  // An established step has nothing left to do.
  lemma EstablishedIsNoOp(s: Step, d: Device)
    requires ValidDevice(d) && WellShaped(s) && Established(s, d)
    ensures Apply(s, d) == Ok(d)
  {
    match s
    case EnsureRow(_, _, _, _) =>
    case Upsert(_, _, _) => UpsertNoOp(s, d);
    case Patch(m, name, attrs) =>
      UpdateNoOp(d, m, First(TableOf(d, m).rows, "name", name), attrs);
    case Join(_, _, _, _) =>
    case LiftFirst(m, comment) =>
      if d.canMove { LiftNoOp(d, m); }
    case Configure(_, _, _) => ConfigureNoOp(s, d);
    case Raise(_) =>
  }

  lemma UpsertNoOp(s: Step, d: Device)
    requires s.Upsert? && ValidDevice(d) && WellShaped(s) && Established(s, d)
    ensures Apply(s, d) == Ok(d)
  {
    var i := First(TableOf(d, s.menu).rows, Key(s.menu), s.value);
    IdLocates(s.menu, TableOf(d, s.menu), i);
    UpdateNoOp(d, s.menu, i, s.attrs);
  }

  lemma ConfigureNoOp(s: Step, d: Device)
    requires s.Configure? && Established(s, d)
    ensures Apply(s, d) == Ok(d)
  {
    if s.setting in d.settings {
      assert d.settings[s.setting] + s.attrs == d.settings[s.setting];
      assert d.settings[s.setting := d.settings[s.setting]] == d.settings;
    }
  }

  // A step that succeeds establishes what it is for.
  lemma SuccessEstablishes(s: Step, d: Device)
    requires ValidDevice(d) && WellShaped(s) && Apply(s, d).Ok?
    ensures Established(s, Apply(s, d).value)
  {
    var d' := Apply(s, d).value;
    match s
    case EnsureRow(m, field, value, attrs) =>
      if d' != d { LastHolds(s, TableOf(d', m).rows, d.canMove); }
    case Upsert(m, value, attrs) =>
      UpsertHolds(s, d);
    case Patch(m, name, attrs) =>
      FirstAfterUpdate(TableOf(d, m).rows, First(TableOf(d, m).rows, "name", name), attrs, "name", name);
    case Join(m, iface, groupField, group) =>
      JoinHolds(s, d);
    case LiftFirst(m, comment) =>
      LiftHolds(s, d);
    case Configure(_, _, _) =>
  }

  lemma LastHolds(s: Step, rows: seq<Row>, canMove: bool)
    requires s.EnsureRow? && |rows| > 0 && Has(rows[|rows| - 1], s.field, s.value)
    ensures Holds(s, rows, canMove)
  {
  }

  lemma JoinHolds(s: Step, d: Device)
    requires s.Join? && WellShaped(s) && Apply(s, d).Ok?
    ensures Established(s, Apply(s, d).value)
  {
    var d' := Apply(s, d).value;
    if d' != d {
      var attrs := map["interface" := s.iface, s.groupField := s.group];
      assert d' == Append(d, s.menu, attrs);
      MemberAppended(TableOf(d, s.menu).rows, Row(TableOf(d, s.menu).nextId, attrs), s.iface, s.groupField, s.group);
    }
  }

  lemma MemberAppended(rows: seq<Row>, r: Row, iface: string, groupField: string, group: string)
    requires Has(r, "interface", iface) && Has(r, groupField, group)
    ensures Member(rows + [r], iface, groupField, group)
  {
    assert r in rows + [r];
  }

  lemma UpsertHolds(s: Step, d: Device)
    requires s.Upsert? && ValidDevice(d) && WellShaped(s) && Apply(s, d).Ok?
    ensures Established(s, Apply(s, d).value)
  {
    var rows := TableOf(d, s.menu).rows;
    var rows' := TableOf(Apply(s, d).value, s.menu).rows;
    var i := First(rows, Key(s.menu), s.value);
    if i < |rows| {
      IdLocates(s.menu, TableOf(d, s.menu), i);
      FirstAfterUpdate(rows, i, s.attrs, Key(s.menu), s.value);
    } else {
      FirstUnique(rows', Key(s.menu), s.value, |rows|);
    }
  }

  lemma LiftHolds(s: Step, d: Device)
    requires s.LiftFirst? && ValidDevice(d) && WellShaped(s) && Apply(s, d).Ok?
    ensures Established(s, Apply(s, d).value)
  {
    var i := First(TableOf(d, s.menu).rows, "comment", s.comment);
    IdLocates(s.menu, TableOf(d, s.menu), i);
  }

  lemma FirstAfterAppend(rows: seq<Row>, r: Row, field: string, value: string)
    ensures Any(rows, field, value) ==> First(rows + [r], field, value) == First(rows, field, value)
    ensures !Has(r, field, value) && !Any(rows, field, value) ==> First(rows + [r], field, value) == |rows| + 1
  {
    if Any(rows, field, value) {
      FirstUnique(rows + [r], field, value, First(rows, field, value));
    } else if !Has(r, field, value) {
      FirstUnique(rows + [r], field, value, |rows| + 1);
    }
  }

  lemma FirstAfterUpdate(rows: seq<Row>, i: nat, attrs: Attrs, field: string, value: string)
    requires i < |rows| && field !in attrs
    ensures First(rows[i := rows[i].(attrs := rows[i].attrs + attrs)], field, value) == First(rows, field, value)
  {
    FirstUnique(rows[i := rows[i].(attrs := rows[i].attrs + attrs)], field, value, First(rows, field, value));
  }

  lemma AppendHolds(s: Step, rows: seq<Row>, r: Row, canMove: bool)
    requires Holds(s, rows, canMove)
    ensures Holds(s, rows + [r], canMove)
  {
    match s
    case EnsureRow(_, field, value, _) => FirstAfterAppend(rows, r, field, value);
    case Upsert(m, value, _) => FirstAfterAppend(rows, r, Key(m), value);
    case Patch(_, name, _) => FirstAfterAppend(rows, r, "name", name);
    case Join(_, _, _, _) =>
    case LiftFirst(_, comment) => FirstAfterAppend(rows, r, "comment", comment);
  }

  lemma UpdateHolds(s: Step, rows: seq<Row>, i: nat, attrs: Attrs, canMove: bool)
    requires i < |rows| && WellShaped(s) && Holds(s, rows, canMove)
    requires (s.Upsert? && Key(s.menu) !in attrs) || (s.Patch? && "name" !in attrs)
    requires Agree(s.attrs, attrs)
    ensures Holds(s, rows[i := rows[i].(attrs := rows[i].attrs + attrs)], canMove)
  {
    match s
    case Upsert(m, value, _) => FirstAfterUpdate(rows, i, attrs, Key(m), value);
    case Patch(_, name, _) => FirstAfterUpdate(rows, i, attrs, "name", name);
  }

  lemma LiftedHas(rows: seq<Row>, i: nat, j: nat)
    requires i < |rows| && j < |rows|
    ensures rows[j] in Lifted(rows, i)
  {
    var k := if j == i then 0 else if j < i then j + 1 else j;
    assert Lifted(rows, i)[k] == rows[j];
  }

  lemma LiftedHolds(s: Step, rows: seq<Row>, i: nat, canMove: bool)
    requires i < |rows| && Holds(s, rows, canMove)
    requires s.EnsureRow? || s.Join? || (s.LiftFirst? && Has(rows[i], "comment", s.comment))
    ensures Holds(s, Lifted(rows, i), canMove)
  {
    match s
    case EnsureRow(_, field, value, _) =>
      LiftedHas(rows, i, First(rows, field, value));
    case Join(_, iface, groupField, group) =>
      var r :| r in rows && Has(r, "interface", iface) && Has(r, groupField, group);
      var j :| 0 <= j < |rows| && rows[j] == r;
      LiftedHas(rows, i, j);
    case LiftFirst(_, comment) =>
  }

  /* Later steps leave established ones alone */

  // A step looks at its own menu and, for a join, at the interfaces.
  lemma OtherMenu(d: Device, m: Menu, t: Table, a: Step)
    requires !a.Configure? && !a.Raise? && a.menu != m
    requires a.Join? ==> m != Interfaces && m != Bridges
    ensures Established(a, WithTable(d, m, t)) == Established(a, d)
  {
    var d' := WithTable(d, m, t);
    assert TableOf(d', a.menu) == TableOf(d, a.menu);
    if a.Join? {
      assert TableOf(d', Interfaces) == TableOf(d, Interfaces);
      assert TableOf(d', Bridges) == TableOf(d, Bridges);
      assert Printed(d', Interfaces) == Printed(d, Interfaces);
    }
  }

  lemma SameMenu(d: Device, m: Menu, t: Table, a: Step)
    requires !a.Configure? && !a.Raise? && a.menu == m
    requires Holds(a, t.rows, d.canMove)
    ensures Established(a, WithTable(d, m, t))
  {
    assert TableOf(WithTable(d, m, t), m) == t;
  }

  lemma JoinWithout(d: Device, m: Menu, t: Table, a: Step)
    requires a.Join? && m != Interfaces && m != Bridges && !Any(Printed(d, Interfaces), "name", a.iface)
    ensures Established(a, WithTable(d, m, t))
  {
    var d' := WithTable(d, m, t);
    assert TableOf(d', Interfaces) == TableOf(d, Interfaces);
    assert TableOf(d', Bridges) == TableOf(d, Bridges);
  }

  lemma AppendSpares(m: Menu, attrs: Attrs, a: Step, d: Device)
    requires WellShaped(a) && Established(a, d) && m != Interfaces
    requires a.Join? && m == Bridges ==> !("name" in attrs && attrs["name"] == a.iface)
    ensures Established(a, Append(d, m, attrs))
  {
    var before := TableOf(d, m);
    var t := Table(before.rows + [Row(before.nextId, attrs)], before.nextId + 1);
    assert Append(d, m, attrs) == WithTable(d, m, t);
    if a.Configure? {
    } else if a.Join? && m == Bridges {
      BridgeSparesJoin(attrs, a, d);
    } else if a.menu != m {
      OtherMenu(d, m, t, a);
    } else if a.Join? && !Any(Printed(d, Interfaces), "name", a.iface) {
      JoinWithout(d, m, t, a);
    } else {
      AppendHolds(a, before.rows, Row(before.nextId, attrs), d.canMove);
      SameMenu(d, m, t, a);
    }
  }

  // A new bridge is a new interface, but not the one the earlier step looked for.
  lemma BridgeSparesJoin(attrs: Attrs, a: Step, d: Device)
    requires a.Join? && WellShaped(a) && Established(a, d)
    requires !("name" in attrs && attrs["name"] == a.iface)
    ensures Established(a, Append(d, Bridges, attrs))
  {
    var r := Row(TableOf(d, Bridges).nextId, attrs);
    var before := Printed(d, Interfaces);
    assert Printed(Append(d, Bridges, attrs), Interfaces) == before + [r];
    FirstAfterAppend(before, r, "name", a.iface);
  }

  lemma UpdateSpares(m: Menu, i: nat, attrs: Attrs, a: Step, d: Device)
    requires i < |TableOf(d, m).rows| && m != Interfaces && m != Bridges
    requires WellShaped(a) && Established(a, d)
    requires !a.Configure? && a.menu == m ==>
               (a.Upsert? || a.Patch?) && Agree(a.attrs, attrs) && Key(m) !in attrs
    ensures Established(a, Update(d, m, i, attrs))
  {
    var t := TableOf(Update(d, m, i, attrs), m);
    if a.Configure? || a.Raise? {
    } else if a.menu != m {
      OtherMenu(d, m, t, a);
    } else {
      UpdateHolds(a, TableOf(d, m).rows, i, attrs, d.canMove);
      SameMenu(d, m, t, a);
    }
  }

  lemma LiftSpares(m: Menu, i: nat, comment: string, a: Step, d: Device)
    requires i < |TableOf(d, m).rows| && Has(TableOf(d, m).rows[i], "comment", comment) && m == Filter
    requires WellShaped(a) && Established(a, d)
    requires !a.Configure? && a.menu == m ==> a.EnsureRow? || (a.LiftFirst? && a.comment == comment)
    ensures Established(a, Lift(d, m, i))
  {
    if !a.Configure? && a.menu == m { LiftedHolds(a, TableOf(d, m).rows, i, d.canMove); }
    if a.Join? { assert Printed(Lift(d, m, i), Interfaces) == Printed(d, Interfaces); }
  }

  lemma PutSpares(setting: Setting, attrs: Attrs, a: Step, d: Device)
    requires setting in d.settings && Established(a, d)
    requires a.Configure? && a.setting == setting ==> Agree(a.attrs, attrs)
    ensures Established(a, d.(settings := d.settings[setting := d.settings[setting] + attrs]))
  {
    var d' := d.(settings := d.settings[setting := d.settings[setting] + attrs]);
    if a.Join? { assert Printed(d', Interfaces) == Printed(d, Interfaces); }
  }

  lemma UpsertSpares(b: Step, a: Step, d: Device)
    requires b.Upsert? && ValidDevice(d) && WellShaped(a) && WellShaped(b)
    requires Spares(b, a) && Established(a, d) && Apply(b, d).Ok?
    ensures Established(a, Apply(b, d).value)
  {
    var i := First(TableOf(d, b.menu).rows, Key(b.menu), b.value);
    if i < |TableOf(d, b.menu).rows| {
      IdLocates(b.menu, TableOf(d, b.menu), i);
      UpdateSpares(b.menu, i, b.attrs, a, d);
    } else {
      AppendSpares(b.menu, b.attrs[Key(b.menu) := b.value], a, d);
    }
  }

  lemma JoinSpares(b: Step, a: Step, d: Device)
    requires b.Join? && WellShaped(a) && WellShaped(b) && Established(a, d) && Apply(b, d).Ok?
    ensures Established(a, Apply(b, d).value)
  {
    if Apply(b, d).value != d {
      AppendSpares(b.menu, map["interface" := b.iface, b.groupField := b.group], a, d);
    }
  }

  lemma LiftStepSpares(b: Step, a: Step, d: Device)
    requires b.LiftFirst? && ValidDevice(d) && WellShaped(a) && WellShaped(b)
    requires Spares(b, a) && Established(a, d) && Apply(b, d).Ok?
    ensures Established(a, Apply(b, d).value)
  {
    if d.canMove {
      var i := First(TableOf(d, b.menu).rows, "comment", b.comment);
      IdLocates(b.menu, TableOf(d, b.menu), i);
      LiftSpares(b.menu, i, b.comment, a, d);
    }
  }

  lemma StepSpares(b: Step, a: Step, d: Device)
    requires ValidDevice(d) && WellShaped(a) && WellShaped(b)
    requires Spares(b, a) && Established(a, d) && Apply(b, d).Ok?
    ensures Established(a, Apply(b, d).value)
  {
    match b
    case EnsureRow(m, field, value, attrs) =>
      if !Any(Printed(d, m), field, value) { AppendSpares(m, attrs, a, d); }
    case Upsert(_, _, _) => UpsertSpares(b, a, d);
    case Patch(m, name, attrs) =>
      UpdateSpares(m, First(TableOf(d, m).rows, "name", name), attrs, a, d);
    case Join(_, _, _, _) => JoinSpares(b, a, d);
    case LiftFirst(_, _) => LiftStepSpares(b, a, d);
    case Configure(setting, attrs, _) =>
      if setting in d.settings { PutSpares(setting, attrs, a, d); }
  }

  lemma AnyAfterAppend(rows: seq<Row>, more: seq<Row>, field: string, value: string)
    requires Any(rows, field, value)
    ensures Any(rows + more, field, value)
  {
    FirstUnique(rows + more, field, value, First(rows, field, value));
  }

  ghost predicate Grown(d: Device, d': Device, m: Menu) {
    && TableOf(d, m).rows <= TableOf(d', m).rows
    && (m == Interfaces ==> TableOf(d', m) == TableOf(d, m))
  }

  lemma AppendGrows(d: Device, menu: Menu, attrs: Attrs, m: Menu)
    requires menu != Interfaces
    ensures Grown(d, Append(d, menu, attrs), m)
  {
  }

  lemma OthersGrow(d: Device, menu: Menu, t: Table, m: Menu)
    requires menu != m
    ensures Grown(d, WithTable(d, menu, t), m)
  {
  }

  lemma UpsertGrows(s: Step, d: Device, m: Menu)
    requires s.Upsert? && s.menu != m && Apply(s, d).Ok?
    ensures Grown(d, Apply(s, d).value, m)
  {
    var i := First(Printed(d, s.menu), Key(s.menu), s.value);
    if i < |Printed(d, s.menu)| {
      SetGrows(d, s.menu, ById(Printed(d, s.menu)[i].id), s.attrs, m);
    } else {
      AddGrows(d, s.menu, s.attrs[Key(s.menu) := s.value], m);
    }
  }

  lemma SetGrows(d: Device, menu: Menu, ref: Ref, attrs: Attrs, m: Menu)
    requires menu != m && Execute(d, Set(menu, ref, attrs)).Some?
    ensures Grown(d, Execute(d, Set(menu, ref, attrs)).value, m)
  {
  }

  lemma AddGrows(d: Device, menu: Menu, attrs: Attrs, m: Menu)
    requires menu != m && Execute(d, Add(menu, attrs)).Some?
    ensures Grown(d, Execute(d, Add(menu, attrs)).value, m)
  {
  }

  lemma PatchGrows(s: Step, d: Device, m: Menu)
    requires s.Patch? && s.menu != m && Apply(s, d).Ok?
    ensures Grown(d, Apply(s, d).value, m)
  {
    OthersGrow(d, s.menu, TableOf(Apply(s, d).value, s.menu), m);
  }

  lemma LiftGrows(s: Step, d: Device, m: Menu)
    requires s.LiftFirst? && s.menu != m && Apply(s, d).Ok?
    ensures Grown(d, Apply(s, d).value, m)
  {
    OthersGrow(d, s.menu, TableOf(Apply(s, d).value, s.menu), m);
  }

  // These menus only ever gain rows at the end.
  lemma TablesGrow(s: Step, d: Device, m: Menu)
    requires WellShaped(s) && Apply(s, d).Ok? && m in {Interfaces, Bridges, BridgePorts, ListMembers}
    ensures Grown(d, Apply(s, d).value, m)
  {
    match s
    case EnsureRow(menu, _, _, attrs) => AppendGrows(d, menu, attrs, m);
    case Upsert(_, _, _) => UpsertGrows(s, d, m);
    case Patch(_, _, _) => PatchGrows(s, d, m);
    case Join(menu, iface, groupField, group) =>
      AppendGrows(d, menu, map["interface" := iface, groupField := group], m);
    case LiftFirst(_, _) => LiftGrows(s, d, m);
    case Configure(_, _, _) =>
  }

  lemma InterfaceStays(s: Step, d: Device, iface: string)
    requires WellShaped(s) && Apply(s, d).Ok? && Any(Printed(d, Interfaces), "name", iface)
    ensures Any(Printed(Apply(s, d).value, Interfaces), "name", iface)
  {
    TablesGrow(s, d, Interfaces);
    TablesGrow(s, d, Bridges);
    MoreInterfaces(d, Apply(s, d).value, iface);
  }

  lemma MoreInterfaces(d: Device, d': Device, iface: string)
    requires TableOf(d', Interfaces) == TableOf(d, Interfaces)
    requires TableOf(d, Bridges).rows <= TableOf(d', Bridges).rows
    requires Any(Printed(d, Interfaces), "name", iface)
    ensures Any(Printed(d', Interfaces), "name", iface)
  {
    var more := TableOf(d', Bridges).rows[|TableOf(d, Bridges).rows|..];
    assert Printed(d', Interfaces) == Printed(d, Interfaces) + more;
    AnyAfterAppend(Printed(d, Interfaces), more, "name", iface);
  }

  lemma SettledStays(a: Step, b: Step, d: Device)
    requires WellShaped(a) && WellShaped(b) && Settled(a, d) && Apply(b, d).Ok?
    ensures Settled(a, Apply(b, d).value)
  {
    TablesGrow(b, d, a.menu);
    if Any(Printed(d, Interfaces), "name", a.iface) { InterfaceStays(b, d, a.iface); }
  }

  lemma SettledSpared(b: Step, a: Step, d: Device)
    requires WellShaped(a) && WellShaped(b) && Settled(a, d) && Established(a, d)
    requires b.EnsureRow? && b.menu == Bridges && Apply(b, d).Ok?
    ensures Established(a, Apply(b, d).value)
  {
    TablesGrow(b, d, a.menu);
  }

  /* Runs */

  lemma {:induction false} RunSplit(u: seq<Step>, v: seq<Step>, d: Device)
    ensures var (mid, e) := Run(u, d); Run(u + v, d) == if e.None? then Run(v, mid) else (mid, e)
  {
    if u == [] {
      assert u + v == v;
    } else {
      assert (u + v)[0] == u[0] && (u + v)[1..] == u[1..] + v;
      if Apply(u[0], d).Ok? { RunSplit(u[1..], v, Apply(u[0], d).value); }
    }
  }

  lemma RunCut(steps: seq<Step>, d: Device, k: nat)
    requires k <= |steps| && Run(steps[..k], d).1.None?
    ensures Run(steps, d) == Run(steps[k..], Run(steps[..k], d).0)
  {
    assert steps == steps[..k] + steps[k..];
    RunSplit(steps[..k], steps[k..], d);
  }

  lemma {:induction false} RunKeepsValid(steps: seq<Step>, d: Device)
    requires ValidDevice(d) && AllWellShaped(steps)
    ensures ValidDevice(Run(steps, d).0)
  {
    if steps == [] {
    } else if Apply(steps[0], d).Ok? {
      ApplyKeepsValid(steps[0], d);
      RunKeepsValid(steps[1..], Apply(steps[0], d).value);
    }
  }

  lemma {:induction false} SettledThroughout(a: Step, steps: seq<Step>, d: Device)
    requires WellShaped(a) && AllWellShaped(steps) && Settled(a, d)
    ensures Settled(a, Run(steps, d).0)
  {
    if steps == [] {
    } else if Apply(steps[0], d).Ok? {
      SettledStays(a, steps[0], d);
      SettledThroughout(a, steps[1..], Apply(steps[0], d).value);
    }
  }

  // One more step leaves what was established.
  lemma NextSpares(steps: seq<Step>, last: Step, i: nat, d: Device, mid: Device)
    requires ValidDevice(d) && ValidDevice(mid) && AllWellShaped(steps) && WellShaped(last) && i < |steps|
    requires Ordered(steps + [last], d) && Run(steps, d) == (mid, None) && Apply(last, mid).Ok?
    requires Established(steps[i], mid)
    ensures Established(steps[i], Apply(last, mid).value)
  {
    var all := steps + [last];
    assert all[i] == steps[i] && all[|steps|] == last;
    if Spares(last, steps[i]) {
      StepSpares(last, steps[i], mid);
    } else {
      SettledThroughout(steps[i], steps, d);
      SettledSpared(last, steps[i], mid);
    }
  }

  ghost predicate AllEstablished(steps: seq<Step>, d: Device) {
    forall i :: 0 <= i < |steps| ==> Established(steps[i], d)
  }

  lemma NextEstablished(steps: seq<Step>, last: Step, d: Device, mid: Device)
    requires ValidDevice(d) && ValidDevice(mid) && AllWellShaped(steps) && WellShaped(last)
    requires Ordered(steps + [last], d) && Run(steps, d) == (mid, None) && Apply(last, mid).Ok?
    requires AllEstablished(steps, mid)
    ensures AllEstablished(steps + [last], Apply(last, mid).value)
  {
    SuccessEstablishes(last, mid);
    forall i | 0 <= i < |steps|
      ensures Established(steps[i], Apply(last, mid).value)
    {
      NextSpares(steps, last, i, d, mid);
    }
  }

  lemma LastRuns(steps: seq<Step>, last: Step, d: Device)
    requires Run(steps + [last], d).1.None?
    ensures Run(steps, d).1.None? && Apply(last, Run(steps, d).0) == Ok(Run(steps + [last], d).0)
  {
    RunSplit(steps, [last], d);
    assert [last][1..] == [];
  }

  lemma OrderedInit(steps: seq<Step>, last: Step, d: Device)
    requires Ordered(steps + [last], d) && AllWellShaped(steps + [last])
    ensures Ordered(steps, d) && AllWellShaped(steps) && WellShaped(last)
  {
    var all := steps + [last];
    assert all[|steps|] == last && forall i :: 0 <= i < |steps| ==> all[i] == steps[i];
  }

  // After a completed list of steps all of them are established.
  lemma {:induction false} CompletedAreEstablished(steps: seq<Step>, d: Device)
    requires ValidDevice(d) && AllWellShaped(steps) && Ordered(steps, d) && Run(steps, d).1.None?
    ensures AllEstablished(steps, Run(steps, d).0)
    decreases |steps|
  {
    if steps == [] {
    } else {
      var init, last := SplitLast(steps);
      InitCompleted(init, last, d);
      CompletedAreEstablished(init, d);
      CompletedStep(init, last, d);
    }
  }

  lemma SplitLast(steps: seq<Step>) returns (init: seq<Step>, last: Step)
    requires steps != []
    ensures steps == init + [last] && |init| < |steps|
  {
    init, last := steps[..|steps| - 1], steps[|steps| - 1];
  }

  lemma InitCompleted(init: seq<Step>, last: Step, d: Device)
    requires AllWellShaped(init + [last]) && Ordered(init + [last], d) && Run(init + [last], d).1.None?
    ensures AllWellShaped(init) && WellShaped(last) && Ordered(init, d) && Run(init, d).1.None?
  {
    OrderedInit(init, last, d);
    LastRuns(init, last, d);
  }

  lemma CompletedStep(init: seq<Step>, last: Step, d: Device)
    requires ValidDevice(d) && AllWellShaped(init) && WellShaped(last) && Ordered(init + [last], d)
    requires Run(init + [last], d).1.None? && AllEstablished(init, Run(init, d).0)
    ensures AllEstablished(init + [last], Run(init + [last], d).0)
  {
    LastRuns(init, last, d);
    RunKeepsValid(init, d);
    NextEstablished(init, last, d, Run(init, d).0);
  }

  lemma {:induction false} EstablishedRunIsNoOp(steps: seq<Step>, d: Device)
    requires ValidDevice(d) && AllWellShaped(steps)
    requires forall i :: 0 <= i < |steps| ==> Established(steps[i], d)
    ensures Run(steps, d) == (d, None)
  {
    if steps == [] {
    } else {
      EstablishedIsNoOp(steps[0], d);
      EstablishedRunIsNoOp(steps[1..], d);
    }
  }

  // Steps already completed are passed over without a change.
  lemma RerunSkipsCompleted(steps: seq<Step>, d: Device, mid: Device)
    requires ValidDevice(d) && AllWellShaped(steps) && Ordered(steps, d) && Run(steps, d) == (mid, None)
    ensures Run(steps, mid) == (mid, None)
  {
    RunKeepsValid(steps, d);
    CompletedAreEstablished(steps, d);
    EstablishedRunIsNoOp(steps, mid);
  }

  // Cut anywhere and repeated in full, a run ends like the uncut one, failures included.
  lemma RestartConverges(steps: seq<Step>, d: Device, mid: Device)
    requires ValidDevice(d) && AllWellShaped(steps) && Ordered(steps, d) && Reached(steps, d, mid)
    ensures Run(steps, mid) == Run(steps, d)
  {
    var k :| 0 <= k <= |steps| && Run(steps[..k], d) == (mid, None);
    RerunSkipsCompleted(steps[..k], d, mid);
    RunCut(steps, d, k);
    RunCut(steps, mid, k);
  }

  // A restarted run passes only through states of the uncut one, so it may itself be cut.
  lemma RestartReaches(steps: seq<Step>, d: Device, mid: Device, d': Device)
    requires ValidDevice(d) && AllWellShaped(steps) && Ordered(steps, d) && Reached(steps, d, mid)
    requires Reached(steps, mid, d')
    ensures Reached(steps, d, d')
  {
    var k :| 0 <= k <= |steps| && Run(steps[..k], d) == (mid, None);
    var j :| 0 <= j <= |steps| && Run(steps[..j], mid) == (d', None);
    RunKeepsValid(steps[..k], d);
    CompletedAreEstablished(steps[..k], d);
    if j <= k {
      assert steps[..j] == steps[..k][..j];
      EstablishedRunIsNoOp(steps[..j], mid);
    } else {
      EstablishedRunIsNoOp(steps[..k], mid);
      assert steps[..j][..k] == steps[..k];
      RunCut(steps[..j], d, k);
      RunCut(steps[..j], mid, k);
    }
  }

  // Where the uncut run fails, repeating it fails the same way and changes nothing more.
  lemma {:induction false} FailureIsReached(steps: seq<Step>, d: Device)
    ensures Reached(steps, d, Run(steps, d).0)
  {
    if steps == [] || Apply(steps[0], d).Err? {
      assert Run(steps[..0], d) == (d, None);
    } else {
      var d' := Apply(steps[0], d).value;
      FailureIsReached(steps[1..], d');
      var k :| 0 <= k <= |steps| - 1 && Run(steps[1..][..k], d') == (Run(steps, d).0, None);
      assert steps[..k + 1][1..] == steps[1..][..k];
    }
  }
}
