/**
  What the allow loop and the drop rule make of a rule list. All allow rules share one
  comment, so a list of addresses yields a single rule, for the first of them.
 */
module FirewallOrder {
  import opened Basics
  import opened RouterOs
  import opened Reconciler
  import opened Preloader

  // The rule list the allow loop leaves: a first rule if there is none, then the rule on top.
  function Allowed(rows: seq<Row>, rule: Row, canMove: bool): seq<Row> {
    var all := if Any(rows, "comment", ALLOW) then rows else rows + [rule];
    var i := First(all, "comment", ALLOW);
    if canMove && i < |all| then Lifted(all, i) else all
  }

  function Dropped(rows: seq<Row>, rule: Row): seq<Row> {
    if Any(rows, "comment", DROP) then rows else rows + [rule]
  }

  function Rules(d: Device): seq<Row> {
    TableOf(d, Filter).rows
  }

  function AddStep(port: string, ip: string): Step {
    EnsureRow(Filter, "comment", ALLOW, AllowRule(port, ip))
  }

  lemma AddEffect(port: string, ip: string, d: Device)
    requires ValidDevice(d)
    ensures var o := Apply(AddStep(port, ip), d);
            && o.Ok? && ValidDevice(o.value) && Established(AddStep(port, ip), o.value) && o.value.canMove == d.canMove
            && TableOf(o.value, Filter) ==
               if Any(Rules(d), "comment", ALLOW) then TableOf(d, Filter)
               else Table(Rules(d) + [Row(TableOf(d, Filter).nextId, AllowRule(port, ip))],
                          TableOf(d, Filter).nextId + 1)
  {
    ApplyKeepsValid(AddStep(port, ip), d);
    SuccessEstablishes(AddStep(port, ip), d);
  }

  lemma LiftEffect(d: Device)
    requires ValidDevice(d) && Any(Rules(d), "comment", ALLOW)
    ensures var o := Apply(LiftFirst(Filter, ALLOW), d);
            && o.Ok? && ValidDevice(o.value) && Established(LiftFirst(Filter, ALLOW), o.value)
            && o.value.canMove == d.canMove
            && TableOf(o.value, Filter).nextId == TableOf(d, Filter).nextId
            && Rules(o.value) == if d.canMove then Lifted(Rules(d), First(Rules(d), "comment", ALLOW)) else Rules(d)
  {
    IdLocates(Filter, TableOf(d, Filter), First(Rules(d), "comment", ALLOW));
    ApplyKeepsValid(LiftFirst(Filter, ALLOW), d);
    SuccessEstablishes(LiftFirst(Filter, ALLOW), d);
  }

  lemma RunPair(s: Step, t: Step, d: Device)
    requires Apply(s, d).Ok? && Apply(t, Apply(s, d).value).Ok?
    ensures Run([s, t], d) == (Apply(t, Apply(s, d).value).value, None)
  {
    assert [s, t][1..] == [t] && [t][1..] == [];
    assert Run([t], Apply(s, d).value) == (Apply(t, Apply(s, d).value).value, None);
  }

  lemma AllowOnce(port: string, ip: string, d: Device)
    requires ValidDevice(d)
    ensures var (d', e) := Run([AddStep(port, ip), LiftFirst(Filter, ALLOW)], d);
            && e == None && ValidDevice(d') && d'.canMove == d.canMove
            && Rules(d') == Allowed(Rules(d), Row(TableOf(d, Filter).nextId, AllowRule(port, ip)), d.canMove)
            && Established(LiftFirst(Filter, ALLOW), d')
            && TableOf(d', Filter).nextId
               == TableOf(d, Filter).nextId + (if Any(Rules(d), "comment", ALLOW) then 0 else 1)
  {
    AddEffect(port, ip, d);
    LiftEffect(Apply(AddStep(port, ip), d).value);
    RunPair(AddStep(port, ip), LiftFirst(Filter, ALLOW), d);
  }

  // Further addresses change nothing.
  lemma {:induction false} AllowAgain(port: string, allowed: seq<string>, d: Device)
    requires ValidDevice(d) && Any(Rules(d), "comment", ALLOW)
    requires d.canMove ==> First(Rules(d), "comment", ALLOW) == 0
    ensures Run(AllowSteps(port, allowed), d) == (d, None)
  {
    if allowed == [] {
    } else {
      var add, lift := EnsureRow(Filter, "comment", ALLOW, AllowRule(port, allowed[0])), LiftFirst(Filter, ALLOW);
      EstablishedIsNoOp(add, d);
      EstablishedIsNoOp(lift, d);
      assert AllowSteps(port, allowed)[1..][1..] == AllowSteps(port, allowed[1..]);
      AllowAgain(port, allowed[1..], d);
    }
  }

  lemma AllowLoop(port: string, allowed: seq<string>, d: Device)
    requires ValidDevice(d) && allowed != []
    ensures Run(AllowSteps(port, allowed), d) == Run([AddStep(port, allowed[0]), LiftFirst(Filter, ALLOW)], d)
  {
    var pair := [AddStep(port, allowed[0]), LiftFirst(Filter, ALLOW)];
    AllowOnce(port, allowed[0], d);
    AllowAgain(port, allowed[1..], Run(pair, d).0);
    RunSplit(pair, AllowSteps(port, allowed[1..]), d);
  }

  lemma DropEffect(port: string, d: Device)
    ensures var (d', e) := Run([EnsureRow(Filter, "comment", DROP, DropRule(port))], d);
            e == None && Rules(d') == Dropped(Rules(d), Row(TableOf(d, Filter).nextId, DropRule(port)))
  {
    assert [EnsureRow(Filter, "comment", DROP, DropRule(port))][1..] == [];
  }

  // The whole firewall step, on any prior rules.
  lemma FirewallResult(port: string, allowed: seq<string>, d: Device)
    requires ValidDevice(d) && allowed != []
    ensures var (d', e) := Run(FirewallSteps(port, allowed), d);
            var n := TableOf(d, Filter).nextId;
            var n' := if Any(Rules(d), "comment", ALLOW) then n else n + 1;
            && e == None
            && Rules(d') == Dropped(Allowed(Rules(d), Row(n, AllowRule(port, allowed[0])), d.canMove),
                                    Row(n', DropRule(port)))
  {
    AllowLoop(port, allowed, d);
    AllowOnce(port, allowed[0], d);
    RunSplit(AllowSteps(port, allowed), [EnsureRow(Filter, "comment", DROP, DropRule(port))], d);
    DropEffect(port, Run(AllowSteps(port, allowed), d).0);
  }

  // Without earlier rules of its own: exactly one allow rule, for the first address, on
  // top if rules can be moved, and one drop rule at the end; all others as they were.
  lemma FreshFirewall(port: string, allowed: seq<string>, d: Device)
    requires ValidDevice(d) && allowed != []
    requires !Any(Rules(d), "comment", ALLOW) && !Any(Rules(d), "comment", DROP)
    ensures var d' := Run(FirewallSteps(port, allowed), d).0;
            var n := TableOf(d, Filter).nextId;
            var allow, drop := Row(n, AllowRule(port, allowed[0])), Row(n + 1, DropRule(port));
            Rules(d') == (if d.canMove then [allow] + Rules(d) else Rules(d) + [allow]) + [drop]
  {
    FirewallResult(port, allowed, d);
    var rows := Rules(d);
    var allow := Row(TableOf(d, Filter).nextId, AllowRule(port, allowed[0]));
    FirstUnique(rows + [allow], "comment", ALLOW, |rows|);
    assert Lifted(rows + [allow], |rows|) == [allow] + rows;
    var moved := Allowed(rows, allow, d.canMove);
    FirstUnique(moved, "comment", DROP, |moved|);
  }

  predicate Own(row: Row) {
    Has(row, "comment", ALLOW) || Has(row, "comment", DROP)
  }

  // The rules that are not the script's own, in their order.
  function Foreign(rows: seq<Row>): seq<Row> {
    if rows == [] then [] else (if Own(rows[0]) then [] else [rows[0]]) + Foreign(rows[1..])
  }

  lemma {:induction false} ForeignConcat(a: seq<Row>, b: seq<Row>)
    ensures Foreign(a + b) == Foreign(a) + Foreign(b)
  {
    if a == [] {
      assert a + b == b;
    } else {
      assert (a + b)[1..] == a[1..] + b;
      ForeignConcat(a[1..], b);
    }
  }

  lemma OwnAlone(row: Row)
    requires Own(row)
    ensures Foreign([row]) == []
  {
    assert [row][1..] == [];
  }

  lemma ForeignAround(a: seq<Row>, b: seq<Row>, c: seq<Row>)
    ensures Foreign(a + b + c) == Foreign(a) + Foreign(b) + Foreign(c)
  {
    ForeignConcat(a + b, c);
    ForeignConcat(a, b);
  }

  lemma ForeignSwap(a: seq<Row>, b: seq<Row>, c: seq<Row>)
    requires Foreign(b) == []
    ensures Foreign(b + a + c) == Foreign(a + b + c)
  {
    ForeignAround(b, a, c);
    ForeignAround(a, b, c);
  }

  lemma ForeignLifted(rows: seq<Row>, i: nat)
    requires i < |rows| && Own(rows[i])
    ensures Foreign(Lifted(rows, i)) == Foreign(rows)
  {
    OwnAlone(rows[i]);
    ForeignSwap(rows[..i], [rows[i]], rows[i + 1..]);
    assert rows == rows[..i] + [rows[i]] + rows[i + 1..];
  }

  lemma ForeignAllowed(rows: seq<Row>, rule: Row, canMove: bool)
    requires Has(rule, "comment", ALLOW)
    ensures Foreign(Allowed(rows, rule, canMove)) == Foreign(rows)
  {
    var all := if Any(rows, "comment", ALLOW) then rows else rows + [rule];
    ForeignConcat(rows, [rule]);
    OwnAlone(rule);
    var i := First(all, "comment", ALLOW);
    if i < |all| { ForeignLifted(all, i); }
  }

  // Whatever rules there were, the firewall step neither drops, alters, adds nor reorders
  // any that is not its own.
  lemma ForeignKept(port: string, allowed: seq<string>, d: Device)
    requires ValidDevice(d) && allowed != []
    ensures Foreign(Rules(Run(FirewallSteps(port, allowed), d).0)) == Foreign(Rules(d))
  {
    var allow, drop := FirewallRows(port, allowed, d);
    ForeignAllowed(Rules(d), allow, d.canMove);
    ForeignDropped(Allowed(Rules(d), allow, d.canMove), drop);
  }

  lemma ForeignDropped(rows: seq<Row>, rule: Row)
    requires Has(rule, "comment", DROP)
    ensures Foreign(Dropped(rows, rule)) == Foreign(rows)
  {
    ForeignConcat(rows, [rule]);
    OwnAlone(rule);
  }

  predicate AllowAhead(rows: seq<Row>) {
    First(rows, "comment", ALLOW) < First(rows, "comment", DROP)
  }

  // After the step the allow rule precedes the drop rule, unless rules cannot be moved
  // and a drop rule was there first.
  lemma AllowAheadIff(port: string, allowed: seq<string>, d: Device)
    requires ValidDevice(d) && allowed != []
    ensures AllowAhead(Rules(Run(FirewallSteps(port, allowed), d).0))
            <==> d.canMove || AllowAhead(Rules(d)) || !Any(Rules(d), "comment", DROP)
  {
    var allow, drop := FirewallRows(port, allowed, d);
    AheadAfterBoth(Rules(d), allow, drop, d.canMove);
  }

  lemma FirewallRows(port: string, allowed: seq<string>, d: Device) returns (allow: Row, drop: Row)
    requires ValidDevice(d) && allowed != []
    ensures Has(allow, "comment", ALLOW) && Has(drop, "comment", DROP)
    ensures Rules(Run(FirewallSteps(port, allowed), d).0) == Dropped(Allowed(Rules(d), allow, d.canMove), drop)
  {
    var n := TableOf(d, Filter).nextId;
    allow := Row(n, AllowRule(port, allowed[0]));
    drop := Row(if Any(Rules(d), "comment", ALLOW) then n else n + 1, DropRule(port));
    FirewallResult(port, allowed, d);
  }

  lemma AheadAfterBoth(rows: seq<Row>, allow: Row, drop: Row, canMove: bool)
    requires Has(allow, "comment", ALLOW) && Has(drop, "comment", DROP)
    ensures AllowAhead(Dropped(Allowed(rows, allow, canMove), drop))
            <==> canMove || AllowAhead(rows) || !Any(rows, "comment", DROP)
  {
    AllowedAhead(rows, allow, canMove);
    DropSparesOrder(Allowed(rows, allow, canMove), drop);
  }

  lemma AllowedAhead(rows: seq<Row>, rule: Row, canMove: bool)
    requires Has(rule, "comment", ALLOW)
    ensures Any(Allowed(rows, rule, canMove), "comment", ALLOW)
    ensures AllowAhead(Allowed(rows, rule, canMove)) <==> canMove || AllowAhead(rows) || !Any(rows, "comment", DROP)
  {
    var all := if Any(rows, "comment", ALLOW) then rows else rows + [rule];
    if !Any(rows, "comment", ALLOW) {
      FirstUnique(all, "comment", ALLOW, |rows|);
      FirstAfterAppend(rows, rule, "comment", DROP);
    }
    if canMove { LiftedAhead(all); }
  }

  lemma LiftedAhead(rows: seq<Row>)
    requires Any(rows, "comment", ALLOW)
    ensures First(Lifted(rows, First(rows, "comment", ALLOW)), "comment", ALLOW) == 0
    ensures AllowAhead(Lifted(rows, First(rows, "comment", ALLOW)))
  {
    var lifted := Lifted(rows, First(rows, "comment", ALLOW));
    FirstUnique(lifted, "comment", ALLOW, 0);
    assert !Has(lifted[0], "comment", DROP);
  }

  lemma DropSparesOrder(rows: seq<Row>, rule: Row)
    requires Any(rows, "comment", ALLOW) && Has(rule, "comment", DROP)
    ensures AllowAhead(Dropped(rows, rule)) == AllowAhead(rows)
  {
    if !Any(rows, "comment", DROP) {
      FirstAfterAppend(rows, rule, "comment", ALLOW);
      FirstUnique(rows + [rule], "comment", DROP, |rows|);
    }
  }

  /* Which addresses are admitted */

  ghost predicate Admitted(rows: seq<Row>, port: string, ip: string) {
    exists r :: r in rows && r.attrs == AllowRule(port, ip)
  }

  lemma AllowRuleInjective(port: string, ip: string, ip': string)
    requires AllowRule(port, ip) == AllowRule(port, ip')
    ensures ip == ip'
  {
    assert AllowRule(port, ip)["src-address"] == ip && AllowRule(port, ip')["src-address"] == ip';
  }

  lemma HasAny(rows: seq<Row>, r: Row, field: string, value: string)
    requires r in rows && Has(r, field, value)
    ensures Any(rows, field, value)
  {
  }

  // The step moves rows and adds its two; it removes and changes none.
  lemma AllowedRows(rows: seq<Row>, rule: Row, canMove: bool, r: Row)
    ensures r in Allowed(rows, rule, canMove) <==> r in rows || (r == rule && !Any(rows, "comment", ALLOW))
  {
    var all := if Any(rows, "comment", ALLOW) then rows else rows + [rule];
    var i := First(all, "comment", ALLOW);
    if canMove && i < |all| { LiftedRows(all, i, r); }
  }

  lemma LiftedRows(rows: seq<Row>, i: nat, r: Row)
    requires i < |rows|
    ensures r in Lifted(rows, i) <==> r in rows
  {
    assert rows == rows[..i] + [rows[i]] + rows[i + 1..];
  }

  lemma AdmittedAfter(rows: seq<Row>, port: string, first: string, allow: Row, drop: Row, canMove: bool, ip: string)
    requires allow.attrs == AllowRule(port, first) && drop.attrs == DropRule(port)
    ensures Admitted(Dropped(Allowed(rows, allow, canMove), drop), port, ip)
            <==> if Any(rows, "comment", ALLOW) then Admitted(rows, port, ip) else ip == first
  {
    var allowed := Allowed(rows, allow, canMove);
    var after := Dropped(allowed, drop);
    forall r ensures r in allowed <==> r in rows || (r == allow && !Any(rows, "comment", ALLOW)) {
      AllowedRows(rows, allow, canMove, r);
    }
    assert drop.attrs["comment"] == DROP && AllowRule(port, ip)["comment"] == ALLOW && DROP[0] != ALLOW[0];
    if Any(rows, "comment", ALLOW) {
      if Admitted(rows, port, ip) {
        var r :| r in rows && r.attrs == AllowRule(port, ip);
        assert r in after;
      }
    } else {
      forall r | r in rows ensures r.attrs != AllowRule(port, ip) {
        if r.attrs == AllowRule(port, ip) { HasAny(rows, r, "comment", ALLOW); }
      }
      if ip == first { assert allow in after; }
      if allow.attrs == AllowRule(port, ip) { AllowRuleInjective(port, first, ip); }
    }
  }

  // Afterwards every allowed address has its rule exactly if it had one before, where there
  // already was an allow rule, and else exactly if no two different addresses are allowed.
  lemma EachAdmittedIff(port: string, allowed: seq<string>, d: Device)
    requires ValidDevice(d)
    ensures (forall ip :: ip in allowed ==> Admitted(Rules(Run(FirewallSteps(port, allowed), d).0), port, ip))
            <==> if Any(Rules(d), "comment", ALLOW) then forall ip :: ip in allowed ==> Admitted(Rules(d), port, ip)
                 else forall ip :: ip in allowed ==> ip == allowed[0]
  {
    if allowed != [] {
      var n := TableOf(d, Filter).nextId;
      var allow := Row(n, AllowRule(port, allowed[0]));
      var drop := Row(if Any(Rules(d), "comment", ALLOW) then n else n + 1, DropRule(port));
      FirewallResult(port, allowed, d);
      forall ip
        ensures Admitted(Rules(Run(FirewallSteps(port, allowed), d).0), port, ip)
                <==> if Any(Rules(d), "comment", ALLOW) then Admitted(Rules(d), port, ip) else ip == allowed[0]
      {
        AdmittedAfter(Rules(d), port, allowed[0], allow, drop, d.canMove, ip);
      }
    }
  }

  /* Reruns on which any move may fail */

  // A run in which each step meets its own answer to whether rules can be moved.
  function FlakyRun(steps: seq<Step>, d: Device, works: nat -> bool): Device {
    if steps == [] then d
    else
      match Apply(steps[0], d.(canMove := works(|steps|)))
      case Ok(d') => FlakyRun(steps[1..], d', works)
      case Err(_) => d
  }

  predicate FirewallStep(s: Step) {
    match s
    case EnsureRow(m, field, value, attrs) =>
      m == Filter && field == "comment" && value in {ALLOW, DROP} && WellShaped(s)
    case LiftFirst(m, comment) => m == Filter && comment == ALLOW
    case _ => false
  }

  lemma AddKeepsAhead(s: Step, d: Device)
    requires FirewallStep(s) && s.EnsureRow? && AllowAhead(Rules(d)) && Apply(s, d).Ok?
    ensures AllowAhead(Rules(Apply(s, d).value))
  {
    if !Any(Rules(d), "comment", s.value) {
      DropSparesOrder(Rules(d), Row(TableOf(d, Filter).nextId, s.attrs));
    }
  }

  lemma StepKeepsAhead(s: Step, d: Device)
    requires ValidDevice(d) && FirewallStep(s) && AllowAhead(Rules(d)) && Apply(s, d).Ok?
    ensures AllowAhead(Rules(Apply(s, d).value)) && ValidDevice(Apply(s, d).value)
  {
    ApplyKeepsValid(s, d);
    if s.EnsureRow? {
      AddKeepsAhead(s, d);
    } else {
      LiftEffect(d);
      LiftedAhead(Rules(d));
    }
  }

  lemma {:induction false} FlakyKeepsAhead(steps: seq<Step>, d: Device, works: nat -> bool)
    requires forall s :: s in steps ==> FirewallStep(s)
    requires ValidDevice(d) && AllowAhead(Rules(d))
    ensures AllowAhead(Rules(FlakyRun(steps, d, works))) && ValidDevice(FlakyRun(steps, d, works))
  {
    if steps == [] {
    } else {
      var here := d.(canMove := works(|steps|));
      if Apply(steps[0], here).Ok? {
        StepKeepsAhead(steps[0], here);
        FlakyKeepsAhead(steps[1..], Apply(steps[0], here).value, works);
      }
    }
  }

  lemma {:induction false} FirewallStepsOnly(port: string, allowed: seq<string>)
    ensures forall s :: s in FirewallSteps(port, allowed) ==> FirewallStep(s)
  {
    if allowed == [] {
    } else {
      FirewallStepsOnly(port, allowed[1..]);
    }
  }

  // However many later runs, with whatever addresses and whichever moves fail, the
  // allow rule stays ahead of the drop rule.
  lemma {:induction false} StaysAhead(runs: seq<(string, seq<string>, nat -> bool)>, d: Device)
    requires ValidDevice(d) && AllowAhead(Rules(d))
    ensures AllowAhead(Rules(AfterReruns(runs, d)))
  {
    if runs == [] {
    } else {
      var (port, allowed, works) := runs[0];
      FirewallStepsOnly(port, allowed);
      FlakyKeepsAhead(FirewallSteps(port, allowed), d, works);
      StaysAhead(runs[1..], FlakyRun(FirewallSteps(port, allowed), d, works));
    }
  }

  function AfterReruns(runs: seq<(string, seq<string>, nat -> bool)>, d: Device): Device {
    if runs == [] then d
    else
      var (port, allowed, works) := runs[0];
      AfterReruns(runs[1..], FlakyRun(FirewallSteps(port, allowed), d, works))
  }

  // The steps for these addresses, without looking further ahead than the first.
  predicate Shaped(steps: seq<Step>, port: string, allowed: seq<string>) {
    if allowed == [] then steps == [EnsureRow(Filter, "comment", DROP, DropRule(port))]
    else
      && |steps| >= 2 && steps[0] == AddStep(port, allowed[0]) && steps[1] == LiftFirst(Filter, ALLOW)
      && Shaped(steps[2..], port, allowed[1..])
  }

  lemma {:induction false} FirewallShaped(port: string, allowed: seq<string>)
    ensures Shaped(FirewallSteps(port, allowed), port, allowed)
  {
    if allowed == [] {
    } else {
      FirewallShaped(port, allowed[1..]);
      assert FirewallSteps(port, allowed)[2..] == FirewallSteps(port, allowed[1..]);
    }
  }

  lemma {:induction false} StepCount(steps: seq<Step>, port: string, allowed: seq<string>)
    requires Shaped(steps, port, allowed)
    ensures |steps| == 2 * |allowed| + 1
  {
    if allowed == [] {
    } else {
      StepCount(steps[2..], port, allowed[1..]);
    }
  }

  lemma FlakyHead(s: Step, rest: seq<Step>, d: Device, works: nat -> bool)
    requires var here := d.(canMove := works(|rest| + 1)); Apply(s, here).Ok?
    ensures FlakyRun([s] + rest, d, works) == FlakyRun(rest, Apply(s, d.(canMove := works(|rest| + 1))).value, works)
  {
    var steps := [s] + rest;
    assert steps[0] == s && steps[1..] == rest && |steps| == |rest| + 1;
  }

  lemma FlakyAdd(port: string, ip: string, rest: seq<Step>, d: Device, works: nat -> bool) returns (next: Device)
    requires ValidDevice(d)
    ensures ValidDevice(next) && FlakyRun([AddStep(port, ip)] + rest, d, works) == FlakyRun(rest, next, works)
    ensures Rules(next) == if Any(Rules(d), "comment", ALLOW) then Rules(d)
                           else Rules(d) + [Row(TableOf(d, Filter).nextId, AllowRule(port, ip))]
  {
    var here := d.(canMove := works(|rest| + 1));
    AddEffect(port, ip, here);
    FlakyHead(AddStep(port, ip), rest, d, works);
    next := Apply(AddStep(port, ip), here).value;
  }

  lemma FlakyLift(rest: seq<Step>, d: Device, works: nat -> bool) returns (next: Device)
    requires ValidDevice(d) && Any(Rules(d), "comment", ALLOW)
    ensures ValidDevice(next) && FlakyRun([LiftFirst(Filter, ALLOW)] + rest, d, works) == FlakyRun(rest, next, works)
    ensures Rules(next) == if works(|rest| + 1) then Lifted(Rules(d), First(Rules(d), "comment", ALLOW)) else Rules(d)
  {
    var here := d.(canMove := works(|rest| + 1));
    LiftEffect(here);
    FlakyHead(LiftFirst(Filter, ALLOW), rest, d, works);
    next := Apply(LiftFirst(Filter, ALLOW), here).value;
  }

  // One address of a run in which every move has its own fate.
  lemma FlakyTwo(port: string, ip: string, rest: seq<Step>, d: Device, works: nat -> bool) returns (next: Device)
    requires ValidDevice(d)
    ensures ValidDevice(next)
    ensures FlakyRun([AddStep(port, ip)] + ([LiftFirst(Filter, ALLOW)] + rest), d, works) == FlakyRun(rest, next, works)
    ensures Rules(next) == Allowed(Rules(d), Row(TableOf(d, Filter).nextId, AllowRule(port, ip)), works(|rest| + 1))
  {
    AllowedAny(Rules(d), Row(TableOf(d, Filter).nextId, AllowRule(port, ip)));
    var added := FlakyAdd(port, ip, [LiftFirst(Filter, ALLOW)] + rest, d, works);
    next := FlakyLift(rest, added, works);
  }

  lemma AllowedAny(rows: seq<Row>, rule: Row)
    requires Has(rule, "comment", ALLOW)
    ensures Any(if Any(rows, "comment", ALLOW) then rows else rows + [rule], "comment", ALLOW)
  {
    if !Any(rows, "comment", ALLOW) { HasAny(rows + [rule], rule, "comment", ALLOW); }
  }

  lemma DropStays(rows: seq<Row>, rule: Row, canMove: bool)
    requires Any(rows, "comment", DROP)
    ensures Any(Allowed(rows, rule, canMove), "comment", DROP)
  {
    var r := rows[First(rows, "comment", DROP)];
    AllowedRows(rows, rule, canMove, r);
    HasAny(Allowed(rows, rule, canMove), r, "comment", DROP);
  }

  lemma FlakyDrop(port: string, d: Device, works: nat -> bool)
    requires ValidDevice(d)
    ensures var drop := EnsureRow(Filter, "comment", DROP, DropRule(port));
            AllowAhead(Rules(FlakyRun([drop], d, works))) == AllowAhead(Rules(d))
  {
    var drop := EnsureRow(Filter, "comment", DROP, DropRule(port));
    var row := Row(TableOf(d, Filter).nextId, DropRule(port));
    assert [drop] == [drop] + [];
    FlakyHead(drop, [], d, works);
    assert Rules(FlakyRun([drop] + [], d, works)) == Dropped(Rules(d), row);
    if Any(Rules(d), "comment", ALLOW) {
      DropSparesOrder(Rules(d), row);
    } else if !Any(Rules(d), "comment", DROP) {
      FirstAfterAppend(Rules(d), row, "comment", ALLOW);
    }
  }

  lemma SplitShaped(steps: seq<Step>, port: string, allowed: seq<string>) returns (rest: seq<Step>)
    requires allowed != [] && Shaped(steps, port, allowed)
    ensures steps == [AddStep(port, allowed[0])] + ([LiftFirst(Filter, ALLOW)] + rest)
    ensures Shaped(rest, port, allowed[1..]) && |rest| + 1 == 2 * |allowed|
  {
    rest := steps[2..];
    StepCount(rest, port, allowed[1..]);
  }

  // Where the allow rule is after one address, with this fate of its move.
  lemma FlakyAddress(port: string, ip: string, rest: seq<Step>, d: Device, works: nat -> bool) returns (next: Device)
    requires ValidDevice(d)
    ensures ValidDevice(next)
    ensures FlakyRun([AddStep(port, ip)] + ([LiftFirst(Filter, ALLOW)] + rest), d, works) == FlakyRun(rest, next, works)
    ensures AllowAhead(Rules(next)) <==> works(|rest| + 1) || AllowAhead(Rules(d)) || !Any(Rules(d), "comment", DROP)
    ensures Any(Rules(d), "comment", DROP) ==> Any(Rules(next), "comment", DROP)
  {
    next := FlakyTwo(port, ip, rest, d, works);
    RowsAfterAddress(Rules(d), Row(TableOf(d, Filter).nextId, AllowRule(port, ip)), works(|rest| + 1));
  }

  lemma RowsAfterAddress(rows: seq<Row>, rule: Row, canMove: bool)
    requires Has(rule, "comment", ALLOW)
    ensures AllowAhead(Allowed(rows, rule, canMove)) <==> canMove || AllowAhead(rows) || !Any(rows, "comment", DROP)
    ensures Any(rows, "comment", DROP) ==> Any(Allowed(rows, rule, canMove), "comment", DROP)
  {
    AllowedAhead(rows, rule, canMove);
    if Any(rows, "comment", DROP) { DropStays(rows, rule, canMove); }
  }

  lemma {:induction false} FlakyAheadShaped(steps: seq<Step>, port: string, allowed: seq<string>, d: Device,
                                            works: nat -> bool)
    requires ValidDevice(d) && Shaped(steps, port, allowed)
    ensures AllowAhead(Rules(FlakyRun(steps, d, works)))
            <==> AllowAhead(Rules(d))
                 || (allowed != [] && !Any(Rules(d), "comment", DROP))
                 || exists s :: 1 <= s <= |allowed| && works(2 * s)
    decreases |allowed|
  {
    if allowed == [] {
      FlakyDrop(port, d, works);
    } else {
      var rest := SplitShaped(steps, port, allowed);
      var next := FlakyAddress(port, allowed[0], rest, d, works);
      FlakyAheadShaped(rest, port, allowed[1..], next, works);
      SomeWorks(|allowed|, works);
    }
  }

  // A first run in which moves fail now and then: the allow rule ends ahead of the drop rule
  // exactly if it was, or some allowed address met no drop rule or a move that worked. The
  // move for the address with s addresses still to go happens 2s steps before the end.
  lemma FlakyAheadIff(port: string, allowed: seq<string>, d: Device, works: nat -> bool)
    requires ValidDevice(d)
    ensures AllowAhead(Rules(FlakyRun(FirewallSteps(port, allowed), d, works)))
            <==> AllowAhead(Rules(d))
                 || (allowed != [] && !Any(Rules(d), "comment", DROP))
                 || exists s :: 1 <= s <= |allowed| && works(2 * s)
  {
    FirewallShaped(port, allowed);
    FlakyAheadShaped(FirewallSteps(port, allowed), port, allowed, d, works);
  }

  lemma SomeWorks(n: nat, works: nat -> bool)
    requires n > 0
    ensures (exists s :: 1 <= s <= n && works(2 * s)) <==> works(2 * n) || exists s :: 1 <= s <= n - 1 && works(2 * s)
  {
  }

  // Repeating the firewall step changes no rule.
  lemma FirewallIdempotent(port: string, allowed: seq<string>, d: Device)
    requires ValidDevice(d)
    ensures var d' := Run(FirewallSteps(port, allowed), d).0;
            Run(FirewallSteps(port, allowed), d') == (d', None)
  {
    var steps := FirewallSteps(port, allowed);
    AllowSpans(port, allowed);
    SpanOne(EnsureRow(Filter, "comment", DROP, DropRule(port)), 9, 10);
    assert Spans(steps, 9, 10);
    forall i, j | 0 <= i < j < |steps|
      ensures Spares(steps[j], steps[i])
    {
      FirewallStepsOnly(port, allowed);
      assert steps[i] in steps && steps[j] in steps;
      BeforeSpares(steps[i], steps[j]);
    }
    if allowed != [] { FirewallResult(port, allowed, d); }
    RerunSkipsCompleted(steps, d, Run(steps, d).0);
  }
}
