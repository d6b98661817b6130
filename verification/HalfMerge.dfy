/**
  What a fetched configuration leaves behind when merging it raises. The script reports that
  it goes on with the local configuration; here is exactly when that is so.
 */
module HalfMerge {
  import opened Basics
  import opened ConfigMerge

  /* Merging what is there already */

  // Wherever the source has something to write, the destination has it, or has no place for it.
  predicate Stale(dst: Val, src: Val)
    requires src.Node?
    decreases src
  {
    dst.Node? ==>
      forall k :: k in src.m && !src.m[k].Null? ==>
        && k in dst.m
        && (src.m[k].Leaf? ==> dst.m[k] == src.m[k])
        && (src.m[k].Node? ==> Stale(dst.m[k], src.m[k]))
  }

  // Then no part of the merge changes anything...
  lemma {:induction false} StaleStays(dst: Val, src: Val, merged: Val)
    requires src.Node? && Stale(dst, src) && Between(dst, src, merged)
    ensures merged == dst
    decreases src
  {
    if !dst.Node? {
    } else {
      forall k | k in merged.m ensures k in dst.m && merged.m[k] == dst.m[k] {
        if k in src.m && BetweenAt(Child(dst, k), src.m[k], merged.m[k]) {
          if src.m[k].Node? { StaleStays(dst.m[k], src.m[k], merged.m[k]); }
        }
      }
      assert merged.m == dst.m;
    }
  }

  lemma BetweenSelf(dst: Val, src: Val)
    requires src.Node?
    ensures Between(dst, src, dst)
  {
  }

  // ...and only then.
  lemma {:induction false} NotStaleMoves(dst: Val, src: Val) returns (merged: Val)
    requires src.Node? && !Stale(dst, src)
    ensures Between(dst, src, merged) && merged != dst
    decreases src
  {
    var k :| k in src.m && !src.m[k].Null?
             && !(k in dst.m && (src.m[k].Leaf? ==> dst.m[k] == src.m[k])
                  && (src.m[k].Node? ==> Stale(dst.m[k], src.m[k])));
    var value := src.m[k];
    if src.m[k].Node? {
      if k in dst.m {
        value := NotStaleMoves(dst.m[k], src.m[k]);
      } else {
        value := Node(map[]);
        BetweenSelf(Node(map[]), src.m[k]);
      }
    }
    BetweenSelf(dst, src);
    BetweenNext(dst, src, dst, k, value);
    merged := Node(dst.m[k := value]);
    assert k in merged.m && merged.m[k] == value;
  }

  // A merge that succeeds changes nothing exactly in the same case.
  lemma {:induction false} StaleIff(dst: Val, src: Val)
    requires src.Node? && Merge(dst, src).Some?
    ensures Merge(dst, src).value == dst <==> Stale(dst, src)
    decreases src
  {
    if dst.Node? {
      var merged := Merge(dst, src).value;
      forall k ensures AtKey(dst, src, merged, k) { KeyStaleIff(dst, src, merged, k); }
      MergedNode(dst, src, merged);
      if merged == dst {
        forall k | k in src.m && !src.m[k].Null?
          ensures k in dst.m && (src.m[k].Leaf? ==> dst.m[k] == src.m[k])
          ensures src.m[k].Node? ==> Stale(dst.m[k], src.m[k])
        {
          assert AtKey(dst, src, merged, k);
        }
      }
      if Stale(dst, src) {
        forall k ensures At(merged, k) == At(dst, k) { assert AtKey(dst, src, merged, k); }
        SameKeys(merged, dst);
      }
    }
  }

  lemma MergedNode(dst: Val, src: Val, merged: Val)
    requires dst.Node? && src.Node? && Merge(dst, src) == Some(merged)
    ensures merged.Node?
  {
  }

  lemma SameKeys(a: Val, b: Val)
    requires a.Node? && b.Node? && forall k :: At(a, k) == At(b, k)
    ensures a == b
  {
    forall k ensures k in a.m <==> k in b.m ensures k in a.m ==> a.m[k] == b.m[k] {
      assert At(a, k) == At(b, k);
    }
    assert a.m == b.m;
  }

  // One key of a merge is left alone exactly if the source is stale there.
  predicate AtKey(dst: Val, src: Val, merged: Val, k: string)
    requires dst.Node? && src.Node?
  {
    merged.Node? &&
    (At(merged, k) == At(dst, k) <==>
       (k in src.m && !src.m[k].Null? ==>
          && k in dst.m
          && (src.m[k].Leaf? ==> dst.m[k] == src.m[k])
          && (src.m[k].Node? ==> Stale(dst.m[k], src.m[k]))))
  }

  lemma {:induction false} KeyStaleIff(dst: Val, src: Val, merged: Val, k: string)
    requires dst.Node? && src.Node? && Merge(dst, src) == Some(merged)
    ensures AtKey(dst, src, merged, k)
    decreases src, 0
  {
    MergeByKey(dst, src, k);
    if k in src.m && src.m[k].Node? && k in dst.m { StaleIff(dst.m[k], src.m[k]); }
  }

  /* One key of the configuration */

  // Section by section this is what merging it would bring; the router section's config is
  // put in place as it is.
  predicate Kept(before: Val, p: Val, k: string)
    requires before.Node? && Payload(p) && k in p.m && Taken(p, k)
  {
    && k in before.m
    && if p.m[k].Leaf? then before.m[k] == p.m[k]
       else if k == "routeros" && "config" in p.m[k].m then
         && before.m[k].Node? && "config" in before.m[k].m && before.m[k].m["config"] == p.m[k].m["config"]
         && Stale(before.m[k], Node(p.m[k].m - {"config"}))
       else Stale(before.m[k], p.m[k])
  }

  // A key that can be taken is kept exactly when taking it changes nothing.
  lemma KeptIff(before: Val, p: Val, k: string)
    requires before.Node? && Payload(p) && k in p.m && Taken(p, k) && KeyResult(before, p, k).Some?
    ensures Kept(before, p, k) <==> k in before.m && KeyResult(before, p, k).value == before.m[k]
  {
    if k in before.m && p.m[k].Node? {
      assert MergeAt(before, Selected(p), k) == Merge(before.m[k], p.m[k]);
      if k == "routeros" && "config" in p.m[k].m {
        ReplacedIff(before.m[k], p.m[k], "config");
      } else {
        StaleIff(before.m[k], p.m[k]);
      }
    }
  }

  // Merging and then putting one field in place.
  lemma ReplacedIff(dst: Val, src: Val, field: string)
    requires src.Node? && field in src.m && Merge(dst, src).Some? && Merge(dst, src).value.Node?
    ensures Node(Merge(dst, src).value.m[field := src.m[field]]) == dst
            <==> dst.Node? && field in dst.m && dst.m[field] == src.m[field] && Stale(dst, Node(src.m - {field}))
  {
    MergeShape(dst, src);
    var merged := Merge(dst, src).value;
    var result := Node(merged.m[field := src.m[field]]);
    forall k ensures AtKey(dst, src, merged, k) { KeyStaleIff(dst, src, merged, k); }
    forall k ensures At(result, k) == if k == field then Some(src.m[field]) else At(merged, k) {}
    if result == dst {
      forall k | k in src.m && k != field && !src.m[k].Null?
        ensures k in dst.m && (src.m[k].Leaf? ==> dst.m[k] == src.m[k])
        ensures src.m[k].Node? ==> Stale(dst.m[k], src.m[k])
      {
        assert AtKey(dst, src, merged, k);
      }
    }
    if field in dst.m && dst.m[field] == src.m[field] && Stale(dst, Node(src.m - {field})) {
      forall k ensures At(result, k) == At(dst, k) {
        assert AtKey(dst, src, merged, k);
        if k in src.m && k != field { assert k in (src.m - {field}); }
      }
      SameKeys(result, dst);
    }
  }

  // What raises is a section that is there, and is or holds something that is no dictionary.
  lemma RaisingKey(before: Val, p: Val, k: string)
    requires before.Node? && Payload(p) && k in p.m && Taken(p, k) && KeyResult(before, p, k).None?
    ensures p.m[k].Node? && k in before.m
  {
    if k !in before.m && p.m[k].Node? {
      EmptyTakesAll(p.m[k]);
      MergeShape(Node(map[]), p.m[k]);
    }
  }

  /* The whole configuration */

  ghost predicate AllKept(before: Val, p: Val, done: set<string>)
    requires before.Node? && Payload(p)
  {
    forall j :: j in done && j in p.m && Taken(p, j) ==> Kept(before, p, j)
  }

  lemma KeptTogether(before: Val, p: Val, done: set<string>)
    requires before.Node? && Payload(p) && AllTaken(before, p, done)
    ensures AllKept(before, p, done) <==> WithTaken(before, p, done) == before.m
  {
    forall j | j in done && j in p.m && Taken(p, j)
      ensures Kept(before, p, j) <==> j in before.m && KeyResult(before, p, j).value == before.m[j]
    {
      KeptIff(before, p, j);
    }
    var result := WithTaken(before, p, done);
    if result == before.m {
      forall j | j in done && j in p.m && Taken(p, j) ensures Kept(before, p, j) {
        assert j in result && result[j] == KeyResult(before, p, j).value;
      }
    }
  }

  lemma HarmlessStop(before: Val, p: Val, done: set<string>, k: string, cfg: map<string, Val>)
    requires before.Node? && Payload(p) && StoppedAt(before, p, done, k, cfg)
    requires AllKept(before, p, done) && k in before.m && p.m[k].Node? && Stale(before.m[k], p.m[k])
    ensures cfg == before.m
  {
    KeptTogether(before, p, done);
    StaleStays(before.m[k], p.m[k], cfg[k]);
    assert cfg[k := before.m[k]] == cfg;
  }

  // The configuration a raise at k may leave, with any value k may have got.
  lemma Stops(before: Val, p: Val, done: set<string>, k: string, value: Val) returns (cfg: map<string, Val>)
    requires before.Node? && Payload(p) && AllTaken(before, p, done) && k !in done
    requires k in p.m && Taken(p, k) && KeyResult(before, p, k).None? && BetweenAt(Child(before, k), p.m[k], value)
    ensures StoppedAt(before, p, done, k, cfg) && cfg == WithTaken(before, p, done)[k := value]
  {
    var taken := WithTaken(before, p, done);
    Restores(before, p, done, taken, k, value);
    cfg := taken[k := value];
  }

  lemma HarmfulStop(before: Val, p: Val, done: set<string>, k: string) returns (cfg: map<string, Val>)
    requires before.Node? && Payload(p) && AllTaken(before, p, done) && k !in done
    requires k in p.m && Taken(p, k) && KeyResult(before, p, k).None? && k in before.m && p.m[k].Node?
    requires !(AllKept(before, p, done) && Stale(before.m[k], p.m[k]))
    ensures StoppedAt(before, p, done, k, cfg) && cfg != before.m
  {
    if !Stale(before.m[k], p.m[k]) {
      var value := NotStaleMoves(before.m[k], p.m[k]);
      cfg := Stops(before, p, done, k, value);
      assert cfg[k] == value;
    } else {
      BetweenSelf(before.m[k], p.m[k]);
      cfg := Stops(before, p, done, k, before.m[k]);
      KeptTogether(before, p, done);
      assert WithTaken(before, p, done)[k] == before.m[k];
      assert cfg == WithTaken(before, p, done);
    }
  }

  // The key at which merging raises: the first that cannot be taken.
  ghost predicate Raises(before: Val, p: Val, n: nat)
    requires before.Node? && Payload(p) && n < |ORDER|
  {
    && ORDER[n] in p.m && Taken(p, ORDER[n]) && KeyResult(before, p, ORDER[n]).None?
    && AllTaken(before, p, Earlier(n))
  }

  // A raise leaves the local configuration alone, however the payload lists its keys, exactly
  // when all earlier keys brought nothing new and the raising one has nothing new to bring in
  // any place it can reach.
  lemma RaiseHarmlessIff(before: Val, p: Val, n: nat)
    requires before.Node? && Payload(p) && n < |ORDER| && Raises(before, p, n)
    ensures ORDER[n] in before.m && p.m[ORDER[n]].Node?
    ensures (forall cfg :: RaisedAt(before, p, n, cfg) ==> cfg == before.m)
            <==> AllKept(before, p, Earlier(n)) && Stale(before.m[ORDER[n]], p.m[ORDER[n]])
  {
    var k := ORDER[n];
    RaisingKey(before, p, k);
    Fresh(n);
    if AllKept(before, p, Earlier(n)) && Stale(before.m[k], p.m[k]) {
      forall cfg | RaisedAt(before, p, n, cfg) ensures cfg == before.m {
        HarmlessStop(before, p, Earlier(n), k, cfg);
      }
    } else {
      var cfg := HarmfulStop(before, p, Earlier(n), k);
      assert RaisedAt(before, p, n, cfg);
    }
  }

  // Every raise is at that key, and there is no other.
  lemma RaisesThere(before: Val, p: Val, n: nat, m: nat, cfg: map<string, Val>)
    requires before.Node? && Payload(p) && n < |ORDER| && m < |ORDER|
    requires Raises(before, p, n) && RaisedAt(before, p, m, cfg)
    ensures m == n
  {
    if m < n { InEarlier(m, n); }
    if n < m { InEarlier(n, m); }
  }

  /* An input */

  // Values that are no dictionaries merge into any dictionary.
  predicate Flat(v: Val) {
    v.Node? && forall k :: k in v.m ==> !v.m[k].Node?
  }

  lemma FlatMerges(dst: Val, src: Val)
    requires dst.Node? && Flat(src)
    ensures Merge(dst, src).Some? && Merge(dst, src).value.Node?
  {
    assert forall k :: k in src.m && !src.m[k].Null? ==> MergeAt(dst, src, k).Some?;
  }

  // One nested dictionary over another one.
  lemma NestedMerges(dst: Val, src: Val, field: string)
    requires dst.Node? && src.Node? && forall k :: k in src.m && k != field ==> !src.m[k].Node?
    requires field in dst.m && dst.m[field].Node? && field in src.m && Flat(src.m[field])
    ensures Merge(dst, src).Some? && Merge(dst, src).value.Node?
  {
    FlatMerges(dst.m[field], src.m[field]);
    assert forall k :: k in src.m && !src.m[k].Null? ==> MergeAt(dst, src, k).Some?;
  }

  // A local configuration complete but for a call_home section that has been left empty in
  // the file, which reads as null, and a payload with a login of its own.
  predicate EmptyCallHome(local: Val, p: Val, user: string) {
    local.Node? && Payload(p) && HasLogin(local, p, user) && HasRouter(local, p) && HasCallHome(local, p)
  }

  predicate HasLogin(local: Val, p: Val, user: string)
    requires local.Node? && p.Node?
  {
    && "bootstrap" in local.m && local.m["bootstrap"].Node? && "bootstrap" in p.m && Flat(p.m["bootstrap"])
    && "user" in p.m["bootstrap"].m && p.m["bootstrap"].m["user"] == Leaf(user)
  }

  predicate HasRouter(local: Val, p: Val)
    requires local.Node? && p.Node?
  {
    && "routeros" in local.m && local.m["routeros"].Node?
    && "routeros" in p.m && Router(local.m["routeros"], p.m["routeros"])
  }

  predicate HasCallHome(local: Val, p: Val)
    requires local.Node? && p.Node?
  {
    && "call_home" in local.m && local.m["call_home"].Null?
    && "call_home" in p.m && p.m["call_home"].Node? && !Idle(p.m["call_home"])
  }

  predicate Router(dst: Val, src: Val)
    requires dst.Node?
  {
    && src.Node? && "config" in dst.m && dst.m["config"].Node? && "config" in src.m && Flat(src.m["config"])
    && forall k :: k in src.m && k != "config" ==> !src.m[k].Node?
  }

  lemma LoginTaken(local: Val, p: Val, user: string)
    requires EmptyCallHome(local, p, user)
    ensures Taken(p, "bootstrap") && KeyResult(local, p, "bootstrap").Some?
    ensures Get(KeyResult(local, p, "bootstrap").value, ["user"]) == Some(Leaf(user))
  {
    var dst, src := local.m["bootstrap"], p.m["bootstrap"];
    FlatMerges(dst, src);
    assert MergeAt(local, Selected(p), "bootstrap") == Merge(dst, src);
    MergeByKey(dst, src, "user");
    assert ["user"][1..] == [];
  }

  lemma RouterTaken(local: Val, p: Val, user: string)
    requires EmptyCallHome(local, p, user)
    ensures Taken(p, "routeros") && KeyResult(local, p, "routeros").Some?
  {
    NestedMerges(local.m["routeros"], p.m["routeros"], "config");
    assert "config" in p.m["routeros"].m;
    assert MergeAt(local, Selected(p), "routeros") == Merge(local.m["routeros"], p.m["routeros"]);
  }

  lemma CallHomeRaises(local: Val, p: Val, user: string)
    requires EmptyCallHome(local, p, user)
    ensures Taken(p, "call_home") && KeyResult(local, p, "call_home").None?
  {
    assert MergeAt(local, Selected(p), "call_home") == Merge(local.m["call_home"], p.m["call_home"]);
  }

  lemma FirstFour(k: string)
    requires k in Earlier(4)
    ensures k == "mgmt_subnet" || k == "target_mac" || k == "bootstrap" || k == "routeros"
  {
    assert Earlier(2) == {"mgmt_subnet", "target_mac"};
    assert Earlier(4) == Earlier(2) + {"bootstrap", "routeros"};
  }

  // Merging the two raises, at the call_home section...
  lemma HalfMergedRaises(local: Val, p: Val, user: string)
    requires EmptyCallHome(local, p, user)
    ensures Raises(local, p, 4) && Preconfigured(local, p).None?
  {
    LoginTaken(local, p, user);
    RouterTaken(local, p, user);
    CallHomeRaises(local, p, user);
    forall k | k in Earlier(4) && k in p.m && Taken(p, k) ensures KeyResult(local, p, k).Some? {
      FirstFour(k);
    }
  }

  // ...and what is left has the payload's login, although the script then says that it goes on
  // with the local configuration.
  lemma HalfMergedStays(local: Val, p: Val, user: string, n: nat, cfg: map<string, Val>)
    requires EmptyCallHome(local, p, user) && n < |ORDER| && RaisedAt(local, p, n, cfg)
    ensures Get(Node(cfg), ["bootstrap", "user"]) == Some(Leaf(user))
  {
    HalfMergedRaises(local, p, user);
    RaisesThere(local, p, 4, n, cfg);
    LoginTaken(local, p, user);
    assert ORDER[2] == "bootstrap";
    EarlierKept(local, p, n, cfg, 2);
    var path := ["bootstrap", "user"];
    assert path[1..] == ["user"];
    assert Get(Node(cfg), path) == Get(cfg["bootstrap"], ["user"]);
  }

  // Two such configurations, with all sections the script reads before it merges and all
  // the payload builder makes.
  const LOCAL_LOGIN := Node(map["user" := Leaf("admin"), "pass" := Leaf("")])
  const LOCAL_NET := Node(map["wan_interface" := Leaf("ether1"), "lan_bridge" := Leaf("br-pon")])
  const LOCAL_ROUTER := Node(map["api_port" := Leaf("8728"), "mgmt_user" := Leaf("odoo_noc"),
                                 "mgmt_pass_env" := Leaf("MIKROTIK_MGMT_PASS"), "config" := LOCAL_NET])
  const LOCAL_NAMES := Node(map["identity_prefix" := Leaf("MT-")])
  const LOCAL_ODOO := Node(map["fetch_preconfig" := Leaf("true"), "url" := Leaf("http://localhost:8069"),
                               "db" := Leaf("odoo"), "user" := Leaf("admin"), "pass_env" := Leaf("ODOO_ADMIN_PASS")])

  const LOCAL :=
    Node(map["sector_code" := Leaf("SEC-001"), "mgmt_subnet" := Leaf("192.168.88.0/24"), "bootstrap" := LOCAL_LOGIN,
             "routeros" := LOCAL_ROUTER, "call_home" := Null, "webhook" := Node(map["enabled" := Leaf("true")]),
             "naming" := LOCAL_NAMES, "odoo" := LOCAL_ODOO])

  // A payload with the sections the builder always makes.
  const LOGIN := Node(map["user" := Leaf("noc"), "pass" := Null])
  const NET := Node(map["wan_interface" := Leaf("ether1"), "lan_bridge" := Leaf("br-olt")])
  const ROUTER := Node(map["api_port" := Leaf("8728"), "mgmt_user" := Null, "mgmt_pass_env" := Null,
                           "mgmt_pass_value" := Null, "discovery_interfaces" := Null, "allowed_mgmt_ips" := Null,
                           "apply_sector_config" := Leaf("true"), "config" := NET])
  const CALL_HOME := Node(map["enabled" := Leaf("false"), "url" := Null])
  const WEBHOOK := Node(map["enabled" := Leaf("false"), "url" := Null])
  const NAMING := Node(map["identity_prefix" := Null, "identity_format" := Null])

  const FETCHED :=
    Node(map["mgmt_subnet" := Null, "target_mac" := Null, "bootstrap" := LOGIN, "routeros" := ROUTER,
             "call_home" := CALL_HOME, "webhook" := WEBHOOK, "naming" := NAMING])

  lemma RouterSections()
    ensures Router(LOCAL_ROUTER, ROUTER)
  {
  }

  lemma RouterPlaces(local: Val, p: Val)
    requires local == LOCAL && p == FETCHED
    ensures local.Node? && "routeros" in local.m && local.m["routeros"] == LOCAL_ROUTER
    ensures p.Node? && "routeros" in p.m && p.m["routeros"] == ROUTER
  {
  }

  lemma RouterFits(local: Val, p: Val)
    requires local == LOCAL && p == FETCHED
    ensures local.Node? && p.Node? && HasRouter(local, p)
  {
    RouterSections();
    RouterPlaces(local, p);
  }

  lemma PayloadFits()
    ensures Payload(FETCHED)
  {
  }

  lemma LoginFits()
    ensures HasLogin(LOCAL, FETCHED, "noc") && LOCAL.m["bootstrap"] == LOCAL_LOGIN
  {
  }

  lemma CallHomeFits()
    ensures HasCallHome(LOCAL, FETCHED)
  {
    assert "enabled" in CALL_HOME.m && !Idle(CALL_HOME);
  }

  // They are such a pair: the local file says admin, the payload noc.
  lemma AdminBecomesNoc()
    ensures EmptyCallHome(LOCAL, FETCHED, "noc")
    ensures LOCAL.m["bootstrap"].m["user"] == Leaf("admin")
  {
    PayloadFits();
    LoginFits();
    RouterFits(LOCAL, FETCHED);
    CallHomeFits();
  }
}
