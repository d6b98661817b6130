/**
  Merging a fetched configuration into the local one: nested dictionaries key by key,
  leaves replaced, nulls ignored. Lists and scalars are leaves.
 */
module ConfigMerge {
  import opened Basics

  datatype Val = Null | Leaf(text: string) | Node(m: map<string, Val>)

  // Merging into something that is no dictionary only works if there is nothing to write.
  predicate Idle(src: Val)
    requires src.Node?
  {
    forall k :: k in src.m ==> src.m[k].Null?
  }

  function Child(dst: Val, k: string): Val
    requires dst.Node?
  {
    if k in dst.m then dst.m[k] else Node(map[])
  }

  // What key k of the source makes of the destination; None when that raises.
  function MergeAt(dst: Val, src: Val, k: string): Option<Val>
    requires dst.Node? && src.Node? && k in src.m && !src.m[k].Null?
    decreases src, 0
  {
    if src.m[k].Leaf? then Some(src.m[k]) else Merge(Child(dst, k), src.m[k])
  }

  function Merge(dst: Val, src: Val): (r: Option<Val>)
    requires src.Node?
    decreases src, 1
  {
    if !dst.Node? then if Idle(src) then Some(dst) else None
    else if forall k :: k in src.m && !src.m[k].Null? ==> MergeAt(dst, src, k).Some? then
      Some(Node(map k | k in dst.m.Keys + src.m.Keys && (k in dst.m || !src.m[k].Null?) ::
                  if k in src.m && !src.m[k].Null? then MergeAt(dst, src, k).value else dst.m[k]))
    else None
  }

  /* The procedure */

  // Key by key, in whatever order the source lists them; a raise leaves what was
  // merged until then.
  method MergeDict(dst: Val, src: Val) returns (merged: Val, raised: bool)
    requires src.Node?
    ensures raised <==> Merge(dst, src).None?
    ensures !raised ==> merged == Merge(dst, src).value
    ensures Between(dst, src, merged)
    decreases src
  {
    merged, raised := dst, false;
    var todo := src.m.Keys;
    while todo != {} && !raised
      invariant todo <= src.m.Keys
      invariant !dst.Node? ==> merged == dst && (raised || forall k :: k in src.m.Keys - todo ==> src.m[k].Null?)
      invariant dst.Node? && !raised ==> Partial(dst, src, src.m.Keys - todo, merged)
      invariant raised ==> Merge(dst, src).None?
      invariant Between(dst, src, merged)
      decreases todo, !raised
    {
      var k :| k in todo;
      ghost var done := src.m.Keys - todo;
      todo := todo - {k};
      assert src.m.Keys - todo == done + {k};
      var value := src.m[k];
      if dst.Node? { PartialNext(dst, src, done, merged, k); }
      if !value.Null? {
        if !merged.Node? {
          raised := true;
        } else if value.Node? {
          var node := Child(merged, k);
          node, raised := MergeDict(node, value);
          BetweenNext(dst, src, merged, k, node);
          merged := Node(merged.m[k := node]);
        } else {
          BetweenNext(dst, src, merged, k, value);
          merged := Node(merged.m[k := value]);
        }
      }
    }
    if !raised { assert src.m.Keys - todo == src.m.Keys; }
  }

  // What any part of a merge leaves: no old key is lost, no foreign one added, and each
  // value is the old one, the source's leaf, or itself partly merged.
  ghost predicate Between(dst: Val, src: Val, merged: Val)
    requires src.Node?
    decreases src, 0
  {
    if !dst.Node? then merged == dst
    else
      && merged.Node? && dst.m.Keys <= merged.m.Keys
      && forall k :: k in merged.m ==>
           || (k in dst.m && merged.m[k] == dst.m[k])
           || (k in src.m && BetweenAt(Child(dst, k), src.m[k], merged.m[k]))
  }

  ghost predicate BetweenAt(old': Val, given: Val, value: Val)
    decreases given, 1
  {
    match given
    case Null => false
    case Leaf(_) => value == given
    case Node(_) => Between(old', given, value)
  }

  lemma BetweenNext(dst: Val, src: Val, merged: Val, k: string, value: Val)
    requires dst.Node? && src.Node? && Between(dst, src, merged) && k in src.m
    requires BetweenAt(Child(dst, k), src.m[k], value)
    ensures Between(dst, src, Node(merged.m[k := value]))
  {
  }

  // The destination after the keys in done.
  ghost predicate Partial(dst: Val, src: Val, done: set<string>, merged: Val)
    requires dst.Node? && src.Node? && done <= src.m.Keys
  {
    && merged.Node?
    && (forall k :: k in done && !src.m[k].Null? ==> MergeAt(dst, src, k).Some?)
    && merged.m == map k | k in dst.m.Keys + done && (k in dst.m || !src.m[k].Null?) ::
                     if k in done && !src.m[k].Null? then MergeAt(dst, src, k).value else dst.m[k]
  }

  // The next key: passed over when null, else put in place.
  lemma PartialNext(dst: Val, src: Val, done: set<string>, merged: Val, k: string)
    requires dst.Node? && src.Node? && done <= src.m.Keys && Partial(dst, src, done, merged) && k in src.m && k !in done
    ensures Child(merged, k) == Child(dst, k)
    ensures src.m[k].Null? ==> Partial(dst, src, done + {k}, merged)
    ensures !src.m[k].Null? && MergeAt(dst, src, k).Some? ==>
              Partial(dst, src, done + {k}, Node(merged.m[k := MergeAt(dst, src, k).value]))
  {
    if !src.m[k].Null? && MergeAt(dst, src, k).Some? {
      var next := Node(merged.m[k := MergeAt(dst, src, k).value]);
      assert Partial(dst, src, done + {k}, next);
    }
  }

  /* Laws */

  function Get(v: Val, path: seq<string>): Option<Val> {
    if path == [] then Some(v)
    else if v.Node? && path[0] in v.m then Get(v.m[path[0]], path[1..])
    else None
  }

  // At each path the source's leaf, if it has one.
  lemma {:induction false} SourceLeafWins(dst: Val, src: Val, path: seq<string>)
    requires src.Node? && Merge(dst, src).Some? && path != []
    requires Get(src, path).Some? && Get(src, path).value.Leaf?
    ensures Get(Merge(dst, src).value, path) == Get(src, path)
    decreases src
  {
    var k := path[0];
    assert !src.m[k].Null?;
    if src.m[k].Node? {
      SourceLeafWins(Child(dst, k), src.m[k], path[1..]);
    }
  }

  // The source says nothing at the path: it ends in a missing key or a null.
  predicate Silent(src: Val, path: seq<string>) {
    src.Node? && path != []
    && (path[0] !in src.m || src.m[path[0]].Null? || Silent(src.m[path[0]], path[1..]))
  }

  // Elsewhere the old value stays.
  lemma {:induction false} OldValueStays(dst: Val, src: Val, path: seq<string>)
    requires src.Node? && Merge(dst, src).Some? && Silent(src, path)
    ensures Get(Merge(dst, src).value, path) == Get(dst, path)
    decreases src
  {
    var k := path[0];
    if dst.Node? && k in src.m && !src.m[k].Null? {
      OldValueStays(Child(dst, k), src.m[k], path[1..]);
      assert Merge(dst, src).value.m[k] == Merge(Child(dst, k), src.m[k]).value;
      if k !in dst.m { assert path[1..] != [] && Get(Child(dst, k), path[1..]) == None; }
    }
  }

  // A merge that succeeds can be repeated, and changes nothing more.
  lemma {:induction false} MergeIdempotent(dst: Val, src: Val)
    requires src.Node? && Merge(dst, src).Some?
    ensures Merge(Merge(dst, src).value, src) == Merge(dst, src)
    decreases src
  {
    if !dst.Node? {
    } else {
      var r := Merge(dst, src).value;
      forall k | k in src.m && !src.m[k].Null?
        ensures MergeAt(r, src, k) == Some(r.m[k])
      {
        if src.m[k].Node? { MergeIdempotent(Child(dst, k), src.m[k]); }
      }
      assert Merge(r, src).value.m == r.m;
    }
  }

  predicate NullFree(v: Val) {
    !v.Null? && (v.Node? ==> forall k :: k in v.m ==> NullFree(v.m[k]))
  }

  lemma MergeShape(dst: Val, src: Val)
    requires src.Node? && Merge(dst, src).Some?
    ensures Merge(dst, src).value.Node? <==> dst.Node?
    ensures !dst.Node? ==> Merge(dst, src).value == dst
  {
  }

  lemma {:induction false} EmptyTakesAll(src: Val)
    requires src.Node?
    ensures Merge(Node(map[]), src).Some?
    decreases src
  {
    forall k | k in src.m && src.m[k].Node? ensures MergeAt(Node(map[]), src, k).Some? {
      EmptyTakesAll(src.m[k]);
    }
  }

  // A fold from the left and one from the right, both of which may raise.
  function Left(a: Val, b: Val, c: Val): Option<Val>
    requires b.Node? && c.Node?
  {
    var ab := Merge(a, b);
    if ab.Some? then Merge(ab.value, c) else None
  }

  function Right(a: Val, b: Val, c: Val): Option<Val>
    requires b.Node? && c.Node?
  {
    var bc := Merge(b, c);
    if bc.Some? then Merge(a, bc.value) else None
  }

  /* One key at a time */

  function At(v: Val, k: string): Option<Val>
    requires v.Node?
  {
    if k in v.m then Some(v.m[k]) else None
  }

  // What merging one given value makes of a key: None when that raises.
  function Overlaid(dst: Val, k: string, given: Option<Val>): Option<Option<Val>>
    requires dst.Node?
  {
    match given
    case None => Some(At(dst, k))
    case Some(v) =>
      if v.Null? then Some(At(dst, k))
      else if v.Leaf? then Some(given)
      else
        var merged := Merge(Child(dst, k), v);
        if merged.None? then None else Some(merged)
  }

  lemma MergeByKey(dst: Val, src: Val, k: string)
    requires dst.Node? && src.Node? && Merge(dst, src).Some?
    ensures Merge(dst, src).value.Node?
    ensures Overlaid(dst, k, At(src, k)) == Some(At(Merge(dst, src).value, k))
  {
    if k in src.m && !src.m[k].Null? { assert MergeAt(dst, src, k).Some?; }
  }

  lemma MergeRaises(dst: Val, src: Val)
    requires dst.Node? && src.Node?
    ensures Merge(dst, src).None? <==> exists k :: k in src.m && Overlaid(dst, k, At(src, k)).None?
  {
    forall k | k in src.m && !src.m[k].Null?
      ensures MergeAt(dst, src, k).None? <==> Overlaid(dst, k, At(src, k)).None?
    {
    }
    if Merge(dst, src).None? {
      var k :| k in src.m && !src.m[k].Null? && MergeAt(dst, src, k).None?;
      assert Overlaid(dst, k, At(src, k)).None?;
    }
  }

  // Merges that agree at every key agree.
  lemma SameOverlays(dst: Val, src: Val, dst': Val, src': Val)
    requires dst.Node? && src.Node? && dst'.Node? && src'.Node?
    requires forall k :: Overlaid(dst, k, At(src, k)) == Overlaid(dst', k, At(src', k))
    ensures Merge(dst, src) == Merge(dst', src')
  {
    MergeRaises(dst, src);
    MergeRaises(dst', src');
    if Merge(dst, src).Some? && Merge(dst', src').Some? {
      var r, r' := Merge(dst, src).value, Merge(dst', src').value;
      forall k ensures k in r.m <==> k in r'.m ensures k in r.m ==> r.m[k] == r'.m[k] {
        MergeByKey(dst, src, k);
        MergeByKey(dst', src', k);
        assert At(r, k) == At(r', k);
      }
      assert r.m == r'.m;
    }
  }

  /* Associativity */

  // Every null of b stands over a value of a that is no dictionary, and where a has no
  // dictionary b has nothing at all.
  predicate Harmless(a: Val, b: Val)
    requires b.Node?
    decreases b
  {
    if !a.Node? then b.m == map[]
    else forall k :: k in b.m ==>
      && (b.m[k].Null? ==> k in a.m && !a.m[k].Node?)
      && (b.m[k].Node? ==> Harmless(Child(a, k), b.m[k]))
  }

  lemma NoDictionary(a: Val, b: Val, c: Val)
    requires b.Node? && c.Node? && !a.Node? && b.m == map[]
    ensures Left(a, b, c) == Right(a, b, c)
  {
    assert Merge(a, b) == Some(a);
    EmptyTakesAll(c);
    var bc := Merge(b, c).value;
    forall k | k in c.m && !c.m[k].Null? ensures k in bc.m && !bc.m[k].Null? {
      if c.m[k].Node? { MergeShape(Child(b, k), c.m[k]); }
    }
    assert Idle(bc) <==> Idle(c);
  }

  lemma MergeNothing(a: Val)
    ensures Merge(a, Node(map[])) == Some(a)
  {
    if a.Node? { assert Merge(a, Node(map[])).value.m == a.m; }
  }

  // One key: both folds raise there, or both make the same of it.
  lemma {:induction false} KeyAssociative(a: Val, b: Val, c: Val, k: string)
    requires a.Node? && b.Node? && c.Node? && Merge(a, b).Some? && Harmless(a, b)
    ensures Merge(a, b).value.Node?
    ensures Overlaid(Merge(a, b).value, k, At(c, k)) ==
            var inner := Overlaid(b, k, At(c, k));
            if inner.None? then None else Overlaid(a, k, inner.value)
    decreases c, 0
  {
    MergeByKey(a, b, k);
    if k in c.m && c.m[k].Node? {
      if k !in b.m {
        NewKeyAssociative(Child(a, k), c.m[k]);
      } else if b.m[k].Node? {
        assert MergeAt(a, b, k).Some?;
        HarmlessAssociative(Child(a, k), b.m[k], c.m[k]);
        if Merge(b.m[k], c.m[k]).Some? { MergeShape(b.m[k], c.m[k]); }
      }
    }
  }

  lemma {:induction false} NewKeyAssociative(old': Val, c: Val)
    requires c.Node?
    ensures Merge(Node(map[]), c).Some? && Merge(Node(map[]), c).value.Node?
    ensures Merge(old', Merge(Node(map[]), c).value) == Merge(old', c)
    decreases c, 2
  {
    EmptyTakesAll(c);
    MergeShape(Node(map[]), c);
    MergeNothing(old');
    HarmlessAssociative(old', Node(map[]), c);
  }

  lemma {:induction false} HarmlessAssociative(a: Val, b: Val, c: Val)
    requires b.Node? && c.Node? && Merge(a, b).Some? && Harmless(a, b)
    ensures Left(a, b, c) == Right(a, b, c)
    decreases c, 1
  {
    if !a.Node? {
      NoDictionary(a, b, c);
    } else {
      var ab := Merge(a, b).value;
      MergeShape(a, b);
      forall k
        ensures Overlaid(ab, k, At(c, k)) ==
                var inner := Overlaid(b, k, At(c, k));
                if inner.None? then None else Overlaid(a, k, inner.value)
      {
        KeyAssociative(a, b, c, k);
      }
      MergeRaises(b, c);
      MergeRaises(ab, c);
      if Merge(b, c).Some? {
        forall k ensures Overlaid(ab, k, At(c, k)) == Overlaid(a, k, At(Merge(b, c).value, k)) {
          MergeByKey(b, c, k);
        }
        MergeShape(b, c);
        SameOverlays(ab, c, a, Merge(b, c).value);
      }
    }
  }

  // Not harmless: some third configuration tells the two groupings apart.
  lemma {:induction false} Discord(a: Val, b: Val) returns (c: Val)
    requires b.Node? && Merge(a, b).Some? && !Harmless(a, b)
    ensures c.Node? && Left(a, b, c) != Right(a, b, c)
    decreases b
  {
    if !a.Node? {
      var k :| k in b.m;
      c := Node(map[k := Node(map[])]);
      DiscordNoDictionary(a, b, c, k);
    } else {
      var k :| k in b.m && ((b.m[k].Null? && !(k in a.m && !a.m[k].Node?))
                            || (b.m[k].Node? && !Harmless(Child(a, k), b.m[k])));
      if b.m[k].Node? {
        assert MergeAt(a, b, k).Some?;
        var inner := Discord(Child(a, k), b.m[k]);
        c := Node(map[k := inner]);
        DiscordBelow(a, b, k, inner);
      } else {
        c := Node(map[k := Node(if k in a.m then map["x" := Leaf("")] else map[])]);
        DiscordNull(a, b, c, k);
      }
    }
  }

  lemma DiscordNoDictionary(a: Val, b: Val, c: Val, k: string)
    requires !a.Node? && b.Node? && Idle(b) && k in b.m && c == Node(map[k := Node(map[])])
    ensures Left(a, b, c).None? && Right(a, b, c).Some?
  {
    assert k in c.m && !c.m[k].Null?;
    assert MergeAt(b, c, k) == Some(Null);
    forall l ensures l in c.m ==> MergeAt(b, c, l) == Some(Null) {}
    assert Merge(b, c).value.m == b.m;
  }

  lemma DiscordNull(a: Val, b: Val, c: Val, k: string)
    requires a.Node? && b.Node? && Merge(a, b).Some? && k in b.m && b.m[k].Null? && (k in a.m ==> a.m[k].Node?)
    requires c == Node(map[k := Node(if k in a.m then map["x" := Leaf("")] else map[])])
    ensures Left(a, b, c) != Right(a, b, c)
  {
    var ab := Merge(a, b).value;
    MergeByKey(a, b, k);
    MergeRaises(ab, c);
    MergeRaises(b, c);
    if k in a.m {
      assert "x" in c.m[k].m && !Idle(c.m[k]);
      assert Overlaid(b, k, At(c, k)).None?;
      EasyLeaf(a.m[k], c.m[k]);
      assert forall l :: l in c.m ==> Overlaid(ab, l, At(c, l)).Some?;
    } else {
      MergeByKey(ab, c, k);
      assert Left(a, b, c).Some? && k in Left(a, b, c).value.m;
      MergeByKey(b, c, k);
      if Right(a, b, c).Some? { MergeByKey(a, Merge(b, c).value, k); }
    }
  }

  lemma EasyLeaf(dst: Val, src: Val)
    requires dst.Node? && src == Node(map["x" := Leaf("")])
    ensures Merge(dst, src).Some?
  {
  }

  lemma DiscordBelow(a: Val, b: Val, k: string, inner: Val)
    requires a.Node? && b.Node? && inner.Node? && Merge(a, b).Some? && k in b.m && b.m[k].Node?
    requires Merge(Child(a, k), b.m[k]).Some? && Left(Child(a, k), b.m[k], inner) != Right(Child(a, k), b.m[k], inner)
    ensures var c := Node(map[k := inner]); Left(a, b, c) != Right(a, b, c)
  {
    var c := Node(map[k := inner]);
    var ab := Merge(a, b).value;
    MergeByKey(a, b, k);
    MergeRaises(ab, c);
    MergeRaises(b, c);
    assert At(ab, k) == Merge(Child(a, k), b.m[k]);
    if Left(a, b, c).Some? { MergeByKey(ab, c, k); }
    if Merge(b, c).Some? {
      MergeByKey(b, c, k);
      assert At(Merge(b, c).value, k) == Merge(b.m[k], inner);
      MergeShape(b.m[k], inner);
      OtherKeysMerge(a, b, c, k);
      if Right(a, b, c).Some? { MergeByKey(a, Merge(b, c).value, k); }
    }
  }

  // Away from key k the second source is silent, so only k can raise.
  lemma OtherKeysMerge(a: Val, b: Val, c: Val, k: string)
    requires a.Node? && b.Node? && c.Node? && Merge(a, b).Some? && Merge(b, c).Some?
    requires forall l :: l in c.m ==> l == k
    ensures Merge(b, c).value.Node?
    ensures Merge(a, Merge(b, c).value).None? <==> Overlaid(a, k, At(Merge(b, c).value, k)).None?
  {
    var bc := Merge(b, c).value;
    MergeByKey(b, c, k);
    MergeRaises(a, bc);
    MergeRaises(a, b);
    forall l | l in bc.m && l != k ensures Overlaid(a, l, At(bc, l)).Some? {
      MergeByKey(b, c, l);
      assert At(bc, l) == At(b, l);
    }
  }

  // When the first merge raises so does the left grouping; the right one can be saved by
  // a third configuration unless the first has no dictionary at all.
  lemma Saved(a: Val, b: Val) returns (c: Val)
    requires a.Node? && b.Node? && Merge(a, b).None?
    ensures c.Node? && Left(a, b, c).None? && Right(a, b, c).Some?
  {
    c := Node(map k | k in b.m :: Leaf(""));
    assert forall k :: k in c.m ==> MergeAt(b, c, k) == Some(Leaf(""));
    assert Merge(b, c).Some? && Merge(b, c).value.m == c.m;
    assert Merge(b, c).value == c;
    assert forall k :: k in c.m ==> MergeAt(a, c, k) == Some(Leaf(""));
  }

  lemma NeverSaved(a: Val, b: Val, c: Val)
    requires !a.Node? && b.Node? && c.Node? && Merge(a, b).None?
    ensures Left(a, b, c) == Right(a, b, c) == None
  {
    var k :| k in b.m && !b.m[k].Null?;
    if Merge(b, c).Some? {
      MergeByKey(b, c, k);
      assert !Merge(b, c).value.m[k].Null?;
    }
  }

  // Whatever is merged third, the grouping does not matter exactly when the second
  // configuration is harmless to the first, or raises on a first that is no dictionary.
  lemma MergeAssociativeIff(a: Val, b: Val)
    requires b.Node?
    ensures (forall c: Val :: c.Node? ==> Left(a, b, c) == Right(a, b, c))
            <==> if Merge(a, b).Some? then Harmless(a, b) else !a.Node?
  {
    if Merge(a, b).Some? {
      if Harmless(a, b) {
        forall c: Val | c.Node? ensures Left(a, b, c) == Right(a, b, c) { HarmlessAssociative(a, b, c); }
      } else {
        var c := Discord(a, b);
      }
    } else if a.Node? {
      var c := Saved(a, b);
    } else {
      forall c: Val | c.Node? ensures Left(a, b, c) == Right(a, b, c) { NeverSaved(a, b, c); }
    }
  }

  // In particular, a null-free configuration that merges is harmless.
  lemma {:induction false} NullFreeHarmless(a: Val, b: Val)
    requires b.Node? && NullFree(b) && Merge(a, b).Some?
    ensures Harmless(a, b)
    decreases b
  {
    forall k | k in b.m ensures NullFree(b.m[k]) && (a.Node? && b.m[k].Node? ==> Harmless(Child(a, k), b.m[k])) {
      if a.Node? && b.m[k].Node? {
        assert MergeAt(a, b, k).Some?;
        NullFreeHarmless(Child(a, k), b.m[k]);
      }
    }
    if !a.Node? { assert b.m == map[]; }
  }

  lemma MergeAssociative(a: Val, b: Val, c: Val)
    requires b.Node? && c.Node? && NullFree(b) && Merge(a, b).Some?
    ensures Left(a, b, c) == Right(a, b, c)
  {
    NullFreeHarmless(a, b);
    HarmlessAssociative(a, b, c);
  }

  // A null in the middle is kept by the inner merge and then ignored by the outer one.
  lemma NullsBreakAssociativity()
    ensures var a, b, c := Node(map[]), Node(map["k" := Null]), Node(map["k" := Node(map["x" := Leaf("1")])]);
            Left(a, b, c).Some? && Right(a, b, c).None?
  {
    var a, b, c := Node(map[]), Node(map["k" := Null]), Node(map["k" := Node(map["x" := Leaf("1")])]);
    assert Merge(a, b) == Some(a) by { assert Merge(a, b).value.m == map[]; }
    EmptyTakesAll(c);
    var x := c.m["k"];
    assert "x" in x.m && !Idle(x);
    assert MergeAt(b, c, "k") == None;
  }

  // Without any null: a section over a text raises, unless a text replaces the section first.
  lemma ShapesBreakAssociativity()
    ensures var a, c := Node(map["k" := Leaf("0")]), Node(map["k" := Leaf("2")]);
            var b := Node(map["k" := Node(map["x" := Leaf("1")])]);
            NullFree(a) && NullFree(b) && NullFree(c) && Left(a, b, c).None? && Right(a, b, c).Some?
  {
    var a, c := Node(map["k" := Leaf("0")]), Node(map["k" := Leaf("2")]);
    var b := Node(map["k" := Node(map["x" := Leaf("1")])]);
    var section := b.m["k"];
    assert "x" in section.m && !section.m["x"].Null? && !Idle(section);
    assert MergeAt(a, b, "k") == None;
    assert MergeAt(b, c, "k") == Some(Leaf("2"));
    assert Merge(b, c).value.m == c.m;
  }

  /* The whole configuration */

  const KEYS := {"mgmt_subnet", "target_mac", "bootstrap", "routeros", "call_home", "webhook", "naming"}
  const ORDER := ["mgmt_subnet", "target_mac", "bootstrap", "routeros", "call_home", "webhook", "naming"]
  const SECTIONS := {"bootstrap", "routeros", "call_home", "webhook", "naming"}

  // What the payload builder produces: sections are dictionaries or missing, the other
  // two keys are texts or missing.
  predicate Payload(p: Val) {
    p.Node? && forall k :: k in KEYS && k in p.m && !p.m[k].Null? ==> (p.m[k].Node? <==> k in SECTIONS)
  }

  // Whether a key of the payload takes part: set, and for two of them not empty.
  predicate Taken(p: Val, k: string)
    requires Payload(p)
  {
    && k in KEYS && k in p.m && !p.m[k].Null?
    && (k == "mgmt_subnet" ==> p.m[k] != Leaf(""))
    && (k == "routeros" ==> p.m[k].m != map[])
  }

  function Selected(p: Val): Val
    requires Payload(p)
  {
    Node(map k | k in p.m.Keys && Taken(p, k) :: p.m[k])
  }

  // One key: merged like any other, then for the router section the payload's router
  // configuration put in place as it is.
  function KeyResult(cfg: Val, p: Val, k: string): Option<Val>
    requires cfg.Node? && Payload(p) && Taken(p, k)
  {
    var merged := MergeAt(cfg, Selected(p), k);
    if merged.None? || k != "routeros" || "config" !in p.m[k].m then merged
    else if merged.value.Node? then Some(Node(merged.value.m["config" := p.m[k].m["config"]]))
    else None
  }

  function Preconfigured(cfg: Val, p: Val): Option<Val>
    requires cfg.Node? && Payload(p)
  {
    if forall k :: k in p.m && Taken(p, k) ==> KeyResult(cfg, p, k).Some? then
      Some(Node(map k | k in cfg.m.Keys + p.m.Keys && (k in cfg.m || Taken(p, k)) ::
                  if k in p.m && Taken(p, k) then KeyResult(cfg, p, k).value else cfg.m[k]))
    else None
  }

  class PreloaderConfig {
    var cfg: map<string, Val>

    constructor (cfg: map<string, Val>)
      ensures this.cfg == cfg
    {
      this.cfg := cfg;
    }

    // Set a plain key, or merge a section and for the router section replace its config.
    method TakeKey(p: Val, k: string, ghost before: Val) returns (raised: bool)
      requires before.Node? && Payload(p) && Taken(p, k)
      requires (k in cfg <==> k in before.m) && (k in cfg ==> cfg[k] == before.m[k])
      modifies this
      ensures raised <==> KeyResult(before, p, k).None?
      ensures !raised ==> cfg == old(cfg)[k := KeyResult(before, p, k).value]
      ensures k in cfg && cfg == old(cfg)[k := cfg[k]]
      ensures raised ==> BetweenAt(Child(before, k), p.m[k], cfg[k])
    {
      raised := false;
      if p.m[k].Node? {
        var node := if k in cfg then cfg[k] else Node(map[]);
        assert node == Child(before, k);
        node, raised := MergeDict(node, p.m[k]);
        cfg := cfg[k := node];
        if !raised && k == "routeros" && "config" in p.m[k].m {
          if !node.Node? { return true; }
          cfg := cfg[k := Node(node.m["config" := p.m[k].m["config"]])];
        }
      } else {
        cfg := cfg[k := p.m[k]];
      }
    }

    // The next key, if the payload has it.
    method TakeNext(p: Val, k: string, ghost before: Val, ghost n: nat) returns (raised: bool)
      requires before.Node? && Payload(p) && n < |ORDER| && k == ORDER[n] && TakenSoFar(before, p, Earlier(n), cfg)
      modifies this
      ensures raised ==> Preconfigured(before, p).None? && RaisedAt(before, p, n, cfg)
      ensures !raised ==> TakenSoFar(before, p, Earlier(n + 1), cfg)
    {
      raised := false;
      Fresh(n);
      if k in p.m && Taken(p, k) {
        ghost var was := cfg;
        raised := TakeKey(p, k, before);
        if raised {
          Restores(before, p, Earlier(n), was, k, cfg[k]);
        } else {
          TakenNext(before, p, Earlier(n), was, k);
        }
      } else {
        NotTakenNext(before, p, Earlier(n), cfg, k);
      }
    }

    method MergePreconfig(p: Val) returns (raised: bool)
      requires Payload(p)
      modifies this
      ensures raised <==> Preconfigured(Node(old(cfg)), p).None?
      ensures raised ==> exists n :: 0 <= n < |ORDER| && RaisedAt(Node(old(cfg)), p, n, cfg)
      ensures !raised ==> Node(cfg) == Preconfigured(Node(old(cfg)), p).value
    {
      ghost var before := Node(cfg);
      raised := TakeNext(p, "mgmt_subnet", before, 0);
      if raised { return; }
      raised := TakeNext(p, "target_mac", before, 1);
      if raised { return; }
      raised := TakeNext(p, "bootstrap", before, 2);
      if raised { return; }
      raised := TakeNext(p, "routeros", before, 3);
      if raised { return; }
      raised := TakeNext(p, "call_home", before, 4);
      if raised { return; }
      raised := TakeNext(p, "webhook", before, 5);
      if raised { return; }
      raised := TakeNext(p, "naming", before, 6);
      if raised { return; }
      AllEarlier();
      Complete(before, p, cfg);
    }
  }

  ghost predicate AllTaken(before: Val, p: Val, done: set<string>)
    requires before.Node? && Payload(p)
  {
    forall k :: k in done && k in p.m && Taken(p, k) ==> KeyResult(before, p, k).Some?
  }

  // The configuration with these keys done.
  ghost function WithTaken(before: Val, p: Val, done: set<string>): map<string, Val>
    requires before.Node? && Payload(p) && AllTaken(before, p, done)
  {
    map k | k in before.m.Keys + p.m.Keys && (k in before.m || (k in done && Taken(p, k))) ::
      if k in done && k in p.m && Taken(p, k) then KeyResult(before, p, k).value else before.m[k]
  }

  ghost predicate TakenSoFar(before: Val, p: Val, done: set<string>, cfg: map<string, Val>)
    requires before.Node? && Payload(p)
  {
    AllTaken(before, p, done) && cfg == WithTaken(before, p, done)
  }

  // What a raise at one key leaves of the configuration, which goes on being used: some keys
  // are done, this one is partly merged, the others are untouched.
  ghost predicate StoppedAt(before: Val, p: Val, done: set<string>, k: string, cfg: map<string, Val>)
    requires before.Node? && Payload(p)
  {
    && k in p.m && Taken(p, k) && KeyResult(before, p, k).None?
    && k in cfg && BetweenAt(Child(before, k), p.m[k], cfg[k])
    && TakenSoFar(before, p, done, Restored(before, cfg, k))
  }

  // The keys that are done are the earlier ones.
  ghost predicate RaisedAt(before: Val, p: Val, n: nat, cfg: map<string, Val>)
    requires before.Node? && Payload(p) && n < |ORDER|
  {
    StoppedAt(before, p, Earlier(n), ORDER[n], cfg)
  }

  function Restored(before: Val, cfg: map<string, Val>, k: string): map<string, Val>
    requires before.Node?
  {
    if k in before.m then cfg[k := before.m[k]] else cfg - {k}
  }

  lemma Restores(before: Val, p: Val, done: set<string>, cfg: map<string, Val>, k: string, value: Val)
    requires before.Node? && Payload(p) && TakenSoFar(before, p, done, cfg) && k !in done
    ensures Restored(before, cfg[k := value], k) == cfg
  {
  }

  // The keys a raise at position n finds done.
  ghost function Earlier(n: nat): set<string>
    requires n <= |ORDER|
  {
    if n == 0 then {} else Earlier(n - 1) + {ORDER[n - 1]}
  }

  lemma {:induction false} NotEarlier(n: nat, k: string)
    requires n <= |ORDER| && forall i :: 0 <= i < n ==> ORDER[i] != k
    ensures k !in Earlier(n)
  {
    if n == 0 {
    } else {
      NotEarlier(n - 1, k);
    }
  }

  lemma Distinct(i: nat, n: nat)
    requires i < n < |ORDER|
    ensures ORDER[i] != ORDER[n]
  {
    assert |ORDER[0]| == 11 && |ORDER[1]| == 10 && |ORDER[2]| == 9 && |ORDER[3]| == 8 && |ORDER[4]| == 9
           && |ORDER[5]| == 7 && |ORDER[6]| == 6;
    assert ORDER[2][0] == 'b' && ORDER[4][0] == 'c';
  }

  lemma Fresh(n: nat)
    requires n < |ORDER|
    ensures ORDER[n] !in Earlier(n) && ORDER[n] in KEYS
  {
    forall i | 0 <= i < n ensures ORDER[i] != ORDER[n] { Distinct(i, n); }
    NotEarlier(n, ORDER[n]);
  }

  lemma Position(i: nat, n: nat)
    requires i < |ORDER| && n < |ORDER|
    ensures ORDER[i] == ORDER[n] ==> i == n
  {
    if i < n { Distinct(i, n); }
    if n < i { Distinct(n, i); }
  }

  lemma AllEarlier()
    ensures Earlier(|ORDER|) == KEYS
  {
    assert Earlier(2) == {"mgmt_subnet", "target_mac"};
    assert Earlier(4) == {"mgmt_subnet", "target_mac", "bootstrap", "routeros"};
    assert Earlier(6) == {"mgmt_subnet", "target_mac", "bootstrap", "routeros", "call_home", "webhook"};
  }

  lemma {:induction false} InEarlier(i: nat, n: nat)
    requires i < n <= |ORDER|
    ensures ORDER[i] in Earlier(n)
  {
    if i == n - 1 {
    } else {
      InEarlier(i, n - 1);
    }
  }

  // Whatever an earlier key brought is kept by a raise.
  lemma EarlierKept(before: Val, p: Val, n: nat, cfg: map<string, Val>, i: nat)
    requires before.Node? && Payload(p) && i < n < |ORDER| && RaisedAt(before, p, n, cfg)
    requires ORDER[i] in p.m && Taken(p, ORDER[i])
    ensures ORDER[i] in cfg && KeyResult(before, p, ORDER[i]) == Some(cfg[ORDER[i]])
  {
    InEarlier(i, n);
    Distinct(i, n);
    DoneKept(before, p, Earlier(n), ORDER[n], cfg, ORDER[i]);
  }

  lemma DoneKept(before: Val, p: Val, done: set<string>, k: string, cfg: map<string, Val>, j: string)
    requires before.Node? && Payload(p) && StoppedAt(before, p, done, k, cfg) && j in done && j != k
    requires j in p.m && Taken(p, j)
    ensures j in cfg && KeyResult(before, p, j) == Some(cfg[j])
  {
    var restored := Restored(before, cfg, k);
    assert j in WithTaken(before, p, done);
    assert j in restored && restored[j] == cfg[j];
  }

  lemma TakenNext(before: Val, p: Val, done: set<string>, cfg: map<string, Val>, k: string)
    requires before.Node? && Payload(p) && TakenSoFar(before, p, done, cfg) && k !in done
    requires k in p.m && Taken(p, k) && KeyResult(before, p, k).Some?
    ensures TakenSoFar(before, p, done + {k}, cfg[k := KeyResult(before, p, k).value])
  {
  }

  lemma NotTakenNext(before: Val, p: Val, done: set<string>, cfg: map<string, Val>, k: string)
    requires before.Node? && Payload(p) && TakenSoFar(before, p, done, cfg) && !(k in p.m && Taken(p, k))
    ensures TakenSoFar(before, p, done + {k}, cfg)
  {
  }

  lemma Complete(before: Val, p: Val, cfg: map<string, Val>)
    requires before.Node? && Payload(p) && TakenSoFar(before, p, KEYS, cfg)
    ensures Preconfigured(before, p) == Some(Node(cfg))
  {
    var r := Preconfigured(before, p).value;
    assert r.m == cfg;
  }

  lemma SelectedMerges(cfg: Val, p: Val)
    requires cfg.Node? && Payload(p) && Preconfigured(cfg, p).Some?
    ensures Merge(cfg, Selected(p)).Some?
  {
    forall k | k in Selected(p).m ensures MergeAt(cfg, Selected(p), k).Some? {
      assert KeyResult(cfg, p, k).Some?;
    }
  }

  // Merging a payload follows the merge law at every path that does not lead to, or
  // through, the router section's config...
  lemma PreconfigFollowsMerge(cfg: Val, p: Val, path: seq<string>)
    requires cfg.Node? && Payload(p) && Preconfigured(cfg, p).Some?
    requires path != [] && (path[0] == "routeros" ==> |path| > 1 && path[1] != "config")
    ensures Merge(cfg, Selected(p)).Some?
    ensures Get(Preconfigured(cfg, p).value, path) == Get(Merge(cfg, Selected(p)).value, path)
  {
    SelectedMerges(cfg, p);
    var k := path[0];
    if k in p.m && Taken(p, k) {
      var merged := MergeAt(cfg, Selected(p), k).value;
      assert Merge(cfg, Selected(p)).value.m[k] == merged;
      var r := Preconfigured(cfg, p).value.m[k];
      assert r == KeyResult(cfg, p, k).value;
      if r != merged { assert Get(r, path[1..]) == Get(merged, path[1..]); }
    }
  }

  // ...which becomes exactly the payload's.
  lemma ConfigReplaced(cfg: Val, p: Val)
    requires cfg.Node? && Payload(p) && Preconfigured(cfg, p).Some?
    requires "routeros" in p.m && Taken(p, "routeros") && "config" in p.m["routeros"].m
    ensures Get(Preconfigured(cfg, p).value, ["routeros", "config"]) == Some(p.m["routeros"].m["config"])
  {
    var r := Preconfigured(cfg, p).value.m["routeros"];
    assert r == KeyResult(cfg, p, "routeros").value;
    assert ["routeros", "config"][1..] == ["config"] && ["config"][1..] == [];
    assert r.Node? && Get(r, ["config"]) == Get(r.m["config"], []);
    assert Get(Preconfigured(cfg, p).value, ["routeros", "config"]) == Get(r, ["config"]);
  }
}
