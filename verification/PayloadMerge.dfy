/**
  What merging a fetched payload does to the local configuration, seen from the payload: what
  it says is in the result, and where it says nothing the old value stays.
 */
module PayloadMerge {
  import opened Basics
  import opened ConfigMerge

  // The payload sets this key: a section, not empty for the router's, or one of two texts,
  // not empty for the subnet.
  predicate Sets(p: Val, k: string)
    requires p.Node?
  {
    && k in p.m && !p.m[k].Null?
    && match k
       case "mgmt_subnet" => p.m[k] != Leaf("")
       case "routeros" => p.m[k] != Node(map[])
       case "target_mac" | "bootstrap" | "call_home" | "webhook" | "naming" => true
       case _ => false
  }

  lemma SetsTaken(p: Val, k: string)
    requires Payload(p)
    ensures Sets(p, k) <==> k in p.m && Taken(p, k)
  {
  }

  // A section the payload sets, as opposed to a text.
  predicate Section(k: string) {
    k in {"bootstrap", "routeros", "call_home", "webhook", "naming"}
  }

  lemma ResultAt(cfg: Val, p: Val, k: string)
    requires cfg.Node? && Payload(p) && Preconfigured(cfg, p).Some?
    ensures Preconfigured(cfg, p).value.Node?
    ensures Sets(p, k) ==> Taken(p, k) && At(Preconfigured(cfg, p).value, k) == KeyResult(cfg, p, k)
    ensures !Sets(p, k) ==> At(Preconfigured(cfg, p).value, k) == At(cfg, k)
  {
    SetsTaken(p, k);
    if Sets(p, k) { assert KeyResult(cfg, p, k).Some?; }
  }

  // A key the payload lacks, has null or empty, or that is none of the seven keeps its value.
  lemma UnsetStays(cfg: Val, p: Val, k: string)
    requires cfg.Node? && Payload(p) && Preconfigured(cfg, p).Some? && !Sets(p, k)
    ensures Preconfigured(cfg, p).value.Node? && At(Preconfigured(cfg, p).value, k) == At(cfg, k)
  {
    ResultAt(cfg, p, k);
  }

  // The subnet, unless empty, and the target MAC are taken over.
  lemma TextsTaken(cfg: Val, p: Val)
    requires cfg.Node? && Payload(p) && Preconfigured(cfg, p).Some?
    ensures var r := Preconfigured(cfg, p).value;
            && r.Node?
            && ("mgmt_subnet" in p.m && p.m["mgmt_subnet"] !in {Null, Leaf("")} ==>
                  At(r, "mgmt_subnet") == Some(p.m["mgmt_subnet"]))
            && ("target_mac" in p.m && p.m["target_mac"] != Null ==> At(r, "target_mac") == Some(p.m["target_mac"]))
  {
    TextResult(cfg, p, "mgmt_subnet");
    TextResult(cfg, p, "target_mac");
  }

  lemma TextResult(cfg: Val, p: Val, k: string)
    requires cfg.Node? && Payload(p) && Preconfigured(cfg, p).Some? && k in {"mgmt_subnet", "target_mac"}
    ensures Preconfigured(cfg, p).value.Node?
    ensures Sets(p, k) ==> At(Preconfigured(cfg, p).value, k) == Some(p.m[k])
  {
    ResultAt(cfg, p, k);
    if Sets(p, k) { assert p.m[k].Leaf? && Selected(p).m[k] == p.m[k]; }
  }

  // A section is merged, the router's config apart.
  lemma SectionResult(cfg: Val, p: Val, k: string, path: seq<string>)
    requires cfg.Node? && Payload(p) && Preconfigured(cfg, p).Some? && Section(k) && Sets(p, k) && path != []
    requires k == "routeros" ==> path[0] != "config"
    ensures p.m[k].Node? && Merge(Child(cfg, k), p.m[k]).Some?
    ensures Get(Preconfigured(cfg, p).value, [k] + path) == Get(Merge(Child(cfg, k), p.m[k]).value, path)
  {
    ResultAt(cfg, p, k);
    SetsTaken(p, k);
    var r := Preconfigured(cfg, p).value;
    assert ([k] + path)[1..] == path && Selected(p).m[k] == p.m[k];
    assert Get(r, [k] + path) == Get(r.m[k], path);
    var merged := MergeAt(cfg, Selected(p), k).value;
    if r.m[k] != merged { assert Get(r.m[k], path) == Get(merged, path); }
  }

  // Every leaf of a section of the payload is in the result...
  lemma PayloadLeafWins(cfg: Val, p: Val, k: string, path: seq<string>)
    requires cfg.Node? && Payload(p) && Preconfigured(cfg, p).Some? && Section(k) && path != []
    requires k == "routeros" ==> path[0] != "config"
    requires k in p.m && Get(p.m[k], path).Some? && Get(p.m[k], path).value.Leaf?
    ensures Get(Preconfigured(cfg, p).value, [k] + path) == Get(p.m[k], path)
  {
    assert Sets(p, k);
    SectionResult(cfg, p, k, path);
    SourceLeafWins(Child(cfg, k), p.m[k], path);
  }

  // ...and where the section says nothing, the old value is.
  lemma PayloadSilentStays(cfg: Val, p: Val, k: string, path: seq<string>)
    requires cfg.Node? && Payload(p) && Preconfigured(cfg, p).Some? && Section(k) && path != []
    requires k == "routeros" ==> path[0] != "config"
    requires k in p.m ==> p.m[k].Null? || Silent(p.m[k], path)
    ensures Get(Preconfigured(cfg, p).value, [k] + path) == Get(cfg, [k] + path)
  {
    assert ([k] + path)[1..] == path;
    ResultAt(cfg, p, k);
    if Sets(p, k) {
      SectionResult(cfg, p, k, path);
      OldValueStays(Child(cfg, k), p.m[k], path);
    } else {
      assert At(Preconfigured(cfg, p).value, k) == At(cfg, k);
    }
  }

  // The router's config is the payload's, whatever it is, wherever its section has one.
  lemma PayloadConfigWins(cfg: Val, p: Val)
    requires cfg.Node? && Payload(p) && Preconfigured(cfg, p).Some?
    requires "routeros" in p.m && p.m["routeros"].Node? && "config" in p.m["routeros"].m
    ensures Get(Preconfigured(cfg, p).value, ["routeros", "config"]) == Some(p.m["routeros"].m["config"])
  {
    ConfigReplaced(cfg, p);
  }

  // The merge goes through exactly if each section that is set merges into the one there, or
  // into an empty one, and what the router's config is to be put into is a dictionary.
  lemma PreconfiguredIff(cfg: Val, p: Val)
    requires cfg.Node? && Payload(p)
    ensures Preconfigured(cfg, p).Some?
            <==> forall k :: Section(k) && Sets(p, k) ==>
                   && p.m[k].Node? && Merge(Child(cfg, k), p.m[k]).Some?
                   && (k == "routeros" && "config" in p.m[k].m ==> Child(cfg, k).Node?)
  {
    forall k | k in p.m && Taken(p, k)
      ensures Section(k) <==> p.m[k].Node?
      ensures KeyResult(cfg, p, k).Some?
              <==> p.m[k].Node? ==> Merge(Child(cfg, k), p.m[k]).Some?
                                    && (k == "routeros" && "config" in p.m[k].m ==> Child(cfg, k).Node?)
    {
      assert Selected(p).m[k] == p.m[k];
      if p.m[k].Node? && Merge(Child(cfg, k), p.m[k]).Some? { MergeShape(Child(cfg, k), p.m[k]); }
    }
    forall k ensures Sets(p, k) <==> k in p.m && Taken(p, k) { SetsTaken(p, k); }
  }
}
