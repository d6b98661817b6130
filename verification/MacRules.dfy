/**
  What one onboarding call leaves: the profile of the MAC, the draft subscription and the
  captive user, field by field.
 */
module MacRules {
  import opened Basics
  import opened Text
  import opened MacOnboarding

  // A MAC is the same in capitals and without the white space around it.
  lemma NormalForm(left: string, mac: string, right: string)
    requires Blank(left) && Blank(right) && Trimmed(mac)
    ensures NormalizeMac(left + mac + right) == UpperAll(mac)
    ensures forall k :: 0 <= k < |mac| && !('a' <= mac[k] <= 'z') ==> UpperAll(mac)[k] == mac[k]
  {
    StripPadded(left, mac, right);
  }

  lemma WithoutFirst(s: string, c: char)
    requires s != "" && s[0] != c
    ensures Without(s, c) == [s[0]] + Without(s[1..], c)
  {
  }

  // Removing a character: nothing of it remains, and all around it does.
  lemma {:induction false} WithoutJoins(a: string, b: string, c: char)
    requires c !in a
    ensures Without(a, c) == a && Without(a + [c] + b, c) == a + Without(b, c)
  {
    if a == "" {
      assert ([c] + b)[1..] == b && a + [c] + b == [c] + b;
    } else {
      var head, rest := [a[0]], a[1..];
      WithoutJoins(rest, b, c);
      WithoutFirst(a, c);
      WithoutFirst(a + [c] + b, c);
      assert (a + [c] + b)[1..] == rest + [c] + b && a == head + rest;
      Associates(head, rest, Without(b, c));
    }
  }

  // Position i holds the MAC first, or is where a new profile goes.
  predicate At(profiles: seq<Profile>, mac: string, i: nat) {
    && i <= |profiles|
    && (i < |profiles| ==> profiles[i].mac == mac)
    && forall k :: 0 <= k < i ==> profiles[k].mac != mac
  }

  lemma NoMac(db: Db, settings: Settings, r: Request, now: nat, password: string)
    ensures var (db', reply) := Onboard(db, settings, r, now, password);
            (reply == MacRequired <==> r.mac == "") && (reply == MacRequired ==> db' == db)
  {
  }

  lemma BoundMeans(bound: string)
    ensures Offline(if bound == "" then "1" else bound) <==> LowerAll(bound) in {"0", "false", "no"}
  {
    assert LowerAll("1")[0] == '1' && (bound == "" ==> LowerAll(bound) == "");
  }

  // The later steps of a call change the profile's customer, subscription and plan only.
  lemma RestOfCall(db: Db, i: nat, settings: Settings, r: Request, password: string)
    requires i < |db.profiles|
    ensures var created := AutoCreate(db, i, settings, r);
            var db' := if created.None? then db else CaptiveStep(created.value, settings, r, password);
            && db'.sectors == db.sectors && db'.routers == db.routers && |db'.profiles| == |db.profiles|
            && var p := db'.profiles[i];
            db'.profiles == db.profiles[i := db.profiles[i].(sub := p.sub, plan := p.plan, partner := p.partner)]
  {
    var created := AutoCreate(db, i, settings, r);
    if created.Some? { assert CaptiveStep(created.value, settings, r, password).profiles == created.value.profiles; }
  }

  // Refused or not, the call is written into the profile of its MAC and no other; a missing
  // sector takes the old one away, and a device is offline only if the call says so.
  lemma ProfileRule(db: Db, settings: Settings, r: Request, now: nat, password: string, i: nat)
    requires r.mac != "" && At(db.profiles, NormalizeMac(r.mac), i)
    ensures var db' := Onboard(db, settings, r, now, password).0;
            && |db'.profiles| == (if i == |db.profiles| then i + 1 else |db.profiles|)
            && (forall k :: 0 <= k < |db.profiles| && k != i ==> db'.profiles[k] == db.profiles[k])
            && db'.sectors == db.sectors && db'.routers == db.routers
            && var p := db'.profiles[i];
            && p.mac == NormalizeMac(r.mac) && p.ip == r.ip && p.host == r.host && p.seen == now
            && (p.online <==> LowerAll(r.bound) !in {"0", "false", "no"})
            && p.sector == if r.sector != "" && r.sector in db.sectors then Some(db.sectors[r.sector]) else None
  {
    FoundAt(db.profiles, NormalizeMac(r.mac), i);
    var up := Upsert(db, r, now).0;
    BoundMeans(r.bound);
    RestOfCall(up, i, settings, r, password);
  }

  lemma FoundAt(profiles: seq<Profile>, mac: string, i: nat)
    requires At(profiles, mac, i)
    ensures FindProfile(profiles, mac) == i
  {
    if i < |profiles| { FindUnique(profiles, mac, i); }
  }

  // What the old profile says, or a new one.
  function Earlier<T>(profiles: seq<Profile>, i: nat, field: Profile -> Option<T>): Option<T> {
    if i < |profiles| then field(profiles[i]) else None
  }

  // The subscription of a profile that carries the sector of the call.
  lemma Created(db: Db, i: nat, settings: Settings, r: Request)
    requires i < |db.profiles| && db.profiles[i].mac == NormalizeMac(r.mac)
    requires db.profiles[i].sector == SectorOf(db, r.sector)
    ensures var p := db.profiles[i];
            var sector := if r.sector != "" && r.sector in db.sectors then Some(db.sectors[r.sector]) else None;
            match AutoCreate(db, i, settings, r)
            case None => settings.autoCreate && settings.defaultPlan.Some? && p.sub == None && sector == None
            case Some(db1) =>
              if settings.autoCreate && settings.defaultPlan.Some? && p.sub == None then
                var customer := if p.partner.Some? then p.partner.value else db.partners;
                && sector.Some?
                && db1.subs == db.subs + [AutoSub(customer, settings.defaultPlan.value, sector.value,
                     NormalizeMac(r.mac), r.ip,
                     if sector.value in db.routers then Some(db.routers[sector.value]) else None)]
                && db1.partners == (if p.partner.Some? then db.partners else db.partners + 1)
                && |db1.profiles| == |db.profiles|
                && db1.profiles[i] == p.(sub := Some(|db.subs|), plan := settings.defaultPlan, partner := Some(customer))
              else db1 == db
  {
  }

  lemma CaptiveOnly(db: Db, settings: Settings, r: Request, password: string)
    ensures var db' := CaptiveStep(db, settings, r, password);
            db' == db.(captives := db'.captives, jobs := db'.jobs)
  {
  }

  // A draft subscription comes exactly where automatic creation is on with a default plan
  // and the profile has none, and needs the sector of this very call; the customer is the
  // profile's or a new one.
  lemma SubscriptionRule(db: Db, settings: Settings, r: Request, now: nat, password: string, i: nat)
    requires r.mac != "" && At(db.profiles, NormalizeMac(r.mac), i)
    ensures var (db', reply) := Onboard(db, settings, r, now, password);
            var wanted := settings.autoCreate && settings.defaultPlan.Some?
                && Earlier(db.profiles, i, (p: Profile) => p.sub) == None;
            var known := r.sector != "" && r.sector in db.sectors;
            var partner := Earlier(db.profiles, i, (p: Profile) => p.partner);
            && i < |db'.profiles|
            && (reply == SectorRequired <==> wanted && !known)
            && if wanted && known then
                 var sector := db.sectors[r.sector];
                 var customer := if partner.Some? then partner.value else db.partners;
                 && db'.subs == db.subs + [AutoSub(customer, settings.defaultPlan.value, sector, NormalizeMac(r.mac),
                      r.ip, if sector in db.routers then Some(db.routers[sector]) else None)]
                 && db'.partners == (if partner.Some? then db.partners else db.partners + 1)
                 && db'.profiles[i].sub == Some(|db.subs|)
                 && db'.profiles[i].plan == settings.defaultPlan && db'.profiles[i].partner == Some(customer)
               else
                 && db'.subs == db.subs && db'.partners == db.partners && db'.profiles[i].partner == partner
                 && db'.profiles[i].sub == Earlier(db.profiles, i, (p: Profile) => p.sub)
                 && db'.profiles[i].plan == Earlier(db.profiles, i, (p: Profile) => p.plan)
  {
    FoundAt(db.profiles, NormalizeMac(r.mac), i);
    var up := Upsert(db, r, now).0;
    Created(up, i, settings, r);
    if AutoCreate(up, i, settings, r).Some? { CaptiveOnly(AutoCreate(up, i, settings, r).value, settings, r, password); }
  }

  lemma CaptivesWait(db: Db, settings: Settings, r: Request, now: nat)
    ensures var (up, i) := Upsert(db, r, now);
            && (up.captives, up.jobs, up.sectors, up.routers) == (db.captives, db.jobs, db.sectors, db.routers)
            && match AutoCreate(up, i, settings, r)
               case None => true
               case Some(db1) =>
                 (db1.captives, db1.jobs, db1.sectors, db1.routers) == (db.captives, db.jobs, db.sectors, db.routers)
  {
  }

  lemma CaptiveMade(db: Db, settings: Settings, r: Request, password: string)
    ensures var db' := CaptiveStep(db, settings, r, password);
            var user := "onu_" + LowerAll(Without(NormalizeMac(r.mac), ':'));
            var known := r.sector != "" && r.sector in db.sectors && db.sectors[r.sector] in db.routers;
            if settings.autoCaptive && forall c :: c in db.captives ==> c.user != user then
              && db'.captives == db.captives + [Captive(user, password,
                   if settings.captiveProfile == "" then "default" else settings.captiveProfile,
                   if known then Some(db.routers[db.sectors[r.sector]]) else None)]
              && db'.jobs == db.jobs + if settings.autoProvision && known
                   then [CaptiveJob(|db.captives|, db.sectors[r.sector], db.routers[db.sectors[r.sector]])] else []
            else db'.captives == db.captives && db'.jobs == db.jobs
  {
  }

  // A captive user comes exactly where that is on, the call was not refused and nobody has
  // the name; its job comes where a router is known and provisioning is on.
  lemma CaptiveRule(db: Db, settings: Settings, r: Request, now: nat, password: string)
    ensures var (db', reply) := Onboard(db, settings, r, now, password);
            var user := "onu_" + LowerAll(Without(NormalizeMac(r.mac), ':'));
            var known := r.sector != "" && r.sector in db.sectors && db.sectors[r.sector] in db.routers;
            if reply == Okay && settings.autoCaptive && forall c :: c in db.captives ==> c.user != user then
              && db'.captives == db.captives + [Captive(user, password,
                   if settings.captiveProfile == "" then "default" else settings.captiveProfile,
                   if known then Some(db.routers[db.sectors[r.sector]]) else None)]
              && db'.jobs == db.jobs + if settings.autoProvision && known
                   then [CaptiveJob(|db.captives|, db.sectors[r.sector], db.routers[db.sectors[r.sector]])] else []
            else db'.captives == db.captives && db'.jobs == db.jobs
  {
    var (up, i) := Upsert(db, r, now);
    CaptivesWait(db, settings, r, now);
    var created := AutoCreate(up, i, settings, r);
    if r.mac != "" && created.Some? { CaptiveMade(created.value, settings, r, password); }
  }
}
