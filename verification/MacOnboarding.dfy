/**
  The call a router makes for every DHCP lease: one access profile per MAC, on demand one
  subscription per profile and one captive user per MAC.
 */
module MacOnboarding {
  import opened Basics
  import opened Text

  datatype Profile = Profile(
    mac: string, sector: Option<nat>, plan: Option<nat>, partner: Option<nat>, sub: Option<nat>,
    online: bool, ip: string, seen: nat, host: string)
  datatype AutoSub = AutoSub(partner: nat, plan: nat, sector: nat, mac: string, ip: string, router: Option<nat>)
  datatype Captive = Captive(user: string, password: string, profile: string, router: Option<nat>)
  datatype CaptiveJob = CaptiveJob(captive: nat, sector: nat, router: nat)

  // partners counts the partner records; sectors and routers are found by code and sector.
  datatype Db = Db(sectors: map<string, nat>, routers: map<nat, nat>, profiles: seq<Profile>, partners: nat,
                   subs: seq<AutoSub>, captives: seq<Captive>, jobs: seq<CaptiveJob>)

  datatype Settings = Settings(autoCreate: bool, defaultPlan: Option<nat>, autoCaptive: bool,
                               captiveProfile: string, autoProvision: bool)

  datatype Request = Request(mac: string, ip: string, bound: string, sector: string, host: string)
  datatype Reply = Okay | MacRequired | SectorRequired

  function NormalizeMac(mac: string): string {
    UpperAll(Strip(mac))
  }

  function FindProfile(profiles: seq<Profile>, mac: string): (i: nat)
    ensures i <= |profiles|
    ensures i < |profiles| ==> profiles[i].mac == mac
    ensures forall k :: 0 <= k < i ==> profiles[k].mac != mac
  {
    if profiles == [] then 0
    else if profiles[0].mac == mac then 0
    else
      var i := FindProfile(profiles[1..], mac);
      assert forall k :: 1 <= k < 1 + i ==> profiles[k] == profiles[1..][k - 1];
      1 + i
  }

  function SectorOf(db: Db, code: string): Option<nat> {
    if code != "" && code in db.sectors then Some(db.sectors[code]) else None
  }

  function RouterOf(db: Db, sector: Option<nat>): Option<nat> {
    if sector.Some? && sector.value in db.routers then Some(db.routers[sector.value]) else None
  }

  predicate Offline(bound: string) {
    LowerAll(bound) in {"0", "false", "no"}
  }

  // What every call writes into the profile.
  function Sighted(p: Profile, db: Db, r: Request, now: nat): Profile {
    p.(mac := NormalizeMac(r.mac), sector := SectorOf(db, r.sector), ip := r.ip, seen := now, host := r.host,
       online := !Offline(if r.bound == "" then "1" else r.bound))
  }

  function Upsert(db: Db, r: Request, now: nat): (Db, nat) {
    var i := FindProfile(db.profiles, NormalizeMac(r.mac));
    if i < |db.profiles| then (db.(profiles := db.profiles[i := Sighted(db.profiles[i], db, r, now)]), i)
    else
      var blank := Profile("", None, None, None, None, true, "", 0, "");
      (db.(profiles := db.profiles + [Sighted(blank, db, r, now)]), i)
  }

  // The draft subscription of a profile that has none; None when a sector is missing.
  function AutoCreate(db: Db, i: nat, settings: Settings, r: Request): Option<Db>
    requires i < |db.profiles|
  {
    var p := db.profiles[i];
    if !settings.autoCreate || p.sub.Some? || settings.defaultPlan.None? then Some(db)
    else
      var requested := SectorOf(db, r.sector);
      var sector := if requested.Some? then requested else p.sector;
      if sector.None? then None
      else
        var partner := if p.partner.Some? then p.partner.value else db.partners;
        var sub := AutoSub(partner, settings.defaultPlan.value, sector.value, p.mac, r.ip, RouterOf(db, requested));
        Some(db.(partners := if p.partner.Some? then db.partners else db.partners + 1,
                 subs := db.subs + [sub],
                 profiles := db.profiles[i := p.(partner := Some(partner), sub := Some(|db.subs|),
                                                 plan := settings.defaultPlan)]))
  }

  function Without(s: string, c: char): string {
    if s == "" then "" else (if s[0] == c then "" else [s[0]]) + Without(s[1..], c)
  }

  function UserName(mac: string): string {
    "onu_" + LowerAll(Without(mac, ':'))
  }

  function HasUser(captives: seq<Captive>, user: string): bool {
    exists c :: c in captives && c.user == user
  }

  function CaptiveStep(db: Db, settings: Settings, r: Request, password: string): Db {
    var user := UserName(NormalizeMac(r.mac));
    if !settings.autoCaptive || HasUser(db.captives, user) then db
    else
      var sector := SectorOf(db, r.sector);
      var router := RouterOf(db, sector);
      var profile := if settings.captiveProfile != "" then settings.captiveProfile else "default";
      db.(captives := db.captives + [Captive(user, password, profile, router)],
          jobs := if settings.autoProvision && router.Some?
                  then db.jobs + [CaptiveJob(|db.captives|, sector.value, router.value)] else db.jobs)
  }

  function Onboard(db: Db, settings: Settings, r: Request, now: nat, password: string): (Db, Reply) {
    if r.mac == "" then (db, MacRequired)
    else
      var (db1, i) := Upsert(db, r, now);
      var created := AutoCreate(db1, i, settings, r);
      if created.None? then (db1, SectorRequired)
      else (CaptiveStep(created.value, settings, r, password), Okay)
  }

  /* The controller */

  class Controller {
    var db: Db

    constructor (db: Db)
      ensures this.db == db
    {
      this.db := db;
    }

    method UpsertProfile(r: Request, now: nat) returns (i: nat)
      modifies this
      ensures (db, i) == Upsert(old(db), r, now) && i < |db.profiles|
    {
      i := FindProfile(db.profiles, NormalizeMac(r.mac));
      if i < |db.profiles| {
        db := db.(profiles := db.profiles[i := Sighted(db.profiles[i], db, r, now)]);
      } else {
        var blank := Profile("", None, None, None, None, true, "", 0, "");
        db := db.(profiles := db.profiles + [Sighted(blank, db, r, now)]);
      }
    }

    method EnsureSubscription(i: nat, settings: Settings, r: Request) returns (refused: bool)
      requires i < |db.profiles|
      modifies this
      ensures refused <==> AutoCreate(old(db), i, settings, r).None?
      ensures db == if refused then old(db) else AutoCreate(old(db), i, settings, r).value
    {
      refused := false;
      if settings.autoCreate && db.profiles[i].sub == None && settings.defaultPlan.Some? {
        ghost var profiles := db.profiles;
        var sector := SectorOf(db, r.sector);
        var chosen := if sector.Some? then sector else db.profiles[i].sector;
        if chosen == None { return true; }
        var partner := db.partners;
        if db.profiles[i].partner.Some? {
          partner := db.profiles[i].partner.value;
        } else {
          db := db.(partners := db.partners + 1,
                    profiles := db.profiles[i := db.profiles[i].(partner := Some(partner))]);
        }
        var sub := AutoSub(partner, settings.defaultPlan.value, chosen.value, db.profiles[i].mac, r.ip,
                           RouterOf(db, sector));
        db := db.(subs := db.subs + [sub]);
        db := db.(profiles := db.profiles[i := db.profiles[i].(sub := Some(|db.subs| - 1),
                                                               plan := settings.defaultPlan)]);
        assert db.profiles == profiles[i := db.profiles[i]];
      }
    }

    method EnsureCaptive(settings: Settings, r: Request, password: string)
      modifies this
      ensures db == CaptiveStep(old(db), settings, r, password)
    {
      var user, sector := UserName(NormalizeMac(r.mac)), SectorOf(db, r.sector);
      if settings.autoCaptive && !HasUser(db.captives, user) {
        var router := RouterOf(db, sector);
        var profile := if settings.captiveProfile != "" then settings.captiveProfile else "default";
        db := db.(captives := db.captives + [Captive(user, password, profile, router)]);
        if settings.autoProvision && router.Some? {
          db := db.(jobs := db.jobs + [CaptiveJob(|db.captives| - 1, sector.value, router.value)]);
        }
      }
    }

    method Handle(settings: Settings, r: Request, now: nat, password: string) returns (reply: Reply)
      modifies this
      ensures (db, reply) == Onboard(old(db), settings, r, now, password)
    {
      if r.mac == "" { return MacRequired; }
      var i := UpsertProfile(r, now);
      var refused := EnsureSubscription(i, settings, r);
      if refused { return SectorRequired; }
      EnsureCaptive(settings, r, password);
      reply := Okay;
    }
  }

  /* One of each */

  ghost predicate Owned(profiles: seq<Profile>, s: nat) {
    exists i :: 0 <= i < |profiles| && profiles[i].sub == Some(s)
  }

  // Profiles have different MACs, automatic subscriptions belong to one profile each,
  // captive users have different names.
  ghost predicate Single(db: Db) {
    && (forall i, k :: 0 <= i < k < |db.profiles| ==> db.profiles[i].mac != db.profiles[k].mac)
    && (forall i :: 0 <= i < |db.profiles| && db.profiles[i].sub.Some? ==>
          db.profiles[i].sub.value < |db.subs| && db.subs[db.profiles[i].sub.value].mac == db.profiles[i].mac)
    && (forall s :: 0 <= s < |db.subs| ==> Owned(db.profiles, s))
    && (forall i, k :: 0 <= i < k < |db.captives| ==> db.captives[i].user != db.captives[k].user)
  }

  lemma UpsertSingle(db: Db, r: Request, now: nat)
    requires Single(db)
    ensures var (db1, i) := Upsert(db, r, now);
            Single(db1) && i < |db1.profiles| && db1.profiles[i].mac == NormalizeMac(r.mac)
  {
    var (db1, i) := Upsert(db, r, now);
    forall s | 0 <= s < |db1.subs| ensures Owned(db1.profiles, s) {
      assert Owned(db.profiles, s);
      var k :| 0 <= k < |db.profiles| && db.profiles[k].sub == Some(s);
      assert db1.profiles[k].sub == Some(s);
    }
  }

  lemma AutoCreateSingle(db: Db, i: nat, settings: Settings, r: Request)
    requires Single(db) && i < |db.profiles| && AutoCreate(db, i, settings, r).Some?
    ensures Single(AutoCreate(db, i, settings, r).value)
    ensures forall k :: 0 <= k < |db.profiles| ==>
              AutoCreate(db, i, settings, r).value.profiles[k].mac == db.profiles[k].mac
  {
    var db1 := AutoCreate(db, i, settings, r).value;
    forall s | 0 <= s < |db1.subs| ensures Owned(db1.profiles, s) {
      if s < |db.subs| {
        assert Owned(db.profiles, s);
        var k :| 0 <= k < |db.profiles| && db.profiles[k].sub == Some(s);
        assert db1.profiles[k].sub == Some(s);
      } else {
        assert db1.profiles[i].sub == Some(s);
      }
    }
  }

  lemma CaptiveSingle(db: Db, settings: Settings, r: Request, password: string)
    requires Single(db)
    ensures Single(CaptiveStep(db, settings, r, password))
  {
    var db' := CaptiveStep(db, settings, r, password);
    assert db'.profiles == db.profiles && db'.subs == db.subs;
  }

  // Every call keeps one profile per MAC, one automatic subscription per profile and one
  // captive user per name; afterwards the caller's MAC has its profile.
  lemma OnboardSingle(db: Db, settings: Settings, r: Request, now: nat, password: string)
    requires Single(db)
    ensures var db' := Onboard(db, settings, r, now, password).0;
            && Single(db')
            && (r.mac != "" ==> FindProfile(db'.profiles, NormalizeMac(r.mac)) < |db'.profiles|)
  {
    if r.mac != "" {
      var (db1, i) := Upsert(db, r, now);
      UpsertSingle(db, r, now);
      var created := AutoCreate(db1, i, settings, r);
      if created.Some? {
        AutoCreateSingle(db1, i, settings, r);
        CaptiveSingle(created.value, settings, r, password);
        assert created.value.profiles[i].mac == NormalizeMac(r.mac);
      }
    }
  }

  datatype Call = Call(settings: Settings, request: Request, now: nat, password: string)

  function AfterCalls(db: Db, calls: seq<Call>): Db
    decreases |calls|
  {
    if calls == [] then db
    else AfterCalls(Onboard(db, calls[0].settings, calls[0].request, calls[0].now, calls[0].password).0, calls[1..])
  }

  // Over any sequence of calls.
  lemma {:induction false} AlwaysSingle(db: Db, calls: seq<Call>)
    requires Single(db)
    ensures Single(AfterCalls(db, calls))
    decreases |calls|
  {
    if calls == [] {
    } else {
      var c := calls[0];
      OnboardSingle(db, c.settings, c.request, c.now, c.password);
      AlwaysSingle(Onboard(db, c.settings, c.request, c.now, c.password).0, calls[1..]);
    }
  }

  // So no MAC ever gets a second automatic subscription.
  lemma OneSubscriptionPerMac(db: Db, s: nat, t: nat)
    requires Single(db) && s < |db.subs| && t < |db.subs| && db.subs[s].mac == db.subs[t].mac
    ensures s == t
  {
    assert Owned(db.profiles, s) && Owned(db.profiles, t);
    var i :| 0 <= i < |db.profiles| && db.profiles[i].sub == Some(s);
    var k :| 0 <= k < |db.profiles| && db.profiles[k].sub == Some(t);
  }

  /* Repeating a call */

  // The records with one profile's time of last sight changed.
  function SeenAt(db: Db, i: nat, now: nat): Db
    requires i < |db.profiles|
  {
    db.(profiles := db.profiles[i := db.profiles[i].(seen := now)])
  }

  lemma FindUnique(profiles: seq<Profile>, mac: string, i: nat)
    requires i < |profiles| && profiles[i].mac == mac && forall k :: 0 <= k < i ==> profiles[k].mac != mac
    ensures FindProfile(profiles, mac) == i
  {
  }

  // After the first step the profile is found where it was put, and stays there.
  lemma UpsertFinds(db: Db, r: Request, now: nat)
    ensures var (db1, i) := Upsert(db, r, now);
            && i < |db1.profiles| && db1.profiles[i].mac == NormalizeMac(r.mac)
            && (forall k :: 0 <= k < i ==> db1.profiles[k].mac != NormalizeMac(r.mac))
            && Sighted(db1.profiles[i], db1, r, now) == db1.profiles[i]
  {
  }

  lemma SightAgain(db: Db, r: Request, i: nat, now: nat, later: nat)
    requires i < |db.profiles| && db.profiles[i].mac == NormalizeMac(r.mac)
    requires forall k :: 0 <= k < i ==> db.profiles[k].mac != NormalizeMac(r.mac)
    requires Sighted(db.profiles[i], db, r, now) == db.profiles[i]
    ensures FindProfile(db.profiles, NormalizeMac(r.mac)) == i && Upsert(db, r, later) == (SeenAt(db, i, later), i)
  {
    FindUnique(db.profiles, NormalizeMac(r.mac), i);
  }

  lemma CreatedOnce(db: Db, i: nat, settings: Settings, r: Request, later: nat)
    requires i < |db.profiles|
    ensures match AutoCreate(db, i, settings, r)
            case None => AutoCreate(SeenAt(db, i, later), i, settings, r) == None
            case Some(db1) =>
              && i < |db1.profiles| && db1.sectors == db.sectors
              && db1.profiles == db.profiles[i := db.profiles[i].(partner := db1.profiles[i].partner,
                                                   sub := db1.profiles[i].sub, plan := db1.profiles[i].plan)]
              && AutoCreate(SeenAt(db1, i, later), i, settings, r) == Some(SeenAt(db1, i, later))
  {
  }

  // A repeated call gets the same reply and changes only the time of last sight.
  lemma RepeatChangesOnlyTime(db: Db, settings: Settings, r: Request, now: nat, later: nat, password: string,
                              password': string)
    requires r.mac != ""
    ensures var (db1, reply) := Onboard(db, settings, r, now, password);
            var i := FindProfile(db1.profiles, NormalizeMac(r.mac));
            i < |db1.profiles| && Onboard(db1, settings, r, later, password') == (SeenAt(db1, i, later), reply)
  {
    var (up, i) := Upsert(db, r, now);
    var created := AutoCreate(up, i, settings, r);
    UpsertFinds(db, r, now);
    CreatedOnce(up, i, settings, r, later);
    if created.None? {
      SightAgain(up, r, i, now, later);
    } else {
      RepeatAfterCreate(created.value, i, settings, r, now, later, password, password');
    }
  }

  lemma RepeatAfterCreate(db: Db, i: nat, settings: Settings, r: Request, now: nat, later: nat, password: string,
                          password': string)
    requires i < |db.profiles| && db.profiles[i].mac == NormalizeMac(r.mac) && r.mac != ""
    requires forall k :: 0 <= k < i ==> db.profiles[k].mac != NormalizeMac(r.mac)
    requires Sighted(db.profiles[i], db, r, now) == db.profiles[i]
    requires AutoCreate(SeenAt(db, i, later), i, settings, r) == Some(SeenAt(db, i, later))
    ensures var db1 := CaptiveStep(db, settings, r, password);
            FindProfile(db1.profiles, NormalizeMac(r.mac)) == i
            && Onboard(db1, settings, r, later, password') == (SeenAt(db1, i, later), Okay)
  {
    var db1 := CaptiveStep(db, settings, r, password);
    CaptiveOnce(db, settings, r, password);
    SightAgain(db1, r, i, now, later);
    assert AutoCreate(SeenAt(db1, i, later), i, settings, r) == Some(SeenAt(db1, i, later));
    assert CaptiveStep(SeenAt(db1, i, later), settings, r, password') == SeenAt(db1, i, later);
  }

  lemma CaptiveOnce(db: Db, settings: Settings, r: Request, password: string)
    ensures settings.autoCaptive ==>
              HasUser(CaptiveStep(db, settings, r, password).captives, UserName(NormalizeMac(r.mac)))
  {
    var db' := CaptiveStep(db, settings, r, password);
    if settings.autoCaptive && !HasUser(db.captives, UserName(NormalizeMac(r.mac))) {
      assert db'.captives[|db.captives|] in db'.captives;
    }
  }

  // The sector an earlier call left on the profile never helps: a call without a known
  // sector that would have to create a subscription is refused and creates none.
  lemma OldSectorNeverRescues(db: Db, settings: Settings, r: Request, now: nat, password: string)
    requires r.mac != "" && SectorOf(db, r.sector) == None
    ensures var i := FindProfile(db.profiles, NormalizeMac(r.mac));
            var wanted := settings.autoCreate && settings.defaultPlan.Some?
                && (i == |db.profiles| || db.profiles[i].sub == None);
            var (db', reply) := Onboard(db, settings, r, now, password);
            && (reply == SectorRequired <==> wanted)
            && db'.subs == db.subs && db'.partners == db.partners
  {
  }

  /* Captive user names */

  predicate Normalized(mac: string) {
    forall i :: 0 <= i < |mac| ==> !('a' <= mac[i] <= 'z')
  }

  lemma NormalizeNormalizes(mac: string)
    ensures Normalized(NormalizeMac(mac))
  {
  }

  lemma LowerInjective(a: string, b: string)
    requires Normalized(a) && Normalized(b) && LowerAll(a) == LowerAll(b)
    ensures a == b
  {
    assert |LowerAll(a)| == |a| && |LowerAll(b)| == |b|;
    forall i | 0 <= i < |a| ensures a[i] == b[i] {
      assert LowerAll(a)[i] == LowerAll(b)[i];
    }
  }

  lemma {:induction false} WithoutNormalized(mac: string, c: char)
    requires Normalized(mac)
    ensures Normalized(Without(mac, c))
  {
    if mac == "" {
    } else {
      WithoutNormalized(mac[1..], c);
    }
  }

  // Two MACs, as they come in, share a captive user exactly when their normal forms differ
  // in colons only.
  lemma SameUserIff(a: string, b: string)
    ensures UserName(NormalizeMac(a)) == UserName(NormalizeMac(b))
            <==> Without(NormalizeMac(a), ':') == Without(NormalizeMac(b), ':')
  {
    var m, n := NormalizeMac(a), NormalizeMac(b);
    if UserName(m) == UserName(n) {
      assert UserName(m)[4..] == LowerAll(Without(m, ':')) && UserName(n)[4..] == LowerAll(Without(n, ':'));
      NormalizeNormalizes(a);
      NormalizeNormalizes(b);
      WithoutNormalized(m, ':');
      WithoutNormalized(n, ':');
      LowerInjective(Without(m, ':'), Without(n, ':'));
    }
  }

  // Colons at every third place and nowhere else.
  predicate Spaced(mac: string, offset: nat) {
    forall i :: 0 <= i < |mac| ==> (mac[i] == ':' <==> (i + offset) % 3 == 2)
  }

  predicate WellFormed(mac: string) {
    |mac| == 17 && Spaced(mac, 0)
  }

  lemma {:induction false} SpacedInjective(a: string, b: string, offset: nat)
    requires |a| == |b| && Spaced(a, offset) && Spaced(b, offset) && Without(a, ':') == Without(b, ':')
    ensures a == b
  {
    if a == "" {
    } else {
      assert Spaced(a[1..], offset + 1) && Spaced(b[1..], offset + 1);
      assert a[0] == ':' <==> b[0] == ':';
      if a[0] != ':' {
        assert Without(a, ':') == [a[0]] + Without(a[1..], ':') && Without(b, ':') == [b[0]] + Without(b[1..], ':');
        assert Without(a, ':')[1..] == Without(a[1..], ':') && Without(b, ':')[1..] == Without(b[1..], ':');
      } else {
        assert Without(a, ':') == "" + Without(a[1..], ':') == Without(a[1..], ':');
        assert Without(b, ':') == "" + Without(b[1..], ':') == Without(b[1..], ':');
      }
      SpacedInjective(a[1..], b[1..], offset + 1);
      assert a == [a[0]] + a[1..] && b == [b[0]] + b[1..];
    }
  }

  // MACs whose normal forms are well-formed share a captive user exactly when they share a
  // profile: one captive user per MAC.
  lemma UserNameInjective(a: string, b: string)
    requires WellFormed(NormalizeMac(a)) && WellFormed(NormalizeMac(b))
    ensures UserName(NormalizeMac(a)) == UserName(NormalizeMac(b)) <==> NormalizeMac(a) == NormalizeMac(b)
  {
    SameUserIff(a, b);
    if Without(NormalizeMac(a), ':') == Without(NormalizeMac(b), ':') {
      SpacedInjective(NormalizeMac(a), NormalizeMac(b), 0);
    }
  }
}
