/**
 The company-branding cache: a TTL, a lock per tenant, a second freshness check under the lock.

 A run is a sequence of `Event`s: stretches of readers between two awaits, commits and
 invalidations by the settings page, and time passing. An event that is not enabled changes
 nothing. `loads`, `commits` and `pops` record history.
 */
module CompanyCache {
  import opened Wrappers

  const CACHE_TTL_SECONDS := 300.0

  type Tenant = string

  /** `overrides` stands for the per-department script dictionary. */
  datatype Branding =
    Branding(name: string, tagline: string, website: string, script: string, overrides: map<string, string>)

  /** A settings row; a missing row is created from the configuration. */
  type Row = Branding

  function Or(a: string, b: string): string {
    if a != "" then a else b
  }

  function Fallback(cfg: Branding): Branding {
    cfg.(overrides := map[])
  }

  /** What `_load_from_db` makes of the row it reads. */
  function FromRow(cfg: Branding, row: Option<Row>): Branding {
    match row
    case None => Fallback(cfg)
    case Some(r) =>
      Branding(Or(r.name, cfg.name), Or(r.tagline, cfg.tagline), Or(r.website, cfg.website),
               Or(r.script, cfg.script), r.overrides)
  }

  // ----- the cache as a value

  datatype Entry = Entry(value: Branding, loadedAt: real, load: nat)

  type Cache = map<Tenant, Entry>

  predicate IsFresh(cache: Cache, tenant: Tenant, now: real) {
    tenant in cache && now - cache[tenant].loadedAt < CACHE_TTL_SECONDS
  }

  function Pop(cache: Cache, tenant: Tenant): Cache {
    cache - {tenant}
  }

  // ----- the protocol

  datatype Commit = Commit(tenant: Tenant, row: Row, time: real)

  /** A database read: `seen` commits had happened, `ok` says it did not fail. */
  datatype DbRead = DbRead(time: real, value: Branding, seen: nat, ok: bool)

  datatype StoreRec = StoreRec(time: real, pops: nat)

  datatype Load = Load(tenant: Tenant, start: real, startPop: nat, read: Option<DbRead>, stored: Option<StoreRec>)

  datatype ReaderState =
    | Waiting
    | Loading(load: nat)
    | Returned(value: Branding, load: nat, at: real, seen: nat)
    | Gone

  datatype Reader = Reader(tenant: Tenant, st: ReaderState)

  datatype Sys = Sys(
    cfg: Branding,
    now: real,
    cache: Cache,
    holder: map<Tenant, nat>,
    readers: seq<Reader>,
    loads: seq<Load>,
    commits: seq<Commit>,
    pops: seq<Tenant>)

  function Start(cfg: Branding, now: real): Sys {
    Sys(cfg, now, map[], map[], [], [], [], [])
  }

  /** The committed row of a tenant after the first n commits. */
  function RowAt(commits: seq<Commit>, tenant: Tenant, n: nat): Option<Row>
    requires n <= |commits|
  {
    if n == 0 then None
    else if commits[n - 1].tenant == tenant then Some(commits[n - 1].row)
    else RowAt(commits, tenant, n - 1)
  }

  /** What a direct load returns when n commits have happened. */
  function DirectLoad(cfg: Branding, commits: seq<Commit>, tenant: Tenant, n: nat): Branding
    requires n <= |commits|
  {
    FromRow(cfg, RowAt(commits, tenant, n))
  }

  datatype Event =
    | Get(tenant: Tenant)
    | Enter(reader: nat)
    | Query(reader: nat, ok: bool)
    | Store(reader: nat)
    | Abort(reader: nat)
    | Save(tenant: Tenant, row: Row)
    | Invalidate(tenant: Tenant)
    | Advance(dt: real)

  function SetReader(s: Sys, r: nat, st: ReaderState): Sys
    requires r < |s.readers|
  {
    s.(readers := s.readers[r := s.readers[r].(st := st)])
  }

  /** What a reader that finds a fresh entry returns. */
  function Hit(s: Sys, tenant: Tenant): ReaderState
    requires tenant in s.cache
  {
    Returned(s.cache[tenant].value, s.cache[tenant].load, s.now, |s.commits|)
  }

  predicate InLoad(s: Sys, r: nat) {
    r < |s.readers| && s.readers[r].st.Loading? && s.readers[r].st.load < |s.loads|
  }

  function Step(s: Sys, e: Event): Sys {
    match e
    case Get(tenant) =>
      s.(readers := s.readers + [Reader(tenant, if IsFresh(s.cache, tenant, s.now) then Hit(s, tenant) else Waiting)])
    case Enter(r) =>
      if r < |s.readers| && s.readers[r].st.Waiting? && s.readers[r].tenant !in s.holder then
        var tenant := s.readers[r].tenant;
        if IsFresh(s.cache, tenant, s.now) then SetReader(s, r, Hit(s, tenant))
        else
          SetReader(s, r, Loading(|s.loads|)).(
            holder := s.holder[tenant := r],
            loads := s.loads + [Load(tenant, s.now, |s.pops|, None, None)])
      else s
    case Query(r, ok) =>
      if InLoad(s, r) && s.loads[s.readers[r].st.load].read == None then
        var l := s.readers[r].st.load;
        var value := if ok then DirectLoad(s.cfg, s.commits, s.readers[r].tenant, |s.commits|) else Fallback(s.cfg);
        s.(loads := s.loads[l := s.loads[l].(read := Some(DbRead(s.now, value, |s.commits|, ok)))])
      else s
    case Store(r) =>
      if InLoad(s, r) && s.loads[s.readers[r].st.load].read.Some? then
        var tenant, l := s.readers[r].tenant, s.readers[r].st.load;
        var value := s.loads[l].read.value.value;
        SetReader(s, r, Returned(value, l, s.now, |s.commits|)).(
          cache := s.cache[tenant := Entry(value, s.now, l)],
          holder := s.holder - {tenant},
          loads := s.loads[l := s.loads[l].(stored := Some(StoreRec(s.now, |s.pops|)))])
      else s
    case Abort(r) =>
      if InLoad(s, r) then SetReader(s, r, Gone).(holder := s.holder - {s.readers[r].tenant})
      else if r < |s.readers| && s.readers[r].st.Waiting? then SetReader(s, r, Gone)
      else s
    case Save(tenant, row) => s.(commits := s.commits + [Commit(tenant, row, s.now)])
    case Invalidate(tenant) => s.(cache := Pop(s.cache, tenant), pops := s.pops + [tenant])
    case Advance(dt) => if dt >= 0.0 then s.(now := s.now + dt) else s
  }

  function RunFrom(s: Sys, es: seq<Event>): Sys {
    if es == [] then s else Step(RunFrom(s, es[..|es| - 1]), es[|es| - 1])
  }

  function Run(cfg: Branding, now: real, es: seq<Event>): Sys {
    RunFrom(Start(cfg, now), es)
  }

  // ----- what one reader gets

  /** A row shows as it is, each empty text replaced by the configured one; no row shows the configuration. */
  lemma FromRowMeaning(cfg: Branding, r: Row)
    ensures FromRow(cfg, Some(r)).name == (if r.name == "" then cfg.name else r.name)
    ensures FromRow(cfg, Some(r)).tagline == (if r.tagline == "" then cfg.tagline else r.tagline)
    ensures FromRow(cfg, Some(r)).website == (if r.website == "" then cfg.website else r.website)
    ensures FromRow(cfg, Some(r)).script == (if r.script == "" then cfg.script else r.script)
    ensures FromRow(cfg, Some(r)).overrides == r.overrides
    ensures FromRow(cfg, None) == Branding(cfg.name, cfg.tagline, cfg.website, cfg.script, map[])
  {
  }

  /** An entry younger than TTL is returned at once, and nothing else changes. */
  lemma FreshEntryIsReturned(s: Sys, tenant: Tenant)
    requires tenant in s.cache && s.now - s.cache[tenant].loadedAt < 300.0
    ensures var hit := Returned(s.cache[tenant].value, s.cache[tenant].load, s.now, |s.commits|);
            Step(s, Get(tenant)) == s.(readers := s.readers + [Reader(tenant, hit)])
  {
  }

  /** One load: the reader takes the lock, reads, stores what it read and returns it. */
  function LoadRun(s: Sys, tenant: Tenant, ok: bool): Sys {
    var r := |s.readers|;
    Step(Step(Step(Step(s, Get(tenant)), Enter(r)), Query(r, ok)), Store(r))
  }

  /** Without a fresh entry, and with the lock free, a reader gets what the database has, and caches it. */
  lemma SoloLoad(s: Sys, tenant: Tenant, ok: bool)
    requires tenant in s.cache ==> s.now - s.cache[tenant].loadedAt >= 300.0
    requires tenant !in s.holder
    ensures var m := LoadRun(s, tenant, ok);
            var value := if ok then FromRow(s.cfg, RowAt(s.commits, tenant, |s.commits|)) else FromRow(s.cfg, None);
            && m.readers == s.readers + [Reader(tenant, Returned(value, |s.loads|, s.now, |s.commits|))]
            && m.cache == s.cache[tenant := Entry(value, s.now, |s.loads|)]
            && m.holder == s.holder && m.commits == s.commits && m.now == s.now && |m.loads| == |s.loads| + 1
  {
    var r := |s.readers|;
    var s1 := Step(s, Get(tenant));
    assert s1.readers == s.readers + [Reader(tenant, Waiting)];
    var s2 := Step(s1, Enter(r));
    assert s2.readers == s.readers + [Reader(tenant, Loading(|s.loads|))] && InLoad(s2, r);
    var s3 := Step(s2, Query(r, ok));
    assert s3.readers == s2.readers && InLoad(s3, r) && s3.loads[|s.loads|].read.Some?;
    assert Step(s3, Store(r)).holder == s.holder;
  }

  /** A reader that waited for the lock finds what the load before it stored, and does not load again. */
  lemma WaiterShares(s: Sys, r: nat)
    requires r < |s.readers| && s.readers[r].st.Waiting? && s.readers[r].tenant !in s.holder
    requires s.readers[r].tenant in s.cache && s.now - s.cache[s.readers[r].tenant].loadedAt < 300.0
    ensures var entry := s.cache[s.readers[r].tenant];
            var hit := s.readers[r].(st := Returned(entry.value, entry.load, s.now, |s.commits|));
            Step(s, Enter(r)) == s.(readers := s.readers[r := hit])
  {
  }

  /** While another reader of the tenant holds the lock, a waiting one goes on waiting. */
  lemma HeldLockBlocks(s: Sys, r: nat)
    requires r < |s.readers| && s.readers[r].st.Waiting? && s.readers[r].tenant in s.holder
    ensures Step(s, Enter(r)) == s
  {
  }

  /** A load that is cancelled stores nothing and gives up the lock. */
  lemma AbortFrees(s: Sys, r: nat)
    requires InLoad(s, r)
    ensures var m := Step(s, Abort(r));
            && m.readers == s.readers[r := s.readers[r].(st := Gone)]
            && m.holder == s.holder - {s.readers[r].tenant} && m.cache == s.cache && m.loads == s.loads
  {
  }

  /** A reader that is cancelled while it waits is gone, and nothing else changes. */
  lemma AbortWaiting(s: Sys, r: nat)
    requires r < |s.readers| && s.readers[r].st.Waiting?
    ensures Step(s, Abort(r)) == s.(readers := s.readers[r := s.readers[r].(st := Gone)])
  {
  }

  /** An invalidation leaves the tenant without an entry and touches no other. */
  lemma InvalidationEmpties(s: Sys, tenant: Tenant)
    ensures var m := Step(s, Invalidate(tenant));
            && tenant !in m.cache
            && (forall t :: t != tenant ==> (t in m.cache <==> t in s.cache))
            && (forall t :: t != tenant && t in s.cache ==> m.cache[t] == s.cache[t])
            && m.readers == s.readers && m.commits == s.commits && m.loads == s.loads && m.holder == s.holder
  {
  }

  /** After TTL no entry of before is fresh. */
  lemma TimeExpires(s: Sys, dt: real, tenant: Tenant)
    requires dt >= 300.0 && (tenant in s.cache ==> s.cache[tenant].loadedAt <= s.now)
    ensures !IsFresh(Step(s, Advance(dt)).cache, tenant, Step(s, Advance(dt)).now)
  {
  }

  // ----- the invariant

  ghost predicate CommitsOk(commits: seq<Commit>, now: real) {
    forall i :: 0 <= i < |commits| ==> commits[i].time <= now
  }

  ghost predicate ReadOk(cfg: Branding, commits: seq<Commit>, now: real, l: Load) {
    l.read.Some? ==>
      var d := l.read.value;
      && l.start <= d.time <= now
      && d.seen <= |commits|
      && d.value == (if d.ok then DirectLoad(cfg, commits, l.tenant, d.seen) else Fallback(cfg))
      && forall i :: d.seen <= i < |commits| ==> d.time <= commits[i].time
  }

  ghost predicate LoadOk(cfg: Branding, commits: seq<Commit>, now: real, pops: nat, l: Load) {
    && l.start <= now && l.startPop <= pops
    && ReadOk(cfg, commits, now, l)
    && (l.stored.Some? ==>
          l.read.Some? && l.read.value.time <= l.stored.value.time <= now && l.stored.value.pops <= pops)
  }

  ghost predicate LoadsOk(s: Sys) {
    forall i :: 0 <= i < |s.loads| ==> LoadOk(s.cfg, s.commits, s.now, |s.pops|, s.loads[i])
  }

  /** The value came from load l, which was stored at time `at`. */
  ghost predicate CameFrom(loads: seq<Load>, tenant: Tenant, value: Branding, l: nat, at: real) {
    && l < |loads| && loads[l].tenant == tenant
    && loads[l].read.Some? && loads[l].read.value.value == value
    && loads[l].stored.Some? && loads[l].stored.value.time == at
  }

  ghost predicate CacheOk(cache: Cache, loads: seq<Load>) {
    forall t :: t in cache ==> CameFrom(loads, t, cache[t].value, cache[t].load, cache[t].loadedAt)
  }

  /** A stored load is either invalidated since or still covered by the entry of its tenant. */
  ghost predicate Covered(l: Load, cache: Cache, pops: seq<Tenant>) {
    l.stored.Some? && l.stored.value.pops <= |pops| ==>
      || l.tenant in pops[l.stored.value.pops..]
      || (l.tenant in cache && cache[l.tenant].loadedAt >= l.stored.value.time)
  }

  ghost predicate StoresCovered(loads: seq<Load>, cache: Cache, pops: seq<Tenant>) {
    forall i :: 0 <= i < |loads| ==> Covered(loads[i], cache, pops)
  }

  ghost predicate LocksOk(readers: seq<Reader>, holder: map<Tenant, nat>) {
    && (forall r :: 0 <= r < |readers| && readers[r].st.Loading? ==>
          readers[r].tenant in holder && holder[readers[r].tenant] == r)
    && (forall t :: t in holder ==>
          holder[t] < |readers| && readers[holder[t]].st.Loading? && readers[holder[t]].tenant == t)
  }

  /** A load in flight is unstored and the latest load of its tenant. */
  ghost predicate InFlight(loads: seq<Load>, tenant: Tenant, l: nat) {
    && l < |loads| && loads[l].tenant == tenant && loads[l].stored == None
    && forall j :: l < j < |loads| ==> loads[j].tenant != tenant
  }

  ghost predicate FlightOk(readers: seq<Reader>, loads: seq<Load>) {
    forall r :: 0 <= r < |readers| && readers[r].st.Loading? ==> InFlight(loads, readers[r].tenant, readers[r].st.load)
  }

  /** A later load of the same tenant starts TTL after a store, unless an invalidation intervened. */
  ghost predicate Spaced(a: Load, b: Load, pops: seq<Tenant>) {
    a.tenant == b.tenant && a.stored.Some? ==>
      && a.stored.value.time <= b.start
      && a.stored.value.pops <= b.startPop <= |pops|
      && (a.tenant !in pops[a.stored.value.pops..b.startPop] ==> b.start - a.stored.value.time >= CACHE_TTL_SECONDS)
  }

  ghost predicate LoadsSpaced(loads: seq<Load>, pops: seq<Tenant>) {
    forall i, j :: 0 <= i < j < |loads| ==> Spaced(loads[i], loads[j], pops)
  }

  /** A returned value came from a load stored less than TTL before, and commits are dated. */
  ghost predicate ReturnOk(loads: seq<Load>, commits: seq<Commit>, now: real, r: Reader) {
    r.st.Returned? ==>
      && r.st.load < |loads| && loads[r.st.load].stored.Some?
      && CameFrom(loads, r.tenant, r.st.value, r.st.load, loads[r.st.load].stored.value.time)
      && r.st.at - loads[r.st.load].stored.value.time < CACHE_TTL_SECONDS
      && loads[r.st.load].stored.value.time <= r.st.at <= now
      && loads[r.st.load].read.value.seen <= r.st.seen <= |commits|
      && DatedBy(commits, r.st.seen, r.st.at)
  }

  /** The first n commits are those up to time t. */
  ghost predicate DatedBy(commits: seq<Commit>, n: nat, t: real) {
    && n <= |commits|
    && (forall i :: 0 <= i < n ==> commits[i].time <= t)
    && (forall i :: n <= i < |commits| ==> t <= commits[i].time)
  }

  ghost predicate ReturnsOk(readers: seq<Reader>, loads: seq<Load>, commits: seq<Commit>, now: real) {
    forall r :: 0 <= r < |readers| ==> ReturnOk(loads, commits, now, readers[r])
  }

  ghost predicate Inv(s: Sys) {
    && CommitsOk(s.commits, s.now)
    && LoadsOk(s)
    && CacheOk(s.cache, s.loads)
    && StoresCovered(s.loads, s.cache, s.pops)
    && LocksOk(s.readers, s.holder)
    && FlightOk(s.readers, s.loads)
    && LoadsSpaced(s.loads, s.pops)
    && ReturnsOk(s.readers, s.loads, s.commits, s.now)
  }

  /** History only gains: what a load has read or stored stays. */
  ghost predicate Extends(a: seq<Load>, b: seq<Load>) {
    && |a| <= |b|
    && forall i :: 0 <= i < |a| ==>
         && b[i].tenant == a[i].tenant && b[i].start == a[i].start && b[i].startPop == a[i].startPop
         && (a[i].read.Some? ==> b[i].read == a[i].read)
         && (a[i].stored.Some? ==> b[i].stored == a[i].stored)
  }

  lemma CacheExtends(cache: Cache, a: seq<Load>, b: seq<Load>)
    requires CacheOk(cache, a) && Extends(a, b)
    ensures CacheOk(cache, b)
  {
  }

  lemma ReturnsExtend(readers: seq<Reader>, a: seq<Load>, b: seq<Load>, commits: seq<Commit>, now: real)
    requires ReturnsOk(readers, a, commits, now) && Extends(a, b)
    ensures ReturnsOk(readers, b, commits, now)
  {
    forall r | 0 <= r < |readers|
      ensures ReturnOk(b, commits, now, readers[r])
    {
      assert ReturnOk(a, commits, now, readers[r]);
    }
  }

  lemma ReturnsUpdate(readers: seq<Reader>, r: nat, reader: Reader, loads: seq<Load>, commits: seq<Commit>, now: real)
    requires ReturnsOk(readers, loads, commits, now) && r < |readers| && ReturnOk(loads, commits, now, reader)
    ensures ReturnsOk(readers[r := reader], loads, commits, now)
  {
  }

  // ----- every step keeps it

  lemma RowAtPrefix(a: seq<Commit>, b: seq<Commit>, tenant: Tenant, n: nat)
    requires n <= |a| && a <= b
    ensures RowAt(a, tenant, n) == RowAt(b, tenant, n)
  {
    if n > 0 {
      assert b[n - 1] == a[n - 1];
    }
  }

  lemma HitOk(s: Sys, tenant: Tenant)
    requires Inv(s) && IsFresh(s.cache, tenant, s.now)
    ensures ReturnOk(s.loads, s.commits, s.now, Reader(tenant, Hit(s, tenant)))
  {
    assert LoadOk(s.cfg, s.commits, s.now, |s.pops|, s.loads[s.cache[tenant].load]);
  }

  lemma GetKeeps(s: Sys, tenant: Tenant)
    requires Inv(s)
    ensures Inv(Step(s, Get(tenant)))
  {
    if IsFresh(s.cache, tenant, s.now) {
      HitOk(s, tenant);
    }
  }

  lemma EnterHitKeeps(s: Sys, r: nat)
    requires Inv(s) && r < |s.readers| && s.readers[r].st.Waiting? && s.readers[r].tenant !in s.holder
    requires IsFresh(s.cache, s.readers[r].tenant, s.now)
    ensures Inv(Step(s, Enter(r)))
  {
    HitOk(s, s.readers[r].tenant);
  }

  /** A stale or missing entry means the last store is TTL ago or was invalidated since. */
  lemma NewLoadSpaced(s: Sys, tenant: Tenant, i: nat)
    requires Inv(s) && !IsFresh(s.cache, tenant, s.now) && i < |s.loads|
    ensures Spaced(s.loads[i], Load(tenant, s.now, |s.pops|, None, None), s.pops)
  {
    assert LoadOk(s.cfg, s.commits, s.now, |s.pops|, s.loads[i]);
    assert Covered(s.loads[i], s.cache, s.pops);
    if s.loads[i].stored.Some? {
      assert s.pops[s.loads[i].stored.value.pops..] == s.pops[s.loads[i].stored.value.pops..|s.pops|];
    }
  }

  lemma NewLoadsSpaced(s: Sys, tenant: Tenant)
    requires Inv(s) && !IsFresh(s.cache, tenant, s.now)
    ensures LoadsSpaced(s.loads + [Load(tenant, s.now, |s.pops|, None, None)], s.pops)
  {
    var loads := s.loads + [Load(tenant, s.now, |s.pops|, None, None)];
    forall i, j | 0 <= i < j < |loads|
      ensures Spaced(loads[i], loads[j], s.pops)
    {
      NewLoadSpaced(s, tenant, i);
    }
  }

  lemma NewFlight(readers: seq<Reader>, holder: map<Tenant, nat>, loads: seq<Load>, r: nat, l: Load)
    requires LocksOk(readers, holder) && FlightOk(readers, loads)
    requires r < |readers| && !readers[r].st.Loading? && readers[r].tenant !in holder
    requires l.tenant == readers[r].tenant && l.stored == None
    ensures var readers' := readers[r := readers[r].(st := Loading(|loads|))];
            LocksOk(readers', holder[l.tenant := r]) && FlightOk(readers', loads + [l])
  {
    var readers' := readers[r := readers[r].(st := Loading(|loads|))];
    forall q | 0 <= q < |readers'| && readers'[q].st.Loading?
      ensures InFlight(loads + [l], readers'[q].tenant, readers'[q].st.load)
    {
      assert q != r ==> InFlight(loads, readers[q].tenant, readers[q].st.load);
    }
  }

  lemma EnterLoadKeeps(s: Sys, r: nat)
    requires Inv(s) && r < |s.readers| && s.readers[r].st.Waiting? && s.readers[r].tenant !in s.holder
    requires !IsFresh(s.cache, s.readers[r].tenant, s.now)
    ensures Inv(Step(s, Enter(r)))
  {
    var l := Load(s.readers[r].tenant, s.now, |s.pops|, None, None);
    var s' := Step(s, Enter(r));
    NewLoadsSpaced(s, l.tenant);
    NewFlight(s.readers, s.holder, s.loads, r, l);
    CacheExtends(s.cache, s.loads, s'.loads);
    ReturnsExtend(s.readers, s.loads, s'.loads, s.commits, s.now);
    ReturnsUpdate(s.readers, r, s'.readers[r], s'.loads, s.commits, s.now);
    assert StoresCovered(s'.loads, s'.cache, s'.pops);
    assert LoadsOk(s');
  }

  lemma SpacedUpdate(loads: seq<Load>, pops: seq<Tenant>, l: nat, x: Load)
    requires LoadsSpaced(loads, pops) && l < |loads|
    requires x.tenant == loads[l].tenant && x.start == loads[l].start && x.startPop == loads[l].startPop
    requires x.stored == loads[l].stored || forall j :: l < j < |loads| ==> loads[j].tenant != x.tenant
    ensures LoadsSpaced(loads[l := x], pops)
  {
    var loads' := loads[l := x];
    forall i, j | 0 <= i < j < |loads'|
      ensures Spaced(loads'[i], loads'[j], pops)
    {
      assert Spaced(loads[i], loads[j], pops);
    }
  }

  lemma QueryKeeps(s: Sys, r: nat, ok: bool)
    requires Inv(s) && InLoad(s, r) && s.loads[s.readers[r].st.load].read == None
    ensures Inv(Step(s, Query(r, ok)))
  {
    var l := s.readers[r].st.load;
    var s' := Step(s, Query(r, ok));
    SpacedUpdate(s.loads, s.pops, l, s'.loads[l]);
    CacheExtends(s.cache, s.loads, s'.loads);
    ReturnsExtend(s.readers, s.loads, s'.loads, s.commits, s.now);
    QueryLoadOk(s, r, ok);
    QueryFlight(s.readers, s.loads, l, s'.loads[l]);
    assert StoresCovered(s'.loads, s'.cache, s'.pops);
  }

  lemma QueryLoadOk(s: Sys, r: nat, ok: bool)
    requires Inv(s) && InLoad(s, r) && s.loads[s.readers[r].st.load].read == None
    ensures LoadsOk(Step(s, Query(r, ok)))
  {
    var l := s.readers[r].st.load;
    assert InFlight(s.loads, s.readers[r].tenant, l);
    assert LoadOk(s.cfg, s.commits, s.now, |s.pops|, s.loads[l]);
  }

  lemma QueryFlight(readers: seq<Reader>, loads: seq<Load>, l: nat, x: Load)
    requires FlightOk(readers, loads) && l < |loads|
    requires x.tenant == loads[l].tenant && x.stored == loads[l].stored
    ensures FlightOk(readers, loads[l := x])
  {
    forall q | 0 <= q < |readers| && readers[q].st.Loading?
      ensures InFlight(loads[l := x], readers[q].tenant, readers[q].st.load)
    {
      assert InFlight(loads, readers[q].tenant, readers[q].st.load);
    }
  }

  lemma StoreKeeps(s: Sys, r: nat)
    requires Inv(s) && InLoad(s, r) && s.loads[s.readers[r].st.load].read.Some?
    ensures Inv(Step(s, Store(r)))
  {
    var l := s.readers[r].st.load;
    var s' := Step(s, Store(r));
    assert InFlight(s.loads, s.readers[r].tenant, l);
    assert LoadOk(s.cfg, s.commits, s.now, |s.pops|, s.loads[l]);
    SpacedUpdate(s.loads, s.pops, l, s'.loads[l]);
    CacheExtends(s.cache, s.loads, s'.loads);
    ReturnsExtend(s.readers, s.loads, s'.loads, s.commits, s.now);
    ReturnsUpdate(s.readers, r, s'.readers[r], s'.loads, s.commits, s.now);
    StoreFlight(s, r);
    StoreCovers(s, r);
    assert LoadsOk(s');
  }

  lemma StoreFlight(s: Sys, r: nat)
    requires Inv(s) && InLoad(s, r) && s.loads[s.readers[r].st.load].read.Some?
    ensures LocksOk(Step(s, Store(r)).readers, Step(s, Store(r)).holder)
    ensures FlightOk(Step(s, Store(r)).readers, Step(s, Store(r)).loads)
  {
    var s' := Step(s, Store(r));
    forall q | 0 <= q < |s'.readers| && s'.readers[q].st.Loading?
      ensures InFlight(s'.loads, s'.readers[q].tenant, s'.readers[q].st.load)
    {
      assert InFlight(s.loads, s.readers[q].tenant, s.readers[q].st.load);
      assert s.readers[q].tenant != s.readers[r].tenant;
    }
  }

  lemma StoreCovers(s: Sys, r: nat)
    requires Inv(s) && InLoad(s, r) && s.loads[s.readers[r].st.load].read.Some?
    ensures StoresCovered(Step(s, Store(r)).loads, Step(s, Store(r)).cache, s.pops)
  {
    var s' := Step(s, Store(r));
    forall i | 0 <= i < |s'.loads|
      ensures Covered(s'.loads[i], s'.cache, s.pops)
    {
      assert Covered(s.loads[i], s.cache, s.pops);
      assert LoadOk(s.cfg, s.commits, s.now, |s.pops|, s.loads[i]);
    }
  }

  lemma AbortKeeps(s: Sys, r: nat)
    requires Inv(s)
    ensures Inv(Step(s, Abort(r)))
  {
    if r < |s.readers| && (InLoad(s, r) || s.readers[r].st.Waiting?) {
      ReturnsUpdate(s.readers, r, s.readers[r].(st := Gone), s.loads, s.commits, s.now);
      AbortFlight(s.readers, s.holder, s.loads, r);
    }
  }

  lemma AbortFlight(readers: seq<Reader>, holder: map<Tenant, nat>, loads: seq<Load>, r: nat)
    requires LocksOk(readers, holder) && FlightOk(readers, loads) && r < |readers|
    ensures var readers' := readers[r := readers[r].(st := Gone)];
            && LocksOk(readers', if readers[r].st.Loading? then holder - {readers[r].tenant} else holder)
            && FlightOk(readers', loads)
  {
  }

  lemma SaveKeeps(s: Sys, tenant: Tenant, row: Row)
    requires Inv(s)
    ensures Inv(Step(s, Save(tenant, row)))
  {
    var s' := Step(s, Save(tenant, row));
    forall i | 0 <= i < |s.loads|
      ensures LoadOk(s'.cfg, s'.commits, s'.now, |s'.pops|, s'.loads[i])
    {
      assert LoadOk(s.cfg, s.commits, s.now, |s.pops|, s.loads[i]);
      if s.loads[i].read.Some? {
        RowAtPrefix(s.commits, s'.commits, s.loads[i].tenant, s.loads[i].read.value.seen);
      }
    }
    assert forall r :: 0 <= r < |s.readers| ==> ReturnOk(s.loads, s.commits, s.now, s.readers[r]);
  }

  lemma InvalidateKeeps(s: Sys, tenant: Tenant)
    requires Inv(s)
    ensures Inv(Step(s, Invalidate(tenant)))
  {
    var s' := Step(s, Invalidate(tenant));
    forall i | 0 <= i < |s.loads|
      ensures Covered(s.loads[i], s'.cache, s'.pops)
    {
      assert Covered(s.loads[i], s.cache, s.pops);
      assert LoadOk(s.cfg, s.commits, s.now, |s.pops|, s.loads[i]);
      if s.loads[i].stored.Some? {
        var n := s.loads[i].stored.value.pops;
        assert s'.pops[n..] == s.pops[n..] + [tenant];
      }
    }
    forall i, j | 0 <= i < j < |s.loads|
      ensures Spaced(s.loads[i], s.loads[j], s'.pops)
    {
      assert Spaced(s.loads[i], s.loads[j], s.pops);
      if s.loads[i].tenant == s.loads[j].tenant && s.loads[i].stored.Some? {
        var m, n := s.loads[i].stored.value.pops, s.loads[j].startPop;
        assert s'.pops[m..n] == s.pops[m..n];
      }
    }
  }

  lemma AdvanceKeeps(s: Sys, dt: real)
    requires Inv(s)
    ensures Inv(Step(s, Advance(dt)))
  {
    if dt >= 0.0 {
      var s' := Step(s, Advance(dt));
      assert forall i :: 0 <= i < |s.loads| ==> LoadOk(s.cfg, s.commits, s.now, |s.pops|, s.loads[i]);
      assert forall r :: 0 <= r < |s.readers| ==> ReturnOk(s.loads, s.commits, s.now, s.readers[r]);
    }
  }

  lemma StepKeeps(s: Sys, e: Event)
    requires Inv(s)
    ensures Inv(Step(s, e))
  {
    match e
    case Get(tenant) => GetKeeps(s, tenant);
    case Enter(r) =>
      if r < |s.readers| && s.readers[r].st.Waiting? && s.readers[r].tenant !in s.holder {
        if IsFresh(s.cache, s.readers[r].tenant, s.now) {
          EnterHitKeeps(s, r);
        } else {
          EnterLoadKeeps(s, r);
        }
      }
    case Query(r, ok) =>
      if InLoad(s, r) && s.loads[s.readers[r].st.load].read == None {
        QueryKeeps(s, r, ok);
      }
    case Store(r) =>
      if InLoad(s, r) && s.loads[s.readers[r].st.load].read.Some? {
        StoreKeeps(s, r);
      }
    case Abort(r) => AbortKeeps(s, r);
    case Save(tenant, row) => SaveKeeps(s, tenant, row);
    case Invalidate(tenant) => InvalidateKeeps(s, tenant);
    case Advance(dt) => AdvanceKeeps(s, dt);
  }

  lemma {:induction false} RunFromKeeps(s: Sys, es: seq<Event>)
    requires Inv(s)
    ensures Inv(RunFrom(s, es))
  {
    if es != [] {
      RunFromKeeps(s, es[..|es| - 1]);
      StepKeeps(RunFrom(s, es[..|es| - 1]), es[|es| - 1]);
    }
  }

  // ----- bounded staleness

  /** How long the load took, from taking the lock to storing. */
  function Duration(l: Load): real
    requires l.stored.Some?
  {
    l.stored.value.time - l.start
  }

  lemma RowAtUntouched(commits: seq<Commit>, tenant: Tenant, m: nat, n: nat)
    requires m <= n <= |commits|
    requires forall i :: m <= i < n ==> commits[i].tenant != tenant
    ensures RowAt(commits, tenant, m) == RowAt(commits, tenant, n)
  {
  }

  /**
   Every value ever returned came from a load whose database read was later than
   t - TTL - (that load's duration); if no commit to the tenant fell in that window, it is what a
   direct load at time t would give, or the configuration fallback of a failed read.
   */
  lemma BoundedStaleness(cfg: Branding, now: real, es: seq<Event>, r: nat)
    requires r < |Run(cfg, now, es).readers| && Run(cfg, now, es).readers[r].st.Returned?
    ensures var s := Run(cfg, now, es);
            var Returned(value, l, t, seen) := s.readers[r].st;
            && l < |s.loads| && s.loads[l].tenant == s.readers[r].tenant
            && s.loads[l].stored.Some? && s.loads[l].read.Some?
            && value == s.loads[l].read.value.value
            && t - CACHE_TTL_SECONDS - Duration(s.loads[l]) < s.loads[l].read.value.time <= t
            && DatedBy(s.commits, seen, t)
            && ((forall i :: 0 <= i < |s.commits| && s.commits[i].tenant == s.readers[r].tenant ==>
                   !(t - CACHE_TTL_SECONDS - Duration(s.loads[l]) < s.commits[i].time <= t))
                ==> value == if s.loads[l].read.value.ok
                             then DirectLoad(cfg, s.commits, s.readers[r].tenant, seen) else Fallback(cfg))
  {
    RunFromKeeps(Start(cfg, now), es);
    CfgKept(Start(cfg, now), es);
    var s := Run(cfg, now, es);
    var Returned(value, l, t, seen) := s.readers[r].st;
    assert ReturnOk(s.loads, s.commits, s.now, s.readers[r]);
    assert LoadOk(s.cfg, s.commits, s.now, |s.pops|, s.loads[l]);
    var d, tenant := s.loads[l].read.value, s.readers[r].tenant;
    if forall i :: 0 <= i < |s.commits| && s.commits[i].tenant == tenant ==>
         !(t - CACHE_TTL_SECONDS - Duration(s.loads[l]) < s.commits[i].time <= t) {
      forall i | d.seen <= i < seen
        ensures s.commits[i].tenant != tenant
      {
      }
      RowAtUntouched(s.commits, tenant, d.seen, seen);
    }
  }

  lemma {:induction false} CfgKept(s: Sys, es: seq<Event>)
    ensures RunFrom(s, es).cfg == s.cfg
  {
    if es != [] {
      CfgKept(s, es[..|es| - 1]);
    }
  }

  // ----- stampede freedom

  /** At most one load per tenant is ever in flight. */
  lemma OneLoadInFlight(cfg: Branding, now: real, es: seq<Event>, q: nat, r: nat)
    requires q < |Run(cfg, now, es).readers| && r < |Run(cfg, now, es).readers|
    requires Run(cfg, now, es).readers[q].st.Loading? && Run(cfg, now, es).readers[r].st.Loading?
    requires Run(cfg, now, es).readers[q].tenant == Run(cfg, now, es).readers[r].tenant
    ensures q == r
  {
    RunFromKeeps(Start(cfg, now), es);
  }

  /** Without an invalidation in between, a load starts no earlier than TTL after a previous store. */
  lemma LoadsAreSpaced(cfg: Branding, now: real, es: seq<Event>, i: nat, j: nat)
    requires i < j < |Run(cfg, now, es).loads|
    requires Run(cfg, now, es).loads[i].tenant == Run(cfg, now, es).loads[j].tenant
    requires Run(cfg, now, es).loads[i].stored.Some?
    ensures var s := Run(cfg, now, es);
            var a, b := s.loads[i], s.loads[j];
            && a.stored.value.pops <= b.startPop <= |s.pops|
            && (a.tenant !in s.pops[a.stored.value.pops..b.startPop] ==>
                  b.start >= a.stored.value.time + CACHE_TTL_SECONDS)
  {
    RunFromKeeps(Start(cfg, now), es);
    assert Spaced(Run(cfg, now, es).loads[i], Run(cfg, now, es).loads[j], Run(cfg, now, es).pops);
  }

  // ----- when a save becomes visible

  /** Which reads from before a save may still be handed out after it. */
  type Excuse = DbRead -> bool

  /** No fresh entry and no load in flight holds an inexcusable read of the tenant. */
  ghost predicate CleanUpTo(s: Sys, tenant: Tenant, x: Excuse) {
    && (IsFresh(s.cache, tenant, s.now) ==> HoldsOnly(s.loads, s.cache[tenant].load, x))
    && forall r :: 0 <= r < |s.readers| && s.readers[r].tenant == tenant && InLoad(s, r) ==>
         HoldsOnly(s.loads, s.readers[r].st.load, x)
  }

  ghost predicate HoldsOnly(loads: seq<Load>, l: nat, x: Excuse) {
    l < |loads| && (loads[l].read.Some? ==> x(loads[l].read.value))
  }

  /** Reader r of u returned to its caller after state s. */
  ghost predicate ReturnedSince(s: Sys, u: Sys, tenant: Tenant, r: nat) {
    && r < |u.readers| && u.readers[r].tenant == tenant && u.readers[r].st.Returned?
    && (r < |s.readers| ==> !s.readers[r].st.Returned?)
  }

  /** Reader r of u returned after state s, with inexcusable data from before commit n. */
  ghost predicate ReturnsOlder(s: Sys, u: Sys, tenant: Tenant, n: nat, r: nat, x: Excuse) {
    && ReturnedSince(s, u, tenant, r)
    && u.readers[r].st.load < |u.loads|
    && !ReadSince(u.loads[u.readers[r].st.load], n, x)
  }

  ghost predicate AllReflect(s: Sys, u: Sys, tenant: Tenant, n: nat, x: Excuse) {
    forall r :: 0 <= r < |u.readers| ==> !ReturnsOlder(s, u, tenant, n, r, x)
  }

  ghost predicate ReadSince(l: Load, n: nat, x: Excuse) {
    l.read.Some? ==> l.read.value.seen >= n || x(l.read.value)
  }

  /** Nothing inexcusable from before commit n can still be returned. */
  ghost predicate Flushed(u: Sys, tenant: Tenant, n: nat, x: Excuse) {
    && n <= |u.commits|
    && (IsFresh(u.cache, tenant, u.now) ==>
          u.cache[tenant].load < |u.loads| && ReadSince(u.loads[u.cache[tenant].load], n, x))
    && forall r :: 0 <= r < |u.readers| && u.readers[r].tenant == tenant && InLoad(u, r) ==>
         ReadSince(u.loads[u.readers[r].st.load], n, x)
  }

  /** One step hands out nothing older. */
  lemma ReflectStep(s: Sys, u: Sys, tenant: Tenant, n: nat, x: Excuse, e: Event, r: nat)
    requires Inv(u) && Flushed(u, tenant, n, x) && AllReflect(s, u, tenant, n, x)
    ensures !ReturnsOlder(s, Step(u, e), tenant, n, r, x)
  {
    if r < |u.readers| {
      assert !ReturnsOlder(s, u, tenant, n, r, x);
      assert ReturnOk(u.loads, u.commits, u.now, u.readers[r]);
    }
  }

  lemma FlushedCache(u: Sys, tenant: Tenant, n: nat, x: Excuse, e: Event)
    requires Inv(u) && Flushed(u, tenant, n, x)
    ensures var v := Step(u, e);
            && n <= |v.commits|
            && (IsFresh(v.cache, tenant, v.now) ==>
                  v.cache[tenant].load < |v.loads| && ReadSince(v.loads[v.cache[tenant].load], n, x))
  {
    if tenant in u.cache {
      assert CameFrom(u.loads, tenant, u.cache[tenant].value, u.cache[tenant].load, u.cache[tenant].loadedAt);
    }
    if IsFresh(Step(u, e).cache, tenant, Step(u, e).now) {
      CacheStep(u, tenant, e);
      ReadStep(u, e, Step(u, e).cache[tenant].load);
    }
  }

  /** A fresh entry was there before, or it is that of the load just stored. */
  lemma CacheStep(u: Sys, tenant: Tenant, e: Event)
    requires IsFresh(Step(u, e).cache, tenant, Step(u, e).now)
    ensures var l := Step(u, e).cache[tenant].load;
            || (IsFresh(u.cache, tenant, u.now) && l == u.cache[tenant].load)
            || (&& e.Store? && InLoad(u, e.reader)
                && u.readers[e.reader].tenant == tenant && u.readers[e.reader].st.load == l)
  {
  }

  /** What a load has read changes only by a query, which sees every commit so far. */
  lemma ReadStep(u: Sys, e: Event, l: nat)
    requires l < |Step(u, e).loads|
    ensures |u.loads| <= |Step(u, e).loads|
    ensures var d := Step(u, e).loads[l].read;
            if l < |u.loads| then d == u.loads[l].read || (d.Some? && d.value.seen == |u.commits|) else d == None
  {
  }

  /** A load in flight was in flight before, or is new. */
  lemma LoadingStep(u: Sys, e: Event, r: nat)
    requires r < |Step(u, e).readers| && Step(u, e).readers[r].st.Loading?
    ensures || Step(u, e).readers[r].st.load == |u.loads|
            || (r < |u.readers| && Step(u, e).readers[r] == u.readers[r])
  {
  }

  lemma FlushedReader(u: Sys, tenant: Tenant, n: nat, x: Excuse, e: Event, r: nat)
    requires Inv(u) && Flushed(u, tenant, n, x)
    requires r < |Step(u, e).readers| && Step(u, e).readers[r].tenant == tenant && InLoad(Step(u, e), r)
    ensures ReadSince(Step(u, e).loads[Step(u, e).readers[r].st.load], n, x)
  {
    LoadingStep(u, e, r);
    ReadStep(u, e, Step(u, e).readers[r].st.load);
    if r < |u.readers| && u.readers[r].st.Loading? && u.readers[r].tenant == tenant {
      assert InFlight(u.loads, tenant, u.readers[r].st.load);
    }
  }

  lemma FlushedStep(s: Sys, u: Sys, tenant: Tenant, n: nat, x: Excuse, e: Event)
    requires Inv(u) && Flushed(u, tenant, n, x) && AllReflect(s, u, tenant, n, x)
    ensures Flushed(Step(u, e), tenant, n, x) && AllReflect(s, Step(u, e), tenant, n, x)
  {
    FlushedCache(u, tenant, n, x, e);
    forall r | 0 <= r < |Step(u, e).readers| && Step(u, e).readers[r].tenant == tenant && InLoad(Step(u, e), r)
      ensures ReadSince(Step(u, e).loads[Step(u, e).readers[r].st.load], n, x)
    {
      FlushedReader(u, tenant, n, x, e, r);
    }
    forall r | 0 <= r < |Step(u, e).readers|
      ensures !ReturnsOlder(s, Step(u, e), tenant, n, r, x)
    {
      ReflectStep(s, u, tenant, n, x, e, r);
    }
  }

  lemma {:induction false} FlushedRun(s: Sys, tenant: Tenant, n: nat, x: Excuse, es: seq<Event>)
    requires Inv(s) && Flushed(s, tenant, n, x)
    ensures Flushed(RunFrom(s, es), tenant, n, x) && AllReflect(s, RunFrom(s, es), tenant, n, x)
  {
    if es != [] {
      FlushedRun(s, tenant, n, x, es[..|es| - 1]);
      RunFromKeeps(s, es[..|es| - 1]);
      FlushedStep(s, RunFrom(s, es[..|es| - 1]), tenant, n, x, es[|es| - 1]);
    }
  }

  lemma ReadsAreSeen(s: Sys, l: nat)
    requires Inv(s) && l < |s.loads| && s.loads[l].read.Some?
    ensures s.loads[l].read.value.seen <= |s.commits|
  {
    assert LoadOk(s.cfg, s.commits, s.now, |s.pops|, s.loads[l]);
  }

  /** Otherwise one more event hands out the older data. */
  lemma NotCleanLeaks(s: Sys, tenant: Tenant, row: Row, x: Excuse) returns (e: Event, r: nat)
    requires Inv(s) && !CleanUpTo(s, tenant, x)
    ensures var saved := Step(s, Save(tenant, row));
            && ReturnsOlder(saved, Step(saved, e), tenant, |saved.commits|, r, x)
            && Step(saved, e).commits == saved.commits
  {
    if IsFresh(s.cache, tenant, s.now) && !HoldsOnly(s.loads, s.cache[tenant].load, x) {
      e, r := Get(tenant), |s.readers|;
      assert CameFrom(s.loads, tenant, s.cache[tenant].value, s.cache[tenant].load, s.cache[tenant].loadedAt);
      ReadsAreSeen(s, s.cache[tenant].load);
    } else {
      r :| 0 <= r < |s.readers| && s.readers[r].tenant == tenant && InLoad(s, r)
        && !HoldsOnly(s.loads, s.readers[r].st.load, x);
      e := Store(r);
      ReadsAreSeen(s, s.readers[r].st.load);
    }
  }

  lemma RunFromOne(s: Sys, e: Event)
    ensures RunFrom(s, [e]) == Step(s, e)
  {
    assert [e][..0] == [];
  }

  /** Everything returned after a save was read after it, or is excused, iff the state was clean so far. */
  lemma SaveReflectedIff(s: Sys, tenant: Tenant, row: Row, x: Excuse)
    requires Inv(s)
    ensures var saved := Step(s, Save(tenant, row));
            (forall fs :: AllReflect(saved, RunFrom(saved, fs), tenant, |saved.commits|, x))
            <==> CleanUpTo(s, tenant, x)
  {
    var saved := Step(s, Save(tenant, row));
    StepKeeps(s, Save(tenant, row));
    if CleanUpTo(s, tenant, x) {
      forall fs
        ensures AllReflect(saved, RunFrom(saved, fs), tenant, |saved.commits|, x)
      {
        FlushedRun(saved, tenant, |saved.commits|, x, fs);
      }
    } else {
      var e, r := NotCleanLeaks(s, tenant, row, x);
      RunFromOne(saved, e);
      assert !AllReflect(saved, RunFrom(saved, [e]), tenant, |saved.commits|, x);
    }
  }

  /** No fresh entry for the tenant, and no load of it in flight has read the database yet. */
  ghost predicate Clean(s: Sys, tenant: Tenant) {
    && !IsFresh(s.cache, tenant, s.now)
    && forall r :: 0 <= r < |s.readers| && s.readers[r].tenant == tenant && InLoad(s, r) ==>
         s.loads[s.readers[r].st.load].read == None
  }

  /**
   The cache does not give read-your-writes, because the save invalidates before it commits. What
   holds exactly: everything returned after a commit was read after it iff, at the commit, the
   tenant has no fresh entry and no load in flight that has already read.
   */
  lemma ReadAfterSaveIffClean(cfg: Branding, now: real, es: seq<Event>, tenant: Tenant, row: Row)
    ensures var s := Run(cfg, now, es);
            var saved := Step(s, Save(tenant, row));
            (forall fs :: AllReflect(saved, RunFrom(saved, fs), tenant, |saved.commits|, d => false))
            <==> Clean(s, tenant)
  {
    var s := Run(cfg, now, es);
    RunFromKeeps(Start(cfg, now), es);
    SaveReflectedIff(s, tenant, row, d => false);
    if tenant in s.cache {
      assert CameFrom(s.loads, tenant, s.cache[tenant].value, s.cache[tenant].load, s.cache[tenant].loadedAt);
    }
  }

  /** Reader r of u got what a direct load gives after commit n or later, or the fallback of a failed read. */
  ghost predicate ShowsSave(u: Sys, tenant: Tenant, n: nat, r: nat)
    requires r < |u.readers| && u.readers[r].st.Returned?
  {
    || (exists m :: n <= m <= |u.commits| && u.readers[r].st.value == DirectLoad(u.cfg, u.commits, tenant, m))
    || (&& u.readers[r].st.value == Fallback(u.cfg)
        && u.readers[r].st.load < |u.loads|
        && u.loads[u.readers[r].st.load].read.Some? && !u.loads[u.readers[r].st.load].read.value.ok)
  }

  ghost predicate AllShow(s: Sys, u: Sys, tenant: Tenant, n: nat) {
    forall r :: 0 <= r < |u.readers| && ReturnedSince(s, u, tenant, r) ==> ShowsSave(u, tenant, n, r)
  }

  /** The read failed, or gave the very value the saved row gives. */
  function ShowsAlready(value: Branding): Excuse {
    (d: DbRead) => !d.ok || d.value == value
  }

  lemma {:induction false} CommitsGrow(s: Sys, es: seq<Event>)
    ensures s.commits <= RunFrom(s, es).commits
  {
    if es != [] {
      CommitsGrow(s, es[..|es| - 1]);
    }
  }

  /** A value that was read since commit n, or is excused, shows the save, and conversely right after it. */
  lemma ShowsIffReflects(saved: Sys, u: Sys, tenant: Tenant, r: nat)
    requires Inv(u) && saved.cfg == u.cfg && saved.commits <= u.commits && ReturnedSince(saved, u, tenant, r)
    ensures var n := |saved.commits|;
            var x := ShowsAlready(DirectLoad(saved.cfg, saved.commits, tenant, n));
            && (!ReturnsOlder(saved, u, tenant, n, r, x) ==> ShowsSave(u, tenant, n, r))
            && (u.commits == saved.commits && ReturnsOlder(saved, u, tenant, n, r, x) ==> !ShowsSave(u, tenant, n, r))
  {
    assert ReturnOk(u.loads, u.commits, u.now, u.readers[r]);
    var l := u.readers[r].st.load;
    assert LoadOk(u.cfg, u.commits, u.now, |u.pops|, u.loads[l]);
    var n, d := |saved.commits|, u.loads[l].read.value;
    RowAtPrefix(saved.commits, u.commits, tenant, n);
    assert DirectLoad(u.cfg, u.commits, tenant, n) == DirectLoad(saved.cfg, saved.commits, tenant, n);
    assert d.ok ==> d.value == DirectLoad(u.cfg, u.commits, tenant, d.seen);
    if !ReturnsOlder(saved, u, tenant, n, r, ShowsAlready(DirectLoad(saved.cfg, saved.commits, tenant, n))) && d.ok {
      var m := if d.seen >= n then d.seen else n;
      assert u.readers[r].st.value == DirectLoad(u.cfg, u.commits, tenant, m);
    }
  }

  /**
   In values: everything returned after a commit is what a direct load gives at that commit or a
   later one, or the fallback of a failed read, iff at the commit the tenant's fresh entry, and
   every load in flight that has already read, holds the saved row's value or a failed read.
   */
  lemma SaveVisibleIff(cfg: Branding, now: real, es: seq<Event>, tenant: Tenant, row: Row)
    ensures var s := Run(cfg, now, es);
            var saved := Step(s, Save(tenant, row));
            (forall fs :: AllShow(saved, RunFrom(saved, fs), tenant, |saved.commits|))
            <==> CleanUpTo(s, tenant, ShowsAlready(FromRow(cfg, Some(row))))
  {
    var s := Run(cfg, now, es);
    var saved := Step(s, Save(tenant, row));
    var n, x := |saved.commits|, ShowsAlready(FromRow(cfg, Some(row)));
    RunFromKeeps(Start(cfg, now), es);
    CfgKept(Start(cfg, now), es);
    StepKeeps(s, Save(tenant, row));
    assert DirectLoad(saved.cfg, saved.commits, tenant, n) == FromRow(cfg, Some(row));
    SaveReflectedIff(s, tenant, row, x);
    if CleanUpTo(s, tenant, x) {
      forall fs
        ensures AllShow(saved, RunFrom(saved, fs), tenant, n)
      {
        CleanShows(saved, tenant, fs, x);
      }
    } else {
      var e, r := NotCleanLeaks(s, tenant, row, x);
      RunFromOne(saved, e);
      StepKeeps(saved, e);
      CfgKept(saved, [e]);
      ShowsIffReflects(saved, Step(saved, e), tenant, r);
      assert !AllShow(saved, RunFrom(saved, [e]), tenant, n);
    }
  }

  lemma CleanShows(saved: Sys, tenant: Tenant, fs: seq<Event>, x: Excuse)
    requires Inv(saved) && x == ShowsAlready(DirectLoad(saved.cfg, saved.commits, tenant, |saved.commits|))
    requires AllReflect(saved, RunFrom(saved, fs), tenant, |saved.commits|, x)
    ensures AllShow(saved, RunFrom(saved, fs), tenant, |saved.commits|)
  {
    var u := RunFrom(saved, fs);
    RunFromKeeps(saved, fs);
    CfgKept(saved, fs);
    CommitsGrow(saved, fs);
    forall r | 0 <= r < |u.readers| && ReturnedSince(saved, u, tenant, r)
      ensures ShowsSave(u, tenant, |saved.commits|, r)
    {
      ShowsIffReflects(saved, u, tenant, r);
    }
  }

  /** In particular when there is nothing fresh and nothing read in flight. */
  lemma CleanSaveIsVisible(cfg: Branding, now: real, es: seq<Event>, tenant: Tenant, row: Row, fs: seq<Event>)
    requires Clean(Run(cfg, now, es), tenant)
    ensures var saved := Step(Run(cfg, now, es), Save(tenant, row));
            AllShow(saved, RunFrom(saved, fs), tenant, |saved.commits|)
  {
    SaveVisibleIff(cfg, now, es, tenant, row);
  }

  /** A read that fails hides a save for TTL, even one made before any reader came. */
  lemma FailedReadHidesSave(cfg: Branding, row: Row)
    ensures var es := [Save("default", row), Get("default"), Enter(0), Query(0, false), Store(0), Get("default")];
            var s := Run(cfg, 0.0, es);
            && |s.readers| == 2 && s.readers[1].st.Returned?
            && s.readers[1].st.value == Fallback(cfg)
            && DirectLoad(cfg, s.commits, "default", |s.commits|) == FromRow(cfg, Some(row))
  {
    var t := "default";
    var s0 := Start(cfg, 0.0);
    var es := [Save(t, row)];
    RunFromOne(s0, Save(t, row));
    var s1 := Step(s0, Save(t, row));
    es := ExtendRun(s0, es, s1, Get(t));
    var s2 := Step(s1, Get(t));
    es := ExtendRun(s0, es, s2, Enter(0));
    var s3 := Step(s2, Enter(0));
    assert s3.readers == [Reader(t, Loading(0))] && |s3.loads| == 1;
    es := ExtendRun(s0, es, s3, Query(0, false));
    var s4 := Step(s3, Query(0, false));
    assert s4.loads[0].read == Some(DbRead(0.0, Fallback(cfg), 1, false));
    es := ExtendRun(s0, es, s4, Store(0));
    var s5 := Step(s4, Store(0));
    assert s5.cache == map[t := Entry(Fallback(cfg), 0.0, 0)];
    es := ExtendRun(s0, es, s5, Get(t));
    assert es == [Save(t, row), Get(t), Enter(0), Query(0, false), Store(0), Get(t)];
  }

  /** A reader that slips between the invalidation and the commit keeps the old row for TTL. */
  lemma StaleAfterSave(cfg: Branding, row: Row)
    ensures var es := [Invalidate("default"), Get("default"), Enter(0), Query(0, true), Store(0),
                       Save("default", row), Get("default")];
            var s := Run(cfg, 0.0, es);
            && |s.readers| == 2 && s.readers[1].st.Returned?
            && s.readers[1].st.value == FromRow(cfg, None)
            && DirectLoad(cfg, s.commits, "default", |s.commits|) == FromRow(cfg, Some(row))
  {
    var t := "default";
    var s0 := Start(cfg, 0.0);
    var es := [Invalidate(t)];
    RunFromOne(s0, Invalidate(t));
    var s1 := Step(s0, Invalidate(t));
    es := ExtendRun(s0, es, s1, Get(t));
    var s2 := Step(s1, Get(t));
    es := ExtendRun(s0, es, s2, Enter(0));
    var s3 := Step(s2, Enter(0));
    assert s3.readers == [Reader(t, Loading(0))] && |s3.loads| == 1;
    es := ExtendRun(s0, es, s3, Query(0, true));
    var s4 := Step(s3, Query(0, true));
    assert s4.loads[0].read == Some(DbRead(0.0, FromRow(cfg, None), 0, true));
    es := ExtendRun(s0, es, s4, Store(0));
    var s5 := Step(s4, Store(0));
    assert s5.cache == map[t := Entry(FromRow(cfg, None), 0.0, 0)];
    es := ExtendRun(s0, es, s5, Save(t, row));
    var s6 := Step(s5, Save(t, row));
    es := ExtendRun(s0, es, s6, Get(t));
    assert es == [Invalidate(t), Get(t), Enter(0), Query(0, true), Store(0), Save(t, row), Get(t)];
  }

  lemma ExtendRun(s: Sys, es: seq<Event>, u: Sys, e: Event) returns (fs: seq<Event>)
    requires RunFrom(s, es) == u
    ensures fs == es + [e] && RunFrom(s, fs) == Step(u, e)
  {
    fs := es + [e];
    assert fs[..|es|] == es;
  }

  // ----- the module's own dictionary

  /** The module-level dictionary; each method is one stretch between awaits. */
  class BrandingStore {
    var cache: Cache

    constructor ()
      ensures cache == map[]
    {
      cache := map[];
    }

    method InvalidateCompanyCache(tenant: Tenant)
      modifies this
      ensures cache == Pop(old(cache), tenant)
      ensures forall now :: !IsFresh(cache, tenant, now)
    {
      cache := cache - {tenant};
    }

    method GetCachedBrandingSync(tenant: Tenant, now: real) returns (r: Option<Branding>)
      ensures r.Some? <==> tenant in cache && now - cache[tenant].loadedAt < 300.0
      ensures r.Some? ==> r.value == cache[tenant].value
    {
      if tenant in cache && now - cache[tenant].loadedAt < CACHE_TTL_SECONDS {
        return Some(cache[tenant].value);
      }
      r := None;
    }

    /** The end of a load under the lock. */
    method StoreLoaded(tenant: Tenant, branding: Branding, now: real, load: nat)
      modifies this
      ensures cache == old(cache)[tenant := Entry(branding, now, load)]
      ensures forall t :: IsFresh(cache, tenant, t) <==> t - now < CACHE_TTL_SECONDS
    {
      cache := cache[tenant := Entry(branding, now, load)];
    }
  }
}
