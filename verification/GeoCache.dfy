/** The bounded location cache with a lifetime per entry and in-flight reservations. */
module GeoCache {
  import opened Text

  datatype Location = Location(latitude: real, longitude: real)

  predicate ValidCoordinates(l: Location) { -90.0 <= l.latitude <= 90.0 && -180.0 <= l.longitude <= 180.0 }

  datatype Entry = Entry(location: Option<Location>, fetchedAt: int)

  datatype Cache = Cache(capacity: nat, ttl: int, entries: map<string, Entry>, pending: set<string>) {
    function Load(): nat { |entries| + |pending| }
  }

  predicate Expired(e: Entry, ttl: int, now: int) { now - e.fetchedAt > ttl }

  predicate Fresh(c: Cache, key: string, now: int) { key in c.entries && !Expired(c.entries[key], c.ttl, now) }

  /** The entries left when a full cache is swept; `clock` is the time read for each key. */
  function Swept(c: Cache, clock: string -> int): map<string, Entry> {
    map k | k in c.entries && (k in c.pending || !Expired(c.entries[k], c.ttl, clock(k))) :: c.entries[k]
  }

  /** The cache once `key` was asked for: swept when full, the key's own entry given up, then reserved if there is room. */
  function Asked(c: Cache, key: string, clock: string -> int): Cache {
    var kept := if c.Load() >= c.capacity then Swept(c, clock) else c.entries;
    var given := c.(entries := kept - {key});
    if given.Load() >= c.capacity then given else given.(pending := given.pending + {key})
  }

  function Started(c: Cache, key: string, now: int, clock: string -> int): (bool, Cache) {
    if Fresh(c, key, now) || key in c.pending then (false, c)
    else
      var after := Asked(c, key, clock);
      (key in after.pending, after)
  }

  function Usable(location: Option<Location>): Option<Location> {
    if location.Some? && !ValidCoordinates(location.value) then None else location
  }

  function Stored(c: Cache, key: string, location: Option<Location>, now: int): Cache {
    var released := c.(pending := c.pending - {key});
    if key !in c.entries && released.Load() >= c.capacity then released
    else released.(entries := c.entries[key := Entry(Usable(location), now)])
  }

  /** Nothing is both cached and awaited, and together they fit. */
  predicate Inv(c: Cache) { c.entries.Keys !! c.pending && c.Load() <= c.capacity }

  // ---------- The cache object ----------

  class GeoCache {
    const capacity: nat
    const ttl: int
    var entries: map<string, Entry>
    var pending: set<string>

    function Fields(): Cache
      reads this
    {
      Cache(capacity, ttl, entries, pending)
    }

    constructor (capacity: nat, ttl: int)
      ensures Fields() == Cache(capacity, ttl, map[], {}) && Inv(Fields())
    {
      this.capacity, this.ttl := capacity, ttl;
      entries, pending := map[], {};
    }

    /** A cached answer that is still fresh; `known` with no location is a cached "no coordinate". */
    method Lookup(key: string, now: int) returns (location: Option<Location>, known: bool)
      ensures known == Fresh(Fields(), key, now)
      ensures location == if known then entries[key].location else None
    {
      if key !in entries || now - entries[key].fetchedAt > ttl { return None, false; }
      return entries[key].location, true;
    }

    /** Drops the expired entries that no lookup awaits. */
    method Sweep(clock: string -> int)
      modifies `entries
      ensures entries == Swept(old(Fields()), clock)
    {
      var todo := entries.Keys;
      while todo != {}
        invariant todo <= old(entries).Keys
        invariant forall k :: k in entries <==> k in old(entries) && (k in todo || k in pending || !Expired(old(entries)[k], ttl, clock(k)))
        invariant forall k :: k in entries ==> entries[k] == old(entries)[k]
        decreases todo
      {
        var k :| k in todo;
        todo := todo - {k};
        if k !in pending && clock(k) - entries[k].fetchedAt > ttl {
          entries := entries - {k};
        }
      }
    }

    /** Gives up the key's expired entry and reserves the key if there is room. */
    method Reserve(key: string, clock: string -> int) returns (granted: bool)
      requires key !in pending
      modifies this
      ensures Fields() == Asked(old(Fields()), key, clock) && granted == (key in pending)
    {
      hide Swept;
      if |entries| + |pending| >= capacity {
        Sweep(clock);
      }
      entries := entries - {key};
      if |entries| + |pending| >= capacity { return false; }
      pending := pending + {key};
      return true;
    }

    method StartIfNeeded(key: string, now: int, clock: string -> int) returns (granted: bool)
      modifies this
      ensures (granted, Fields()) == Started(old(Fields()), key, now, clock)
    {
      hide Asked;
      if key in entries && now - entries[key].fetchedAt <= ttl { return false; }
      if key in pending { return false; }
      granted := Reserve(key, clock);
    }

    method Store(key: string, location: Option<Location>, now: int)
      modifies this
      ensures Fields() == Stored(old(Fields()), key, location, now)
    {
      pending := pending - {key};
      var kept := location;
      if location.Some? && !ValidCoordinates(location.value) { kept := None; }
      if key !in entries && |entries| + |pending| >= capacity { return; }
      entries := entries[key := Entry(kept, now)];
    }
  }

  // ---------- What each call does ----------

  lemma StartKeeps(c: Cache, key: string, now: int, clock: string -> int)
    requires Inv(c)
    ensures Inv(Started(c, key, now, clock).1)
  {
    if !Fresh(c, key, now) && key !in c.pending {
      SweepShrinks(c, clock);
      var kept := if c.Load() >= c.capacity then Swept(c, clock) else c.entries;
      assert |(kept - {key}).Keys| <= |kept.Keys| by { SubsetSize((kept - {key}).Keys, kept.Keys); }
    }
  }

  lemma SweepShrinks(c: Cache, clock: string -> int)
    ensures Swept(c, clock).Keys <= c.entries.Keys && |Swept(c, clock)| <= |c.entries|
  {
    SubsetSize(Swept(c, clock).Keys, c.entries.Keys);
  }

  /** A reserved key's result is always kept. */
  lemma ReservedIsKept(c: Cache, key: string, location: Option<Location>, now: int)
    requires Inv(c) && key in c.pending
    ensures var after := Stored(c, key, location, now);
      Inv(after) && key in after.entries && after.entries[key] == Entry(Usable(location), now) && key !in after.pending
  {
    assert |c.pending - {key}| == |c.pending| - 1;
    assert c.entries[key := Entry(Usable(location), now)].Keys == c.entries.Keys + {key};
  }

  /** Any result keeps the invariant; it is dropped exactly when its key is unknown and no room is left. */
  lemma StoreKeeps(c: Cache, key: string, location: Option<Location>, now: int)
    requires Inv(c)
    ensures Inv(Stored(c, key, location, now))
    ensures key !in Stored(c, key, location, now).entries <==> key !in c.entries && key !in c.pending && c.Load() == c.capacity
  {
    if key in c.pending {
      ReservedIsKept(c, key, location, now);
    } else {
      assert c.pending - {key} == c.pending;
      assert c.entries[key := Entry(Usable(location), now)].Keys == c.entries.Keys + {key};
    }
  }

  /** An expired key that is still listed always gets its refresh, even when the cache is full. */
  lemma ExpiredIsRefreshed(c: Cache, key: string, now: int, clock: string -> int)
    requires Inv(c) && key in c.entries && !Fresh(c, key, now)
    ensures Started(c, key, now, clock).0
  {
    SweepShrinks(c, clock);
    var kept := if c.Load() >= c.capacity then Swept(c, clock) else c.entries;
    var given := kept - {key};
    if key in kept {
      assert |given.Keys| == |kept.Keys - {key}|;
      assert given.Keys == kept.Keys - {key};
    } else {
      assert given == kept;
      SubsetSize(kept.Keys, c.entries.Keys - {key});
    }
  }

  lemma RoomForNew(c: Cache, key: string, clock: string -> int)
    requires key !in c.entries && key !in c.pending
    ensures var after := Asked(c, key, clock);
      && (key in after.pending <==> c.Load() < c.capacity || |Swept(c, clock)| + |c.pending| < c.capacity)
      && after.pending == if key in after.pending then c.pending + {key} else c.pending
  {
    hide Swept;
    SweepShrinks(c, clock);
    WithoutMissing(c.entries, key);
    WithoutMissing(Swept(c, clock), key);
  }

  lemma WithoutMissing(entries: map<string, Entry>, key: string)
    requires key !in entries
    ensures entries - {key} == entries
  {
  }

  /** Entries within their lifetime at the times read in a sweep. */
  ghost function InTime(c: Cache, clock: string -> int): set<string> {
    set k | k in c.entries && clock(k) - c.entries[k].fetchedAt <= c.ttl
  }

  lemma SweptInTime(c: Cache, clock: string -> int)
    requires Inv(c)
    ensures |Swept(c, clock)| == |InTime(c, clock)|
  {
    assert Swept(c, clock).Keys == InTime(c, clock);
  }

  lemma GrantedPending(c: Cache, key: string, now: int, clock: string -> int)
    requires Started(c, key, now, clock).0
    ensures Started(c, key, now, clock).1.pending == c.pending + {key}
  {
    hide Swept;
  }

  /** When a lookup is granted: never within the lifetime of an entry or while one is awaited, always for an
      older entry, and for a new key exactly when there is room once the entries past their lifetime are gone. */
  lemma GrantedWhen(c: Cache, key: string, now: int, clock: string -> int)
    requires Inv(c)
    ensures Started(c, key, now, clock).0
        <==> && key !in c.pending
             && (key in c.entries ==> now - c.entries[key].fetchedAt > c.ttl)
             && (key in c.entries || |c.entries| + |c.pending| < c.capacity || |InTime(c, clock)| + |c.pending| < c.capacity)
    ensures Started(c, key, now, clock).0 ==> Started(c, key, now, clock).1.pending == c.pending + {key}
  {
    SweptInTime(c, clock);
    hide Asked, Swept, InTime;
    if key in c.entries {
      if !Fresh(c, key, now) { ExpiredIsRefreshed(c, key, now, clock); GrantedPending(c, key, now, clock); }
    } else if key !in c.pending {
      RoomForNew(c, key, clock);
    }
  }

  // ---------- Whole runs ----------

  /** The cache and the lookups granted and not yet answered. */
  datatype State = State(cache: Cache, flying: seq<string>)

  datatype Step = Ask(key: string, now: int, clock: string -> int) | Answer(i: nat, location: Option<Location>, now: int)

  predicate Enabled(s: State, step: Step) { step.Answer? ==> step.i < |s.flying| }

  function Next(s: State, step: Step): State
    requires Enabled(s, step)
  {
    match step
    case Ask(key, now, clock) =>
      var (granted, after) := Started(s.cache, key, now, clock);
      State(after, if granted then s.flying + [key] else s.flying)
    case Answer(i, location, now) =>
      State(Stored(s.cache, s.flying[i], location, now), s.flying[..i] + s.flying[i + 1..])
  }

  /** Each awaited key has exactly one lookup flying. */
  predicate OneEach(s: State) {
    && (forall i, j :: 0 <= i < j < |s.flying| ==> s.flying[i] != s.flying[j])
    && s.cache.pending == set k | k in s.flying
  }

  lemma FlyOneMore(before: Cache, flying: seq<string>, key: string, after: Cache)
    requires OneEach(State(before, flying)) && key !in before.pending && after.pending == before.pending + {key}
    ensures OneEach(State(after, flying + [key]))
  {
    assert forall k :: k in flying + [key] <==> k in flying || k == key;
  }

  lemma AskKeeps(s: State, key: string, now: int, clock: string -> int)
    requires Inv(s.cache) && OneEach(s)
    ensures var t := Next(s, Ask(key, now, clock)); Inv(t.cache) && OneEach(t)
  {
    StartKeeps(s.cache, key, now, clock);
    GrantedWhen(s.cache, key, now, clock);
    UngrantedPending(s.cache, key, now, clock);
    var after := Started(s.cache, key, now, clock);
    if after.0 {
      FlyOneMore(s.cache, s.flying, key, after.1);
    } else {
      assert after.1.pending == s.cache.pending;
    }
    hide Started, Inv, Fresh, Swept;
  }

  lemma AnswerKeeps(s: State, i: nat, location: Option<Location>, now: int)
    requires Inv(s.cache) && OneEach(s) && i < |s.flying|
    ensures var t := Next(s, Answer(i, location, now)); Inv(t.cache) && OneEach(t)
  {
    hide Inv, Stored, OneEach;
    StoreKeeps(s.cache, s.flying[i], location, now);
    StoredPending(s.cache, s.flying[i], location, now);
    FlyOneLess(s.cache, s.flying, i, Stored(s.cache, s.flying[i], location, now));
  }

  lemma StoredPending(c: Cache, key: string, location: Option<Location>, now: int)
    ensures Stored(c, key, location, now).pending == c.pending - {key}
  {
  }

  lemma FlyOneLess(before: Cache, flying: seq<string>, i: nat, after: Cache)
    requires i < |flying| && OneEach(State(before, flying)) && after.pending == before.pending - {flying[i]}
    ensures OneEach(State(after, flying[..i] + flying[i + 1..]))
  {
    var rest := flying[..i] + flying[i + 1..];
    forall k ensures k in rest <==> k in flying && k != flying[i] {
      if k in flying && k != flying[i] {
        var j :| 0 <= j < |flying| && flying[j] == k;
        assert rest[if j < i then j else j - 1] == k;
      }
    }
  }

  lemma StepKeeps(s: State, step: Step)
    requires Inv(s.cache) && OneEach(s) && Enabled(s, step)
    ensures Inv(Next(s, step).cache) && OneEach(Next(s, step))
  {
    hide Inv, OneEach, Next;
    match step
    case Ask(key, now, clock) => AskKeeps(s, key, now, clock);
    case Answer(i, location, now) => AnswerKeeps(s, i, location, now);
  }

  lemma UngrantedPending(c: Cache, key: string, now: int, clock: string -> int)
    ensures !Started(c, key, now, clock).0 ==> Started(c, key, now, clock).1.pending == c.pending
  {
  }

  ghost predicate Run(states: seq<State>, steps: seq<Step>) {
    && |states| == |steps| + 1
    && states[0].flying == [] && states[0].cache.entries == map[] && states[0].cache.pending == {}
    && forall i :: 0 <= i < |steps| ==> Enabled(states[i], steps[i]) && states[i + 1] == Next(states[i], steps[i])
  }

  /** Under any calls: disjoint, within capacity, one lookup per awaited key, and every
      answer to a granted lookup is kept. */
  lemma {:induction false} RunKeeps(states: seq<State>, steps: seq<Step>, n: nat)
    requires Run(states, steps) && n < |states|
    ensures Inv(states[n].cache) && OneEach(states[n])
    ensures forall i :: 0 <= i < |states[n].flying| ==> states[n].flying[i] in states[n].cache.pending
  {
    if n > 0 {
      RunKeeps(states, steps, n - 1);
      StepKeeps(states[n - 1], steps[n - 1]);
      hide Inv, Next;
    }
  }

  // ---------- Answers last their lifetime ----------

  /** The answer as cached: a location with a latitude and a longitude that exist, or no location. */
  ghost predicate CachedAs(answer: Option<Location>, kept: Option<Location>) {
    && (forall l :: answer == Some(l) && -90.0 <= l.latitude <= 90.0 && -180.0 <= l.longitude <= 180.0 ==> kept == answer)
    && (kept != None ==> kept == answer)
    && (forall l :: kept == Some(l) ==> -90.0 <= l.latitude <= 90.0 && -180.0 <= l.longitude <= 180.0)
  }

  /** A step that leaves the entry of `key` alone: no answer for the key, and no time read for it past the lifetime. */
  ghost predicate Spares(s: State, step: Step, key: string, fetched: int) {
    match step
    case Ask(asked, now, clock) => clock(key) - fetched <= s.cache.ttl && (asked == key ==> now - fetched <= s.cache.ttl)
    case Answer(i, location, now) => i < |s.flying| && s.flying[i] != key
  }

  lemma AskSpares(c: Cache, asked: string, now: int, clock: string -> int, key: string, e: Entry)
    requires key in c.entries && c.entries[key] == e && clock(key) - e.fetchedAt <= c.ttl && (asked == key ==> now - e.fetchedAt <= c.ttl)
    ensures var after := Started(c, asked, now, clock).1; after.ttl == c.ttl && key in after.entries && after.entries[key] == e
  {
  }

  lemma StepSpares(s: State, step: Step, key: string, e: Entry)
    requires Enabled(s, step) && key in s.cache.entries && s.cache.entries[key] == e && Spares(s, step, key, e.fetchedAt)
    ensures var t := Next(s, step); t.cache.ttl == s.cache.ttl && key in t.cache.entries && t.cache.entries[key] == e
  {
    hide Started;
    match step
    case Ask(asked, now, clock) => AskSpares(s.cache, asked, now, clock, key, e);
    case Answer(i, location, now) =>
  }

  lemma AnswerStored(s: State, i: nat, location: Option<Location>, now: int)
    requires Inv(s.cache) && OneEach(s) && i < |s.flying|
    ensures var key, t := s.flying[i], Next(s, Answer(i, location, now));
      t.cache.ttl == s.cache.ttl && key in t.cache.entries && t.cache.entries[key].fetchedAt == now && CachedAs(location, t.cache.entries[key].location)
  {
    ReservedIsKept(s.cache, s.flying[i], location, now);
    hide Inv;
  }

  lemma RunStep(states: seq<State>, steps: seq<Step>, n: nat)
    requires Run(states, steps) && n < |steps|
    ensures Inv(states[n].cache) && OneEach(states[n]) && Enabled(states[n], steps[n]) && states[n + 1] == Next(states[n], steps[n])
  {
    hide Inv, OneEach, Next, Enabled;
    RunKeeps(states, steps, n);
  }

  /** An answer is served for its whole lifetime: until then no request, sweep or answer for another key removes or changes it. */
  lemma {:induction false} ServedInTime(states: seq<State>, steps: seq<Step>, m: nat, n: nat, i: nat, location: Option<Location>, now: int)
    requires Run(states, steps) && m < n < |states| && steps[m] == Answer(i, location, now)
    requires i < |states[m].flying| && forall j :: m < j < n ==> Spares(states[j], steps[j], states[m].flying[i], now)
    ensures var key := states[m].flying[i];
      key in states[n].cache.entries && states[n].cache.entries[key].fetchedAt == now && CachedAs(location, states[n].cache.entries[key].location)
    decreases n
  {
    hide Inv, OneEach, Next, Spares, CachedAs, Enabled;
    RunStep(states, steps, n - 1);
    if n == m + 1 {
      AnswerStored(states[m], i, location, now);
    } else {
      ServedInTime(states, steps, m, n - 1, i, location, now);
      StepSpares(states[n - 1], steps[n - 1], states[m].flying[i], states[n - 1].cache.entries[states[m].flying[i]]);
    }
  }
}
