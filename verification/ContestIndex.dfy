/** The in-memory contest index: sets and maps kept up to date contact by contact,
    proved to say exactly what the plain log says. */
module ContestIndex {
  import opened Text
  import opened Contest
  import opened ContestCount
  import opened ContestPoints
  import PartyTally

  /** One kind's maps agree with the counted contacts. */
  ghost predicate KindHolds(x: Contest, byBand: map<string, set<Value>>, all: set<Value>, c: seq<Qso>, k: Kind) {
    && all == ValuesAll(x, c, k)
    && byBand.Keys == BandsWith(x, c, k)
    && (forall b <- byBand :: byBand[b] == ValuesOn(x, c, k, b))
  }

  function AddTo(byBand: map<string, set<Value>>, band: string, v: Value): map<string, set<Value>> {
    byBand[band := (if band in byBand then byBand[band] else {}) + {v}]
  }

  lemma BandsAdd(x: Contest, c: seq<Qso>, q: Qso, k: Kind)
    requires MultValue(x, q, k).Some?
    ensures BandsWith(x, c + [q], k) == BandsWith(x, c, k) + {BandOf(q)}
    ensures ValuesAll(x, c + [q], k) == ValuesAll(x, c, k) + {MultValue(x, q, k).value}
  {
    hide MultValue, BandOf;
    assert forall p :: p in c + [q] <==> p in c || p == q;
  }

  lemma ValuesAdd(x: Contest, c: seq<Qso>, q: Qso, k: Kind, b: string)
    requires MultValue(x, q, k).Some?
    ensures ValuesOn(x, c + [q], k, b) == ValuesOn(x, c, k, b) + (if b == BandOf(q) then {MultValue(x, q, k).value} else {})
    ensures b !in BandsWith(x, c, k) ==> ValuesOn(x, c, k, b) == {}
  {
    hide MultValue, BandOf;
    assert forall p :: p in c + [q] <==> p in c || p == q;
  }

  lemma KindAdds(x: Contest, byBand: map<string, set<Value>>, all: set<Value>, c: seq<Qso>, q: Qso, k: Kind)
    requires KindHolds(x, byBand, all, c, k) && MultValue(x, q, k).Some?
    ensures var v := MultValue(x, q, k).value; KindHolds(x, AddTo(byBand, BandOf(q), v), all + {v}, c + [q], k)
  {
    hide MultValue, BandOf, BandsWith, ValuesOn, ValuesAll;
    var after := AddTo(byBand, BandOf(q), MultValue(x, q, k).value);
    BandsAdd(x, c, q, k);
    forall b | b in after ensures after[b] == ValuesOn(x, c + [q], k, b) { ValuesAdd(x, c, q, k, b); }
  }

  lemma KindSkips(x: Contest, byBand: map<string, set<Value>>, all: set<Value>, c: seq<Qso>, q: Qso, k: Kind)
    requires KindHolds(x, byBand, all, c, k) && MultValue(x, q, k).None?
    ensures KindHolds(x, byBand, all, c + [q], k)
  {
    hide MultValue, ValuesAll, ValuesOn, BandsWith;
    ValuesStay(x, c, q, k);
  }

  /** A contact without a value of a kind changes none of the kind's sets. */
  lemma ValuesStay(x: Contest, c: seq<Qso>, q: Qso, k: Kind)
    requires MultValue(x, q, k).None?
    ensures BandsWith(x, c + [q], k) == BandsWith(x, c, k) && ValuesAll(x, c + [q], k) == ValuesAll(x, c, k)
    ensures forall b :: ValuesOn(x, c + [q], k, b) == ValuesOn(x, c, k, b)
  {
    hide MultValue, BandOf;
    assert forall p :: p in c + [q] <==> p in c || p == q;
  }

  /** The value looked up on a band. */
  lemma KindLookup(x: Contest, byBand: map<string, set<Value>>, all: set<Value>, c: seq<Qso>, k: Kind, band: string, v: Value)
    requires KindHolds(x, byBand, all, c, k)
    ensures (band in byBand && v in byBand[band]) <==> v in ValuesOn(x, c, k, band)
  {
    hide MultValue, BandOf;
    if v in ValuesOn(x, c, k, band) {
      var q :| q in c && BandOf(q) == band && MultValue(x, q, k).Some? && MultValue(x, q, k).value == v;
      assert band in BandsWith(x, c, k);
    }
  }

  lemma KindPairs(x: Contest, byBand: map<string, set<Value>>, all: set<Value>, c: seq<Qso>, k: Kind)
    requires KindHolds(x, byBand, all, c, k)
    ensures PairsIn(byBand, byBand.Keys) == Pairs(x, c, k)
  {
    hide MultValue, BandOf;
    forall b, v ensures (b, v) in PairsIn(byBand, byBand.Keys) <==> (b, v) in Pairs(x, c, k) {
      PairMember(x, c, k, b, v);
      KindLookup(x, byBand, all, c, k, b, v);
    }
  }

  function Get<V>(m: map<string, V>, k: string): Option<V> { if k in m then Some(m[k]) else None }

  const ALL_KINDS: set<Kind> :=
    {Prefix, ExchangeArea, TnCounty, County, Canton, Oblast, DokDistrict, Iota, NaqpArea, SstArea, ArrlSection,
     IaruHq, IaruZone, Dxcc, CqZone, ItuZone, SacArea, WaeCountry, DxccNonWae, DxccOrWae}

  lemma EveryKind(k: Kind)
    ensures k in ALL_KINDS
  {
  }

  /** The order in which a contact's values are recorded. */
  function Turn(k: Kind): (n: nat)
    ensures n < 20
  {
    match k
    case Prefix => 0
    case ExchangeArea => 1
    case TnCounty => 2
    case County => 3
    case Canton => 4
    case Oblast => 5
    case DokDistrict => 6
    case Iota => 7
    case NaqpArea => 8
    case SstArea => 9
    case ArrlSection => 10
    case IaruHq => 11
    case IaruZone => 12
    case Dxcc => 13
    case CqZone => 14
    case ItuZone => 15
    case SacArea => 16
    case WaeCountry => 17
    case DxccNonWae => 18
    case DxccOrWae => 19
  }

  lemma TurnsApart(j: Kind, k: Kind)
    ensures Turn(j) == Turn(k) ==> j == k
  {
  }

  lemma AllTurnsApart(k: Kind)
    ensures forall j: Kind :: Turn(j) == Turn(k) ==> j == k
  {
    hide Turn;
    forall j: Kind ensures Turn(j) == Turn(k) ==> j == k { TurnsApart(j, k); }
  }

  predicate IsCode(k: Kind) { !FromEntity(k) && !k.Prefix? && !k.Iota? && !k.IaruHq? && !k.IaruZone? }

  function WorkedKeys(log: seq<Qso>): set<string> { set q | q in log && CallOf(q) != "" :: KeyOf(q) }

  function WorkedCalls(log: seq<Qso>): set<string> { set q | q in log && CallOf(q) != "" :: CallOf(q) }

  lemma WorkedGrow(log: seq<Qso>, q: Qso)
    ensures WorkedKeys(log + [q]) == WorkedKeys(log) + (if CallOf(q) != "" then {KeyOf(q)} else {})
    ensures WorkedCalls(log + [q]) == WorkedCalls(log) + (if CallOf(q) != "" then {CallOf(q)} else {})
  {
    hide CallOf, KeyOf;
    assert forall p :: p in log + [q] <==> p in log || p == q;
  }

  /** The set lookup of the dupe test finds the slot taken. */
  lemma DuplicateIsTaken(event: Event, c: seq<Qso>, q: Qso)
    ensures (if event.dupeScope == "call" then CallOf(q) in Calls(c) else KeyOf(q) in Keys(c)) <==> Taken(event, c, q)
  {
    hide CallOf, KeyOf;
  }

  /** What recording a contact changes in the names of the log and of its counted contacts. */
  lemma RecordFacts(event: Event, log: seq<Qso>, q: Qso)
    ensures var c := Credited(event, log);
      && Credited(event, log + [q]) == (if Eligible(q) && !Taken(event, c, q) then c + [q] else c)
      && WorkedKeys(log + [q]) == WorkedKeys(log) + (if CallOf(q) != "" then {KeyOf(q)} else {})
      && WorkedCalls(log + [q]) == WorkedCalls(log) + (if CallOf(q) != "" then {CallOf(q)} else {})
      && Calls(c + [q]) == Calls(c) + {CallOf(q)} && Keys(c + [q]) == Keys(c) + {KeyOf(q)}
      && ((if event.dupeScope == "call" then CallOf(q) in Calls(c) else KeyOf(q) in Keys(c)) <==> Taken(event, c, q))
      && (PlainBands(log + [q]) ==> PlainBands(log) && (Eligible(q) && !Taken(event, c, q) ==> KeyOf(q) !in Keys(c)))
  {
    hide Credited, Taken, Keys, Calls, WorkedKeys, WorkedCalls, PlainBands, CallOf, KeyOf, Eligible;
    CreditedAppend(event, log, q);
    WorkedGrow(log, q);
    PlainPrefix(log, q);
    DuplicateIsTaken(event, Credited(event, log), q);
    NamesGrow(Credited(event, log), q);
    if PlainBands(log + [q]) && Eligible(q) && !Taken(event, Credited(event, log), q) { NewKey(event, log, q); }
  }

  lemma PlainPrefix(log: seq<Qso>, q: Qso)
    ensures PlainBands(log + [q]) ==> PlainBands(log)
  {
    assert forall p :: p in log ==> p in log + [q];
  }

  /** A contact that will count has a key no counted contact has. */
  lemma NewKey(event: Event, log: seq<Qso>, q: Qso)
    requires PlainBands(log + [q]) && Eligible(q) && !Taken(event, Credited(event, log), q)
    ensures PlainBands(log) && KeyOf(q) !in Keys(Credited(event, log))
  {
    var c := Credited(event, log);
    CreditedAppend(event, log, q);
    CreditedKeysApart(event, log + [q]);
    hide CallOf, KeyOf, BandOf, Eligible, Taken, Credited;
    assert forall p :: p in log ==> p in log + [q];
    assert (c + [q])[|c|] == q;
    assert forall i :: 0 <= i < |c| ==> (c + [q])[i] == c[i];
  }

  /** `m` with `k` set when there is something to set. */
  function Put<V>(m: map<string, V>, k: string, v: Option<V>): map<string, V> {
    match v case Some(value) => m[k := value] case None => m
  }

  /** The point maps, read together. */
  datatype Tables = Tables(category: map<string, Category>, continent: map<string, string>, country: map<string, string>,
                           zone: map<string, Category>, distance: map<string, nat>, iota: map<string, IotaCategory>) {
    function At(key: string): Tiers {
      Tiers(Get(category, key), Get(continent, key), Get(country, key), Get(zone, key), Get(distance, key), Get(iota, key))
    }

    function With(key: string, t: Tiers): Tables {
      Tables(Put(category, key, t.category), Put(continent, key, t.continent), Put(country, key, t.country),
             Put(zone, key, t.zone), Put(distance, key, t.distance), Put(iota, key, t.iota))
    }
  }

  lemma TablesWith(tables: Tables, key: string, t: Tiers, other: string)
    ensures other != key ==> tables.With(key, t).At(other) == tables.At(other)
    ensures tables.At(key) == NO_TIERS ==> tables.With(key, t).At(key) == t
  {
  }

  /** The point maps say what each counted contact's categories are, and nothing else. */
  ghost predicate TablesHold(x: Contest, tables: Tables, c: seq<Qso>) {
    && (forall q :: q in c ==> tables.At(KeyOf(q)) == TiersOf(x, q))
    && (forall key: string :: key !in Keys(c) ==> tables.At(key) == NO_TIERS)
  }

  lemma TablesGrow(x: Contest, tables: Tables, c: seq<Qso>, q: Qso)
    requires TablesHold(x, tables, c) && KeyOf(q) !in Keys(c)
    ensures TablesHold(x, tables.With(KeyOf(q), TiersOf(x, q)), c + [q]) && KeyOf(q) !in tables.zone
  {
    var after := tables.With(KeyOf(q), TiersOf(x, q));
    assert tables.At(KeyOf(q)) == NO_TIERS;
    hide KeyOf, TiersOf, Tables.At, Tables.With;
    NamesGrow(c, q);
    TablesWith(tables, KeyOf(q), TiersOf(x, q), KeyOf(q));
    forall p | p in c + [q] ensures after.At(KeyOf(p)) == TiersOf(x, p) {
      TablesWith(tables, KeyOf(q), TiersOf(x, q), KeyOf(p));
      assert p in c ==> KeyOf(p) in Keys(c);
    }
    forall key: string | key !in Keys(c + [q]) ensures after.At(key) == NO_TIERS {
      TablesWith(tables, KeyOf(q), TiersOf(x, q), key);
    }
  }

  class Index {
    const x: Contest
    var workedCallBand: set<string>
    var uniqueCalls: set<string>
    var scoredCallBand: set<string>
    var scoredUniqueCalls: set<string>
    var byBand: map<Kind, map<string, set<Value>>>
    var all: map<Kind, set<Value>>
    var pointCategory: map<string, Category>
    var pointCategoryContinent: map<string, string>
    var pointCategoryCountry: map<string, string>
    var pointCategoryZone: map<string, Category>
    var distanceKm: map<string, nat>
    var pointCategoryIota: map<string, IotaCategory>
    ghost var log: seq<Qso>

    function PointTables(): Tables
      reads this`pointCategory, this`pointCategoryContinent, this`pointCategoryCountry, this`pointCategoryZone, this`distanceKm, this`pointCategoryIota
    {
      Tables(pointCategory, pointCategoryContinent, pointCategoryCountry, pointCategoryZone, distanceKm, pointCategoryIota)
    }

    ghost function Counted(): seq<Qso>
      reads this
    {
      Credited(x.event, log)
    }

    /** The first `done` kinds already include `q`, the others do not. */
    ghost predicate Progress(c: seq<Qso>, q: Qso, done: nat)
      reads this`byBand, this`all
    {
      forall k: Kind :: k in byBand && k in all && KindHolds(x, byBand[k], all[k], if Turn(k) < done then c + [q] else c, k)
    }

    ghost predicate KindsHold(c: seq<Qso>)
      reads this`byBand, this`all
    {
      forall k: Kind :: k in byBand && k in all && KindHolds(x, byBand[k], all[k], c, k)
    }

    ghost predicate Valid()
      reads this
    {
      && workedCallBand == WorkedKeys(log) && uniqueCalls == WorkedCalls(log)
      && scoredCallBand == Keys(Counted())
      && scoredUniqueCalls == Calls(Counted())
      && KindsHold(Counted())
      && (PlainBands(log) ==> TablesHold(x, PointTables(), Counted()))
    }

    constructor (env: Env, event: Event, callsign: string)
      ensures Valid() && log == [] && x.env == env && x.event == event
      ensures x.station == (match env.lookup(Norm(callsign)) case Some(e) => if e.dxcc == 0 then None else Some(e) case None => None)
    {
      var found := env.lookup(Norm(callsign));
      x := Contest(env, event, if found.Some? && found.value.dxcc != 0 then found else None);
      workedCallBand, uniqueCalls, scoredCallBand, scoredUniqueCalls := {}, {}, {}, {};
      byBand, all := map k | k in ALL_KINDS :: map[], map k | k in ALL_KINDS :: {};
      pointCategory, pointCategoryContinent, pointCategoryCountry, pointCategoryZone := map[], map[], map[], map[];
      distanceKm, pointCategoryIota := map[], map[];
      log := [];
      new;
      assert KindsHold([]) by { forall k: Kind ensures k in byBand && k in all { EveryKind(k); } }
    }

    // ---------- Recording ----------

    method AddValue(k: Kind, q: Qso, v: Option<Value>, ghost c: seq<Qso>)
      requires Progress(c, q, Turn(k)) && v == MultValue(x, q, k)
      modifies `byBand, `all
      ensures Progress(c, q, Turn(k) + 1)
    {
      hide MultValue, BandOf, Turn, KindHolds;
      AllTurnsApart(k);
      if v.Some? {
        KindAdds(x, byBand[k], all[k], c, q, k);
        byBand := byBand[k := AddTo(byBand[k], BandOf(q), v.value)];
        all := all[k := all[k] + {v.value}];
      } else {
        KindSkips(x, byBand[k], all[k], c, q, k);
      }
    }

    /** A value some extractor reads from the exchange text alone. */
    method AddCode(k: Kind, q: Qso, ghost c: seq<Qso>)
      requires Progress(c, q, Turn(k)) && IsCode(k)
      modifies `byBand, `all
      ensures Progress(c, q, Turn(k) + 1)
    {
      hide Progress;
      AddValue(k, q, NameValue(x.env.code(k, q.srx)), c);
    }

    method PlaceValues(q: Qso, ghost c: seq<Qso>)
      requires Progress(c, q, 1)
      modifies `byBand, `all
      ensures Progress(c, q, 7)
    {
      hide Progress;
      AddCode(ExchangeArea, q, c);
      AddCode(TnCounty, q, c);
      AddCode(County, q, c);
      AddCode(Canton, q, c);
      AddCode(Oblast, q, c);
      AddCode(DokDistrict, q, c);
    }

    method PrefixValue(q: Qso, ghost c: seq<Qso>)
      requires Progress(c, q, 0)
      modifies `byBand, `all
      ensures Progress(c, q, 1)
    {
      hide Progress, CallOf;
      AddValue(Prefix, q, NameValue(x.env.prefix(CallOf(q))), c);
    }

    method IotaValue(q: Qso, ghost c: seq<Qso>)
      requires Progress(c, q, 7)
      modifies `byBand, `all
      ensures Progress(c, q, 8)
    {
      hide Progress, IotaText;
      AddValue(Iota, q, NameValue(IotaText(x.env, q)), c);
    }

    method IaruValues(q: Qso, ghost c: seq<Qso>)
      requires Progress(c, q, 11)
      modifies `byBand, `all
      ensures Progress(c, q, 13)
    {
      hide Progress, SpecialOf, ZoneOf;
      var special := SpecialOf(q.srx);
      AddValue(IaruHq, q, NameValue(special), c);
      AddValue(IaruZone, q, if special != "" then None else NumberValue(ZoneOf(q.srx)), c);
    }

    /** The values read from the exchange and the call. */
    method ExchangeValues(q: Qso, ghost c: seq<Qso>)
      requires Progress(c, q, 0)
      modifies `byBand, `all
      ensures Progress(c, q, 13)
    {
      hide Progress;
      PrefixValue(q, c);
      PlaceValues(q, c);
      IotaValue(q, c);
      AddCode(NaqpArea, q, c);
      AddCode(SstArea, q, c);
      AddCode(ArrlSection, q, c);
      IaruValues(q, c);
    }

    method AddEntityValue(k: Kind, q: Qso, e: Option<Entity>, ghost c: seq<Qso>)
      requires Progress(c, q, Turn(k)) && FromEntity(k) && e == EntityOf(x, q)
      modifies `byBand, `all
      ensures Progress(c, q, Turn(k) + 1)
    {
      hide Progress, EntityOf, CallOf, EntityValue;
      AddValue(k, q, match e case Some(entity) => EntityValue(x.env, entity, CallOf(q), k) case None => None, c);
    }

    /** The values read from the worked entity. */
    method EntityValues(q: Qso, e: Option<Entity>, ghost c: seq<Qso>)
      requires Progress(c, q, 13) && e == EntityOf(x, q)
      modifies `byBand, `all
      ensures Progress(c, q, 20)
    {
      hide Progress, EntityOf;
      AddEntityValue(Dxcc, q, e, c);
      AddEntityValue(CqZone, q, e, c);
      AddEntityValue(ItuZone, q, e, c);
      AddEntityValue(SacArea, q, e, c);
      AddEntityValue(WaeCountry, q, e, c);
      AddEntityValue(DxccNonWae, q, e, c);
      AddEntityValue(DxccOrWae, q, e, c);
    }

    /** The zone category: from the exchange when it settles it, else by continent. */
    method RecordZoneTier(q: Qso, key: string, e: Option<Entity>)
      requires e == EntityOf(x, q)
      modifies `pointCategoryZone
      ensures key !in old(pointCategoryZone) ==> pointCategoryZone == Put(old(pointCategoryZone), key, ZoneTier(x, q))
    {
      hide EntityOf, SpecialOf, ZoneOf, OwnZone;
      var special, zone := SpecialOf(q.srx), ZoneOf(q.srx);
      ZoneOrSpecial(q.srx);
      if special != "" {
        pointCategoryZone := pointCategoryZone[key := Special];
      } else if zone > 0 {
        var own := OwnZone(x, q);
        if own.Some? && own.value == zone {
          pointCategoryZone := pointCategoryZone[key := SameCountry];
        }
      }
      if e.Some? && x.station.Some? && key !in pointCategoryZone && zone > 0 {
        if e.value.continent != "" && e.value.continent == x.station.value.continent {
          pointCategoryZone := pointCategoryZone[key := SameContinent];
        } else {
          pointCategoryZone := pointCategoryZone[key := OtherContinent];
        }
      }
    }

    /** The country and continent categories, from the worked entity. */
    method RecordCountryTier(key: string, entity: Entity)
      modifies `pointCategory, `pointCategoryContinent, `pointCategoryCountry
      ensures pointCategory == Put(old(pointCategory), key, CountryTier(x, entity))
      ensures pointCategoryContinent
           == if CountryTier(x, entity) == Some(SameContinent) then old(pointCategoryContinent)[key := entity.continent] else old(pointCategoryContinent)
      ensures pointCategoryCountry == if entity.country != "" then old(pointCategoryCountry)[key := entity.country] else old(pointCategoryCountry)
    {
      if entity.country != "" {
        pointCategoryCountry := pointCategoryCountry[key := entity.country];
      }
      if x.station.Some? {
        var mine := x.station.value;
        if entity.dxcc != 0 && entity.dxcc == mine.dxcc {
          pointCategory := pointCategory[key := SameCountry];
        } else if entity.continent != "" && entity.continent == mine.continent {
          pointCategory := pointCategory[key := SameContinent];
          pointCategoryContinent := pointCategoryContinent[key := entity.continent];
        } else {
          pointCategory := pointCategory[key := OtherContinent];
        }
      }
    }

    /** The point categories of a newly counted contact. */
    method RecordTiers(q: Qso, key: string, e: Option<Entity>)
      requires e == EntityOf(x, q)
      modifies `pointCategory, `pointCategoryContinent, `pointCategoryCountry, `pointCategoryZone, `distanceKm, `pointCategoryIota
      ensures key !in old(pointCategoryZone) ==> PointTables() == old(PointTables()).With(key, TiersOf(x, q))
    {
      hide EntityOf, IotaTier, ZoneTier, CountryTier;
      pointCategoryIota := pointCategoryIota[key := IotaTier(x.env, q)];
      RecordZoneTier(q, key, e);
      var distance := x.env.distanceKm(q.srx, q.myGrid);
      if distance.Some? {
        distanceKm := distanceKm[key := distance.value];
      }
      if e.Some? {
        RecordCountryTier(key, e.value);
      }
    }

    /** Everything a newly counted contact adds. */
    method CountContact(q: Qso, ghost c: seq<Qso>)
      requires KindsHold(c)
      modifies `byBand, `all, `pointCategory, `pointCategoryContinent, `pointCategoryCountry, `pointCategoryZone, `distanceKm, `pointCategoryIota
      ensures KindsHold(c + [q])
      ensures TablesHold(x, old(PointTables()), c) && KeyOf(q) !in Keys(c) ==> TablesHold(x, PointTables(), c + [q])
    {
      hide EntityOf, MultValue, BandOf, TiersOf, KindHolds, KeyOf, Tables.With, TablesHold, Keys, Turn;
      ghost var tables := PointTables();
      if TablesHold(x, tables, c) && KeyOf(q) !in Keys(c) { TablesGrow(x, tables, c, q); }
      ExchangeValues(q, c);
      var e := EntityOf(x, q);
      EntityValues(q, e, c);
      RecordTiers(q, KeyOf(q), e);
    }

    /** Adds one contact to the index. */
    method Record(q: Qso)
      requires Valid()
      modifies this
      ensures Valid() && log == old(log) + [q]
    {
      hide CallOf, BandOf, KindsHold, Credited, Taken, TablesHold, WorkedKeys, WorkedCalls, PlainBands, Keys, Calls,
        PointTables;
      ghost var c := Counted();
      RecordFacts(x.event, log, q);
      log := log + [q];
      var call := CallOf(q);
      if call == "" { return; }
      var key := KeyText(call, BandOf(q));
      var duplicate := if x.event.dupeScope == "call" then call in scoredUniqueCalls else key in scoredCallBand;
      workedCallBand, uniqueCalls := workedCallBand + {key}, uniqueCalls + {call};
      if q.unscored || duplicate { return; }
      scoredCallBand, scoredUniqueCalls := scoredCallBand + {key}, scoredUniqueCalls + {call};
      CountContact(q, c);
    }

    // ---------- Reading ----------

    /** Every "all" set is the union of its per-band sets. */
    lemma AllSetsAreUnions(k: Kind)
      requires Valid()
      ensures k in all && k in byBand && all[k] == set b, v | b in byBand[k] && v in byBand[k][b] :: v
    {
      hide MultValue, BandOf, ValuesAll, ValuesOn, BandsWith, Credited, PlainBands, TablesHold, Keys, Calls;
      assert KindHolds(x, byBand[k], all[k], Counted(), k);
      AllIsUnion(x, Counted(), k);
    }

    method SumBands(k: Kind, weighted: bool) returns (total: nat)
      requires Valid()
      ensures total == ScopedCount(x, Counted(), k, if weighted then PerBandWeighted else PerBand)
    {
      hide MultValue, BandOf, Credited, PlainBands, TablesHold, Keys, Calls, PairsIn, Pairs, Weighed, BandBonus,
        ValuesAll, ValuesOn, BandsWith;
      assert KindHolds(x, byBand[k], all[k], Counted(), k);
      var bands := byBand[k];
      KindPairs(x, bands, all[k], Counted(), k);
      NoPairs(bands);
      var todo := bands.Keys;
      total := 0;
      while todo != {}
        invariant todo <= bands.Keys
        invariant total == if weighted then Weighed(PairsIn(bands, bands.Keys - todo)) else |PairsIn(bands, bands.Keys - todo)|
        decreases todo
      {
        var band :| band in todo;
        PairsMore(bands, bands.Keys - todo, band);
        assert bands.Keys - todo + {band} == bands.Keys - (todo - {band});
        todo := todo - {band};
        total := total + (if weighted then |bands[band]| * BandBonus(band) else |bands[band]|);
      }
      assert bands.Keys - todo == bands.Keys;
    }

    method MultiplierCount(rule: Rule) returns (n: nat)
      requires Valid()
      ensures n == Count(x, Counted(), rule)
    {
      hide CounterOf, MultValue, BandOf, Credited, PlainBands, TablesHold, Pairs, Weighed, ValuesOn, BandsWith;
      match CounterOf(rule.kind) {
        case One => n := 1;
        case UniqueCalls => n := |scoredUniqueCalls|;
        case Unknown => n := 0;
        case Tracked(k) =>
          match CountScope(k, rule.per) {
            case PerBand => n := SumBands(k, false);
            case PerBandWeighted => n := SumBands(k, true);
            case PerContest =>
              assert KindHolds(x, byBand[k], all[k], Counted(), k);
              n := |all[k]|;
          }
      }
    }

    method PointsTotal(r: PointsRule) returns (total: int)
      requires Valid()
      ensures PlainBands(log) ==> total == SumPoints(x, Counted(), r)
    {
      hide MultValue, BandOf, Credited, PlainBands, KindsHold, TiersOf, PointsOf, Tables.At, KeyOf, TablesHold;
      ghost var c := Counted();
      ghost var worth := Worths(x, c, r);
      var todo := scoredCallBand;
      total := 0;
      ghost var plain := PlainBands(log);
      if plain { CreditedKeysApart(x.event, log); SumByKey(x, c, r); }
      while todo != {}
        invariant todo <= Keys(c) == worth.Keys
        invariant plain ==> total + SumWorth(todo, worth) == SumPoints(x, c, r)
        decreases todo
      {
        var key :| key in todo;
        if plain {
          WorthAt(c, r, key);
          SumWorthTake(todo, worth, key);
        }
        total := total + PointsOf(r, BandOfKey(key), PointTables().At(key));
        todo := todo - {key};
      }
    }

    lemma WorthAt(c: seq<Qso>, r: PointsRule, key: string)
      requires Apart(c) && PlainBands(c) && key in Keys(c) && TablesHold(x, PointTables(), c)
      ensures Worths(x, c, r)[key] == PointsOf(r, BandOfKey(key), PointTables().At(key))
    {
      hide PointsOf, TiersOf, Tables.At, BandOf, CallOf, Worths, KeyText, BandOfKey;
      var q :| q in c && KeyOf(q) == key;
      WorthOf(x, c, r, q);
      BandOfKeyText(CallOf(q), BandOf(q));
    }

    method ScoreOf(rules: Option<Rules>) returns (score: PartyTally.ContestScore)
      requires Valid()
      ensures PlainBands(log) ==> score == (match rules case Some(r) => Score(x, Counted(), r) case None => PartyTally.ContestScore(0, 0, 0, 0))
    {
      hide PlainBands, Credited, KindsHold, TablesHold, Count, Effective;
      if rules.None? { return PartyTally.ContestScore(0, 0, 0, 0); }
      var points: int;
      if rules.value.points.Some? {
        points := PointsTotal(rules.value.points.value);
      } else {
        points := |scoredCallBand| * rules.value.pointsPerQso;
      }
      var multipliers, list := 0, Effective(rules.value);
      for i := 0 to |list|
        invariant multipliers == Total(x, Counted(), list[..i])
      {
        assert list[..i + 1][..i] == list[..i];
        var n := MultiplierCount(list[i]);
        multipliers := multipliers + n;
      }
      assert list[..|list|] == list;
      score := PartyTally.ContestScore(points, multipliers, 0, 0);
    }

    /** Whether one tracked value is already there, as the predictor looks it up. */
    method AlreadyWorked(k: Kind, per: string, band: string, v: Value) returns (already: bool)
      requires Valid()
      ensures already == if CheckScope(k, per) == PerContest then v in ValuesAll(x, Counted(), k) else v in ValuesOn(x, Counted(), k, band)
    {
      hide MultValue, BandOf, Credited, PlainBands, TablesHold, ValuesAll, ValuesOn, BandsWith;
      assert KindHolds(x, byBand[k], all[k], Counted(), k);
      if CheckScope(k, per) == PerContest {
        already := v in all[k];
      } else {
        KindLookup(x, byBand[k], all[k], Counted(), k, band, v);
        already := band in byBand[k] && v in byBand[k][band];
      }
    }

    /** The advance flags: is some rule's value new, was some rule's value worked before. */
    method WouldBeNewMultiplier(rules: Rules, call: string, band: string, text: string, entity: Option<Entity>)
      returns (newMult: bool, workedBefore: bool)
      requires Valid()
      ensures newMult <==> SomeVerdict(x, Counted(), Effective(rules), Norm(call), Norm(band), text, entity, Fresh)
      ensures workedBefore <==> SomeVerdict(x, Counted(), Effective(rules), Norm(call), Norm(band), text, entity, Worked)
    {
      hide Credited, PlainBands, KindsHold, TablesHold, Effective, CounterOf, ValuesAll, ValuesOn, EntryValue,
        CheckScope, Norm, SomeVerdict;
      var list := Effective(rules);
      ghost var c := Counted();
      newMult, workedBefore := false, false;
      SomeVerdictNone(x, c, list[..0], Norm(call), Norm(band), text, entity);
      for i := 0 to |list|
        invariant newMult <==> SomeVerdict(x, c, list[..i], Norm(call), Norm(band), text, entity, Fresh)
        invariant workedBefore <==> SomeVerdict(x, c, list[..i], Norm(call), Norm(band), text, entity, Worked)
      {
        var rule := list[i];
        SomeVerdictSnoc(x, c, list[..i], rule, Norm(call), Norm(band), text, entity);
        assert list[..i + 1] == list[..i] + [rule];
        match CounterOf(rule.kind) {
          case UniqueCalls =>
            if Norm(call) in scoredUniqueCalls { workedBefore := true; } else { newMult := true; }
          case Tracked(k) =>
            var v := EntryValue(x, Norm(call), text, entity, k);
            if v.Some? {
              var already := AlreadyWorked(k, rule.per, Norm(band), v.value);
              if already { workedBefore := true; } else { newMult := true; }
            }
          case _ =>
        }
      }
      assert list[..|list|] == list;
    }
  }

  predicate SomeVerdict(x: Contest, c: seq<Qso>, rules: seq<Rule>, call: string, band: string, text: string, entity: Option<Entity>, verdict: Verdict) {
    exists i :: 0 <= i < |rules| && Predict(x, c, rules[i], call, band, text, entity) == verdict
  }

  lemma SomeVerdictNone(x: Contest, c: seq<Qso>, rules: seq<Rule>, call: string, band: string, text: string, entity: Option<Entity>)
    requires rules == []
    ensures forall verdict :: !SomeVerdict(x, c, rules, call, band, text, entity, verdict)
  {
  }

  lemma SomeVerdictSnoc(x: Contest, c: seq<Qso>, rules: seq<Rule>, rule: Rule, call: string, band: string, text: string, entity: Option<Entity>)
    ensures forall verdict ::
              SomeVerdict(x, c, rules + [rule], call, band, text, entity, verdict)
              <==> SomeVerdict(x, c, rules, call, band, text, entity, verdict) || Predict(x, c, rule, call, band, text, entity) == verdict
  {
    hide Predict;
    forall verdict | SomeVerdict(x, c, rules, call, band, text, entity, verdict)
      ensures SomeVerdict(x, c, rules + [rule], call, band, text, entity, verdict)
    {
      var i :| 0 <= i < |rules| && Predict(x, c, rules[i], call, band, text, entity) == verdict;
      assert (rules + [rule])[i] == rules[i];
    }
    assert (rules + [rule])[|rules|] == rule;
  }

  /** The live flag and the score agree: before a plain contact that will count is
      logged, the flag says whether the multiplier total is about to rise. */
  lemma FlagIsRise(x: Contest, log: seq<Qso>, rules: Rules, q: Qso)
    requires Candidate(x, log, q) && forall i :: 0 <= i < |Effective(rules)| ==> Agrees(Effective(rules)[i], BandOf(q))
    ensures SomeVerdict(x, Credited(x.event, log), Effective(rules), Norm(q.call), Norm(q.band), q.srx, x.env.lookup(Norm(q.call)), Fresh)
        <==> Total(x, Credited(x.event, log + [q]), Effective(rules)) > Total(x, Credited(x.event, log), Effective(rules))
  {
    PredictorIsExact(x, log, rules, q);
    hide Agrees, Effective, Credited, Total, Norm, Predict, Plain, Eligible, Taken;
  }

  lemma NoPairs(m: map<string, set<Value>>)
    ensures PairsIn(m, m.Keys - m.Keys) == {} && Weighed({}) == 0
  {
    assert forall n: nat :: WithBonus({}, n) == {};
  }
}
