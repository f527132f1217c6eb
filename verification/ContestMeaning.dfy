/** What one counted contact is worth and which multiplier it brings, read from the
    contact, the country table and the rule's own fields. */
module ContestMeaning {
  import opened Text
  import opened Contest
  import opened ContestCount
  import opened ContestPoints

  // ---------- The entity of a contact ----------

  /** A recorded positive number replaces the one of the table. */
  ghost predicate Recorded(text: string, table: int, n: int) {
    && (forall v :: Atoi(TrimSpace(text)) == Some(v) && v > 0 ==> n == v)
    && ((forall v :: Atoi(TrimSpace(text)) == Some(v) ==> v <= 0) ==> n == table)
  }

  /** A zone from 1 to 40 sent in the exchange, 0 for anything else. */
  ghost predicate ZoneSent(text: string, n: int) {
    && (forall v :: Atoi(TrimSpace(text)) == Some(v) && 1 <= v <= 40 ==> n == v)
    && ((forall v :: Atoi(TrimSpace(text)) == Some(v) ==> !(1 <= v <= 40)) ==> n == 0)
  }

  /** The country is named in the list, case and blanks aside. */
  ghost predicate Listed(list: seq<string>, country: string) {
    TrimSpace(country) != "" && exists name :: name in list && ToUpper(TrimSpace(name)) == ToUpper(TrimSpace(country))
  }

  /** The contact was with entity `e`: the table's entry for the call, with what the contact recorded; in a
      zone event the zone is the one sent, except from the domestic countries. */
  ghost predicate WorkedAs(x: Contest, q: Qso, e: Entity) {
    && x.env.lookup(ToUpper(TrimSpace(q.call))).Some?
    && var table := x.env.lookup(ToUpper(TrimSpace(q.call))).value;
       && e.continent == table.continent
       && (TrimSpace(q.country) != "" ==> e.country == TrimSpace(q.country))
       && (TrimSpace(q.country) == "" ==> e.country == table.country)
       && Recorded(q.dxcc, table.dxcc, e.dxcc)
       && Recorded(q.ituZone, table.ituZone, e.ituZone)
       && if TrimSpace(x.event.autofill) == "cq_zone" && !Listed(x.event.domestic, e.country) then ZoneSent(q.srx, e.cqZone)
          else Recorded(q.cqZone, table.cqZone, e.cqZone)
  }

  lemma ListedMeans(list: seq<string>, country: string)
    ensures InList(list, country) <==> Listed(list, country)
  {
    hide ToUpper, TrimSpace;
    if Listed(list, country) {
      var name :| name in list && ToUpper(TrimSpace(name)) == ToUpper(TrimSpace(country));
      var i :| 0 <= i < |list| && list[i] == name;
    }
  }

  lemma RecordedMeans(text: string, table: int, n: int)
    ensures Recorded(text, table, n) <==> n == PositiveOr(text, table)
  {
    hide TrimSpace, Atoi;
  }

  lemma ZoneSentMeans(text: string, n: int)
    ensures ZoneSent(text, n) <==> n == match Atoi(TrimSpace(text)) case Some(v) => (if 1 <= v <= 40 then v else 0) case None => 0
  {
    hide TrimSpace, Atoi;
  }

  /** A contact has one entity, and none exactly when the table does not know its call. */
  lemma EntityMeans(x: Contest, q: Qso, e: Entity)
    ensures EntityOf(x, q) == Some(e) <==> WorkedAs(x, q, e)
    ensures EntityOf(x, q) == None <==> x.env.lookup(ToUpper(TrimSpace(q.call))) == None
  {
    hide PositiveOr, Recorded, ZoneSent, Listed, InList, TrimSpace, ToUpper, Atoi;
    if x.env.lookup(ToUpper(TrimSpace(q.call))).Some? {
      var table := x.env.lookup(ToUpper(TrimSpace(q.call))).value;
      RecordedMeans(q.dxcc, table.dxcc, e.dxcc);
      RecordedMeans(q.ituZone, table.ituZone, e.ituZone);
      RecordedMeans(q.cqZone, table.cqZone, e.cqZone);
      ZoneSentMeans(q.srx, e.cqZone);
      ListedMeans(x.event.domestic, Persisted(table, q).country);
      ListedMeans(x.event.domestic, e.country);
    }
  }

  // ---------- Points ----------

  /** What a single counted contact is worth under a points rule. */
  function Worth(x: Contest, q: Qso, r: PointsRule): int { SumPoints(x, [q], r) }

  lemma WorthIsPoints(x: Contest, q: Qso, r: PointsRule)
    ensures Worth(x, q, r) == PointsOf(r, BandOf(q), TiersOf(x, q))
  {
    hide PointsOf, TiersOf;
    assert [q][..0] == [];
    assert SumPoints(x, [], r) == 0;
  }

  /** The points of a log are those of its contacts, added up. */
  lemma PointsAddUp(x: Contest, c: seq<Qso>, q: Qso, r: PointsRule)
    ensures SumPoints(x, [], r) == 0 && SumPoints(x, c + [q], r) == SumPoints(x, c, r) + Worth(x, q, r)
  {
    hide PointsOf, TiersOf;
    WorthIsPoints(x, q, r);
    assert (c + [q])[..|c|] == c;
  }

  /** The bands below 10 MHz pay the low-band points. */
  ghost predicate OnLowBand(q: Qso) { ToUpper(TrimSpace(q.band)) in {"160M", "80M", "40M"} }

  /** A rule that pays by country and continent. */
  predicate ByLand(r: PointsRule) { r.perKm.None? && r.zone.None? && r.perBand == map[] && r.iota.None? }

  lemma LandWorth(x: Contest, q: Qso, r: PointsRule)
    requires ByLand(r)
    ensures Worth(x, q, r) == LandPoints(r, BandOf(q), TiersOf(x, q))
    ensures LowBand(BandOf(q)) <==> OnLowBand(q)
  {
    hide LandPoints, TiersOf, TrimSpace, ToUpper;
    WorthIsPoints(x, q, r);
    NormTwice(q.band);
  }

  /** A call the table does not know scores nothing. */
  lemma UnknownWorth(x: Contest, q: Qso, r: PointsRule)
    requires ByLand(r) && x.env.lookup(ToUpper(TrimSpace(q.call))) == None
    ensures Worth(x, q, r) == 0
  {
    hide ZoneTier, IotaTier, InList, TrimSpace, ToUpper;
    LandWorth(x, q, r);
  }

  /** A contact with a country of the rule's group, whatever the operator's own country. */
  lemma GroupWorth(x: Contest, q: Qso, r: PointsRule, e: Entity)
    requires ByLand(r) && WorkedAs(x, q, e) && Listed(r.group, e.country)
    ensures OnLowBand(q) && r.lowGroupPoints != 0 ==> Worth(x, q, r) == r.lowGroupPoints
    ensures !OnLowBand(q) || r.lowGroupPoints == 0 ==> Worth(x, q, r) == r.groupPoints
  {
    hide ZoneTier, IotaTier, CountryTier, InList, EntityOf, WorkedAs, OnLowBand, LowBand, Listed, Worth;
    LandWorth(x, q, r);
    EntityMeans(x, q, e);
    ListedMeans(r.group, e.country);
    ListedHasName(r.group, e.country);
  }

  lemma ListedHasName(list: seq<string>, country: string)
    requires Listed(list, country)
    ensures country != ""
  {
    assert TrimSpace("") == "";
  }

  lemma UngroupedWorth(x: Contest, q: Qso, r: PointsRule, e: Entity)
    requires ByLand(r) && WorkedAs(x, q, e) && !Listed(r.group, e.country)
    ensures var t := TiersOf(x, q); !(t.country.Some? && InList(r.group, t.country.value))
    ensures var t := TiersOf(x, q); t.category == CountryTier(x, e) && (t.category == Some(SameContinent) ==> t.continent == Some(e.continent))
  {
    hide ZoneTier, IotaTier, CountryTier, InList, EntityOf, WorkedAs, Listed, Worth;
    EntityMeans(x, q, e);
    ListedMeans(r.group, e.country);
  }

  /** Without a country of the operator's own, any other contact scores nothing. */
  lemma StationlessWorth(x: Contest, q: Qso, r: PointsRule, e: Entity)
    requires ByLand(r) && WorkedAs(x, q, e) && !Listed(r.group, e.country) && x.station.None?
    ensures Worth(x, q, r) == 0
  {
    hide TiersOf, WorkedAs, Listed, InList, LowBand, Worth, OnLowBand;
    LandWorth(x, q, r);
    UngroupedWorth(x, q, r, e);
  }

  /** A contact inside the operator's own country. */
  lemma HomeWorth(x: Contest, q: Qso, r: PointsRule, e: Entity, home: Entity)
    requires ByLand(r) && WorkedAs(x, q, e) && !Listed(r.group, e.country) && x.station == Some(home)
    requires e.dxcc == home.dxcc != 0
    ensures Worth(x, q, r) == r.sameCountry
  {
    hide TiersOf, WorkedAs, Listed, InList, LowBand, Worth, OnLowBand;
    LandWorth(x, q, r);
    UngroupedWorth(x, q, r, e);
  }

  /** A contact with another country of the operator's continent. */
  lemma ContinentWorth(x: Contest, q: Qso, r: PointsRule, e: Entity, home: Entity)
    requires ByLand(r) && WorkedAs(x, q, e) && !Listed(r.group, e.country) && x.station == Some(home)
    requires (e.dxcc != home.dxcc || e.dxcc == 0) && e.continent == home.continent != ""
    ensures var paid := if OnLowBand(q) && r.lowOverrides != map[] then r.lowOverrides else r.overrides;
      && (e.continent in paid ==> Worth(x, q, r) == paid[e.continent])
      && (e.continent !in paid && OnLowBand(q) && r.lowSameContinent != 0 ==> Worth(x, q, r) == r.lowSameContinent)
      && (e.continent !in paid && (!OnLowBand(q) || r.lowSameContinent == 0) ==> Worth(x, q, r) == r.sameContinent)
  {
    hide TiersOf, WorkedAs, Listed, InList, LowBand, Worth, OnLowBand;
    LandWorth(x, q, r);
    UngroupedWorth(x, q, r, e);
  }

  /** A contact with another continent, or with one the table does not know. */
  lemma AbroadWorth(x: Contest, q: Qso, r: PointsRule, e: Entity, home: Entity)
    requires ByLand(r) && WorkedAs(x, q, e) && !Listed(r.group, e.country) && x.station == Some(home)
    requires (e.dxcc != home.dxcc || e.dxcc == 0) && (e.continent != home.continent || e.continent == "")
    ensures OnLowBand(q) && r.lowOtherContinent != 0 ==> Worth(x, q, r) == r.lowOtherContinent
    ensures !OnLowBand(q) || r.lowOtherContinent == 0 ==> Worth(x, q, r) == r.otherContinent
  {
    hide TiersOf, WorkedAs, Listed, InList, LowBand, Worth, OnLowBand;
    LandWorth(x, q, r);
    UngroupedWorth(x, q, r, e);
  }

  /** Points by distance: one, and one more for every full step; none without both grids. */
  lemma DistanceWorth(x: Contest, q: Qso, r: PointsRule)
    requires r.perKm.Some?
    ensures x.env.distanceKm(q.srx, q.myGrid) == None ==> Worth(x, q, r) == 0
    ensures forall km :: x.env.distanceKm(q.srx, q.myGrid) == Some(km) ==> Worth(x, q, r) == 1 + km / r.perKm.value
  {
    hide ZoneTier, IotaTier, CountryTier, EntityOf;
    WorthIsPoints(x, q, r);
  }

  /** Points by band: those the rule lists, none for a band it does not list. */
  lemma BandWorth(x: Contest, q: Qso, r: PointsRule)
    requires r.perKm.None? && r.zone.None? && r.perBand != map[]
    ensures var band := ToUpper(TrimSpace(q.band));
      && (band in r.perBand ==> Worth(x, q, r) == r.perBand[band])
      && (band !in r.perBand ==> Worth(x, q, r) == 0)
  {
    hide TiersOf, ToUpper, TrimSpace;
    WorthIsPoints(x, q, r);
  }

  // ---------- Points by zone ----------

  /** A zone number sent in the exchange. */
  ghost predicate SendsZone(text: string, n: int) { Atoi(ToUpper(TrimSpace(text))) == Some(n) && 1 <= n <= 90 }

  ghost predicate SendsNoZone(text: string) { forall n :: !SendsZone(text, n) }

  /** A headquarters abbreviation: up to twelve letters, or one of the three regions. */
  ghost predicate SendsAbbreviation(text: string) {
    var t := ToUpper(TrimSpace(text));
    && SendsNoZone(text) && 1 <= |t| <= 12
    && (t in {"R1", "R2", "R3"} || forall i :: 0 <= i < |t| ==> 'A' <= t[i] <= 'Z')
  }

  lemma ZoneMeans(text: string)
    ensures forall n :: SendsZone(text, n) <==> n == ZoneOf(text) && n > 0
    ensures SendsNoZone(text) <==> ZoneOf(text) == 0
  {
    hide ToUpper, TrimSpace, Atoi;
    if ZoneOf(text) > 0 { assert SendsZone(text, ZoneOf(text)); }
  }

  lemma AbbreviationMeans(text: string)
    ensures SendsAbbreviation(text) <==> SpecialOf(text) != ""
    ensures SendsAbbreviation(text) ==> SpecialOf(text) == ToUpper(TrimSpace(text))
  {
    hide ToUpper, TrimSpace, Atoi, SendsNoZone, ZoneOf;
    NormTwice(text);
    ZoneMeans(text);
    ZoneMeans(Norm(text));
    assert ZoneOf(Norm(text)) == ZoneOf(text) by { NormZone(text); }
  }

  lemma NormZone(text: string)
    ensures ZoneOf(Norm(text)) == ZoneOf(text)
  {
    NormTwice(text);
    hide ToUpper, TrimSpace, Atoi;
  }

  /** The operator's own zone is the one sent or, failing that, the station's. */
  ghost predicate FromZone(x: Contest, q: Qso, n: int) {
    SendsZone(q.stx, n) || (SendsNoZone(q.stx) && x.station.Some? && x.station.value.ituZone == n > 0)
  }

  lemma OwnZoneMeans(x: Contest, q: Qso, n: int)
    ensures OwnZone(x, q) == Some(n) <==> FromZone(x, q, n)
  {
    hide ZoneOf, SendsZone, SendsNoZone;
    ZoneMeans(q.stx);
  }

  predicate ByZone(r: PointsRule) { r.perKm.None? && r.zone.Some? }

  /** An abbreviation pays the special points; an exchange that is neither, nothing; one's own zone, its own points. */
  lemma ZoneWorth(x: Contest, q: Qso, r: PointsRule)
    requires ByZone(r)
    ensures SendsAbbreviation(q.srx) ==> Worth(x, q, r) == r.zone.value.special
    ensures !SendsAbbreviation(q.srx) && SendsNoZone(q.srx) ==> Worth(x, q, r) == 0
    ensures forall n :: SendsZone(q.srx, n) && FromZone(x, q, n) ==> Worth(x, q, r) == r.zone.value.same
  {
    hide IotaTier, CountryTier, EntityOf, SendsZone, SendsNoZone, SendsAbbreviation, FromZone, OwnZone, ZoneOf, SpecialOf, SameLand;
    WorthIsPoints(x, q, r);
    AbbreviationMeans(q.srx);
    ZoneMeans(q.srx);
    forall n ensures OwnZone(x, q) == Some(n) <==> FromZone(x, q, n) { OwnZoneMeans(x, q, n); }
    ZoneOrSpecial(q.srx);
  }

  /** Another zone pays by continent. */
  lemma OtherZoneWorth(x: Contest, q: Qso, r: PointsRule, n: int)
    requires ByZone(r) && SendsZone(q.srx, n) && !FromZone(x, q, n)
    ensures x.env.lookup(ToUpper(TrimSpace(q.call))) == None || x.station == None ==> Worth(x, q, r) == 0
    ensures forall e, home :: WorkedAs(x, q, e) && x.station == Some(home) ==>
              Worth(x, q, r) == if e.continent == home.continent != "" then r.zone.value.sameContinent else r.zone.value.other
  {
    hide IotaTier, CountryTier, SendsZone, SendsNoZone, FromZone, OwnZone, ZoneOf, SpecialOf, WorkedAs, EntityOf, ToUpper, TrimSpace;
    WorthIsPoints(x, q, r);
    ZoneMeans(q.srx);
    OwnZoneMeans(x, q, n);
    ZoneOrSpecial(q.srx);
    EntityMeans(x, q, Entity("", 0, 0, 0, ""));
    forall e ensures EntityOf(x, q) == Some(e) <==> WorkedAs(x, q, e) { EntityMeans(x, q, e); }
  }

  // ---------- Points by island ----------

  predicate ByIsland(r: PointsRule) { r.perKm.None? && r.zone.None? && r.perBand == map[] && r.iota.Some? }

  /** The island reference of the worked station: the one exchanged or, failing that, the one recorded. */
  ghost predicate TheirIsland(x: Contest, q: Qso, ref: string) {
    ref == (if x.env.code(Iota, q.srx) != "" then x.env.code(Iota, q.srx) else x.env.code(Iota, q.iotaRef))
  }

  /** Islands pay by who is on one. */
  lemma IslandWorth(x: Contest, q: Qso, r: PointsRule, theirs: string)
    requires ByIsland(r) && TheirIsland(x, q, theirs)
    ensures var mine, i := x.env.code(Iota, q.myIotaRef), r.iota.value;
      && (mine == "" && theirs == "" ==> Worth(x, q, r) == i.worldWorld)
      && (mine == "" && theirs != "" ==> Worth(x, q, r) == i.worldIsland)
      && (mine != "" && theirs == "" ==> Worth(x, q, r) == i.islandWorld)
      && (mine != "" && theirs == mine ==> Worth(x, q, r) == i.islandSame)
      && (mine != "" && theirs != "" && theirs != mine ==> Worth(x, q, r) == i.islandOther)
  {
    hide ZoneTier, CountryTier, EntityOf;
    WorthIsPoints(x, q, r);
  }

  // ---------- The multiplier a contact brings ----------

  ghost predicate BringsCountry(x: Contest, q: Qso, k: Kind, v: Value) {
    exists e :: WorkedAs(x, q, e)
      && match k
         case Dxcc => e.dxcc != 0 && v == Number(e.dxcc)
         case CqZone => e.cqZone != 0 && v == Number(e.cqZone)
         case ItuZone => e.ituZone != 0 && v == Number(e.ituZone)
         case SacArea => x.env.sacArea(e, ToUpper(TrimSpace(q.call))) != "" && v == Name(x.env.sacArea(e, ToUpper(TrimSpace(q.call))))
         case WaeCountry => x.env.isWae(e.country) && e.country != "" && v == Name(e.country)
         case DxccNonWae => !x.env.isWae(e.country) && e.dxcc != 0 && v == Number(e.dxcc)
         case DxccOrWae => e.country != "" && (e.dxcc != 0 || x.env.isWae(e.country)) && v == Name(e.country)
         case _ => false
  }

  /** The contact counts as multiplier `v` of kind `k`. */
  ghost predicate Brings(x: Contest, q: Qso, k: Kind, v: Value) {
    match k
    case Prefix => x.env.prefix(ToUpper(TrimSpace(q.call))) != "" && v == Name(x.env.prefix(ToUpper(TrimSpace(q.call))))
    case Iota => exists ref :: TheirIsland(x, q, ref) && ref != "" && v == Name(ref)
    case IaruHq => SendsAbbreviation(q.srx) && v == Name(ToUpper(TrimSpace(q.srx)))
    case IaruZone => exists n :: SendsZone(q.srx, n) && v == Number(n)
    case _ =>
      || BringsCountry(x, q, k, v)
      || (k in {ExchangeArea, TnCounty, County, Canton, Oblast, DokDistrict, NaqpArea, SstArea, ArrlSection}
          && x.env.code(k, q.srx) != "" && v == Name(x.env.code(k, q.srx)))
  }

  lemma CountryMeans(x: Contest, q: Qso, k: Kind, v: Value)
    requires FromEntity(k)
    ensures MultValue(x, q, k) == Some(v) <==> BringsCountry(x, q, k, v)
  {
    hide EntityOf, WorkedAs, ToUpper, TrimSpace;
    forall e ensures EntityOf(x, q) == Some(e) <==> WorkedAs(x, q, e) { EntityMeans(x, q, e); }
  }

  /** Every kind of multiplier comes from its own field of the contact. */
  lemma ValueMeans(x: Contest, q: Qso, k: Kind, v: Value)
    ensures MultValue(x, q, k) == Some(v) <==> Brings(x, q, k, v)
  {
    hide EntityOf, WorkedAs, ToUpper, TrimSpace, SendsAbbreviation, SendsZone, SendsNoZone, SpecialOf, ZoneOf, BringsCountry;
    if FromEntity(k) { CountryMeans(x, q, k, v); } else { NoCountry(x, q, k, v); }
    AbbreviationMeans(q.srx);
    ZoneMeans(q.srx);
    ZoneOrSpecial(q.srx);
  }

  lemma NoCountry(x: Contest, q: Qso, k: Kind, v: Value)
    requires !FromEntity(k)
    ensures !BringsCountry(x, q, k, v)
  {
    hide WorkedAs;
  }

  // ---------- The values a log has worked ----------

  /** A value is worked on a band, or anywhere, when some counted contact brought it there. */
  lemma WorkedMeans(x: Contest, c: seq<Qso>, k: Kind, band: string, v: Value)
    ensures v in ValuesOn(x, c, k, band) <==> exists q :: q in c && ToUpper(TrimSpace(q.band)) == band && Brings(x, q, k, v)
    ensures v in ValuesAll(x, c, k) <==> exists q :: q in c && Brings(x, q, k, v)
  {
    hide MultValue, Brings, TrimSpace, ToUpper;
    forall q ensures MultValue(x, q, k) == Some(v) <==> Brings(x, q, k, v) { ValueMeans(x, q, k, v); }
  }

  // ---------- The kinds of a rule ----------

  /** The name of a kind in the contest catalog. */
  function KindName(k: Kind): string {
    match k
    case Prefix => "prefix" case ExchangeArea => "exchange_area" case TnCounty => "tn_county" case County => "county"
    case Canton => "canton" case Oblast => "oblast" case DokDistrict => "dok_district" case Iota => "iota"
    case NaqpArea => "naqp_area" case SstArea => "sst_area" case ArrlSection => "arrl_section" case IaruHq => "iaru_hq"
    case IaruZone => "iaru_zone" case Dxcc => "dxcc" case CqZone => "cqzone" case ItuZone => "ituzone"
    case SacArea => "sac_area" case WaeCountry => "wae_country" case DxccNonWae => "dxcc_non_wae" case DxccOrWae => "dxcc_or_wae"
  }

  lemma NamedKind(kind: string, k: Kind)
    requires TrimSpace(kind) == KindName(k)
    ensures CounterOf(kind) == Tracked(k)
  {
    hide TrimSpace;
  }

  lemma TrackedName(kind: string)
    ensures CounterOf(kind).Tracked? ==> TrimSpace(kind) == KindName(CounterOf(kind).kind)
  {
    hide TrimSpace;
  }

  lemma OtherNames(kind: string)
    ensures CounterOf(kind) == One <==> TrimSpace(kind) == "none"
    ensures CounterOf(kind) == UniqueCalls <==> TrimSpace(kind) == "unique_call"
  {
    hide TrimSpace;
  }

  /** A rule counts the kind it names; two further names count one multiplier, or the calls; any other counts nothing. */
  lemma KindsByName(kind: string)
    ensures forall k :: CounterOf(kind) == Tracked(k) <==> TrimSpace(kind) == KindName(k)
    ensures CounterOf(kind) == One <==> TrimSpace(kind) == "none"
    ensures CounterOf(kind) == UniqueCalls <==> TrimSpace(kind) == "unique_call"
  {
    hide TrimSpace, KindName, CounterOf;
    TrackedName(kind);
    OtherNames(kind);
    forall k | TrimSpace(kind) == KindName(k) ensures CounterOf(kind) == Tracked(k) { NamedKind(kind, k); }
  }

  /** The kinds that may count by weighted bands. */
  ghost predicate MayWeigh(k: Kind) { k in {Dxcc, CqZone, ItuZone, IaruZone, DxccNonWae, WaeCountry} }

  /** What a rule counts: values per band, values weighed 4, 3 and 2 by band, or values of the whole log. */
  lemma CountMeans(x: Contest, c: seq<Qso>, rule: Rule, k: Kind)
    requires TrimSpace(rule.kind) == KindName(k)
    ensures TrimSpace(rule.per) == "band" ==> Count(x, c, rule) == |Pairs(x, c, k)|
    ensures TrimSpace(rule.per) == "band_weighted" && MayWeigh(k) ==>
              Count(x, c, rule) == 4 * |ValuesOn(x, c, k, "80M")| + 3 * |ValuesOn(x, c, k, "40M")|
                                   + 2 * (|ValuesOn(x, c, k, "20M")| + |ValuesOn(x, c, k, "15M")| + |ValuesOn(x, c, k, "10M")|)
    ensures TrimSpace(rule.per) != "band" && !(TrimSpace(rule.per) == "band_weighted" && MayWeigh(k)) ==>
              Count(x, c, rule) == |ValuesAll(x, c, k)|
  {
    hide TrimSpace, MultValue, ValuesOn, ValuesAll, Pairs, Weighed;
    NamedKind(rule.kind, k);
    hide CounterOf;
    WeighedMeans(x, c, k);
  }

  lemma WeighedMeans(x: Contest, c: seq<Qso>, k: Kind)
    ensures Weighed(Pairs(x, c, k)) == 4 * |ValuesOn(x, c, k, "80M")| + 3 * |ValuesOn(x, c, k, "40M")|
                                       + 2 * (|ValuesOn(x, c, k, "20M")| + |ValuesOn(x, c, k, "15M")| + |ValuesOn(x, c, k, "10M")|)
  {
    hide MultValue, ValuesOn, Pairs, BandBonus, WithBonus, Row;
    BonusRow(x, c, k, 4, "80M");
    BonusRow(x, c, k, 3, "40M");
    BonusRows(x, c, k);
  }

  lemma BonusRow(x: Contest, c: seq<Qso>, k: Kind, n: nat, band: string)
    requires (n == 4 && band == "80M") || (n == 3 && band == "40M")
    ensures |WithBonus(Pairs(x, c, k), n)| == |ValuesOn(x, c, k, band)|
  {
    hide MultValue, BandBonus, TrimSpace, ToUpper, ValuesOn;
    forall p | p in Pairs(x, c, k) ensures BandBonus(p.0) == n <==> p.0 == band { PairBonus(x, c, k, p); }
    forall v ensures v in ValuesOn(x, c, k, band) <==> (band, v) in Pairs(x, c, k) { PairMember(x, c, k, band, v); }
    hide Pairs;
    assert WithBonus(Pairs(x, c, k), n) == Row(band, ValuesOn(x, c, k, band));
    RowSize(band, ValuesOn(x, c, k, band));
  }

  lemma BonusRows(x: Contest, c: seq<Qso>, k: Kind)
    ensures |WithBonus(Pairs(x, c, k), 2)| == |ValuesOn(x, c, k, "20M")| + |ValuesOn(x, c, k, "15M")| + |ValuesOn(x, c, k, "10M")|
  {
    hide MultValue, BandBonus, TrimSpace, ToUpper, ValuesOn;
    forall p | p in Pairs(x, c, k) ensures BandBonus(p.0) == 2 <==> p.0 in {"20M", "15M", "10M"} { PairBonus(x, c, k, p); }
    forall b, v ensures v in ValuesOn(x, c, k, b) <==> (b, v) in Pairs(x, c, k) { PairMember(x, c, k, b, v); }
    hide Pairs;
    var p, q, r := Row("20M", ValuesOn(x, c, k, "20M")), Row("15M", ValuesOn(x, c, k, "15M")), Row("10M", ValuesOn(x, c, k, "10M"));
    assert WithBonus(Pairs(x, c, k), 2) == p + q + r;
    assert p !! q && p + q !! r;
    RowSize("20M", ValuesOn(x, c, k, "20M"));
    RowSize("15M", ValuesOn(x, c, k, "15M"));
    RowSize("10M", ValuesOn(x, c, k, "10M"));
  }

  /** The bands of worked values are written in capitals without blanks. */
  lemma PairBonus(x: Contest, c: seq<Qso>, k: Kind, p: (string, Value))
    requires p in Pairs(x, c, k)
    ensures BandBonus(p.0) == if p.0 == "80M" then 4 else if p.0 == "40M" then 3 else if p.0 in {"20M", "15M", "10M"} then 2 else 0
  {
    hide MultValue, TrimSpace, ToUpper;
    var band := p.0;
    var q :| q in c && BandOf(q) == band;
    NormTwice(q.band);
    assert BandOf(q) == Norm(q.band);
    assert Norm(band) == band;
  }

  // ---------- The score ----------

  /** The figures of a score: points by the rule or a flat number per slot, multipliers added up over the
      rules, or those of the one plain multiplier; no bonus and no power factor. */
  lemma ScoreMeans(x: Contest, c: seq<Qso>, rules: Rules)
    ensures var out := Score(x, c, rules);
      && (forall r :: rules.points == Some(r) ==> out.qsoPoints == SumPoints(x, c, r))
      && (rules.points == None ==> out.qsoPoints == rules.pointsPerQso * |set q | q in c :: KeyOf(q)|)
      && (rules.multipliers != [] ==> out.multipliers == Total(x, c, rules.multipliers))
      && (rules.multipliers == [] && TrimSpace(rules.multiplier) != "" ==>
            out.multipliers == Count(x, c, Rule(TrimSpace(rules.multiplier), "contest")))
      && (rules.multipliers == [] && TrimSpace(rules.multiplier) == "" ==> out.multipliers == 0)
      && out.Total() == out.qsoPoints * out.multipliers
  {
    hide Count, SumPoints, TrimSpace, KeyOf;
    var rule := Rule(TrimSpace(rules.multiplier), "contest");
    TotalAddsUp(x, c, [], rule);
    assert [] + [rule] == [rule];
  }

  /** The multipliers of several rules are added up; a rule may count one multiplier, or the distinct calls. */
  lemma TotalAddsUp(x: Contest, c: seq<Qso>, rules: seq<Rule>, rule: Rule)
    ensures Total(x, c, []) == 0 && Total(x, c, rules + [rule]) == Total(x, c, rules) + Count(x, c, rule)
    ensures TrimSpace(rule.kind) == "none" ==> Count(x, c, rule) == 1
    ensures TrimSpace(rule.kind) == "unique_call" ==> Count(x, c, rule) == |set q | q in c :: ToUpper(TrimSpace(q.call))|
    ensures TrimSpace(rule.kind) !in {"none", "unique_call"} && (forall k :: TrimSpace(rule.kind) != KindName(k)) ==> Count(x, c, rule) == 0
  {
    hide TrimSpace, ToUpper, ScopedCount;
    KindsByName(rule.kind);
    hide CounterOf;
    assert Calls(c) == set q | q in c :: ToUpper(TrimSpace(q.call));
    assert (rules + [rule])[..|rules|] == rules;
  }

  // ---------- The contacts that count ----------

  /** Two contacts are duplicates: the same call and, unless the event goes by calls alone, the same band. */
  ghost predicate Duplicates(event: Event, p: Qso, q: Qso) {
    && ToUpper(TrimSpace(p.call)) == ToUpper(TrimSpace(q.call))
    && (event.dupeScope == "call" || ToUpper(TrimSpace(p.band)) == ToUpper(TrimSpace(q.band)))
  }

  ghost predicate MayCount(q: Qso) { TrimSpace(q.call) != "" && !q.unscored }

  /** A contact counts when it has a call, is no /X contact, and no earlier such contact duplicates it. */
  lemma CountedMeans(event: Event, log: seq<Qso>, q: Qso)
    requires PlainBands(log)
    ensures q in Credited(event, log)
            <==> exists i :: 0 <= i < |log| && log[i] == q && MayCount(q) && forall j :: 0 <= j < i && MayCount(log[j]) ==> !Duplicates(event, log[j], q)
  {
    CreditedIffFirst(event, log, q);
    hide Credited, Duplicates, MayCount, Slot, Eligible;
    forall p ensures Eligible(p) <==> MayCount(p) { EligibleMeans(p); }
    forall i, j | 0 <= i < |log| && 0 <= j < |log| ensures Slot(event, log[j]) == Slot(event, log[i]) <==> Duplicates(event, log[j], log[i]) {
      SlotMeans(event, log[j], log[i]);
    }
  }

  lemma EligibleMeans(q: Qso)
    ensures Eligible(q) <==> MayCount(q)
  {
    hide TrimSpace;
  }

  lemma SlotMeans(event: Event, p: Qso, q: Qso)
    requires '|' !in BandOf(p) && '|' !in BandOf(q)
    ensures Slot(event, p) == Slot(event, q) <==> Duplicates(event, p, q)
  {
    hide TrimSpace, ToUpper;
    KeysApart(CallOf(p), BandOf(p), CallOf(q), BandOf(q));
  }

  // ---------- The live prediction ----------

  /** The contact the entry fields stand for, in a world that knows its call as the entry does. */
  function Entered(x: Contest, call: string, band: string, text: string, entity: Option<Entity>): (Contest, Qso) {
    (x.(env := x.env.(lookup := _ => entity)), Qso(call, band, text, "", "", "", "", "", "", "", "", false))
  }

  /** The predictor looks for the value the contact would bring. */
  lemma EntryMeans(x: Contest, call: string, band: string, text: string, entity: Option<Entity>, k: Kind, v: Value)
    requires ToUpper(TrimSpace(call)) == call && x.env.code(Iota, "") == ""
    ensures var (y, q) := Entered(x, call, band, text, entity);
            EntryValue(x, call, text, entity, k) == Some(v) <==> Brings(y, q, k, v)
  {
    hide Brings, ToUpper, Atoi, InList, SpecialOf, ZoneOf, MultValue;
    var (y, q) := Entered(x, call, band, text, entity);
    assert TrimSpace("") == "";
    ValueMeans(y, q, k, v);
    PlainValue(y, q, k);
    EntryValueSame(x, y, call, text, entity, k);
  }

  /** The value looked for depends on the world only through what reads texts. */
  lemma EntryValueSame(x: Contest, y: Contest, call: string, text: string, entity: Option<Entity>, k: Kind)
    requires y == x.(env := x.env.(lookup := _ => entity))
    ensures EntryValue(x, call, text, entity, k) == EntryValue(y, call, text, entity, k)
  {
    hide InList, SpecialOf, ZoneOf, TrimSpace, Atoi;
  }

  /** Looked up per band: the country and zone kinds unless the rule says contest, the others when it says band. */
  ghost predicate LooksPerBand(k: Kind, per: string) {
    if k in {Dxcc, CqZone, ItuZone, DxccNonWae, WaeCountry, DxccOrWae} then TrimSpace(per) != "contest"
    else TrimSpace(per) == "band"
  }

  /** An earlier counted contact brought the value, on the same band where that matters. */
  ghost predicate HasWorked(x: Contest, c: seq<Qso>, k: Kind, v: Value, per: string, band: string) {
    exists p :: p in c && Brings(x, p, k, v) && (LooksPerBand(k, per) ==> ToUpper(TrimSpace(p.band)) == band)
  }

  /** What the predictor says of a kind: a new multiplier, a worked one, or nothing. */
  lemma VerdictMeans(x: Contest, c: seq<Qso>, rule: Rule, k: Kind, call: string, band: string, text: string, entity: Option<Entity>)
    requires TrimSpace(rule.kind) == KindName(k) && ToUpper(TrimSpace(call)) == call && x.env.code(Iota, "") == ""
    ensures var verdict, (y, q) := Predict(x, c, rule, call, band, text, entity), Entered(x, call, band, text, entity);
      && (verdict == Fresh <==> exists v :: Brings(y, q, k, v) && !HasWorked(x, c, k, v, rule.per, band))
      && (verdict == Worked <==> exists v :: Brings(y, q, k, v) && HasWorked(x, c, k, v, rule.per, band))
  {
    hide Brings, TrimSpace, ToUpper, EntryValue, ValuesOn, ValuesAll;
    NamedKind(rule.kind, k);
    hide CounterOf, KindName;
    var (y, q) := Entered(x, call, band, text, entity);
    hide Entered;
    forall v ensures EntryValue(x, call, text, entity, k) == Some(v) <==> Brings(y, q, k, v) { EntryMeans(x, call, band, text, entity, k, v); }
    forall v ensures v in (if CheckScope(k, rule.per) == PerContest then ValuesAll(x, c, k) else ValuesOn(x, c, k, band))
                     <==> HasWorked(x, c, k, v, rule.per, band) {
      WorkedMeans(x, c, k, band, v);
    }
  }

  /** The two names beside the kinds: nothing to say about `none`, a call is new when it was not worked. */
  lemma OtherVerdicts(x: Contest, c: seq<Qso>, rule: Rule, call: string, band: string, text: string, entity: Option<Entity>)
    requires forall k :: TrimSpace(rule.kind) != KindName(k)
    ensures var verdict := Predict(x, c, rule, call, band, text, entity);
      && (verdict == Fresh <==> TrimSpace(rule.kind) == "unique_call" && forall p <- c :: ToUpper(TrimSpace(p.call)) != call)
      && (verdict == Worked <==> TrimSpace(rule.kind) == "unique_call" && exists p :: p in c && ToUpper(TrimSpace(p.call)) == call)
  {
    hide TrimSpace, ToUpper, EntryValue, ValuesOn, ValuesAll;
    KindsByName(rule.kind);
    hide CounterOf, KindName;
  }

  /** Where predictor and counter read a rule's scope alike: `band` and `contest` always; weighted bands for the
      kinds that know them, looked up per band, where the band has a bonus; any other scope, and none, for the
      kinds that count by contest either way. */
  lemma AgreesWhere(rule: Rule, k: Kind, band: string)
    requires TrimSpace(rule.kind) == KindName(k)
    ensures Agrees(rule, band)
        <==> || TrimSpace(rule.per) in {"band", "contest"}
             || (TrimSpace(rule.per) == "band_weighted" && k in {Dxcc, CqZone, ItuZone, DxccNonWae, WaeCountry}
                 && ToUpper(TrimSpace(band)) in {"80M", "40M", "20M", "15M", "10M"})
             || (k !in {Dxcc, CqZone, ItuZone, DxccNonWae, WaeCountry, DxccOrWae}
                 && (TrimSpace(rule.per) == "band_weighted" ==> k != IaruZone))
  {
    hide TrimSpace, ToUpper;
    NamedKind(rule.kind, k);
    hide CounterOf, KindName;
  }
}
