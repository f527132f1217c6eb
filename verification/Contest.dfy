/** What one contest's log is worth: the contacts that count, the multiplier values
    each of them brings, and the points of each. Text extractors, the country table
    and grid distances are parameters of the contest. */
module Contest {
  import opened Text

  datatype Entity = Entity(country: string, dxcc: int, cqZone: int, ituZone: int, continent: string)

  datatype Qso = Qso(call: string, band: string, srx: string, stx: string, iotaRef: string, myIotaRef: string, myGrid: string,
                     country: string, dxcc: string, cqZone: string, ituZone: string, unscored: bool)

  /** The multiplier kinds backed by per-band and all-band sets. */
  datatype Kind =
    | Prefix | ExchangeArea | TnCounty | County | Canton | Oblast | DokDistrict | Iota | NaqpArea | SstArea | ArrlSection
    | IaruHq | IaruZone | Dxcc | CqZone | ItuZone | SacArea | WaeCountry | DxccNonWae | DxccOrWae

  datatype Value = Name(text: string) | Number(n: int)

  /** `code` stands for the extractors that read the exchange text alone. */
  datatype Env = Env(
    prefix: string -> string,
    code: (Kind, string) -> string,
    sacArea: (Entity, string) -> string,
    isWae: string -> bool,
    lookup: string -> Option<Entity>,
    distanceKm: (string, string) -> Option<nat>)

  datatype Event = Event(dupeScope: string, autofill: string, domestic: seq<string>)

  /** A contest as one station enters it: `station` is the operator's own entity, when it resolved. */
  datatype Contest = Contest(env: Env, event: Event, station: Option<Entity>)

  // ---------- The fields of a contact ----------

  function CallOf(q: Qso): string { Norm(q.call) }

  function BandOf(q: Qso): string { Norm(q.band) }

  function KeyText(call: string, band: string): string { call + "|" + band }

  function KeyOf(q: Qso): string { KeyText(CallOf(q), BandOf(q)) }

  /** The band half of a key: what follows the last separator. */
  function BandOfKey(key: string): string {
    if key == "" || key[|key| - 1] == '|' then "" else BandOfKey(key[..|key| - 1]) + [key[|key| - 1]]
  }

  /** The key gives the band back exactly when the band holds no separator. */
  lemma {:induction false} BandOfKeyText(call: string, band: string)
    ensures BandOfKey(KeyText(call, band)) == band <==> '|' !in band
  {
    BandOfKeyClean(KeyText(call, band));
    if '|' !in band { BandSuffix(call + "|", band); }
  }

  lemma {:induction false} BandOfKeyClean(key: string)
    ensures '|' !in BandOfKey(key)
  {
    if key != "" && key[|key| - 1] != '|' { BandOfKeyClean(key[..|key| - 1]); }
  }

  lemma {:induction false} BandSuffix(head: string, band: string)
    requires head != "" && head[|head| - 1] == '|' && '|' !in band
    ensures BandOfKey(head + band) == band
  {
    if band == "" {
      assert head + band == head;
    } else {
      var n := |band| - 1;
      assert (head + band)[..|head + band| - 1] == head + band[..n];
      assert forall i :: 0 <= i < n ==> band[..n][i] == band[i];
      BandSuffix(head, band[..n]);
      assert band[..n] + [band[n]] == band;
    }
  }

  // ---------- What a contact brings ----------

  predicate InList(list: seq<string>, country: string) {
    TrimSpace(country) != "" && exists i :: 0 <= i < |list| && EqualFold(TrimSpace(list[i]), TrimSpace(country))
  }

  /** A zone number as exchanged in the IARU contest, 0 when the text is none. */
  function ZoneOf(text: string): nat {
    match Atoi(Norm(text))
    case Some(v) => if 1 <= v <= 90 then v else 0
    case None => 0
  }

  /** A headquarters or official abbreviation, "" when the text is none. */
  function SpecialOf(text: string): string {
    var t := Norm(text);
    if t == "" || ZoneOf(t) > 0 || |t| > 12 then ""
    else if t == "AC" || t == "R1" || t == "R2" || t == "R3" then t
    else if forall i :: 0 <= i < |t| ==> IsUpper(t[i]) then t
    else ""
  }

  /** An exchange is a zone or an abbreviation, never both. */
  lemma ZoneOrSpecial(text: string)
    ensures SpecialOf(text) != "" ==> ZoneOf(text) == 0
  {
    NormTwice(text);
  }

  function PositiveOr(text: string, otherwise: int): int {
    match Atoi(TrimSpace(text))
    case Some(v) => if v > 0 then v else otherwise
    case None => otherwise
  }

  /** Recorded country, entity number and zones override the table's. */
  function Persisted(e: Entity, q: Qso): Entity {
    e.(country := if TrimSpace(q.country) != "" then TrimSpace(q.country) else e.country,
       dxcc := PositiveOr(q.dxcc, e.dxcc),
       cqZone := PositiveOr(q.cqZone, e.cqZone),
       ituZone := PositiveOr(q.ituZone, e.ituZone))
  }

  /** An event whose exchange is the CQ zone takes the zone from the exchange. */
  function Exchanged(event: Event, e: Entity, text: string): Entity {
    if TrimSpace(event.autofill) == "cq_zone" && !InList(event.domestic, e.country) then
      e.(cqZone := match Atoi(TrimSpace(text)) case Some(v) => (if 1 <= v <= 40 then v else 0) case None => 0)
    else e
  }

  function EntityOf(x: Contest, q: Qso): Option<Entity> {
    match x.env.lookup(CallOf(q))
    case Some(e) => Some(Exchanged(x.event, Persisted(e, q), q.srx))
    case None => None
  }

  function NameValue(s: string): Option<Value> { if s == "" then None else Some(Name(s)) }

  function NumberValue(n: int): Option<Value> { if n == 0 then None else Some(Number(n)) }

  predicate FromEntity(k: Kind) {
    k.Dxcc? || k.CqZone? || k.ItuZone? || k.SacArea? || k.WaeCountry? || k.DxccNonWae? || k.DxccOrWae?
  }

  function EntityValue(env: Env, e: Entity, call: string, k: Kind): Option<Value>
    requires FromEntity(k)
  {
    match k
    case Dxcc => NumberValue(e.dxcc)
    case CqZone => NumberValue(e.cqZone)
    case ItuZone => NumberValue(e.ituZone)
    case SacArea => NameValue(env.sacArea(e, call))
    case WaeCountry => if env.isWae(e.country) then NameValue(e.country) else None
    case DxccNonWae => if env.isWae(e.country) then None else NumberValue(e.dxcc)
    case DxccOrWae => if e.country != "" && (e.dxcc != 0 || env.isWae(e.country)) then NameValue(e.country) else None
  }

  function IotaText(env: Env, q: Qso): string {
    if env.code(Iota, q.srx) != "" then env.code(Iota, q.srx) else env.code(Iota, q.iotaRef)
  }

  /** The multiplier value of kind `k` that a counted contact brings, if any. */
  function MultValue(x: Contest, q: Qso, k: Kind): Option<Value> {
    if FromEntity(k) then
      (match EntityOf(x, q) case Some(e) => EntityValue(x.env, e, CallOf(q), k) case None => None)
    else
      match k
      case Prefix => NameValue(x.env.prefix(CallOf(q)))
      case Iota => NameValue(IotaText(x.env, q))
      case IaruHq => NameValue(SpecialOf(q.srx))
      case IaruZone => if SpecialOf(q.srx) != "" then None else NumberValue(ZoneOf(q.srx))
      case _ => NameValue(x.env.code(k, q.srx))
  }

  // ---------- Point categories ----------

  datatype Category = SameCountry | SameContinent | OtherContinent | Special

  datatype IotaCategory = IslandWorld | IslandSame | IslandOther | WorldWorld | WorldIsland

  /** Everything the points rules may ask about one counted contact. */
  datatype Tiers = Tiers(category: Option<Category>, continent: Option<string>, country: Option<string>,
                         zone: Option<Category>, distance: Option<nat>, iota: Option<IotaCategory>)

  const NO_TIERS := Tiers(None, None, None, None, None, None)

  function IotaTier(env: Env, q: Qso): IotaCategory {
    var mine, theirs := env.code(Iota, q.myIotaRef), IotaText(env, q);
    if mine == "" then (if theirs == "" then WorldWorld else WorldIsland)
    else if theirs == "" then IslandWorld
    else if mine == theirs then IslandSame
    else IslandOther
  }

  /** The operator's own zone: as sent, else the station's. */
  function OwnZone(x: Contest, q: Qso): Option<int> {
    if ZoneOf(q.stx) > 0 then Some(ZoneOf(q.stx))
    else if x.station.Some? && x.station.value.ituZone > 0 then Some(x.station.value.ituZone)
    else None
  }

  predicate SameLand(x: Contest, e: Entity) {
    x.station.Some? && e.continent != "" && e.continent == x.station.value.continent
  }

  function CountryTier(x: Contest, e: Entity): Option<Category> {
    if x.station.None? then None
    else if e.dxcc != 0 && e.dxcc == x.station.value.dxcc then Some(SameCountry)
    else if SameLand(x, e) then Some(SameContinent)
    else Some(OtherContinent)
  }

  function ZoneTier(x: Contest, q: Qso): Option<Category> {
    if SpecialOf(q.srx) != "" then Some(Special)
    else if ZoneOf(q.srx) == 0 then None
    else if OwnZone(x, q) == Some(ZoneOf(q.srx)) then Some(SameCountry)
    else
      match EntityOf(x, q)
      case Some(e) => if x.station.None? then None else if SameLand(x, e) then Some(SameContinent) else Some(OtherContinent)
      case None => None
  }

  function TiersOf(x: Contest, q: Qso): Tiers {
    var e := EntityOf(x, q);
    Tiers(if e.Some? then CountryTier(x, e.value) else None,
          if e.Some? && CountryTier(x, e.value) == Some(SameContinent) then Some(e.value.continent) else None,
          if e.Some? && e.value.country != "" then Some(e.value.country) else None,
          ZoneTier(x, q), x.env.distanceKm(q.srx, q.myGrid), Some(IotaTier(x.env, q)))
  }

  // ---------- Rules ----------

  datatype Rule = Rule(kind: string, per: string)

  type Positive = n: int | n > 0 witness 1

  datatype ZonePoints = ZonePoints(same: int, sameContinent: int, other: int, special: int)

  datatype IotaPoints = IotaPoints(islandWorld: int, islandSame: int, islandOther: int, worldWorld: int, worldIsland: int)

  datatype PointsRule = PointsRule(
    sameCountry: int, sameContinent: int, otherContinent: int, overrides: map<string, int>,
    lowSameContinent: int, lowOtherContinent: int, lowOverrides: map<string, int>,
    group: seq<string>, groupPoints: int, lowGroupPoints: int,
    zone: Option<ZonePoints>, perKm: Option<Positive>, perBand: map<string, int>, iota: Option<IotaPoints>)

  datatype Rules = Rules(pointsPerQso: int, multiplier: string, multipliers: seq<Rule>, points: Option<PointsRule>)

  function Effective(rules: Rules): seq<Rule> {
    if rules.multipliers != [] then rules.multipliers
    else if TrimSpace(rules.multiplier) != "" then [Rule(TrimSpace(rules.multiplier), "contest")]
    else []
  }

  datatype Counter = One | UniqueCalls | Tracked(kind: Kind) | Unknown

  function CounterOf(kind: string): Counter {
    var k := TrimSpace(kind);
    if k == "none" then One
    else if k == "unique_call" then UniqueCalls
    else if k == "prefix" then Tracked(Prefix)
    else if k == "exchange_area" then Tracked(ExchangeArea)
    else if k == "county" then Tracked(County)
    else if k == "tn_county" then Tracked(TnCounty)
    else if k == "sac_area" then Tracked(SacArea)
    else if k == "naqp_area" then Tracked(NaqpArea)
    else if k == "sst_area" then Tracked(SstArea)
    else if k == "arrl_section" then Tracked(ArrlSection)
    else if k == "iaru_hq" then Tracked(IaruHq)
    else if k == "wae_country" then Tracked(WaeCountry)
    else if k == "canton" then Tracked(Canton)
    else if k == "oblast" then Tracked(Oblast)
    else if k == "dxcc_or_wae" then Tracked(DxccOrWae)
    else if k == "dok_district" then Tracked(DokDistrict)
    else if k == "iota" then Tracked(Iota)
    else if k == "dxcc" then Tracked(Dxcc)
    else if k == "cqzone" then Tracked(CqZone)
    else if k == "ituzone" then Tracked(ItuZone)
    else if k == "iaru_zone" then Tracked(IaruZone)
    else if k == "dxcc_non_wae" then Tracked(DxccNonWae)
    else Unknown
  }

  datatype Scope = PerBand | PerBandWeighted | PerContest

  /** Kinds whose count knows the weighted scope. */
  predicate Weighable(k: Kind) {
    k.Dxcc? || k.CqZone? || k.ItuZone? || k.IaruZone? || k.DxccNonWae? || k.WaeCountry?
  }

  /** How multiplierCount reads a scope. */
  function CountScope(k: Kind, per: string): Scope {
    if Weighable(k) && TrimSpace(per) == "band_weighted" then PerBandWeighted
    else if TrimSpace(per) == "band" then PerBand
    else PerContest
  }

  /** Kinds the predictor looks up per band unless told otherwise. */
  predicate BandFirst(k: Kind) {
    k.Dxcc? || k.CqZone? || k.ItuZone? || k.DxccNonWae? || k.WaeCountry? || k.DxccOrWae?
  }

  /** How wouldBeNewMultiplier reads a scope. */
  function CheckScope(k: Kind, per: string): (s: Scope)
    ensures s != PerBandWeighted
  {
    if BandFirst(k) then (if TrimSpace(per) == "contest" then PerContest else PerBand)
    else if TrimSpace(per) == "band" then PerBand
    else PerContest
  }

  function BandBonus(band: string): nat {
    var b := Norm(band);
    if b == "80M" then 4
    else if b == "40M" then 3
    else if b == "20M" || b == "15M" || b == "10M" then 2
    else 0
  }

  predicate LowBand(band: string) {
    var b := Norm(band);
    b == "160M" || b == "80M" || b == "40M"
  }

  // ---------- Points of one contact ----------

  function OrZero(m: map<string, int>, k: string): int { if k in m then m[k] else 0 }

  function IfSet(low: bool, value: int, otherwise: int): int { if low && value != 0 then value else otherwise }

  function LandPoints(r: PointsRule, band: string, t: Tiers): int {
    var low := LowBand(band);
    if t.country.Some? && InList(r.group, t.country.value) then IfSet(low, r.lowGroupPoints, r.groupPoints)
    else
      match t.category
      case Some(SameCountry) => r.sameCountry
      case Some(SameContinent) =>
        var overrides := if low && r.lowOverrides != map[] then r.lowOverrides else r.overrides;
        var land := if t.continent.Some? then t.continent.value else "";
        if land in overrides then overrides[land] else IfSet(low, r.lowSameContinent, r.sameContinent)
      case Some(OtherContinent) => IfSet(low, r.lowOtherContinent, r.otherContinent)
      case _ => 0
  }

  function ZonePointsOf(z: ZonePoints, t: Tiers): int {
    match t.zone
    case Some(SameCountry) => z.same
    case Some(SameContinent) => z.sameContinent
    case Some(OtherContinent) => z.other
    case Some(Special) => z.special
    case None => 0
  }

  function IotaPointsOf(i: IotaPoints, t: Tiers): int {
    match t.iota
    case Some(IslandWorld) => i.islandWorld
    case Some(IslandSame) => i.islandSame
    case Some(IslandOther) => i.islandOther
    case Some(WorldWorld) => i.worldWorld
    case Some(WorldIsland) => i.worldIsland
    case None => 0
  }

  function PointsOf(r: PointsRule, band: string, t: Tiers): int {
    if r.perKm.Some? then (if t.distance.Some? then 1 + t.distance.value / r.perKm.value else 0)
    else if r.zone.Some? then ZonePointsOf(r.zone.value, t)
    else if r.perBand != map[] then OrZero(r.perBand, band)
    else if r.iota.Some? then IotaPointsOf(r.iota.value, t)
    else LandPoints(r, band, t)
  }

  // ---------- The contacts that count ----------

  predicate Eligible(q: Qso) { CallOf(q) != "" && !q.unscored }

  /** Contacts in one slot are duplicates of each other. */
  function Slot(event: Event, q: Qso): string { if event.dupeScope == "call" then CallOf(q) else KeyOf(q) }

  predicate Taken(event: Event, c: seq<Qso>, q: Qso) { exists p :: p in c && Slot(event, p) == Slot(event, q) }

  /** The counted contacts of a log, in order. */
  function Credited(event: Event, log: seq<Qso>): seq<Qso> {
    if log == [] then []
    else
      var n := |log| - 1;
      var c := Credited(event, log[..n]);
      if Eligible(log[n]) && !Taken(event, c, log[n]) then c + [log[n]] else c
  }

  lemma CreditedAppend(event: Event, log: seq<Qso>, q: Qso)
    ensures Credited(event, log + [q])
         == if Eligible(q) && !Taken(event, Credited(event, log), q) then Credited(event, log) + [q] else Credited(event, log)
  {
    assert (log + [q])[..|log|] == log;
  }

  /** Contact `i` is the first eligible one of its slot. */
  predicate First(event: Event, log: seq<Qso>, i: nat)
    requires i < |log|
  {
    Eligible(log[i]) && forall j :: 0 <= j < i && Eligible(log[j]) ==> Slot(event, log[j]) != Slot(event, log[i])
  }

  /** Some eligible contact of the log is in `q`'s slot. */
  predicate Seen(event: Event, log: seq<Qso>, q: Qso) {
    exists p :: p in log && Eligible(p) && Slot(event, p) == Slot(event, q)
  }

  lemma TakenSnoc(event: Event, c: seq<Qso>, p: Qso, q: Qso)
    ensures Taken(event, c + [p], q) <==> Taken(event, c, q) || Slot(event, p) == Slot(event, q)
    ensures Seen(event, c + [p], q) <==> Seen(event, c, q) || (Eligible(p) && Slot(event, p) == Slot(event, q))
  {
    hide Slot, Eligible;
    assert forall r :: r in c + [p] <==> r in c || r == p;
  }

  lemma {:induction false} TakenIffSeen(event: Event, log: seq<Qso>, q: Qso)
    ensures Taken(event, Credited(event, log), q) <==> Seen(event, log, q)
  {
    hide Slot, Eligible;
    if log != [] {
      var n := |log| - 1;
      var c, p := Credited(event, log[..n]), log[n];
      TakenIffSeen(event, log[..n], q);
      TakenSnoc(event, c, p, q);
      TakenSnoc(event, log[..n], p, q);
      assert log == log[..n] + [p];
      assert Slot(event, p) == Slot(event, q) ==> (Taken(event, c, p) <==> Taken(event, c, q));
      hide Taken, Seen;
    }
  }

  predicate FirstIn(event: Event, log: seq<Qso>, q: Qso) { exists i :: 0 <= i < |log| && log[i] == q && First(event, log, i) }

  lemma FirstInSnoc(event: Event, front: seq<Qso>, p: Qso, q: Qso)
    ensures FirstIn(event, front + [p], q) <==> FirstIn(event, front, q) || (p == q && First(event, front + [p], |front|))
  {
    var log := front + [p];
    assert forall i :: 0 <= i < |front| ==> log[i] == front[i];
    assert forall i :: 0 <= i < |front| ==> (First(event, log, i) <==> First(event, front, i));
    hide First;
    if FirstIn(event, front, q) {
      var i :| 0 <= i < |front| && front[i] == q && First(event, front, i);
      assert log[i] == q && First(event, log, i);
    }
  }

  lemma FirstIffNew(event: Event, front: seq<Qso>, p: Qso)
    ensures First(event, front + [p], |front|) <==> Eligible(p) && !Taken(event, Credited(event, front), p)
  {
    TakenIffSeen(event, front, p);
    hide Taken, Credited, Slot, Eligible;
    var log := front + [p];
    assert log[|front|] == p;
    assert forall i :: 0 <= i < |front| ==> log[i] == front[i] && front[i] in front;
  }

  /** The counted contacts are exactly the first eligible ones of their slots. */
  lemma {:induction false} CreditedIffFirst(event: Event, log: seq<Qso>, q: Qso)
    ensures q in Credited(event, log) <==> FirstIn(event, log, q)
  {
    hide First, Eligible, Taken;
    if log == [] {
      assert !FirstIn(event, log, q);
    } else {
      hide FirstIn;
      var n := |log| - 1;
      var front := log[..n];
      CreditedIffFirst(event, front, q);
      FirstIffNew(event, front, log[n]);
      FirstInSnoc(event, front, log[n], q);
      assert log == front + [log[n]];
    }
  }

  /** One counted contact per slot, and one for every slot with an eligible contact. */
  lemma {:induction false} OnePerSlot(event: Event, log: seq<Qso>)
    ensures var c := Credited(event, log);
      && (forall i, j :: 0 <= i < j < |c| ==> Slot(event, c[i]) != Slot(event, c[j]))
      && (forall q :: q in log && Eligible(q) ==> Taken(event, c, q))
      && (forall q :: q in c ==> q in log && Eligible(q))
  {
    CreditedApart(event, log);
    hide Slot, Eligible;
    forall q | q in log && Eligible(q) ensures Taken(event, Credited(event, log), q) { TakenIffSeen(event, log, q); }
    forall q | q in Credited(event, log) ensures q in log && Eligible(q) {
      CreditedIffFirst(event, log, q);
    }
  }

  lemma ApartSnoc(event: Event, c: seq<Qso>, q: Qso)
    requires forall i, j :: 0 <= i < j < |c| ==> Slot(event, c[i]) != Slot(event, c[j])
    requires !Taken(event, c, q)
    ensures forall i, j :: 0 <= i < j < |c| + 1 ==> Slot(event, (c + [q])[i]) != Slot(event, (c + [q])[j])
  {
    hide Slot;
    assert forall i :: 0 <= i < |c| ==> c[i] in c;
  }

  lemma {:induction false} CreditedApart(event: Event, log: seq<Qso>)
    ensures forall i, j :: 0 <= i < j < |Credited(event, log)| ==> Slot(event, Credited(event, log)[i]) != Slot(event, Credited(event, log)[j])
  {
    hide Slot, Eligible, Taken;
    if log != [] {
      var n := |log| - 1;
      var c := Credited(event, log[..n]);
      CreditedApart(event, log[..n]);
      if !Taken(event, c, log[n]) { ApartSnoc(event, c, log[n]); }
    }
  }

  /** Keys tell calls and bands apart as long as no band holds the separator. */
  lemma KeysApart(call: string, band: string, call': string, band': string)
    requires '|' !in band && '|' !in band'
    ensures KeyText(call, band) == KeyText(call', band') ==> call == call' && band == band'
  {
    BandOfKeyText(call, band);
    BandOfKeyText(call', band');
    assert KeyText(call, band)[..|call|] == call;
    assert KeyText(call', band')[..|call'|] == call';
  }
}
