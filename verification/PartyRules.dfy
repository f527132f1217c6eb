/** QSO-party exchanges, county-line credits, credit keys and multiplier keys
    (cmd/w4gns-logger/qso_party_rules.go, state_qso_party.go). */
module PartyRules {
  import opened Text

  datatype ExchangeKind = LocationOnly | SerialLocation | NameLocation

  datatype HomeKind = CountyMult | StateMult | DxccMult | DxMult | MaritimeMult

  datatype Period = Period(start: int, end: int)

  datatype Rules = Rules(
    periods: seq<Period>, state: string, exchange: ExchangeKind, countyLineMax: int, countyAsState: bool,
    homeMultipliers: seq<HomeKind>, perBand: bool, multiplierCap: int, points: int,
    bonusCall: string, bonusPoints: int, mobileMinimum: int, mobileBonus: int, mobileMultiplier: bool,
    aliases: map<string, string>, powerFactors: map<string, int>, qsoOnlyCalls: seq<string>)

  datatype Event = Event(bands: seq<string>, counties: seq<string>, rules: Rules, omitRst: bool)

  /** What the bundled country table answers: the country of a normalised call,
      and whether a text is one of its prefix aliases. */
  datatype World = World(country: string -> Option<string>, isPrefix: string -> bool)

  datatype Qso = Qso(
    id: int, call: string, band: string, mode: string, stx: string, stxString: string, srx: string, srxString: string,
    station: string, unscored: bool, time: int, rstSent: string, rstRcvd: string)

  datatype ExchangeError =
    | NotPrintable | NeedSerialAndLocation | NeedNameAndLocation | NeedOneLocation
    | TooManyCounties | BadCountyLine | MissingPrefix | BadLocation | UnknownLocation

  datatype Result<+T> = Ok(value: T) | Err(error: ExchangeError)

  // ---------- Checks the catalog loader makes ----------

  predicate IsCode(s: string) { s != "" && forall i :: 0 <= i < |s| ==> IsUpper(s[i]) || IsDigit(s[i]) }

  predicate IsLetters(s: string) { forall i :: 0 <= i < |s| ==> IsUpper(s[i]) }

  /** US states with DC, and Canadian provinces and territories. */
  predicate PostalArea(s: string) {
    |s| == 2 && s[1] in
      match s[0] {
        case 'A' => "LKZRB" case 'B' => "C" case 'C' => "AOT" case 'D' => "EC" case 'F' => "L" case 'G' => "A"
        case 'H' => "I" case 'I' => "DLNA" case 'K' => "SY" case 'L' => "A" case 'M' => "EDAINSOTB"
        case 'N' => "EVHJMYCDBLSTU" case 'O' => "HKRN" case 'P' => "AE" case 'Q' => "C" case 'R' => "I"
        case 'S' => "CDK" case 'T' => "NX" case 'U' => "T" case 'V' => "TA" case 'W' => "AVIY" case 'Y' => "T"
        case _ => ""
      }
  }

  predicate ValidEvent(e: Event) {
    var r := e.rules;
    && (forall i :: 0 <= i < |e.counties| ==> IsCode(e.counties[i]))
    && (forall a <- r.aliases ::
          2 <= |a| <= 4 && IsLetters(a) && PostalArea(r.aliases[a]) && r.aliases[a] !in r.aliases)
    && (forall b <- e.bands :: !Contains(b, '|'))
    && r.points >= 1 && 1 <= r.countyLineMax <= 4 && r.multiplierCap >= 0
    && r.bonusPoints >= 0 && r.mobileMinimum >= 0 && r.mobileBonus >= 0
    && (forall p <- r.powerFactors :: r.powerFactors[p] >= 1)
  }

  // ---------- Locations ----------

  predicate Printable(c: char) { ' ' <= c <= '~' }

  predicate IsField(s: string) { IsToken(s) && forall i :: 0 <= i < |s| ==> Printable(s[i]) }

  predicate Awards(e: Event, k: HomeKind) { k in e.rules.homeMultipliers }

  function PartyArea(e: Event, area: string): string {
    if area in e.rules.aliases then e.rules.aliases[area] else area
  }

  /** The DXCC country of a call, unless it is one of the four domestic ones. */
  function DxEntity(w: World, call: string): Option<string> {
    match w.country(Norm(call))
    case None => None
    case Some(c) =>
      if c == "United States" || c == "Canada" || c == "Alaska" || c == "Hawaii" then None else Some(c)
  }

  function CountyCode(e: Event, text: string): string {
    var code := ToUpper(TrimSpace(text));
    if code in e.counties then code else ""
  }

  datatype Place = Place(area: string, location: string, counties: seq<string>)

  function Region(location: string): string { TrimPrefix(location, "R") }

  predicate IsRegion(location: string) {
    Region(location) == "1" || Region(location) == "2" || Region(location) == "3"
  }

  function Codes(e: Event, parts: seq<string>): (r: seq<string>)
    ensures |r| == |parts|
  {
    seq(|parts|, i requires 0 <= i < |parts| => CountyCode(e, parts[i]))
  }

  ghost predicate Distinct(s: seq<string>) { forall i, j :: 0 <= i < j < |s| ==> s[i] != s[j] }

  /** A county line: every part is a county and none repeats. */
  ghost predicate IsCountyLine(e: Event, parts: seq<string>) {
    "" !in Codes(e, parts) && Distinct(Codes(e, parts))
  }

  function Insert(x: string, s: seq<string>): (r: seq<string>)
    ensures multiset(r) == multiset(s) + multiset{x}
  {
    if s == [] || LexLeq(x, s[0]) then [x] + s
    else
      assert s == [s[0]] + s[1..];
      [s[0]] + Insert(x, s[1..])
  }

  /** sort.Strings. */
  function SortStrings(s: seq<string>): (r: seq<string>)
    ensures multiset(r) == multiset(s)
  {
    if s == [] then []
    else
      assert s == [s[0]] + s[1..];
      Insert(s[0], SortStrings(s[1..]))
  }

  /** The location word of an exchange, with '+' already read as '/'. */
  ghost function ParseLocation(w: World, e: Event, location: string): Result<Place> {
    if Awards(e, MaritimeMult) && IsRegion(location) then Ok(Place("R" + Region(location), location, []))
    else
      var parts := Split(location, '/');
      if IsCountyLine(e, parts) then
        if |parts| > e.rules.countyLineMax then Err(TooManyCounties)
        else Ok(Place("", location, SortStrings(Codes(e, parts))))
      else if |parts| != 1 then Err(BadCountyLine)
      else ParseOutside(w, e, location)
  }

  /** A location that is no county: a postal area, an alias, DX, or a DXCC prefix. */
  function ParseOutside(w: World, e: Event, location: string): Result<Place> {
    var token := TrimPrefix(location, "DX:");
    if token == "" then Err(MissingPrefix)
    else if !IsCode(token) then Err(BadLocation)
    else if token == location && location != e.rules.state
         && (PostalArea(location) || location == "DX" || location in e.rules.aliases) then
      Ok(Place(PartyArea(e, location), location, []))
    else if Awards(e, DxccMult) && w.isPrefix(token) && DxEntity(w, token).Some? then
      Ok(Place("DX:" + DxEntity(w, token).value, location, []))
    else Err(UnknownLocation)
  }

  // ---------- Exchanges ----------

  datatype PartyExchange = PartyExchange(
    serial: string, name: string, area: string, location: string, counties: seq<string>)

  /** Serial and text joined by one blank when both are present. */
  function CabrilloExchange(serial: string, text: string): string {
    var s, t := TrimSpace(serial), TrimSpace(text);
    if s == "" then t else if t == "" then s else s + " " + t
  }

  predicate PositiveSerial(s: string) {
    s != "" && AllDigits(s) && Atoi(s).Some? && Atoi(s).value > 0
  }

  predicate SubmissionName(s: string) { s != "" && IsLetters(s) }

  predicate AllPrintable(s: string) { forall i :: 0 <= i < |s| ==> Printable(s[i]) }

  /** The words of an exchange split into serial, name and location words. */
  function SplitExchange(e: Event, fields: seq<string>): Result<(string, string, seq<string>)> {
    match e.rules.exchange
    case SerialLocation =>
      if |fields| != 2 || !PositiveSerial(fields[0]) then Err(NeedSerialAndLocation)
      else Ok((fields[0], "", fields[1..]))
    case NameLocation =>
      if |fields| != 2 || !SubmissionName(fields[0]) then Err(NeedNameAndLocation)
      else Ok(("", fields[0], fields[1..]))
    case LocationOnly => Ok(("", "", fields))
  }

  /** Serial, name and location words of an exchange, '+' in the location read as '/'. */
  function Words(e: Event, serial: string, text: string): Result<(string, string, string)> {
    if !AllPrintable(serial + text) then Err(NotPrintable)
    else
      match SplitExchange(e, Fields(ToUpper(CabrilloExchange(serial, text))))
      case Err(x) => Err(x)
      case Ok((number, name, rest)) =>
        if |rest| != 1 then Err(NeedOneLocation) else Ok((number, name, ReplaceChar(rest[0], '+', '/')))
  }

  ghost function Exchange(w: World, e: Event, serial: string, text: string): Result<PartyExchange> {
    match Words(e, serial, text)
    case Err(x) => Err(x)
    case Ok((number, name, location)) =>
      match ParseLocation(w, e, location)
      case Err(x) => Err(x)
      case Ok(p) => Ok(PartyExchange(number, name, p.area, p.location, p.counties))
  }

  /** Appending a new nonempty code to a prefix of a code list. */
  lemma CodePrefix(codes: seq<string>, i: nat)
    requires i < |codes| && "" !in codes[..i] && Distinct(codes[..i])
    requires codes[i] != "" && codes[i] !in codes[..i]
    ensures "" !in codes[..i + 1] && Distinct(codes[..i + 1])
  {
    var longer := codes[..i + 1];
    assert longer == codes[..i] + [codes[i]];
    forall j, k | 0 <= j < k < |longer| ensures longer[j] != longer[k] {
      assert longer[j] == codes[..i][j];
    }
  }

  lemma CodeRepeats(codes: seq<string>, i: nat)
    requires i < |codes|
    requires codes[i] == "" || codes[i] in codes[..i]
    ensures "" in codes || !Distinct(codes)
  {
    if codes[i] != "" {
      var k :| 0 <= k < i && codes[..i][k] == codes[i];
      assert codes[k] == codes[i];
    }
  }

  /** The county loop of the exchange parser: unknown or repeated parts drop the whole list. */
  method ReadCounties(e: Event, parts: seq<string>) returns (counties: seq<string>)
    ensures IsCountyLine(e, parts) ==> counties == Codes(e, parts)
    ensures !IsCountyLine(e, parts) ==> counties == []
  {
    counties := [];
    ghost var codes := Codes(e, parts);
    for i := 0 to |parts|
      invariant counties == codes[..i]
      invariant "" !in codes[..i] && Distinct(codes[..i])
    {
      var code := CountyCode(e, parts[i]);
      assert code == codes[i];
      if code != "" && code !in counties {
        CodePrefix(codes, i);
        counties := counties + [code];
      } else {
        CodeRepeats(codes, i);
        return [];
      }
    }
    assert codes[..|parts|] == codes;
  }

  method ReadLocation(w: World, e: Event, location: string) returns (r: Result<Place>)
    ensures r == ParseLocation(w, e, location)
  {
    if Awards(e, MaritimeMult) && IsRegion(location) {
      return Ok(Place("R" + Region(location), location, []));
    }
    var parts := Split(location, '/');
    var counties := ReadCounties(e, parts);
    if |counties| > 0 {
      if |counties| > e.rules.countyLineMax { return Err(TooManyCounties); }
      return Ok(Place("", location, SortStrings(counties)));
    }
    if |parts| != 1 { return Err(BadCountyLine); }
    r := ParseOutside(w, e, location);
  }

  method ParseExchange(w: World, e: Event, serial: string, text: string) returns (r: Result<PartyExchange>)
    ensures r == Exchange(w, e, serial, text)
  {
    var words := Words(e, serial, text);
    match words {
      case Err(x) => return Err(x);
      case Ok((number, name, location)) =>
        var place := ReadLocation(w, e, location);
        match place {
          case Err(x) => return Err(x);
          case Ok(p) => return Ok(PartyExchange(number, name, p.area, p.location, p.counties));
        }
    }
  }

  // ---------- Credits ----------

  function LocationsOf(x: PartyExchange): seq<string> {
    if |x.counties| > 0 then x.counties else [x.location]
  }

  function Prefixed(name: string, location: string): string {
    if name != "" then name + " " + location else location
  }

  function CreditOf(q: Qso, sent: PartyExchange, received: PartyExchange, home: string, away: string): Qso {
    q.(stx := sent.serial, srx := received.serial,
       stxString := Prefixed(sent.name, home), srxString := Prefixed(received.name, away))
  }

  function Row(q: Qso, sent: PartyExchange, received: PartyExchange, home: string, aways: seq<string>): (r: seq<Qso>)
    ensures |r| == |aways|
    ensures forall j :: 0 <= j < |aways| ==> r[j] == CreditOf(q, sent, received, home, aways[j])
  {
    seq(|aways|, j requires 0 <= j < |aways| => CreditOf(q, sent, received, home, aways[j]))
  }

  /** One credit per (home, away) pair, homes outermost. */
  function Product(q: Qso, sent: PartyExchange, received: PartyExchange, homes: seq<string>, aways: seq<string>): (r: seq<Qso>)
    ensures |r| == |homes| * |aways|
  {
    if homes == [] then []
    else Product(q, sent, received, homes[..|homes| - 1], aways)
         + Row(q, sent, received, homes[|homes| - 1], aways)
  }

  predicate Creditable(e: Event, q: Qso) {
    (q.mode == "" || EqualFold(q.mode, "CW")) && ToUpper(q.band) in e.bands
  }

  ghost function Credits(w: World, e: Event, q: Qso): Result<seq<Qso>> {
    match Exchange(w, e, q.stx, q.stxString)
    case Err(x) => Err(x)
    case Ok(sent) =>
      match Exchange(w, e, q.srx, q.srxString)
      case Err(x) => Err(x)
      case Ok(received) =>
        if (sent.counties == [] && received.counties == []) || !Creditable(e, q) then Ok([])
        else Ok(Product(q, sent, received, LocationsOf(sent), LocationsOf(received)))
  }

  method ExpandPairs(q: Qso, sent: PartyExchange, received: PartyExchange) returns (credits: seq<Qso>)
    ensures credits == Product(q, sent, received, LocationsOf(sent), LocationsOf(received))
  {
    var homes, aways := LocationsOf(sent), LocationsOf(received);
    credits := [];
    for i := 0 to |homes|
      invariant credits == Product(q, sent, received, homes[..i], aways)
    {
      ghost var before := credits;
      ghost var row := Row(q, sent, received, homes[i], aways);
      for j := 0 to |aways|
        invariant credits == before + row[..j]
      {
        credits := credits + [CreditOf(q, sent, received, homes[i], aways[j])];
      }
      assert homes[..i + 1][..i] == homes[..i];
    }
    assert homes[..|homes|] == homes;
  }

  method ExpandCredits(w: World, e: Event, q: Qso) returns (r: Result<seq<Qso>>)
    ensures r == Credits(w, e, q)
  {
    var sent := ParseExchange(w, e, q.stx, q.stxString);
    if sent.Err? { return Err(sent.error); }
    var received := ParseExchange(w, e, q.srx, q.srxString);
    if received.Err? { return Err(received.error); }
    if |sent.value.counties| == 0 && |received.value.counties| == 0 { return Ok([]); }
    if !Creditable(e, q) { return Ok([]); }
    var credits := ExpandPairs(q, sent.value, received.value);
    return Ok(credits);
  }

  // ---------- Keys ----------

  function LocationKey(w: World, e: Event, x: PartyExchange, call: string): string {
    if |x.counties| > 0 then Join(x.counties)
    else if x.area == "DX" && DxEntity(w, call).Some? then "DX:" + DxEntity(w, call).value
    else PartyArea(e, x.area)
  }

  /** strings.Join with '/'. */
  function Join(s: seq<string>): string
    requires |s| > 0
  {
    if |s| == 1 then s[0] else s[0] + "/" + Join(s[1..])
  }

  const NO_EXCHANGE := PartyExchange("", "", "", "", [])

  ghost function ExchangeOr(w: World, e: Event, serial: string, text: string): PartyExchange {
    match Exchange(w, e, serial, text) case Ok(x) => x case Err(_) => NO_EXCHANGE
  }

  ghost function Sent(w: World, e: Event, q: Qso): PartyExchange { ExchangeOr(w, e, q.stx, q.stxString) }

  ghost function Received(w: World, e: Event, q: Qso): PartyExchange { ExchangeOr(w, e, q.srx, q.srxString) }

  function RenderKey(call: string, band: string, sent: string, received: string): string {
    call + ("|" + (band + ("|" + (sent + ("|" + received)))))
  }

  ghost function CreditKey(w: World, e: Event, q: Qso): string {
    RenderKey(Norm(q.call), ToUpper(q.band),
              LocationKey(w, e, Sent(w, e, q), q.station), LocationKey(w, e, Received(w, e, q), q.call))
  }

  function CountyKeys(counties: seq<string>): (r: seq<string>)
    ensures |r| == |counties|
  {
    seq(|counties|, i requires 0 <= i < |counties| => "county:" + counties[i])
  }

  /** Keys one home multiplier kind awards for a received exchange. */
  function KindKeys(w: World, e: Event, k: HomeKind, received: PartyExchange, call: string): seq<string> {
    match k
    case CountyMult => CountyKeys(received.counties)
    case StateMult =>
      var area := PartyArea(e, if |received.counties| > 0 && e.rules.countyAsState then e.rules.state else received.area);
      if PostalArea(area) then ["state:" + area] else []
    case DxccMult =>
      if HasPrefix(received.area, "DX:") then [received.area]
      else if received.area == "DX" && DxEntity(w, call).Some? then ["DX:" + DxEntity(w, call).value]
      else []
    case DxMult => if received.area == "DX" then ["DX"] else []
    case MaritimeMult =>
      if received.area == "R1" || received.area == "R2" || received.area == "R3" then ["maritime:" + received.area] else []
  }

  function HomeKeys(w: World, e: Event, kinds: seq<HomeKind>, received: PartyExchange, call: string): seq<string> {
    if kinds == [] then []
    else KindKeys(w, e, kinds[0], received, call) + HomeKeys(w, e, kinds[1..], received, call)
  }

  function OnBand(e: Event, keys: seq<string>, band: string): (r: seq<string>)
    ensures |r| == |keys|
  {
    if e.rules.perBand then seq(|keys|, i requires 0 <= i < |keys| => keys[i] + "|" + ToUpper(band)) else keys
  }

  ghost function MultiplierKeys(w: World, e: Event, q: Qso): seq<string> {
    if Exchange(w, e, q.stx, q.stxString).Err? || Exchange(w, e, q.srx, q.srxString).Err? then []
    else
      var sent, received := Sent(w, e, q), Received(w, e, q);
      OnBand(e, if |sent.counties| == 0 then CountyKeys(received.counties)
                else HomeKeys(w, e, e.rules.homeMultipliers, received, q.call), q.band)
  }
}
