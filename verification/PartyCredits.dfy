/** What county-line expansion and credit keys guarantee: a credit expands to
    itself, the credits of a contact have different keys, and the key of a
    credit fixes everything the scorer reads from it. */
module PartyCredits {
  import opened Text
  import opened PartyRules

  // ---------- Locations ----------

  /** A code alone is read as a maritime region before it is read as a county. */
  predicate ReadsAsRegion(e: Event, c: string) { Awards(e, MaritimeMult) && IsRegion(c) }

  predicate ReadsAsCounty(e: Event, c: string) { c in e.counties && !ReadsAsRegion(e, c) }

  /** No county line names a county that reads as a region. */
  predicate NoRegionLine(e: Event) {
    e.rules.countyLineMax >= 2 ==> forall c <- e.counties, d <- e.counties :: c != d ==> !ReadsAsRegion(e, c)
  }

  /** No county line names two counties that read as the same region. */
  predicate NoTwinRegions(e: Event) {
    e.rules.countyLineMax >= 2 ==> forall c <- e.counties, d <- e.counties ::
      c != d && ReadsAsRegion(e, c) && ReadsAsRegion(e, d) ==> Region(c) != Region(d)
  }

  lemma CodeText(c: string)
    requires IsCode(c)
    ensures IsField(c) && Trimmed(c) && ToUpper(c) == c
    ensures !Contains(c, '/') && !Contains(c, '+') && !Contains(c, '|') && !Contains(c, ':')
  {
    ToUpperFixed(c);
  }

  lemma SortOne(c: string)
    ensures SortStrings([c]) == [c]
  {
    assert SortStrings([]) == [];
    assert [c][1..] == [];
  }

  /** A county code on its own is read back as that county exactly when it is
      not taken for a maritime region first. */
  lemma CountyLocation(w: World, e: Event, c: string)
    requires ValidEvent(e) && c in e.counties
    ensures ParseLocation(w, e, c) == Ok(if ReadsAsRegion(e, c) then Place("R" + Region(c), c, []) else Place("", c, [c]))
    ensures ParseLocation(w, e, c) == Ok(Place("", c, [c])) <==> ReadsAsCounty(e, c)
  {
    CodeText(c);
    SplitSingle(c, '/');
    assert Codes(e, [c]) == [c];
    SortOne(c);
  }

  lemma LineCodes(e: Event, parts: seq<string>)
    requires IsCountyLine(e, parts)
    ensures Distinct(SortStrings(Codes(e, parts)))
    ensures forall c <- SortStrings(Codes(e, parts)) :: c in e.counties
  {
    hide SortStrings, CountyCode, Distinct;
    var codes := Codes(e, parts);
    var sorted := SortStrings(codes);
    forall c | c in sorted ensures c in e.counties {
      assert c in multiset(sorted) && c in multiset(codes);
      var i :| 0 <= i < |codes| && codes[i] == c;
      CodeIsCounty(e, parts[i]);
    }
    DistinctByMultiset(codes, sorted);
  }

  lemma CodeIsCounty(e: Event, text: string)
    ensures CountyCode(e, text) != "" ==> CountyCode(e, text) in e.counties
  {
  }

  lemma DistinctCounts(s: seq<string>)
    ensures Distinct(s) <==> forall c :: multiset(s)[c] <= 1
  {
    if s != [] {
      DistinctCounts(s[1..]);
      assert s == [s[0]] + s[1..];
      assert multiset(s) == multiset{s[0]} + multiset(s[1..]);
      if Distinct(s) {
        assert Distinct(s[1..]);
        assert s[0] !in s[1..];
        assert multiset(s[1..])[s[0]] == 0;
      } else {
        var i, j :| 0 <= i < j < |s| && s[i] == s[j];
        if i == 0 {
          assert s[1..][j - 1] == s[0];
          assert multiset(s)[s[0]] >= 2;
        } else {
          assert s[1..][i - 1] == s[1..][j - 1];
          assert !Distinct(s[1..]);
          var c :| multiset(s[1..])[c] > 1;
          assert multiset(s)[c] > 1;
        }
      }
    }
  }

  lemma DistinctByMultiset(s: seq<string>, t: seq<string>)
    requires Distinct(s) && multiset(s) == multiset(t)
    ensures Distinct(t)
  {
    DistinctCounts(s);
    DistinctCounts(t);
  }

  /** A location that reads as no county is not a county code, regions aside. */
  lemma OutsideIsNoCounty(w: World, e: Event, location: string)
    requires ValidEvent(e)
    requires ParseLocation(w, e, location).Ok? && ParseLocation(w, e, location).value.counties == []
    requires !ReadsAsRegion(e, location)
    ensures location !in e.counties
    ensures ParseLocation(w, e, location) == ParseOutside(w, e, location)
  {
    if location in e.counties { CountyLocation(w, e, location); }
    var parts := Split(location, '/');
    assert |SortStrings(Codes(e, parts))| == |multiset(Codes(e, parts))| == |parts|;
  }

  // ---------- Exchanges read back ----------

  /** What a successful parse leaves in the serial and name. */
  predicate HeadFits(e: Event, x: PartyExchange) {
    match e.rules.exchange
    case LocationOnly => x.serial == "" && x.name == ""
    case SerialLocation => IsField(x.serial) && PositiveSerial(x.serial) && x.name == ""
    case NameLocation => x.serial == "" && IsField(x.name) && SubmissionName(x.name)
  }

  lemma ExchangeText(serial: string, text: string)
    requires AllPrintable(serial + text)
    ensures AllPrintable(ToUpper(CabrilloExchange(serial, text)))
  {
    TrimSpaceChars(serial);
    TrimSpaceChars(text);
    forall c | c in TrimSpace(serial) || c in TrimSpace(text) ensures Printable(c) {
      assert c in serial + text;
    }
  }

  lemma WordIsField(s: string, k: nat)
    requires AllPrintable(s) && ToUpper(s) == s && k < |Fields(s)|
    ensures IsField(Fields(s)[k])
  {
    FieldsAreWords(s, k);
    forall c | c in s ensures Printable(c) && !IsLower(c) {
      var i :| 0 <= i < |s| && s[i] == c;
      assert ToUpper(s)[i] == UpperChar(s[i]);
    }
  }

  lemma WordsFit(e: Event, serial: string, text: string)
    requires Words(e, serial, text).Ok?
    ensures var (number, name, location) := Words(e, serial, text).value;
            HeadFits(e, PartyExchange(number, name, "", "", [])) && IsField(location) && !Contains(location, '+')
  {
    var s := ToUpper(CabrilloExchange(serial, text));
    ExchangeText(serial, text);
    ToUpperIdempotent(CabrilloExchange(serial, text));
    forall k | 0 <= k < |Fields(s)| ensures IsField(Fields(s)[k]) {
      WordIsField(s, k);
    }
  }

  lemma ExchangeParts(w: World, e: Event, serial: string, text: string)
    requires Exchange(w, e, serial, text).Ok?
    ensures var x := Exchange(w, e, serial, text).value;
            && HeadFits(e, x) && IsField(x.location) && !Contains(x.location, '+')
            && ParseLocation(w, e, x.location) == Ok(Place(x.area, x.location, x.counties))
  {
    WordsFit(e, serial, text);
    var (_, _, location) := Words(e, serial, text).value;
    PlaceLocation(w, e, location);
    hide Words, ParseLocation;
  }

  lemma PlaceLocation(w: World, e: Event, location: string)
    requires ParseLocation(w, e, location).Ok?
    ensures ParseLocation(w, e, location).value.location == location
  {
  }

  lemma JoinedChars(head: string, location: string, text: string)
    requires IsField(head) && IsField(location) && text == head + " " + location
    ensures AllPrintable(text) && ToUpper(text) == text
  {
    forall i | 0 <= i < |text| ensures !IsLower(text[i]) && Printable(text[i]) {
      if i < |head| { assert text[i] == head[i]; }
      else if i > |head| { assert text[i] == location[i - |head| - 1]; }
    }
    ToUpperFixed(text);
  }

  lemma JoinedExchange(head: string, location: string, text: string)
    requires IsField(head) && IsField(location) && text == head + " " + location
    ensures CabrilloExchange(head, location) == text && CabrilloExchange("", text) == text
  {
    assert text[0] == head[0] && text[|text| - 1] == location[|location| - 1];
    assert Trimmed("") && Trimmed(head) && Trimmed(location) && Trimmed(text);
    hide TrimSpace;
  }

  lemma WordsOfTwo(head: string, location: string, text: string)
    requires IsField(head) && IsField(location) && text == head + " " + location
    ensures AllPrintable(head + location) && AllPrintable("" + text)
    ensures CabrilloExchange(head, location) == text && CabrilloExchange("", text) == text
    ensures ToUpper(text) == text
    ensures Fields(text) == [head, location]
  {
    hide Fields, CabrilloExchange, ToUpper, AllPrintable, IsLower, Printable, IsSpace;
    assert "" + text == text;
    FieldParts(head);
    FieldParts(location);
    JoinedChars(head, location, text);
    JoinedExchange(head, location, text);
    FieldsOfTwo(head, location);
    ConcatPrintable(head, location);
  }

  lemma FieldParts(s: string)
    requires IsField(s)
    ensures IsWord(s) && AllPrintable(s)
  {
  }

  lemma ConcatPrintable(a: string, b: string)
    requires AllPrintable(a) && AllPrintable(b)
    ensures AllPrintable(a + b)
  {
  }

  lemma WordsOfOne(location: string)
    requires IsField(location)
    ensures AllPrintable("" + location) && Fields(ToUpper(CabrilloExchange("", location))) == [location]
  {
    assert "" + location == location;
    assert CabrilloExchange("", location) == location by { assert Trimmed(location) && Trimmed(""); hide TrimSpace; }
    ToUpperFixed(location);
    FieldsOfWord(location);
    hide Fields, CabrilloExchange, ToUpper;
  }

  /** Printing a serial, a name and a location word and reading the words back. */
  lemma WordsOfParts(e: Event, x: PartyExchange, location: string)
    requires HeadFits(e, x) && IsField(location) && !Contains(location, '+')
    ensures Words(e, x.serial, Prefixed(x.name, location)) == Ok((x.serial, x.name, location))
  {
    assert ReplaceChar(location, '+', '/') == location;
    match e.rules.exchange {
      case LocationOnly => WordsOfOne(location);
      case SerialLocation => WordsOfTwo(x.serial, location, x.serial + " " + location);
      case NameLocation => WordsOfTwo(x.name, location, x.name + " " + location);
    }
    hide Fields, CabrilloExchange, ToUpper, ReplaceChar, IsField, AllPrintable;
  }

  // ---------- A credit expands to itself ----------

  /** `x` is what the parser returns for its own location, with at most one county. */
  ghost predicate Parsed(w: World, e: Event, x: PartyExchange) {
    && |x.counties| <= 1
    && ParseLocation(w, e, x.location) == Ok(Place(x.area, x.location, x.counties))
    && (x.counties != [] ==> ReadsAsCounty(e, x.counties[0]) && x.area == "")
  }

  /** The exchange of the credit for one of the locations of `x`, as it is read back. */
  function Narrow(e: Event, x: PartyExchange, location: string): PartyExchange {
    if x.counties == [] then x
    else if ReadsAsRegion(e, location) then x.(area := "R" + Region(location), location := location, counties := [])
    else x.(area := "", location := location, counties := [location])
  }

  lemma NarrowReparses(w: World, e: Event, serial: string, text: string, location: string)
    requires ValidEvent(e) && Exchange(w, e, serial, text).Ok?
    requires location in LocationsOf(Exchange(w, e, serial, text).value)
    ensures var x := Exchange(w, e, serial, text).value;
            && Exchange(w, e, x.serial, Prefixed(x.name, location)) == Ok(Narrow(e, x, location))
            && Parsed(w, e, Narrow(e, x, location))
  {
    var x := Exchange(w, e, serial, text).value;
    ExchangeParts(w, e, serial, text);
    if x.counties != [] {
      ExchangeCounties(w, e, serial, text);
      CountyLocation(w, e, location);
      CodeText(location);
    }
    WordsOfParts(e, x, location);
  }

  lemma ExchangeCounties(w: World, e: Event, serial: string, text: string)
    requires Exchange(w, e, serial, text).Ok?
    ensures var x := Exchange(w, e, serial, text).value;
            && Distinct(x.counties)
            && (x.counties != [] ==> x.area == "" && |x.counties| <= e.rules.countyLineMax)
            && forall c <- x.counties :: c in e.counties
  {
    hide Exchange, ParseLocation;
    var x := Exchange(w, e, serial, text).value;
    ExchangeParts(w, e, serial, text);
    PlaceCounties(w, e, x.location);
  }

  lemma PlaceCounties(w: World, e: Event, location: string)
    requires ParseLocation(w, e, location).Ok?
    ensures var p := ParseLocation(w, e, location).value;
            && Distinct(p.counties)
            && (p.counties != [] ==> p.area == "" && |p.counties| <= e.rules.countyLineMax)
            && forall c <- p.counties :: c in e.counties
  {
    hide ParseOutside, IsRegion, Codes, SortStrings;
    if !ReadsAsRegion(e, location) && IsCountyLine(e, Split(location, '/')) {
      var codes := Codes(e, Split(location, '/'));
      LineCodes(e, Split(location, '/'));
      assert |SortStrings(codes)| == |multiset(codes)| == |codes|;
    } else {
      OutsideHasNone(e, w, location);
    }
  }

  lemma OutsideHasNone(e: Event, w: World, location: string)
    ensures ParseOutside(w, e, location).Ok? ==> ParseOutside(w, e, location).value.counties == []
  {
    hide PostalArea, DxEntity, IsCode;
  }

  /** A single county is sent as its own code. */
  lemma AloneIsCounty(w: World, e: Event, x: PartyExchange)
    requires IsField(x.location) && ParseLocation(w, e, x.location) == Ok(Place(x.area, x.location, x.counties)) && |x.counties| == 1
    ensures x.counties == [x.location] && ReadsAsCounty(e, x.location)
  {
    hide TrimSpace;
    var parts := Split(x.location, '/');
    var codes := Codes(e, parts);
    assert |SortStrings(codes)| == |multiset(codes)| == |codes|;
    assert parts == [x.location];
    ToUpperFixed(x.location);
    assert codes == [CountyCode(e, x.location)];
    assert Trimmed(x.location);
    SortOne(codes[0]);
  }

  lemma ProductMember(q: Qso, sent: PartyExchange, received: PartyExchange, homes: seq<string>, aways: seq<string>, c: Qso)
      returns (home: string, away: string)
    requires c in Product(q, sent, received, homes, aways)
    ensures home in homes && away in aways && c == CreditOf(q, sent, received, home, away)
  {
    var n := |homes| - 1;
    if c in Product(q, sent, received, homes[..n], aways) {
      home, away := ProductMember(q, sent, received, homes[..n], aways, c);
    } else {
      var j :| 0 <= j < |aways| && Row(q, sent, received, homes[n], aways)[j] == c;
      home, away := homes[n], aways[j];
    }
  }

  /** The two exchanges a contact's credits come from. */
  ghost predicate Splits(w: World, e: Event, q: Qso, sent: PartyExchange, received: PartyExchange) {
    && Exchange(w, e, q.stx, q.stxString) == Ok(sent)
    && Exchange(w, e, q.srx, q.srxString) == Ok(received)
  }

  lemma CreditExchanges(w: World, e: Event, q: Qso, sent: PartyExchange, received: PartyExchange, home: string, away: string)
    requires ValidEvent(e) && Splits(w, e, q, sent, received)
    requires home in LocationsOf(sent) && away in LocationsOf(received)
    ensures Splits(w, e, CreditOf(q, sent, received, home, away), Narrow(e, sent, home), Narrow(e, received, away))
    ensures Parsed(w, e, Narrow(e, sent, home)) && Parsed(w, e, Narrow(e, received, away))
  {
    NarrowReparses(w, e, q.stx, q.stxString, home);
    NarrowReparses(w, e, q.srx, q.srxString, away);
  }

  /** The credits of a contact; none when its exchanges do not parse. */
  ghost function CreditsOf(w: World, e: Event, q: Qso): seq<Qso> {
    if Credits(w, e, q).Ok? then Credits(w, e, q).value else []
  }

  /** A contact as the scorer meets it after expansion: two exchanges with at most one county each. */
  ghost predicate IsCredit(w: World, e: Event, c: Qso) {
    && Creditable(e, c)
    && Splits(w, e, c, Sent(w, e, c), Received(w, e, c))
    && Parsed(w, e, Sent(w, e, c)) && Parsed(w, e, Received(w, e, c))
  }

  lemma CreditFields(w: World, e: Event, q: Qso, c: Qso)
    requires c in CreditsOf(w, e, q)
    ensures c.unscored == q.unscored && c.time == q.time && c.call == q.call && c.band == q.band && c.station == q.station
    ensures Creditable(e, c)
  {
    var sent, received := Sent(w, e, q), Received(w, e, q);
    var home, away := ProductMember(q, sent, received, LocationsOf(sent), LocationsOf(received), c);
    hide Exchange, Product;
  }

  lemma CreditParts(w: World, e: Event, q: Qso, c: Qso) returns (home: string, away: string)
    requires ValidEvent(e) && c in CreditsOf(w, e, q)
    ensures home in LocationsOf(Sent(w, e, q)) && away in LocationsOf(Received(w, e, q))
    ensures c == CreditOf(q, Sent(w, e, q), Received(w, e, q), home, away)
    ensures Splits(w, e, c, Narrow(e, Sent(w, e, q), home), Narrow(e, Received(w, e, q), away))
    ensures Parsed(w, e, Narrow(e, Sent(w, e, q), home)) && Parsed(w, e, Narrow(e, Received(w, e, q), away))
  {
    hide Exchange, Narrow, Parsed;
    var sent, received := Sent(w, e, q), Received(w, e, q);
    home, away := ProductMember(q, sent, received, LocationsOf(sent), LocationsOf(received), c);
    CreditExchanges(w, e, q, sent, received, home, away);
  }

  lemma CreditsAreCredits(w: World, e: Event, q: Qso, c: Qso)
    requires ValidEvent(e) && c in CreditsOf(w, e, q)
    ensures IsCredit(w, e, c)
  {
    hide Exchange, Narrow, Parsed, Credits, LocationsOf;
    CreditFields(w, e, q, c);
    var home, away := CreditParts(w, e, q, c);
  }

  /** A credit expands to itself as long as one of its locations still reads as a county,
      and otherwise to nothing. */
  lemma CreditExpands(w: World, e: Event, q: Qso, c: Qso)
    requires ValidEvent(e) && c in CreditsOf(w, e, q)
    ensures Credits(w, e, c) == Ok(if Sent(w, e, c).counties == [] && Received(w, e, c).counties == [] then [] else [c])
  {
    hide Exchange, Parsed;
    var sent, received := Sent(w, e, q), Received(w, e, q);
    CreditFields(w, e, q, c);
    var home, away := CreditParts(w, e, q, c);
    var s, r := Narrow(e, sent, home), Narrow(e, received, away);
    assert LocationsOf(s) == [home] && LocationsOf(r) == [away];
    assert [home][..0] == [];
    assert CreditOf(c, s, r, home, away) == c;
    assert Row(c, s, r, home, [away]) == [c];
    assert Product(c, s, r, [home], [away]) == [c];
  }

  /** Every credit of a contact expands to exactly itself, where county lines name no region. */
  lemma CreditExpandsToItself(w: World, e: Event, q: Qso, c: Qso)
    requires ValidEvent(e) && NoRegionLine(e) && c in CreditsOf(w, e, q)
    ensures Credits(w, e, c) == Ok([c])
  {
    hide Exchange, Parsed;
    CreditExpands(w, e, q, c);
    var home, away := CreditParts(w, e, q, c);
    var sent, received := Sent(w, e, q), Received(w, e, q);
    if sent.counties != [] { StaysCounty(w, e, q.stx, q.stxString, home); }
    else { StaysCounty(w, e, q.srx, q.srxString, away); }
  }

  lemma StaysCounty(w: World, e: Event, serial: string, text: string, location: string)
    requires ValidEvent(e) && NoRegionLine(e) && Exchange(w, e, serial, text).Ok?
    requires var x := Exchange(w, e, serial, text).value; x.counties != [] && location in x.counties
    ensures !ReadsAsRegion(e, location)
  {
    var x := Exchange(w, e, serial, text).value;
    ExchangeParts(w, e, serial, text);
    ExchangeCounties(w, e, serial, text);
    if |x.counties| == 1 {
      AloneIsCounty(w, e, x);
    } else {
      var other := if x.counties[0] == location then x.counties[1] else x.counties[0];
      assert other in x.counties && other != location;
    }
  }

  // ---------- Keys ----------

  predicate NoBar(s: string) { !Contains(s, '|') }

  lemma Cancel(p: string, x: string, y: string)
    requires p + x == p + y
    ensures x == y
  {
    assert x == (p + x)[|p|..] && y == (p + y)[|p|..];
  }

  lemma BarAt(a: string, x: string)
    requires NoBar(a)
    ensures IndexOf(a + ("|" + x), '|') == |a|
  {
    var s := a + ("|" + x);
    assert s[|a|] == '|';
    assert forall j :: 0 <= j < |a| ==> s[j] == a[j];
  }

  /** Text up to the first bar is recovered from the whole. */
  lemma BarSplit(a: string, x: string, b: string, y: string)
    requires NoBar(a) && NoBar(b)
    requires a + ("|" + x) == b + ("|" + y)
    ensures a == b && x == y
  {
    BarAt(a, x);
    BarAt(b, y);
    var s, t := a + ("|" + x), b + ("|" + y);
    assert a == s[..|a|] && b == t[..|b|];
    Cancel(a, "|" + x, "|" + y);
    Cancel("|", x, y);
  }

  ghost function SentKey(w: World, e: Event, q: Qso): string { LocationKey(w, e, Sent(w, e, q), q.station) }

  ghost function ReceivedKey(w: World, e: Event, q: Qso): string { LocationKey(w, e, Received(w, e, q), q.call) }

  ghost predicate DistinctKeys(w: World, e: Event, s: seq<Qso>) {
    forall i, j :: 0 <= i < j < |s| ==> CreditKey(w, e, s[i]) != CreditKey(w, e, s[j])
  }

  /** The text a key shows for one location of an exchange with counties. */
  function CountyKeyText(e: Event, c: string): string { if ReadsAsRegion(e, c) then "R" + Region(c) else c }

  lemma NarrowKey(w: World, e: Event, x: PartyExchange, location: string, call: string)
    requires ValidEvent(e) && x.counties != [] && location in e.counties
    ensures LocationKey(w, e, Narrow(e, x, location), call) == CountyKeyText(e, location)
    ensures NoBar(CountyKeyText(e, location))
  {
    CodeText(location);
    var region := "R" + Region(location);
    if ReadsAsRegion(e, location) { assert |region| == 2 && !IsUpper(region[1]) && region !in e.rules.aliases; }
  }

  /** Different counties of one line show different texts. */
  lemma CountyKeyTextsApart(e: Event, c: string, d: string)
    requires NoTwinRegions(e) && c in e.counties && d in e.counties && c != d && e.rules.countyLineMax >= 2
    ensures CountyKeyText(e, c) != CountyKeyText(e, d)
  {
    var r, t := "R" + Region(c), "R" + Region(d);
    assert r[1..] == Region(c) && t[1..] == Region(d);
    assert IsRegion(c) ==> IsRegion(r) && Region(r) == Region(c);
    assert IsRegion(d) ==> IsRegion(t) && Region(t) == Region(d);
  }

  lemma SameCounty(w: World, e: Event, serial: string, text: string, call: string, c: string, d: string)
    requires ValidEvent(e) && NoTwinRegions(e) && Exchange(w, e, serial, text).Ok?
    requires var x := Exchange(w, e, serial, text).value;
             && c in LocationsOf(x) && d in LocationsOf(x)
             && LocationKey(w, e, Narrow(e, x, c), call) == LocationKey(w, e, Narrow(e, x, d), call)
    ensures c == d
  {
    hide CountyKeyText, Exchange, LocationKey, Narrow;
    var x := Exchange(w, e, serial, text).value;
    if x.counties != [] {
      ExchangeCounties(w, e, serial, text);
      NarrowKey(w, e, x, c, call);
      NarrowKey(w, e, x, d, call);
      if c != d {
        assert |x.counties| >= 2;
        CountyKeyTextsApart(e, c, d);
      }
    }
  }

  /** Two credits of one contact with the same key are for the same pair of locations. */
  lemma PairFromKey(w: World, e: Event, q: Qso, sent: PartyExchange, received: PartyExchange,
                    h1: string, a1: string, h2: string, a2: string)
    requires ValidEvent(e) && NoTwinRegions(e) && Splits(w, e, q, sent, received)
    requires h1 in LocationsOf(sent) && h2 in LocationsOf(sent)
    requires a1 in LocationsOf(received) && a2 in LocationsOf(received)
    requires CreditKey(w, e, CreditOf(q, sent, received, h1, a1)) == CreditKey(w, e, CreditOf(q, sent, received, h2, a2))
    ensures h1 == h2 && a1 == a2
  {
    hide Exchange, Norm, ToUpper, LocationKey, Narrow, Parsed;
    CreditExchanges(w, e, q, sent, received, h1, a1);
    CreditExchanges(w, e, q, sent, received, h2, a2);
    var s1, s2 := LocationKey(w, e, Narrow(e, sent, h1), q.station), LocationKey(w, e, Narrow(e, sent, h2), q.station);
    var r1, r2 := LocationKey(w, e, Narrow(e, received, a1), q.call), LocationKey(w, e, Narrow(e, received, a2), q.call);
    CancelKey(Norm(q.call), ToUpper(q.band), s1, r1, s2, r2);
    SentTextsSame(w, e, q, sent, h1, h2, s1, r1, s2, r2);
    SameCounty(w, e, q.stx, q.stxString, q.station, h1, h2);
    SameCounty(w, e, q.srx, q.srxString, q.call, a1, a2);
  }

  lemma SentTextsSame(w: World, e: Event, q: Qso, sent: PartyExchange, h1: string, h2: string,
                      s1: string, r1: string, s2: string, r2: string)
    requires ValidEvent(e) && Exchange(w, e, q.stx, q.stxString) == Ok(sent) && h1 in LocationsOf(sent) && h2 in LocationsOf(sent)
    requires s1 == LocationKey(w, e, Narrow(e, sent, h1), q.station) && s2 == LocationKey(w, e, Narrow(e, sent, h2), q.station)
    requires s1 + ("|" + r1) == s2 + ("|" + r2)
    ensures s1 == s2 && r1 == r2
  {
    hide Exchange, LocationKey, CountyKeyText;
    if sent.counties == [] {
      Cancel(s1, "|" + r1, "|" + r2);
      Cancel("|", r1, r2);
    } else {
      ExchangeCounties(w, e, q.stx, q.stxString);
      NarrowKey(w, e, sent, h1, q.station);
      NarrowKey(w, e, sent, h2, q.station);
      BarSplit(s1, r1, s2, r2);
    }
  }

  lemma CancelKey(call: string, band: string, s1: string, r1: string, s2: string, r2: string)
    requires RenderKey(call, band, s1, r1) == RenderKey(call, band, s2, r2)
    ensures s1 + ("|" + r1) == s2 + ("|" + r2)
  {
    Cancel(call, "|" + (band + ("|" + (s1 + ("|" + r1)))), "|" + (band + ("|" + (s2 + ("|" + r2)))));
    Cancel("|", band + ("|" + (s1 + ("|" + r1))), band + ("|" + (s2 + ("|" + r2))));
    Cancel(band, "|" + (s1 + ("|" + r1)), "|" + (s2 + ("|" + r2)));
    Cancel("|", s1 + ("|" + r1), s2 + ("|" + r2));
  }

  lemma AppendDistinct(w: World, e: Event, front: seq<Qso>, row: seq<Qso>)
    requires DistinctKeys(w, e, front) && DistinctKeys(w, e, row)
    requires forall c <- front, d <- row :: CreditKey(w, e, c) != CreditKey(w, e, d)
    ensures DistinctKeys(w, e, front + row)
  {
    hide CreditKey;
  }

  lemma RowKeys(w: World, e: Event, q: Qso, sent: PartyExchange, received: PartyExchange, home: string, aways: seq<string>)
    requires ValidEvent(e) && NoTwinRegions(e) && Splits(w, e, q, sent, received)
    requires home in LocationsOf(sent) && Distinct(aways)
    requires forall a <- aways :: a in LocationsOf(received)
    ensures DistinctKeys(w, e, Row(q, sent, received, home, aways))
  {
    hide Exchange, CreditKey, LocationsOf;
    var row := Row(q, sent, received, home, aways);
    forall i, j | 0 <= i < j < |row| ensures CreditKey(w, e, row[i]) != CreditKey(w, e, row[j]) {
      if CreditKey(w, e, row[i]) == CreditKey(w, e, row[j]) {
        PairFromKey(w, e, q, sent, received, home, aways[i], home, aways[j]);
      }
    }
  }

  lemma RowAfterFront(w: World, e: Event, q: Qso, sent: PartyExchange, received: PartyExchange,
                      homes: seq<string>, home: string, aways: seq<string>, c: Qso, d: Qso)
    requires ValidEvent(e) && NoTwinRegions(e) && Splits(w, e, q, sent, received)
    requires forall h <- homes :: h in LocationsOf(sent)
    requires home in LocationsOf(sent) && home !in homes
    requires forall a <- aways :: a in LocationsOf(received)
    requires c in Product(q, sent, received, homes, aways) && d in Row(q, sent, received, home, aways)
    ensures CreditKey(w, e, c) != CreditKey(w, e, d)
  {
    hide Exchange, CreditKey, LocationsOf, Narrow;
    var h, a := ProductMember(q, sent, received, homes, aways, c);
    var j :| 0 <= j < |aways| && Row(q, sent, received, home, aways)[j] == d;
    if CreditKey(w, e, c) == CreditKey(w, e, d) {
      PairFromKey(w, e, q, sent, received, h, a, home, aways[j]);
    }
  }

  lemma {:induction false} ProductKeys(w: World, e: Event, q: Qso, sent: PartyExchange, received: PartyExchange,
                                       homes: seq<string>, aways: seq<string>)
    requires ValidEvent(e) && NoTwinRegions(e) && Splits(w, e, q, sent, received)
    requires forall h <- homes :: h in LocationsOf(sent)
    requires forall a <- aways :: a in LocationsOf(received)
    requires Distinct(homes) && Distinct(aways)
    ensures DistinctKeys(w, e, Product(q, sent, received, homes, aways))
  {
    hide Exchange, CreditKey, LocationsOf, CreditOf, Splits, ValidEvent, NoTwinRegions;
    if homes != [] {
      var n := |homes| - 1;
      var front, row := Product(q, sent, received, homes[..n], aways), Row(q, sent, received, homes[n], aways);
      ProductKeys(w, e, q, sent, received, homes[..n], aways);
      RowKeys(w, e, q, sent, received, homes[n], aways);
      forall c, d | c in front && d in row ensures CreditKey(w, e, c) != CreditKey(w, e, d) {
        RowAfterFront(w, e, q, sent, received, homes[..n], homes[n], aways, c, d);
      }
      AppendDistinct(w, e, front, row);
    }
  }

  lemma NothingApart(w: World, e: Event)
    ensures DistinctKeys(w, e, [])
  {
  }

  /** Expansion yields one credit per (home, away) pair, all with different keys. */
  lemma CreditsCountAndKeys(w: World, e: Event, q: Qso)
    requires ValidEvent(e) && NoTwinRegions(e)
    requires Credits(w, e, q).Ok?
    ensures var credits := Credits(w, e, q).value;
            && DistinctKeys(w, e, credits)
            && (credits != [] ==> |credits| == |LocationsOf(Sent(w, e, q))| * |LocationsOf(Received(w, e, q))|)
            && (credits != [] <==> Creditable(e, q) && (Sent(w, e, q).counties != [] || Received(w, e, q).counties != []))
  {
    hide Exchange, NoTwinRegions, ValidEvent, Creditable, CreditKey, DistinctKeys, CreditOf;
    var sent, received := Sent(w, e, q), Received(w, e, q);
    NothingApart(w, e);
    ExchangeCounties(w, e, q.stx, q.stxString);
    ExchangeCounties(w, e, q.srx, q.srxString);
    ProductKeys(w, e, q, sent, received, LocationsOf(sent), LocationsOf(received));
    assert |LocationsOf(sent)| >= 1 && |LocationsOf(received)| >= 1;
    assert |LocationsOf(sent)| * |LocationsOf(received)| >= 1;
  }

  // ---------- The key fixes the multipliers ----------

  /** "DX" alone is read as an unnamed country. */
  predicate DxReads(e: Event) { "DX" !in e.counties && "DX" !in e.rules.aliases && e.rules.state != "DX" }

  /** The alias word is read as the place it stands for. */
  predicate AliasReads(e: Event, alias: string) {
    alias in e.rules.aliases && alias !in e.counties && alias != e.rules.state
  }

  /** Event settings under which keys cannot confuse two kinds of place. */
  predicate Unambiguous(e: Event) {
    && !(Awards(e, DxMult) && Awards(e, DxccMult) && DxReads(e))
    && (forall a <- e.rules.aliases :: AliasReads(e, a) ==> e.rules.aliases[a] !in e.counties)
  }

  /** Country names carry no key separator. */
  ghost predicate PlainNames(w: World) {
    forall s :: w.country(s).Some? ==> NoBar(w.country(s).value)
  }

  /** The text a key shows for a place outside the counties. */
  ghost predicate KeyFor(w: World, e: Event, x: PartyExchange, call: string, k: string) {
    && !ReadsAsCounty(e, k) && k !in e.rules.aliases && x.area !in e.rules.aliases && NoBar(k)
    && (if x.area == "DX" && DxEntity(w, call).Some? then k == "DX:" + DxEntity(w, call).value else k == x.area)
    && (HasPrefix(x.area, "DX:") ==> Awards(e, DxccMult))
    && (x.area == "DX" ==> DxReads(e))
  }

  lemma EntityText(w: World, e: Event, name: string)
    requires ValidEvent(e) && NoBar(name)
    ensures var k := "DX:" + name; k !in e.counties && k !in e.rules.aliases && NoBar(k)
  {
    assert ("DX:" + name)[2] == ':';
  }

  /** An outside place never shows a county's text, an alias, or a separator. */
  lemma OutsideKey(w: World, e: Event, x: PartyExchange, call: string)
    requires ValidEvent(e) && Unambiguous(e) && PlainNames(w)
    requires Parsed(w, e, x) && x.counties == []
    ensures KeyFor(w, e, x, call, LocationKey(w, e, x, call))
  {
    hide ParseLocation, ParseOutside, ValidEvent, Unambiguous, PlainNames, IsRegion, DxReads;
    if ReadsAsRegion(e, x.location) {
      RegionArea(w, e, x);
    } else {
      OutsideIsNoCounty(w, e, x.location);
      OutsideArea(w, e, x);
    }
    PlainEntity(w, call);
    if x.area == "DX" && DxEntity(w, call).Some? { EntityText(w, e, DxEntity(w, call).value); }
  }

  lemma PlainEntity(w: World, call: string)
    requires PlainNames(w)
    ensures DxEntity(w, call).Some? ==> NoBar(DxEntity(w, call).value)
  {
    hide Norm, NoBar;
  }

  lemma RegionArea(w: World, e: Event, x: PartyExchange)
    requires ValidEvent(e) && ReadsAsRegion(e, x.location)
    requires ParseLocation(w, e, x.location) == Ok(Place(x.area, x.location, []))
    ensures ReadsAsRegion(e, x.area) && x.area !in e.rules.aliases && NoBar(x.area) && !HasPrefix(x.area, "DX:") && x.area != "DX"
  {
    assert x.area[0] == 'R' && !IsUpper(x.area[1]) && IsRegion(x.area);
  }

  lemma OutsideArea(w: World, e: Event, x: PartyExchange)
    requires ValidEvent(e) && PlainNames(w)
    requires ParseOutside(w, e, x.location) == Ok(Place(x.area, x.location, [])) && x.location !in e.counties
    ensures Unambiguous(e) ==> x.area !in e.counties
    ensures x.area !in e.rules.aliases && NoBar(x.area)
    ensures HasPrefix(x.area, "DX:") ==> Awards(e, DxccMult)
    ensures x.area == "DX" ==> DxReads(e)
  {
    var token := TrimPrefix(x.location, "DX:");
    if x.area == PartyArea(e, x.location) && token == x.location && x.location != e.rules.state {
      CodeText(x.location);
      if x.location in e.rules.aliases { PostalLetters(x.area); }
    } else {
      EntityText(w, e, DxEntity(w, token).value);
    }
  }

  lemma PostalLetters(s: string)
    requires PostalArea(s)
    ensures IsLetters(s) && NoBar(s) && s != "DX"
  {
  }

  /** The keys one home kind awards, read off the key text alone. */
  function KeyKinds(e: Event, kind: HomeKind, key: string): seq<string> {
    match kind
    case CountyMult => if ReadsAsCounty(e, key) then ["county:" + key] else []
    case StateMult =>
      var area := PartyArea(e, if !ReadsAsCounty(e, key) then key else if e.rules.countyAsState then e.rules.state else "");
      if PostalArea(area) then ["state:" + area] else []
    case DxccMult => if HasPrefix(key, "DX:") then [key] else []
    case DxMult => if !ReadsAsCounty(e, key) && DxReads(e) && (key == "DX" || HasPrefix(key, "DX:")) then ["DX"] else []
    case MaritimeMult =>
      if !ReadsAsCounty(e, key) && (key == "R1" || key == "R2" || key == "R3") then ["maritime:" + key] else []
  }

  lemma CountyText(c: string)
    requires IsCode(c)
    ensures !HasPrefix(c, "DX:")
  {
    if |c| >= 3 { assert c[2] != "DX:"[2]; }
  }

  lemma KindOfCounty(w: World, e: Event, kind: HomeKind, x: PartyExchange, call: string)
    requires ValidEvent(e) && |x.counties| == 1 && ReadsAsCounty(e, x.counties[0]) && x.area == ""
    ensures KindKeys(w, e, kind, x, call) == KeyKinds(e, kind, x.counties[0])
  {
    var k := x.counties[0];
    CountyText(k);
    assert !PostalArea("") && "" !in e.rules.aliases;
    assert CountyKeys(x.counties) == ["county:" + k];
  }

  lemma KindOfOutside(w: World, e: Event, kind: HomeKind, x: PartyExchange, call: string, k: string)
    requires x.counties == [] && KeyFor(w, e, x, call, k)
    requires !(Awards(e, DxMult) && Awards(e, DxccMult) && DxReads(e)) && kind in e.rules.homeMultipliers
    ensures KindKeys(w, e, kind, x, call) == KeyKinds(e, kind, k)
  {
    assert CountyKeys(x.counties) == [];
    assert !PostalArea("DX") && |"DX:"| == 3;
    assert HasPrefix(k, "DX:") ==> !PostalArea(k);
    hide DxEntity, Norm, PostalArea;
  }

  lemma KindFromKey(w: World, e: Event, kind: HomeKind, x: PartyExchange, call: string)
    requires ValidEvent(e) && Unambiguous(e) && PlainNames(w) && Parsed(w, e, x)
    requires kind in e.rules.homeMultipliers
    ensures KindKeys(w, e, kind, x, call) == KeyKinds(e, kind, LocationKey(w, e, x, call))
  {
    hide KindKeys, KeyKinds, ParseLocation;
    if x.counties != [] {
      KindOfCounty(w, e, kind, x, call);
    } else {
      OutsideKey(w, e, x, call);
      KindOfOutside(w, e, kind, x, call, LocationKey(w, e, x, call));
    }
  }

  function KeyHome(e: Event, kinds: seq<HomeKind>, key: string): seq<string> {
    if kinds == [] then [] else KeyKinds(e, kinds[0], key) + KeyHome(e, kinds[1..], key)
  }

  /** The county a key text names, if any. */
  function KeyCounties(e: Event, key: string): seq<string> {
    if ReadsAsCounty(e, key) then [key] else []
  }

  /** The multiplier keys of a credit, read off the texts of its key. */
  function KeyMultipliers(e: Event, band: string, sentKey: string, receivedKey: string): seq<string> {
    OnBand(e, if !ReadsAsCounty(e, sentKey) then CountyKeys(KeyCounties(e, receivedKey))
              else KeyHome(e, e.rules.homeMultipliers, receivedKey), band)
  }

  lemma {:induction false} HomeFromKey(w: World, e: Event, kinds: seq<HomeKind>, x: PartyExchange, call: string)
    requires ValidEvent(e) && Unambiguous(e) && PlainNames(w) && Parsed(w, e, x)
    requires forall k <- kinds :: k in e.rules.homeMultipliers
    ensures HomeKeys(w, e, kinds, x, call) == KeyHome(e, kinds, LocationKey(w, e, x, call))
  {
    if kinds != [] {
      KindFromKey(w, e, kinds[0], x, call);
      HomeFromKey(w, e, kinds[1..], x, call);
    }
  }

  /** No key text holds the separator. */
  lemma KeyNoBar(w: World, e: Event, x: PartyExchange, call: string)
    requires ValidEvent(e) && PlainNames(w) && Parsed(w, e, x)
    ensures NoBar(LocationKey(w, e, x, call))
  {
    hide ParseLocation, ParseOutside, PlainNames, IsRegion, DxReads, Unambiguous;
    if x.counties != [] {
      CodeText(x.counties[0]);
      assert x.counties == [x.counties[0]];
    } else {
      if ReadsAsRegion(e, x.location) {
        RegionArea(w, e, x);
      } else {
        OutsideIsNoCounty(w, e, x.location);
        OutsideArea(w, e, x);
      }
      PlainEntity(w, call);
      if x.area == "DX" && DxEntity(w, call).Some? { EntityText(w, e, DxEntity(w, call).value); }
    }
  }

  /** Equal keys: same call up to blanks and case, same band, same location texts. */
  lemma SameKeySameSlot(w: World, e: Event, c: Qso, d: Qso)
    requires ValidEvent(e) && PlainNames(w)
    requires IsCredit(w, e, c) && IsCredit(w, e, d) && CreditKey(w, e, c) == CreditKey(w, e, d)
    ensures Norm(c.call) == Norm(d.call) && EqualFold(c.band, d.band)
    ensures SentKey(w, e, c) == SentKey(w, e, d) && ReceivedKey(w, e, c) == ReceivedKey(w, e, d)
  {
    hide Exchange, Parsed, LocationKey, TrimSpace;
    KeyNoBar(w, e, Sent(w, e, c), c.station);
    KeyNoBar(w, e, Sent(w, e, d), d.station);
    KeyNoBar(w, e, Received(w, e, c), c.call);
    KeyNoBar(w, e, Received(w, e, d), d.call);
    var b1, b2 := ToUpper(c.band), ToUpper(d.band);
    assert b1 in e.bands && b2 in e.bands;
    SplitKey(Norm(c.call), b1, SentKey(w, e, c), ReceivedKey(w, e, c), Norm(d.call), b2, SentKey(w, e, d), ReceivedKey(w, e, d));
  }

  /** A key text names a county exactly when the exchange does. */
  lemma PlaceFromKey(w: World, e: Event, x: PartyExchange, call: string)
    requires ValidEvent(e) && Unambiguous(e) && PlainNames(w) && Parsed(w, e, x)
    ensures x.counties == KeyCounties(e, LocationKey(w, e, x, call))
  {
    if x.counties == [] {
      OutsideKey(w, e, x, call);
    } else {
      CodeText(x.counties[0]);
      assert x.counties == [x.counties[0]];
    }
  }

  /** The multiplier keys of a credit depend on its key only. */
  lemma MultipliersFromKey(w: World, e: Event, c: Qso)
    requires ValidEvent(e) && Unambiguous(e) && PlainNames(w) && IsCredit(w, e, c)
    ensures MultiplierKeys(w, e, c) == KeyMultipliers(e, c.band, SentKey(w, e, c), ReceivedKey(w, e, c))
    ensures Sent(w, e, c).counties == KeyCounties(e, SentKey(w, e, c))
  {
    var s, r := Sent(w, e, c), Received(w, e, c);
    PlaceFromKey(w, e, s, c.station);
    PlaceFromKey(w, e, r, c.call);
    HomeFromKey(w, e, e.rules.homeMultipliers, r, c.call);
    hide Exchange, Parsed, LocationKey, HomeKeys, KeyHome, Credits;
  }

  /** What the scorer reads from a credit besides its place in the log. */
  ghost predicate SameCredit(w: World, e: Event, c: Qso, d: Qso) {
    && Norm(c.call) == Norm(d.call) && EqualFold(c.band, d.band)
    && Sent(w, e, c).counties == Sent(w, e, d).counties
    && MultiplierKeys(w, e, c) == MultiplierKeys(w, e, d)
  }

  /** Equal keys: same call up to blanks and case, same band, sent county and multipliers. */
  lemma SameKeySameCredit(w: World, e: Event, c: Qso, d: Qso)
    requires ValidEvent(e) && Unambiguous(e) && PlainNames(w)
    requires IsCredit(w, e, c) && IsCredit(w, e, d) && CreditKey(w, e, c) == CreditKey(w, e, d)
    ensures SameCredit(w, e, c, d)
  {
    hide Exchange, Parsed, LocationKey, KeyHome, Credits, MultiplierKeys, TrimSpace;
    MultipliersFromKey(w, e, c);
    MultipliersFromKey(w, e, d);
    SameKeySameSlot(w, e, c, d);
  }

  /** Text after the last bar is recovered from the whole. */
  lemma LastBar(a: string, x: string, b: string, y: string)
    requires NoBar(x) && NoBar(y)
    requires a + ("|" + x) == b + ("|" + y)
    ensures a == b && x == y
  {
    var s, t := a + ("|" + x), b + ("|" + y);
    assert s[|a|] == '|' && t[|b|] == '|';
    assert forall i :: |a| < i < |s| ==> s[i] == x[i - |a| - 1];
    assert forall i :: |b| < i < |t| ==> t[i] == y[i - |b| - 1];
    assert |a| == |b|;
    assert a == s[..|a|] && b == t[..|b|];
    Cancel(a, "|" + x, "|" + y);
    Cancel("|", x, y);
  }

  lemma SplitKey(c1: string, b1: string, s1: string, r1: string, c2: string, b2: string, s2: string, r2: string)
    requires NoBar(b1) && NoBar(b2) && NoBar(s1) && NoBar(s2) && NoBar(r1) && NoBar(r2)
    requires RenderKey(c1, b1, s1, r1) == RenderKey(c2, b2, s2, r2)
    ensures c1 == c2 && b1 == b2 && s1 == s2 && r1 == r2
  {
    var front1, front2 := c1 + ("|" + b1), c2 + ("|" + b2);
    assert RenderKey(c1, b1, s1, r1) == (front1 + ("|" + s1)) + ("|" + r1);
    assert RenderKey(c2, b2, s2, r2) == (front2 + ("|" + s2)) + ("|" + r2);
    LastBar(front1 + ("|" + s1), r1, front2 + ("|" + s2), r2);
    LastBar(front1, s1, front2, s2);
    LastBar(c1, b1, c2, b2);
  }
}
