/** The exchanges of a QSO party, told from the words they hold, and the parser as a
    reader of exactly these. */
module PartyReading {
  import opened Text
  import opened PartyRules
  import opened PartyCredits
  import opened PartyValues

  // ---------- Lexicographic order is total ----------

  lemma {:induction false} LexTotal(a: string, b: string)
    ensures LexLeq(a, b) || LexLeq(b, a)
  {
    if a != "" && b != "" && a[0] == b[0] {
      LexTotal(a[1..], b[1..]);
      if a[1..] == b[1..] { assert a == [a[0]] + a[1..] && b == [b[0]] + b[1..]; }
    }
  }

  lemma {:induction false} LexTransitive(a: string, b: string, c: string)
    requires LexLeq(a, b) && LexLeq(b, c)
    ensures LexLeq(a, c)
  {
    if a != b && b != c && a != "" && a[0] == b[0] == c[0] {
      LexTransitive(a[1..], b[1..], c[1..]);
      if a[1..] == c[1..] { assert a == [a[0]] + a[1..] && c == [c[0]] + c[1..]; }
    }
  }

  ghost predicate InOrder(s: seq<string>) { forall i, j :: 0 <= i < j < |s| ==> LexLeq(s[i], s[j]) }

  lemma {:induction false} InsertInOrder(x: string, s: seq<string>)
    requires InOrder(s)
    ensures InOrder(Insert(x, s)) && forall y :: y in Insert(x, s) <==> y in s || y == x
  {
    hide LexLeq;
    if s != [] {
      if LexLeq(x, s[0]) {
        forall j | 0 <= j < |s| ensures LexLeq(x, s[j]) { if j > 0 { LexTransitive(x, s[0], s[j]); } }
      } else {
        InsertInOrder(x, s[1..]);
        LexTotal(x, s[0]);
        assert s == [s[0]] + s[1..];
        forall y | y in Insert(x, s[1..]) ensures LexLeq(s[0], y) {
          if y in s[1..] { var j :| 0 <= j < |s[1..]| && s[1..][j] == y; assert s[j + 1] == y; }
        }
      }
    }
  }

  lemma {:induction false} SortedInOrder(s: seq<string>)
    ensures InOrder(SortStrings(s))
  {
    if s != [] {
      SortedInOrder(s[1..]);
      InsertInOrder(s[0], SortStrings(s[1..]));
    }
  }

  // ---------- The words of an exchange ----------

  /** Serial and text as one line: one of them alone when the other is blank. */
  ghost predicate Line(serial: string, text: string, line: string) {
    && (TrimSpace(serial) == "" ==> line == TrimSpace(text))
    && (TrimSpace(text) == "" ==> line == TrimSpace(serial))
    && (TrimSpace(serial) != "" && TrimSpace(text) != "" ==> line == TrimSpace(serial) + " " + TrimSpace(text))
  }

  /** A serial number: digits, more than zero. */
  ghost predicate IsSerial(word: string) {
    word != "" && (forall i :: 0 <= i < |word| ==> '0' <= word[i] <= '9') && exists n :: Atoi(word) == Some(n) && n > 0
  }

  ghost predicate IsName(word: string) { word != "" && forall i :: 0 <= i < |word| ==> 'A' <= word[i] <= 'Z' }

  /** The words an exchange is made of, in capitals: serial, name or neither, and one location. */
  ghost predicate Holds(e: Event, serial: string, text: string, number: string, name: string, location: string) {
    && (forall c :: c in serial || c in text ==> ' ' <= c <= '~')
    && exists line, word :: Line(serial, text, line) && location == ReplaceChar(word, '+', '/')
         && match e.rules.exchange
            case LocationOnly => number == "" && name == "" && Fields(ToUpper(line)) == [word]
            case SerialLocation => IsSerial(number) && name == "" && Fields(ToUpper(line)) == [number, word]
            case NameLocation => number == "" && IsName(name) && Fields(ToUpper(line)) == [name, word]
  }

  lemma LineMeans(serial: string, text: string)
    ensures forall line :: Line(serial, text, line) <==> line == CabrilloExchange(serial, text)
  {
    hide TrimSpace;
  }

  lemma PrintableMeans(serial: string, text: string)
    ensures AllPrintable(serial + text) <==> forall c :: c in serial || c in text ==> ' ' <= c <= '~'
  {
    assert forall c :: c in serial || c in text <==> c in serial + text;
    if forall c :: c in serial || c in text ==> ' ' <= c <= '~' {
      forall i | 0 <= i < |serial + text| ensures Printable((serial + text)[i]) { assert (serial + text)[i] in serial + text; }
    }
  }

  lemma SerialMeans(word: string)
    ensures PositiveSerial(word) <==> IsSerial(word)
  {
    hide Atoi;
  }

  /** The words the parser splits an exchange into. */
  lemma WordsMean(e: Event, serial: string, text: string, number: string, name: string, location: string)
    ensures Words(e, serial, text) == Ok((number, name, location)) <==> Holds(e, serial, text, number, name, location)
  {
    hide Fields, ToUpper, CabrilloExchange, Line, PositiveSerial, IsSerial, AllPrintable, TrimSpace, Atoi;
    LineMeans(serial, text);
    PrintableMeans(serial, text);
    var line := CabrilloExchange(serial, text);
    var words := Fields(ToUpper(line));
    if |words| > 0 { SerialMeans(words[0]); }
    SerialMeans(number);
    if Words(e, serial, text) == Ok((number, name, location)) {
      var word := words[|words| - 1];
      assert words == if e.rules.exchange == LocationOnly then [word] else [words[0], word];
      assert Line(serial, text, line) && location == ReplaceChar(word, '+', '/');
    }
  }

  // ---------- The place an exchange names ----------

  /** One of the three maritime regions, sent with or without its R. */
  ghost predicate IsMaritime(e: Event, location: string, region: string) {
    MaritimeMult in e.rules.homeMultipliers && region in {"1", "2", "3"} && (location == region || location == "R" + region)
  }

  /** Counties of the event, none twice, in capitals and without blanks. */
  ghost predicate AllCounties(e: Event, parts: seq<string>) {
    && (forall i :: 0 <= i < |parts| ==> ToUpper(TrimSpace(parts[i])) in e.counties)
    && (forall i, j :: 0 <= i < j < |parts| ==> ToUpper(TrimSpace(parts[i])) != ToUpper(TrimSpace(parts[j])))
  }

  ghost predicate OfCapitals(s: string) { forall i :: 0 <= i < |s| ==> 'A' <= s[i] <= 'Z' || '0' <= s[i] <= '9' }

  /** A place outside: a postal area other than the home state, DX or an alias; or a country prefix where countries count. */
  ghost predicate IsOutside(w: World, e: Event, location: string, area: string) {
    var prefix := if "DX:" <= location then location[3..] else location;
    && prefix != "" && OfCapitals(prefix)
    && if prefix == location && location != e.rules.state && (PostalArea(location) || location == "DX" || location in e.rules.aliases) then
         area == if location in e.rules.aliases then e.rules.aliases[location] else location
       else
         DxccMult in e.rules.homeMultipliers && w.isPrefix(prefix) && exists country :: Abroad(w, prefix, country) && area == "DX:" + country
  }

  /** The place a location names: a maritime region, a county line within its limit, or a place outside. */
  ghost predicate IsPlace(w: World, e: Event, location: string, area: string, counties: seq<string>) {
    if exists region :: IsMaritime(e, location, region) then
      counties == [] && exists region :: IsMaritime(e, location, region) && area == "R" + region
    else if AllCounties(e, Split(location, '/')) then
      && |Split(location, '/')| <= e.rules.countyLineMax && area == "" && InOrder(counties)
      && |counties| == |Split(location, '/')|
      && (forall county :: county in counties <==> exists part :: part in Split(location, '/') && county == ToUpper(TrimSpace(part)))
    else
      |Split(location, '/')| == 1 && counties == [] && IsOutside(w, e, location, area)
  }

  lemma MaritimeMeans(e: Event, location: string, region: string)
    ensures IsMaritime(e, location, region) <==> Awards(e, MaritimeMult) && IsRegion(location) && region == Region(location)
  {
    if location != "" && location[0] == 'R' { assert location == "R" + location[1..]; }
  }

  lemma NoBlankCounty(e: Event)
    requires ValidEvent(e)
    ensures "" !in e.counties
  {
    assert forall i :: 0 <= i < |e.counties| ==> IsCode(e.counties[i]) && e.counties[i] != "";
  }

  lemma CountiesMean(e: Event, parts: seq<string>)
    requires ValidEvent(e)
    ensures IsCountyLine(e, parts) <==> AllCounties(e, parts)
    ensures AllCounties(e, parts) ==> forall i :: 0 <= i < |parts| ==> Codes(e, parts)[i] == ToUpper(TrimSpace(parts[i]))
  {
    hide ToUpper, TrimSpace;
    NoBlankCounty(e);
    forall i | 0 <= i < |parts| ensures Codes(e, parts)[i] == CountyCode(e, parts[i]) { }
    if IsCountyLine(e, parts) {
      forall i | 0 <= i < |parts| ensures ToUpper(TrimSpace(parts[i])) in e.counties { assert Codes(e, parts)[i] != ""; }
    }
  }

  lemma CodesHeld(e: Event, parts: seq<string>, county: string)
    requires ValidEvent(e) && AllCounties(e, parts)
    ensures county in SortStrings(Codes(e, parts)) <==> exists part :: part in parts && county == ToUpper(TrimSpace(part))
  {
    hide ToUpper, TrimSpace, SortStrings;
    CountiesMean(e, parts);
    var codes := Codes(e, parts);
    assert county in SortStrings(codes) <==> county in multiset(SortStrings(codes));
    assert county in codes <==> county in multiset(codes);
    if county in codes {
      var i :| 0 <= i < |codes| && codes[i] == county;
      assert parts[i] in parts;
    }
    if part :| part in parts && county == ToUpper(TrimSpace(part)) {
      var i :| 0 <= i < |parts| && parts[i] == part;
      assert codes[i] == county;
    }
  }

  lemma OutsideMeans(w: World, e: Event, location: string, area: string)
    ensures ParseOutside(w, e, location) == Ok(Place(area, location, [])) <==> IsOutside(w, e, location, area)
  {
    hide PostalArea, Norm, IsCode;
    var prefix := PrefixOf(location);
    CodeMeans(prefix);
    EntityMeans(w, prefix);
    if DxEntity(w, prefix).Some? { assert Abroad(w, prefix, DxEntity(w, prefix).value); }
    hide DxEntity, Abroad, OfCapitals;
  }

  lemma PrefixOf(location: string) returns (prefix: string)
    ensures prefix == TrimPrefix(location, "DX:") && prefix == if "DX:" <= location then location[3..] else location
  {
    assert |"DX:"| == 3;
    prefix := TrimPrefix(location, "DX:");
  }

  lemma CodeMeans(s: string)
    ensures IsCode(s) <==> s != "" && OfCapitals(s)
  {
  }

  /** The parser reads a location as the place it names, and as nothing else. */
  lemma PlaceMeans(w: World, e: Event, location: string, area: string, counties: seq<string>)
    requires ValidEvent(e)
    ensures ParseLocation(w, e, location) == Ok(Place(area, location, counties)) ==> IsPlace(w, e, location, area, counties)
    ensures IsPlace(w, e, location, area, counties) ==>
              ParseLocation(w, e, location).Ok? && ParseLocation(w, e, location).value.area == area
              && |ParseLocation(w, e, location).value.counties| == |counties|
  {
    hide Split, ToUpper, TrimSpace, ParseOutside, IsOutside, AllCounties, IsCountyLine,
      IsMaritime, Awards, IsRegion, Region, ValidEvent, SortStrings, InOrder;
    forall region ensures IsMaritime(e, location, region) <==> Awards(e, MaritimeMult) && IsRegion(location) && region == Region(location) {
      MaritimeMeans(e, location, region);
    }
    assert Awards(e, MaritimeMult) && IsRegion(location) ==> IsMaritime(e, location, Region(location));
    var parts := Split(location, '/');
    CountiesMean(e, parts);
    OutsideMeans(w, e, location, area);
    OutsideHasNone(e, w, location);
    SortedInOrder(Codes(e, parts));
    SameSize(Codes(e, parts));
    if AllCounties(e, parts) {
      forall county ensures county in SortStrings(Codes(e, parts)) <==> exists part :: part in parts && county == ToUpper(TrimSpace(part)) {
        CodesHeld(e, parts, county);
      }
    }
  }

  lemma SameSize(s: seq<string>)
    ensures |SortStrings(s)| == |s|
  {
    assert |multiset(SortStrings(s))| == |SortStrings(s)| && |multiset(s)| == |s|;
  }

  // ---------- The whole exchange ----------

  /** The exchange holds these words, and the location names this place. */
  ghost predicate ReadsAs(w: World, e: Event, serial: string, text: string, x: PartyExchange) {
    Holds(e, serial, text, x.serial, x.name, x.location) && IsPlace(w, e, x.location, x.area, x.counties)
  }

  /** The parser accepts exactly the exchanges that read as something, and gives what they read as, its counties in order. */
  lemma ExchangeMeans(w: World, e: Event, serial: string, text: string)
    requires ValidEvent(e)
    ensures forall x :: Exchange(w, e, serial, text) == Ok(x) ==> ReadsAs(w, e, serial, text, x)
    ensures forall x :: ReadsAs(w, e, serial, text, x) ==>
              Exchange(w, e, serial, text).Ok? && x == Exchange(w, e, serial, text).value.(counties := x.counties)
  {
    hide Words, Holds, ParseLocation, IsPlace, ValidEvent;
    forall x ensures Exchange(w, e, serial, text) == Ok(x) ==> ReadsAs(w, e, serial, text, x) {
      if Exchange(w, e, serial, text) == Ok(x) {
        WordsMean(e, serial, text, x.serial, x.name, x.location);
        PlaceLocation(w, e, Words(e, serial, text).value.2);
        PlaceMeans(w, e, x.location, x.area, x.counties);
      }
    }
    forall x | ReadsAs(w, e, serial, text, x)
      ensures Exchange(w, e, serial, text).Ok? && x == Exchange(w, e, serial, text).value.(counties := x.counties)
    {
      WordsMean(e, serial, text, x.serial, x.name, x.location);
      PlaceMeans(w, e, x.location, x.area, x.counties);
      PlaceLocation(w, e, x.location);
    }
  }
}
