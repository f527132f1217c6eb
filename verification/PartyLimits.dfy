/** Which settings the party theorems need, and inputs that show it: contacts that share a
    credit key and score differently, and county lines whose credits are lost. */
module PartyLimits {
  import opened Text
  import opened PartyRules
  import opened PartyCredits
  import opened PartyTally
  import opened PartyScore
  import opened PartyTheorems
  import opened PartyLive

  // ---------- Contacts with chosen locations ----------

  /** A serial or name the event's exchange accepts. */
  function Head(e: Event): PartyExchange {
    match e.rules.exchange
    case LocationOnly => NO_EXCHANGE
    case SerialLocation => NO_EXCHANGE.(serial := "1")
    case NameLocation => NO_EXCHANGE.(name := "A")
  }

  function Placed(e: Event, p: Place): PartyExchange {
    Head(e).(area := p.area, location := p.location, counties := p.counties)
  }

  function Contact(e: Event, call: string, band: string, station: string, time: int, sent: string, received: string): Qso {
    var h := Head(e);
    Qso(1, call, band, "CW", h.serial, Prefixed(h.name, sent), h.serial, Prefixed(h.name, received), station, false, time,
        "599", "599")
  }

  lemma HeadParses(w: World, e: Event, location: string)
    requires IsField(location) && !Contains(location, '+') && ParseLocation(w, e, location).Ok?
    ensures Exchange(w, e, Head(e).serial, Prefixed(Head(e).name, location)) == Ok(Placed(e, ParseLocation(w, e, location).value))
  {
    hide Words, ParseLocation, IsField, HeadFits, Contains;
    HeadIsFit(e);
    WordsOfParts(e, Head(e), location);
    PlaceLocation(w, e, location);
  }

  lemma HeadIsFit(e: Event)
    ensures HeadFits(e, Head(e))
  {
    assert NatValue("1") == 1 by { assert "1"[..0] == ""; }
    hide NatValue;
  }

  /** A place at most one county names, under its own text. */
  ghost predicate Lone(w: World, e: Event, location: string) {
    && IsField(location) && !Contains(location, '+') && ParseLocation(w, e, location).Ok?
    && (ParseLocation(w, e, location).value.counties == [] || ParseLocation(w, e, location).value.counties == [location])
  }

  lemma ContactIsItsCredit(w: World, e: Event, q: Qso, sent: string, received: string)
    requires q == Contact(e, q.call, q.band, q.station, q.time, sent, received) && Creditable(e, q)
    requires Lone(w, e, sent) && Lone(w, e, received)
    requires ParseLocation(w, e, received).value.counties != [] || ParseLocation(w, e, sent).value.counties != []
    ensures Credits(w, e, q) == Ok([q])
    ensures Sent(w, e, q) == Placed(e, ParseLocation(w, e, sent).value)
    ensures Received(w, e, q) == Placed(e, ParseLocation(w, e, received).value)
  {
    HeadParses(w, e, sent);
    HeadParses(w, e, received);
    PlaceLocation(w, e, sent);
    PlaceLocation(w, e, received);
    hide Exchange, ParseLocation, IsField, Creditable;
    var s, r := Sent(w, e, q), Received(w, e, q);
    assert LocationsOf(s) == [sent] && LocationsOf(r) == [received];
    assert [sent][..0] == [];
    assert CreditOf(q, s, r, sent, received) == q;
    assert Product(q, s, r, [sent], [received]) == [q];
  }

  /** A log of one contact that is its own credit. */
  ghost predicate OneEntry(w: World, e: Event, q: Qso) {
    Credits(w, e, q) == Ok([q]) && Counted(e, q) && !IsSpecial(e, q)
  }

  lemma OneContactTally(w: World, e: Event, q: Qso)
    requires OneEntry(w, e, q)
    ensures LogKeys(w, e, [q]) == {CreditKey(w, e, q)}
    ensures LogTally(w, e, [q]) == AddFact(e.rules.points, EMPTY_TALLY, FactOf(w, e, q))
  {
    hide Credits, Counted, FactOf, AddFact, CreditKey;
    LogOfOne(w, e, q);
    FactText(w, e, q);
    var f := FactOf(w, e, q);
    assert Facts(w, e, [q]) == [f];
    assert [f][..0] == [];
    assert TallyFrom(e.rules.points, EMPTY_TALLY, []) == EMPTY_TALLY;
    assert TallyOf(e.rules.points, [f]) == AddFact(e.rules.points, EMPTY_TALLY, f);
  }

  /** The score of a log of one contact, for an entry without mobile counties. */
  lemma OneContactScore(w: World, e: Event, q: Qso, entry: Entry)
    requires OneEntry(w, e, q) && e.rules.points >= 1
    ensures !IsMobile(entry) ==> ScoreOf(w, e, [q], entry).multipliers == Capped(e, |set k | k in MultiplierKeys(w, e, q)|)
    ensures ScoreOf(w, e, [q], entry).bonusPoints
         == (if EqualFold(q.call, e.rules.bonusCall) then e.rules.bonusPoints else 0)
            + if IsMobile(entry) then |Reached(e, CountAll(map[], Sent(w, e, q).counties))| * e.rules.mobileBonus else 0
  {
    hide Credits, Counted, FactOf, CreditKey, MultiplierKeys, Sent, Reached, CountAll, Capped, Finish, LogTally,
      EqualFold;
    OneContactTally(w, e, q);
    FactText(w, e, q);
    FinishParts(e, LogTally(w, e, [q]), entry);
  }

  lemma FinishParts(e: Event, t: Tally, entry: Entry)
    requires e.rules.points >= 1 && !t.allSpecial && |t.bonus| <= 1
    ensures !IsMobile(entry) ==> Finish(e, t, entry).multipliers == Capped(e, |t.mults|)
    ensures Finish(e, t, entry).bonusPoints
         == (if t.bonus == {} then 0 else e.rules.bonusPoints) + if IsMobile(entry) then |Reached(e, t.contacts)| * e.rules.mobileBonus else 0
  {
    hide Reached, Operated, OperatedKeys, Capped, PowerFactor;
    assert t.bonus != {} ==> |t.bonus| == 1;
  }

  /** A word with no slash that is no county is read as an outside location. */
  lemma OutsideWord(w: World, e: Event, location: string)
    requires IsField(location) && !Contains(location, '/') && location !in e.counties
    requires !ReadsAsRegion(e, location)
    requires "" !in e.counties
    ensures ParseLocation(w, e, location) == ParseOutside(w, e, location)
  {
    hide ParseOutside;
    SplitSingle(location, '/');
    assert CountyCode(e, location) == "" by {
      ToUpperFixed(location);
      assert Trimmed(location);
      hide TrimSpace;
    }
    assert Codes(e, [location])[0] == "";
  }

  lemma LettersWord(s: string)
    requires |s| >= 2 && IsLetters(s)
    ensures !IsRegion(s) && TrimPrefix(s, "DX:") == s && IsField(s)
    ensures !Contains(s, '/') && !Contains(s, '+')
  {
    var last := s[|s| - 1];
    assert IsUpper(last) && Region(s)[|Region(s)| - 1] == last;
    if |s| > 2 { assert IsUpper(s[2]) && s[2] != ':'; }
    assert forall i :: 0 <= i < |s| ==> IsUpper(s[i]) && !IsSpace(s[i]) && !IsLower(s[i]) && Printable(s[i]);
  }

  lemma PlainDxParses(w: World, e: Event)
    requires ValidEvent(e) && DxReads(e)
    ensures Lone(w, e, "DX") && ParseLocation(w, e, "DX") == Ok(Place("DX", "DX", []))
  {
    hide ParseLocation, DxEntity, PostalArea;
    LettersWord("DX");
    OutsideWord(w, e, "DX");
  }

  lemma PrefixParses(w: World, e: Event, prefix: string)
    requires ValidEvent(e) && Awards(e, DxccMult)
    requires IsCode(prefix) && w.isPrefix(prefix) && DxEntity(w, prefix).Some?
    ensures var place := "DX:" + prefix;
      Lone(w, e, place) && ParseLocation(w, e, place) == Ok(Place("DX:" + DxEntity(w, prefix).value, place, []))
  {
    hide ParseLocation, DxEntity, PostalArea;
    var place := "DX:" + prefix;
    assert place[2] == ':' && !IsRegion(place) && TrimPrefix(place, "DX:") == prefix;
    assert IsField(place) && !Contains(place, '/') && !Contains(place, '+');
    OutsideWord(w, e, place);
  }

  lemma AliasParses(w: World, e: Event, alias: string)
    requires ValidEvent(e) && AliasReads(e, alias)
    ensures Lone(w, e, alias) && ParseLocation(w, e, alias) == Ok(Place(e.rules.aliases[alias], alias, []))
  {
    hide ParseLocation, DxEntity, PostalArea;
    LettersWord(alias);
    OutsideWord(w, e, alias);
  }

  lemma CountyParses(w: World, e: Event, county: string)
    requires ValidEvent(e) && ReadsAsCounty(e, county)
    ensures Lone(w, e, county) && ParseLocation(w, e, county) == Ok(Place("", county, [county]))
  {
    CodeText(county);
    CountyLocation(w, e, county);
  }

  // ---------- dx and dxcc together ----------

  /** What a station outside the counties earns its worker, when it sends "DX" or its country's prefix. */
  lemma {:induction false} HomeOfDx(w: World, e: Event, kinds: seq<HomeKind>, x: PartyExchange, call: string, country: string)
    requires ValidEvent(e) && DxReads(e) && x.counties == [] && DxEntity(w, call) == Some(country)
    requires x.area == "DX" || x.area == "DX:" + country
    ensures (set k | k in HomeKeys(w, e, kinds, x, call))
         == (if DxccMult in kinds then {"DX:" + country} else {}) + if DxMult in kinds && x.area == "DX" then {"DX"} else {}
  {
    hide KindKeys, ValidEvent, DxReads, DxEntity;
    if kinds != [] {
      HomeOfDx(w, e, kinds[1..], x, call, country);
      KindOfDx(w, e, kinds[0], x, call, country);
      HomeSetStep(w, e, kinds, x, call);
      assert kinds == [kinds[0]] + kinds[1..];
    }
  }

  lemma HomeSetStep(w: World, e: Event, kinds: seq<HomeKind>, x: PartyExchange, call: string)
    requires kinds != []
    ensures (set k | k in HomeKeys(w, e, kinds, x, call))
         == (set k | k in KindKeys(w, e, kinds[0], x, call)) + set k | k in HomeKeys(w, e, kinds[1..], x, call)
  {
    hide KindKeys;
  }

  lemma KindOfDx(w: World, e: Event, kind: HomeKind, x: PartyExchange, call: string, country: string)
    requires ValidEvent(e) && DxReads(e) && x.counties == [] && DxEntity(w, call) == Some(country)
    requires x.area == "DX" || x.area == "DX:" + country
    ensures KindKeys(w, e, kind, x, call)
         == if kind == DxccMult then ["DX:" + country] else if kind == DxMult && x.area == "DX" then ["DX"] else []
  {
    hide DxEntity;
    assert CountyKeys(x.counties) == [];
    var named := "DX:" + country;
    assert |named| >= 3 && named[2] == ':' && HasPrefix(named, "DX:");
    assert named !in e.rules.aliases && !PostalArea(named) && !PostalArea("DX");
    hide PostalArea;
  }

  function BandKey(e: Event, k: string, band: string): string { if e.rules.perBand then k + "|" + ToUpper(band) else k }

  function BandSet(e: Event, keys: set<string>, band: string): set<string> { set k | k in keys :: BandKey(e, k, band) }

  lemma OnBandSet(e: Event, keys: seq<string>, band: string)
    ensures (set k | k in OnBand(e, keys, band)) == BandSet(e, (set k | k in keys), band)
  {
    hide ToUpper;
    var banded := OnBand(e, keys, band);
    forall k | k in keys ensures BandKey(e, k, band) in banded {
      var i :| 0 <= i < |keys| && keys[i] == k;
      assert banded[i] == BandKey(e, k, band);
    }
    forall k | k in banded ensures exists j :: j in keys && k == BandKey(e, j, band) {
      var i :| 0 <= i < |banded| && banded[i] == k;
      assert k == BandKey(e, keys[i], band);
    }
  }

  lemma BandSizes(e: Event, country: string, band: string)
    ensures |BandSet(e, {"DX:" + country}, band)| == 1
    ensures |BandSet(e, {"DX:" + country, "DX"}, band)| == 2
  {
    hide ToUpper;
    var a, b := "DX:" + country, "DX";
    var x, y := BandKey(e, a, band), BandKey(e, b, band);
    assert x[2] == a[2] == ':' && (|y| == 2 || y[2] == '|');
    assert BandSet(e, {a}, band) == {x};
    assert BandSet(e, {a, b}, band) == {x, y};
  }

  /** Two contacts that differ in the received location only: "DX", and the prefix of the same country. */
  ghost predicate DxTwins(w: World, e: Event, prefix: string, county: string, c: Qso, d: Qso) {
    && ValidEvent(e) && ReadsAsCounty(e, county) && Creditable(e, c)
    && IsCode(prefix) && w.isPrefix(prefix) && DxEntity(w, prefix).Some? && DxEntity(w, c.call) == DxEntity(w, prefix)
    && c == Contact(e, c.call, c.band, c.station, c.time, county, "DX")
    && d == Contact(e, c.call, c.band, c.station, c.time, county, "DX:" + prefix)
  }

  lemma DxTwinsRead(w: World, e: Event, prefix: string, county: string, c: Qso, d: Qso)
    requires DxTwins(w, e, prefix, county, c, d) && Awards(e, DxMult) && Awards(e, DxccMult) && DxReads(e)
    ensures Credits(w, e, c) == Ok([c]) && Credits(w, e, d) == Ok([d])
    ensures Sent(w, e, c) == Sent(w, e, d) == Placed(e, Place("", county, [county]))
    ensures Received(w, e, c) == Placed(e, Place("DX", "DX", []))
    ensures Received(w, e, d) == Placed(e, Place("DX:" + DxEntity(w, prefix).value, "DX:" + prefix, []))
  {
    hide ParseLocation, DxEntity, Credits, Exchange, Lone, ToUpper;
    CountyParses(w, e, county);
    PlainDxParses(w, e);
    PrefixParses(w, e, prefix);
    ContactIsItsCredit(w, e, c, county, "DX");
    ContactIsItsCredit(w, e, d, county, "DX:" + prefix);
  }

  /** Where dx and dxcc multipliers are both listed, "DX" from a station and its country's
      prefix give one credit key, but the first earns two multipliers and the second one. */
  lemma DxAndDxccConfuse(w: World, e: Event, prefix: string, county: string, c: Qso, d: Qso)
    requires DxTwins(w, e, prefix, county, c, d) && Awards(e, DxMult) && Awards(e, DxccMult) && DxReads(e)
    ensures Credits(w, e, c) == Ok([c]) && Credits(w, e, d) == Ok([d])
    ensures CreditKey(w, e, c) == CreditKey(w, e, d)
    ensures |set k | k in MultiplierKeys(w, e, c)| == 2 && |set k | k in MultiplierKeys(w, e, d)| == 1
  {
    hide Credits, DxEntity, MultiplierKeys, CreditKey, Creditable, ReadsAsCounty, Exchange, ValidEvent, IsCode;
    DxTwinsRead(w, e, prefix, county, c, d);
    var country := DxEntity(w, prefix).value;
    assert c.call == d.call && c.band == d.band && c.station == d.station;
    DxKeysSame(w, e, c, d, country);
    DxMultCount(w, e, c, country);
    DxMultCount(w, e, d, country);
    assert "DX:" + country != "DX" by { assert |"DX:" + country| >= 3; }
  }

  lemma DxKeysSame(w: World, e: Event, c: Qso, d: Qso, country: string)
    requires ValidEvent(e) && c.call == d.call && c.band == d.band && c.station == d.station && Sent(w, e, c) == Sent(w, e, d)
    requires Received(w, e, c).area == "DX" && Received(w, e, d).area == "DX:" + country
    requires Received(w, e, c).counties == Received(w, e, d).counties == [] && DxEntity(w, c.call) == Some(country)
    ensures CreditKey(w, e, c) == CreditKey(w, e, d)
  {
    hide Exchange, DxEntity, Norm;
    var named := "DX:" + country;
    assert named[2] == ':' && named != "DX" && named !in e.rules.aliases;
  }

  lemma DxMults(w: World, e: Event, c: Qso, country: string)
    requires ValidEvent(e) && DxReads(e) && Awards(e, DxccMult) && Awards(e, DxMult)
    requires Credits(w, e, c) == Ok([c]) && Sent(w, e, c).counties != []
    requires Received(w, e, c).area == "DX" || Received(w, e, c).area == "DX:" + country
    requires Received(w, e, c).counties == [] && DxEntity(w, c.call) == Some(country)
    ensures (set k | k in MultiplierKeys(w, e, c))
         == BandSet(e, {"DX:" + country} + (if Received(w, e, c).area == "DX" then {"DX"} else {}), c.band)
  {
    hide Exchange, DxEntity, HomeKeys, OnBand, BandSet;
    HomeOfDx(w, e, e.rules.homeMultipliers, Received(w, e, c), c.call, country);
    OnBandSet(e, HomeKeys(w, e, e.rules.homeMultipliers, Received(w, e, c), c.call), c.band);
  }

  lemma DxMultCount(w: World, e: Event, c: Qso, country: string)
    requires ValidEvent(e) && DxReads(e) && Awards(e, DxccMult) && Awards(e, DxMult)
    requires Credits(w, e, c) == Ok([c]) && Sent(w, e, c).counties != []
    requires Received(w, e, c).area == "DX" || Received(w, e, c).area == "DX:" + country
    requires Received(w, e, c).counties == [] && DxEntity(w, c.call) == Some(country)
    ensures |set k | k in MultiplierKeys(w, e, c)| == if Received(w, e, c).area == "DX" then 2 else 1
  {
    hide Credits, DxEntity, MultiplierKeys, BandSet, ValidEvent, Exchange;
    DxMults(w, e, c, country);
    BandSizes(e, country, c.band);
    var named := "DX:" + country;
    var earned := {named} + if Received(w, e, c).area == "DX" then {"DX"} else {};
    assert earned == if Received(w, e, c).area == "DX" then {named, "DX"} else {named};
    assert (set k | k in MultiplierKeys(w, e, c)) == BandSet(e, earned, c.band);
  }

  /** The logs of one such contact each have the same keys but different multiplier counts, unless one is all the cap allows. */
  lemma DxAndDxccScores(w: World, e: Event, prefix: string, county: string, c: Qso, d: Qso, entry: Entry)
    requires DxTwins(w, e, prefix, county, c, d) && Awards(e, DxMult) && Awards(e, DxccMult) && DxReads(e)
    requires Counted(e, c) && !IsSpecial(e, c) && !IsMobile(entry)
    ensures LogKeys(w, e, [c]) == LogKeys(w, e, [d])
    ensures ScoreOf(w, e, [c], entry) == ScoreOf(w, e, [d], entry) <==> e.rules.multiplierCap == 1
  {
    hide Credits, CreditKey, MultiplierKeys, DxEntity, Creditable, IsMobile, ReadsAsCounty, Exchange, PowerFactor,
      InPeriod, LogTally, AddFact, FactOf, Reached, CountAll, Operated, OperatedKeys, EqualFold, LogKeys;
    DxAndDxccConfuse(w, e, prefix, county, c, d);
    DxTwinsRead(w, e, prefix, county, c, d);
    assert OneEntry(w, e, c) && OneEntry(w, e, d) && c.call == d.call;
    SameKeyLogs(w, e, c, d);
    OneContactScore(w, e, c, entry);
    OneContactScore(w, e, d, entry);
    SameRest(w, e, c, d, entry);
  }

  lemma SameRest(w: World, e: Event, c: Qso, d: Qso, entry: Entry)
    requires OneEntry(w, e, c) && OneEntry(w, e, d) && e.rules.points >= 1
    ensures ScoreOf(w, e, [c], entry).qsoPoints == ScoreOf(w, e, [d], entry).qsoPoints
    ensures ScoreOf(w, e, [c], entry).powerFactor == ScoreOf(w, e, [d], entry).powerFactor
  {
    hide Credits, CreditKey, FactOf, PowerFactor, Counted, FinalMults, Bonus, Capped;
    OneContactTally(w, e, c);
    OneContactTally(w, e, d);
    FactText(w, e, c);
    FactText(w, e, d);
  }

  // ---------- An alias for a county ----------

  /** Two contacts that differ in the sent location only: a county, and an alias that stands for it. */
  ghost predicate AliasTwins(w: World, e: Event, alias: string, county: string, c: Qso, d: Qso) {
    && ValidEvent(e) && AliasReads(e, alias) && e.rules.aliases[alias] == county && county in e.counties && Creditable(e, c)
    && c == Contact(e, c.call, c.band, c.station, c.time, county, county)
    && d == Contact(e, c.call, c.band, c.station, c.time, alias, county)
  }

  /** Where an alias stands for a county's own code, both give one credit key, but only the
      county counts as a place the station operated from. */
  lemma AliasTargetConfuses(w: World, e: Event, alias: string, county: string, c: Qso, d: Qso)
    requires AliasTwins(w, e, alias, county, c, d)
    ensures Credits(w, e, c) == Ok([c]) && Credits(w, e, d) == Ok([d])
    ensures CreditKey(w, e, c) == CreditKey(w, e, d)
    ensures Sent(w, e, c).counties == [county] && Sent(w, e, d).counties == []
  {
    hide ParseLocation, DxEntity, Credits, Exchange, Lone, ToUpper, Norm, PostalArea;
    TargetIsCounty(e, alias);
    CountyParses(w, e, county);
    AliasParses(w, e, alias);
    ContactIsItsCredit(w, e, c, county, county);
    ContactIsItsCredit(w, e, d, alias, county);
    assert county !in e.rules.aliases;
  }

  lemma TargetIsCounty(e: Event, alias: string)
    requires ValidEvent(e) && AliasReads(e, alias) && e.rules.aliases[alias] in e.counties
    ensures ReadsAsCounty(e, e.rules.aliases[alias]) && e.rules.aliases[alias] != "DX"
  {
    PostalLetters(e.rules.aliases[alias]);
    LettersWord(e.rules.aliases[alias]);
  }

  /** A mobile whose county bonus needs one contact gets it from the first contact only. */
  lemma AliasTargetScores(w: World, e: Event, alias: string, county: string, c: Qso, d: Qso, entry: Entry)
    requires AliasTwins(w, e, alias, county, c, d)
    requires Counted(e, c) && !IsSpecial(e, c) && IsMobile(entry) && e.rules.mobileMinimum == 1
    ensures LogKeys(w, e, [c]) == LogKeys(w, e, [d])
    ensures ScoreOf(w, e, [c], entry).bonusPoints == ScoreOf(w, e, [d], entry).bonusPoints + e.rules.mobileBonus
  {
    hide *;
    AliasTargetConfuses(w, e, alias, county, c, d);
    AliasEntries(w, e, alias, county, c, d);
    SameKeyLogs(w, e, c, d);
    OneContactScore(w, e, c, entry);
    OneContactScore(w, e, d, entry);
    ReachedOne(e, county);
    assert |{county}| == 1;
  }

  lemma AliasEntries(w: World, e: Event, alias: string, county: string, c: Qso, d: Qso)
    requires AliasTwins(w, e, alias, county, c, d) && Counted(e, c) && !IsSpecial(e, c)
    requires Credits(w, e, c) == Ok([c]) && Credits(w, e, d) == Ok([d])
    ensures OneEntry(w, e, c) && OneEntry(w, e, d) && c.call == d.call && e.rules.points >= 1
  {
    hide Credits, InPeriod, Creditable, AliasReads;
  }

  lemma SameKeyLogs(w: World, e: Event, c: Qso, d: Qso)
    requires OneEntry(w, e, c) && OneEntry(w, e, d) && CreditKey(w, e, c) == CreditKey(w, e, d)
    ensures LogKeys(w, e, [c]) == LogKeys(w, e, [d])
  {
    hide OneEntry, CreditKey, LogKeys, AddFact, FactOf, LogTally;
    OneContactTally(w, e, c);
    OneContactTally(w, e, d);
  }

  lemma ReachedOne(e: Event, county: string)
    requires e.rules.mobileMinimum == 1
    ensures Reached(e, CountAll(map[], [county])) == {county} && Reached(e, CountAll(map[], [])) == {}
  {
    assert [county][1..] == [];
    assert CountAll(map[], [county]) == map[county := 1];
  }

  // ---------- Blanks around a call ----------

  /** A blank before the bonus call leaves the key alone but loses the bonus. */
  lemma BlankCallConfuses(w: World, e: Event, county: string, c: Qso, d: Qso, entry: Entry)
    requires ValidEvent(e) && ReadsAsCounty(e, county) && Creditable(e, c)
    requires EqualFold(c.call, e.rules.bonusCall)
    requires c == Contact(e, c.call, c.band, c.station, c.time, county, county) && d == c.(call := " " + c.call)
    requires Counted(e, c) && !IsSpecial(e, c)
    ensures LogKeys(w, e, [c]) == LogKeys(w, e, [d])
    ensures ScoreOf(w, e, [c], entry).bonusPoints == ScoreOf(w, e, [d], entry).bonusPoints + e.rules.bonusPoints
  {
    hide Credits, ParseLocation, MultiplierKeys, DxEntity, Creditable, ReadsAsCounty, Exchange, PowerFactor,
      InPeriod, LogTally, AddFact, FactOf, Reached, CountAll, Operated, OperatedKeys, LogKeys, ToUpper, Lone,
      CreditKey;
    CountyParses(w, e, county);
    ContactIsItsCredit(w, e, c, county, county);
    SameBand(e, c, d);
    ContactIsItsCredit(w, e, d, county, county);
    assert OneEntry(w, e, c) && OneEntry(w, e, d);
    BlankKey(w, e, c, d);
    SameKeyLogs(w, e, c, d);
    OneContactScore(w, e, c, entry);
    OneContactScore(w, e, d, entry);
    assert |ToUpper(d.call)| != |ToUpper(e.rules.bonusCall)|;
  }

  lemma SameBand(e: Event, c: Qso, d: Qso)
    requires c.band == d.band && c.mode == d.mode && Creditable(e, c)
    ensures Creditable(e, d)
  {
  }

  lemma BlankKey(w: World, e: Event, c: Qso, d: Qso)
    requires d == c.(call := " " + c.call) && Sent(w, e, c).counties != [] && Received(w, e, c).counties != []
    ensures CreditKey(w, e, c) == CreditKey(w, e, d)
  {
    hide Exchange, ToUpper;
    assert (" " + c.call)[1..] == c.call;
    assert TrimLeft(" " + c.call) == TrimLeft(c.call);
    assert Sent(w, e, d) == Sent(w, e, c) && Received(w, e, d) == Received(w, e, c);
  }

  /** A prior contact under a padded call earned the candidate's key, but the live check passes over it. */
  lemma PaddedPriorMissed(w: World, e: Event, county: string, c: Qso, d: Qso)
    requires ValidEvent(e) && ReadsAsCounty(e, county) && Creditable(e, c) && Counted(e, c)
    requires c == Contact(e, c.call, c.band, c.station, c.time, county, county) && d == c.(call := " " + c.call)
    ensures View(e, [d], 0, None) == [d]
    ensures !IsDupe(w, e, c, [d], 0, None) && ContactCredits(w, e, c) != []
    ensures LogTally(w, e, [d] + [c]).points == LogTally(w, e, [d]).points
  {
    hide Credits, ParseLocation, DxEntity, Creditable, ReadsAsCounty, Exchange, InPeriod, LogTally, LogCredits, ToUpper, Lone, CreditKey;
    CountyParses(w, e, county);
    ContactIsItsCredit(w, e, c, county, county);
    SameBand(e, c, d);
    ContactIsItsCredit(w, e, d, county, county);
    BlankKey(w, e, c, d);
    assert |ToUpper(d.call)| != |ToUpper(c.call)|;
    OneView(e, d);
    assert PriorKeys(w, e, c, [d], 0, None) == {};
    LogOfOne(w, e, d);
    ContactValue(w, e, d);
    LogWithContact(w, e, [d], c);
    PointsOfLog(w, e, [d]);
    PointsOfLog(w, e, [d] + [c]);
    assert KeysOfCredits(w, e, [d] + [c]) == KeysOfCredits(w, e, [d]);
  }

  lemma OneView(e: Event, d: Qso)
    requires Considered(e, d, 0, None)
    ensures View(e, [d], 0, None) == [d]
  {
    hide InPeriod;
    assert [d][..0] == [];
    assert View(e, [], 0, None) == [];
  }

  /** In every country data, logs of one station with the same keys have the same score, however their calls are written. */
  ghost predicate KeysDecideScores(e: Event)
    requires e.rules.points >= 1
  {
    forall w, a, b, special, entry ::
      PlainNames(w) && OneStation(e, a, special) && OneStation(e, b, special) && LogKeys(w, e, a) == LogKeys(w, e, b)
      ==> ScoreOf(w, e, a, entry) == ScoreOf(w, e, b, entry)
  }

  /** For unambiguous settings with a band, a period, a county that can be sent alone and a station that is not
      QSO-only, blanks around calls are harmless exactly when the event has no bonus points. */
  lemma PaddedExactly(e: Event, band: string, county: string, station: string, time: int)
    requires ValidEvent(e) && Unambiguous(e) && ToUpper(band) in e.bands && ReadsAsCounty(e, county)
    requires InPeriod(e, time) && ToUpper(station) !in e.rules.qsoOnlyCalls
    ensures KeysDecideScores(e) <==> e.rules.bonusPoints == 0
  {
    if e.rules.bonusPoints == 0 {
      NoBonusDecides(e);
    } else {
      PaddedUndecided(e, band, county, station, time);
    }
  }

  lemma NoBonusDecides(e: Event)
    requires ValidEvent(e) && Unambiguous(e) && e.rules.bonusPoints == 0
    ensures KeysDecideScores(e)
  {
    hide ScoreOf, LogKeys, OneStation, PlainNames, Unambiguous;
    forall w, a, b, special, entry |
      PlainNames(w) && OneStation(e, a, special) && OneStation(e, b, special) && LogKeys(w, e, a) == LogKeys(w, e, b)
      ensures ScoreOf(w, e, a, entry) == ScoreOf(w, e, b, entry)
    {
      ScoreDependsOnKeys(w, e, a, b, special, entry);
    }
  }

  lemma PaddedUndecided(e: Event, band: string, county: string, station: string, time: int)
    requires ValidEvent(e) && ToUpper(band) in e.bands && ReadsAsCounty(e, county)
    requires InPeriod(e, time) && ToUpper(station) !in e.rules.qsoOnlyCalls && e.rules.bonusPoints != 0
    ensures !KeysDecideScores(e)
  {
    hide ScoreOf, LogKeys, ReadsAsCounty, InPeriod, Contact, ToUpper;
    var w, entry, call := OneCountry(), Entry("", ""), e.rules.bonusCall;
    var c := Contact(e, call, band, station, time, county, county);
    ContactFields(e, call, band, station, time, county, county);
    var d := c.(call := " " + call);
    BlankCallConfuses(w, e, county, c, d, entry);
    assert PlainNames(w);
    assert OneStation(e, [c], false) && OneStation(e, [d], false);
  }

  // ---------- QSO-only stations ----------

  /** A second county raises the flag of a station on the QSO-only list, and leaves the one multiplier of its score. */
  lemma QsoOnlyConfuses(w: World, e: Event, place: string, a: string, b: string, c: Qso, d: Qso, entry: Entry)
    requires ValidEvent(e) && Lone(w, e, place) && ParseLocation(w, e, place).value.counties == []
    requires ReadsAsCounty(e, a) && ReadsAsCounty(e, b) && a != b && e.rules.multiplierCap != 1
    requires c == Contact(e, c.call, c.band, c.station, c.time, place, a) && d == Contact(e, c.call, c.band, c.station, c.time, place, b)
    requires Creditable(e, c) && Counted(e, c) && IsSpecial(e, c)
    ensures Flag(e, SeenMults(w, e, [c]), OwnMults(w, e, d))
    ensures ScoreOf(w, e, [c, d], entry).multipliers == ScoreOf(w, e, [c], entry).multipliers == 1
  {
    hide Credits, Exchange, ParseLocation, LogTally, LogCredits, ContactCredits, InPeriod, MultiplierKeys, IsField, Creditable, ToUpper,
      ReadsAsCounty, CreditKey;
    CountyParses(w, e, a);
    CountyParses(w, e, b);
    SameBand(e, c, d);
    ContactIsItsCredit(w, e, c, place, a);
    ContactIsItsCredit(w, e, d, place, b);
    AwayMults(w, e, c, a);
    AwayMults(w, e, d, b);
    LogOfOne(w, e, c);
    ContactValue(w, e, c);
    TwoKeys(e, a, b, c.band);
    assert [c] + [d] == [c, d];
    AllSpecial(w, e, [c], d);
    LogCreditsConcat(w, e, [c], [d]);
    ScoreMultipliers(w, e, [c], entry);
    ScoreMultipliers(w, e, [c, d], entry);
  }

  /** What a contact from outside earns for a county. */
  lemma AwayMults(w: World, e: Event, c: Qso, county: string)
    requires Credits(w, e, c) == Ok([c]) && Sent(w, e, c).counties == [] && Received(w, e, c).counties == [county]
    ensures MultsOfCredits(w, e, [c]) == OwnMults(w, e, c) == {BandKey(e, "county:" + county, c.band)}
  {
    hide Credits, MultiplierKeys, Sent, Received, BandKey, MultsOfCredits;
    AwayKeys(w, e, c, county);
    OneCreditMults(w, e, c, BandKey(e, "county:" + county, c.band));
  }

  lemma OneCreditMults(w: World, e: Event, c: Qso, key: string)
    requires MultiplierKeys(w, e, c) == [key]
    ensures MultsOfCredits(w, e, [c]) == {key}
  {
    hide MultiplierKeys;
    assert c in [c] && key in MultiplierKeys(w, e, c);
  }

  lemma AwayKeys(w: World, e: Event, c: Qso, county: string)
    requires Credits(w, e, c) == Ok([c]) && Sent(w, e, c).counties == [] && Received(w, e, c).counties == [county]
    ensures MultiplierKeys(w, e, c) == [BandKey(e, "county:" + county, c.band)]
  {
    hide Exchange, ToUpper;
    assert CountyKeys([county]) == ["county:" + county];
  }

  lemma CancelTail(x: string, y: string, tail: string)
    ensures x + tail == y + tail ==> x == y
  {
    if x + tail == y + tail { assert x == (x + tail)[..|x|] && y == (y + tail)[..|y|]; }
  }

  lemma TwoKeys(e: Event, a: string, b: string, band: string)
    requires a != b
    ensures BandKey(e, "county:" + a, band) != BandKey(e, "county:" + b, band)
  {
    hide ToUpper;
    var tail := if e.rules.perBand then "|" + ToUpper(band) else "";
    var x, y := "county:" + a, "county:" + b;
    SameTail("county:", a, b);
    assert BandKey(e, x, band) == x + tail && BandKey(e, y, band) == y + tail;
    CancelTail(x, y, tail);
  }

  // ---------- When keys decide what the scorer reads ----------

  /** A credit some contact can earn. */
  ghost predicate Earned(w: World, e: Event, c: Qso) {
    exists q: Qso :: c in CreditsOf(w, e, q)
  }

  /** In every country data, credits with one key count alike. */
  ghost predicate KeysDecide(e: Event) {
    forall w, c, d :: PlainNames(w) && Earned(w, e, c) && Earned(w, e, d) && CreditKey(w, e, c) == CreditKey(w, e, d)
      ==> SameCredit(w, e, c, d)
  }

  /** For an event with a band and a county that can be sent alone, keys decide exactly
      under the settings the theorems ask for. */
  lemma KeysDecideExactly(e: Event, band: string, county: string)
    requires ValidEvent(e) && ToUpper(band) in e.bands && ReadsAsCounty(e, county)
    ensures KeysDecide(e) <==> Unambiguous(e)
  {
    if Unambiguous(e) {
      UnambiguousDecides(e);
    } else if Awards(e, DxMult) && Awards(e, DxccMult) && DxReads(e) {
      DxUndecided(e, band, county);
    } else {
      var alias :| AliasReads(e, alias) && e.rules.aliases[alias] in e.counties;
      AliasUndecided(e, band, alias);
    }
  }

  lemma UnambiguousDecides(e: Event)
    requires ValidEvent(e) && Unambiguous(e)
    ensures KeysDecide(e)
  {
    hide ValidEvent, Unambiguous, PlainNames, CreditKey, SameCredit, CreditsOf, IsCredit;
    forall w, c, d | PlainNames(w) && Earned(w, e, c) && Earned(w, e, d) && CreditKey(w, e, c) == CreditKey(w, e, d)
      ensures SameCredit(w, e, c, d)
    {
      var p: Qso :| c in CreditsOf(w, e, p);
      var q: Qso :| d in CreditsOf(w, e, q);
      CreditsAreCredits(w, e, p, c);
      CreditsAreCredits(w, e, q, d);
      SameKeySameCredit(w, e, c, d);
    }
  }

  /** Country data in which every call is in one country. */
  function OneCountry(): World { World(_ => Some("X"), _ => true) }

  lemma DxUndecided(e: Event, band: string, county: string)
    requires ValidEvent(e) && ToUpper(band) in e.bands && ReadsAsCounty(e, county)
    requires Awards(e, DxMult) && Awards(e, DxccMult) && DxReads(e)
    ensures !KeysDecide(e)
  {
    hide ValidEvent, ReadsAsCounty, CreditKey, MultiplierKeys, Credits, ToUpper, Contact, Sent;
    var w := OneCountry();
    var c, d := Contact(e, "A", band, "B", 0, county, "DX"), Contact(e, "A", band, "B", 0, county, "DX:X");
    ContactFields(e, "A", band, "B", 0, county, "DX");
    ContactFields(e, "A", band, "B", 0, county, "DX:X");
    assert "DX:X" == "DX:" + "X";
    assert DxTwins(w, e, "X", county, c, d);
    DxAndDxccConfuse(w, e, "X", county, c, d);
    assert Earned(w, e, c) && Earned(w, e, d) by { assert c in CreditsOf(w, e, c) && d in CreditsOf(w, e, d); }
    assert PlainNames(w);
    assert !SameCredit(w, e, c, d);
  }

  lemma ContactFields(e: Event, call: string, band: string, station: string, time: int, sent: string, received: string)
    requires ToUpper(band) in e.bands
    ensures var c := Contact(e, call, band, station, time, sent, received);
      Creditable(e, c) && c.call == call && c.band == band && c.station == station && c.time == time && !c.unscored
  {
  }

  lemma AliasUndecided(e: Event, band: string, alias: string)
    requires ValidEvent(e) && ToUpper(band) in e.bands && AliasReads(e, alias) && e.rules.aliases[alias] in e.counties
    ensures !KeysDecide(e)
  {
    hide ValidEvent, CreditKey, MultiplierKeys, Credits, ToUpper, Contact, Sent;
    var w, county := OneCountry(), e.rules.aliases[alias];
    var c, d := Contact(e, "A", band, "B", 0, county, county), Contact(e, "A", band, "B", 0, alias, county);
    ContactFields(e, "A", band, "B", 0, county, county);
    ContactFields(e, "A", band, "B", 0, alias, county);
    AliasTargetConfuses(w, e, alias, county, c, d);
    assert Earned(w, e, c) && Earned(w, e, d) by { assert c in CreditsOf(w, e, c) && d in CreditsOf(w, e, d); }
    assert PlainNames(w);
    assert !SameCredit(w, e, c, d);
  }

  // ---------- County lines that name regions ----------

  lemma LineSplits(c: string, d: string)
    requires IsCode(c) && IsCode(d)
    ensures Split(c + "/" + d, '/') == [c, d] && IsField(c + "/" + d) && !Contains(c + "/" + d, '+') && !IsRegion(c + "/" + d)
  {
    hide Split, IsField, IsRegion, Contains;
    CodeText(c);
    CodeText(d);
    LineParts(c, d);
    LineChars(c, d);
    LineNoRegion(c, d);
  }

  lemma LineParts(c: string, d: string)
    requires !Contains(c, '/') && !Contains(d, '/')
    ensures Split(c + "/" + d, '/') == [c, d]
  {
    var line := c + "/" + d;
    assert line[|c|] == '/' && line[..|c|] == c && line[|c| + 1..] == d;
    assert forall i :: 0 <= i < |c| ==> line[i] == c[i];
    assert IndexOf(line, '/') == |c|;
    SplitSingle(d, '/');
  }

  lemma LineChars(c: string, d: string)
    requires IsCode(c) && IsCode(d)
    ensures IsField(c + "/" + d) && !Contains(c + "/" + d, '+')
  {
    var line := c + "/" + d;
    forall i | 0 <= i < |line| ensures line[i] != '+' && Printable(line[i]) && !IsSpace(line[i]) && !IsLower(line[i]) {
      if i < |c| { assert line[i] == c[i]; } else if i > |c| { assert line[i] == d[i - |c| - 1]; }
    }
  }

  lemma LineNoRegion(c: string, d: string)
    requires c != "" && d != ""
    ensures !IsRegion(c + "/" + d)
  {
    assert |Region(c + "/" + d)| >= 2;
  }

  lemma LineParses(w: World, e: Event, c: string, d: string)
    requires ValidEvent(e) && e.rules.countyLineMax >= 2 && c in e.counties && d in e.counties && c != d
    ensures ParseLocation(w, e, c + "/" + d).Ok?
    ensures var p := ParseLocation(w, e, c + "/" + d).value;
      p.location == c + "/" + d && c in p.counties && d in p.counties
  {
    hide ValidEvent, Split, Codes, IsField, Contains, SortStrings, IsRegion, IsCode;
    CountyIsCode(e, c);
    CountyIsCode(e, d);
    LineSplits(c, d);
    LineOfTwo(e, c, d);
    assert !ReadsAsRegion(e, c + "/" + d);
    SortedTwo(c, d);
  }

  lemma LineOfTwo(e: Event, c: string, d: string)
    requires IsCode(c) && IsCode(d) && c in e.counties && d in e.counties && c != d
    ensures Codes(e, [c, d]) == [c, d] && IsCountyLine(e, [c, d])
  {
    CodeText(c);
    CodeText(d);
    hide TrimSpace, ToUpper;
  }

  lemma SortedTwo(c: string, d: string)
    ensures c in SortStrings([c, d]) && d in SortStrings([c, d])
  {
    hide SortStrings;
    assert c in multiset([c, d]) && d in multiset([c, d]);
    assert c in multiset(SortStrings([c, d])) && d in multiset(SortStrings([c, d]));
  }

  lemma {:induction false} ProductHas(q: Qso, sent: PartyExchange, received: PartyExchange, homes: seq<string>, aways: seq<string>,
                                      home: string, away: string)
    requires home in homes && away in aways
    ensures CreditOf(q, sent, received, home, away) in Product(q, sent, received, homes, aways)
  {
    hide CreditOf;
    var n := |homes| - 1;
    if home in homes[..n] {
      ProductHas(q, sent, received, homes[..n], aways, home, away);
    } else {
      var j :| 0 <= j < |aways| && aways[j] == away;
      assert Row(q, sent, received, homes[n], aways)[j] == CreditOf(q, sent, received, home, away);
    }
  }

  /** A contact between two stations on the same line of two counties. */
  ghost predicate LineContact(e: Event, c: string, d: string, q: Qso) {
    && ValidEvent(e) && e.rules.countyLineMax >= 2 && c in e.counties && d in e.counties && c != d && Creditable(e, q)
    && q == Contact(e, q.call, q.band, q.station, q.time, c + "/" + d, c + "/" + d)
  }

  /** Its credit for a pair of those counties, and how that credit reads. */
  lemma LineCredit(w: World, e: Event, c: string, d: string, q: Qso, home: string, away: string)
    requires LineContact(e, c, d, q) && home in {c, d} && away in {c, d}
    ensures var x := Contact(e, q.call, q.band, q.station, q.time, home, away);
      && x in CreditsOf(w, e, q)
      && Sent(w, e, x).counties == (if ReadsAsRegion(e, home) then [] else [home])
      && Received(w, e, x).counties == (if ReadsAsRegion(e, away) then [] else [away])
      && Sent(w, e, x).area == (if ReadsAsRegion(e, home) then "R" + Region(home) else "")
      && Received(w, e, x).area == (if ReadsAsRegion(e, away) then "R" + Region(away) else "")
  {
    hide ParseLocation, Exchange, IsField, ToUpper, Creditable, ReadsAsRegion;
    var line := c + "/" + d;
    LineParses(w, e, c, d);
    LineSplitsIn(e, c, d);
    HeadParses(w, e, line);
    var s := Placed(e, ParseLocation(w, e, line).value);
    assert Sent(w, e, q) == s && Received(w, e, q) == s;
    ProductHas(q, s, s, LocationsOf(s), LocationsOf(s), home, away);
    assert CreditOf(q, s, s, home, away) == Contact(e, q.call, q.band, q.station, q.time, home, away);
    ExchangeCounties(w, e, q.stx, q.stxString);
    CreditExchanges(w, e, q, s, s, home, away);
  }

  lemma LineSplitsIn(e: Event, c: string, d: string)
    requires ValidEvent(e) && c in e.counties && d in e.counties
    ensures IsField(c + "/" + d) && !Contains(c + "/" + d, '+')
  {
    CountyIsCode(e, c);
    CountyIsCode(e, d);
    LineSplits(c, d);
  }

  /** A credit between two counties that read as regions expands to nothing: its points are lost. */
  lemma RegionCreditLost(w: World, e: Event, c: string, d: string, q: Qso)
    requires LineContact(e, c, d, q) && ReadsAsRegion(e, c)
    ensures var x := Contact(e, q.call, q.band, q.station, q.time, c, c);
      x in CreditsOf(w, e, q) && Credits(w, e, x) == Ok([])
  {
    hide Exchange, Credits, Contact, ReadsAsRegion, Creditable;
    LineCredit(w, e, c, d, q, c, c);
    CreditExpands(w, e, q, Contact(e, q.call, q.band, q.station, q.time, c, c));
  }

  /** Two counties that read as one region give two credits of one contact the same key. */
  lemma TwinRegionKeys(w: World, e: Event, c: string, d: string, q: Qso)
    requires LineContact(e, c, d, q) && ReadsAsRegion(e, c) && ReadsAsRegion(e, d) && Region(c) == Region(d)
    ensures !DistinctKeys(w, e, CreditsOf(w, e, q))
  {
    hide Exchange, Credits, ReadsAsRegion, Creditable, Norm, ToUpper, CreditKey, CreditsOf;
    var x, y := Contact(e, q.call, q.band, q.station, q.time, c, c), Contact(e, q.call, q.band, q.station, q.time, d, d);
    LineCredit(w, e, c, d, q, c, c);
    LineCredit(w, e, c, d, q, d, d);
    RegionKeys(w, e, x, y);
    PrefixedApart(Head(e).name, c, d);
    assert x != y;
    var cs := CreditsOf(w, e, q);
    var i :| 0 <= i < |cs| && cs[i] == x;
    var j :| 0 <= j < |cs| && cs[j] == y;
    assert CreditKey(w, e, cs[i]) == CreditKey(w, e, cs[j]) && i != j;
  }

  lemma PrefixedApart(name: string, c: string, d: string)
    requires c != d
    ensures Prefixed(name, c) != Prefixed(name, d)
  {
    if name + " " + c == name + " " + d { Cancel(name + " ", c, d); }
  }

  lemma RegionKeys(w: World, e: Event, x: Qso, y: Qso)
    requires x.call == y.call && x.band == y.band && x.station == y.station
    requires Sent(w, e, x).counties == Sent(w, e, y).counties == Received(w, e, x).counties == Received(w, e, y).counties == []
    requires Sent(w, e, x).area == Sent(w, e, y).area && Received(w, e, x).area == Received(w, e, y).area
    ensures CreditKey(w, e, x) == CreditKey(w, e, y)
  {
    hide Exchange, Norm, ToUpper, DxEntity;
  }

  /** Every credit of every contact expands to itself. */
  ghost predicate AllExpand(e: Event) {
    forall w, q, c :: c in CreditsOf(w, e, q) ==> Credits(w, e, c) == Ok([c])
  }

  ghost predicate AllKeysApart(e: Event) {
    forall w, q :: DistinctKeys(w, e, CreditsOf(w, e, q))
  }

  /** For an event with a band, credits expand to themselves exactly when no county line names a region. */
  lemma ExpandExactly(e: Event, band: string)
    requires ValidEvent(e) && ToUpper(band) in e.bands
    ensures AllExpand(e) <==> NoRegionLine(e)
  {
    hide ValidEvent, Credits, CreditsOf, ReadsAsRegion, Contact, ToUpper, Creditable;
    if NoRegionLine(e) {
      forall w, q, c | c in CreditsOf(w, e, q) ensures Credits(w, e, c) == Ok([c]) { CreditExpandsToItself(w, e, q, c); }
    } else {
      var c, d :| c in e.counties && d in e.counties && c != d && ReadsAsRegion(e, c);
      var q := Contact(e, "A", band, "B", 0, c + "/" + d, c + "/" + d);
      ContactFields(e, "A", band, "B", 0, c + "/" + d, c + "/" + d);
      RegionCreditLost(OneCountry(), e, c, d, q);
      var lost := Contact(e, q.call, q.band, q.station, q.time, c, c);
      assert lost in CreditsOf(OneCountry(), e, q) && Credits(OneCountry(), e, lost) != Ok([lost]);
    }
  }

  /** For an event with a band, a contact's credits have different keys exactly when no county line
      names two counties that read as one region. */
  lemma KeysApartExactly(e: Event, band: string)
    requires ValidEvent(e) && ToUpper(band) in e.bands
    ensures AllKeysApart(e) <==> NoTwinRegions(e)
  {
    hide ValidEvent, Credits, ReadsAsRegion, Contact, ToUpper, Creditable, Region, DistinctKeys;
    if NoTwinRegions(e) {
      forall w, q ensures DistinctKeys(w, e, CreditsOf(w, e, q)) {
        if Credits(w, e, q).Ok? { CreditsCountAndKeys(w, e, q); }
        else { NothingApart(w, e); }
      }
    } else {
      var c, d :| c in e.counties && d in e.counties && c != d && ReadsAsRegion(e, c) && ReadsAsRegion(e, d) && Region(c) == Region(d);
      var q := Contact(e, "A", band, "B", 0, c + "/" + d, c + "/" + d);
      ContactFields(e, "A", band, "B", 0, c + "/" + d, c + "/" + d);
      TwinRegionKeys(OneCountry(), e, c, d, q);
    }
  }
}
