/** What a party score is worth, read from the log itself: which credits its
    contacts earn, what they multiply, and the figures of the claimed score. */
module PartyValues {
  import opened Text
  import opened PartyRules
  import opened PartyCredits
  import opened PartyTally
  import opened PartyScore
  import opened PartyTheorems
  import opened PartyLive

  // ---------- The credits of a log ----------

  /** A contact the scorer looks at: no /X contact, and made within a period, its end excluded. */
  ghost predicate InEvent(e: Event, q: Qso) {
    !q.unscored && exists p :: p in e.rules.periods && p.start <= q.time && q.time < p.end
  }

  /** A place an exchange can stand for in one credit: one of its counties, or its location when it names none. */
  ghost predicate StandsFor(x: PartyExchange, place: string) {
    place in x.counties || (x.counties == [] && place == x.location)
  }

  /** `c` is the contact `q` with serial, name and one place on either side. */
  ghost predicate Carries(q: Qso, sent: PartyExchange, received: PartyExchange, home: string, away: string, c: Qso) {
    c == q.(stx := sent.serial, stxString := if sent.name == "" then home else sent.name + " " + home,
            srx := received.serial, srxString := if received.name == "" then away else received.name + " " + away)
  }

  /** `c` is the contact `q` with one place on either side, and a county on at least one. */
  ghost predicate Earns(w: World, e: Event, q: Qso, c: Qso) {
    && (q.mode == "" || ToUpper(q.mode) == "CW") && ToUpper(q.band) in e.bands
    && Exchange(w, e, q.stx, q.stxString).Ok? && Exchange(w, e, q.srx, q.srxString).Ok?
    && var sent, received := Exchange(w, e, q.stx, q.stxString).value, Exchange(w, e, q.srx, q.srxString).value;
       && (sent.counties != [] || received.counties != [])
       && exists home, away :: StandsFor(sent, home) && StandsFor(received, away)
            && Carries(q, sent, received, home, away, c)
  }

  lemma {:induction false} ProductHas(q: Qso, sent: PartyExchange, received: PartyExchange, homes: seq<string>, aways: seq<string>,
                                      i: nat, j: nat)
    requires i < |homes| && j < |aways|
    ensures CreditOf(q, sent, received, homes[i], aways[j]) in Product(q, sent, received, homes, aways)
  {
    var n := |homes| - 1;
    if i < n {
      ProductHas(q, sent, received, homes[..n], aways, i, j);
    } else {
      assert Row(q, sent, received, homes[n], aways)[j] == CreditOf(q, sent, received, homes[i], aways[j]);
    }
  }

  /** The credits of one contact, place by place. */
  lemma ContactMeans(w: World, e: Event, q: Qso, c: Qso)
    ensures c in ContactCredits(w, e, q) <==> InEvent(e, q) && Earns(w, e, q, c)
  {
    InEventCounted(e, q);
    hide Exchange, InEvent, Counted;
    if Exchange(w, e, q.stx, q.stxString).Ok? && Exchange(w, e, q.srx, q.srxString).Ok? {
      var sent, received := Exchange(w, e, q.stx, q.stxString).value, Exchange(w, e, q.srx, q.srxString).value;
      ProductMeans(q, sent, received, c);
    }
    hide Product;
  }

  lemma InEventCounted(e: Event, q: Qso)
    ensures Counted(e, q) <==> InEvent(e, q)
  {
    if InEvent(e, q) {
      var p :| p in e.rules.periods && p.start <= q.time && q.time < p.end;
      var i :| 0 <= i < |e.rules.periods| && e.rules.periods[i] == p;
    }
  }

  lemma ProductMeans(q: Qso, sent: PartyExchange, received: PartyExchange, c: Qso)
    ensures c in Product(q, sent, received, LocationsOf(sent), LocationsOf(received))
            <==> exists home, away :: StandsFor(sent, home) && StandsFor(received, away)
                   && Carries(q, sent, received, home, away, c)
  {
    hide Product;
    var homes, aways := LocationsOf(sent), LocationsOf(received);
    if c in Product(q, sent, received, homes, aways) {
      var home, away := ProductMember(q, sent, received, homes, aways, c);
      assert StandsFor(sent, home) && StandsFor(received, away) && Carries(q, sent, received, home, away, c);
    }
    if home, away :| StandsFor(sent, home) && StandsFor(received, away) && Carries(q, sent, received, home, away, c) {
      var i :| 0 <= i < |homes| && homes[i] == home;
      var j :| 0 <= j < |aways| && aways[j] == away;
      ProductHas(q, sent, received, homes, aways, i, j);
    }
  }

  /** The credits of a log are the credits its contacts in the event earn. */
  lemma CreditsMean(w: World, e: Event, log: seq<Qso>, c: Qso)
    ensures c in LogCredits(w, e, log) <==> exists q :: q in log && InEvent(e, q) && Earns(w, e, q, c)
  {
    hide InEvent, Earns, ContactCredits;
    if c in LogCredits(w, e, log) {
      var q := LogMember(w, e, log, c);
      ContactMeans(w, e, q, c);
    }
    forall q | q in log && InEvent(e, q) && Earns(w, e, q, c) ensures c in LogCredits(w, e, log) {
      ContactMeans(w, e, q, c);
      LogHasContact(w, e, log, q, c);
    }
  }

  /** The same station worked again on a band, from and to the same places. */
  ghost predicate SameWork(w: World, e: Event, q: Qso, p: Qso) {
    && Norm(p.call) == Norm(q.call) && ToUpper(p.band) == ToUpper(q.band) && p.station == q.station
    && SamePlaces(Exchange(w, e, q.stx, q.stxString), Exchange(w, e, p.stx, p.stxString))
    && SamePlaces(Exchange(w, e, q.srx, q.srxString), Exchange(w, e, p.srx, p.srxString))
  }

  predicate SamePlaces(x: Result<PartyExchange>, y: Result<PartyExchange>) {
    && x.Ok? && y.Ok?
    && x.value.area == y.value.area && x.value.location == y.value.location && x.value.counties == y.value.counties
  }

  lemma SameWorkKey(w: World, e: Event, q: Qso, p: Qso, c: Qso) returns (d: Qso)
    requires ValidEvent(e) && SameWork(w, e, q, p) && Creditable(e, q) && c in CreditsOf(w, e, p)
    ensures d in CreditsOf(w, e, q) && CreditKey(w, e, d) == CreditKey(w, e, c)
  {
    hide Exchange, ValidEvent, LocationKey, ToUpper, TrimSpace, Product;
    var sent, received := Exchange(w, e, q.stx, q.stxString).value, Exchange(w, e, q.srx, q.srxString).value;
    var pSent, pReceived := Exchange(w, e, p.stx, p.stxString).value, Exchange(w, e, p.srx, p.srxString).value;
    var home, away := CreditParts(w, e, p, c);
    d := CreditOf(q, sent, received, home, away);
    var i :| 0 <= i < |LocationsOf(sent)| && LocationsOf(sent)[i] == home;
    var j :| 0 <= j < |LocationsOf(received)| && LocationsOf(received)[j] == away;
    ProductHas(q, sent, received, LocationsOf(sent), LocationsOf(received), i, j);
    CreditExchanges(w, e, q, sent, received, home, away);
    NarrowSame(w, e, sent, pSent, home, q.station, p.station);
    NarrowSame(w, e, received, pReceived, away, q.call, p.call);
  }

  lemma NarrowSame(w: World, e: Event, x: PartyExchange, y: PartyExchange, place: string, call: string, other: string)
    requires x.area == y.area && x.location == y.location && x.counties == y.counties && Norm(call) == Norm(other)
    ensures LocationKey(w, e, Narrow(e, x, place), call) == LocationKey(w, e, Narrow(e, y, place), other)
  {
  }

  /** Working a station again on a band between the same places adds no key, whatever the serials, names,
      reports, times and the writing of the call. */
  lemma RepeatEarnsNothing(w: World, e: Event, log: seq<Qso>, q: Qso, p: Qso)
    requires ValidEvent(e) && q in log && InEvent(e, q) && Creditable(e, q) && SameWork(w, e, q, p)
    ensures LogKeys(w, e, log + [p]) == LogKeys(w, e, log)
  {
    hide InEvent, LogCredits, SameWork, ValidEvent, CreditKey, Creditable, Facts, Credits;
    InEventCounted(e, q);
    LogCreditsConcat(w, e, log, [p]);
    LogOfOne(w, e, p);
    FactSets(w, e, LogCredits(w, e, log));
    FactSets(w, e, LogCredits(w, e, log + [p]));
    forall c | c in ContactCredits(w, e, p) ensures exists d :: d in LogCredits(w, e, log) && CreditKey(w, e, d) == CreditKey(w, e, c) {
      var d := SameWorkKey(w, e, q, p, c);
      LogHasContact(w, e, log, q, d);
    }
  }

  // ---------- What a credit multiplies ----------

  /** The country of a call, the four domestic ones aside. */
  ghost predicate Abroad(w: World, call: string, name: string) {
    w.country(Norm(call)) == Some(name) && name !in {"United States", "Canada", "Alaska", "Hawaii"}
  }

  /** The postal area of an exchange: the home state for a county that counts as its state; aliases resolved. */
  ghost predicate StateOf(e: Event, x: PartyExchange, state: string) {
    var area := if x.counties != [] && e.rules.countyAsState then e.rules.state else x.area;
    && PostalArea(state)
    && (area in e.rules.aliases ==> state == e.rules.aliases[area])
    && (area !in e.rules.aliases ==> state == area)
  }

  /** The multiplier a received exchange names to a station at home. */
  ghost predicate NamesAtHome(w: World, e: Event, x: PartyExchange, call: string, name: string) {
    || (CountyMult in e.rules.homeMultipliers && exists county :: county in x.counties && name == "county:" + county)
    || (StateMult in e.rules.homeMultipliers && exists state :: StateOf(e, x, state) && name == "state:" + state)
    || (DxccMult in e.rules.homeMultipliers
        && (("DX:" <= x.area && name == x.area) || (x.area == "DX" && exists n :: Abroad(w, call, n) && name == "DX:" + n)))
    || (DxMult in e.rules.homeMultipliers && x.area == "DX" && name == "DX")
    || (MaritimeMult in e.rules.homeMultipliers && x.area in {"R1", "R2", "R3"} && name == "maritime:" + x.area)
  }

  ghost predicate Names(w: World, e: Event, sent: PartyExchange, received: PartyExchange, call: string, name: string) {
    if sent.counties == [] then exists county :: county in received.counties && name == "county:" + county
    else NamesAtHome(w, e, received, call, name)
  }

  /** The multipliers of a credit: a county sent anywhere from outside, the event's kinds sent at home; per band if so ruled. */
  ghost predicate Multiplies(w: World, e: Event, c: Qso, key: string) {
    && Exchange(w, e, c.stx, c.stxString).Ok? && Exchange(w, e, c.srx, c.srxString).Ok?
    && var sent, received := Exchange(w, e, c.stx, c.stxString).value, Exchange(w, e, c.srx, c.srxString).value;
       exists name :: Names(w, e, sent, received, c.call, name) && key == if e.rules.perBand then name + "|" + ToUpper(c.band) else name
  }

  lemma CountyKeysMean(counties: seq<string>, name: string)
    ensures name in CountyKeys(counties) <==> exists county :: county in counties && name == "county:" + county
  {
    if name in CountyKeys(counties) {
      var i :| 0 <= i < |counties| && CountyKeys(counties)[i] == name;
      assert counties[i] in counties;
    }
    forall county | county in counties && name == "county:" + county ensures name in CountyKeys(counties) {
      var i :| 0 <= i < |counties| && counties[i] == county;
      assert CountyKeys(counties)[i] == name;
    }
  }

  ghost predicate NamesAs(w: World, e: Event, k: HomeKind, x: PartyExchange, call: string, name: string) {
    match k
    case CountyMult => exists county :: county in x.counties && name == "county:" + county
    case StateMult => exists state :: StateOf(e, x, state) && name == "state:" + state
    case DxccMult => ("DX:" <= x.area && name == x.area) || (x.area == "DX" && exists n :: Abroad(w, call, n) && name == "DX:" + n)
    case DxMult => x.area == "DX" && name == "DX"
    case MaritimeMult => x.area in {"R1", "R2", "R3"} && name == "maritime:" + x.area
  }

  lemma KindMeans(w: World, e: Event, k: HomeKind, x: PartyExchange, call: string, name: string)
    ensures name in KindKeys(w, e, k, x, call) <==> NamesAs(w, e, k, x, call, name)
  {
    hide PostalArea, Norm;
    CountyKeysMean(x.counties, name);
    hide CountyKeys;
    match k {
      case DxccMult => EntityMeans(w, call); assert "DX:" <= x.area <==> HasPrefix(x.area, "DX:");
      case _ =>
    }
  }

  lemma EntityMeans(w: World, call: string)
    ensures forall n :: DxEntity(w, call) == Some(n) <==> Abroad(w, call, n)
  {
  }

  lemma {:induction false} HomeMeans(w: World, e: Event, kinds: seq<HomeKind>, x: PartyExchange, call: string, name: string)
    ensures name in HomeKeys(w, e, kinds, x, call) <==> exists k :: k in kinds && NamesAs(w, e, k, x, call, name)
  {
    hide KindKeys, NamesAs;
    if kinds != [] {
      KindMeans(w, e, kinds[0], x, call, name);
      HomeMeans(w, e, kinds[1..], x, call, name);
      assert kinds == [kinds[0]] + kinds[1..];
    }
  }

  lemma AtHomeMeans(w: World, e: Event, x: PartyExchange, call: string, name: string)
    ensures (exists k :: k in e.rules.homeMultipliers && NamesAs(w, e, k, x, call, name)) <==> NamesAtHome(w, e, x, call, name)
  {
    hide StateOf, Abroad;
    assert forall k :: NamesAs(w, e, k, x, call, name) ==> k in [CountyMult, StateMult, DxccMult, DxMult, MaritimeMult];
  }

  lemma OnBandMeans(e: Event, keys: seq<string>, band: string, key: string)
    ensures key in OnBand(e, keys, band)
            <==> exists name :: name in keys && key == if e.rules.perBand then name + "|" + ToUpper(band) else name
  {
    hide ToUpper;
    if key in OnBand(e, keys, band) {
      var i :| 0 <= i < |keys| && OnBand(e, keys, band)[i] == key;
      assert keys[i] in keys;
    }
    forall name | name in keys && key == (if e.rules.perBand then name + "|" + ToUpper(band) else name)
      ensures key in OnBand(e, keys, band)
    {
      var i :| 0 <= i < |keys| && keys[i] == name;
      assert OnBand(e, keys, band)[i] == key;
    }
  }

  /** The multiplier keys of a credit are the multipliers its exchanges name. */
  lemma MultipliersMean(w: World, e: Event, c: Qso, key: string)
    ensures key in MultiplierKeys(w, e, c) <==> Multiplies(w, e, c, key)
  {
    hide Exchange, OnBand, CountyKeys, HomeKeys, ToUpper, Names;
    var sent, received := Sent(w, e, c), Received(w, e, c);
    var keys := if sent.counties == [] then CountyKeys(received.counties)
                else HomeKeys(w, e, e.rules.homeMultipliers, received, c.call);
    OnBandMeans(e, keys, c.band, key);
    forall name ensures name in keys <==> Names(w, e, sent, received, c.call, name) {
      NamesMean(w, e, sent, received, c.call, name);
    }
  }

  lemma NamesMean(w: World, e: Event, sent: PartyExchange, received: PartyExchange, call: string, name: string)
    ensures name in (if sent.counties == [] then CountyKeys(received.counties)
                     else HomeKeys(w, e, e.rules.homeMultipliers, received, call))
            <==> Names(w, e, sent, received, call, name)
  {
    hide CountyKeys, HomeKeys, NamesAtHome, NamesAs;
    CountyKeysMean(received.counties, name);
    HomeMeans(w, e, e.rules.homeMultipliers, received, call, name);
    AtHomeMeans(w, e, received, call, name);
  }

  // ---------- The figures of the score ----------

  /** The keys of the credits sent from a county. */
  ghost function FromCounty(w: World, e: Event, log: seq<Qso>, county: string): set<string> {
    set c | c in LogCredits(w, e, log) && county in Sent(w, e, c).counties :: CreditKey(w, e, c)
  }

  /** The counties a station operated from: as many credits as the event asks for. */
  ghost function Activated(w: World, e: Event, log: seq<Qso>): set<string> {
    set county | county in e.counties && e.rules.mobileMinimum != 0 && |FromCounty(w, e, log, county)| >= e.rules.mobileMinimum
  }

  /** The bands the bonus station was worked on. */
  ghost function BonusBands(w: World, e: Event, log: seq<Qso>): set<string> {
    set c | c in LogCredits(w, e, log) && EqualFold(c.call, e.rules.bonusCall) :: ToUpper(c.band)
  }

  /** The multipliers the credits of a log earn. */
  ghost function Earned(w: World, e: Event, log: seq<Qso>): set<string> {
    set c, key | c in LogCredits(w, e, log) && key in MultiplierKeys(w, e, c) :: key
  }

  ghost predicate NoKeyNames(keys: set<string>, county: string) {
    forall k <- keys :: k != "county:" + county && !("county:" + county + "|" <= k)
  }

  /** The counties that count as multipliers for having been operated from. */
  ghost function Extra(w: World, e: Event, log: seq<Qso>, entry: Entry): set<string> {
    if (entry.category == "MOBILE" || entry.category == "ROVER") && e.rules.mobileMultiplier
    then set county | county in Activated(w, e, log) && NoKeyNames(Earned(w, e, log), county)
    else {}
  }

  lemma FromCountyIsSentFrom(w: World, e: Event, log: seq<Qso>, county: string)
    ensures SentFrom(LogFacts(w, e, log), county) == FromCounty(w, e, log, county)
  {
    hide LogCredits, FactOf, LogFacts;
    forall k | k in SentFrom(LogFacts(w, e, log), county) ensures k in FromCounty(w, e, log, county) {
      var f :| f in LogFacts(w, e, log) && county in f.counties && f.key == k;
      var c := FactOfLog(w, e, log, f);
      FactText(w, e, c);
    }
    forall k | k in FromCounty(w, e, log, county) ensures k in SentFrom(LogFacts(w, e, log), county) {
      var c :| c in LogCredits(w, e, log) && county in Sent(w, e, c).counties && CreditKey(w, e, c) == k;
      FactInLog(w, e, log, c);
      FactText(w, e, c);
    }
  }

  lemma BonusBandsAreSet(w: World, e: Event, log: seq<Qso>)
    ensures BonusSet(LogFacts(w, e, log)) == BonusBands(w, e, log)
  {
    hide LogCredits, FactOf, LogFacts, ToUpper, EqualFold;
    forall k | k in BonusSet(LogFacts(w, e, log)) ensures k in BonusBands(w, e, log) {
      var f :| f in LogFacts(w, e, log) && k in f.bonus;
      var c := FactOfLog(w, e, log, f);
      FactText(w, e, c);
    }
    forall k | k in BonusBands(w, e, log) ensures k in BonusSet(LogFacts(w, e, log)) {
      var c :| c in LogCredits(w, e, log) && EqualFold(c.call, e.rules.bonusCall) && ToUpper(c.band) == k;
      FactInLog(w, e, log, c);
      FactText(w, e, c);
    }
  }

  /** The tally of a log, read from its credits. */
  lemma TallyReads(w: World, e: Event, log: seq<Qso>)
    requires Sound(w, e)
    ensures var t := LogTally(w, e, log);
      && t.mults == Earned(w, e, log) && NoOperatedKey(t.mults)
      && forall county :: CountOf(t.contacts, county) == |FromCounty(w, e, log, county)|
                          && (county in t.contacts <==> FromCounty(w, e, log, county) != {})
  {
    hide LogTally, LogCredits, Sound, CreditKey, MultiplierKeys, SentFrom, FromCounty, LogFacts, NoOperatedKey, IsCode;
    LogTallyFacts(w, e, log);
    EarnedIsSet(w, e, log);
    forall county ensures SentFrom(LogFacts(w, e, log), county) == FromCounty(w, e, log, county) {
      FromCountyIsSentFrom(w, e, log, county);
    }
  }

  lemma EarnedIsSet(w: World, e: Event, log: seq<Qso>)
    ensures MultSet(LogFacts(w, e, log)) == Earned(w, e, log)
  {
    hide LogCredits, Facts, MultiplierKeys;
    FactSets(w, e, LogCredits(w, e, log));
  }

  lemma SentCountyIsCounty(w: World, e: Event, log: seq<Qso>, county: string)
    requires ValidEvent(e) && FromCounty(w, e, log, county) != {}
    ensures county in e.counties
  {
    hide LogCredits, ContactCredits, IsCredit, ValidEvent, CreditKey, Sent;
    var c :| c in LogCredits(w, e, log) && county in Sent(w, e, c).counties;
    var q := LogMember(w, e, log, c);
    ContactIsCredits(w, e, q, c);
    OneCounty(w, e, c);
    FactText(w, e, c);
  }

  lemma ActivatedIsReached(w: World, e: Event, log: seq<Qso>)
    requires Sound(w, e)
    ensures Reached(e, LogTally(w, e, log).contacts) == Activated(w, e, log)
  {
    hide LogTally, FromCounty, Unambiguous, PlainNames, Earned, NoOperatedKey;
    TallyReads(w, e, log);
    var contacts := LogTally(w, e, log).contacts;
    forall county ensures county in Reached(e, contacts) <==> county in Activated(w, e, log) {
      assert CountOf(contacts, county) == |FromCounty(w, e, log, county)|;
      if FromCounty(w, e, log, county) != {} { SentCountyIsCounty(w, e, log, county); }
    }
  }

  lemma ExtraIsOperated(w: World, e: Event, log: seq<Qso>, entry: Entry)
    requires Sound(w, e)
    ensures var t := LogTally(w, e, log); |FinalMults(e, t, entry)| == |Earned(w, e, log)| + |Extra(w, e, log, entry)|
  {
    hide LogTally, FromCounty, Sound, Earned, Activated, Reached, OperatedKeys, NoOperatedKey;
    TallyReads(w, e, log);
    ActivatedIsReached(w, e, log);
    var t := LogTally(w, e, log);
    forall county ensures HasCounty(t.mults, county) <==> !NoKeyNames(t.mults, county) { KeyNames(t.mults, county); }
    if IsMobile(entry) && e.rules.mobileMultiplier {
      assert Operated(e, t.mults, t.contacts) == Extra(w, e, log, entry);
      FinalMultsCount(t.mults, Operated(e, t.mults, t.contacts));
    }
  }

  lemma KeyNames(keys: set<string>, county: string)
    ensures HasCounty(keys, county) <==> !NoKeyNames(keys, county)
  {
    assert forall k :: HasPrefix(k, "county:" + county + "|") <==> "county:" + county + "|" <= k;
  }

  /** The factor listed for a declared power, that of HIGH for a blank one, and 0 for one that is not listed. */
  ghost predicate ListedFactor(e: Event, power: string, factor: int) {
    && (TrimSpace(power) != "" && power in e.rules.powerFactors ==> factor == e.rules.powerFactors[power])
    && (TrimSpace(power) == "" && "HIGH" in e.rules.powerFactors ==> factor == e.rules.powerFactors["HIGH"])
    && ((if TrimSpace(power) == "" then "HIGH" else power) !in e.rules.powerFactors ==> factor == 0)
  }

  lemma OffListScore(w: World, e: Event, log: seq<Qso>, entry: Entry)
    requires ValidEvent(e) && OneStation(e, log, false)
    ensures var t, out := LogTally(w, e, log), ScoreOf(w, e, log, entry);
      out == ContestScore(t.points, Capped(e, |FinalMults(e, t, entry)|), Bonus(e, t, entry), PowerFactor(e, entry))
  {
    hide TallyOf, LogCredits, KeysOfCredits, IsSpecial, ValidEvent, FactOf, OneStation, FinalMults, Bonus, PowerFactor, Capped;
    assert e.rules.points >= 1 by { SomePoints(e); }
    PointsOfLog(w, e, log);
    FactStations(w, e, log, false);
    SpecialTally(e.rules.points, LogFacts(w, e, log), false);
  }

  /** Off the QSO-only list: points go by distinct credit keys, multipliers by distinct keys and operated
      counties up to the cap, and the factor is the one listed for the declared power. */
  lemma PlainFigures(w: World, e: Event, log: seq<Qso>, entry: Entry)
    requires Sound(w, e) && OneStation(e, log, false)
    ensures var out := ScoreOf(w, e, log, entry);
      && out.qsoPoints == e.rules.points * |set c | c in LogCredits(w, e, log) :: CreditKey(w, e, c)|
      && (var n := |Earned(w, e, log)| + |Extra(w, e, log, entry)|;
          out.multipliers == if e.rules.multiplierCap != 0 && n > e.rules.multiplierCap then e.rules.multiplierCap else n)
      && ListedFactor(e, entry.power, out.powerFactor)
      && out.Total() == out.qsoPoints * out.multipliers * (if out.powerFactor == 0 then 1 else out.powerFactor) + out.bonusPoints
  {
    hide LogTally, LogCredits, CreditKey, Unambiguous, PlainNames, OneStation, FinalMults, Bonus, TrimSpace, Earned, Extra, ScoreOf;
    OffListScore(w, e, log, entry);
    PointsOfLog(w, e, log);
    ExtraIsOperated(w, e, log, entry);
  }

  /** The bonus: one per band the bonus station was worked on, and one per activated county of a mobile or rover. */
  lemma PlainBonus(w: World, e: Event, log: seq<Qso>, entry: Entry)
    requires Sound(w, e) && OneStation(e, log, false) && BonusCalls(e, log)
    ensures ScoreOf(w, e, log, entry).bonusPoints
         == e.rules.bonusPoints * |BonusBands(w, e, log)|
            + if entry.category == "MOBILE" || entry.category == "ROVER" then e.rules.mobileBonus * |Activated(w, e, log)| else 0
  {
    hide LogTally, LogCredits, Sound, OneStation, BonusCalls, FinalMults, PowerFactor, Capped, BonusBands, Activated, Reached, ScoreOf;
    assert ValidEvent(e) by { SoundValid(w, e); }
    hide ValidEvent;
    OffListScore(w, e, log, entry);
    BonusReads(w, e, log);
    ActivatedIsReached(w, e, log);
  }

  lemma SoundValid(w: World, e: Event)
    requires Sound(w, e)
    ensures ValidEvent(e)
  {
  }

  lemma BonusReads(w: World, e: Event, log: seq<Qso>)
    requires Sound(w, e) && OneStation(e, log, false) && BonusCalls(e, log)
    ensures e.rules.bonusPoints != 0 ==> LogTally(w, e, log).bonus == BonusBands(w, e, log)
  {
    hide TallyOf, LogCredits, Facts, Sound, OneStation, BonusCalls, BonusBands, BonusSet, MultSet, KeySet, ContactsMean, NoOperatedKey, IsCode;
    if e.rules.bonusPoints != 0 {
      ReadTallyFacts(w, e, ForScore, log, false);
      assert ReadFacts(w, e, ForScore, log) == LogFacts(w, e, log);
      BonusBandsAreSet(w, e, log);
    }
  }

  /** On the QSO-only list: one point per distinct key, one multiplier and no bonus once the log holds a
      credit; nothing before that. */
  lemma QsoOnlyFigures(w: World, e: Event, log: seq<Qso>, entry: Entry)
    requires ValidEvent(e) && OneStation(e, log, true)
    ensures var out, keys := ScoreOf(w, e, log, entry), set c | c in LogCredits(w, e, log) :: CreditKey(w, e, c);
      && (LogCredits(w, e, log) != [] ==> out == ContestScore(|keys|, 1, 0, 1))
      && (LogCredits(w, e, log) == [] ==> out == ContestScore(0, 0, 0, out.powerFactor) && ListedFactor(e, entry.power, out.powerFactor))
      && out.Total() == |keys|
  {
    hide TallyOf, LogCredits, IsSpecial, ValidEvent, FactOf, OneStation, FinalMults, Bonus, Capped, CreditKey, TrimSpace;
    assert e.rules.points >= 1 by { SomePoints(e); }
    PointsOfLog(w, e, log);
    FactStations(w, e, log, true);
    SpecialTally(e.rules.points, LogFacts(w, e, log), true);
    Unscale(|KeysOfCredits(w, e, LogCredits(w, e, log))|, e.rules.points);
    if LogCredits(w, e, log) == [] { EmptyScore(w, e, log, entry); }
  }

  lemma EmptyScore(w: World, e: Event, log: seq<Qso>, entry: Entry)
    requires ValidEvent(e) && LogCredits(w, e, log) == []
    ensures var t := LogTally(w, e, log); Capped(e, |FinalMults(e, t, entry)|) == 0 && Bonus(e, t, entry) == 0
  {
    hide LogCredits;
    assert LogTally(w, e, log) == EMPTY_TALLY;
    assert Operated(e, {}, map[]) == {} && Reached(e, map[]) == {};
    assert OperatedKeys({}) == {};
  }

  // ---------- The live duplicate check ----------

  /** A prior contact counts against a candidate: made in the event, not the contact being edited, not before the
      session, with the same call and band up to case. */
  ghost predicate CountsAgainst(e: Event, p: Qso, q: Qso, exclude: int, since: Option<int>) {
    && (exists x :: x in e.rules.periods && x.start <= p.time && p.time < x.end)
    && (exclude == 0 || p.id != exclude)
    && (forall t :: since == Some(t) ==> p.time >= t)
    && ToUpper(p.call) == ToUpper(q.call) && ToUpper(p.band) == ToUpper(q.band)
  }

  /** A contact that counts against the candidate earned the key. */
  ghost predicate EarnedBefore(w: World, e: Event, q: Qso, log: seq<Qso>, exclude: int, since: Option<int>, key: string) {
    exists p, d :: p in log && CountsAgainst(e, p, q, exclude, since) && d in CreditsOf(w, e, p) && CreditKey(w, e, d) == key
  }

  /** The check flags a candidate that has credits, all of whose keys were earned before. */
  lemma DupeMeans(w: World, e: Event, q: Qso, log: seq<Qso>, exclude: int, since: Option<int>)
    ensures IsDupe(w, e, q, log, exclude, since)
        <==> CreditsOf(w, e, q) != [] && forall c <- CreditsOf(w, e, q) :: EarnedBefore(w, e, q, log, exclude, since, CreditKey(w, e, c))
  {
    hide Credits, CreditKey, PriorKeys, EarnedBefore;
    forall c | c in CreditsOf(w, e, q)
      ensures CreditKey(w, e, c) in PriorKeys(w, e, q, log, exclude, since) <==> EarnedBefore(w, e, q, log, exclude, since, CreditKey(w, e, c))
    {
      PriorKeyMeans(w, e, q, log, exclude, since, CreditKey(w, e, c));
    }
  }

  lemma PriorKeyMeans(w: World, e: Event, q: Qso, log: seq<Qso>, exclude: int, since: Option<int>, key: string)
    ensures key in PriorKeys(w, e, q, log, exclude, since) <==> EarnedBefore(w, e, q, log, exclude, since, key)
  {
    hide Credits, CreditKey, Considered, SameSlot, CountsAgainst;
    forall p ensures Considered(e, p, exclude, since) && SameSlot(p, q) <==> CountsAgainst(e, p, q, exclude, since) {
      CountsMeans(e, p, q, exclude, since);
    }
  }

  lemma CountsMeans(e: Event, p: Qso, q: Qso, exclude: int, since: Option<int>)
    ensures Considered(e, p, exclude, since) && SameSlot(p, q) <==> CountsAgainst(e, p, q, exclude, since)
  {
    hide ToUpper;
    if x :| x in e.rules.periods && x.start <= p.time && p.time < x.end {
      var i :| 0 <= i < |e.rules.periods| && e.rules.periods[i] == x;
    }
  }
}
