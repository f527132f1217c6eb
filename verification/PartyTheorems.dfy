/** The party score is a monotone function of the set of credit keys, and the
    live duplicate and new-multiplier checks agree with it. */
module PartyTheorems {
  import opened Text
  import opened PartyRules
  import opened PartyCredits
  import opened PartyTally
  import opened PartyScore

  // ---------- Logs the theorems speak about ----------

  /** Settings and country data under which credit keys are unambiguous. */
  ghost predicate Sound(w: World, e: Event) {
    ValidEvent(e) && Unambiguous(e) && PlainNames(w)
  }

  /** Such settings exist. */
  lemma SoundSettings()
    ensures exists w, e :: Sound(w, e) && e.counties != []
  {
    hide ValidEvent, Unambiguous;
    var w, e := World(_ => None, _ => false), TwoCounties();
    TwoCountiesValid();
    TwoCountiesClear();
    assert Sound(w, e);
  }

  function TwoCounties(): Event {
    Event(["20M"], ["ADA", "BOI"],
          Rules([], "ID", LocationOnly, 2, false, [CountyMult, StateMult], false, 0, 1, "", 0, 0, 0, false, map[], map[], []), false)
  }

  lemma TwoCountiesValid()
    ensures ValidEvent(TwoCounties())
  {
    hide PostalArea;
  }

  lemma TwoCountiesClear()
    ensures Unambiguous(TwoCounties())
  {
    hide DxReads;
  }

  /** One station's log: every contact agrees on whether the station's own call is on the QSO-only list. */
  ghost predicate OneStation(e: Event, log: seq<Qso>, special: bool) { forall q <- log :: IsSpecial(e, q) == special }

  /** A call that names the bonus station is logged without blanks around it. */
  predicate BonusPlain(e: Event, call: string) { Norm(call) == Norm(e.rules.bonusCall) ==> EqualFold(call, e.rules.bonusCall) }

  /** Either there is no bonus, or its calls are logged plainly. */
  ghost predicate BonusCalls(e: Event, log: seq<Qso>) {
    e.rules.bonusPoints == 0 || forall q <- log :: BonusPlain(e, q.call)
  }

  lemma ContactIsCredits(w: World, e: Event, q: Qso, c: Qso)
    requires ValidEvent(e) && c in ContactCredits(w, e, q)
    ensures IsCredit(w, e, c) && c.station == q.station
    ensures c.call == q.call && c.band == q.band && c.unscored == q.unscored && c.time == q.time
  {
    hide Credits, IsCredit, InPeriod;
    CreditsAreCredits(w, e, q, c);
    CreditFields(w, e, q, c);
  }

  lemma {:induction false} LogMember(w: World, e: Event, log: seq<Qso>, c: Qso) returns (q: Qso)
    requires c in LogCredits(w, e, log)
    ensures q in log && c in ContactCredits(w, e, q)
  {
    hide ContactCredits;
    var n := |log| - 1;
    if c in LogCredits(w, e, log[..n]) {
      q := LogMember(w, e, log[..n], c);
    } else {
      q := log[n];
    }
  }

  lemma {:induction false} LogHasContact(w: World, e: Event, log: seq<Qso>, q: Qso, c: Qso)
    requires q in log && c in ContactCredits(w, e, q)
    ensures c in LogCredits(w, e, log)
  {
    hide ContactCredits;
    var n := |log| - 1;
    if q in log[..n] { LogHasContact(w, e, log[..n], q, c); }
  }

  /** What a theorem reads from a fact: only what the multipliers need, or all that the score needs. */
  datatype Reading = ForMultipliers | ForScore

  function Read(e: Event, r: Reading, f: Fact): Fact {
    match r
    case ForMultipliers => f.(bonus := {}, special := false)
    case ForScore => if e.rules.bonusPoints == 0 then f.(bonus := {}) else f
  }

  function ReadAll(e: Event, r: Reading, fs: seq<Fact>): (gs: seq<Fact>)
    ensures |gs| == |fs| && forall i {:trigger gs[i]} :: 0 <= i < |fs| ==> gs[i] == Read(e, r, fs[i])
  {
    seq(|fs|, i requires 0 <= i < |fs| => Read(e, r, fs[i]))
  }

  /** The logs whose facts agree under a reading. */
  ghost predicate Fits(e: Event, r: Reading, log: seq<Qso>, special: bool) {
    match r
    case ForMultipliers => !special
    case ForScore => OneStation(e, log, special) && BonusCalls(e, log)
  }

  /** The facts of a log. */
  ghost function LogFacts(w: World, e: Event, log: seq<Qso>): seq<Fact> { Facts(w, e, LogCredits(w, e, log)) }

  /** The credit keys a log earns. */
  ghost function LogKeys(w: World, e: Event, log: seq<Qso>): set<string> { KeySet(LogFacts(w, e, log)) }

  ghost function ReadFacts(w: World, e: Event, r: Reading, log: seq<Qso>): seq<Fact> { ReadAll(e, r, LogFacts(w, e, log)) }

  ghost function ReadTally(w: World, e: Event, r: Reading, log: seq<Qso>): Tally { TallyOf(e.rules.points, ReadFacts(w, e, r, log)) }

  lemma {:induction false} ReadingTally(e: Event, r: Reading, fs: seq<Fact>)
    ensures var t, u := TallyOf(e.rules.points, fs), TallyOf(e.rules.points, ReadAll(e, r, fs));
      && u == t.(bonus := u.bonus, allSpecial := u.allSpecial)
      && (r.ForScore? ==> u.allSpecial == t.allSpecial && (e.rules.bonusPoints != 0 ==> u == t))
  {
    if fs != [] {
      var n := |fs| - 1;
      ReadingTally(e, r, fs[..n]);
      assert ReadAll(e, r, fs)[..n] == ReadAll(e, r, fs[..n]);
      hide CountAll;
    }
  }

  lemma ReadingSets(e: Event, r: Reading, fs: seq<Fact>)
    ensures KeySet(ReadAll(e, r, fs)) == KeySet(fs) && MultSet(ReadAll(e, r, fs)) == MultSet(fs)
    ensures forall county :: SentFrom(ReadAll(e, r, fs), county) == SentFrom(fs, county)
  {
    var gs := ReadAll(e, r, fs);
    forall f | f in fs ensures Read(e, r, f) in gs {
      var i :| 0 <= i < |fs| && fs[i] == f;
      assert gs[i] == Read(e, r, f);
    }
    forall g | g in gs ensures exists f :: f in fs && g == Read(e, r, f) {
      var i :| 0 <= i < |gs| && gs[i] == g;
      assert fs[i] in fs;
    }
    ReadKeeps(e, r);
    hide Read;
  }

  lemma ReadKeeps(e: Event, r: Reading)
    ensures forall f :: Read(e, r, f).key == f.key && Read(e, r, f).mults == f.mults && Read(e, r, f).counties == f.counties
  {
  }

  lemma SameKeySameFact(w: World, e: Event, r: Reading, c: Qso, d: Qso, special: bool)
    requires Sound(w, e) && IsCredit(w, e, c) && IsCredit(w, e, d)
    requires FactOf(w, e, c).key == FactOf(w, e, d).key
    requires r.ForScore? ==> IsSpecial(e, c) == special && IsSpecial(e, d) == special
    requires r.ForScore? && e.rules.bonusPoints != 0 ==> BonusPlain(e, c.call) && BonusPlain(e, d.call)
    ensures Read(e, r, FactOf(w, e, c)) == Read(e, r, FactOf(w, e, d))
  {
    hide FactOf, CreditKey, MultiplierKeys, IsCredit, Sent, ToUpper, TrimSpace, ValidEvent, PlainNames, Unambiguous, IsSpecial;
    FactText(w, e, c);
    FactText(w, e, d);
    SameKeySameCredit(w, e, c, d);
    SameBonus(e, c.call, d.call);
  }

  /** Two plain calls of one station both name the bonus station or neither does. */
  lemma SameBonus(e: Event, c: string, d: string)
    requires Norm(c) == Norm(d)
    ensures BonusPlain(e, c) && BonusPlain(e, d) ==> (EqualFold(c, e.rules.bonusCall) <==> EqualFold(d, e.rules.bonusCall))
  {
    FoldIsNorm(c, e.rules.bonusCall);
    FoldIsNorm(d, e.rules.bonusCall);
    hide TrimSpace, ToUpper;
  }

  lemma FoldIsNorm(c: string, b: string)
    ensures EqualFold(c, b) ==> Norm(c) == Norm(b)
  {
    hide TrimSpace, ToUpper;
    TrimUpperCommute(c);
    TrimUpperCommute(b);
  }

  lemma OneCounty(w: World, e: Event, c: Qso)
    requires IsCredit(w, e, c)
    ensures |FactOf(w, e, c).counties| <= 1 && forall x <- FactOf(w, e, c).counties :: x in e.counties
  {
    ParsedCounties(w, e, Sent(w, e, c));
    hide Exchange, CreditKey, MultiplierKeys, Sent, Parsed, IsCredit;
  }

  lemma ParsedCounties(w: World, e: Event, x: PartyExchange)
    requires Parsed(w, e, x)
    ensures |x.counties| <= 1 && forall c <- x.counties :: c in e.counties
  {
    hide ParseLocation;
  }

  /** The credits of a log that a reading fits. */
  ghost predicate GoodCredits(w: World, e: Event, r: Reading, cs: seq<Qso>, special: bool) {
    forall c <- cs :: IsCredit(w, e, c)
      && (r.ForScore? ==> IsSpecial(e, c) == special && (e.rules.bonusPoints != 0 ==> BonusPlain(e, c.call)))
  }

  lemma LogIsCredits(w: World, e: Event, r: Reading, log: seq<Qso>, special: bool)
    requires ValidEvent(e) && Fits(e, r, log, special)
    ensures GoodCredits(w, e, r, LogCredits(w, e, log), special)
  {
    hide IsCredit, ContactCredits, BonusPlain, ValidEvent;
    forall c | c in LogCredits(w, e, log)
      ensures IsCredit(w, e, c) && (r.ForScore? ==> IsSpecial(e, c) == special && (e.rules.bonusPoints != 0 ==> BonusPlain(e, c.call)))
    {
      var q := LogMember(w, e, log, c);
      ContactIsCredits(w, e, q, c);
    }
  }

  lemma FactsConsistent(w: World, e: Event, r: Reading, cs: seq<Qso>, special: bool)
    requires Sound(w, e) && GoodCredits(w, e, r, cs, special) && (r.ForMultipliers? ==> !special)
    ensures Consistent(ReadAll(e, r, Facts(w, e, cs)), special)
    ensures forall f <- ReadAll(e, r, Facts(w, e, cs)), x <- f.counties :: x in e.counties
  {
    hide IsCredit, Sound, IsSpecial, FactOf, BonusPlain, Read;
    var gs := ReadAll(e, r, Facts(w, e, cs));
    ReadKeeps(e, r);
    forall f, g | f in gs && g in gs && f.key == g.key ensures f == g {
      var i :| 0 <= i < |gs| && gs[i] == f;
      var j :| 0 <= j < |gs| && gs[j] == g;
      assert cs[i] in cs && cs[j] in cs;
      SameKeySameFact(w, e, r, cs[i], cs[j], special);
    }
    forall f | f in gs ensures |f.counties| <= 1 && f.special == special && forall x <- f.counties :: x in e.counties {
      var i :| 0 <= i < |gs| && gs[i] == f;
      OneCounty(w, e, cs[i]);
      FactText(w, e, cs[i]);
      ReadSpecial(e, r, FactOf(w, e, cs[i]));
    }
  }

  lemma ReadSpecial(e: Event, r: Reading, f: Fact)
    ensures Read(e, r, f).special == (r.ForScore? && f.special)
  {
  }

  lemma LogsConsistent(w: World, e: Event, r: Reading, a: seq<Qso>, b: seq<Qso>, special: bool)
    requires Sound(w, e) && Fits(e, r, a, special) && Fits(e, r, b, special)
    ensures Consistent(ReadFacts(w, e, r, a) + ReadFacts(w, e, r, b), special)
    ensures forall f <- ReadFacts(w, e, r, b), x <- f.counties :: x in e.counties
  {
    hide IsCredit, IsSpecial, FactOf, LogCredits, Facts, Read, BonusPlain, ValidEvent, Unambiguous, PlainNames;
    var c, d := LogCredits(w, e, a), LogCredits(w, e, b);
    LogIsCredits(w, e, r, a, special);
    LogIsCredits(w, e, r, b, special);
    assert GoodCredits(w, e, r, c + d, special);
    FactsConsistent(w, e, r, c + d, special);
    FactsConsistent(w, e, r, d, special);
    FactsConcat(w, e, c, d);
    assert ReadAll(e, r, Facts(w, e, c) + Facts(w, e, d)) == ReadAll(e, r, Facts(w, e, c)) + ReadAll(e, r, Facts(w, e, d));
  }

  // ---------- The score is a function of the key set ----------

  lemma ReadScore(w: World, e: Event, log: seq<Qso>, entry: Entry)
    requires e.rules.points >= 1
    ensures ScoreOf(w, e, log, entry) == Finish(e, ReadTally(w, e, ForScore, log), entry)
  {
    hide TallyOf, Facts, LogCredits, ReadAll, Reached, Operated, OperatedKeys, Capped, PowerFactor;
    ReadingTally(e, ForScore, LogFacts(w, e, log));
  }

  /** Logs that earn the same credit keys have the same score. */
  lemma ScoreDependsOnKeys(w: World, e: Event, a: seq<Qso>, b: seq<Qso>, special: bool, entry: Entry)
    requires Sound(w, e) && OneStation(e, a, special) && OneStation(e, b, special) && BonusCalls(e, a) && BonusCalls(e, b)
    requires LogKeys(w, e, a) == LogKeys(w, e, b)
    ensures ScoreOf(w, e, a, entry) == ScoreOf(w, e, b, entry)
  {
    hide Finish, TallyOf, Facts, LogCredits, ReadAll, OneStation, BonusCalls, KeySet, Unambiguous, PlainNames;
    LogsConsistent(w, e, ForScore, a, b, special);
    ReadingSets(e, ForScore, LogFacts(w, e, a));
    ReadingSets(e, ForScore, LogFacts(w, e, b));
    SameKeysSameTally(e.rules.points, ReadFacts(w, e, ForScore, a), ReadFacts(w, e, ForScore, b), special);
    ReadScore(w, e, a, entry);
    ReadScore(w, e, b, entry);
  }

  lemma MembersKeys(w: World, e: Event, a: seq<Qso>, b: seq<Qso>)
    requires forall q <- a :: q in b
    ensures LogKeys(w, e, a) <= LogKeys(w, e, b)
  {
    hide FactOf, LogCredits, ContactCredits;
    var fs, gs := LogFacts(w, e, a), LogFacts(w, e, b);
    forall k | k in LogKeys(w, e, a) ensures k in LogKeys(w, e, b) {
      var f :| f in fs && f.key == k;
      var i :| 0 <= i < |fs| && fs[i] == f;
      var c := LogCredits(w, e, a)[i];
      var q := LogMember(w, e, a, c);
      LogHasContact(w, e, b, q, c);
      var j :| 0 <= j < |LogCredits(w, e, b)| && LogCredits(w, e, b)[j] == c;
      assert gs[j] == f;
    }
  }

  /** Reordering a log or repeating its contacts changes nothing. */
  lemma ReorderingAndRepeats(w: World, e: Event, a: seq<Qso>, b: seq<Qso>, special: bool, entry: Entry)
    requires Sound(w, e) && OneStation(e, a, special) && BonusCalls(e, a)
    requires forall q :: q in a <==> q in b
    ensures ScoreOf(w, e, a, entry) == ScoreOf(w, e, b, entry)
  {
    hide Sound, ScoreOf, LogKeys, BonusPlain, IsSpecial;
    MembersKeys(w, e, a, b);
    MembersKeys(w, e, b, a);
    ScoreDependsOnKeys(w, e, a, b, special, entry);
  }

  // ---------- More contacts never lower the total ----------

  lemma KeyStart(e: Event, keys: seq<string>, band: string)
    requires NoOperatedKey(set k | k in keys)
    ensures NoOperatedKey(set k | k in OnBand(e, keys, band))
  {
    hide ToUpper;
    forall k | k in OnBand(e, keys, band) ensures k == "" || k[0] != 'o' {
      var i :| 0 <= i < |keys| && OnBand(e, keys, band)[i] == k;
      assert keys[i] in keys;
    }
  }

  lemma CountyKeysStart(counties: seq<string>)
    ensures NoOperatedKey(set k | k in CountyKeys(counties))
  {
    forall k | k in CountyKeys(counties) ensures k[..1] == "c" {
      var i :| 0 <= i < |counties| && CountyKeys(counties)[i] == k;
    }
  }

  lemma {:induction false} HomeKeysStart(w: World, e: Event, kinds: seq<HomeKind>, received: PartyExchange, call: string)
    ensures NoOperatedKey(set k | k in HomeKeys(w, e, kinds, received, call))
  {
    if kinds != [] {
      hide PostalArea, PartyArea, DxEntity;
      HomeKeysStart(w, e, kinds[1..], received, call);
      CountyKeysStart(received.counties);
    }
  }

  lemma MultsStart(w: World, e: Event, c: Qso)
    ensures NoOperatedKey(FactOf(w, e, c).mults)
  {
    hide Exchange, CreditKey;
    var sent, received := Sent(w, e, c), Received(w, e, c);
    HomeKeysStart(w, e, e.rules.homeMultipliers, received, c.call);
    CountyKeysStart(received.counties);
    KeyStart(e, if |sent.counties| == 0 then CountyKeys(received.counties)
                else HomeKeys(w, e, e.rules.homeMultipliers, received, c.call), c.band);
    hide OnBand, HomeKeys, CountyKeys, NoOperatedKey;
    assert NoOperatedKey({}) by { assert NoOperatedKey(set k | k in CountyKeys([])) by { CountyKeysStart([]); } assert CountyKeys([]) == []; }
  }

  lemma LogMultsStart(w: World, e: Event, log: seq<Qso>)
    ensures NoOperatedKey(MultSet(LogFacts(w, e, log)))
  {
    var fs := LogFacts(w, e, log);
    hide FactOf, LogCredits;
    forall k | k in MultSet(fs) ensures k == "" || k[0] != 'o' {
      var f :| f in fs && k in f.mults;
      var i :| 0 <= i < |fs| && fs[i] == f;
      MultsStart(w, e, LogCredits(w, e, log)[i]);
    }
  }

  lemma ContactsAreCodes(e: Event, fs: seq<Fact>, contacts: map<string, int>)
    requires ValidEvent(e) && ContactsMean(fs, contacts)
    requires forall f <- fs, x <- f.counties :: x in e.counties
    ensures forall c <- contacts :: IsCode(c)
  {
    forall c | c in contacts ensures IsCode(c) {
      assert SentFrom(fs, c) != {};
      var f :| f in fs && c in f.counties;
      CountyIsCode(e, c);
    }
  }

  lemma CountyIsCode(e: Event, c: string)
    requires ValidEvent(e) && c in e.counties
    ensures IsCode(c)
  {
    var i :| 0 <= i < |e.counties| && e.counties[i] == c;
  }

  lemma ReadTallyFacts(w: World, e: Event, r: Reading, log: seq<Qso>, special: bool)
    requires Sound(w, e) && Fits(e, r, log, special)
    ensures Means(e.rules.points, ReadFacts(w, e, r, log), special, ReadTally(w, e, r, log))
    ensures NoOperatedKey(ReadTally(w, e, r, log).mults)
    ensures forall c <- ReadTally(w, e, r, log).contacts :: IsCode(c)
  {
    hide TallyOf, LogFacts, ReadAll, Consistent, ContactsMean, MultSet, KeySet, BonusSet, NoOperatedKey, IsCode,
      Unambiguous, PlainNames, Fits;
    var fs := ReadFacts(w, e, r, log);
    LogsConsistent(w, e, r, log, log, special);
    ConsistentParts(fs, fs, special);
    TallyMeans(e.rules.points, fs, special);
    ReadingSets(e, r, LogFacts(w, e, log));
    LogMultsStart(w, e, log);
    ContactsAreCodes(e, fs, ReadTally(w, e, r, log).contacts);
  }

  /** What the tally of any log holds, whoever sent it and however its calls are written. */
  lemma LogTallyFacts(w: World, e: Event, log: seq<Qso>)
    requires Sound(w, e)
    ensures var t := LogTally(w, e, log);
      && t.mults == MultSet(LogFacts(w, e, log)) && t.hasCredit == (LogCredits(w, e, log) != [])
      && ContactsMean(LogFacts(w, e, log), t.contacts)
      && NoOperatedKey(t.mults) && forall c <- t.contacts :: IsCode(c)
  {
    hide TallyOf, Facts, LogCredits, ReadAll, MultSet, KeySet, BonusSet, NoOperatedKey, IsCode, Sound, SentFrom;
    ReadTallyFacts(w, e, ForMultipliers, log, false);
    ReadingTally(e, ForMultipliers, LogFacts(w, e, log));
    ReadingSets(e, ForMultipliers, LogFacts(w, e, log));
  }

  /** The total of a QSO-only station is its number of keys. */
  lemma SpecialTotal(e: Event, fs: seq<Fact>, t: Tally, entry: Entry)
    requires e.rules.points >= 1 && Means(e.rules.points, fs, true, t) && t.allSpecial
    ensures Finish(e, t, entry).Total() == |KeySet(fs)|
  {
    hide Operated, OperatedKeys, PowerFactor, Capped;
    if fs == [] {
      NoContacts(t.contacts);
      assert KeySet(fs) == {} && BonusSet(fs) == {};
      assert Reached(e, t.contacts) == {};
    } else {
      Unscale(|KeySet(fs)|, e.rules.points);
    }
  }

  lemma NoContacts(contacts: map<string, int>)
    requires ContactsMean([], contacts)
    ensures contacts == map[]
  {
    forall county ensures county !in contacts { assert SentFrom([], county) == {}; }
  }

  lemma Unscale(n: nat, k: int)
    requires k >= 1
    ensures n * k / k == n
  {
    var x := n * k;
    var q, r := x / k, x % k;
    assert x == q * k + r;
    NoMultiple(n, q, k);
  }

  /** Two multiples of k less than k apart are the same. */
  lemma NoMultiple(n: nat, q: nat, k: nat)
    requires 0 <= n * k - q * k < k
    ensures n == q
  {
    if n > q { OneMore(q, k); Scale(q + 1, n, k); }
    if n < q { OneMore(n, k); Scale(n + 1, q, k); }
  }

  /** A log that earns at least the keys of another of its station scores at least as much. */
  lemma MoreKeysNoLess(w: World, e: Event, a: seq<Qso>, b: seq<Qso>, special: bool, entry: Entry)
    requires Sound(w, e) && OneStation(e, a, special) && OneStation(e, b, special) && BonusCalls(e, a) && BonusCalls(e, b)
    requires LogKeys(w, e, a) <= LogKeys(w, e, b)
    ensures ScoreOf(w, e, a, entry).Total() <= ScoreOf(w, e, b, entry).Total()
  {
    hide Finish, TallyOf, LogFacts, ReadAll, Consistent, ContactsMean, KeySet, MultSet, BonusSet, Grows, NoOperatedKey,
      OneStation, BonusCalls, Unambiguous, PlainNames, IsCode, ContestScore.Total;
    var fs, gs := ReadFacts(w, e, ForScore, a), ReadFacts(w, e, ForScore, b);
    ReadingSets(e, ForScore, LogFacts(w, e, a));
    ReadingSets(e, ForScore, LogFacts(w, e, b));
    ReadTallyFacts(w, e, ForScore, a, special);
    ReadTallyFacts(w, e, ForScore, b, special);
    ReadScore(w, e, a, entry);
    ReadScore(w, e, b, entry);
    if special {
      SpecialTotal(e, fs, ReadTally(w, e, ForScore, a), entry);
      SpecialTotal(e, gs, ReadTally(w, e, ForScore, b), entry);
      SubsetSize(KeySet(fs), KeySet(gs));
    } else {
      LogsConsistent(w, e, ForScore, a, b, false);
      SubsetTally(e.rules.points, fs, gs, false);
      TotalGrows(e, ReadTally(w, e, ForScore, a), ReadTally(w, e, ForScore, b), entry);
    }
  }

  /** Adding any contact anywhere in a station's log never lowers the claimed total. */
  lemma AddingNeverLowers(w: World, e: Event, before: seq<Qso>, q: Qso, after: seq<Qso>, special: bool, entry: Entry)
    requires Sound(w, e) && OneStation(e, before + [q] + after, special) && BonusCalls(e, before + [q] + after)
    ensures ScoreOf(w, e, before + after, entry).Total() <= ScoreOf(w, e, before + [q] + after, entry).Total()
  {
    hide Sound, ScoreOf, LogKeys, BonusPlain, IsSpecial;
    var a, b := before + after, before + [q] + after;
    assert forall p <- a :: p in b;
    MembersKeys(w, e, a, b);
    MoreKeysNoLess(w, e, a, b, special, entry);
  }

  // ---------- County-line expansion ----------

  lemma {:induction false} CreditsOfCredits(w: World, e: Event, cs: seq<Qso>)
    requires forall c <- cs :: ContactCredits(w, e, c) == [c]
    ensures LogCredits(w, e, cs) == cs
  {
    hide ContactCredits;
    if cs != [] {
      CreditsOfCredits(w, e, cs[..|cs| - 1]);
      assert cs == cs[..|cs| - 1] + [cs[|cs| - 1]];
    }
  }

  /** Replacing a contact by its credits leaves the credits of the log, and so its score, unchanged. */
  lemma ExpansionKeepsScore(w: World, e: Event, before: seq<Qso>, q: Qso, after: seq<Qso>, entry: Entry)
    requires ValidEvent(e) && NoRegionLine(e)
    requires Credits(w, e, q).Ok?
    ensures LogCredits(w, e, before + Credits(w, e, q).value + after) == LogCredits(w, e, before + [q] + after)
    ensures ScoreOf(w, e, before + Credits(w, e, q).value + after, entry) == ScoreOf(w, e, before + [q] + after, entry)
  {
    hide ContactCredits, Credits, LogCredits, ValidEvent, NoRegionLine;
    var cs := Credits(w, e, q).value;
    CreditsLikeContact(w, e, q);
    LogCreditsConcat(w, e, before + cs, after);
    LogCreditsConcat(w, e, before, cs);
    LogCreditsConcat(w, e, before + [q], after);
    LogCreditsConcat(w, e, before, [q]);
    LogOfOne(w, e, q);
  }

  lemma CreditsLikeContact(w: World, e: Event, q: Qso)
    requires ValidEvent(e) && NoRegionLine(e) && Credits(w, e, q).Ok?
    ensures LogCredits(w, e, Credits(w, e, q).value) == ContactCredits(w, e, q)
  {
    hide Credits, InPeriod, ValidEvent, NoRegionLine, LogCredits, ContactCredits;
    var cs := Credits(w, e, q).value;
    forall c | c in cs ensures ContactCredits(w, e, c) == if Counted(e, q) then [c] else [] {
      CreditExpandsToItself(w, e, q, c);
      CreditFields(w, e, q, c);
      ContactValue(w, e, c);
    }
    if Counted(e, q) { CreditsOfCredits(w, e, cs); } else { NoCredits(w, e, cs); }
    ContactValue(w, e, q);
  }

  lemma ContactValue(w: World, e: Event, q: Qso)
    requires Credits(w, e, q).Ok?
    ensures ContactCredits(w, e, q) == if Counted(e, q) then Credits(w, e, q).value else []
  {
  }

  lemma LogOfOne(w: World, e: Event, q: Qso)
    ensures LogCredits(w, e, [q]) == ContactCredits(w, e, q)
  {
    hide ContactCredits;
    assert [q][..0] == [];
    assert LogCredits(w, e, []) == [];
  }

  lemma {:induction false} NoCredits(w: World, e: Event, cs: seq<Qso>)
    requires forall c <- cs :: ContactCredits(w, e, c) == []
    ensures LogCredits(w, e, cs) == []
  {
    hide ContactCredits;
    if cs != [] { NoCredits(w, e, cs[..|cs| - 1]); }
  }
}
