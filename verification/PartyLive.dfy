/** The live checks made while a contact is being typed, and their agreement with
    the scorer: the duplicate warning and the new-multiplier flag. */
module PartyLive {
  import opened Text
  import opened PartyRules
  import opened PartyCredits
  import opened PartyTally
  import opened PartyScore
  import opened PartyTheorems

  // ---------- The live duplicate check ----------

  predicate Considered(e: Event, p: Qso, exclude: int, since: Option<int>) {
    && InPeriod(e, p.time)
    && !(p.id == exclude && exclude != 0)
    && !(since.Some? && p.time < since.value)
  }

  predicate SameSlot(p: Qso, q: Qso) { EqualFold(p.call, q.call) && EqualFold(p.band, q.band) }

  /** Credits of the prior contacts the duplicate check looks at. */
  ghost function PriorKeys(w: World, e: Event, q: Qso, log: seq<Qso>, exclude: int, since: Option<int>): set<string> {
    set p, c | p in log && Considered(e, p, exclude, since) && SameSlot(p, q)
               && Credits(w, e, p).Ok? && c in Credits(w, e, p).value :: CreditKey(w, e, c)
  }

  ghost predicate IsDupe(w: World, e: Event, q: Qso, log: seq<Qso>, exclude: int, since: Option<int>) {
    && Credits(w, e, q).Ok? && Credits(w, e, q).value != []
    && forall c <- Credits(w, e, q).value :: CreditKey(w, e, c) in PriorKeys(w, e, q, log, exclude, since)
  }

  method KeysOf(w: World, e: Event, cs: seq<Qso>) returns (keys: set<string>)
    ensures keys == set c | c in cs :: CreditKey(w, e, c)
  {
    hide CreditKey;
    keys := {};
    for i := 0 to |cs|
      invariant keys == set c | c in cs[..i] :: CreditKey(w, e, c)
    {
      var key := KeyOf(w, e, cs[i]);
      assert cs[..i + 1] == cs[..i] + [cs[i]];
      keys := keys + {key};
    }
    assert cs[..|cs|] == cs;
  }

  method IsPartyDupe(w: World, e: Event, q: Qso, log: seq<Qso>, exclude: int, since: Option<int>) returns (dupe: bool)
    ensures dupe == IsDupe(w, e, q, log, exclude, since)
  {
    hide Credits, CreditKey, InPeriod, Considered, SameSlot;
    var credits := ExpandCredits(w, e, q);
    if credits.Err? { return false; }
    if |credits.value| == 0 { return false; }
    var seen: set<string> := {};
    for i := 0 to |log|
      invariant seen == PriorKeys(w, e, q, log[..i], exclude, since)
    {
      assert log[..i + 1] == log[..i] + [log[i]];
      if Considered(e, log[i], exclude, since) && SameSlot(log[i], q) {
        var prior := ExpandCredits(w, e, log[i]);
        if prior.Ok? {
          var keys := KeysOf(w, e, prior.value);
          seen := seen + keys;
        }
      }
    }
    assert log[..|log|] == log;
    var own := KeysOf(w, e, credits.value);
    return own <= seen;
  }

  // ---------- The live new-multiplier flag ----------

  /** Multiplier keys a contact's credits would earn. */
  ghost function OwnMults(w: World, e: Event, q: Qso): set<string> {
    if Credits(w, e, q).Ok? then MultsOfCredits(w, e, Credits(w, e, q).value) else {}
  }

  ghost function MultsOfCredits(w: World, e: Event, cs: seq<Qso>): set<string> {
    set c, k | c in cs && k in MultiplierKeys(w, e, c) :: k
  }

  method MultsOf(w: World, e: Event, cs: seq<Qso>) returns (mults: set<string>)
    ensures mults == MultsOfCredits(w, e, cs)
  {
    hide MultiplierKeys;
    mults := {};
    for i := 0 to |cs|
      invariant mults == MultsOfCredits(w, e, cs[..i])
    {
      var keys := MultKeysOf(w, e, cs[i]);
      assert cs[..i + 1] == cs[..i] + [cs[i]];
      mults := mults + set k | k in keys;
    }
    assert cs[..|cs|] == cs;
  }

  predicate Full(e: Event, n: int) { e.rules.multiplierCap > 0 && n >= e.rules.multiplierCap }

  /** Multiplier keys a log has earned. */
  ghost function SeenMults(w: World, e: Event, log: seq<Qso>): set<string> { MultsOfCredits(w, e, LogCredits(w, e, log)) }

  /** The new-multiplier flag: something new, below the cap. */
  predicate Flag(e: Event, seen: set<string>, own: set<string>) { !(own <= seen) && !Full(e, |seen|) }

  method PartyNewMultiplier(w: World, e: Event, log: seq<Qso>, q: Qso) returns (isNew: bool, worked: bool)
    ensures var seen, own := SeenMults(w, e, log), OwnMults(w, e, q);
            isNew == Flag(e, seen, own) && worked == (own * seen != {})
  {
    hide Credits, Counted;
    var seen: set<string> := {};
    for i := 0 to |log|
      invariant seen == MultsOfCredits(w, e, LogCredits(w, e, log[..i]))
    {
      assert log[..i + 1][..i] == log[..i];
      if Counted(e, log[i]) {
        var credits := ExpandCredits(w, e, log[i]);
        if credits.Ok? {
          var mults := MultsOf(w, e, credits.value);
          MultsConcat(w, e, LogCredits(w, e, log[..i]), credits.value);
          seen := seen + mults;
        }
      }
      MultsConcat(w, e, LogCredits(w, e, log[..i]), ContactCredits(w, e, log[i]));
    }
    assert log[..|log|] == log;
    var credits := ExpandCredits(w, e, q);
    if credits.Err? { return false, false; }
    var own := MultsOf(w, e, credits.value);
    isNew, worked := !(own <= seen), own * seen != {};
    if e.rules.multiplierCap > 0 && |seen| >= e.rules.multiplierCap { isNew := false; }
  }

  lemma MultsConcat(w: World, e: Event, a: seq<Qso>, b: seq<Qso>)
    ensures MultsOfCredits(w, e, a + b) == MultsOfCredits(w, e, a) + MultsOfCredits(w, e, b)
  {
    hide MultiplierKeys;
    assert forall c :: c in a + b <==> c in a || c in b;
  }

  // ---------- They agree with the scorer ----------

  lemma FactSets(w: World, e: Event, cs: seq<Qso>)
    ensures KeySet(Facts(w, e, cs)) == set c | c in cs :: CreditKey(w, e, c)
    ensures MultSet(Facts(w, e, cs)) == MultsOfCredits(w, e, cs)
  {
    var fs := Facts(w, e, cs);
    hide CreditKey, MultiplierKeys, Sent, IsSpecial, EqualFold, ToUpper;
    assert forall f <- fs :: exists c :: c in cs && f == FactOf(w, e, c);
    forall c | c in cs ensures FactOf(w, e, c) in fs {
      var i :| 0 <= i < |cs| && cs[i] == c;
      assert fs[i] == FactOf(w, e, c);
    }
    assert forall k <- (set c | c in cs :: CreditKey(w, e, c)) :: k in KeySet(fs) by {
      forall c | c in cs ensures CreditKey(w, e, c) in KeySet(fs) { assert FactOf(w, e, c) in fs; }
    }
    forall c, k | c in cs && k in MultiplierKeys(w, e, c) ensures k in MultSet(fs) {
      assert FactOf(w, e, c) in fs && k in FactOf(w, e, c).mults;
    }
  }

  lemma LogWithContact(w: World, e: Event, log: seq<Qso>, q: Qso)
    requires Credits(w, e, q).Ok? && Counted(e, q)
    ensures LogCredits(w, e, log + [q]) == LogCredits(w, e, log) + Credits(w, e, q).value
  {
    LogCreditsConcat(w, e, log, [q]);
    LogOfOne(w, e, q);
    hide LogCredits, Credits;
  }

  /** The contacts a duplicate check looks at. */
  ghost function View(e: Event, log: seq<Qso>, exclude: int, since: Option<int>): (view: seq<Qso>)
    ensures forall p :: p in view <==> p in log && Considered(e, p, exclude, since)
  {
    if log == [] then []
    else View(e, log[..|log| - 1], exclude, since)
         + if Considered(e, log[|log| - 1], exclude, since) then [log[|log| - 1]] else []
  }

  lemma PriorIsEarned(w: World, e: Event, q: Qso, log: seq<Qso>, exclude: int, since: Option<int>, key: string)
    requires (forall p <- log :: !p.unscored) && key in PriorKeys(w, e, q, log, exclude, since)
    ensures key in KeysOfCredits(w, e, LogCredits(w, e, View(e, log, exclude, since)))
  {
    hide CreditKey, Credits, InPeriod;
    var p, d :| p in log && Considered(e, p, exclude, since) && SameSlot(p, q)
                && Credits(w, e, p).Ok? && d in Credits(w, e, p).value && CreditKey(w, e, d) == key;
    LogHasContact(w, e, View(e, log, exclude, since), p, d);
    hide LogCredits, View;
  }

  /** The prior contacts of the candidate's station write its call as the candidate does. */
  ghost predicate OneSpelling(q: Qso, log: seq<Qso>) {
    forall p <- log :: Norm(p.call) == Norm(q.call) ==> EqualFold(p.call, q.call)
  }

  lemma EarnedIsPrior(w: World, e: Event, q: Qso, log: seq<Qso>, exclude: int, since: Option<int>, c: Qso)
    requires ValidEvent(e) && PlainNames(w) && OneSpelling(q, log) && IsCredit(w, e, c) && c.call == q.call && c.band == q.band
    requires CreditKey(w, e, c) in KeysOfCredits(w, e, LogCredits(w, e, View(e, log, exclude, since)))
    ensures CreditKey(w, e, c) in PriorKeys(w, e, q, log, exclude, since)
  {
    hide CreditKey, IsCredit, Credits, InPeriod, LogCredits, View, ValidEvent, PlainNames, ToUpper, TrimSpace;
    var view := View(e, log, exclude, since);
    var d :| d in LogCredits(w, e, view) && CreditKey(w, e, d) == CreditKey(w, e, c);
    var p := LogMember(w, e, view, d);
    ContactIsCredits(w, e, p, d);
    SameKeySameSlot(w, e, d, c);
  }

  lemma PriorKeyEarned(w: World, e: Event, q: Qso, log: seq<Qso>, exclude: int, since: Option<int>, c: Qso)
    requires ValidEvent(e) && PlainNames(w) && OneSpelling(q, log)
    requires (forall p <- log :: !p.unscored) && c in ContactCredits(w, e, q)
    ensures CreditKey(w, e, c) in PriorKeys(w, e, q, log, exclude, since)
            <==> CreditKey(w, e, c) in KeysOfCredits(w, e, LogCredits(w, e, View(e, log, exclude, since)))
  {
    hide CreditKey, IsCredit, ContactCredits, InPeriod, PriorKeys, KeysOfCredits, LogCredits, View, ToUpper, ValidEvent, PlainNames,
      TrimSpace;
    ContactIsCredits(w, e, q, c);
    if CreditKey(w, e, c) in PriorKeys(w, e, q, log, exclude, since) {
      PriorIsEarned(w, e, q, log, exclude, since, CreditKey(w, e, c));
    } else if CreditKey(w, e, c) in KeysOfCredits(w, e, LogCredits(w, e, View(e, log, exclude, since))) {
      EarnedIsPrior(w, e, q, log, exclude, since, c);
    }
  }

  ghost function KeysOfCredits(w: World, e: Event, cs: seq<Qso>): set<string> { set c | c in cs :: CreditKey(w, e, c) }

  lemma KeysConcat(w: World, e: Event, a: seq<Qso>, b: seq<Qso>)
    ensures KeysOfCredits(w, e, a + b) == KeysOfCredits(w, e, a) + KeysOfCredits(w, e, b)
  {
    hide CreditKey;
    assert forall c :: c in a + b <==> c in a || c in b;
  }

  /** Growing a set leaves its scaled size unchanged exactly when nothing new came in. */
  lemma ScaledSize(a: set<string>, b: set<string>, k: int)
    requires k >= 1
    ensures |a + b| * k == |a| * k <==> b <= a
    ensures |a + b| >= |a|
    ensures |a + b| == |a| <==> b <= a
  {
    assert a + b == a + (b - a);
    assert |a + b| == |a| + |b - a|;
    if !(b <= a) {
      assert b - a != {};
      assert |a + b| * k >= (|a| + 1) * k;
    }
  }

  lemma PointsOfLog(w: World, e: Event, log: seq<Qso>)
    ensures LogTally(w, e, log).points == |KeysOfCredits(w, e, LogCredits(w, e, log))| * e.rules.points
    ensures LogTally(w, e, log).hasCredit == (LogCredits(w, e, log) != [])
  {
    hide TallyOf, LogCredits, CreditKey, FactOf;
    TallyPoints(e.rules.points, Facts(w, e, LogCredits(w, e, log)));
    FactSets(w, e, LogCredits(w, e, log));
  }

  /** In a log without /X contacts that spells the candidate's call one way, an in-period contact is
      flagged as a duplicate exactly when it has credits and logging it would add no points. */
  lemma DupeAgrees(w: World, e: Event, q: Qso, log: seq<Qso>, exclude: int, since: Option<int>)
    requires ValidEvent(e) && PlainNames(w) && OneSpelling(q, log)
    requires (forall p <- log :: !p.unscored) && Counted(e, q)
    ensures var view := View(e, log, exclude, since);
            IsDupe(w, e, q, log, exclude, since)
            <==> ContactCredits(w, e, q) != [] && LogTally(w, e, view + [q]).points == LogTally(w, e, view).points
  {
    hide CreditKey, LogCredits, Facts, Credits, TallyOf, PriorKeys, View, InPeriod, PlainNames, OneSpelling, LogTally;
    var view := View(e, log, exclude, since);
    if Credits(w, e, q).Ok? {
      var cs := Credits(w, e, q).value;
      forall c | c in cs
        ensures CreditKey(w, e, c) in PriorKeys(w, e, q, log, exclude, since)
                <==> CreditKey(w, e, c) in KeysOfCredits(w, e, LogCredits(w, e, view))
      {
        PriorKeyEarned(w, e, q, log, exclude, since, c);
      }
      PointsOfLog(w, e, view);
      PointsOfLog(w, e, view + [q]);
      LogWithContact(w, e, view, q);
      KeysConcat(w, e, LogCredits(w, e, view), cs);
      ScaledSize(KeysOfCredits(w, e, LogCredits(w, e, view)), KeysOfCredits(w, e, cs), e.rules.points);
    }
  }

  lemma CappedRise(e: Event, a: set<string>, b: set<string>)
    ensures Capped(e, |a + b|) > Capped(e, |a|) <==> Flag(e, a, b)
  {
    ScaledSize(a, b, 1);
  }

  lemma WithOwnMults(w: World, e: Event, log: seq<Qso>, q: Qso)
    requires Counted(e, q)
    ensures SeenMults(w, e, log + [q]) == SeenMults(w, e, log) + OwnMults(w, e, q)
  {
    hide Credits, Counted, MultiplierKeys;
    if Credits(w, e, q).Ok? {
      LogWithContact(w, e, log, q);
      MultsConcat(w, e, LogCredits(w, e, log), Credits(w, e, q).value);
    } else {
      LogCreditsConcat(w, e, log, [q]);
      LogOfOne(w, e, q);
      assert LogCredits(w, e, log + [q]) == LogCredits(w, e, log);
    }
  }

  lemma TalliesGrow(w: World, e: Event, log: seq<Qso>, q: Qso)
    requires Sound(w, e) && Counted(e, q)
    ensures var t, u := LogTally(w, e, log), LogTally(w, e, log + [q]);
      && t.mults == SeenMults(w, e, log) && u.mults == t.mults + OwnMults(w, e, q)
      && NoOperatedKey(t.mults) && NoOperatedKey(u.mults)
  {
    hide LogTally, LogCredits, Facts, NoOperatedKey, Sound, MultSet, KeySet, ContactsMean, IsCode, MultsOfCredits, Counted;
    LogTallyFacts(w, e, log);
    LogTallyFacts(w, e, log + [q]);
    FactSets(w, e, LogCredits(w, e, log));
    FactSets(w, e, LogCredits(w, e, log + [q]));
    WithOwnMults(w, e, log, q);
  }

  predicate OperatedCounts(e: Event, entry: Entry) { IsMobile(entry) && e.rules.mobileMultiplier }

  /** The capped multiplier count of a log, before the QSO-only rule. */
  ghost function CappedMults(w: World, e: Event, log: seq<Qso>, entry: Entry): int {
    Capped(e, |FinalMults(e, LogTally(w, e, log), entry)|)
  }

  /** The score shows that count, or one once every credit is a QSO-only station's. */
  lemma ScoreMultipliers(w: World, e: Event, log: seq<Qso>, entry: Entry)
    requires e.rules.points >= 1
    ensures var t := LogTally(w, e, log);
      ScoreOf(w, e, log, entry).multipliers == if t.hasCredit && t.allSpecial then 1 else CappedMults(w, e, log, entry)
  {
    hide LogTally, FinalMults, Bonus, PowerFactor;
  }

  /** The score of a station that is not on the QSO-only list shows the count. */
  lemma PlainStationScore(w: World, e: Event, log: seq<Qso>, entry: Entry)
    requires ValidEvent(e) && OneStation(e, log, false)
    ensures ScoreOf(w, e, log, entry).multipliers == CappedMults(w, e, log, entry)
  {
    hide TallyOf, LogCredits, KeysOfCredits, IsSpecial, ValidEvent, CappedMults, FactOf, ScoreOf, OneStation;
    assert e.rules.points >= 1 by { SomePoints(e); }
    ScoreMultipliers(w, e, log, entry);
    PointsOfLog(w, e, log);
    FactStations(w, e, log, false);
    SpecialTally(e.rules.points, LogFacts(w, e, log), false);
  }

  lemma SomePoints(e: Event)
    requires ValidEvent(e)
    ensures e.rules.points >= 1
  {
  }

  /** The flag is raised exactly when logging the contact would raise the capped
      multiplier count, operated counties aside. */
  lemma NewMultiplierAgrees(w: World, e: Event, log: seq<Qso>, q: Qso, entry: Entry)
    requires Sound(w, e) && Counted(e, q) && !OperatedCounts(e, entry)
    ensures Flag(e, SeenMults(w, e, log), OwnMults(w, e, q))
            <==> CappedMults(w, e, log + [q], entry) > CappedMults(w, e, log, entry)
  {
    hide LogTally, OwnMults, SeenMults, NoOperatedKey, Capped, IsMobile, Sound, Counted;
    TalliesGrow(w, e, log, q);
    CappedRise(e, LogTally(w, e, log).mults, OwnMults(w, e, q));
  }

  // ---------- Operated counties ----------

  /** Counties that counted as operated until the contact's own keys named them. */
  function Replaced(e: Event, t: Tally, own: set<string>): set<string> {
    set c | c in Operated(e, t.mults, t.contacts) && HasCounty(own, c)
  }

  /** The credit keys a contact would add from a county. */
  ghost function NewFrom(w: World, e: Event, log: seq<Qso>, q: Qso, county: string): set<string> {
    set c | c in ContactCredits(w, e, q) && county in Sent(w, e, c).counties && CreditKey(w, e, c) !in LogKeys(w, e, log)
        :: CreditKey(w, e, c)
  }

  /** Counties the contact was sent from. */
  ghost function SentFromBy(w: World, e: Event, q: Qso): set<string> {
    set c, county | c in ContactCredits(w, e, q) && county in Sent(w, e, c).counties :: county
  }

  /** Counties the contact's new credits bring to the mobile minimum, with no key of their own. */
  ghost function Joined(w: World, e: Event, log: seq<Qso>, q: Qso): set<string> {
    var t := LogTally(w, e, log);
    set county | county in SentFromBy(w, e, q) && e.rules.mobileMinimum != 0
      && CountOf(t.contacts, county) < e.rules.mobileMinimum <= CountOf(t.contacts, county) + |NewFrom(w, e, log, q, county)|
      && !HasCounty(t.mults + OwnMults(w, e, q), county)
  }

  /** Multipliers of a mobile entry before the cap. */
  function AllMults(e: Event, t: Tally): int { |t.mults| + |Operated(e, t.mults, t.contacts)| }

  /** When the flag is right for a mobile entry: with nothing new of its own the contact must not
      complete a county below the cap; with something new, it must not only replace operated counties. */
  ghost predicate FlagIsRight(w: World, e: Event, log: seq<Qso>, q: Qso) {
    var t, own, joined := LogTally(w, e, log), OwnMults(w, e, q), Joined(w, e, log, q);
    if own <= t.mults then joined == {} || Full(e, AllMults(e, t))
    else Full(e, |t.mults|) || (!Full(e, AllMults(e, t)) && |Replaced(e, t, own)| < |own - t.mults| + |joined|)
  }

  lemma HasCountyUnion(a: set<string>, b: set<string>, c: string)
    ensures HasCounty(a + b, c) <==> HasCounty(a, c) || HasCounty(b, c)
  {
    if HasCounty(a, c) { var k :| k in a && (k == "county:" + c || HasPrefix(k, "county:" + c + "|")); assert k in a + b; }
    if HasCounty(b, c) { var k :| k in b && (k == "county:" + c || HasPrefix(k, "county:" + c + "|")); assert k in a + b; }
  }

  lemma FactOfLog(w: World, e: Event, log: seq<Qso>, f: Fact) returns (c: Qso)
    requires f in LogFacts(w, e, log)
    ensures c in LogCredits(w, e, log) && f == FactOf(w, e, c)
  {
    hide FactOf, LogCredits;
    var i :| 0 <= i < |LogFacts(w, e, log)| && LogFacts(w, e, log)[i] == f;
    c := LogCredits(w, e, log)[i];
  }

  lemma FactInLog(w: World, e: Event, log: seq<Qso>, c: Qso)
    requires c in LogCredits(w, e, log)
    ensures FactOf(w, e, c) in LogFacts(w, e, log)
  {
    hide FactOf, LogCredits;
    var i :| 0 <= i < |LogCredits(w, e, log)| && LogCredits(w, e, log)[i] == c;
    assert LogFacts(w, e, log)[i] == FactOf(w, e, c);
  }

  /** The keys sent from a county, with one more contact. */
  lemma SentFromGrows(w: World, e: Event, log: seq<Qso>, q: Qso, county: string)
    requires Sound(w, e) && Counted(e, q)
    ensures var before := SentFrom(LogFacts(w, e, log), county);
      && SentFrom(LogFacts(w, e, log + [q]), county) == before + NewFrom(w, e, log, q, county)
      && before !! NewFrom(w, e, log, q, county)
  {
    hide FactOf, LogFacts, CreditKey, Sent, ContactCredits, Sound;
    forall k ensures k in SentFrom(LogFacts(w, e, log + [q]), county)
                 <==> k in SentFrom(LogFacts(w, e, log), county) || k in NewFrom(w, e, log, q, county)
    {
      SentFromOne(w, e, log, q, county, k);
    }
    forall k | k in SentFrom(LogFacts(w, e, log), county) ensures k in LogKeys(w, e, log) { }
  }

  lemma SentFromOne(w: World, e: Event, log: seq<Qso>, q: Qso, county: string, k: string)
    requires Sound(w, e) && Counted(e, q)
    ensures k in SentFrom(LogFacts(w, e, log + [q]), county)
        <==> k in SentFrom(LogFacts(w, e, log), county) || k in NewFrom(w, e, log, q, county)
  {
    hide FactOf, LogFacts, CreditKey, Sent, ContactCredits, Sound, LogCredits, Counted;
    LogCreditsConcat(w, e, log, [q]);
    LogOfOne(w, e, q);
    if k in SentFrom(LogFacts(w, e, log + [q]), county) {
      var f :| f in LogFacts(w, e, log + [q]) && county in f.counties && f.key == k;
      var c := FactOfLog(w, e, log + [q], f);
      FactText(w, e, c);
      if c in LogCredits(w, e, log) {
        FactInLog(w, e, log, c);
      } else if k in LogKeys(w, e, log) {
        KeyKeepsCounty(w, e, log + [q], log, c, county);
      }
    }
    if k in SentFrom(LogFacts(w, e, log), county) {
      var f :| f in LogFacts(w, e, log) && county in f.counties && f.key == k;
      var c := FactOfLog(w, e, log, f);
      FactInLog(w, e, log + [q], c);
    }
    if k in NewFrom(w, e, log, q, county) {
      var c :| c in ContactCredits(w, e, q) && county in Sent(w, e, c).counties && CreditKey(w, e, c) == k;
      FactInLog(w, e, log + [q], c);
      FactText(w, e, c);
    }
  }

  /** A key earned in a log was earned from the same county. */
  lemma KeyKeepsCounty(w: World, e: Event, all: seq<Qso>, log: seq<Qso>, c: Qso, county: string)
    requires Sound(w, e) && c in LogCredits(w, e, all) && county in Sent(w, e, c).counties && CreditKey(w, e, c) in LogKeys(w, e, log)
    ensures CreditKey(w, e, c) in SentFrom(LogFacts(w, e, log), county)
  {
    hide FactOf, LogFacts, CreditKey, Sent, ContactCredits, LogCredits, IsCredit, ValidEvent, Unambiguous, PlainNames, MultiplierKeys,
      TrimSpace, ToUpper;
    var f :| f in LogFacts(w, e, log) && f.key == CreditKey(w, e, c);
    var d := FactOfLog(w, e, log, f);
    FactText(w, e, d);
    var p := LogMember(w, e, all, c);
    var r := LogMember(w, e, log, d);
    ContactIsCredits(w, e, p, c);
    ContactIsCredits(w, e, r, d);
    SameKeySameCredit(w, e, c, d);
  }

  /** The county counters after a contact, from those before it. */
  lemma CountersGrow(w: World, e: Event, log: seq<Qso>, q: Qso, county: string)
    requires Sound(w, e) && Counted(e, q)
    ensures CountOf(LogTally(w, e, log + [q]).contacts, county)
         == CountOf(LogTally(w, e, log).contacts, county) + |NewFrom(w, e, log, q, county)|
    ensures county !in SentFromBy(w, e, q) ==> NewFrom(w, e, log, q, county) == {}
  {
    hide LogTally, LogFacts, NewFrom, SentFromBy, Counted, Sound, CountOf, SentFrom, MultSet, NoOperatedKey, IsCode, LogCredits;
    LogTallyFacts(w, e, log);
    LogTallyFacts(w, e, log + [q]);
    SentFromGrows(w, e, log, q, county);
    NothingFrom(w, e, log, q, county);
  }

  lemma NothingFrom(w: World, e: Event, log: seq<Qso>, q: Qso, county: string)
    ensures county !in SentFromBy(w, e, q) ==> NewFrom(w, e, log, q, county) == {}
  {
    hide ContactCredits, CreditKey, Sent, LogKeys;
  }

  lemma ReachedByCount(e: Event, contacts: map<string, int>, c: string)
    requires e.rules.mobileMinimum >= 0
    ensures c in Reached(e, contacts) <==> e.rules.mobileMinimum != 0 && CountOf(contacts, c) >= e.rules.mobileMinimum
  {
  }

  /** How one county's place among the operated ones changes with one contact. */
  lemma OperatedOne(w: World, e: Event, log: seq<Qso>, q: Qso, c: string)
    requires Sound(w, e) && Counted(e, q)
    ensures var t, u, own := LogTally(w, e, log), LogTally(w, e, log + [q]), OwnMults(w, e, q);
      c in Operated(e, u.mults, u.contacts)
      <==> (c in Operated(e, t.mults, t.contacts) && c !in Replaced(e, t, own)) || c in Joined(w, e, log, q)
  {
    hide LogTally, OwnMults, SeenMults, HasCounty, NewFrom, SentFromBy, Reached, CountOf, NoOperatedKey, Counted, Unambiguous, PlainNames;
    var t, u, own := LogTally(w, e, log), LogTally(w, e, log + [q]), OwnMults(w, e, q);
    TalliesGrow(w, e, log, q);
    HasCountyUnion(t.mults, own, c);
    CountersGrow(w, e, log, q, c);
    ReachedByCount(e, t.contacts, c);
    ReachedByCount(e, u.contacts, c);
  }

  lemma OperatedParts(w: World, e: Event, log: seq<Qso>, q: Qso)
    requires Sound(w, e)
    ensures var t, own := LogTally(w, e, log), OwnMults(w, e, q);
      && Replaced(e, t, own) <= Operated(e, t.mults, t.contacts)
      && Joined(w, e, log, q) !! Operated(e, t.mults, t.contacts)
      && (own <= t.mults ==> Replaced(e, t, own) == {})
  {
    hide LogTally, OwnMults, HasCounty, NewFrom, SentFromBy, Reached, CountOf, Unambiguous, PlainNames;
    var t, own := LogTally(w, e, log), OwnMults(w, e, q);
    forall c ensures c in Reached(e, t.contacts) ==> CountOf(t.contacts, c) >= e.rules.mobileMinimum { ReachedByCount(e, t.contacts, c); }
    if own <= t.mults {
      assert t.mults + own == t.mults;
      forall c ensures HasCounty(own, c) ==> HasCounty(t.mults, c) { HasCountyUnion(t.mults, own, c); }
    }
  }

  /** How the operated counties change with one contact. */
  lemma OperatedChange(w: World, e: Event, log: seq<Qso>, q: Qso)
    requires Sound(w, e) && Counted(e, q)
    ensures var t, u, own := LogTally(w, e, log), LogTally(w, e, log + [q]), OwnMults(w, e, q);
      |Operated(e, u.mults, u.contacts)| == |Operated(e, t.mults, t.contacts)| - |Replaced(e, t, own)| + |Joined(w, e, log, q)|
  {
    hide LogTally, OwnMults, Replaced, Joined, Operated, Sound, Counted;
    var t, u, own := LogTally(w, e, log), LogTally(w, e, log + [q]), OwnMults(w, e, q);
    var was, now := Operated(e, t.mults, t.contacts), Operated(e, u.mults, u.contacts);
    var lost, gained := Replaced(e, t, own), Joined(w, e, log, q);
    forall c ensures c in now <==> (c in was && c !in lost) || c in gained { OperatedOne(w, e, log, q, c); }
    assert now == (was - lost) + gained;
    OperatedParts(w, e, log, q);
    assert |was - lost| == |was| - |lost|;
    assert |now| == |was - lost| + |gained|;
  }

  /** For a mobile entry with operated counties, the flag agrees with the capped count exactly when `FlagIsRight`. */
  lemma NewMultiplierExactly(w: World, e: Event, log: seq<Qso>, q: Qso, entry: Entry)
    requires Sound(w, e) && Counted(e, q) && OperatedCounts(e, entry)
    ensures (Flag(e, SeenMults(w, e, log), OwnMults(w, e, q))
             <==> CappedMults(w, e, log + [q], entry) > CappedMults(w, e, log, entry))
            <==> FlagIsRight(w, e, log, q)
  {
    hide LogTally, OwnMults, SeenMults, IsMobile, Sound, Counted, Operated, OperatedKeys, Replaced, Joined, NoOperatedKey, Flag, Capped, Full;
    var t, u, own := LogTally(w, e, log), LogTally(w, e, log + [q]), OwnMults(w, e, q);
    TalliesGrow(w, e, log, q);
    FinalMultsCount(t.mults, Operated(e, t.mults, t.contacts));
    FinalMultsCount(u.mults, Operated(e, u.mults, u.contacts));
    OperatedChange(w, e, log, q);
    OperatedParts(w, e, log, q);
    UnionSize(t.mults, own);
    RightByCount(e, t.mults, own, AllMults(e, t), |Replaced(e, t, own)|, |Joined(w, e, log, q)|);
  }

  lemma UnionSize(a: set<string>, b: set<string>)
    ensures |a + b| == |a| + |b - a|
  {
    assert a + b == a + (b - a);
  }

  /** The rise of a capped count that gains `joined` and loses `replaced` beside its own new keys. */
  lemma RightByCount(e: Event, seen: set<string>, own: set<string>, count: int, replaced: nat, joined: nat)
    requires count >= |seen| && (own <= seen ==> replaced == 0)
    ensures (Flag(e, seen, own) <==> Capped(e, count + |own - seen| - replaced + joined) > Capped(e, count))
            <==> if own <= seen then joined == 0 || Full(e, count)
                 else Full(e, |seen|) || (!Full(e, count) && replaced < |own - seen| + joined)
  {
    if own - seen == {} {
      forall k | k in own ensures k in seen { assert k !in own - seen; }
    }
  }

  // ---------- QSO-only stations ----------

  /** For a station on the QSO-only list, whose score shows one multiplier, the flag agrees with the score
      exactly when it is down, once the log holds a credit; in a log without credits, exactly when the
      contact has a key of its own if it has a credit. */
  lemma QsoOnlyFlag(w: World, e: Event, log: seq<Qso>, q: Qso, entry: Entry)
    requires ValidEvent(e) && Counted(e, q) && OneStation(e, log + [q], true)
    ensures var seen, own := SeenMults(w, e, log), OwnMults(w, e, q);
      (Flag(e, seen, own) <==> ScoreOf(w, e, log + [q], entry).multipliers > ScoreOf(w, e, log, entry).multipliers)
      <==> if LogCredits(w, e, log) != [] then !Flag(e, seen, own)
           else (ContactCredits(w, e, q) != [] <==> own != {})
  {
    hide LogTally, OwnMults, SeenMults, Counted, CappedMults, LogCredits, ContactCredits, ScoreOf, OneStation;
    ScoreMultipliers(w, e, log, entry);
    ScoreMultipliers(w, e, log + [q], entry);
    AllSpecial(w, e, log, q);
    LogCreditsConcat(w, e, log, [q]);
    LogOfOne(w, e, q);
    if LogCredits(w, e, log) == [] { EmptyCount(w, e, log, entry); }
    if LogCredits(w, e, log + [q]) == [] { EmptyCount(w, e, log + [q], entry); }
  }

  lemma AllSpecial(w: World, e: Event, log: seq<Qso>, q: Qso)
    requires OneStation(e, log + [q], true) && ValidEvent(e)
    ensures var t, u := LogTally(w, e, log), LogTally(w, e, log + [q]);
      && t.allSpecial && u.allSpecial
      && t.hasCredit == (LogCredits(w, e, log) != []) && u.hasCredit == (LogCredits(w, e, log + [q]) != [])
  {
    hide LogCredits, KeysOfCredits, IsSpecial, ValidEvent, TallyOf, FactOf, KeySet;
    PointsOfLog(w, e, log);
    PointsOfLog(w, e, log + [q]);
    assert forall p <- log :: p in log + [q];
    FactStations(w, e, log, true);
    FactStations(w, e, log + [q], true);
    SpecialTally(e.rules.points, LogFacts(w, e, log), true);
    SpecialTally(e.rules.points, LogFacts(w, e, log + [q]), true);
  }

  lemma FactStations(w: World, e: Event, log: seq<Qso>, special: bool)
    requires OneStation(e, log, special) && ValidEvent(e)
    ensures forall f <- LogFacts(w, e, log) :: f.special == special
  {
    hide FactOf, LogCredits, ContactCredits, IsSpecial, IsCredit, ValidEvent;
    forall f | f in LogFacts(w, e, log) ensures f.special == special {
      var c := FactOfLog(w, e, log, f);
      FactText(w, e, c);
      var q := LogMember(w, e, log, c);
      ContactIsCredits(w, e, q, c);
      SameStation(e, c, q);
    }
  }

  lemma SameStation(e: Event, c: Qso, q: Qso)
    requires c.station == q.station
    ensures IsSpecial(e, c) == IsSpecial(e, q)
  {
  }

  lemma {:induction false} SpecialTally(points: int, fs: seq<Fact>, special: bool)
    requires forall f <- fs :: f.special == special
    ensures TallyOf(points, fs).allSpecial == (special || fs == [])
  {
    hide CountAll;
    if fs != [] {
      var n := |fs| - 1;
      assert fs[n] in fs && forall f <- fs[..n] :: f in fs;
      SpecialTally(points, fs[..n], special);
      TallyPoints(points, fs[..n]);
      if fs[n].key in KeySet(fs[..n]) { assert fs[..n] != []; }
    }
  }

  lemma EmptyCount(w: World, e: Event, log: seq<Qso>, entry: Entry)
    requires LogCredits(w, e, log) == [] && e.rules.multiplierCap >= 0
    ensures CappedMults(w, e, log, entry) == 0 && SeenMults(w, e, log) == {} && LogTally(w, e, log).mults == {}
  {
    hide LogCredits;
    assert LogTally(w, e, log) == EMPTY_TALLY;
    assert Operated(e, {}, map[]) == {};
    assert OperatedKeys({}) == {};
  }
}
