/** The QSO-party scorer: one pass over the log with maps that deduplicate
    credits, and its meaning as a function of the set of credit keys. */
module PartyScore {
  import opened Text
  import opened PartyRules
  import opened PartyTally

  predicate InPeriod(e: Event, time: int) {
    exists i :: 0 <= i < |e.rules.periods| && e.rules.periods[i].start <= time < e.rules.periods[i].end
  }

  predicate Counted(e: Event, q: Qso) { !q.unscored && InPeriod(e, q.time) }

  predicate IsSpecial(e: Event, q: Qso) { ToUpper(q.station) in e.rules.qsoOnlyCalls }

  ghost function FactOf(w: World, e: Event, c: Qso): Fact {
    Fact(CreditKey(w, e, c),
         set k | k in MultiplierKeys(w, e, c),
         if EqualFold(c.call, e.rules.bonusCall) then {ToUpper(c.band)} else {},
         Sent(w, e, c).counties,
         IsSpecial(e, c))
  }

  lemma FactText(w: World, e: Event, q: Qso)
    ensures FactOf(w, e, q).key == CreditKey(w, e, q) && FactOf(w, e, q).special == IsSpecial(e, q)
    ensures FactOf(w, e, q).counties == Sent(w, e, q).counties
    ensures FactOf(w, e, q).mults == set k | k in MultiplierKeys(w, e, q)
    ensures FactOf(w, e, q).bonus == if EqualFold(q.call, e.rules.bonusCall) then {ToUpper(q.band)} else {}
  {
  }

  ghost function Facts(w: World, e: Event, cs: seq<Qso>): (fs: seq<Fact>)
    ensures |fs| == |cs|
    ensures forall i {:trigger fs[i]} :: 0 <= i < |cs| ==> fs[i] == FactOf(w, e, cs[i])
  {
    seq(|cs|, i requires 0 <= i < |cs| => FactOf(w, e, cs[i]))
  }

  /** The credits of the counted contacts of a log, in order. */
  ghost function LogCredits(w: World, e: Event, log: seq<Qso>): seq<Qso> {
    if log == [] then []
    else LogCredits(w, e, log[..|log| - 1]) + ContactCredits(w, e, log[|log| - 1])
  }

  ghost function ContactCredits(w: World, e: Event, q: Qso): seq<Qso> {
    if Counted(e, q) && Credits(w, e, q).Ok? then Credits(w, e, q).value else []
  }

  lemma {:induction false} LogCreditsConcat(w: World, e: Event, a: seq<Qso>, b: seq<Qso>)
    ensures LogCredits(w, e, a + b) == LogCredits(w, e, a) + LogCredits(w, e, b)
  {
    hide ContactCredits;
    if b == [] {
      assert a + b == a;
    } else {
      var n := |b| - 1;
      LogCreditsConcat(w, e, a, b[..n]);
      assert (a + b)[..|a + b| - 1] == a + b[..n];
      assert (a + b)[|a + b| - 1] == b[n];
    }
  }

  ghost function LogTally(w: World, e: Event, log: seq<Qso>): Tally {
    TallyOf(e.rules.points, Facts(w, e, LogCredits(w, e, log)))
  }

  ghost function ScoreOf(w: World, e: Event, log: seq<Qso>, entry: Entry): ContestScore
    requires e.rules.points >= 1
  {
    Finish(e, LogTally(w, e, log), entry)
  }

  // ---------- The scorer itself ----------

  method KeyOf(w: World, e: Event, q: Qso) returns (key: string)
    ensures key == CreditKey(w, e, q)
  {
    var sent := ParseExchange(w, e, q.stx, q.stxString);
    var received := ParseExchange(w, e, q.srx, q.srxString);
    var s := if sent.Ok? then sent.value else NO_EXCHANGE;
    var r := if received.Ok? then received.value else NO_EXCHANGE;
    key := RenderKey(Norm(q.call), ToUpper(q.band), LocationKey(w, e, s, q.station), LocationKey(w, e, r, q.call));
  }

  method MultKeysOf(w: World, e: Event, q: Qso) returns (keys: seq<string>)
    ensures keys == MultiplierKeys(w, e, q)
  {
    var sent := ParseExchange(w, e, q.stx, q.stxString);
    if sent.Err? { return []; }
    var received := ParseExchange(w, e, q.srx, q.srxString);
    if received.Err? { return []; }
    var plain := if |sent.value.counties| == 0 then CountyKeys(received.value.counties)
                 else HomeKeys(w, e, e.rules.homeMultipliers, received.value, q.call);
    keys := OnBand(e, plain, q.band);
  }

  method CountCounties(contacts: map<string, int>, counties: seq<string>) returns (r: map<string, int>)
    ensures r == CountAll(contacts, counties)
  {
    r := contacts;
    var i := 0;
    while i < |counties|
      invariant 0 <= i <= |counties|
      invariant CountAll(r, counties[i..]) == CountAll(contacts, counties)
    {
      r := r[counties[i] := CountOf(r, counties[i]) + 1];
      i := i + 1;
    }
  }

  method FactsOf(w: World, e: Event, c: Qso) returns (f: Fact)
    ensures f == FactOf(w, e, c)
  {
    hide Exchange;
    var key := KeyOf(w, e, c);
    var keys := MultKeysOf(w, e, c);
    var sent := ParseExchange(w, e, c.stx, c.stxString);
    f := Fact(key, set k | k in keys, if EqualFold(c.call, e.rules.bonusCall) then {ToUpper(c.band)} else {},
              if sent.Ok? then sent.value.counties else [], IsSpecial(e, c));
  }

  method TallyCredit(points: int, t: Tally, f: Fact) returns (r: Tally)
    ensures r == AddFact(points, t, f)
  {
    if f.key in t.seen { return t; }
    var contacts := CountCounties(t.contacts, f.counties);
    r := Tally(t.seen + {f.key}, t.mults + f.mults, t.bonus + f.bonus, contacts,
               t.points + points, t.allSpecial && f.special, true);
  }

  method TallyCredits(w: World, e: Event, t: Tally, cs: seq<Qso>) returns (r: Tally)
    ensures r == TallyFrom(e.rules.points, t, Facts(w, e, cs))
  {
    hide AddFact, FactOf;
    ghost var fs := Facts(w, e, cs);
    r := t;
    for j := 0 to |cs|
      invariant r == TallyFrom(e.rules.points, t, fs[..j])
    {
      var f := FactsOf(w, e, cs[j]);
      assert f == fs[j] && fs[..j + 1][..j] == fs[..j];
      r := TallyCredit(e.rules.points, r, f);
    }
    assert fs[..|cs|] == fs;
  }

  method TallyLog(w: World, e: Event, log: seq<Qso>) returns (t: Tally)
    ensures t == LogTally(w, e, log)
  {
    t := EMPTY_TALLY;
    assert LogTally(w, e, []) == EMPTY_TALLY;
    hide AddFact, FactOf, Credits, Counted, TallyFrom;
    for i := 0 to |log|
      invariant t == LogTally(w, e, log[..i])
    {
      ghost var before, own := LogCredits(w, e, log[..i]), ContactCredits(w, e, log[i]);
      assert log[..i + 1][..i] == log[..i];
      assert LogCredits(w, e, log[..i + 1]) == before + own;
      FactsConcat(w, e, before, own);
      TallyFromConcat(e.rules.points, EMPTY_TALLY, Facts(w, e, before), Facts(w, e, own));
      var credits: seq<Qso> := [];
      if Counted(e, log[i]) {
        var expanded := ExpandCredits(w, e, log[i]);
        credits := if expanded.Ok? then expanded.value else [];
      }
      t := TallyCredits(w, e, t, credits);
    }
    assert log[..|log|] == log;
  }

  lemma FactsConcat(w: World, e: Event, a: seq<Qso>, b: seq<Qso>)
    ensures Facts(w, e, a + b) == Facts(w, e, a) + Facts(w, e, b)
  {
    hide FactOf;
  }

  method PartyScore(w: World, e: Event, log: seq<Qso>, entry: Entry) returns (out: ContestScore)
    requires ValidEvent(e)
    ensures out == ScoreOf(w, e, log, entry)
  {
    hide LogTally, Operated, Reached, OperatedKeys, Capped, PowerFactor;
    var t := TallyLog(w, e, log);
    var mults, bonus := t.mults, |t.bonus| * e.rules.bonusPoints;
    if IsMobile(entry) {
      MobileSets(e, t);
      assert Operated(e, t.mults, t.contacts) * t.contacts.Keys == Operated(e, t.mults, t.contacts);
      var reached;
      mults, reached := MobilePass(e, t);
      bonus := bonus + reached * e.rules.mobileBonus;
    }
    out := ContestScore(t.points, Capped(e, |mults|), bonus, PowerFactor(e, entry));
    if t.hasCredit && t.allSpecial {
      out := ContestScore(t.points / e.rules.points, 1, 0, 1);
    }
  }
}
