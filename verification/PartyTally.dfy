/** The tally a QSO-party scorer keeps: a fold over the facts of each credit, its
    totals, and its meaning as sets indexed by credit key. */
module PartyTally {
  import opened Text
  import opened PartyRules

  datatype ContestScore = ContestScore(qsoPoints: int, multipliers: int, bonusPoints: int, powerFactor: int) {
    function Total(): int {
      qsoPoints * multipliers * (if powerFactor == 0 then 1 else powerFactor) + bonusPoints
    }
  }

  /** The operator's declared category and power. */
  datatype Entry = Entry(category: string, power: string)

  /** What the scorer reads from one credit: its key, its multiplier keys, the band
      it earns a bonus on, the counties it was sent from, and whether the station's
      call is on the QSO-only list. */
  datatype Fact = Fact(key: string, mults: set<string>, bonus: set<string>, counties: seq<string>, special: bool)

  datatype Tally = Tally(
    seen: set<string>, mults: set<string>, bonus: set<string>, contacts: map<string, int>,
    points: int, allSpecial: bool, hasCredit: bool)

  const EMPTY_TALLY := Tally({}, {}, {}, map[], 0, true, false)

  function CountOf(contacts: map<string, int>, county: string): int {
    if county in contacts then contacts[county] else 0
  }

  function CountAll(contacts: map<string, int>, counties: seq<string>): map<string, int>
    decreases counties
  {
    if counties == [] then contacts
    else CountAll(contacts[counties[0] := CountOf(contacts, counties[0]) + 1], counties[1..])
  }

  /** A credit counts once: the first with its key. */
  function AddFact(points: int, t: Tally, f: Fact): Tally {
    if f.key in t.seen then t
    else Tally(t.seen + {f.key}, t.mults + f.mults, t.bonus + f.bonus, CountAll(t.contacts, f.counties),
               t.points + points, t.allSpecial && f.special, true)
  }

  function TallyFrom(points: int, t: Tally, fs: seq<Fact>): Tally {
    if fs == [] then t else AddFact(points, TallyFrom(points, t, fs[..|fs| - 1]), fs[|fs| - 1])
  }

  function TallyOf(points: int, fs: seq<Fact>): Tally { TallyFrom(points, EMPTY_TALLY, fs) }

  lemma {:induction false} TallyFromConcat(points: int, t: Tally, a: seq<Fact>, b: seq<Fact>)
    ensures TallyFrom(points, t, a + b) == TallyFrom(points, TallyFrom(points, t, a), b)
  {
    hide AddFact;
    if b == [] {
      assert a + b == a;
    } else {
      var n := |b| - 1;
      TallyFromConcat(points, t, a, b[..n]);
      assert (a + b)[..|a + b| - 1] == a + b[..n];
      assert (a + b)[|a + b| - 1] == b[n];
    }
  }

  // ---------- Totals ----------

  predicate IsMobile(entry: Entry) { entry.category == "MOBILE" || entry.category == "ROVER" }

  /** The multiplier set already holds this county, on some band or for the whole contest. */
  predicate HasCounty(mults: set<string>, county: string) {
    exists k :: k in mults && (k == "county:" + county || HasPrefix(k, "county:" + county + "|"))
  }

  function Reached(e: Event, contacts: map<string, int>): set<string> {
    set c | c in contacts && e.rules.mobileMinimum != 0 && contacts[c] >= e.rules.mobileMinimum
  }

  function Operated(e: Event, mults: set<string>, contacts: map<string, int>): set<string> {
    set c | c in Reached(e, contacts) && !HasCounty(mults, c)
  }

  function OperatedKeys(counties: set<string>): set<string> { set c | c in counties :: "operated:" + c }

  function FinalMults(e: Event, t: Tally, entry: Entry): set<string> {
    if IsMobile(entry) && e.rules.mobileMultiplier then t.mults + OperatedKeys(Operated(e, t.mults, t.contacts))
    else t.mults
  }

  function Capped(e: Event, n: int): int {
    if e.rules.multiplierCap > 0 && n > e.rules.multiplierCap then e.rules.multiplierCap else n
  }

  function PowerFactor(e: Event, entry: Entry): int {
    var power := if TrimSpace(entry.power) == "" then "HIGH" else entry.power;
    if power in e.rules.powerFactors then e.rules.powerFactors[power] else 0
  }

  function Bonus(e: Event, t: Tally, entry: Entry): int {
    |t.bonus| * e.rules.bonusPoints
    + if IsMobile(entry) then |Reached(e, t.contacts)| * e.rules.mobileBonus else 0
  }

  function Finish(e: Event, t: Tally, entry: Entry): ContestScore
    requires e.rules.points >= 1
  {
    if t.hasCredit && t.allSpecial then ContestScore(t.points / e.rules.points, 1, 0, 1)
    else ContestScore(t.points, Capped(e, |FinalMults(e, t, entry)|), Bonus(e, t, entry), PowerFactor(e, entry))
  }

  lemma OperatedIsNoCounty(mults: set<string>, counties: set<string>, county: string)
    ensures HasCounty(mults + OperatedKeys(counties), county) <==> HasCounty(mults, county)
  {
    forall c ensures ("operated:" + c)[0] == 'o' && ("county:" + county)[0] == 'c' && ("county:" + county + "|")[0] == 'c' { }
  }

  lemma VisitOne(all: set<string>, done: set<string>, x: string)
    requires x !in done
    ensures all * (done + {x}) == if x in all then all * done + {x} else all * done
    ensures |all * (done + {x})| == |all * done| + if x in all then 1 else 0
    ensures OperatedKeys(all * (done + {x})) == OperatedKeys(all * done) + if x in all then {"operated:" + x} else {}
  {
    assert all * (done + {x}) == if x in all then all * done + {x} else all * done;
  }

  lemma MobileSets(e: Event, t: Tally)
    ensures Reached(e, t.contacts) <= t.contacts.Keys && Operated(e, t.mults, t.contacts) <= Reached(e, t.contacts)
    ensures OperatedKeys({}) == {}
  {
  }

  lemma MobileVisit(e: Event, t: Tally, county: string)
    requires county in t.contacts
    ensures county in Reached(e, t.contacts) <==> e.rules.mobileMinimum != 0 && t.contacts[county] >= e.rules.mobileMinimum
    ensures county in Operated(e, t.mults, t.contacts) <==> county in Reached(e, t.contacts) && !HasCounty(t.mults, county)
  {
  }

  /** The multipliers once the counties of `done` have been visited. */
  ghost function MultsAfter(e: Event, t: Tally, done: set<string>): set<string> {
    if e.rules.mobileMultiplier then t.mults + OperatedKeys(Operated(e, t.mults, t.contacts) * done) else t.mults
  }

  method VisitCounty(e: Event, t: Tally, county: string, mults: set<string>, ghost done: set<string>)
      returns (reached: bool, after: set<string>)
    requires county in t.contacts && county !in done && mults == MultsAfter(e, t, done)
    ensures reached <==> county in Reached(e, t.contacts)
    ensures after == MultsAfter(e, t, done + {county})
  {
    ghost var operated := Operated(e, t.mults, t.contacts);
    MobileVisit(e, t, county);
    OperatedIsNoCounty(t.mults, operated * done, county);
    VisitOne(operated, done, county);
    hide HasCounty, OperatedKeys, Operated, Reached;
    reached := e.rules.mobileMinimum != 0 && t.contacts[county] >= e.rules.mobileMinimum;
    after := mults;
    if reached && e.rules.mobileMultiplier && !HasCounty(mults, county) {
      after := mults + {"operated:" + county};
    }
  }

  lemma VisitCount(all: set<string>, rest: set<string>, x: string)
    requires x in rest
    ensures |all - (rest - {x})| == |all - rest| + if x in all then 1 else 0
  {
    assert all - (rest - {x}) == (all - rest) + if x in all then {x} else {};
  }

  /** Mobile pass state with the counties of `rest` still to visit. */
  ghost predicate MidPass(e: Event, t: Tally, rest: set<string>, mults: set<string>, reached: int) {
    && rest <= t.contacts.Keys
    && reached == |Reached(e, t.contacts) - rest|
    && mults == MultsAfter(e, t, t.contacts.Keys - rest)
  }

  lemma MidPassEnds(e: Event, t: Tally)
    ensures MidPass(e, t, t.contacts.Keys, t.mults, 0)
    ensures forall mults, reached :: MidPass(e, t, {}, mults, reached) ==>
              reached == |Reached(e, t.contacts)| && mults == MultsAfter(e, t, t.contacts.Keys)
  {
    MobileSets(e, t);
    var keys := t.contacts.Keys;
    assert Operated(e, t.mults, t.contacts) * (keys - keys) == {};
    assert Reached(e, t.contacts) - keys == {} && Reached(e, t.contacts) - {} == Reached(e, t.contacts);
    assert keys - {} == keys;
  }

  /** The mobile pass visits the county counters in no particular order. */
  method MobilePass(e: Event, t: Tally) returns (mults: set<string>, reached: int)
    ensures reached == |Reached(e, t.contacts)|
    ensures mults == MultsAfter(e, t, t.contacts.Keys)
  {
    MidPassEnds(e, t);
    mults, reached := t.mults, 0;
    var rest := t.contacts.Keys;
    while rest != {}
      invariant MidPass(e, t, rest, mults, reached)
    {
      var county :| county in rest;
      mults, reached := VisitNext(e, t, rest, county, mults, reached);
      rest := rest - {county};
    }
  }

  method VisitNext(e: Event, t: Tally, ghost rest: set<string>, county: string, mults: set<string>, reached: int)
      returns (after: set<string>, count: int)
    requires MidPass(e, t, rest, mults, reached) && county in rest
    ensures MidPass(e, t, rest - {county}, after, count)
  {
    var counts;
    ghost var keys := t.contacts.Keys;
    counts, after := VisitCounty(e, t, county, mults, keys - rest);
    VisitCount(Reached(e, t.contacts), rest, county);
    count := if counts then reached + 1 else reached;
    assert keys - (rest - {county}) == (keys - rest) + {county};
    hide MultsAfter, Reached;
  }

  // ---------- What the tally holds ----------

  /** Facts with one key agree; a credit is sent from at most one county; the
      station is on the QSO-only list throughout or nowhere. */
  ghost predicate Consistent(fs: seq<Fact>, special: bool) {
    && (forall f <- fs, g <- fs :: f.key == g.key ==> f == g)
    && (forall f <- fs :: |f.counties| <= 1 && f.special == special)
  }

  ghost function KeySet(fs: seq<Fact>): set<string> { set f | f in fs :: f.key }

  ghost function MultSet(fs: seq<Fact>): set<string> { set f, k | f in fs && k in f.mults :: k }

  ghost function BonusSet(fs: seq<Fact>): set<string> { set f, k | f in fs && k in f.bonus :: k }

  /** Keys of the credits sent from a county. */
  ghost function SentFrom(fs: seq<Fact>, county: string): set<string> {
    set f | f in fs && county in f.counties :: f.key
  }

  ghost predicate ContactsMean(fs: seq<Fact>, contacts: map<string, int>) {
    forall county :: CountOf(contacts, county) == |SentFrom(fs, county)| && (county in contacts <==> SentFrom(fs, county) != {})
  }

  ghost predicate Means(points: int, fs: seq<Fact>, special: bool, t: Tally) {
    && t.seen == KeySet(fs)
    && t.points == |KeySet(fs)| * points
    && t.mults == MultSet(fs)
    && t.bonus == BonusSet(fs)
    && ContactsMean(fs, t.contacts)
    && t.hasCredit == (fs != [])
    && t.allSpecial == (fs == [] || special)
  }

  /** How each set grows by one fact. */
  lemma Extend(fs: seq<Fact>, f: Fact)
    ensures KeySet(fs + [f]) == KeySet(fs) + {f.key}
    ensures MultSet(fs + [f]) == MultSet(fs) + f.mults
    ensures BonusSet(fs + [f]) == BonusSet(fs) + f.bonus
    ensures forall county :: SentFrom(fs + [f], county) == SentFrom(fs, county) + if county in f.counties then {f.key} else {}
  {
    assert forall x :: x in fs + [f] <==> x in fs || x == f;
  }

  lemma Known(fs: seq<Fact>, f: Fact)
    requires f in fs
    ensures KeySet(fs + [f]) == KeySet(fs) && MultSet(fs + [f]) == MultSet(fs) && BonusSet(fs + [f]) == BonusSet(fs)
    ensures forall county :: SentFrom(fs + [f], county) == SentFrom(fs, county)
  {
    assert forall x :: x in fs + [f] <==> x in fs;
  }

  lemma CountOne(contacts: map<string, int>, counties: seq<string>, county: string)
    requires |counties| <= 1
    ensures CountOf(CountAll(contacts, counties), county) == CountOf(contacts, county) + if county in counties then 1 else 0
    ensures county in CountAll(contacts, counties) <==> county in contacts || county in counties
  {
    if |counties| == 1 { assert counties[1..] == []; }
  }

  lemma NewContact(fs: seq<Fact>, f: Fact, contacts: map<string, int>, county: string)
    requires f.key !in KeySet(fs) && |f.counties| <= 1
    requires CountOf(contacts, county) == |SentFrom(fs, county)| && (county in contacts <==> SentFrom(fs, county) != {})
    ensures var after := CountAll(contacts, f.counties);
            CountOf(after, county) == |SentFrom(fs + [f], county)| && (county in after <==> SentFrom(fs + [f], county) != {})
  {
    Extend(fs, f);
    CountOne(contacts, f.counties, county);
    assert f.key !in SentFrom(fs, county);
    hide CountAll, SentFrom, KeySet, CountOf;
  }

  lemma NewContacts(fs: seq<Fact>, f: Fact, contacts: map<string, int>)
    requires f.key !in KeySet(fs) && |f.counties| <= 1 && ContactsMean(fs, contacts)
    ensures ContactsMean(fs + [f], CountAll(contacts, f.counties))
  {
    var after := CountAll(contacts, f.counties);
    forall county
      ensures CountOf(after, county) == |SentFrom(fs + [f], county)| && (county in after <==> SentFrom(fs + [f], county) != {})
    {
      NewContact(fs, f, contacts, county);
    }
  }

  lemma KnownMeans(points: int, fs: seq<Fact>, f: Fact, special: bool, t: Tally)
    requires f in fs && Means(points, fs, special, t)
    ensures Means(points, fs + [f], special, AddFact(points, t, f))
  {
    Known(fs, f);
    assert f.key in KeySet(fs);
    hide KeySet, MultSet, BonusSet, SentFrom;
  }

  lemma NewMeans(points: int, fs: seq<Fact>, f: Fact, special: bool, t: Tally)
    requires f.key !in KeySet(fs) && |f.counties| <= 1 && f.special == special && Means(points, fs, special, t)
    ensures Means(points, fs + [f], special, AddFact(points, t, f))
  {
    hide KeySet, MultSet, BonusSet, SentFrom, ContactsMean, CountAll, CountOf;
    Extend(fs, f);
    NewContacts(fs, f, t.contacts);
    OneMore(|KeySet(fs)|, points);
    var keys, k := KeySet(fs), f.key;
    assert |keys + {k}| == |keys| + 1;
  }

  lemma OneMore(n: nat, points: int)
    ensures (n + 1) * points == n * points + points
  {
  }

  /** The tally of a fact list holds exactly the sets of its facts. */
  lemma {:induction false} TallyMeans(points: int, fs: seq<Fact>, special: bool)
    requires Consistent(fs, special)
    ensures Means(points, fs, special, TallyOf(points, fs))
  {
    if fs != [] {
      var n := |fs| - 1;
      var front, f := fs[..n], fs[n];
      assert fs == front + [f];
      TallyMeans(points, front, special);
      if f.key in KeySet(front) {
        var g :| g in front && g.key == f.key;
        assert f in fs && g in fs;
        KnownMeans(points, front, f, special, TallyOf(points, front));
      } else {
        NewMeans(points, front, f, special, TallyOf(points, front));
      }
      hide Means, AddFact, KeySet;
    }
  }

  /** Points go by distinct keys, whatever else the facts say. */
  lemma {:induction false} TallyPoints(points: int, fs: seq<Fact>)
    ensures var t := TallyOf(points, fs); t.seen == KeySet(fs) && t.points == |KeySet(fs)| * points && t.hasCredit == (fs != [])
  {
    hide AddFact, KeySet;
    if fs == [] {
      NoKeys(fs);
    } else {
      var n := |fs| - 1;
      TallyPoints(points, fs[..n]);
      LastFact(fs);
      AddPoints(points, TallyOf(points, fs[..n]), fs[n]);
      assert TallyOf(points, fs) == AddFact(points, TallyOf(points, fs[..n]), fs[n]);
      if fs[..n] == [] { NoKeys(fs[..n]); }
    }
  }

  lemma AddPoints(points: int, t: Tally, f: Fact)
    requires t.points == |t.seen| * points && (t.seen != {} ==> t.hasCredit)
    ensures var u := AddFact(points, t, f); u.seen == t.seen + {f.key} && u.points == |u.seen| * points && u.hasCredit
  {
    hide CountAll;
    GrowByOne(t.seen, f.key);
    OneMore(|t.seen|, points);
  }

  lemma NoKeys(fs: seq<Fact>)
    requires fs == []
    ensures KeySet(fs) == {}
  {
  }

  lemma LastFact(fs: seq<Fact>)
    requires fs != []
    ensures KeySet(fs) == KeySet(fs[..|fs| - 1]) + {fs[|fs| - 1].key}
  {
    assert fs == fs[..|fs| - 1] + [fs[|fs| - 1]];
    assert forall f :: f in fs <==> f in fs[..|fs| - 1] || f == fs[|fs| - 1];
  }

  lemma GrowByOne<T>(s: set<T>, x: T)
    ensures x in s ==> s + {x} == s
    ensures x !in s ==> |s + {x}| == |s| + 1
  {
  }

  // ---------- More keys, never less ----------

  lemma SubsetSets(fs: seq<Fact>, gs: seq<Fact>, special: bool)
    requires Consistent(fs + gs, special) && KeySet(fs) <= KeySet(gs)
    ensures forall f <- fs :: f in gs
    ensures MultSet(fs) <= MultSet(gs) && BonusSet(fs) <= BonusSet(gs)
    ensures forall county :: SentFrom(fs, county) <= SentFrom(gs, county)
  {
    forall f | f in fs ensures f in gs {
      assert f.key in KeySet(gs);
      var g :| g in gs && g.key == f.key;
      assert f in fs + gs && g in fs + gs;
    }
  }

  ghost predicate Grows(t: Tally, u: Tally) {
    && t.seen <= u.seen && t.mults <= u.mults && t.bonus <= u.bonus
    && (forall county :: CountOf(t.contacts, county) <= CountOf(u.contacts, county))
    && (forall county <- t.contacts :: county in u.contacts)
    && (t.hasCredit ==> u.hasCredit)
  }

  lemma ConsistentParts(fs: seq<Fact>, gs: seq<Fact>, special: bool)
    requires Consistent(fs + gs, special)
    ensures Consistent(fs, special) && Consistent(gs, special) && Consistent(gs + fs, special)
  {
    assert forall f :: f in fs + gs <==> f in fs || f in gs;
    assert forall f :: f in gs + fs <==> f in fs || f in gs;
  }

  lemma SubsetTally(points: int, fs: seq<Fact>, gs: seq<Fact>, special: bool)
    requires Consistent(fs + gs, special) && KeySet(fs) <= KeySet(gs)
    ensures Grows(TallyOf(points, fs), TallyOf(points, gs))
  {
    ConsistentParts(fs, gs, special);
    TallyMeans(points, fs, special);
    TallyMeans(points, gs, special);
    SubsetSets(fs, gs, special);
    var t, u := TallyOf(points, fs), TallyOf(points, gs);
    forall county ensures CountOf(t.contacts, county) <= CountOf(u.contacts, county) && (county in t.contacts ==> county in u.contacts) {
      SubsetSize(SentFrom(fs, county), SentFrom(gs, county));
    }
    hide TallyOf, SentFrom, KeySet, MultSet, BonusSet;
  }

  lemma SameContacts(a: map<string, int>, b: map<string, int>)
    requires forall county :: CountOf(a, county) == CountOf(b, county)
    requires forall county :: county in a <==> county in b
    ensures a == b
  {
    forall county | county in a ensures a[county] == b[county] {
      assert a[county] == CountOf(a, county) == CountOf(b, county);
    }
  }

  /** Two fact lists with the same keys leave the same tally. */
  lemma SameKeysSameTally(points: int, fs: seq<Fact>, gs: seq<Fact>, special: bool)
    requires Consistent(fs + gs, special) && KeySet(fs) == KeySet(gs)
    ensures TallyOf(points, fs) == TallyOf(points, gs)
  {
    ConsistentParts(fs, gs, special);
    var t, u := TallyOf(points, fs), TallyOf(points, gs);
    TallyMeans(points, fs, special);
    TallyMeans(points, gs, special);
    SubsetTally(points, fs, gs, special);
    SubsetTally(points, gs, fs, special);
    SameContacts(t.contacts, u.contacts);
    assert fs == [] <==> gs == [] by {
      if fs != [] { assert fs[0].key in KeySet(fs); }
      if gs != [] { assert gs[0].key in KeySet(gs); }
    }
    hide TallyOf, TallyFrom, ContactsMean, KeySet, MultSet, BonusSet, Consistent;
  }

  // ---------- Totals grow with the tally ----------

  predicate IsCountyKey(k: string, county: string) {
    k == "county:" + county || HasPrefix(k, "county:" + county + "|")
  }

  lemma CountyKeyText(k: string, county: string)
    requires IsCode(county) && IsCountyKey(k, county)
    ensures |k| >= 7 && IndexOf(k[7..], '|') == |county| && county <= k[7..]
  {
    assert |"county:"| == 7;
    var rest := k[7..];
    assert |rest| >= |county|;
    assert k[..7 + |county|] == "county:" + county by {
      if k != "county:" + county { assert "county:" + county + "|" == k[..7 + |county| + 1]; }
    }
    assert rest[..|county|] == county;
    assert forall i :: 0 <= i < |county| ==> rest[i] == county[i] != '|';
    assert |rest| > |county| ==> rest[|county|] == '|' by {
      if |rest| > |county| { assert ("county:" + county + "|")[7 + |county|] == k[7 + |county|]; }
    }
  }

  /** No key names two counties. */
  lemma OneCountyPerKey(k: string, c: string, d: string)
    requires IsCode(c) && IsCode(d) && IsCountyKey(k, c) && IsCountyKey(k, d)
    ensures c == d
  {
    CountyKeyText(k, c);
    CountyKeyText(k, d);
    hide IsCountyKey, IndexOf;
  }

  /** Counties with a key in `keys` are no more than the keys. */
  lemma {:induction false} CountiesWithin(counties: set<string>, keys: set<string>)
    requires forall c <- counties :: IsCode(c) && exists k :: k in keys && IsCountyKey(k, c)
    ensures |counties| <= |keys|
  {
    hide IsCode, IsCountyKey;
    if counties != {} {
      var c :| c in counties;
      var k :| k in keys && IsCountyKey(k, c);
      var rest := counties - {c};
      forall d | d in rest ensures IsCode(d) && exists j :: j in keys - {k} && IsCountyKey(j, d) {
        var j :| j in keys && IsCountyKey(j, d);
        if j == k { OneCountyPerKey(k, c, d); }
        assert j in keys - {k};
      }
      CountiesWithin(rest, keys - {k});
    }
  }

  lemma {:induction false} OperatedKeysCount(counties: set<string>)
    ensures |OperatedKeys(counties)| == |counties|
  {
    if counties != {} {
      var c :| c in counties;
      var rest := counties - {c};
      OperatedKeysCount(rest);
      forall d | d in rest ensures "operated:" + d != "operated:" + c { SameTail("operated:", c, d); }
      assert OperatedKeys(counties) == OperatedKeys(rest) + {"operated:" + c};
    }
  }

  lemma SameTail(p: string, c: string, d: string)
    ensures p + c == p + d ==> c == d
  {
    assert (p + c)[|p|..] == c && (p + d)[|p|..] == d;
  }

  /** Award keys never look like operated-county keys. */
  predicate NoOperatedKey(mults: set<string>) { forall k <- mults :: k == "" || k[0] != 'o' }

  lemma FinalMultsCount(mults: set<string>, counties: set<string>)
    requires NoOperatedKey(mults)
    ensures |mults + OperatedKeys(counties)| == |mults| + |counties|
  {
    OperatedKeysCount(counties);
    forall c ensures ("operated:" + c)[0] == 'o' { }
    assert mults !! OperatedKeys(counties);
    hide OperatedKeys;
  }

  /** A county that stops being "operated" was replaced by a county key. */
  lemma OperatedGrow(e: Event, t: Tally, u: Tally)
    requires Grows(t, u) && forall c <- u.contacts :: IsCode(c)
    ensures |t.mults| + |Operated(e, t.mults, t.contacts)| <= |u.mults| + |Operated(e, u.mults, u.contacts)|
  {
    var was, now := Operated(e, t.mults, t.contacts), Operated(e, u.mults, u.contacts);
    var lost, gained := was - now, u.mults - t.mults;
    forall c | c in lost ensures IsCode(c) && exists k :: k in gained && IsCountyKey(k, c) {
      LostCounty(e, t, u, c);
    }
    CountiesWithin(lost, gained);
    SubsetSize(was, now + lost);
    assert u.mults == t.mults + gained;
    assert |now + lost| == |now| + |lost|;
    hide Operated;
  }

  lemma LostCounty(e: Event, t: Tally, u: Tally, c: string)
    requires Grows(t, u) && c in Operated(e, t.mults, t.contacts) && c !in Operated(e, u.mults, u.contacts)
    ensures c in u.contacts && exists k :: k in u.mults - t.mults && IsCountyKey(k, c)
  {
    assert CountOf(t.contacts, c) <= CountOf(u.contacts, c);
    assert HasCounty(u.mults, c);
    var k :| k in u.mults && (k == "county:" + c || HasPrefix(k, "county:" + c + "|"));
    assert k in u.mults - t.mults;
    assert IsCountyKey(k, c);
  }

  lemma FinalMultsGrow(e: Event, t: Tally, u: Tally, entry: Entry)
    requires Grows(t, u) && NoOperatedKey(u.mults) && forall c <- u.contacts :: IsCode(c)
    ensures |FinalMults(e, t, entry)| <= |FinalMults(e, u, entry)|
  {
    FinalMultsCount(t.mults, Operated(e, t.mults, t.contacts));
    FinalMultsCount(u.mults, Operated(e, u.mults, u.contacts));
    OperatedGrow(e, t, u);
    SubsetSize(t.mults, u.mults);
    hide Operated, OperatedKeys;
  }

  lemma BonusGrow(e: Event, t: Tally, u: Tally, entry: Entry)
    requires Grows(t, u) && e.rules.bonusPoints >= 0 && e.rules.mobileBonus >= 0
    ensures 0 <= Bonus(e, t, entry) <= Bonus(e, u, entry)
  {
    SubsetSize(t.bonus, u.bonus);
    forall c | c in Reached(e, t.contacts) ensures c in Reached(e, u.contacts) {
      assert CountOf(t.contacts, c) <= CountOf(u.contacts, c);
    }
    SubsetSize(Reached(e, t.contacts), Reached(e, u.contacts));
    Scale(|t.bonus|, |u.bonus|, e.rules.bonusPoints);
    Scale(|Reached(e, t.contacts)|, |Reached(e, u.contacts)|, e.rules.mobileBonus);
    hide Reached;
  }

  lemma Scale(a: nat, b: nat, k: nat)
    requires a <= b
    ensures 0 <= a * k <= b * k
  {
  }

  /** A larger tally never gives a smaller total, the QSO-only rule aside. */
  lemma TotalGrows(e: Event, t: Tally, u: Tally, entry: Entry)
    requires ValidEvent(e) && Grows(t, u) && NoOperatedKey(u.mults)
    requires forall c <- u.contacts :: IsCode(c)
    requires t.points == |t.seen| * e.rules.points && u.points == |u.seen| * e.rules.points
    requires !(t.hasCredit && t.allSpecial) && !(u.hasCredit && u.allSpecial)
    ensures Finish(e, t, entry).Total() <= Finish(e, u, entry).Total()
  {
    FinalMultsGrow(e, t, u, entry);
    BonusGrow(e, t, u, entry);
    SubsetSize(t.seen, u.seen);
    Scale(|t.seen|, |u.seen|, e.rules.points);
    var m, n := Capped(e, |FinalMults(e, t, entry)|), Capped(e, |FinalMults(e, u, entry)|);
    assert 0 <= m <= n;
    var f := if PowerFactor(e, entry) == 0 then 1 else PowerFactor(e, entry);
    assert f >= 1;
    Products(t.points, u.points, m, n, f);
    hide FinalMults, Bonus, PowerFactor, Capped, ValidEvent;
  }

  lemma Products(a: nat, b: nat, m: nat, n: nat, f: nat)
    requires a <= b && m <= n
    ensures a * m * f <= b * n * f
  {
    Scale(a, b, m);
    assert b * m <= b * n by { Scale(m, n, b); }
    Scale(a * m, b * n, f);
  }
}
