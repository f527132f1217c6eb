/** Points and score over the counted contacts of a log. */
module ContestPoints {
  import opened Text
  import opened Contest
  import opened ContestCount
  import PartyTally

  predicate PlainBands(log: seq<Qso>) { forall q :: q in log ==> '|' !in BandOf(q) }

  function SumPoints(x: Contest, c: seq<Qso>, r: PointsRule): int {
    if c == [] then 0
    else
      var q := c[|c| - 1];
      SumPoints(x, c[..|c| - 1], r) + PointsOf(r, BandOf(q), TiersOf(x, q))
  }

  function Points(x: Contest, c: seq<Qso>, rules: Rules): int {
    match rules.points
    case Some(r) => SumPoints(x, c, r)
    case None => |Keys(c)| * rules.pointsPerQso
  }

  function Score(x: Contest, c: seq<Qso>, rules: Rules): PartyTally.ContestScore {
    PartyTally.ContestScore(Points(x, c, rules), Total(x, c, Effective(rules)), 0, 0)
  }

  // ---------- Keys of counted contacts ----------

  predicate Apart(c: seq<Qso>) { forall i, j :: 0 <= i < j < |c| ==> KeyOf(c[i]) != KeyOf(c[j]) }

  lemma CreditedKeysApart(event: Event, log: seq<Qso>)
    requires PlainBands(log)
    ensures Apart(Credited(event, log)) && PlainBands(Credited(event, log))
  {
    hide CallOf, BandOf, KeyText, Credited, Eligible;
    var c := Credited(event, log);
    OnePerSlot(event, log);
    forall i, j | 0 <= i < j < |c| ensures KeyOf(c[i]) != KeyOf(c[j]) {
      assert c[i] in c && c[j] in c;
      KeysApart(CallOf(c[i]), BandOf(c[i]), CallOf(c[j]), BandOf(c[j]));
    }
  }

  // ---------- Flat points times distinct calls ----------

  function EligibleCalls(log: seq<Qso>): set<string> { set q | q in log && Eligible(q) :: CallOf(q) }

  function EligibleKeys(log: seq<Qso>): set<string> { set q | q in log && Eligible(q) :: KeyOf(q) }

  lemma SameSlot(event: Event, p: Qso, q: Qso)
    requires Slot(event, p) == Slot(event, q) && '|' !in BandOf(p) && '|' !in BandOf(q)
    ensures CallOf(p) == CallOf(q) && (event.dupeScope != "call" ==> KeyOf(p) == KeyOf(q))
  {
    KeysApart(CallOf(p), BandOf(p), CallOf(q), BandOf(q));
    hide CallOf, BandOf, KeyText;
  }

  lemma CreditedCalls(event: Event, log: seq<Qso>)
    requires PlainBands(log)
    ensures Calls(Credited(event, log)) == EligibleCalls(log)
    ensures event.dupeScope != "call" ==> Keys(Credited(event, log)) == EligibleKeys(log)
  {
    hide Eligible, CallOf, KeyOf, BandOf, Slot, Credited;
    var c := Credited(event, log);
    OnePerSlot(event, log);
    forall q | q in log && Eligible(q) ensures CallOf(q) in Calls(c) && (event.dupeScope != "call" ==> KeyOf(q) in Keys(c)) {
      assert Taken(event, c, q);
      var p :| p in c && Slot(event, p) == Slot(event, q);
      SameSlot(event, p, q);
    }
    hide Taken, PlainBands;
    assert Calls(c) <= EligibleCalls(log) && Keys(c) <= EligibleKeys(log);
  }

  lemma {:induction false} OneKeyPerCall(c: seq<Qso>)
    requires forall i, j :: 0 <= i < j < |c| ==> CallOf(c[i]) != CallOf(c[j])
    requires Apart(c)
    ensures |Keys(c)| == |c| && |Calls(c)| == |c|
  {
    hide CallOf, KeyOf, Keys, Calls;
    if c == [] {
      NoNames(c);
    } else {
      var n := |c| - 1;
      OneKeyPerCall(c[..n]);
      LastNames(c);
    }
  }

  lemma NoNames(c: seq<Qso>)
    requires c == []
    ensures Keys(c) == {} && Calls(c) == {}
  {
  }

  lemma LastNames(c: seq<Qso>)
    requires c != []
    ensures var n := |c| - 1;
      && Keys(c) == Keys(c[..n]) + {KeyOf(c[n])} && Calls(c) == Calls(c[..n]) + {CallOf(c[n])}
      && (KeyOf(c[n]) in Keys(c[..n]) ==> exists i :: 0 <= i < n && KeyOf(c[i]) == KeyOf(c[n]))
      && (CallOf(c[n]) in Calls(c[..n]) ==> exists i :: 0 <= i < n && CallOf(c[i]) == CallOf(c[n]))
  {
    hide CallOf, KeyOf;
    var n := |c| - 1;
    assert c == c[..n] + [c[n]];
    assert forall p :: p in c <==> p in c[..n] || p == c[n];
  }

  /** Flat points times distinct calls in closed form: no order in it. */
  lemma FlatScore(x: Contest, log: seq<Qso>, rules: Rules)
    requires PlainBands(log) && rules.points.None?
    requires |Effective(rules)| == 1 && CounterOf(Effective(rules)[0].kind) == UniqueCalls
    ensures var worked := if x.event.dupeScope == "call" then |EligibleCalls(log)| else |EligibleKeys(log)|;
      Score(x, Credited(x.event, log), rules) == PartyTally.ContestScore(worked * rules.pointsPerQso, |EligibleCalls(log)|, 0, 0)
  {
    hide Effective, CounterOf, Credited, EligibleCalls, EligibleKeys, Keys, Calls, Eligible, PlainBands;
    var c := Credited(x.event, log);
    CreditedCalls(x.event, log);
    CreditedKeysApart(x.event, log);
    OnePerSlot(x.event, log);
    if x.event.dupeScope == "call" { OneKeyPerCall(c); }
    var rule := Effective(rules)[0];
    assert Effective(rules)[..0] == [];
    assert Total(x, c, Effective(rules)) == Total(x, c, []) + Count(x, c, rule);
  }

  /** Logging the same contacts in another order, or some of them twice, gives the same score. */
  lemma FlatScoreAnyOrder(x: Contest, a: seq<Qso>, b: seq<Qso>, rules: Rules)
    requires PlainBands(a) && rules.points.None?
    requires |Effective(rules)| == 1 && CounterOf(Effective(rules)[0].kind) == UniqueCalls
    requires forall q :: q in a <==> q in b
    ensures Score(x, Credited(x.event, a), rules) == Score(x, Credited(x.event, b), rules)
  {
    hide Effective, CounterOf, Credited, Score, Eligible, CallOf, KeyOf, BandOf;
    assert PlainBands(b);
    FlatScore(x, a, rules);
    FlatScore(x, b, rules);
    assert EligibleCalls(a) == EligibleCalls(b) && EligibleKeys(a) == EligibleKeys(b);
  }

  // ---------- Sums over a set of keys ----------

  ghost function SumWorth(keys: set<string>, worth: map<string, int>): int
    requires keys <= worth.Keys
  {
    if keys == {} then 0
    else
      var k :| k in keys;
      worth[k] + SumWorth(keys - {k}, worth)
  }

  lemma {:induction false} SumWorthTake(keys: set<string>, worth: map<string, int>, k: string)
    requires keys <= worth.Keys && k in keys
    ensures SumWorth(keys, worth) == worth[k] + SumWorth(keys - {k}, worth)
    decreases |keys|
  {
    var j :| j in keys && SumWorth(keys, worth) == worth[j] + SumWorth(keys - {j}, worth);
    if j != k {
      SumWorthTake(keys - {j}, worth, k);
      SumWorthTake(keys - {k}, worth, j);
      assert keys - {j} - {k} == keys - {k} - {j};
    }
  }

  /** Points by key, for contacts with distinct keys. */
  function Worths(x: Contest, c: seq<Qso>, r: PointsRule): (m: map<string, int>)
    ensures m.Keys == Keys(c)
  {
    if c == [] then map[]
    else
      var q := c[|c| - 1];
      assert c == c[..|c| - 1] + [q];
      assert forall p :: p in c <==> p in c[..|c| - 1] || p == q;
      Worths(x, c[..|c| - 1], r)[KeyOf(q) := PointsOf(r, BandOf(q), TiersOf(x, q))]
  }

  lemma ApartFront(c: seq<Qso>, i: nat)
    requires Apart(c) && i < |c| - 1
    ensures Apart(c[..|c| - 1]) && KeyOf(c[i]) != KeyOf(c[|c| - 1]) && c[i] in c[..|c| - 1]
  {
    hide KeyOf;
    assert c[..|c| - 1][i] == c[i];
  }

  lemma {:induction false} WorthOf(x: Contest, c: seq<Qso>, r: PointsRule, q: Qso)
    requires Apart(c) && q in c
    ensures Worths(x, c, r)[KeyOf(q)] == PointsOf(r, BandOf(q), TiersOf(x, q))
  {
    hide KeyOf, PointsOf, BandOf, TiersOf, Apart, Keys;
    var n := |c| - 1;
    var i :| 0 <= i < |c| && c[i] == q;
    if i < n {
      ApartFront(c, i);
      WorthOf(x, c[..n], r, q);
    }
  }

  lemma {:induction false} SumWorthsMore(keys: set<string>, worth: map<string, int>, k: string, v: int)
    requires keys <= worth.Keys && k !in keys
    ensures SumWorth(keys, worth[k := v]) == SumWorth(keys, worth)
    decreases |keys|
  {
    if keys != {} {
      var j :| j in keys && SumWorth(keys, worth) == worth[j] + SumWorth(keys - {j}, worth);
      SumWorthsMore(keys - {j}, worth, k, v);
      SumWorthTake(keys, worth[k := v], j);
    }
  }

  /** Summing by key in any order is summing over the counted contacts. */
  lemma {:induction false} SumByKey(x: Contest, c: seq<Qso>, r: PointsRule)
    requires Apart(c)
    ensures SumWorth(Keys(c), Worths(x, c, r)) == SumPoints(x, c, r)
  {
    hide KeyOf, PointsOf, BandOf, TiersOf, Keys, Apart;
    if c != [] {
      var n := |c| - 1;
      var q := c[n];
      var before := Worths(x, c[..n], r);
      var points := PointsOf(r, BandOf(q), TiersOf(x, q));
      LastKey(c);
      SumByKey(x, c[..n], r);
      assert Worths(x, c, r) == before[KeyOf(q) := points];
      SumWorthsMore(Keys(c[..n]), before, KeyOf(q), points);
      SumWorthTake(Keys(c), Worths(x, c, r), KeyOf(q));
    }
  }

  lemma LastKey(c: seq<Qso>)
    requires c != [] && Apart(c)
    ensures var front, k := c[..|c| - 1], KeyOf(c[|c| - 1]);
      Apart(front) && k in Keys(c) && k !in Keys(front) && Keys(c) - {k} == Keys(front)
  {
    hide KeyOf, Keys;
    LastNames(c);
  }

  // ---------- Counting pairs band by band ----------

  function PairsIn(m: map<string, set<Value>>, bands: set<string>): set<(string, Value)>
    requires bands <= m.Keys
  {
    set b, v | b in bands && v in m[b] :: (b, v)
  }

  function Row(b: string, values: set<Value>): set<(string, Value)> { set v | v in values :: (b, v) }

  lemma {:induction false} RowSize(b: string, values: set<Value>)
    ensures |Row(b, values)| == |values|
  {
    if values != {} {
      var v :| v in values;
      RowSize(b, values - {v});
      assert Row(b, values) == Row(b, values - {v}) + {(b, v)};
    }
  }

  lemma PairsMore(m: map<string, set<Value>>, bands: set<string>, b: string)
    requires bands <= m.Keys && b in m && b !in bands
    ensures |PairsIn(m, bands + {b})| == |PairsIn(m, bands)| + |m[b]|
    ensures Weighed(PairsIn(m, bands + {b})) == Weighed(PairsIn(m, bands)) + |m[b]| * BandBonus(b)
  {
    var before, row := PairsIn(m, bands), Row(b, m[b]);
    assert PairsIn(m, bands + {b}) == before + row && before !! row;
    RowSize(b, m[b]);
    WithBonusMore(before, b, row, 4);
    WithBonusMore(before, b, row, 3);
    WithBonusMore(before, b, row, 2);
    hide PairsIn, Row, WithBonus, Norm;
  }

  lemma WithBonusMore(before: set<(string, Value)>, b: string, row: set<(string, Value)>, n: nat)
    requires before !! row && forall p :: p in row ==> p.0 == b
    ensures |WithBonus(before + row, n)| == |WithBonus(before, n)| + (if BandBonus(b) == n then |row| else 0)
  {
    hide BandBonus;
    if BandBonus(b) == n {
      assert WithBonus(before + row, n) == WithBonus(before, n) + row;
    } else {
      assert WithBonus(before + row, n) == WithBonus(before, n);
    }
  }
}
