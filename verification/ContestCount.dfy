/** Multiplier counts over the counted contacts of a log, the advance predictor,
    and when the predictor is right. */
module ContestCount {
  import opened Text
  import opened Contest

  // ---------- Sets over the counted contacts ----------

  function Keys(c: seq<Qso>): set<string> { set q | q in c :: KeyOf(q) }

  function Calls(c: seq<Qso>): set<string> { set q | q in c :: CallOf(q) }

  /** The bands on which some contact brought a value of kind `k`. */
  function BandsWith(x: Contest, c: seq<Qso>, k: Kind): set<string> { set q | q in c && MultValue(x, q, k).Some? :: BandOf(q) }

  /** The values of kind `k` worked on one band. */
  function ValuesOn(x: Contest, c: seq<Qso>, k: Kind, band: string): set<Value> {
    set q | q in c && BandOf(q) == band && MultValue(x, q, k).Some? :: MultValue(x, q, k).value
  }

  /** The values of kind `k` worked on any band. */
  function ValuesAll(x: Contest, c: seq<Qso>, k: Kind): set<Value> {
    set q | q in c && MultValue(x, q, k).Some? :: MultValue(x, q, k).value
  }

  /** The distinct (band, value) pairs of kind `k`. */
  function Pairs(x: Contest, c: seq<Qso>, k: Kind): set<(string, Value)> {
    set q | q in c && MultValue(x, q, k).Some? :: (BandOf(q), MultValue(x, q, k).value)
  }

  lemma PairMember(x: Contest, c: seq<Qso>, k: Kind, band: string, v: Value)
    ensures (band, v) in Pairs(x, c, k) <==> v in ValuesOn(x, c, k, band)
  {
    hide MultValue, BandOf;
  }

  /** An "all" set is the union of its per-band sets. */
  lemma AllIsUnion(x: Contest, c: seq<Qso>, k: Kind)
    ensures ValuesAll(x, c, k) == set b, v | b in BandsWith(x, c, k) && v in ValuesOn(x, c, k, b) :: v
  {
    hide MultValue, BandOf;
    forall v | v in ValuesAll(x, c, k) ensures exists b :: b in BandsWith(x, c, k) && v in ValuesOn(x, c, k, b) {
      var q :| q in c && MultValue(x, q, k).Some? && MultValue(x, q, k).value == v;
      assert BandOf(q) in BandsWith(x, c, k) && v in ValuesOn(x, c, k, BandOf(q));
    }
  }

  /** What one more counted contact adds to the sets. */
  lemma SetsGrow(x: Contest, c: seq<Qso>, q: Qso, k: Kind)
    ensures Pairs(x, c + [q], k) == Pairs(x, c, k) + (if MultValue(x, q, k).Some? then {(BandOf(q), MultValue(x, q, k).value)} else {})
    ensures ValuesAll(x, c + [q], k) == ValuesAll(x, c, k) + (if MultValue(x, q, k).Some? then {MultValue(x, q, k).value} else {})
  {
    hide MultValue, BandOf, Pairs, ValuesAll;
    PairsGrow(x, c, q, k);
    AllGrow(x, c, q, k);
  }

  lemma PairsGrow(x: Contest, c: seq<Qso>, q: Qso, k: Kind)
    ensures Pairs(x, c + [q], k) == Pairs(x, c, k) + (if MultValue(x, q, k).Some? then {(BandOf(q), MultValue(x, q, k).value)} else {})
  {
    hide MultValue, BandOf;
    assert forall p :: p in c + [q] <==> p in c || p == q;
  }

  lemma AllGrow(x: Contest, c: seq<Qso>, q: Qso, k: Kind)
    ensures ValuesAll(x, c + [q], k) == ValuesAll(x, c, k) + (if MultValue(x, q, k).Some? then {MultValue(x, q, k).value} else {})
  {
    hide MultValue, BandOf;
    assert forall p :: p in c + [q] <==> p in c || p == q;
  }

  lemma NamesGrow(c: seq<Qso>, q: Qso)
    ensures Calls(c + [q]) == Calls(c) + {CallOf(q)}
    ensures Keys(c + [q]) == Keys(c) + {KeyOf(q)}
  {
    hide CallOf, KeyOf;
    assert forall p :: p in c + [q] <==> p in c || p == q;
  }

  // ---------- Counting ----------

  function WithBonus(pairs: set<(string, Value)>, n: nat): set<(string, Value)> { set p | p in pairs && BandBonus(p.0) == n }

  /** Every pair counts as often as its band's bonus says. */
  function Weighed(pairs: set<(string, Value)>): nat {
    4 * |WithBonus(pairs, 4)| + 3 * |WithBonus(pairs, 3)| + 2 * |WithBonus(pairs, 2)|
  }

  function ScopedCount(x: Contest, c: seq<Qso>, k: Kind, scope: Scope): nat {
    match scope
    case PerBand => |Pairs(x, c, k)|
    case PerBandWeighted => Weighed(Pairs(x, c, k))
    case PerContest => |ValuesAll(x, c, k)|
  }

  /** The multipliers one rule contributes. */
  function Count(x: Contest, c: seq<Qso>, rule: Rule): nat {
    match CounterOf(rule.kind)
    case One => 1
    case UniqueCalls => |Calls(c)|
    case Tracked(k) => ScopedCount(x, c, k, CountScope(k, rule.per))
    case Unknown => 0
  }

  function Total(x: Contest, c: seq<Qso>, rules: seq<Rule>): nat {
    if rules == [] then 0 else Total(x, c, rules[..|rules| - 1]) + Count(x, c, rules[|rules| - 1])
  }

  lemma AddOne<T>(s: set<T>, e: T)
    ensures |s + {e}| == |s| + (if e in s then 0 else 1)
  {
    assert e in s ==> s + {e} == s;
  }

  lemma WithBonusGrow(pairs: set<(string, Value)>, p: (string, Value), n: nat)
    ensures |WithBonus(pairs + {p}, n)| == |WithBonus(pairs, n)| + (if p !in pairs && BandBonus(p.0) == n then 1 else 0)
  {
    hide BandBonus;
    if BandBonus(p.0) == n {
      AddOne(WithBonus(pairs, n), p);
      assert WithBonus(pairs + {p}, n) == WithBonus(pairs, n) + {p};
    } else {
      assert WithBonus(pairs + {p}, n) == WithBonus(pairs, n);
    }
  }

  lemma WeighedGrow(pairs: set<(string, Value)>, p: (string, Value))
    ensures Weighed(pairs + {p}) == Weighed(pairs) + (if p in pairs then 0 else BandBonus(p.0))
  {
    WithBonusGrow(pairs, p, 4);
    WithBonusGrow(pairs, p, 3);
    WithBonusGrow(pairs, p, 2);
    hide WithBonus, Norm;
  }

  /** How much a rule's count rises with one more counted contact. */
  function Gain(x: Contest, c: seq<Qso>, q: Qso, k: Kind, scope: Scope): nat {
    match MultValue(x, q, k)
    case None => 0
    case Some(v) =>
      match scope
      case PerBand => if v in ValuesOn(x, c, k, BandOf(q)) then 0 else 1
      case PerBandWeighted => if v in ValuesOn(x, c, k, BandOf(q)) then 0 else BandBonus(BandOf(q))
      case PerContest => if v in ValuesAll(x, c, k) then 0 else 1
  }

  lemma PairGain(x: Contest, c: seq<Qso>, q: Qso, k: Kind)
    ensures |Pairs(x, c + [q], k)| == |Pairs(x, c, k)| + Gain(x, c, q, k, PerBand)
    ensures Weighed(Pairs(x, c + [q], k)) == Weighed(Pairs(x, c, k)) + Gain(x, c, q, k, PerBandWeighted)
  {
    SetsGrow(x, c, q, k);
    var before, after := Pairs(x, c, k), Pairs(x, c + [q], k);
    hide MultValue, BandOf, Pairs, ValuesAll, ValuesOn, Weighed, BandBonus, Calls, Keys;
    if MultValue(x, q, k).Some? {
      var p := (BandOf(q), MultValue(x, q, k).value);
      PairMember(x, c, k, p.0, p.1);
      WeighedGrow(before, p);
      AddOne(before, p);
    } else {
      assert after == before;
    }
  }

  lemma ScopedGain(x: Contest, c: seq<Qso>, q: Qso, k: Kind, scope: Scope)
    ensures ScopedCount(x, c + [q], k, scope) == ScopedCount(x, c, k, scope) + Gain(x, c, q, k, scope)
  {
    if scope == PerContest {
      SetsGrow(x, c, q, k);
      hide MultValue, BandOf, Pairs, ValuesAll, ValuesOn, Weighed, BandBonus, Calls, Keys;
      match MultValue(x, q, k)
      case Some(v) => AddOne(ValuesAll(x, c, k), v);
      case None => assert ValuesAll(x, c + [q], k) == ValuesAll(x, c, k);
    } else {
      hide MultValue, BandOf, Pairs, ValuesAll, ValuesOn, Weighed, BandBonus;
      PairGain(x, c, q, k);
    }
  }

  // ---------- The predictor ----------

  datatype Verdict = Skipped | Worked | Fresh

  function Judge(already: bool): Verdict { if already then Worked else Fresh }

  /** The value the predictor looks for, from the entry fields alone. */
  function EntryValue(x: Contest, call: string, text: string, entity: Option<Entity>, k: Kind): Option<Value> {
    if FromEntity(k) then
      (match entity case Some(e) => EntityValue(x.env, Exchanged(x.event, e, text), call, k) case None => None)
    else
      match k
      case Prefix => NameValue(x.env.prefix(call))
      case IaruHq => NameValue(SpecialOf(text))
      case IaruZone => NumberValue(ZoneOf(text))
      case _ => NameValue(x.env.code(k, text))
  }

  function Predict(x: Contest, c: seq<Qso>, rule: Rule, call: string, band: string, text: string, entity: Option<Entity>): Verdict {
    match CounterOf(rule.kind)
    case One => Skipped
    case Unknown => Skipped
    case UniqueCalls => Judge(call in Calls(c))
    case Tracked(k) =>
      match EntryValue(x, call, text, entity, k)
      case None => Skipped
      case Some(v) => Judge(if CheckScope(k, rule.per) == PerContest then v in ValuesAll(x, c, k) else v in ValuesOn(x, c, k, band))
  }

  function PredictFor(x: Contest, c: seq<Qso>, rule: Rule, q: Qso): Verdict {
    Predict(x, c, rule, CallOf(q), BandOf(q), q.srx, x.env.lookup(CallOf(q)))
  }

  predicate NewMult(x: Contest, c: seq<Qso>, rules: seq<Rule>, q: Qso) {
    exists i :: 0 <= i < |rules| && PredictFor(x, c, rules[i], q) == Fresh
  }

  /** A contact logged straight from the entry fields: no recorded country, number
      or zones, no IOTA reference outside the exchange. */
  predicate Plain(x: Contest, q: Qso) {
    && TrimSpace(q.country) == ""
    && TrimSpace(q.dxcc) == "" && TrimSpace(q.cqZone) == "" && TrimSpace(q.ituZone) == ""
    && x.env.code(Iota, q.iotaRef) == ""
  }

  /** The two readings of a rule's scope agree on a band. */
  predicate Agrees(rule: Rule, band: string) {
    match CounterOf(rule.kind)
    case Tracked(k) =>
      || CountScope(k, rule.per) == CheckScope(k, rule.per)
      || (CountScope(k, rule.per) == PerBandWeighted && CheckScope(k, rule.per) == PerBand && BandBonus(band) > 0)
    case _ => true
  }

  /** Every kind agrees when counted per band or per contest. */
  lemma UsualScopesAgree(rule: Rule, band: string)
    requires TrimSpace(rule.per) == "band" || TrimSpace(rule.per) == "contest"
    ensures Agrees(rule, band)
  {
    hide CounterOf, BandBonus;
  }

  lemma PlainValue(x: Contest, q: Qso, k: Kind)
    requires Plain(x, q)
    ensures EntryValue(x, CallOf(q), q.srx, x.env.lookup(CallOf(q)), k) == MultValue(x, q, k)
  {
    hide Atoi, Norm, TrimSpace, InList, SpecialOf, ZoneOf, EntityValue;
    assert Atoi("") == None;
    ZoneOrSpecial(q.srx);
  }

  /** A rule on which the scopes agree predicts a new multiplier exactly when its count rises. */
  lemma PredictIsRise(x: Contest, c: seq<Qso>, rule: Rule, q: Qso)
    requires Plain(x, q) && Agrees(rule, BandOf(q))
    ensures PredictFor(x, c, rule, q) == Fresh <==> Count(x, c + [q], rule) > Count(x, c, rule)
  {
    hide CounterOf, MultValue, EntryValue, ValuesOn, ValuesAll, ScopedCount, BandBonus, BandOf, CountScope,
      CheckScope, Calls, CallOf, Pairs, Keys, KeyOf, Plain;
    NamesGrow(c, q);
    AddOne(Calls(c), CallOf(q));
    match CounterOf(rule.kind)
    case Tracked(k) =>
      PlainValue(x, q, k);
      ScopedGain(x, c, q, k, CountScope(k, rule.per));
    case _ =>
  }

  lemma CountGrows(x: Contest, c: seq<Qso>, rule: Rule, q: Qso)
    ensures Count(x, c + [q], rule) >= Count(x, c, rule)
  {
    hide CounterOf, Gain, ScopedCount, CountScope, Calls, CallOf, Pairs, Keys, KeyOf, ValuesAll;
    NamesGrow(c, q);
    AddOne(Calls(c), CallOf(q));
    match CounterOf(rule.kind)
    case Tracked(k) => ScopedGain(x, c, q, k, CountScope(k, rule.per));
    case _ =>
  }

  lemma {:induction false} NewMultIsRise(x: Contest, c: seq<Qso>, rules: seq<Rule>, q: Qso)
    requires Plain(x, q) && forall i :: 0 <= i < |rules| ==> Agrees(rules[i], BandOf(q))
    ensures NewMult(x, c, rules, q) <==> Total(x, c + [q], rules) > Total(x, c, rules)
    ensures Total(x, c + [q], rules) >= Total(x, c, rules)
  {
    hide Plain, Agrees, Count, PredictFor, BandOf;
    if rules != [] {
      var n := |rules| - 1;
      NewMultIsRise(x, c, rules[..n], q);
      PredictIsRise(x, c, rules[n], q);
      CountGrows(x, c, rules[n], q);
      NewMultSnoc(x, c, rules, q);
    }
  }

  lemma NewMultSnoc(x: Contest, c: seq<Qso>, rules: seq<Rule>, q: Qso)
    requires rules != []
    ensures var n := |rules| - 1;
      NewMult(x, c, rules, q) <==> NewMult(x, c, rules[..n], q) || PredictFor(x, c, rules[n], q) == Fresh
  {
    hide PredictFor;
    var n := |rules| - 1;
    if NewMult(x, c, rules[..n], q) {
      var i :| 0 <= i < n && PredictFor(x, c, rules[..n][i], q) == Fresh;
      assert rules[i] == rules[..n][i];
    }
    if i :| 0 <= i < n && PredictFor(x, c, rules[i], q) == Fresh {
      assert rules[..n][i] == rules[i];
    }
  }

  /** For a contact that will count, "new multiplier" is predicted exactly when the
      summed multiplier count strictly rises once the contact is logged. */
  lemma PredictorIsExact(x: Contest, log: seq<Qso>, rules: Rules, q: Qso)
    requires Eligible(q) && !Taken(x.event, Credited(x.event, log), q)
    requires Plain(x, q) && forall i :: 0 <= i < |Effective(rules)| ==> Agrees(Effective(rules)[i], BandOf(q))
    ensures NewMult(x, Credited(x.event, log), Effective(rules), q)
        <==> Total(x, Credited(x.event, log + [q]), Effective(rules)) > Total(x, Credited(x.event, log), Effective(rules))
  {
    CreditedAppend(x.event, log, q);
    hide Plain, Agrees, Eligible, Taken, Credited, Total, NewMult, Effective, BandOf;
    NewMultIsRise(x, Credited(x.event, log), Effective(rules), q);
  }

  // ---------- Where the predictor is wrong ----------

  /** A plain contact that will count. */
  predicate Candidate(x: Contest, log: seq<Qso>, q: Qso) {
    Eligible(q) && !Taken(x.event, Credited(x.event, log), q) && Plain(x, q)
  }

  predicate Right(x: Contest, log: seq<Qso>, rule: Rule, q: Qso) {
    (PredictFor(x, Credited(x.event, log), rule, q) == Fresh)
    <==> (Count(x, Credited(x.event, log + [q]), rule) > Count(x, Credited(x.event, log), rule))
  }

  /** A world in which every call is one entity and only `wae` decides its list. */
  function PlainWorld(wae: bool): Contest {
    Contest(Env(_ => "", (_, _) => "", (_, _) => "", _ => wae, _ => Some(Entity("X", 1, 1, 1, "")), (_, _) => None),
            Event("", "", []), None)
  }

  function PlainQso(band: string): Qso { Qso("A", band, "7", "", "", "", "", "", "", "", "", false) }

  lemma PlainTexts()
    ensures CallOf(PlainQso("")) == "A" && ZoneOf("7") == 7 && SpecialOf("7") == "" && Atoi("") == None && TrimSpace("") == ""
  {
    assert TrimSpace("A") == "A" && ToUpper("A") == "A";
    assert TrimSpace("7") == "7" && ToUpper("7") == "7";
    assert NatValue("7") == 7 by { assert "7"[..0] == ""; }
  }

  lemma PlainWorldValue(wae: bool, band: string, k: Kind)
    requires Weighable(k) || BandFirst(k)
    requires wae <==> k.WaeCountry?
    ensures MultValue(PlainWorld(wae), PlainQso(band), k) == MultValue(PlainWorld(wae), PlainQso(""), k)
    ensures MultValue(PlainWorld(wae), PlainQso(band), k).Some?
  {
    PlainTexts();
    PlainWorldEntity(wae, band);
    PlainWorldEntity(wae, "");
    hide Atoi, Norm, TrimSpace, SpecialOf, ZoneOf, InList, EntityOf, CallOf;
  }

  lemma PlainWorldEntity(wae: bool, band: string)
    ensures EntityOf(PlainWorld(wae), PlainQso(band)) == Some(Entity("X", 1, 1, 1, ""))
  {
    assert TrimSpace("") == "" && Atoi("") == None;
    hide Atoi, Norm, TrimSpace, InList;
  }

  lemma PlainWorldSlot(wae: bool, band: string)
    ensures Plain(PlainWorld(wae), PlainQso(band)) && Eligible(PlainQso(band))
    ensures Slot(PlainWorld(wae).event, PlainQso(band)) == "A|" + Norm(band)
  {
    PlainTexts();
    assert CallOf(PlainQso(band)) == CallOf(PlainQso(""));
    hide Norm, TrimSpace, CallOf;
  }

  function OtherBand(band: string): (r: string)
    ensures Norm(r) == r && Norm(r) != band
  {
    assert forall s: string :: |s| == 1 && IsDigit(s[0]) ==> TrimSpace(s) == s && ToUpper(s) == s;
    if band == "1" then "2" else "1"
  }

  lemma TwoCredited(event: Event, p: Qso, q: Qso)
    requires Eligible(p) && Eligible(q) && Slot(event, p) != Slot(event, q)
    ensures Credited(event, []) == [] && Credited(event, [p]) == [p]
    ensures !Taken(event, [], q) && !Taken(event, [p], q)
  {
    hide Eligible, Slot;
    CreditedAppend(event, [], p);
    assert [] + [p] == [p];
  }

  lemma PlainWorldLogs(wae: bool, band: string, k: Kind)
    requires Norm(band) == band && (Weighable(k) || BandFirst(k)) && (wae <==> k.WaeCountry?)
    ensures var x, q, p := PlainWorld(wae), PlainQso(band), PlainQso(OtherBand(band));
      && Candidate(x, [], q) && Candidate(x, [p], q) && BandOf(q) == band && BandOf(p) != band
      && Credited(x.event, []) == [] && Credited(x.event, [p]) == [p]
      && MultValue(x, q, k).Some? && MultValue(x, p, k) == MultValue(x, q, k)
  {
    var x, q, p := PlainWorld(wae), PlainQso(band), PlainQso(OtherBand(band));
    PlainWorldValue(wae, band, k);
    PlainWorldValue(wae, OtherBand(band), k);
    PlainWorldSlot(wae, band);
    PlainWorldSlot(wae, OtherBand(band));
    assert BandOf(q) == band && BandOf(p) == OtherBand(band);
    assert "A|" + band != "A|" + OtherBand(band) by {
      assert ("A|" + band)[2..] == band && ("A|" + OtherBand(band))[2..] == OtherBand(band);
    }
    hide MultValue, Plain, Slot, Eligible, PlainWorld, PlainQso, BandOf, Norm, Taken, Credited;
    TwoCredited(x.event, p, q);
  }

  /** What being right means for a tracked kind: the looked-up set misses the value exactly when the count gains. */
  lemma RightByGain(x: Contest, log: seq<Qso>, rule: Rule, q: Qso, k: Kind)
    requires Candidate(x, log, q) && CounterOf(rule.kind) == Tracked(k) && MultValue(x, q, k).Some?
    ensures var c, v := Credited(x.event, log), MultValue(x, q, k).value;
      Right(x, log, rule, q)
      <==> (v !in (if CheckScope(k, rule.per) == PerContest then ValuesAll(x, c, k) else ValuesOn(x, c, k, BandOf(q)))
            <==> Gain(x, c, q, k, CountScope(k, rule.per)) > 0)
  {
    PlainValue(x, q, k);
    CreditedAppend(x.event, log, q);
    ScopedGain(x, Credited(x.event, log), q, k, CountScope(k, rule.per));
    hide CounterOf, MultValue, ValuesOn, ValuesAll, ScopedCount, EntryValue, BandOf, BandBonus, Credited, Gain,
      Plain, Eligible, Taken, CheckScope, CountScope;
  }

  lemma Disagreement(rule: Rule, band: string, k: Kind)
    requires CounterOf(rule.kind) == Tracked(k) && !Agrees(rule, band)
    ensures Weighable(k) || BandFirst(k)
    ensures var count, check := CountScope(k, rule.per), CheckScope(k, rule.per);
      || (count == PerContest && check == PerBand)
      || (count == PerBandWeighted && (check == PerContest || BandBonus(band) == 0))
  {
    hide CounterOf, BandBonus;
  }

  /** Two logs show it: nothing worked yet, or the value worked on another band. */
  lemma PlainWorldWrong(wae: bool, rule: Rule, band: string, k: Kind)
    requires Norm(band) == band && CounterOf(rule.kind) == Tracked(k) && !Agrees(rule, band) && (wae <==> k.WaeCountry?)
    ensures var x, q, p := PlainWorld(wae), PlainQso(band), PlainQso(OtherBand(band));
      BandOf(q) == band
      && ((Candidate(x, [], q) && !Right(x, [], rule, q)) || (Candidate(x, [p], q) && !Right(x, [p], rule, q)))
  {
    hide *;
    var x, q, p := PlainWorld(wae), PlainQso(band), PlainQso(OtherBand(band));
    Disagreement(rule, band, k);
    PlainWorldLogs(wae, band, k);
    PlainValues(x, p, q, k);
    if CountScope(k, rule.per) == PerBandWeighted && BandBonus(band) == 0 {
      WrongAtFirst(x, q, rule, k);
    } else {
      WrongAfterOther(x, p, q, rule, k);
    }
  }

  /** The value is new where nothing is logged, and known on all bands but new on its own after the other contact. */
  lemma PlainValues(x: Contest, p: Qso, q: Qso, k: Kind)
    requires MultValue(x, q, k).Some? && MultValue(x, p, k) == MultValue(x, q, k) && BandOf(p) != BandOf(q)
    ensures var v := MultValue(x, q, k).value;
      && v !in ValuesAll(x, [], k) && v !in ValuesOn(x, [], k, BandOf(q))
      && v in ValuesAll(x, [p], k) && v !in ValuesOn(x, [p], k, BandOf(q))
  {
    hide MultValue, BandOf;
    assert p in [p];
  }

  lemma WrongAfterOther(x: Contest, p: Qso, q: Qso, rule: Rule, k: Kind)
    requires Candidate(x, [p], q) && Credited(x.event, [p]) == [p] && CounterOf(rule.kind) == Tracked(k) && MultValue(x, q, k).Some?
    requires var v := MultValue(x, q, k).value; v in ValuesAll(x, [p], k) && v !in ValuesOn(x, [p], k, BandOf(q))
    requires (CountScope(k, rule.per) == PerContest && CheckScope(k, rule.per) == PerBand)
          || (CountScope(k, rule.per) == PerBandWeighted && CheckScope(k, rule.per) == PerContest && BandBonus(BandOf(q)) > 0)
    ensures !Right(x, [p], rule, q)
  {
    RightByGain(x, [p], rule, q, k);
    hide Candidate, Right, CounterOf, MultValue, ValuesAll, ValuesOn, Credited, CountScope, CheckScope, BandOf,
      BandBonus;
  }

  lemma WrongAtFirst(x: Contest, q: Qso, rule: Rule, k: Kind)
    requires Candidate(x, [], q) && Credited(x.event, []) == [] && CounterOf(rule.kind) == Tracked(k) && MultValue(x, q, k).Some?
    requires var v := MultValue(x, q, k).value; v !in ValuesAll(x, [], k) && v !in ValuesOn(x, [], k, BandOf(q))
    requires CountScope(k, rule.per) == PerBandWeighted && BandBonus(BandOf(q)) == 0
    ensures !Right(x, [], rule, q)
  {
    RightByGain(x, [], rule, q, k);
    hide Candidate, Right, CounterOf, MultValue, ValuesAll, ValuesOn, Credited, CountScope, CheckScope, BandOf,
      BandBonus;
  }

  /** On a band, a rule's prediction is right for every contest, log and candidate
      exactly when the two readings of its scope agree there. */
  lemma AgreementIsExact(rule: Rule, band: string)
    requires Norm(band) == band
    ensures Agrees(rule, band) <==> forall x, log, q :: Candidate(x, log, q) && BandOf(q) == band ==> Right(x, log, rule, q)
  {
    if Agrees(rule, band) {
      forall x, log, q | Candidate(x, log, q) && BandOf(q) == band ensures Right(x, log, rule, q) {
        CreditedAppend(x.event, log, q);
        PredictIsRise(x, Credited(x.event, log), rule, q);
      }
    } else {
      var k := CounterOf(rule.kind).kind;
      PlainWorldWrong(k.WaeCountry?, rule, band, k);
    }
  }
}
