/** Matching a LoTW confirmation to a logged contact: the time window, compared as text,
    and the choice among the contacts that fit. */
module Confirmations {
  import opened Text
  import opened Clock

  /** A logged contact as the match sees it; `stamp` is qso_date and time_on side by side. */
  datatype Contact = Contact(profile: int, call: string, band: string, mode: string, stamp: string)

  /** The unique key of a confirmation. */
  datatype Key = Key(profile: int, call: string, band: string, mode: string, date: string, time: string)

  /** What a confirmation row holds besides its key; `contact` may name a deleted contact. */
  datatype Row = Row(contact: Option<int>, dxcc: string, country: string, grid: string, state: string, cqz: string,
                     credit: string, iota: string)

  datatype Bookmark = Bookmark(lastQsl: string, lastQsoRx: string)

  /** The tables; contact ids are never reused. */
  datatype Db = Db(contacts: map<int, Contact>, nextId: int, rows: map<Key, Row>, bookmarks: map<int, Bookmark>)

  const WINDOW: nat := 1800

  // ---------- Matching ----------

  /** The lower end of the window as text; before year 0 it sorts below every stamp. */
  function WindowStart(at: nat): string
    requires at < EndOfTime()
  {
    if at < WINDOW then "-" else Stamp(OfSeconds(at - WINDOW))
  }

  /** The upper end of the window as text; past year 9999 it has a digit more. */
  function WindowEnd(at: nat): string
    requires at < EndOfTime()
  {
    YearsExist();
    if at + WINDOW < EndOfTime() then Stamp(OfSeconds(at + WINDOW)) else "1" + Stamp(OfSeconds(at + WINDOW - EndOfTime()))
  }

  lemma YearsExist()
    ensures EndOfTime() > 2 * WINDOW
  {
    YearsGrow(1, 10000);
    assert DaysBeforeYear(1) == 366;
  }

  /** qso_date || time_on BETWEEN start AND end, as text. */
  predicate InWindow(stamp: string, at: nat)
    requires at < EndOfTime()
  {
    LexLeq(WindowStart(at), stamp) && LexLeq(stamp, WindowEnd(at))
  }

  function Gap(a: nat, b: nat): nat { if a < b then b - a else a - b }

  lemma BelowDigits(s: string)
    requires s != "" && AllDigits(s)
    ensures LexLeq("-", s)
  {
    assert '-' < s[0];
  }

  const LAST_NEW_YEAR := Civil(9999, 1, 1, 0, 0, 0)

  lemma LastYear()
    ensures Seconds(LAST_NEW_YEAR) <= EndOfTime() - 2 * WINDOW && Stamp(LAST_NEW_YEAR)[0] == '9'
  {
    assert DaysBeforeMonth(9999, 1) == 0;
    assert DaysBeforeYear(10000) == DaysBeforeYear(9999) + YearDays(9999);
    LastDigits();
  }

  lemma LastDigits()
    ensures Stamp(LAST_NEW_YEAR)[0] == '9'
  {
    assert Digits(9, 1) == "9" by { assert Digits(0, 0) == ""; }
    assert Digits(99, 2)[0] == '9';
    assert Digits(999, 3)[0] == '9';
  }

  /** A time in the last year sorts after the end of a window that passes year 9999. */
  lemma PastTheEnd(t: Civil, end: string)
    requires Valid(t) && LexLeq(Stamp(LAST_NEW_YEAR), Stamp(t)) && end != "" && end[0] == '1'
    ensures !LexLeq(Stamp(t), end)
  {
    hide Stamp;
    LastDigits();
    assert IsDigit(Stamp(t)[0]);
  }

  /** A window that passes year 9999 holds no time at all: its end, a digit longer, sorts before its start. */
  lemma WindowAtTheEnd(t: Civil, at: nat)
    requires Valid(t) && at < EndOfTime() <= at + WINDOW
    ensures !InWindow(Stamp(t), at)
  {
    hide Stamp, OfSeconds, LexLess, EndOfTime, Seconds;
    YearsExist();
    LastYear();
    if LexLeq(WindowStart(at), Stamp(t)) {
      StampOrder(OfSeconds(at - WINDOW), t);
      StampOrder(LAST_NEW_YEAR, t);
      PastTheEnd(t, WindowEnd(at));
    }
  }

  /** Text order finds exactly the contacts within half an hour, unless the window passes year 9999: then it finds none. */
  lemma WindowIsHalfHour(t: Civil, at: nat)
    requires Valid(t) && at < EndOfTime()
    ensures InWindow(Stamp(t), at) <==> at + WINDOW < EndOfTime() && Gap(Seconds(t), at) <= WINDOW
  {
    hide Stamp, OfSeconds, Seconds, LexLess, EndOfTime;
    if at + WINDOW < EndOfTime() {
      StampOrder(t, OfSeconds(at + WINDOW));
      if at < WINDOW {
        BelowDigits(Stamp(t));
      } else {
        StampOrder(OfSeconds(at - WINDOW), t);
      }
    } else {
      WindowAtTheEnd(t, at);
    }
  }

  /** The confirmed time, when date and time make one. */
  function ConfirmedAt(k: Key): (at: Option<nat>)
    ensures at.Some? ==> at.value < EndOfTime()
  {
    match ParseStamp(k.date + k.time)
    case Some(t) => SecondsBound(t); Some(Seconds(t))
    case None => None
  }

  /** A row the match query returns. */
  predicate IsCandidate(k: Key, at: nat, c: Contact)
    requires at < EndOfTime()
  {
    && c.profile == k.profile && ToUpper(c.call) == k.call && ToUpper(c.band) == k.band
    && InWindow(c.stamp, at) && ParseStamp(c.stamp).Some?
  }

  predicate ModeMatches(k: Key, c: Contact) { k.mode != "" && EqualFold(ToUpper(c.mode), k.mode) }

  /** A row the query returned: its id, whether its mode is the confirmed one, and its gap. */
  datatype Candidate = Candidate(id: int, sameMode: bool, gap: nat)

  function CandidateOf(k: Key, at: nat, id: int, c: Contact): (r: Candidate)
    requires at < EndOfTime() && IsCandidate(k, at, c)
    ensures r.id == id
  {
    Candidate(id, ModeMatches(k, c), Gap(Seconds(ParseStamp(c.stamp).value), at))
  }

  /** The rows in the order the query returns them. */
  function Candidates(contacts: map<int, Contact>, scan: seq<int>, k: Key, at: nat): seq<Candidate>
    requires at < EndOfTime()
  {
    if scan == [] then []
    else
      var n := |scan| - 1;
      var before := Candidates(contacts, scan[..n], k, at);
      if scan[n] in contacts && IsCandidate(k, at, contacts[scan[n]]) then before + [CandidateOf(k, at, scan[n], contacts[scan[n]])]
      else before
  }

  /** Mode first, then the smaller gap. */
  predicate Better(c: Candidate, d: Candidate) {
    (c.sameMode && !d.sameMode) || (c.sameMode == d.sameMode && c.gap < d.gap)
  }

  /** No candidate is better, and none before it is as good. */
  predicate Best(cs: seq<Candidate>, i: nat)
    requires i < |cs|
  {
    (forall j :: 0 <= j < |cs| ==> !Better(cs[j], cs[i])) && (forall j :: 0 <= j < i ==> Better(cs[i], cs[j]))
  }

  /** What the confirmation is linked to: nothing, or the first best candidate. */
  function Choice(cs: seq<Candidate>): (r: Option<int>)
  {
    if cs == [] then None else Some(cs[FirstBest(cs)].id)
  }

  function FirstBest(cs: seq<Candidate>): (i: nat)
    requires cs != []
    ensures i < |cs| && Best(cs, i)
  {
    var n := |cs| - 1;
    if n == 0 then 0
    else
      var i := FirstBest(cs[..n]);
      assert forall j :: 0 <= j < n ==> cs[j] == cs[..n][j];
      if Better(cs[n], cs[i]) then n else i
  }

  lemma BestStep(cs: seq<Candidate>, c: Candidate, best: nat)
    requires best < |cs| && Best(cs, best)
    ensures Best(cs + [c], if Better(c, cs[best]) then |cs| else best)
  {
    var more := cs + [c];
    assert more[|cs|] == c;
    assert forall j :: 0 <= j < |cs| ==> more[j] == cs[j];
  }

  lemma BestOver(cs: seq<Candidate>, i: nat, j: nat)
    requires i < |cs| && j < |cs| && Best(cs, i)
    ensures !Better(cs[j], cs[i]) && (j < i ==> Better(cs[i], cs[j]))
  {
  }

  /** Only one place can be first and best. */
  lemma BestIsUnique(cs: seq<Candidate>, i: nat, j: nat)
    requires i < |cs| && j < |cs| && Best(cs, i) && Best(cs, j)
    ensures i == j
  {
    BestOver(cs, i, j);
    BestOver(cs, j, i);
  }

  function Match(contacts: map<int, Contact>, scan: seq<int>, k: Key): Option<int> {
    match ConfirmedAt(k)
    case None => None
    case Some(at) => Choice(Candidates(contacts, scan, k, at))
  }

  /** The argmin loop of the match. */
  method PickBest(candidates: seq<Candidate>) returns (best: nat)
    requires candidates != []
    ensures best == FirstBest(candidates)
  {
    best := 0;
    for i := 1 to |candidates|
      invariant best < i && Best(candidates[..i], best)
    {
      BestStep(candidates[..i], candidates[i], best);
      assert candidates[..i + 1] == candidates[..i] + [candidates[i]];
      if Better(candidates[i], candidates[best]) { best := i; }
    }
    assert candidates[..|candidates|] == candidates;
    BestIsUnique(candidates, best, FirstBest(candidates));
  }

  /** matchLoTWConfirmation: the query, then the best of its rows. */
  method MatchConfirmation(contacts: map<int, Contact>, scan: seq<int>, k: Key) returns (found: Option<int>)
    ensures found == Match(contacts, scan, k)
  {
    hide IsCandidate, CandidateOf, ConfirmedAt, Better;
    var at := ConfirmedAt(k);
    if at.None? { return None; }
    var candidates: seq<Candidate> := [];
    for i := 0 to |scan|
      invariant candidates == Candidates(contacts, scan[..i], k, at.value)
    {
      assert scan[..i + 1][..i] == scan[..i];
      if scan[i] in contacts && IsCandidate(k, at.value, contacts[scan[i]]) {
        candidates := candidates + [CandidateOf(k, at.value, scan[i], contacts[scan[i]])];
      }
    }
    assert scan[..|scan|] == scan;
    if |candidates| == 0 { return None; }
    if |candidates| == 1 { return Some(candidates[0].id); }
    var best := PickBest(candidates);
    found := Some(candidates[best].id);
  }

  lemma {:induction false} CandidatesAreRows(contacts: map<int, Contact>, scan: seq<int>, k: Key, at: nat, i: nat)
    requires at < EndOfTime() && i < |Candidates(contacts, scan, k, at)|
    ensures var c := Candidates(contacts, scan, k, at)[i];
      c.id in scan && c.id in contacts && IsCandidate(k, at, contacts[c.id]) && c == CandidateOf(k, at, c.id, contacts[c.id])
  {
    hide IsCandidate, CandidateOf;
    var n := |scan| - 1;
    if i < |Candidates(contacts, scan[..n], k, at)| { CandidatesAreRows(contacts, scan[..n], k, at, i); }
  }

  lemma {:induction false} RowsAreCandidates(contacts: map<int, Contact>, scan: seq<int>, k: Key, at: nat, id: int)
    requires at < EndOfTime() && id in scan && id in contacts && IsCandidate(k, at, contacts[id])
    ensures CandidateOf(k, at, id, contacts[id]) in Candidates(contacts, scan, k, at)
  {
    hide IsCandidate, CandidateOf;
    var n := |scan| - 1;
    if id != scan[n] { RowsAreCandidates(contacts, scan[..n], k, at, id); }
  }

  /** The linked contact fits, and no contact that fits has the confirmed mode while the
      linked one lacks it, or an equal standing and a smaller gap. */
  lemma MatchIsBest(contacts: map<int, Contact>, scan: seq<int>, k: Key, id: int)
    requires Match(contacts, scan, k) == Some(id)
    ensures ConfirmedAt(k).Some? && id in contacts && IsCandidate(k, ConfirmedAt(k).value, contacts[id])
    ensures var at := ConfirmedAt(k).value;
      forall other :: other in scan && other in contacts && IsCandidate(k, at, contacts[other]) ==>
        !Better(CandidateOf(k, at, other, contacts[other]), CandidateOf(k, at, id, contacts[id]))
  {
    hide IsCandidate, CandidateOf, ConfirmedAt, Better;
    var at := ConfirmedAt(k).value;
    var cs := Candidates(contacts, scan, k, at);
    var i := FirstBest(cs);
    CandidatesAreRows(contacts, scan, k, at, i);
    forall other | other in scan && other in contacts && IsCandidate(k, at, contacts[other])
      ensures !Better(CandidateOf(k, at, other, contacts[other]), CandidateOf(k, at, id, contacts[id]))
    {
      RowsAreCandidates(contacts, scan, k, at, other);
      var j :| 0 <= j < |cs| && cs[j] == CandidateOf(k, at, other, contacts[other]);
      assert !Better(cs[j], cs[i]);
    }
  }

  /** Nothing is linked exactly when the time is no time or no contact fits. */
  lemma NoMatchWhenNoneFits(contacts: map<int, Contact>, scan: seq<int>, k: Key)
    ensures Match(contacts, scan, k) == None
        <==> (ConfirmedAt(k).Some? ==> forall id :: id in scan && id in contacts ==> !IsCandidate(k, ConfirmedAt(k).value, contacts[id]))
  {
    hide IsCandidate, CandidateOf, ConfirmedAt;
    if ConfirmedAt(k).Some? {
      var at := ConfirmedAt(k).value;
      var cs := Candidates(contacts, scan, k, at);
      if cs != [] { CandidatesAreRows(contacts, scan, k, at, 0); }
      forall id | id in scan && id in contacts && IsCandidate(k, at, contacts[id]) ensures cs != [] {
        RowsAreCandidates(contacts, scan, k, at, id);
      }
    }
  }
}
