/** Callsign to entity: exact entries, prefixes bucketed by first character, and
    portable calls, proved equal to a search of the whole alias list. */
module Dxcc {
  import opened Text

  /** One parsed alias, in file order; `exact` marks a "=CALL" entry. */
  datatype Alias<E> = Alias(exact: bool, prefix: string, entity: E)

  // ---------- The reference: linear searches of the list ----------

  /** The last exact entry for a call. */
  function ExactIn<E>(list: seq<Alias<E>>, call: string): Option<E> {
    if list == [] then None
    else
      var a := list[|list| - 1];
      if a.exact && a.prefix == call then Some(a.entity) else ExactIn(list[..|list| - 1], call)
  }

  predicate Matches<E>(a: Alias<E>, candidate: string) { !a.exact && a.prefix <= candidate }

  /** Alias `i` is the longest matching prefix, the first one of its length. */
  predicate Longest<E>(list: seq<Alias<E>>, candidate: string, i: nat)
    requires i < |list|
  {
    && Matches(list[i], candidate)
    && (forall j :: 0 <= j < |list| && Matches(list[j], candidate) ==>
          |list[j].prefix| < |list[i].prefix| || (|list[j].prefix| == |list[i].prefix| && i <= j))
  }

  /** The best match so far, scanning from the left. */
  function Scan<E>(list: seq<Alias<E>>, candidate: string): (best: Option<Alias<E>>)
    ensures best.Some? ==> Matches(best.value, candidate)
  {
    if list == [] then None
    else
      var best, a := Scan(list[..|list| - 1], candidate), list[|list| - 1];
      if Matches(a, candidate) && (best.None? || |a.prefix| > |best.value.prefix|) then Some(a) else best
  }

  lemma {:induction false} ScanIsLongest<E>(list: seq<Alias<E>>, candidate: string)
    ensures var best := Scan(list, candidate);
      if best.None? then forall j :: 0 <= j < |list| ==> !Matches(list[j], candidate)
      else exists i :: 0 <= i < |list| && Longest(list, candidate, i) && best.value == list[i]
  {
    if list != [] {
      var n := |list| - 1;
      var front := list[..n];
      ScanIsLongest(front, candidate);
      var best := Scan(front, candidate);
      assert forall j :: 0 <= j < n ==> list[j] == front[j];
      hide Matches;
      if best.Some? {
        var i :| 0 <= i < n && Longest(front, candidate, i) && best.value == front[i];
        if Matches(list[n], candidate) && |list[n].prefix| > |list[i].prefix| {
          assert Longest(list, candidate, n);
        } else {
          assert Longest(list, candidate, i);
        }
      } else if Matches(list[n], candidate) {
        assert Longest(list, candidate, n);
      }
    }
  }

  function Bucket<E>(list: seq<Alias<E>>, first: char): seq<Alias<E>> {
    if list == [] then []
    else
      var rest, a := Bucket(list[..|list| - 1], first), list[|list| - 1];
      if !a.exact && a.prefix != "" && a.prefix[0] == first then rest + [a] else rest
  }

  /** Looking only in the candidate's bucket finds what the whole list would. */
  lemma {:induction false} BucketIsEnough<E>(list: seq<Alias<E>>, candidate: string)
    requires candidate != "" && forall j :: 0 <= j < |list| ==> list[j].prefix != ""
    ensures Scan(Bucket(list, candidate[0]), candidate) == Scan(list, candidate)
  {
    if list != [] {
      var n := |list| - 1;
      var bucket, a := Bucket(list[..n], candidate[0]), list[n];
      BucketIsEnough(list[..n], candidate);
      assert (bucket + [a])[..|bucket|] == bucket;
    }
  }

  function Candidate<E>(list: seq<Alias<E>>, candidate: string): Option<E> {
    if candidate == "" then None
    else if ExactIn(list, candidate).Some? then ExactIn(list, candidate)
    else
      match Scan(list, candidate)
      case Some(a) => Some(a.entity)
      case None => None
  }

  // ---------- Portable calls ----------

  predicate IsSuffix(s: string) {
    s == "P" || s == "M" || s == "MM" || s == "AM" || s == "QRP" || s == "A" || s == "B" || s == "LGT" || s == "BCN"
  }

  function NotSuffixes(segments: seq<string>): seq<string> {
    if segments == [] then []
    else (if IsSuffix(segments[0]) then [] else [segments[0]]) + NotSuffixes(segments[1..])
  }

  /** A segment that names a place: no plain modifier, and known to the table. */
  predicate Places<E>(list: seq<Alias<E>>, segment: string) { !IsSuffix(segment) && Candidate(list, segment).Some? }

  /** Segment `i` is the shortest one that names a place, the leftmost of its length. */
  predicate Chosen<E>(list: seq<Alias<E>>, segments: seq<string>, i: nat)
    requires i < |segments|
  {
    && Places(list, segments[i])
    && (forall j :: 0 <= j < |segments| && Places(list, segments[j]) ==>
          |segments[i]| < |segments[j]| || (|segments[i]| == |segments[j]| && i <= j))
  }

  /** sort.SliceStable by length. */
  function ByLength(s: seq<string>): seq<string> {
    if s == [] then [] else Insert(s[0], ByLength(s[1..]))
  }

  function Insert(x: string, s: seq<string>): seq<string> {
    if s == [] || |x| <= |s[0]| then [x] + s else [s[0]] + Insert(x, s[1..])
  }

  predicate Ascending(s: seq<string>) { forall i, j :: 0 <= i < j < |s| ==> |s[i]| <= |s[j]| }

  /** The first segment of a sequence that names a place. */
  function FirstPlace<E>(list: seq<Alias<E>>, s: seq<string>): (r: Option<string>)
    ensures r.Some? ==> r.value in s && Candidate(list, r.value).Some?
  {
    if s == [] then None else if Candidate(list, s[0]).Some? then Some(s[0]) else FirstPlace(list, s[1..])
  }

  lemma {:induction false} InsertKeeps(x: string, s: seq<string>)
    requires Ascending(s)
    ensures Ascending(Insert(x, s)) && forall y :: y in Insert(x, s) <==> y in s || y == x
  {
    if s != [] && |x| > |s[0]| {
      var rest := Insert(x, s[1..]);
      InsertKeeps(x, s[1..]);
      assert forall y :: y in s <==> y == s[0] || y in s[1..];
      assert forall y :: y in rest ==> |s[0]| <= |y|;
      assert forall i :: 0 <= i < |rest| ==> rest[i] in rest;
    }
  }

  lemma {:induction false} FirstOfInsert<E>(list: seq<Alias<E>>, x: string, s: seq<string>)
    requires Ascending(s)
    ensures var r := FirstPlace(list, s);
      FirstPlace(list, Insert(x, s))
        == if Candidate(list, x).Some? && (r.None? || |x| <= |r.value|) then Some(x) else r
  {
    hide Candidate;
    if s == [] || |x| <= |s[0]| {
      assert ([x] + s)[1..] == s;
      var r := FirstPlace(list, s);
      if r.Some? {
        var i :| 0 <= i < |s| && s[i] == r.value;
        assert |s[0]| <= |s[i]|;
      }
    } else {
      FirstOfInsert(list, x, s[1..]);
      assert ([s[0]] + Insert(x, s[1..]))[1..] == Insert(x, s[1..]);
      InsertedLater(list, x, s);
    }
  }

  lemma InsertedLater<E>(list: seq<Alias<E>>, x: string, s: seq<string>)
    requires s != [] && |x| > |s[0]|
    ensures FirstPlace(list, s) == Some(s[0]) ==> !(|x| <= |FirstPlace(list, s).value|)
  {
  }

  lemma {:induction false} ByLengthAscends(s: seq<string>)
    ensures Ascending(ByLength(s))
  {
    if s != [] {
      ByLengthAscends(s[1..]);
      InsertKeeps(s[0], ByLength(s[1..]));
    }
  }

  /** Trying the segments shortest first picks the shortest, leftmost one that names a place. */
  lemma {:induction false} FirstIsChosen<E>(list: seq<Alias<E>>, segments: seq<string>)
    ensures var r := FirstPlace(list, ByLength(NotSuffixes(segments)));
      if r.None? then forall j :: 0 <= j < |segments| ==> !Places(list, segments[j])
      else exists i :: 0 <= i < |segments| && Chosen(list, segments, i) && r.value == segments[i]
  {
    if segments == [] {
      assert ByLength(NotSuffixes(segments)) == [];
    } else {
      hide Candidate, IsSuffix, ByLength;
      var x, rest := segments[0], segments[1..];
      FirstIsChosen(list, rest);
      var r := FirstPlace(list, ByLength(NotSuffixes(rest)));
      if IsSuffix(x) {
        assert NotSuffixes(segments) == NotSuffixes(rest);
      } else {
        assert NotSuffixes(segments) == [x] + NotSuffixes(rest);
        ByLengthCons(x, NotSuffixes(rest));
        ByLengthAscends(NotSuffixes(rest));
        FirstOfInsert(list, x, ByLength(NotSuffixes(rest)));
      }
      ChosenCons(list, segments, r);
    }
  }

  lemma ByLengthCons(x: string, s: seq<string>)
    ensures ByLength([x] + s) == Insert(x, ByLength(s))
  {
    assert ([x] + s)[1..] == s;
  }

  lemma ChosenCons<E>(list: seq<Alias<E>>, segments: seq<string>, r: Option<string>)
    requires segments != []
    requires r.None? ==> forall j :: 0 <= j < |segments[1..]| ==> !Places(list, segments[1..][j])
    requires r.Some? ==> exists i :: 0 <= i < |segments[1..]| && Chosen(list, segments[1..], i) && r.value == segments[1..][i]
    ensures var x := segments[0];
      var best := if Places(list, x) && (r.None? || |x| <= |r.value|) then Some(x) else r;
      if best.None? then forall j :: 0 <= j < |segments| ==> !Places(list, segments[j])
      else exists i :: 0 <= i < |segments| && Chosen(list, segments, i) && best.value == segments[i]
  {
    var x, rest := segments[0], segments[1..];
    assert forall j :: 0 < j < |segments| ==> segments[j] == rest[j - 1];
    hide Places;
    if r.Some? {
      var i :| 0 <= i < |rest| && Chosen(list, rest, i) && r.value == rest[i];
      if Places(list, x) && |x| <= |r.value| {
        assert Chosen(list, segments, 0);
      } else {
        assert Chosen(list, segments, i + 1);
      }
    } else if Places(list, x) {
      assert Chosen(list, segments, 0);
    }
  }

  /** What a call resolves to. */
  function Resolve<E>(list: seq<Alias<E>>, call: string): Option<E> {
    var c := ToUpper(TrimSpace(call));
    if c == "" then None
    else if ExactIn(list, c).Some? then ExactIn(list, c)
    else if !Contains(c, '/') then Candidate(list, c)
    else
      match FirstPlace(list, ByLength(NotSuffixes(Split(c, '/'))))
      case Some(segment) => Candidate(list, segment)
      case None => None
  }

  /** A call's entity: its exact entry if there is one; else, without a slash, the
      longest prefix; else the entity of its shortest segment that names a place. */
  lemma ResolveMeans<E>(list: seq<Alias<E>>, call: string)
    ensures var c := ToUpper(TrimSpace(call));
      var segments := Split(c, '/');
      if c != "" && ExactIn(list, c).Some? then Resolve(list, call) == ExactIn(list, c)
      else if !Contains(c, '/') then Resolve(list, call) == Candidate(list, c)
      else if forall j :: 0 <= j < |segments| ==> !Places(list, segments[j]) then Resolve(list, call) == None
      else exists i :: 0 <= i < |segments| && Chosen(list, segments, i) && Resolve(list, call) == Candidate(list, segments[i])
  {
    var c := ToUpper(TrimSpace(call));
    FirstIsChosen(list, Split(c, '/'));
    hide ExactIn, Split, ByLength, NotSuffixes, Scan, TrimSpace, ToUpper, FirstPlace;
    if c != "" && ExactIn(list, c).None? && Contains(c, '/') {
      var r := FirstPlace(list, ByLength(NotSuffixes(Split(c, '/'))));
      if r.Some? {
        var i :| 0 <= i < |Split(c, '/')| && Chosen(list, Split(c, '/'), i) && r.value == Split(c, '/')[i];
        assert Places(list, Split(c, '/')[i]);
        assert Resolve(list, call) == Candidate(list, Split(c, '/')[i]);
      }
    }
  }

  // ---------- The entity of a call, told from the alias list ----------

  ghost predicate HasExact<E>(list: seq<Alias<E>>, text: string) {
    exists i :: 0 <= i < |list| && list[i].exact && list[i].prefix == text
  }

  /** Alias `i` is the last exact entry for a text. */
  ghost predicate LastExact<E>(list: seq<Alias<E>>, text: string, i: nat)
    requires i < |list|
  {
    && list[i].exact && list[i].prefix == text
    && forall j :: i < j < |list| && list[j].exact ==> list[j].prefix != text
  }

  /** Alias `i` is the longest prefix a text starts with, the first one of its length. */
  ghost predicate LongestPrefix<E>(list: seq<Alias<E>>, text: string, i: nat)
    requires i < |list|
  {
    && !list[i].exact && list[i].prefix <= text
    && forall j :: 0 <= j < |list| && !list[j].exact && list[j].prefix <= text ==>
         |list[j].prefix| < |list[i].prefix| || (|list[j].prefix| == |list[i].prefix| && i <= j)
  }

  /** The entity a text names: its exact entry, or the longest prefix when it has none. */
  ghost predicate Names<E>(list: seq<Alias<E>>, text: string, entity: E) {
    && text != ""
    && if HasExact(list, text) then exists i :: 0 <= i < |list| && LastExact(list, text, i) && list[i].entity == entity
       else exists i :: 0 <= i < |list| && LongestPrefix(list, text, i) && list[i].entity == entity
  }

  /** Some entry, exact or a prefix, covers a text. */
  ghost predicate Known<E>(list: seq<Alias<E>>, text: string) {
    text != "" && exists i :: 0 <= i < |list| && (if list[i].exact then list[i].prefix == text else list[i].prefix <= text)
  }

  /** A segment of a slashed call that tells a place: no operating modifier, and a known text. */
  ghost predicate TellsPlace<E>(list: seq<Alias<E>>, segment: string) {
    segment !in {"P", "M", "MM", "AM", "QRP", "A", "B", "LGT", "BCN"} && Known(list, segment)
  }

  /** Segment `i` is the shortest that tells a place, the leftmost of its length. */
  ghost predicate ShortestPlace<E>(list: seq<Alias<E>>, segments: seq<string>, i: nat)
    requires i < |segments|
  {
    && TellsPlace(list, segments[i])
    && forall j :: 0 <= j < |segments| && TellsPlace(list, segments[j]) ==>
         |segments[i]| < |segments[j]| || (|segments[i]| == |segments[j]| && i <= j)
  }

  /** The entity of a call as written: capitals, no blanks; its exact entry before anything else, then what it names or,
      with a slash, what its shortest telling segment names. */
  ghost predicate EntityIs<E>(list: seq<Alias<E>>, call: string, entity: E) {
    var c := ToUpper(TrimSpace(call));
    if HasExact(list, c) || '/' !in c then Names(list, c, entity)
    else exists i :: 0 <= i < |Split(c, '/')| && ShortestPlace(list, Split(c, '/'), i) && Names(list, Split(c, '/')[i], entity)
  }

  lemma {:induction false} ExactMeans<E>(list: seq<Alias<E>>, text: string)
    ensures ExactIn(list, text).Some? <==> HasExact(list, text)
    ensures ExactIn(list, text).Some? ==> exists i :: 0 <= i < |list| && LastExact(list, text, i) && ExactIn(list, text) == Some(list[i].entity)
  {
    if list != [] {
      var n := |list| - 1;
      var front := list[..n];
      ExactMeans(front, text);
      if list[n].exact && list[n].prefix == text {
        assert LastExact(list, text, n);
      } else if ExactIn(front, text).Some? {
        var i :| 0 <= i < n && LastExact(front, text, i) && ExactIn(front, text) == Some(front[i].entity);
        assert front[i] == list[i] && LastExact(list, text, i);
      } else {
        assert forall i :: 0 <= i < n ==> front[i] == list[i];
      }
    }
  }

  lemma OneLastExact<E>(list: seq<Alias<E>>, text: string, i: nat, j: nat)
    requires i < |list| && j < |list| && LastExact(list, text, i) && LastExact(list, text, j)
    ensures i == j
  {
  }

  lemma LongestMeans<E>(list: seq<Alias<E>>, text: string, i: nat)
    requires i < |list|
    ensures Longest(list, text, i) <==> LongestPrefix(list, text, i)
  {
    forall j ensures 0 <= j < |list| ==> (Matches(list[j], text) <==> !list[j].exact && list[j].prefix <= text) { }
  }

  lemma OneLongest<E>(list: seq<Alias<E>>, text: string, i: nat, j: nat)
    requires i < |list| && j < |list| && LongestPrefix(list, text, i) && LongestPrefix(list, text, j)
    ensures i == j
  {
  }

  /** What the search of one text finds is what the text names. */
  lemma CandidateMeans<E>(list: seq<Alias<E>>, text: string)
    ensures forall entity :: Candidate(list, text) == Some(entity) <==> Names(list, text, entity)
    ensures Candidate(list, text).Some? <==> Known(list, text)
  {
    hide LastExact, LongestPrefix, ExactIn, Scan, Longest, HasExact;
    ExactMeans(list, text);
    ScanIsLongest(list, text);
    forall i, j | 0 <= i < |list| && 0 <= j < |list| && LastExact(list, text, i) && LastExact(list, text, j)
      ensures i == j
    {
      OneLastExact(list, text, i, j);
    }
    forall i, j | 0 <= i < |list| && 0 <= j < |list| && LongestPrefix(list, text, i) && LongestPrefix(list, text, j)
      ensures i == j
    {
      OneLongest(list, text, i, j);
    }
    forall i | 0 <= i < |list| ensures Longest(list, text, i) <==> LongestPrefix(list, text, i) { LongestMeans(list, text, i); }
    if Scan(list, text).None? { NoLongest(list, text); }
    KnownWhen(list, text);
    hide Known;
  }

  lemma KnownWhen<E>(list: seq<Alias<E>>, text: string)
    ensures Known(list, text) <==> Candidate(list, text).Some?
  {
    ExactMeans(list, text);
    ScanIsLongest(list, text);
    hide ExactIn, Scan, LastExact;
    if HasExact(list, text) {
      var i :| 0 <= i < |list| && list[i].exact && list[i].prefix == text;
    }
    if i :| 0 <= i < |list| && Longest(list, text, i) { assert !list[i].exact && list[i].prefix <= text; }
  }

  lemma NoLongest<E>(list: seq<Alias<E>>, text: string)
    requires forall j :: 0 <= j < |list| ==> !Matches(list[j], text)
    ensures forall i :: 0 <= i < |list| ==> !LongestPrefix(list, text, i)
  {
  }

  lemma PlacesMeans<E>(list: seq<Alias<E>>, segments: seq<string>)
    ensures forall i :: 0 <= i < |segments| ==> (Places(list, segments[i]) <==> TellsPlace(list, segments[i]))
    ensures forall i :: 0 <= i < |segments| ==> (Chosen(list, segments, i) <==> ShortestPlace(list, segments, i))
  {
    hide Candidate, Known;
    forall i | 0 <= i < |segments| ensures Places(list, segments[i]) <==> TellsPlace(list, segments[i]) { CandidateMeans(list, segments[i]); }
    hide Places, TellsPlace;
  }

  lemma OneShortest<E>(list: seq<Alias<E>>, segments: seq<string>, i: nat, j: nat)
    requires i < |segments| && j < |segments| && ShortestPlace(list, segments, i) && ShortestPlace(list, segments, j)
    ensures i == j
  {
    hide TellsPlace;
  }

  /** A call resolves to the entity its alias list tells, and to none when it tells none. */
  lemma EntityMeans<E>(list: seq<Alias<E>>, call: string, entity: E)
    ensures Resolve(list, call) == Some(entity) <==> EntityIs(list, call, entity)
  {
    var c := ToUpper(TrimSpace(call));
    var segments := Split(c, '/');
    ResolveMeans(list, call);
    ExactMeans(list, c);
    CandidateMeans(list, c);
    PlacesMeans(list, segments);
    forall text ensures Candidate(list, text) == Some(entity) <==> Names(list, text, entity) { CandidateMeans(list, text); }
    forall i, j | 0 <= i < |segments| && 0 <= j < |segments| && ShortestPlace(list, segments, i) && ShortestPlace(list, segments, j)
      ensures i == j { OneShortest(list, segments, i, j); }
    hide ExactIn, Split, ToUpper, TrimSpace, Names, HasExact, ShortestPlace, Chosen,
      Places, TellsPlace, Known, Scan, LastExact, FirstPlace, ByLength, NotSuffixes;
  }

  // ---------- The table ----------

  class Table<E> {
    var exactAliases: map<string, E>
    var prefixByFirst: map<char, seq<Alias<E>>>
    ghost var list: seq<Alias<E>>

    ghost predicate Valid()
      reads this
    {
      && (forall j :: 0 <= j < |list| ==> list[j].prefix != "")
      && (forall call: string :: (call in exactAliases <==> ExactIn(list, call).Some?)
            && (call in exactAliases ==> ExactIn(list, call) == Some(exactAliases[call])))
      && (forall c: char :: Bucket(list, c) == if c in prefixByFirst then prefixByFirst[c] else [])
    }

    constructor ()
      ensures Valid() && list == []
    {
      exactAliases, prefixByFirst, list := map[], map[], [];
    }

    /** One parsed alias of the country file; a blank prefix is an error. */
    method AddAlias(a: Alias<E>) returns (ok: bool)
      requires Valid()
      modifies this
      ensures Valid() && ok == (a.prefix != "") && list == if ok then old(list) + [a] else old(list)
    {
      if a.prefix == "" { return false; }
      assert (list + [a])[..|list|] == list;
      if a.exact {
        exactAliases := exactAliases[a.prefix := a.entity];
      } else {
        var first := a.prefix[0];
        prefixByFirst := prefixByFirst[first := (if first in prefixByFirst then prefixByFirst[first] else []) + [a]];
      }
      list := list + [a];
      return true;
    }

    method LookupCandidate(candidate: string) returns (entity: Option<E>)
      requires Valid()
      ensures entity == Candidate(list, candidate)
    {
      if candidate == "" { return None; }
      if candidate in exactAliases { return Some(exactAliases[candidate]); }
      BucketIsEnough(list, candidate);
      var bucket := if candidate[0] in prefixByFirst then prefixByFirst[candidate[0]] else [];
      var best: Option<Alias<E>> := None;
      for i := 0 to |bucket|
        invariant best == Scan(bucket[..i], candidate)
      {
        assert bucket[..i + 1][..i] == bucket[..i];
        if Matches(bucket[i], candidate) && (best.None? || |bucket[i].prefix| > |best.value.prefix|) {
          best := Some(bucket[i]);
        }
      }
      assert bucket[..|bucket|] == bucket;
      entity := if best.Some? then Some(best.value.entity) else None;
    }

    method Lookup(call: string) returns (entity: Option<E>)
      requires Valid()
      ensures entity == Resolve(list, call)
    {
      hide Candidate, Split, TrimSpace;
      var c := ToUpper(TrimSpace(call));
      if c == "" { return None; }
      if c in exactAliases { return Some(exactAliases[c]); }
      if '/' !in c {
        entity := LookupCandidate(c);
        return;
      }
      var candidates := ByLength(NotSuffixes(Split(c, '/')));
      for i := 0 to |candidates|
        invariant FirstPlace(list, candidates) == FirstPlace(list, candidates[i..])
      {
        assert candidates[i..][1..] == candidates[i + 1..];
        entity := LookupCandidate(candidates[i]);
        if entity.Some? { return; }
      }
      return None;
    }
  }
}
