/** What an import adds to the table, told from the contacts themselves. */
module ImportMeaning {
  import opened Text
  import opened Clock
  import opened Adif
  import opened AdifQso
  import opened AdifImport

  /** The same call on the same band at the same second, in one profile. */
  predicate Same(p: Qso, q: Qso) { p.call == q.call && p.band == q.band && p.time == q.time && p.profile == q.profile }

  ghost predicate Dated(qsos: seq<Qso>) { forall q <- qsos :: Valid(q.time) }

  /** Neither a row of the table nor an earlier contact is the same. */
  predicate New(rows: seq<Qso>, earlier: seq<Qso>, q: Qso) {
    (forall r <- rows :: !Same(r, q)) && (forall p <- earlier :: !Same(p, q))
  }

  /** The contacts of a list that are new when their turn comes, in order. */
  function NewOnes(rows: seq<Qso>, qsos: seq<Qso>): seq<Qso> {
    if qsos == [] then []
    else
      var n := |qsos| - 1;
      NewOnes(rows, qsos[..n]) + if New(rows, qsos[..n], qsos[n]) then [qsos[n]] else []
  }

  /** The contact stands at place `i`, where it is new. */
  predicate NewAt(rows: seq<Qso>, qsos: seq<Qso>, q: Qso, i: nat)
    requires i < |qsos|
  {
    qsos[i] == q && New(rows, qsos[..i], q)
  }

  /** A contact is added exactly when its first occurrence is new to the table. */
  lemma {:induction false} NewOnesAre(rows: seq<Qso>, qsos: seq<Qso>, q: Qso)
    ensures q in NewOnes(rows, qsos) <==> exists i :: 0 <= i < |qsos| && NewAt(rows, qsos, q, i)
  {
    hide New;
    if qsos != [] {
      var n := |qsos| - 1;
      var front := qsos[..n];
      NewOnesAre(rows, front, q);
      forall i | 0 <= i < n ensures NewAt(rows, front, q, i) <==> NewAt(rows, qsos, q, i) { assert front[..i] == qsos[..i]; }
      assert NewAt(rows, qsos, q, n) <==> qsos[n] == q && New(rows, front, q);
      hide NewAt;
    }
  }

  lemma SameKey(p: Qso, q: Qso)
    requires Valid(p.time) && Valid(q.time)
    ensures KeyOf(p) == KeyOf(q) <==> Same(p, q)
  {
    StampOrder(p.time, q.time);
    SecondsOrder(p.time, q.time);
    hide Stamp, Seconds;
  }

  lemma StoredSame(w: World, p: Qso, q: Qso)
    ensures Same(Stored(w, p), q) <==> Same(p, q)
    ensures Stored(w, p).time == p.time
  {
  }

  /** What the table holds once a list was inserted: a row for the same contact as every contact of the list. */
  lemma {:induction false} OnFileAfter(w: World, rows: seq<Qso>, qsos: seq<Qso>, q: Qso)
    requires Dated(rows) && Dated(qsos) && Valid(q.time)
    ensures Dated(InsertAll(w, rows, qsos))
    ensures OnFile(InsertAll(w, rows, qsos), KeyOf(q)) <==> !New(rows, qsos, q)
  {
    hide Stored, Same, KeyOf;
    if qsos == [] {
      forall r | r in rows ensures KeyOf(r) == KeyOf(q) <==> Same(r, q) { SameKey(r, q); }
    } else {
      var n := |qsos| - 1;
      var front, last := qsos[..n], qsos[n];
      assert qsos == front + [last] && Dated(front);
      OnFileAfter(w, rows, front, q);
      OnFileAfter(w, rows, front, last);
      OnFileNext(w, InsertAll(w, rows, front), last, q);
      SameKey(last, q);
      assert New(rows, qsos, q) <==> New(rows, front, q) && !Same(last, q) by {
        assert forall p :: p in qsos <==> p in front || p == last;
      }
    }
  }

  lemma OnFileNext(w: World, rows: seq<Qso>, p: Qso, q: Qso)
    requires Dated(rows) && Valid(p.time)
    ensures Dated(InsertOne(w, rows, p))
    ensures OnFile(InsertOne(w, rows, p), KeyOf(q)) <==> OnFile(rows, KeyOf(q)) || KeyOf(p) == KeyOf(q)
  {
    StoredSame(w, p, p);
    var s := Stored(w, p);
    hide KeyOf, Stored;
    assert forall r :: r in rows + [s] <==> r in rows || r == s;
  }

  /** A row as stored: the contact, with the country, entity and zones looked up for it. */
  predicate IsRowOf(w: World, row: Qso, q: Qso) {
    row == q.(country := w.enrich(q).0, dxccNumber := w.enrich(q).1, cqZone := w.enrich(q).2, ituZone := w.enrich(q).3)
  }

  /** An import keeps every row and adds, in order, one row for each contact whose call, band, time and profile
      neither the table nor an earlier contact of the list has; the others add nothing. */
  lemma {:induction false} ImportAdds(w: World, rows: seq<Qso>, qsos: seq<Qso>)
    requires Dated(rows) && Dated(qsos)
    ensures var after, added := InsertAll(w, rows, qsos), NewOnes(rows, qsos);
      && |after| == |rows| + |added| && after[..|rows|] == rows
      && forall i :: 0 <= i < |added| ==> IsRowOf(w, after[|rows| + i], added[i])
  {
    hide Stored, New, IsRowOf, OnFile, KeyOf;
    if qsos != [] {
      var n := |qsos| - 1;
      var front, last := qsos[..n], qsos[n];
      assert qsos == front + [last] && Dated(front);
      ImportAdds(w, rows, front);
      OnFileAfter(w, rows, front, last);
      RowIs(w, last);
      var before, added := InsertAll(w, rows, front), NewOnes(rows, front);
      assert InsertAll(w, rows, qsos) == InsertOne(w, before, last);
      if New(rows, front, last) { RowAdded(w, rows, before, added, last); }
    }
  }

  lemma RowAdded(w: World, rows: seq<Qso>, before: seq<Qso>, added: seq<Qso>, q: Qso)
    requires |before| == |rows| + |added| && before[..|rows|] == rows && IsRowOf(w, Stored(w, q), q)
    requires forall i :: 0 <= i < |added| ==> IsRowOf(w, before[|rows| + i], added[i])
    ensures var after, more := before + [Stored(w, q)], added + [q];
      && |after| == |rows| + |more| && after[..|rows|] == rows
      && forall i :: 0 <= i < |more| ==> IsRowOf(w, after[|rows| + i], more[i])
  {
    hide Stored, IsRowOf;
    assert (before + [Stored(w, q)])[..|rows|] == before[..|rows|];
  }

  lemma RowIs(w: World, q: Qso)
    ensures IsRowOf(w, Stored(w, q), q)
  {
  }

  /** The contacts of a file are those of the records that read as a contact and pass the check of the store. */
  lemma {:induction false} AcceptedAre(w: World, records: seq<Record>, profile: int, q: Qso)
    ensures q in Accepted(w, records, profile)
            <==> exists i :: 0 <= i < |records| && QsoFromAdi(w.adif, records[i], profile) == Some(q) && w.valid(q)
    ensures |Accepted(w, records, profile)| <= |records|
    ensures forall p <- Accepted(w, records, profile) :: Valid(p.time) && p.profile == profile
  {
    hide QsoFromAdi;
    if records != [] {
      var n := |records| - 1;
      AcceptedAre(w, records[..n], profile, q);
      ReadQso(w, records[n], profile);
      if i :| 0 <= i < n && QsoFromAdi(w.adif, records[..n][i], profile) == Some(q) && w.valid(q) {
        assert records[i] == records[..n][i];
      }
      if i :| 0 <= i < |records| && QsoFromAdi(w.adif, records[i], profile) == Some(q) && w.valid(q) {
        if i < n { assert records[..n][i] == records[i]; }
      }
    }
  }

  lemma ReadQso(w: World, r: Record, profile: int)
    ensures QsoFromAdi(w.adif, r, profile).Some? ==>
              Valid(QsoFromAdi(w.adif, r, profile).value.time) && QsoFromAdi(w.adif, r, profile).value.profile == profile
  {
  }
}
