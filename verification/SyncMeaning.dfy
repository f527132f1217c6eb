/** What a sync writes and which contact each confirmation is linked to, told from the
    records, the contacts and their times. */
module SyncMeaning {
  import opened Text
  import opened Clock
  import opened Adif
  import opened RecordFields
  import LotwReport
  import opened Confirmations
  import opened ConfirmationSync

  // ---------- The contact a confirmation is linked to ----------

  /** A date and a time written side by side are the time `t`. */
  ghost predicate TimeIs(text: string, t: Civil) { Valid(t) && Stamp(t) == text }

  /** Two times lie half an hour apart at most, the window around the second ending before year 10000. */
  ghost predicate Near(u: Civil, t: Civil)
    requires Valid(u) && Valid(t)
  {
    Seconds(t) + 1800 < EndOfTime() && Seconds(t) <= Seconds(u) + 1800 && Seconds(u) <= Seconds(t) + 1800
  }

  /** The contact is of the confirmation's profile, call and band, and near its time. */
  ghost predicate Fits(k: Key, c: Contact) {
    && c.profile == k.profile && ToUpper(c.call) == k.call && ToUpper(c.band) == k.band
    && exists t, u :: TimeIs(k.date + k.time, t) && TimeIs(c.stamp, u) && Near(u, t)
  }

  ghost predicate OfMode(k: Key, c: Contact) { k.mode != "" && ToUpper(ToUpper(c.mode)) == ToUpper(k.mode) }

  /** Seconds between a contact and the confirmed time. */
  ghost predicate Apart(k: Key, c: Contact, gap: nat) {
    exists t, u :: TimeIs(k.date + k.time, t) && TimeIs(c.stamp, u)
      && gap == if Seconds(t) < Seconds(u) then Seconds(u) - Seconds(t) else Seconds(t) - Seconds(u)
  }

  /** The confirmed mode comes first, then the smaller distance in time. */
  ghost predicate Preferred(k: Key, c: Contact, d: Contact) {
    || (OfMode(k, c) && !OfMode(k, d))
    || ((OfMode(k, c) <==> OfMode(k, d)) && exists x: nat, y: nat :: Apart(k, c, x) && Apart(k, d, y) && x < y)
  }

  ghost predicate FitsAt(contacts: map<int, Contact>, scan: seq<int>, k: Key, i: nat)
    requires i < |scan|
  {
    scan[i] in contacts && Fits(k, contacts[scan[i]])
  }

  /** Place `i` of the scan holds a contact that fits; no other that fits is preferred, and none before it is as good. */
  ghost predicate FirstChoice(contacts: map<int, Contact>, scan: seq<int>, k: Key, i: nat)
    requires i < |scan|
  {
    && FitsAt(contacts, scan, k, i)
    && forall j :: 0 <= j < |scan| && FitsAt(contacts, scan, k, j) ==>
         && !Preferred(k, contacts[scan[j]], contacts[scan[i]])
         && (j < i ==> Preferred(k, contacts[scan[i]], contacts[scan[j]]))
  }

  lemma TimeMeans(text: string, t: Civil)
    ensures TimeIs(text, t) <==> ParseStamp(text) == Some(t)
  {
    if Valid(t) { StampParses(t); }
    if ParseStamp(text).Some? { StampOfParsed(text); }
  }

  lemma FitsMeans(k: Key, c: Contact)
    ensures Fits(k, c) <==> ConfirmedAt(k).Some? && IsCandidate(k, ConfirmedAt(k).value, c)
  {
    hide Stamp, Seconds, EndOfTime, InWindow, TimeIs, ParseStamp, ToUpper;
    forall t ensures TimeIs(k.date + k.time, t) <==> ParseStamp(k.date + k.time) == Some(t) { TimeMeans(k.date + k.time, t); }
    forall u ensures TimeIs(c.stamp, u) <==> ParseStamp(c.stamp) == Some(u) { TimeMeans(c.stamp, u); }
    if ParseStamp(k.date + k.time).Some? && ParseStamp(c.stamp).Some? {
      var t, u := ParseStamp(k.date + k.time).value, ParseStamp(c.stamp).value;
      SecondsBound(t);
      StampOfParsed(c.stamp);
      WindowIsHalfHour(u, Seconds(t));
    }
  }

  lemma PreferredMeans(k: Key, at: nat, p: int, q: int, c: Contact, d: Contact)
    requires ConfirmedAt(k) == Some(at) && IsCandidate(k, at, c) && IsCandidate(k, at, d)
    ensures Preferred(k, c, d) <==> Better(CandidateOf(k, at, p, c), CandidateOf(k, at, q, d))
  {
    hide Stamp, Seconds, EndOfTime, InWindow, TimeIs, ParseStamp, ToUpper, Apart, TrimSpace;
    ApartMeans(k, at, c);
    ApartMeans(k, at, d);
    var x, y := Gap(Seconds(ParseStamp(c.stamp).value), at), Gap(Seconds(ParseStamp(d.stamp).value), at);
    assert Apart(k, c, x) && Apart(k, d, y);
  }

  lemma ApartMeans(k: Key, at: nat, c: Contact)
    requires ConfirmedAt(k) == Some(at) && IsCandidate(k, at, c)
    ensures forall gap: nat :: Apart(k, c, gap) <==> gap == Gap(Seconds(ParseStamp(c.stamp).value), at)
  {
    hide Stamp, Seconds, EndOfTime, InWindow, TimeIs, ParseStamp, ToUpper, TrimSpace;
    forall t ensures TimeIs(k.date + k.time, t) <==> ParseStamp(k.date + k.time) == Some(t) { TimeMeans(k.date + k.time, t); }
    forall u ensures TimeIs(c.stamp, u) <==> ParseStamp(c.stamp) == Some(u) { TimeMeans(c.stamp, u); }
  }

  lemma FrontChoice(contacts: map<int, Contact>, scan: seq<int>, k: Key, i: nat)
    requires i < |scan| - 1 && FirstChoice(contacts, scan[..|scan| - 1], k, i)
    requires FitsAt(contacts, scan, k, |scan| - 1) ==> !Preferred(k, contacts[scan[|scan| - 1]], contacts[scan[i]])
    ensures FirstChoice(contacts, scan, k, i)
  {
    hide Fits, Preferred;
    var front := scan[..|scan| - 1];
    assert forall j :: 0 <= j < |front| ==> front[j] == scan[j] && (FitsAt(contacts, front, k, j) <==> FitsAt(contacts, scan, k, j));
  }

  lemma LastChoice(contacts: map<int, Contact>, scan: seq<int>, k: Key)
    requires scan != [] && FitsAt(contacts, scan, k, |scan| - 1)
    requires forall j :: 0 <= j < |scan| - 1 && FitsAt(contacts, scan, k, j) ==> Preferred(k, contacts[scan[|scan| - 1]], contacts[scan[j]])
    requires forall j :: 0 <= j < |scan| && FitsAt(contacts, scan, k, j) ==> !Preferred(k, contacts[scan[j]], contacts[scan[|scan| - 1]])
    ensures FirstChoice(contacts, scan, k, |scan| - 1)
  {
    hide Fits, Preferred, FitsAt;
  }

  /** The order of preference is strict and total up to ties. */
  lemma PreferredOrder(k: Key, c: Contact, d: Contact, e: Contact)
    requires Fits(k, c) && Fits(k, d) && Fits(k, e)
    ensures !Preferred(k, c, c) && (Preferred(k, c, d) ==> !Preferred(k, d, c))
    ensures Preferred(k, c, d) && !Preferred(k, e, d) ==> Preferred(k, c, e)
  {
    hide Preferred, CandidateOf, IsCandidate, Fits, ConfirmedAt;
    FitsMeans(k, c);
    FitsMeans(k, d);
    FitsMeans(k, e);
    var at := ConfirmedAt(k).value;
    PreferredMeans(k, at, 0, 0, c, c);
    PreferredMeans(k, at, 0, 0, c, d);
    PreferredMeans(k, at, 0, 0, d, c);
    PreferredMeans(k, at, 0, 0, e, d);
    PreferredMeans(k, at, 0, 0, c, e);
  }

  /** The candidates of a scan, and the best of them, are places of the scan. */
  lemma {:induction false} BestOfScan(contacts: map<int, Contact>, scan: seq<int>, k: Key, at: nat)
    requires ConfirmedAt(k) == Some(at)
    ensures var cs := Candidates(contacts, scan, k, at);
      && (cs == [] ==> forall j :: 0 <= j < |scan| ==> !FitsAt(contacts, scan, k, j))
      && (cs != [] ==> exists i :: 0 <= i < |scan| && FirstChoice(contacts, scan, k, i)
                         && scan[i] in contacts && IsCandidate(k, at, contacts[scan[i]]) && cs[FirstBest(cs)] == CandidateOf(k, at, scan[i], contacts[scan[i]]))
  {
    hide IsCandidate, CandidateOf, Fits, Preferred, ConfirmedAt, Better, FirstChoice;
    if scan != [] {
      var n := |scan| - 1;
      var front, id := scan[..n], scan[n];
      BestOfScan(contacts, front, k, at);
      var before := Candidates(contacts, front, k, at);
      assert forall j :: 0 <= j < n ==> (FitsAt(contacts, front, k, j) <==> FitsAt(contacts, scan, k, j));
      if id in contacts { FitsMeans(k, contacts[id]); }
      if before != [] {
        var i :| 0 <= i < n && FirstChoice(contacts, front, k, i) && front[i] in contacts && IsCandidate(k, at, contacts[front[i]])
                 && before[FirstBest(before)] == CandidateOf(k, at, front[i], contacts[front[i]]);
        BestWithLast(contacts, scan, k, at, i, before);
      } else if FitsAt(contacts, scan, k, n) {
        var c := CandidateOf(k, at, id, contacts[id]);
        assert Candidates(contacts, scan, k, at) == [c];
        PreferredOrder(k, contacts[id], contacts[id], contacts[id]);
        LastChoice(contacts, scan, k);
        assert FirstBest([c]) == 0;
      }
    }
  }

  lemma BestWithLast(contacts: map<int, Contact>, scan: seq<int>, k: Key, at: nat, i: nat, before: seq<Candidate>)
    requires ConfirmedAt(k) == Some(at) && scan != [] && i < |scan| - 1
    requires before == Candidates(contacts, scan[..|scan| - 1], k, at) && before != []
    requires FirstChoice(contacts, scan[..|scan| - 1], k, i) && scan[i] in contacts && IsCandidate(k, at, contacts[scan[i]])
    requires before[FirstBest(before)] == CandidateOf(k, at, scan[i], contacts[scan[i]])
    ensures var cs := Candidates(contacts, scan, k, at);
      cs != [] && exists j :: 0 <= j < |scan| && FirstChoice(contacts, scan, k, j)
                    && scan[j] in contacts && IsCandidate(k, at, contacts[scan[j]]) && cs[FirstBest(cs)] == CandidateOf(k, at, scan[j], contacts[scan[j]])
  {
    hide IsCandidate, CandidateOf, Fits, Preferred, ConfirmedAt, Better, FirstChoice;
    var n := |scan| - 1;
    var id := scan[n];
    var cs := Candidates(contacts, scan, k, at);
    if id in contacts { FitsMeans(k, contacts[id]); }
    if id in contacts && IsCandidate(k, at, contacts[id]) {
      var c := CandidateOf(k, at, id, contacts[id]);
      BestOfMore(before, c);
      PreferredMeans(k, at, id, scan[i], contacts[id], contacts[scan[i]]);
      if Better(c, before[FirstBest(before)]) {
        Overtakes(contacts, scan, k, i);
        assert cs[FirstBest(cs)] == c;
      } else {
        FrontChoice(contacts, scan, k, i);
      }
    } else {
      assert cs == before;
      FrontChoice(contacts, scan, k, i);
    }
  }

  lemma BestOfMore(cs: seq<Candidate>, c: Candidate)
    requires cs != []
    ensures (cs + [c])[FirstBest(cs + [c])] == if Better(c, cs[FirstBest(cs)]) then c else cs[FirstBest(cs)]
  {
    hide Better;
    assert (cs + [c])[..|cs|] == cs;
  }

  lemma Overtakes(contacts: map<int, Contact>, scan: seq<int>, k: Key, i: nat)
    requires i < |scan| - 1 && FirstChoice(contacts, scan[..|scan| - 1], k, i) && FitsAt(contacts, scan, k, |scan| - 1)
    requires Preferred(k, contacts[scan[|scan| - 1]], contacts[scan[i]])
    ensures FirstChoice(contacts, scan, k, |scan| - 1)
  {
    hide Fits, Preferred;
    var n := |scan| - 1;
    var front, last := scan[..n], contacts[scan[n]];
    forall j | 0 <= j < |scan| && FitsAt(contacts, scan, k, j)
      ensures !Preferred(k, contacts[scan[j]], last) && (j < n ==> Preferred(k, last, contacts[scan[j]]))
    {
      if j < n {
        assert front[j] == scan[j] && FitsAt(contacts, front, k, j);
        PreferredOrder(k, last, contacts[scan[i]], contacts[scan[j]]);
        PreferredOrder(k, last, contacts[scan[j]], last);
      } else {
        PreferredOrder(k, last, last, last);
      }
    }
  }

  lemma OneChoice(contacts: map<int, Contact>, scan: seq<int>, k: Key, i: nat, j: nat)
    requires i < |scan| && j < |scan| && FirstChoice(contacts, scan, k, i) && FirstChoice(contacts, scan, k, j)
    ensures i == j
  {
    hide Fits, Preferred;
  }

  /** A confirmation is linked to the first choice among the contacts that fit, and only when it names a band, a date and a time. */
  lemma LinkMeans(contacts: map<int, Contact>, scan: seq<int>, k: Key, id: int)
    ensures LinkOf(contacts, scan, k) == Some(id)
        <==> k.band != "" && |k.date| == 8 && |k.time| == 6
             && exists i :: 0 <= i < |scan| && scan[i] == id && FirstChoice(contacts, scan, k, i)
  {
    hide IsCandidate, CandidateOf, Fits, Preferred, Better, FirstChoice, ConfirmedAt, Candidates;
    if ConfirmedAt(k).Some? {
      BestOfScan(contacts, scan, k, ConfirmedAt(k).value);
    }
    forall i | 0 <= i < |scan| && FirstChoice(contacts, scan, k, i) ensures ConfirmedAt(k).Some? && FitsAt(contacts, scan, k, i) {
      ChoiceFits(contacts, scan, k, i);
    }
    forall i, j | 0 <= i < |scan| && 0 <= j < |scan| && FirstChoice(contacts, scan, k, i) && FirstChoice(contacts, scan, k, j)
      ensures i == j { OneChoice(contacts, scan, k, i, j); }
  }

  lemma ChoiceFits(contacts: map<int, Contact>, scan: seq<int>, k: Key, i: nat)
    requires i < |scan| && FirstChoice(contacts, scan, k, i)
    ensures ConfirmedAt(k).Some? && FitsAt(contacts, scan, k, i)
  {
    FitsMeans(k, contacts[scan[i]]);
    hide Fits, Preferred, IsCandidate, ConfirmedAt;
  }

  // ---------- What one record says ----------

  /** The start time, HHMM completed to seconds. */
  ghost predicate SaysTime(r: Record, text: string) {
    exists raw :: SaysTrimmed(r, "TIME_ON", raw) && text == if |raw| == 4 then raw + "00" else raw
  }

  /** The key under which a record is kept. */
  ghost predicate KeyIs(profile: int, r: Record, k: Key) {
    && k.profile == profile && SaysUpper(r, "CALL", k.call) && SaysUpper(r, "BAND", k.band)
    && (exists mode :: SaysEither(r, "MODE", "APP_LOTW_MODE", mode) && k.mode == ToUpper(TrimSpace(mode)))
    && SaysTrimmed(r, "QSO_DATE", k.date) && SaysTime(r, k.time)
  }

  /** What is kept of a record beside its key. */
  ghost predicate RowSays(r: Record, row: Row) {
    && SaysTrimmed(r, "DXCC", row.dxcc) && SaysTrimmed(r, "COUNTRY", row.country) && SaysTrimmed(r, "CQZ", row.cqz)
    && SaysUpper(r, "GRIDSQUARE", row.grid) && SaysUpper(r, "STATE", row.state) && SaysUpper(r, "IOTA", row.iota)
    && SaysEither(r, "CREDIT_GRANTED", "APP_LOTW_CREDIT_GRANTED", row.credit)
  }

  lemma KeyMeans(profile: int, r: Record, k: Key)
    ensures KeyIs(profile, r, k) <==> k == KeyOf(profile, r)
  {
    hide TrimSpace, ToUpper, SaysTrimmed, SaysUpper, SaysEither;
    SaysTexts(r, "CALL", Value(r, "CALL"));
    SaysTexts(r, "BAND", Value(r, "BAND"));
    SaysTexts(r, "QSO_DATE", Value(r, "QSO_DATE"));
    SaysTexts(r, "TIME_ON", Value(r, "TIME_ON"));
    SaysFirst(r, "MODE", "APP_LOTW_MODE", Value(r, "MODE"), Value(r, "APP_LOTW_MODE"));
    assert SaysTrimmed(r, "TIME_ON", TrimSpace(Value(r, "TIME_ON")));
    assert SaysEither(r, "MODE", "APP_LOTW_MODE", FirstNonEmpty(Value(r, "MODE"), Value(r, "APP_LOTW_MODE")));
  }

  lemma RowMeans(r: Record, row: Row)
    ensures RowSays(r, row) <==> row == RowOf(row.contact, r)
  {
    hide TrimSpace, ToUpper, SaysTrimmed, SaysUpper, SaysEither, FirstNonEmpty;
    SaysTexts(r, "DXCC", Value(r, "DXCC"));
    SaysTexts(r, "COUNTRY", Value(r, "COUNTRY"));
    SaysTexts(r, "CQZ", Value(r, "CQZ"));
    SaysTexts(r, "GRIDSQUARE", Value(r, "GRIDSQUARE"));
    SaysTexts(r, "STATE", Value(r, "STATE"));
    SaysTexts(r, "IOTA", Value(r, "IOTA"));
    SaysFirst(r, "CREDIT_GRANTED", "APP_LOTW_CREDIT_GRANTED", Value(r, "CREDIT_GRANTED"), Value(r, "APP_LOTW_CREDIT_GRANTED"));
  }

  // ---------- What a sync writes ----------

  /** A record without a call is skipped. */
  ghost predicate HasCall(r: Record) { !SaysUpper(r, "CALL", "") }

  lemma HasCallMeans(r: Record)
    ensures HasCall(r) <==> Named(r)
  {
    hide SaysUpper, TrimSpace, ToUpper;
    SaysTexts(r, "CALL", Value(r, "CALL"));
  }

  /** Record `i` is the last one with a call that is kept under `k`. */
  ghost predicate LastUnder(profile: int, records: seq<Record>, k: Key, i: nat)
    requires i < |records|
  {
    && HasCall(records[i]) && KeyIs(profile, records[i], k)
    && forall j :: i < j < |records| && HasCall(records[j]) ==> !KeyIs(profile, records[j], k)
  }

  /** One record more: its row is written when it has a call, every other row stays. */
  lemma RecordWrites(contacts: map<int, Contact>, scan: seq<int>, rows: map<Key, Row>, profile: int, r: Record, k: Key)
    ensures var after := Upserted(contacts, scan, rows, profile, r);
      && (HasCall(r) && KeyIs(profile, r, k) ==> k in after && RowSays(r, after[k]) && after[k].contact == LinkOf(contacts, scan, k))
      && (!(HasCall(r) && KeyIs(profile, r, k)) ==> (k in after <==> k in rows) && (k in rows ==> after[k] == rows[k]))
  {
    hide HasCall, KeyIs, RowSays, KeyOf, RowOf, Named, LinkOf;
    HasCallMeans(r);
    KeyMeans(profile, r, k);
    var link := LinkOf(contacts, scan, k);
    RowOfLink(link, r);
    RowMeans(r, RowOf(link, r));
  }

  lemma LastOfFront(profile: int, records: seq<Record>, k: Key, i: nat)
    requires i < |records| - 1 && LastUnder(profile, records, k, i)
    ensures LastUnder(profile, records[..|records| - 1], k, i) && !(HasCall(records[|records| - 1]) && KeyIs(profile, records[|records| - 1], k))
  {
    hide HasCall, KeyIs;
  }

  /** After the records of a response: a row per key of a record with a call, as its last record says and linked
      to the first choice among the contacts; every other row as before. */
  lemma {:induction false} RowsAfter(contacts: map<int, Contact>, scan: seq<int>, rows: map<Key, Row>, profile: int, records: seq<Record>, k: Key)
    ensures var after := UpsertedAll(contacts, scan, rows, profile, records);
      && (forall i :: 0 <= i < |records| && LastUnder(profile, records, k, i) ==>
            k in after && RowSays(records[i], after[k]) && after[k].contact == LinkOf(contacts, scan, k))
      && ((forall r <- records :: HasCall(r) ==> !KeyIs(profile, r, k)) ==>
            (k in after <==> k in rows) && (k in rows ==> after[k] == rows[k]))
  {
    hide HasCall, KeyIs, RowSays, LinkOf, LastUnder, Upserted;
    if records != [] {
      var n := |records| - 1;
      var front, last := records[..n], records[n];
      RowsAfter(contacts, scan, rows, profile, front, k);
      RecordWrites(contacts, scan, UpsertedAll(contacts, scan, rows, profile, front), profile, last, k);
      assert forall r <- front :: r in records;
      assert last in records;
      forall i | 0 <= i < n && LastUnder(profile, records, k, i)
        ensures LastUnder(profile, front, k, i) && front[i] == records[i] && !(HasCall(last) && KeyIs(profile, last, k)) {
        LastOfFront(profile, records, k, i);
      }
      if LastUnder(profile, records, k, n) { LastIsUnder(profile, records, k, n); }
    }
  }

  lemma LastIsUnder(profile: int, records: seq<Record>, k: Key, i: nat)
    requires i < |records| && LastUnder(profile, records, k, i)
    ensures HasCall(records[i]) && KeyIs(profile, records[i], k)
  {
  }

  /** A sync changes the tables only with an accepted response and a commit; then it writes the records and moves its
      bookmark to the marks the header names, each left as it was read when the header names none. */
  lemma SyncWrites(db: Db, profile: int, previous: Bookmark, scan: seq<int>, response: Option<string>, commits: bool)
    ensures var after := Synced(db, profile, previous, scan, response, commits);
      && after.contacts == db.contacts && after.nextId == db.nextId
      && (response == None || !commits ==> after == db)
      && (forall text :: response == Some(text) && LotwReport.Accepted(text) == None ==> after == db)
      && (forall text, report :: response == Some(text) && commits && LotwReport.Accepted(text) == Some(report) ==>
            && after.rows == UpsertedAll(db.contacts, scan, db.rows, profile, report.records)
            && exists qsl, rx :: SaysTrimmed(report.header, "APP_LOTW_LASTQSL", qsl) && SaysTrimmed(report.header, "APP_LOTW_LASTQSORX", rx)
                 && var mark := Bookmark(if qsl == "" then previous.lastQsl else qsl, if rx == "" then previous.lastQsoRx else rx);
                    after.bookmarks == if mark == previous then db.bookmarks else db.bookmarks[profile := mark])
  {
    hide UpsertedAll, LotwReport.Accepted, SaysTrimmed, SaysUpper, TrimSpace;
    if response.Some? && commits && LotwReport.Accepted(response.value).Some? {
      var header := LotwReport.Accepted(response.value).value.header;
      SaysTexts(header, "APP_LOTW_LASTQSL", Value(header, "APP_LOTW_LASTQSL"));
      SaysTexts(header, "APP_LOTW_LASTQSORX", Value(header, "APP_LOTW_LASTQSORX"));
      assert SaysTrimmed(header, "APP_LOTW_LASTQSL", TrimSpace(Value(header, "APP_LOTW_LASTQSL")));
      assert SaysTrimmed(header, "APP_LOTW_LASTQSORX", TrimSpace(Value(header, "APP_LOTW_LASTQSORX")));
    }
  }

  // ---------- Edits ----------

  /** An edit of the profile's own contact writes call and band; when either changes beyond case and blanks, the
      confirmations linked to it lose the link. Nothing else changes. */
  lemma EditWrites(db: Db, profile: int, id: int, call: string, band: string)
    ensures var after := Edited(db, profile, id, call, band);
      && after.bookmarks == db.bookmarks && after.nextId == db.nextId && after.rows.Keys == db.rows.Keys
      && (id !in db.contacts || db.contacts[id].profile != profile ==> after == db)
      && (id in db.contacts && db.contacts[id].profile == profile ==>
            && after.contacts == db.contacts[id := db.contacts[id].(call := call, band := band)]
            && var same := ToUpper(TrimSpace(db.contacts[id].call)) == ToUpper(TrimSpace(call))
                           && ToUpper(TrimSpace(db.contacts[id].band)) == ToUpper(TrimSpace(band));
               forall k <- db.rows :: after.rows[k] == if !same && db.rows[k].contact == Some(id) then db.rows[k].(contact := None) else db.rows[k])
  {
    hide TrimSpace, ToUpper;
  }

  /** Logging adds one contact under a new id; deleting removes the profile's own contact and no confirmation. */
  lemma ContactsChange(db: Db, c: Contact, profile: int, id: int)
    ensures Inserted(db, c) == Db(db.contacts[db.nextId := c], db.nextId + 1, db.rows, db.bookmarks)
    ensures Deleted(db, profile, id)
         == if id in db.contacts && db.contacts[id].profile == profile then Db(db.contacts - {id}, db.nextId, db.rows, db.bookmarks) else db
  {
  }

  // ---------- Runs ----------

  /** A run goes on step by step, from a table without marks on. */
  lemma RunsOn(db: Db, steps: seq<Step>, step: Step, profile: int)
    ensures After(db, []) == db && After(db, steps + [step]) == Next(After(db, steps), step)
    ensures profile !in db.bookmarks ==> BookmarkOf(db, profile) == Bookmark("", "")
    ensures profile in db.bookmarks ==> BookmarkOf(db, profile) == db.bookmarks[profile]
  {
    hide Next;
    assert (steps + [step])[..|steps|] == steps;
  }
}
