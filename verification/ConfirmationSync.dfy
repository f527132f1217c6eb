/** Confirmation syncs as transactions, the edits that race them, and what stays true
    of the links and the bookmark over whole runs. */
module ConfirmationSync {
  import opened Text
  import opened Clock
  import opened Adif
  import LotwReport
  import opened Confirmations

  // ---------- One record ----------

  function Value(r: Record, name: string): string { if name in r then r[name] else "" }

  /** HHMM is completed to seconds. */
  function TimeOf(r: Record): string {
    var time := TrimSpace(Value(r, "TIME_ON"));
    if |time| == 4 then time + "00" else time
  }

  function KeyOf(profile: int, r: Record): Key {
    Key(profile, Norm(Value(r, "CALL")), Norm(Value(r, "BAND")), Norm(FirstNonEmpty(Value(r, "MODE"), Value(r, "APP_LOTW_MODE"))),
        TrimSpace(Value(r, "QSO_DATE")), TimeOf(r))
  }

  predicate Named(r: Record) { Norm(Value(r, "CALL")) != "" }

  /** The contact a record is linked to; a record without band, date or time is not matched. */
  function LinkOf(contacts: map<int, Contact>, scan: seq<int>, k: Key): Option<int> {
    if k.band == "" || |k.date| != 8 || |k.time| != 6 then None else Match(contacts, scan, k)
  }

  function RowOf(link: Option<int>, r: Record): Row {
    Row(link, TrimSpace(Value(r, "DXCC")), TrimSpace(Value(r, "COUNTRY")), Norm(Value(r, "GRIDSQUARE")), Norm(Value(r, "STATE")),
        TrimSpace(Value(r, "CQZ")), FirstNonEmpty(Value(r, "CREDIT_GRANTED"), Value(r, "APP_LOTW_CREDIT_GRANTED")), Norm(Value(r, "IOTA")))
  }

  /** upsertLoTWConfirmation. */
  function Upserted(contacts: map<int, Contact>, scan: seq<int>, rows: map<Key, Row>, profile: int, r: Record): map<Key, Row> {
    if !Named(r) then rows
    else
      var k := KeyOf(profile, r);
      rows[k := RowOf(LinkOf(contacts, scan, k), r)]
  }

  function UpsertedAll(contacts: map<int, Contact>, scan: seq<int>, rows: map<Key, Row>, profile: int, records: seq<Record>): map<Key, Row> {
    if records == [] then rows
    else
      var n := |records| - 1;
      Upserted(contacts, scan, UpsertedAll(contacts, scan, rows, profile, records[..n]), profile, records[n])
  }

  lemma UpsertNone(contacts: map<int, Contact>, scan: seq<int>, rows: map<Key, Row>, profile: int, records: seq<Record>)
    ensures UpsertedAll(contacts, scan, rows, profile, records[..0]) == rows
  {
  }

  lemma UpsertNext(contacts: map<int, Contact>, scan: seq<int>, rows: map<Key, Row>, profile: int, records: seq<Record>, i: nat)
    requires i < |records|
    ensures UpsertedAll(contacts, scan, rows, profile, records[..i + 1])
         == Upserted(contacts, scan, UpsertedAll(contacts, scan, rows, profile, records[..i]), profile, records[i])
  {
    hide Upserted;
    assert records[..i + 1][..i] == records[..i];
  }

  // ---------- Transactions ----------

  function BookmarkOf(db: Db, profile: int): Bookmark { if profile in db.bookmarks then db.bookmarks[profile] else Bookmark("", "") }

  function NewBookmark(previous: Bookmark, header: Record): Bookmark {
    var qsl, qso := TrimSpace(Value(header, "APP_LOTW_LASTQSL")), TrimSpace(Value(header, "APP_LOTW_LASTQSORX"));
    Bookmark(if qsl != "" then qsl else previous.lastQsl, if qso != "" then qso else previous.lastQsoRx)
  }

  /** A sync with an accepted report: every record and the bookmark in one transaction. `previous` is
      the bookmark as the sync read it before its query; another sync may have moved it since. */
  function Committed(db: Db, profile: int, previous: Bookmark, scan: seq<int>, report: LotwReport.Report): Db {
    var mark := NewBookmark(previous, report.header);
    db.(rows := UpsertedAll(db.contacts, scan, db.rows, profile, report.records),
        bookmarks := if mark == previous then db.bookmarks else db.bookmarks[profile := mark])
  }

  /** syncLoTWConfirmations: `response` is the body when the query got one; `commits` says the transaction went through. */
  function Synced(db: Db, profile: int, previous: Bookmark, scan: seq<int>, response: Option<string>, commits: bool): Db {
    if response.None? || !commits then db
    else
      match LotwReport.Accepted(response.value)
      case Some(report) => Committed(db, profile, previous, scan, report)
      case None => db
  }

  function Inserted(db: Db, c: Contact): Db { db.(contacts := db.contacts[db.nextId := c], nextId := db.nextId + 1) }

  predicate SameStation(c: Contact, call: string, band: string) {
    EqualFold(TrimSpace(c.call), TrimSpace(call)) && EqualFold(TrimSpace(c.band), TrimSpace(band))
  }

  function Unlinked(rows: map<Key, Row>, id: int): map<Key, Row> {
    map k | k in rows :: if rows[k].contact == Some(id) then rows[k].(contact := None) else rows[k]
  }

  /** updateQSO: call and band may change, profile and time do not; changing the station unlinks its confirmations. */
  function Edited(db: Db, profile: int, id: int, call: string, band: string): Db {
    if id !in db.contacts || db.contacts[id].profile != profile then db
    else
      var c := db.contacts[id];
      db.(contacts := db.contacts[id := c.(call := call, band := band)],
          rows := if SameStation(c, call, band) then db.rows else Unlinked(db.rows, id))
  }

  /** deleteQSO: the contact goes, a confirmation keeps its now dangling id. */
  function Deleted(db: Db, profile: int, id: int): Db {
    if id !in db.contacts || db.contacts[id].profile != profile then db else db.(contacts := db.contacts - {id})
  }

  class Store {
    var contacts: map<int, Contact>
    var nextId: int
    var rows: map<Key, Row>
    var bookmarks: map<int, Bookmark>

    ghost function State(): Db
      reads this
    {
      Db(contacts, nextId, rows, bookmarks)
    }

    /** The rows a transaction would commit. */
    method UpsertRecords(profile: int, scan: seq<int>, records: seq<Record>) returns (work: map<Key, Row>)
      ensures work == UpsertedAll(contacts, scan, rows, profile, records)
    {
      hide Match, KeyOf, RowOf, UpsertedAll, Named;
      work := rows;
      UpsertNone(contacts, scan, rows, profile, records);
      for i := 0 to |records|
        invariant work == UpsertedAll(contacts, scan, rows, profile, records[..i])
      {
        UpsertNext(contacts, scan, rows, profile, records, i);
        if Named(records[i]) {
          var k := KeyOf(profile, records[i]);
          var link: Option<int> := None;
          if k.band != "" && |k.date| == 8 && |k.time| == 6 {
            link := MatchConfirmation(contacts, scan, k);
          }
          work := work[k := RowOf(link, records[i])];
        }
      }
      assert records[..|records|] == records;
    }

    /** What a sync reads before its query. */
    method LoadBookmark(profile: int) returns (previous: Bookmark)
      ensures previous == BookmarkOf(State(), profile)
    {
      previous := if profile in bookmarks then bookmarks[profile] else Bookmark("", "");
    }

    method Sync(profile: int, previous: Bookmark, scan: seq<int>, response: Option<string>, commits: bool) returns (ok: bool)
      modifies this
      ensures State() == Synced(old(State()), profile, previous, scan, response, commits)
      ensures ok <==> response.Some? && commits && LotwReport.Accepted(response.value).Some?
    {
      hide UpsertedAll, LotwReport.Accepted, NewBookmark;
      if response.None? { return false; }
      var report := LotwReport.ReadReport(response.value);
      if report.None? { return false; }
      var mark := NewBookmark(previous, report.value.header);
      var work := UpsertRecords(profile, scan, report.value.records);
      if !commits { return false; }
      rows := work;
      if mark != previous { bookmarks := bookmarks[profile := mark]; }
      return true;
    }

    method InsertQso(c: Contact) returns (id: int)
      modifies this
      ensures State() == Inserted(old(State()), c) && id == old(nextId)
    {
      id := nextId;
      contacts, nextId := contacts[id := c], nextId + 1;
    }

    method UpdateQso(profile: int, id: int, call: string, band: string) returns (ok: bool)
      modifies this
      ensures State() == Edited(old(State()), profile, id, call, band)
      ensures ok <==> id in old(contacts) && old(contacts)[id].profile == profile
    {
      if id !in contacts || contacts[id].profile != profile { return false; }
      var previous := contacts[id];
      contacts := contacts[id := previous.(call := call, band := band)];
      if !EqualFold(TrimSpace(previous.call), TrimSpace(call)) || !EqualFold(TrimSpace(previous.band), TrimSpace(band)) {
        rows := map k | k in rows :: if rows[k].contact == Some(id) then rows[k].(contact := None) else rows[k];
      }
      return true;
    }

    method DeleteQso(profile: int, id: int) returns (ok: bool)
      modifies this
      ensures State() == Deleted(old(State()), profile, id)
      ensures ok <==> id in old(contacts) && old(contacts)[id].profile == profile
    {
      if id !in contacts || contacts[id].profile != profile { return false; }
      contacts := contacts - {id};
      return true;
    }
  }

  // ---------- Links stay true ----------

  /** A confirmation and a contact agree: profile, call and band up to case and blanks, and half an hour at most apart. */
  predicate Agrees(k: Key, c: Contact) {
    && c.profile == k.profile && Norm(c.call) == k.call && Norm(c.band) == k.band
    && ConfirmedAt(k).Some? && ParseStamp(c.stamp).Some?
    && Gap(Seconds(ParseStamp(c.stamp).value), ConfirmedAt(k).value) <= WINDOW
  }

  predicate RowOk(db: Db, k: Key)
    requires k in db.rows
  {
    match db.rows[k].contact
    case None => true
    case Some(id) => id < db.nextId && (id in db.contacts ==> Agrees(k, db.contacts[id]))
  }

  predicate Inv(db: Db) {
    && (forall id <- db.contacts :: id < db.nextId)
    && (forall k <- db.rows :: RowOk(db, k))
  }

  /** Folding case alone and folding with trimming agree once the folded text equals a normalised one. */
  lemma UpperIsNorm(c: string, k: string)
    requires ToUpper(c) == Norm(k)
    ensures Norm(c) == Norm(k)
  {
    TrimUpperCommute(c);
    NormTwice(k);
  }

  lemma CandidateClose(k: Key, at: nat, c: Contact)
    requires at < EndOfTime() && IsCandidate(k, at, c)
    ensures Gap(Seconds(ParseStamp(c.stamp).value), at) <= WINDOW
  {
    hide InWindow, Seconds, EndOfTime, Stamp;
    var t := ParseStamp(c.stamp).value;
    StampOfParsed(c.stamp);
    WindowIsHalfHour(t, at);
  }

  lemma CandidateAgrees(k: Key, call: string, band: string, c: Contact)
    requires k.call == Norm(call) && k.band == Norm(band)
    requires ConfirmedAt(k).Some? && IsCandidate(k, ConfirmedAt(k).value, c)
    ensures Agrees(k, c)
  {
    CandidateClose(k, ConfirmedAt(k).value, c);
    UpperIsNorm(c.call, call);
    UpperIsNorm(c.band, band);
    hide Norm, InWindow, Seconds, EndOfTime, ConfirmedAt;
  }

  lemma LinkAgrees(contacts: map<int, Contact>, scan: seq<int>, profile: int, r: Record)
    ensures var k := KeyOf(profile, r);
      LinkOf(contacts, scan, k).Some? ==> LinkOf(contacts, scan, k).value in contacts && Agrees(k, contacts[LinkOf(contacts, scan, k).value])
  {
    hide Match, Norm, IsCandidate, ConfirmedAt, Agrees;
    var k := KeyOf(profile, r);
    if LinkOf(contacts, scan, k).Some? {
      var id := LinkOf(contacts, scan, k).value;
      MatchIsBest(contacts, scan, k, id);
      CandidateAgrees(k, Value(r, "CALL"), Value(r, "BAND"), contacts[id]);
    }
  }

  lemma UpsertKeeps(db: Db, scan: seq<int>, profile: int, r: Record)
    requires Inv(db)
    ensures Inv(db.(rows := Upserted(db.contacts, scan, db.rows, profile, r)))
  {
    hide Agrees, KeyOf, LinkOf, RowOf, Named;
    LinkAgrees(db.contacts, scan, profile, r);
    RowOfLink(LinkOf(db.contacts, scan, KeyOf(profile, r)), r);
    var after := db.(rows := Upserted(db.contacts, scan, db.rows, profile, r));
    forall k | k in after.rows ensures RowOk(after, k) {
      if k in db.rows { assert RowOk(db, k); }
    }
  }

  lemma RowOfLink(link: Option<int>, r: Record)
    ensures RowOf(link, r).contact == link
  {
  }

  lemma {:induction false} UpsertsKeep(db: Db, scan: seq<int>, profile: int, records: seq<Record>)
    requires Inv(db)
    ensures Inv(db.(rows := UpsertedAll(db.contacts, scan, db.rows, profile, records)))
  {
    hide Inv, Upserted;
    if records == [] {
      assert db.(rows := db.rows) == db;
    } else {
      var n := |records| - 1;
      UpsertsKeep(db, scan, profile, records[..n]);
      UpsertKeeps(db.(rows := UpsertedAll(db.contacts, scan, db.rows, profile, records[..n])), scan, profile, records[n]);
    }
  }

  lemma SyncKeeps(db: Db, profile: int, previous: Bookmark, scan: seq<int>, response: Option<string>, commits: bool)
    requires Inv(db)
    ensures Inv(Synced(db, profile, previous, scan, response, commits))
  {
    hide UpsertedAll, NewBookmark, RowOk;
    if response.Some? && commits && LotwReport.Accepted(response.value).Some? {
      var records := LotwReport.Accepted(response.value).value.records;
      UpsertsKeep(db, scan, profile, records);
      SameRows(db.(rows := UpsertedAll(db.contacts, scan, db.rows, profile, records)), Synced(db, profile, previous, scan, response, commits));
    }
  }

  /** The bookmark has no part in the links. */
  lemma SameRows(a: Db, b: Db)
    requires Inv(a) && a.contacts == b.contacts && a.nextId == b.nextId && a.rows == b.rows
    ensures Inv(b)
  {
    hide Agrees;
    forall k | k in b.rows ensures RowOk(b, k) { assert RowOk(a, k); }
  }

  lemma InsertKeeps(db: Db, c: Contact)
    requires Inv(db)
    ensures Inv(Inserted(db, c))
  {
    hide Agrees;
    var after := Inserted(db, c);
    forall k | k in after.rows ensures RowOk(after, k) { assert RowOk(db, k); }
  }

  lemma EditAgrees(k: Key, c: Contact, call: string, band: string)
    requires Agrees(k, c) && SameStation(c, call, band)
    ensures Agrees(k, c.(call := call, band := band))
  {
    hide ConfirmedAt, TrimSpace, ToUpper, Seconds;
  }

  lemma EditKeeps(db: Db, profile: int, id: int, call: string, band: string)
    requires Inv(db)
    ensures Inv(Edited(db, profile, id, call, band))
  {
    hide Agrees, SameStation;
    var after := Edited(db, profile, id, call, band);
    forall k | k in after.rows ensures RowOk(after, k) {
      assert RowOk(db, k);
      if db.rows[k].contact == Some(id) && after != db && SameStation(db.contacts[id], call, band) {
        EditAgrees(k, db.contacts[id], call, band);
      }
    }
  }

  lemma DeleteKeeps(db: Db, profile: int, id: int)
    requires Inv(db)
    ensures Inv(Deleted(db, profile, id))
  {
    hide Agrees;
    var after := Deleted(db, profile, id);
    forall k | k in after.rows ensures RowOk(after, k) { assert RowOk(db, k); }
  }

  datatype Step =
    | Sync(profile: int, previous: Bookmark, scan: seq<int>, response: Option<string>, commits: bool)
    | Insert(contact: Contact)
    | Edit(profile: int, id: int, call: string, band: string)
    | Delete(profile: int, id: int)

  function Next(db: Db, step: Step): Db {
    match step
    case Sync(profile, previous, scan, response, commits) => Synced(db, profile, previous, scan, response, commits)
    case Insert(c) => Inserted(db, c)
    case Edit(profile, id, call, band) => Edited(db, profile, id, call, band)
    case Delete(profile, id) => Deleted(db, profile, id)
  }

  function After(db: Db, steps: seq<Step>): Db {
    if steps == [] then db else Next(After(db, steps[..|steps| - 1]), steps[|steps| - 1])
  }

  const EMPTY := Db(map[], 1, map[], map[])

  lemma {:induction false} RunKeeps(steps: seq<Step>)
    ensures Inv(After(EMPTY, steps))
  {
    hide Inv, Synced, Inserted, Edited, Deleted;
    if steps == [] {
      NothingLinked();
    } else {
      RunKeeps(steps[..|steps| - 1]);
      var db, step := After(EMPTY, steps[..|steps| - 1]), steps[|steps| - 1];
      match step
      case Sync(profile, previous, scan, response, commits) => SyncKeeps(db, profile, previous, scan, response, commits);
      case Insert(c) => InsertKeeps(db, c);
      case Edit(profile, id, call, band) => EditKeeps(db, profile, id, call, band);
      case Delete(profile, id) => DeleteKeeps(db, profile, id);
    }
  }

  lemma NothingLinked()
    ensures Inv(EMPTY)
  {
  }

  /** In every reachable state a confirmation linked to a live contact agrees with it
      on profile, call and band and lies within half an hour of it. */
  lemma LinksAgree(steps: seq<Step>, k: Key)
    ensures var db := After(EMPTY, steps);
      k in db.rows && db.rows[k].contact.Some? && db.rows[k].contact.value in db.contacts
      ==> Agrees(k, db.contacts[db.rows[k].contact.value])
  {
    hide Agrees, After;
    RunKeeps(steps);
    var db := After(EMPTY, steps);
    if k in db.rows { assert RowOk(db, k); }
  }

  // ---------- The bookmark ----------

  /** Every record with a call has its row, written from the last record of its key. */
  lemma {:induction false} EveryRecordWritten(contacts: map<int, Contact>, scan: seq<int>, rows: map<Key, Row>, profile: int,
                                              records: seq<Record>, i: nat)
    requires i < |records| && Named(records[i])
    requires forall j :: i < j < |records| && Named(records[j]) ==> KeyOf(profile, records[j]) != KeyOf(profile, records[i])
    ensures var k, after := KeyOf(profile, records[i]), UpsertedAll(contacts, scan, rows, profile, records);
      k in after && after[k] == RowOf(LinkOf(contacts, scan, k), records[i])
  {
    hide Named, KeyOf, RowOf, LinkOf;
    var n := |records| - 1;
    if i < n { EveryRecordWritten(contacts, scan, rows, profile, records[..n], i); }
  }

  /** The last record of a key, starting from any record of it. */
  lemma {:induction false} LastOfKey(profile: int, records: seq<Record>, i: nat) returns (last: nat)
    requires i < |records| && Named(records[i])
    ensures i <= last < |records| && Named(records[last]) && KeyOf(profile, records[last]) == KeyOf(profile, records[i])
    ensures forall j :: last < j < |records| && Named(records[j]) ==> KeyOf(profile, records[j]) != KeyOf(profile, records[last])
  {
    hide Named, KeyOf;
    last := i;
    for j := i + 1 to |records|
      invariant i <= last < j && Named(records[last]) && KeyOf(profile, records[last]) == KeyOf(profile, records[i])
      invariant forall m :: last < m < j && Named(records[m]) ==> KeyOf(profile, records[m]) != KeyOf(profile, records[last])
    {
      if Named(records[j]) && KeyOf(profile, records[j]) == KeyOf(profile, records[i]) { last := j; }
    }
  }

  /** When the bookmark moves, the response was accepted and every record of it with a
      call is in the table, by the same step. */
  lemma BookmarkNeedsRecords(db: Db, profile: int, previous: Bookmark, scan: seq<int>, response: Option<string>, commits: bool)
    requires Synced(db, profile, previous, scan, response, commits).bookmarks != db.bookmarks
    ensures response.Some? && LotwReport.Accepted(response.value).Some?
    ensures forall r :: r in LotwReport.Accepted(response.value).value.records && Named(r) ==>
              KeyOf(profile, r) in Synced(db, profile, previous, scan, response, commits).rows
  {
    hide Named, KeyOf, UpsertedAll;
    var records := LotwReport.Accepted(response.value).value.records;
    forall r | r in records && Named(r) ensures KeyOf(profile, r) in Synced(db, profile, previous, scan, response, commits).rows {
      var i :| 0 <= i < |records| && records[i] == r;
      var last := LastOfKey(profile, records, i);
      EveryRecordWritten(db.contacts, scan, db.rows, profile, records, last);
    }
  }

  /** Only syncs move a bookmark, and only their own profile's. */
  lemma OthersKeepBookmarks(db: Db, step: Step, other: int)
    requires step.Sync? ==> step.profile != other
    ensures BookmarkOf(Next(db, step), other) == BookmarkOf(db, other)
  {
    hide UpsertedAll, NewBookmark, Unlinked, SameStation;
  }

  /** A complete response cut before its end marker leaves table and bookmark untouched. */
  lemma CutChangesNothing(db: Db, profile: int, previous: Bookmark, scan: seq<int>, text: string, cut: nat, commits: bool)
    requires LotwReport.Complete(text).Some? && cut < |text| - |LotwReport.Complete(text).value.behind|
    ensures Synced(db, profile, previous, scan, Some(text[..cut]), commits) == db
  {
    LotwReport.CutIsRejected(text, cut);
    hide LotwReport.Complete, LotwReport.Accepted, Committed;
  }
}
