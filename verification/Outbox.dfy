/** The upload outbox: one row per (contact, destination) still to deliver, kept in
    the same database as the contacts (cmd/w4gns-logger/outbox.go, store.go,
    upload_status.go, lotw.go). A transaction is one atomic step on the tables. */
module Outbox {
  import opened Text
  import opened Clock

  datatype Dest = Qrz | Wrl | Lotw

  datatype Key = Key(qso: int, dest: Dest)

  /** One row; `nextAt` stands for the RFC 3339 text of that second. */
  datatype Row = Row(profile: int, attempts: nat, nextAt: nat, lastError: Option<string>, binding: string)

  /** Live contacts with their profiles, the next contact id (ids are never reused), and the rows. */
  datatype Db = Db(qsos: map<int, int>, nextId: int, rows: map<Key, Row>)

  datatype Entry = Entry(key: Key, profile: int, binding: string)

  const MAX_ATTEMPTS := 20
  const LEASE := 90
  const NANOS := 1_000_000_000
  const PAUSED := "paused: missing or changed destination credentials/logbook; Ctrl+U to retry with current configuration"

  /** time.Format(RFC3339) drops the fraction of a second. */
  function Secs(nanos: nat): nat { nanos / NANOS }

  // ---------- Retry delays ----------

  const YEAR := 365 * 24 * 3600

  /** Seconds until the next try after `attempts` failures. */
  function BackoffDelay(attempts: int): nat {
    if attempts >= MAX_ATTEMPTS then YEAR
    else if attempts <= 1 then 60
    else if attempts <= 5 then 60 * Pow2(attempts - 1)
    else 1800
  }

  method UploadBackoff(attempts: int) returns (delay: nat)
    ensures delay == BackoffDelay(attempts)
  {
    if attempts >= MAX_ATTEMPTS { return YEAR; }
    delay := 60;
    var i := 1;
    while i < attempts
      invariant 1 <= i <= 5 && (i <= attempts || i == 1)
      invariant delay == 60 * Pow2(i - 1) && delay < 1800
    {
      SmallPowers();
      delay := delay * 2;
      if delay >= 1800 {
        assert i == 5;
        return 1800;
      }
      i := i + 1;
    }
    SmallPowers();
  }

  lemma SmallPowers()
    ensures Pow2(0) == 1 && Pow2(1) == 2 && Pow2(2) == 4 && Pow2(3) == 8 && Pow2(4) == 16 && Pow2(5) == 32
  {
    assert Pow2(3) == 8;
    assert Pow2(4) == 16;
  }

  lemma {:induction false} Pow2AtLeast(n: nat)
    requires n >= 5
    ensures Pow2(n) >= 32
  {
    SmallPowers();
    if n > 5 { Pow2AtLeast(n - 1); }
  }

  /** Below twenty attempts the delay is min(2^(n-1), 30) minutes. */
  lemma BackoffClosedForm(n: nat)
    requires 1 <= n < MAX_ATTEMPTS
    ensures BackoffDelay(n) == 60 * (if Pow2(n - 1) < 30 then Pow2(n - 1) else 30)
  {
    SmallPowers();
    if n > 5 { Pow2AtLeast(n - 1); }
  }

  // ---------- Due rows ----------

  /** Instants whose RFC 3339 text has a four-digit year, with a year to spare. */
  predicate InRange(t: nat) { t + YEAR + LEASE < EndOfTime() }

  /** The claim query compares texts. */
  predicate TextDue(nextAt: nat, now: nat)
    requires nextAt < EndOfTime() && now < EndOfTime()
  {
    LexLeq(Rfc3339(OfSeconds(nextAt)), Rfc3339(OfSeconds(now)))
  }

  /** Comparing the texts compares the times. */
  lemma TextDueIsTime(nextAt: nat, now: nat)
    requires nextAt < EndOfTime() && now < EndOfTime()
    ensures TextDue(nextAt, now) <==> nextAt <= now
  {
    hide Rfc3339, OfSeconds, LexLess, EndOfTime, Seconds;
    var a, b := OfSeconds(nextAt), OfSeconds(now);
    Rfc3339Order(a, b);
    Rfc3339Order(b, a);
    LexIrreflexive(Rfc3339(a));
  }

  predicate Claimable(row: Row, now: nat) {
    row.attempts < MAX_ATTEMPTS && row.nextAt < EndOfTime() && now < EndOfTime() && TextDue(row.nextAt, now)
  }

  // ---------- Transactions on the tables ----------

  /** INSERT OR IGNORE. */
  function Enqueue(rows: map<Key, Row>, k: Key, profile: int, notBefore: nat): map<Key, Row> {
    if k in rows then rows else rows[k := Row(profile, 0, notBefore, None, "")]
  }

  function SetBinding(rows: map<Key, Row>, k: Key, binding: string): map<Key, Row> {
    if k in rows then rows[k := rows[k].(binding := binding)] else rows
  }

  function EnqueueAll(rows: map<Key, Row>, id: int, profile: int, dests: seq<Dest>, notBefore: nat,
                      bindings: map<Dest, string>): map<Key, Row> {
    if dests == [] then rows
    else
      var n := |dests| - 1;
      var k := Key(id, dests[n]);
      SetBinding(Enqueue(EnqueueAll(rows, id, profile, dests[..n], notBefore, bindings), k, profile, notBefore),
                 k, if dests[n] in bindings then bindings[dests[n]] else "")
  }

  /** Contact and delivery rows in one transaction. */
  function Logged(db: Db, profile: int, dests: seq<Dest>, notBefore: nat, bindings: map<Dest, string>): Db {
    Db(db.qsos[db.nextId := profile], db.nextId + 1,
       EnqueueAll(db.rows, db.nextId, profile, dests, notBefore, bindings))
  }

  function Leased(rows: map<Key, Row>, keys: set<Key>, until: nat): map<Key, Row> {
    map k | k in rows :: if k in keys then rows[k].(nextAt := until, lastError := None) else rows[k]
  }

  function Without(rows: map<Key, Row>, k: Key): map<Key, Row> { rows - {k} }

  function Failed(rows: map<Key, Row>, k: Key, message: string, now: nat): map<Key, Row> {
    if k !in rows then rows
    else
      var n := rows[k].attempts + 1;
      rows[k := rows[k].(attempts := n, nextAt := now + BackoffDelay(n), lastError := Some(message))]
  }

  function Paused(rows: map<Key, Row>, k: Key): map<Key, Row> {
    if k in rows then rows[k := rows[k].(lastError := Some(PAUSED))] else rows
  }

  /** Ctrl+U: failed and paused rows of a profile move to the current configuration. */
  function Retried(rows: map<Key, Row>, profile: int, bindings: map<Dest, string>, clock: Dest -> nat): map<Key, Row> {
    map k | k in rows ::
      if Retries(rows[k], k, profile, k.dest) && k.dest in bindings && bindings[k.dest] != ""
      then Row(rows[k].profile, 0, clock(k.dest), None, bindings[k.dest]) else rows[k]
  }

  predicate Retries(row: Row, k: Key, profile: int, dest: Dest) {
    row.profile == profile && k.dest == dest && row.lastError.Some?
  }

  /** One UPDATE of the retry: the waiting rows of one destination. */
  function RetriedDest(rows: map<Key, Row>, profile: int, dest: Dest, binding: string, now: nat): map<Key, Row> {
    map k | k in rows ::
      if Retries(rows[k], k, profile, dest) then Row(rows[k].profile, 0, now, None, binding) else rows[k]
  }

  function Except(bindings: map<Dest, string>, todo: set<Dest>): map<Dest, string> {
    map d | d in bindings && d !in todo :: bindings[d]
  }

  lemma RetryNothing(rows: map<Key, Row>, profile: int, bindings: map<Dest, string>, clock: Dest -> nat)
    requires bindings == map[]
    ensures Retried(rows, profile, bindings, clock) == rows
  {
  }

  lemma RetryStep(rows: map<Key, Row>, profile: int, bindings: map<Dest, string>, todo: set<Dest>, dest: Dest, clock: Dest -> nat)
    requires dest in todo && todo <= bindings.Keys
    ensures var before := Retried(rows, profile, Except(bindings, todo), clock);
            Retried(rows, profile, Except(bindings, todo - {dest}), clock)
              == if bindings[dest] != "" then RetriedDest(before, profile, dest, bindings[dest], clock(dest)) else before
  {
  }

  predicate Live(db: Db, profile: int, id: int) { id in db.qsos && db.qsos[id] == profile }

  /** Deleting a contact removes its rows in the same transaction. */
  function Deleted(db: Db, profile: int, id: int): Db {
    if !Live(db, profile, id) then db
    else db.(qsos := db.qsos - {id}, rows := map k | k in db.rows && k.qso != id :: db.rows[k])
  }

  /** Every contact of a profile gets a LoTW row unless it has one. */
  function Backfilled(db: Db, profile: int, now: nat): Db {
    var ids := set id | id in db.qsos && db.qsos[id] == profile;
    var keys := set id | id in ids :: Key(id, Lotw);
    db.(rows := map k | k in db.rows.Keys + keys :: if k in db.rows then db.rows[k] else Row(profile, 0, now, None, ""))
  }

  /** How reading the claimed contact went. */
  datatype Read = Found | Gone | ReadError(message: string)

  predicate BindingAccepted(e: Entry, current: string) {
    current != "" && (e.binding == "" || current == e.binding)
  }

  /** One claimed entry of a drain: paused on missing or changed credentials, bound
      on first use, then dropped, rescheduled or handed to an upload. */
  function Drained(rows: map<Key, Row>, e: Entry, current: string, bindOk: bool, read: Read, now: nat): map<Key, Row> {
    if !BindingAccepted(e, current) then Paused(rows, e.key)
    else if e.binding == "" && !bindOk then rows
    else
      var bound := if e.binding == "" then SetBinding(rows, e.key, current) else rows;
      match read
      case Found => bound
      case Gone => Without(bound, e.key)
      case ReadError(m) => Failed(bound, e.key, m, now)
  }

  predicate Sends(e: Entry, current: string, bindOk: bool, read: Read) {
    BindingAccepted(e, current) && (e.binding != "" || bindOk) && read == Found
  }

  // ---------- The store ----------

  datatype LogStatus = SentStatus | FailedStatus | SuppressedStatus

  /** lotwExitDelivered: no retry can help. */
  predicate ExitDelivered(code: int) { code == 0 || code == 8 || code == 9 || code == 14 }

  /** lotwExitSentCleanly: every contact of the batch reached LoTW. */
  predicate ExitSentCleanly(code: int) { code == 0 || code == 14 }

  function LotwLogged(id: int, code: int): (int, Dest, LogStatus) {
    (id, Lotw, if ExitSentCleanly(code) then SentStatus else if ExitDelivered(code) then SuppressedStatus else FailedStatus)
  }

  /** Rows after a LoTW batch ended with an exit code. */
  function BatchDone(rows: map<Key, Row>, ids: seq<int>, code: int, text: string, now: nat): map<Key, Row> {
    if ids == [] then rows
    else
      var n := |ids| - 1;
      var before := BatchDone(rows, ids[..n], code, text, now);
      if ExitDelivered(code) then Without(before, Key(ids[n], Lotw)) else Failed(before, Key(ids[n], Lotw), text, now)
  }

  function DueKeys(rows: map<Key, Row>, now: nat): set<Key> { set k | k in rows && Claimable(rows[k], now) }

  function KeysOf(entries: seq<Entry>): set<Key> { set e | e in entries :: e.key }

  function EntryOf(rows: map<Key, Row>, k: Key): Entry
    requires k in rows
  {
    Entry(k, rows[k].profile, rows[k].binding)
  }

  /** The rows a claim takes: due, distinct, as many as fit, none due earlier left out. */
  ghost predicate Selected(rows: map<Key, Row>, now: nat, limit: nat, entries: seq<Entry>) {
    var due := DueKeys(rows, now);
    var keys := KeysOf(entries);
    && |keys| == |entries| == (if |due| <= limit then |due| else limit)
    && keys <= due
    && (forall e <- entries :: e.key in rows && e == EntryOf(rows, e.key))
    && (forall k <- due - keys, j <- keys :: rows[j].nextAt <= rows[k].nextAt)
  }

  /** Part of the due rows picked, earliest first, the others in `left`. */
  ghost predicate Picking(rows: map<Key, Row>, due: set<Key>, left: set<Key>, entries: seq<Entry>) {
    var keys := KeysOf(entries);
    && due <= rows.Keys && left <= due && keys == due - left && |keys| == |entries|
    && (forall e <- entries :: e.key in rows && e == EntryOf(rows, e.key))
    && (forall k <- left, j <- keys :: rows[j].nextAt <= rows[k].nextAt)
  }

  lemma PickStep(rows: map<Key, Row>, due: set<Key>, left: set<Key>, entries: seq<Entry>, k: Key)
    requires Picking(rows, due, left, entries)
    requires k in left && forall j <- left :: rows[k].nextAt <= rows[j].nextAt
    ensures Picking(rows, due, left - {k}, entries + [EntryOf(rows, k)])
  {
    var e := EntryOf(rows, k);
    KeysOfAppend(entries, e);
    hide KeysOf;
    assert due - (left - {k}) == (due - left) + {k};
  }

  lemma PickDone(rows: map<Key, Row>, now: nat, limit: nat, left: set<Key>, entries: seq<Entry>)
    requires Picking(rows, DueKeys(rows, now), left, entries)
    requires |entries| <= limit && (left == {} || |entries| == limit)
    ensures Selected(rows, now, limit, entries)
  {
    hide Claimable, KeysOf, DueKeys, EntryOf;
    Complement(DueKeys(rows, now), KeysOf(entries), left);
  }

  lemma PickStart(rows: map<Key, Row>, now: nat)
    ensures DueKeys(rows, now) <= rows.Keys && Picking(rows, DueKeys(rows, now), DueKeys(rows, now), [])
  {
    hide Claimable, EntryOf;
    assert DueKeys(rows, now) - DueKeys(rows, now) == {};
  }

  /** SELECT ... WHERE attempts < 20 AND next_attempt_at <= now ORDER BY next_attempt_at LIMIT limit. */
  method SelectDue(rows: map<Key, Row>, now: nat, limit: nat) returns (entries: seq<Entry>)
    ensures Selected(rows, now, limit, entries)
  {
    hide Claimable, Selected, Picking, EntryOf;
    PickStart(rows, now);
    var left := DueKeys(rows, now);
    ghost var due := left;
    hide DueKeys;
    entries := [];
    while left != {} && |entries| < limit
      invariant left <= due && |entries| <= limit && Picking(rows, due, left, entries)
      decreases left
    {
      EarliestExists(rows, left);
      var k :| k in left && forall j <- left :: rows[k].nextAt <= rows[j].nextAt;
      PickStep(rows, due, left, entries, k);
      entries, left := entries + [EntryOf(rows, k)], left - {k};
    }
    PickDone(rows, now, limit, left, entries);
  }

  lemma LeaseOne(rows: map<Key, Row>, keys: set<Key>, k: Key, until: nat)
    requires k in rows
    ensures Leased(rows, keys + {k}, until) == Leased(rows, keys, until)[k := Leased(rows, keys, until)[k].(nextAt := until, lastError := None)]
  {
  }

  /** The upload log's entries for a finished batch. */
  function BatchLog(ids: seq<int>, code: int): (r: seq<(int, Dest, LogStatus)>)
    ensures |r| == |ids| && forall i {:trigger r[i]} :: 0 <= i < |ids| ==> r[i] == LotwLogged(ids[i], code)
  {
    if ids == [] then [] else BatchLog(ids[..|ids| - 1], code) + [LotwLogged(ids[|ids| - 1], code)]
  }

  lemma NoKeys()
    ensures KeysOf([]) == {}
  {
  }

  lemma KeysOfAppend(entries: seq<Entry>, e: Entry)
    ensures KeysOf(entries + [e]) == KeysOf(entries) + {e.key}
  {
    assert forall x :: x in entries + [e] <==> x in entries || x == e;
  }

  class Store {
    var qsos: map<int, int>
    var nextId: int
    var rows: map<Key, Row>
    var uploadLog: seq<(int, Dest, LogStatus)>

    ghost function State(): Db
      reads this
    {
      Db(qsos, nextId, rows)
    }

    constructor ()
      ensures State() == Db(map[], 1, map[]) && uploadLog == []
    {
      qsos, nextId, rows, uploadLog := map[], 1, map[], [];
    }

    method EnqueueUpload(k: Key, profile: int, notBefore: nat)
      modifies this
      ensures State() == old(State()).(rows := Enqueue(old(rows), k, profile, notBefore)) && uploadLog == old(uploadLog)
    {
      if k !in rows {
        rows := rows[k := Row(profile, 0, notBefore, None, "")];
      }
    }

    method InsertQsoWithUploads(profile: int, dests: seq<Dest>, notBefore: nat, bindings: map<Dest, string>) returns (id: int)
      modifies this
      ensures id == old(nextId) && State() == Logged(old(State()), profile, dests, notBefore, bindings)
      ensures uploadLog == old(uploadLog)
    {
      id := nextId;
      qsos, nextId := qsos[id := profile], nextId + 1;
      for i := 0 to |dests|
        invariant qsos == old(qsos)[id := profile] && nextId == id + 1 && uploadLog == old(uploadLog)
        invariant rows == EnqueueAll(old(rows), id, profile, dests[..i], notBefore, bindings)
      {
        var k := Key(id, dests[i]);
        assert dests[..i + 1][..i] == dests[..i];
        EnqueueUpload(k, profile, notBefore);
        rows := SetBinding(rows, k, if dests[i] in bindings then bindings[dests[i]] else "");
      }
      assert dests[..|dests|] == dests;
    }

    /** Claims the earliest due rows, at most `limit`, and leases them. */
    method ClaimDueUploads(now: nat, limit: nat) returns (entries: seq<Entry>)
      modifies this
      ensures Selected(old(rows), now, limit, entries)
      ensures State() == old(State()).(rows := Leased(old(rows), KeysOf(entries), now + LEASE)) && uploadLog == old(uploadLog)
    {
      hide Claimable, KeysOf;
      entries := SelectDue(rows, now, limit);
      assert KeysOf(entries[..0]) == {} by { NoKeys(); }
      assert Leased(rows, {}, now + LEASE) == rows;
      var i := 0;
      while i < |entries|
        invariant 0 <= i <= |entries|
        invariant qsos == old(qsos) && nextId == old(nextId) && uploadLog == old(uploadLog)
        invariant rows == Leased(old(rows), KeysOf(entries[..i]), now + LEASE)
      {
        var k := entries[i].key;
        assert entries[i] in entries && entries[..i + 1] == entries[..i] + [entries[i]];
        KeysOfAppend(entries[..i], entries[i]);
        LeaseOne(old(rows), KeysOf(entries[..i]), k, now + LEASE);
        rows := rows[k := rows[k].(nextAt := now + LEASE, lastError := None)];
        i := i + 1;
      }
      assert entries[..|entries|] == entries;
    }

    method MarkUploadDone(k: Key)
      modifies this
      ensures State() == old(State()).(rows := Without(old(rows), k)) && uploadLog == old(uploadLog)
    {
      rows := rows - {k};
    }

    method RecordUploadFailure(k: Key, message: string, now: nat)
      modifies this
      ensures State() == old(State()).(rows := Failed(old(rows), k, message, now)) && uploadLog == old(uploadLog)
    {
      if k !in rows { return; }
      var attempts := rows[k].attempts + 1;
      var delay := UploadBackoff(attempts);
      rows := rows[k := rows[k].(attempts := attempts, nextAt := now + delay, lastError := Some(message))];
    }

    /** The body of the drain loop for one claimed entry. */
    method DrainEntry(e: Entry, current: string, bindOk: bool, read: Read, now: nat) returns (send: bool)
      modifies this
      ensures send == Sends(e, current, bindOk, read)
      ensures State() == old(State()).(rows := Drained(old(rows), e, current, bindOk, read, now)) && uploadLog == old(uploadLog)
    {
      if current == "" || (e.binding != "" && current != e.binding) {
        if e.key in rows { rows := rows[e.key := rows[e.key].(lastError := Some(PAUSED))]; }
        return false;
      }
      if e.binding == "" {
        if !bindOk { return false; }
        rows := SetBinding(rows, e.key, current);
      }
      match read {
        case Found => send := true;
        case Gone => MarkUploadDone(e.key); send := false;
        case ReadError(m) => RecordUploadFailure(e.key, m, now); send := false;
      }
    }

    /** Ctrl+U: one UPDATE per configured destination, in any map order and each at its own time; the first that
        fails ends it. `done` are the destinations visited. */
    method RetryFailedUploads(profile: int, bindings: map<Dest, string>, clock: Dest -> nat, fails: Dest -> bool)
        returns (ok: bool, ghost done: set<Dest>)
      modifies this
      ensures done <= bindings.Keys && forall d <- done :: bindings[d] == "" || !fails(d)
      ensures State() == old(State()).(rows := Retried(old(rows), profile, Except(bindings, bindings.Keys - done), clock))
      ensures uploadLog == old(uploadLog)
      ensures ok <==> done == bindings.Keys
      ensures (forall d <- bindings :: bindings[d] == "" || !fails(d)) ==> ok
    {
      hide Retried, RetriedDest;
      var todo := bindings.Keys;
      done := {};
      RetryNothing(rows, profile, Except(bindings, todo), clock);
      while todo != {}
        invariant todo <= bindings.Keys && done == bindings.Keys - todo && bindings.Keys - done == todo
        invariant forall d <- done :: bindings[d] == "" || !fails(d)
        invariant qsos == old(qsos) && nextId == old(nextId) && uploadLog == old(uploadLog)
        invariant rows == Retried(old(rows), profile, Except(bindings, todo), clock)
        decreases todo
      {
        var dest :| dest in todo;
        if bindings[dest] != "" && fails(dest) { return false, done; }
        RetryStep(old(rows), profile, bindings, todo, dest, clock);
        todo, done := todo - {dest}, done + {dest};
        if bindings[dest] != "" {
          rows := RetriedDest(rows, profile, dest, bindings[dest], clock(dest));
        }
      }
      ok := true;
    }

    method DeleteQso(profile: int, id: int) returns (found: bool)
      modifies this
      ensures found == Live(old(State()), profile, id)
      ensures State() == Deleted(old(State()), profile, id) && uploadLog == old(uploadLog)
    {
      found := id in qsos && qsos[id] == profile;
      if found {
        qsos := qsos - {id};
        rows := map k | k in rows && k.qso != id :: rows[k];
      }
    }

    /** Resolves every row of a finished LoTW batch from the one exit code. */
    method CompleteLotwBatch(ids: seq<int>, code: int, text: string, now: nat)
      modifies this
      ensures State() == old(State()).(rows := BatchDone(old(rows), ids, code, text, now))
      ensures uploadLog == old(uploadLog) + BatchLog(ids, code)
    {
      for i := 0 to |ids|
        invariant qsos == old(qsos) && nextId == old(nextId)
        invariant rows == BatchDone(old(rows), ids[..i], code, text, now)
        invariant uploadLog == old(uploadLog) + BatchLog(ids[..i], code)
      {
        assert ids[..i + 1][..i] == ids[..i];
        var k := Key(ids[i], Lotw);
        if ExitDelivered(code) {
          MarkUploadDone(k);
          uploadLog := uploadLog + [(ids[i], Lotw, if ExitSentCleanly(code) then SentStatus else SuppressedStatus)];
        } else {
          RecordUploadFailure(k, text, now);
          uploadLog := uploadLog + [(ids[i], Lotw, FailedStatus)];
        }
      }
      assert ids[..|ids|] == ids;
    }
  }

  lemma {:induction false} EarliestExists(rows: map<Key, Row>, keys: set<Key>)
    requires keys != {} && keys <= rows.Keys
    ensures exists k :: k in keys && forall j <- keys :: rows[k].nextAt <= rows[j].nextAt
  {
    var k :| k in keys;
    var rest := keys - {k};
    if rest == {} {
      assert forall j <- keys :: j == k by { assert keys == rest + {k}; }
      assert k in keys && forall j <- keys :: rows[k].nextAt <= rows[j].nextAt;
    } else {
      EarliestExists(rows, rest);
      var m :| m in rest && forall j <- rest :: rows[m].nextAt <= rows[j].nextAt;
      var best := if rows[k].nextAt <= rows[m].nextAt then k else m;
      assert forall j <- keys :: j == k || j in rest;
      assert best in keys && forall j <- keys :: rows[best].nextAt <= rows[j].nextAt;
    }
  }

  lemma Complement<T>(all: set<T>, a: set<T>, left: set<T>)
    ensures left <= all && a == all - left ==> a <= all && all - a == left && |all| == |a| + |left|
  {
    if left <= all && a == all - left {
      assert all == a + left;
      assert all - a == left;
    }
  }
}
