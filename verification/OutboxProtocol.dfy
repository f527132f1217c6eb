/** The outbox as a protocol: every order of logging, claiming, sending, failing,
    pausing, crashing, deleting, backfilling and retrying, by any number of
    sessions sharing the database. */
module OutboxProtocol {
  import opened Text
  import opened Clock
  import opened Outbox

  /** A claim some session still works on: read, checked and then maybe sent. */
  datatype Phase = Claimed | Sending(binding: string)

  datatype Flight = Flight(entry: Entry, claimedAt: nat, phase: Phase) {
    function Key(): Key { entry.key }
  }

  /** What happened, kept beside the tables for the theorems: keys ever queued and
      ever delivered, failures recorded and bindings sent under since the row was
      last created or retried. */
  datatype History = History(queued: set<Key>, delivered: set<Key>, failures: map<Key, nat>, used: map<Key, set<string>>)

  /** `now` counts nanoseconds. */
  datatype State = State(db: Db, now: nat, flights: seq<Flight>, past: History)

  datatype Outcome = Delivered | Rejected(message: string) | Unrecorded

  datatype Step =
    | Tick(nanos: nat)
    | Log(profile: int, dests: seq<Dest>, notBefore: nat, bindings: map<Dest, string>)
    | Claim(keys: seq<Key>)
    | Drain(i: nat, current: string, bindOk: bool, read: Read, hasCommand: bool)
    | Complete(i: nat, outcome: Outcome)
    | Crash(i: nat)
    | Delete(profile: int, id: int)
    | Backfill(profile: int)
    | Retry(profile: int, dest: Dest, binding: string)

  /** Every upload ends within this time of its claim. */
  const UPLOAD_NANOS := 89 * NANOS

  predicate Distinct(keys: seq<Key>) { forall i, j :: 0 <= i < j < |keys| ==> keys[i] != keys[j] }

  function KeySet(keys: seq<Key>): set<Key> { set k | k in keys }

  function NewFlights(rows: map<Key, Row>, keys: seq<Key>, now: nat): (r: seq<Flight>)
    requires forall k <- keys :: k in rows
    ensures |r| == |keys|
    ensures forall i {:trigger r[i]} :: 0 <= i < |keys| ==> r[i] == Flight(EntryOf(rows, keys[i]), now, Claimed)
  {
    seq(|keys|, i requires 0 <= i < |keys| => Flight(EntryOf(rows, keys[i]), now, Claimed))
  }

  function Drop(flights: seq<Flight>, i: nat): seq<Flight>
    requires i < |flights|
  {
    flights[..i] + flights[i + 1..]
  }

  /** When a step may happen. Reading a contact finds it exactly when it is live. */
  predicate Enabled(s: State, step: Step) {
    match step
    case Tick(d) => InRange(Secs(s.now + d)) && forall f <- s.flights :: s.now + d <= f.claimedAt + UPLOAD_NANOS
    case Claim(keys) => Distinct(keys) && forall k <- keys :: k in s.db.rows && Claimable(s.db.rows[k], Secs(s.now))
    case Drain(i, current, bindOk, read, hasCommand) =>
      && i < |s.flights| && s.flights[i].phase == Claimed
      && (var e := s.flights[i].entry;
          (read == Found <==> !read.ReadError? && Live(s.db, e.profile, e.key.qso)))
    case Complete(i, outcome) => i < |s.flights| && s.flights[i].phase.Sending?
    case Crash(i) => i < |s.flights|
    case Retry(profile, dest, binding) => binding != ""
    case _ => true
  }

  function Reset(h: History, keys: set<Key>): History {
    h.(queued := h.queued + keys,
       failures := h.failures + map k | k in keys :: 0,
       used := h.used + map k | k in keys :: {})
  }

  function CountFailure(h: History, rows: map<Key, Row>, k: Key): History {
    if k in rows && k in h.failures then h.(failures := h.failures[k := h.failures[k] + 1]) else h
  }

  function Use(h: History, k: Key, binding: string): History {
    h.(used := h.used[k := (if k in h.used then h.used[k] else {}) + {binding}])
  }

  function Next(s: State, step: Step): State
    requires Enabled(s, step)
  {
    var now := Secs(s.now);
    match step
    case Tick(d) => s.(now := s.now + d)
    case Log(profile, dests, notBefore, bindings) =>
      var db := Logged(s.db, profile, dests, notBefore, bindings);
      s.(db := db, past := Reset(s.past, db.rows.Keys - s.db.rows.Keys))
    case Claim(keys) =>
      s.(db := s.db.(rows := Leased(s.db.rows, KeySet(keys), now + LEASE)),
         flights := s.flights + NewFlights(s.db.rows, keys, s.now))
    case Drain(i, current, bindOk, read, hasCommand) =>
      var e := s.flights[i].entry;
      var db := s.db.(rows := Drained(s.db.rows, e, current, bindOk, read, now));
      if Sends(e, current, bindOk, read) && hasCommand then
        s.(db := db, flights := s.flights[i := s.flights[i].(phase := Sending(current))], past := Use(s.past, e.key, current))
      else
        var failed := BindingAccepted(e, current) && (e.binding != "" || bindOk) && read.ReadError?;
        s.(db := db, flights := Drop(s.flights, i), past := if failed then CountFailure(s.past, s.db.rows, e.key) else s.past)
    case Complete(i, outcome) =>
      var k := s.flights[i].entry.key;
      var landed := s.(flights := Drop(s.flights, i));
      (match outcome
       case Delivered => landed.(db := s.db.(rows := Without(s.db.rows, k)), past := s.past.(delivered := s.past.delivered + {k}))
       case Rejected(m) => landed.(db := s.db.(rows := Failed(s.db.rows, k, m, now)), past := CountFailure(s.past, s.db.rows, k))
       case Unrecorded => landed)
    case Crash(i) => s.(flights := Drop(s.flights, i))
    case Delete(profile, id) => s.(db := Deleted(s.db, profile, id))
    case Backfill(profile) =>
      var db := Backfilled(s.db, profile, now);
      s.(db := db, past := Reset(s.past, db.rows.Keys - s.db.rows.Keys))
    case Retry(profile, dest, binding) =>
      var keys := set k | k in s.db.rows && Retries(s.db.rows[k], k, profile, dest);
      s.(db := s.db.(rows := RetriedDest(s.db.rows, profile, dest, binding, now)), past := Reset(s.past, keys))
  }

  predicate Init(s: State) {
    && s.db == Db(map[], 1, map[]) && s.flights == [] && InRange(Secs(s.now))
    && s.past == History({}, {}, map[], map[])
  }

  // ---------- The invariant ----------

  /** A flight's row, while it exists, is leased past the flight's deadline, shows no
      error, and carries the binding the flight read or sends under. */
  predicate FlightRow(db: Db, f: Flight) {
    var k := f.entry.key;
    if k in db.rows then
      var row := db.rows[k];
      && row.lastError == None && row.nextAt >= Secs(f.claimedAt) + LEASE
      && (match f.phase case Claimed => row.binding == f.entry.binding case Sending(b) => row.binding == b && b != "")
    else k.qso !in db.qsos
  }

  predicate FlightsApart(flights: seq<Flight>) {
    forall i, j :: 0 <= i < j < |flights| ==> flights[i].entry.key != flights[j].entry.key
  }

  predicate RowsLive(db: Db) {
    && (forall k <- db.rows :: k.qso in db.qsos && db.rows[k].profile == db.qsos[k.qso])
    && (forall id <- db.qsos :: id < db.nextId)
  }

  predicate FlightOk(s: State, f: Flight) {
    && f.entry.key.qso < s.db.nextId
    && (f.entry.key.qso in s.db.qsos ==> s.db.qsos[f.entry.key.qso] == f.entry.profile)
    && s.now <= f.claimedAt + UPLOAD_NANOS
    && FlightRow(s.db, f)
  }

  predicate HistoryRow(s: State, k: Key)
    requires k in s.db.rows
  {
    && k in s.past.failures && s.db.rows[k].attempts == s.past.failures[k]
    && (k in s.past.used ==> s.past.used[k] <= {s.db.rows[k].binding})
    && (k in s.past.used && s.past.used[k] != {} ==> s.db.rows[k].binding != "")
  }

  predicate HistoryOk(s: State) {
    && (forall k <- s.db.rows :: k in s.past.queued && HistoryRow(s, k))
    && (forall k <- s.past.queued :: k in s.db.rows || k in s.past.delivered || k.qso !in s.db.qsos)
    && (forall k <- s.past.queued :: k.qso < s.db.nextId)
  }

  predicate FlightsOk(s: State) { forall f <- s.flights :: FlightOk(s, f) }

  predicate Inv(s: State) {
    && RowsLive(s.db)
    && FlightsApart(s.flights)
    && FlightsOk(s)
    && HistoryOk(s)
    && InRange(Secs(s.now))
  }

  // ---------- Each step keeps it ----------

  lemma SecsShift(t: nat, n: nat)
    requires t <= n + UPLOAD_NANOS
    ensures Secs(t) <= Secs(n) + 89
  {
  }

  /** A row under lease by a live flight is not claimable. */
  lemma LeasedNotClaimable(s: State, f: Flight)
    requires Inv(s) && f in s.flights && f.entry.key in s.db.rows
    ensures !Claimable(s.db.rows[f.entry.key], Secs(s.now))
  {
    assert FlightOk(s, f);
    SecsShift(s.now, f.claimedAt);
    var row := s.db.rows[f.entry.key];
    if row.nextAt < EndOfTime() { TextDueIsTime(row.nextAt, Secs(s.now)); }
  }

  lemma InitInv(s: State)
    requires Init(s)
    ensures Inv(s)
  {
  }

  lemma TickKeeps(s: State, d: nat)
    requires Inv(s) && Enabled(s, Tick(d))
    ensures Inv(Next(s, Tick(d)))
  {
    var t := Next(s, Tick(d));
    hide FlightRow, HistoryRow, InRange;
    forall f | f in t.flights ensures FlightOk(t, f) { assert FlightOk(s, f); }
    assert HistoryOk(t) by { forall k | k in t.db.rows ensures HistoryRow(t, k) { SameHistory(s, t, k); } }
  }

  lemma SameHistory(s: State, t: State, k: Key)
    requires k in s.db.rows && k in t.db.rows && HistoryRow(s, k)
    requires s.db.rows[k].attempts == t.db.rows[k].attempts && s.db.rows[k].binding == t.db.rows[k].binding
    requires k in s.past.failures && k in t.past.failures && t.past.failures[k] == s.past.failures[k]
    requires k in t.past.used ==> k in s.past.used && t.past.used[k] == s.past.used[k]
    ensures HistoryRow(t, k)
  {
  }

  /** A flight whose row and contact a step leaves alone. */
  lemma UntouchedFlight(s: State, t: State, f: Flight)
    requires FlightOk(s, f) && t.now == s.now && t.db.nextId >= s.db.nextId
    requires f.entry.key in t.db.rows <==> f.entry.key in s.db.rows
    requires f.entry.key in s.db.rows ==> t.db.rows[f.entry.key] == s.db.rows[f.entry.key]
    requires f.entry.key.qso in t.db.qsos ==> f.entry.key.qso in s.db.qsos && t.db.qsos[f.entry.key.qso] == s.db.qsos[f.entry.key.qso]
    ensures FlightOk(t, f)
  {
  }

  lemma DropMembers(flights: seq<Flight>, i: nat)
    requires i < |flights| && FlightsApart(flights)
    ensures FlightsApart(Drop(flights, i))
    ensures forall f <- Drop(flights, i) :: f in flights && f.entry.key != flights[i].entry.key
  {
    var rest := Drop(flights, i);
    forall f | f in rest ensures f in flights && f.entry.key != flights[i].entry.key {
      var j :| 0 <= j < |rest| && rest[j] == f;
      assert f == flights[if j < i then j else j + 1];
    }
  }

  // ---------- Logging and backfilling ----------

  /** Enqueuing adds rows of one contact for the listed destinations and leaves every other row. */
  predicate Enqueued(rows: map<Key, Row>, after: map<Key, Row>, id: int, profile: int, dests: seq<Dest>) {
    && (forall k <- rows :: k in after && after[k] == rows[k])
    && (forall k <- after :: k in rows || (k.qso == id && k.dest in dests && after[k].profile == profile && after[k].attempts == 0))
    && (forall d <- dests :: Key(id, d) in after)
  }

  lemma EnqueueOne(rows: map<Key, Row>, before: map<Key, Row>, id: int, profile: int, dests: seq<Dest>, d: Dest, notBefore: nat, binding: string)
    requires forall k <- rows :: k.qso != id
    requires Enqueued(rows, before, id, profile, dests)
    ensures Enqueued(rows, SetBinding(Enqueue(before, Key(id, d), profile, notBefore), Key(id, d), binding), id, profile, dests + [d])
  {
  }

  lemma {:induction false} EnqueueAllRows(rows: map<Key, Row>, id: int, profile: int, dests: seq<Dest>, notBefore: nat, bindings: map<Dest, string>)
    requires forall k <- rows :: k.qso != id
    ensures Enqueued(rows, EnqueueAll(rows, id, profile, dests, notBefore, bindings), id, profile, dests)
  {
    hide Enqueued, Enqueue, SetBinding;
    if dests == [] {
      NothingEnqueued(rows, id, profile);
    } else {
      var n := |dests| - 1;
      EnqueueAllRows(rows, id, profile, dests[..n], notBefore, bindings);
      var b := if dests[n] in bindings then bindings[dests[n]] else "";
      EnqueueOne(rows, EnqueueAll(rows, id, profile, dests[..n], notBefore, bindings), id, profile, dests[..n], dests[n], notBefore, b);
      assert dests[..n] + [dests[n]] == dests;
    }
  }

  lemma NothingEnqueued(rows: map<Key, Row>, id: int, profile: int)
    ensures Enqueued(rows, rows, id, profile, [])
  {
  }

  /** Only new rows, for live contacts, with no attempts yet. */
  predicate Adds(s: State, t: State) {
    && t.now == s.now && t.flights == s.flights && t.db.nextId >= s.db.nextId
    && (forall id <- t.db.qsos :: id in s.db.qsos || s.db.nextId <= id)
    && (forall id <- s.db.qsos :: id in t.db.qsos && t.db.qsos[id] == s.db.qsos[id])
    && (forall k <- s.db.rows :: k in t.db.rows && t.db.rows[k] == s.db.rows[k])
    && (forall k <- t.db.rows :: k in s.db.rows || (k.qso in t.db.qsos && t.db.rows[k].profile == t.db.qsos[k.qso] && t.db.rows[k].attempts == 0))
    && t.past == Reset(s.past, t.db.rows.Keys - s.db.rows.Keys)
    && (forall id <- t.db.qsos :: id < t.db.nextId)
  }

  lemma AddsFlights(s: State, t: State)
    requires Inv(s) && Adds(s, t)
    ensures FlightsOk(t)
  {
    hide InRange, HistoryOk;
    forall f | f in t.flights ensures FlightOk(t, f) {
      assert FlightOk(s, f);
      if f.entry.key !in s.db.rows {
        assert f.entry.key.qso !in s.db.qsos;
        assert f.entry.key !in t.db.rows;
      }
    }
  }

  lemma AddsHistory(s: State, t: State)
    requires Inv(s) && Adds(s, t)
    ensures HistoryOk(t)
  {
    hide InRange, FlightOk;
    forall k | k in t.db.rows ensures k in t.past.queued && HistoryRow(t, k) {
      if k in s.db.rows { SameHistory(s, t, k); }
    }
  }

  lemma AddsKeeps(s: State, t: State)
    requires Inv(s) && Adds(s, t)
    ensures Inv(t)
  {
    AddsFlights(s, t);
    AddsHistory(s, t);
    hide FlightsOk, HistoryOk, InRange;
  }

  lemma LogAdds(s: State, profile: int, dests: seq<Dest>, notBefore: nat, bindings: map<Dest, string>)
    requires RowsLive(s.db)
    ensures Adds(s, Next(s, Log(profile, dests, notBefore, bindings)))
  {
    hide EnqueueAll, Reset;
    EnqueueAllRows(s.db.rows, s.db.nextId, profile, dests, notBefore, bindings);
  }

  lemma LogKeeps(s: State, profile: int, dests: seq<Dest>, notBefore: nat, bindings: map<Dest, string>)
    requires Inv(s)
    ensures Inv(Next(s, Log(profile, dests, notBefore, bindings)))
  {
    LogAdds(s, profile, dests, notBefore, bindings);
    hide Next, FlightsOk, HistoryOk, InRange, Adds;
    AddsKeeps(s, Next(s, Log(profile, dests, notBefore, bindings)));
  }

  lemma BackfillKeeps(s: State, profile: int)
    requires Inv(s)
    ensures Inv(Next(s, Backfill(profile)))
  {
    hide InRange, FlightsOk, HistoryOk, Reset;
    AddsKeeps(s, Next(s, Backfill(profile)));
  }

  // ---------- Claiming ----------

  lemma ClaimedApart(s: State, keys: seq<Key>)
    requires Inv(s) && Enabled(s, Claim(keys))
    ensures FlightsApart(s.flights + NewFlights(s.db.rows, keys, s.now))
    ensures forall f <- s.flights :: f.entry.key !in keys
  {
    hide InRange, Claimable, HistoryOk, FlightOk;
    forall f | f in s.flights ensures f.entry.key !in keys {
      if f.entry.key in keys { LeasedNotClaimable(s, f); }
    }
    var fs := s.flights + NewFlights(s.db.rows, keys, s.now);
    forall i, j | 0 <= i < j < |fs| ensures fs[i].entry.key != fs[j].entry.key {
      if j >= |s.flights| {
        assert fs[j].entry.key == keys[j - |s.flights|];
        if i < |s.flights| { assert fs[i] in s.flights; }
      }
    }
  }

  lemma NewFlightOk(s: State, keys: seq<Key>, k: Key)
    requires RowsLive(s.db) && Enabled(s, Claim(keys)) && k in keys
    ensures FlightOk(Next(s, Claim(keys)), Flight(EntryOf(s.db.rows, k), s.now, Claimed))
  {
    hide InRange, Claimable;
  }

  lemma ClaimedOk(s: State, keys: seq<Key>)
    requires Inv(s) && Enabled(s, Claim(keys))
    ensures FlightsOk(Next(s, Claim(keys)))
  {
    ClaimedApart(s, keys);
    hide InRange, Claimable, HistoryOk, FlightsApart, FlightOk;
    var t := Next(s, Claim(keys));
    var created := NewFlights(s.db.rows, keys, s.now);
    forall f | f in t.flights ensures FlightOk(t, f) {
      if f in s.flights {
        UntouchedFlight(s, t, f);
      } else {
        var i :| 0 <= i < |keys| && created[i] == f;
        NewFlightOk(s, keys, keys[i]);
      }
    }
  }

  lemma ClaimKeeps(s: State, keys: seq<Key>)
    requires Inv(s) && Enabled(s, Claim(keys))
    ensures Inv(Next(s, Claim(keys)))
  {
    var t := Next(s, Claim(keys));
    ClaimedApart(s, keys);
    ClaimedOk(s, keys);
    hide InRange, Claimable, FlightsApart, FlightsOk, NewFlights;
    forall k | k in t.db.rows ensures HistoryRow(t, k) { SameHistory(s, t, k); }
  }

  // ---------- Draining, completing, crashing ----------

  lemma CrashKeeps(s: State, i: nat)
    requires Inv(s) && Enabled(s, Crash(i))
    ensures Inv(Next(s, Crash(i)))
  {
    var t := Next(s, Crash(i));
    DropMembers(s.flights, i);
    hide InRange, Drop;
    forall f | f in t.flights ensures FlightOk(t, f) { assert FlightOk(s, f); UntouchedFlight(s, t, f); }
    forall k | k in t.db.rows ensures HistoryRow(t, k) { SameHistory(s, t, k); }
  }

  /** A step that ends flight `i` and touches only its row. */
  lemma EndFlight(s: State, t: State, i: nat)
    requires Inv(s) && i < |s.flights| && t.flights == Drop(s.flights, i) && t.now == s.now
    requires t.db.qsos == s.db.qsos && t.db.nextId == s.db.nextId
    requires var k := s.flights[i].entry.key;
      forall j :: j != k ==> (j in t.db.rows <==> j in s.db.rows) && (j in s.db.rows ==> t.db.rows[j] == s.db.rows[j])
    requires var k := s.flights[i].entry.key;
      k in t.db.rows ==> k in s.db.rows && t.db.rows[k].profile == s.db.rows[k].profile
    ensures RowsLive(t.db) && FlightsApart(t.flights) && FlightsOk(t)
  {
    DropMembers(s.flights, i);
    hide InRange, Drop, HistoryOk;
    forall f | f in t.flights ensures FlightOk(t, f) { assert FlightOk(s, f); UntouchedFlight(s, t, f); }
    forall k | k in t.db.rows ensures k.qso in t.db.qsos && t.db.rows[k].profile == t.db.qsos[k.qso] {
      assert k in s.db.rows;
    }
  }

  lemma CompleteHistory(s: State, i: nat, outcome: Outcome)
    requires Inv(s) && Enabled(s, Complete(i, outcome))
    ensures HistoryOk(Next(s, Complete(i, outcome)))
  {
    var t := Next(s, Complete(i, outcome));
    var k := s.flights[i].entry.key;
    hide InRange, Drop, BackoffDelay, FlightsOk, FlightsApart, RowsLive;
    forall j | j in t.db.rows ensures j in t.past.queued && HistoryRow(t, j) {
      assert j in s.db.rows && HistoryRow(s, j);
      if j != k { SameHistory(s, t, j); }
    }
  }

  lemma CompleteKeeps(s: State, i: nat, outcome: Outcome)
    requires Inv(s) && Enabled(s, Complete(i, outcome))
    ensures Inv(Next(s, Complete(i, outcome)))
  {
    CompleteHistory(s, i, outcome);
    hide InRange, Drop, BackoffDelay, FlightsOk, FlightsApart, RowsLive, HistoryOk;
    EndFlight(s, Next(s, Complete(i, outcome)), i);
  }

  /** What draining an entry does to the rows: all but its own stay. */
  lemma DrainedRow(rows: map<Key, Row>, e: Entry, current: string, bindOk: bool, read: Read, now: nat)
    ensures var after := Drained(rows, e, current, bindOk, read, now);
      var bound := BindingAccepted(e, current) && (e.binding != "" || bindOk);
      && (forall j :: j != e.key ==> (j in after <==> j in rows) && (j in rows ==> after[j] == rows[j]))
      && (e.key in after <==> e.key in rows && !(bound && read == Gone))
      && (e.key in after ==>
            && after[e.key].profile == rows[e.key].profile
            && after[e.key].binding == (if bound && e.binding == "" then current else rows[e.key].binding)
            && after[e.key].attempts == rows[e.key].attempts + if bound && read.ReadError? then 1 else 0)
  {
    hide BackoffDelay;
  }

  /** What draining one entry without sending can do to its row. */
  lemma DrainEndsRow(s: State, i: nat, current: string, bindOk: bool, read: Read, hasCommand: bool)
    requires Inv(s) && Enabled(s, Drain(i, current, bindOk, read, hasCommand))
    requires !(Sends(s.flights[i].entry, current, bindOk, read) && hasCommand)
    ensures var t := Next(s, Drain(i, current, bindOk, read, hasCommand));
      var k := s.flights[i].entry.key;
      && (forall j :: j != k ==> (j in t.db.rows <==> j in s.db.rows) && (j in s.db.rows ==> t.db.rows[j] == s.db.rows[j]))
      && (k in t.db.rows ==> k in s.db.rows && t.db.rows[k].profile == s.db.rows[k].profile && HistoryRow(t, k))
      && (k !in t.db.rows ==> k !in s.db.rows || k.qso !in s.db.qsos)
  {
    hide InRange, Drop, FlightsOk, FlightsApart, HistoryOk, Drained;
    var e := s.flights[i].entry;
    FlightKnown(s, i);
    DrainedRow(s.db.rows, e, current, bindOk, read, Secs(s.now));
    if e.key in s.db.rows { HistoryKnown(s, e.key); }
  }

  lemma FlightKnown(s: State, i: nat)
    requires Inv(s) && i < |s.flights|
    ensures FlightOk(s, s.flights[i]) && FlightRow(s.db, s.flights[i])
  {
    hide FlightRow;
  }

  lemma HistoryKnown(s: State, k: Key)
    requires Inv(s) && k in s.db.rows
    ensures HistoryRow(s, k) && k in s.past.queued
  {
    hide HistoryRow;
  }

  lemma DrainEnds(s: State, i: nat, current: string, bindOk: bool, read: Read, hasCommand: bool)
    requires Inv(s) && Enabled(s, Drain(i, current, bindOk, read, hasCommand))
    requires !(Sends(s.flights[i].entry, current, bindOk, read) && hasCommand)
    ensures Inv(Next(s, Drain(i, current, bindOk, read, hasCommand)))
  {
    hide Drained, InRange, Drop, FlightsOk, FlightsApart, RowsLive;
    var t := Next(s, Drain(i, current, bindOk, read, hasCommand));
    var k := s.flights[i].entry.key;
    DrainEndsRow(s, i, current, bindOk, read, hasCommand);
    assert t.past == s.past || (k in s.db.rows && t.past == CountFailure(s.past, s.db.rows, k)) || k !in s.db.rows;
    EndFlight(s, t, i);
    forall j | j in t.db.rows ensures j in t.past.queued && HistoryRow(t, j) {
      assert j in s.db.rows && HistoryRow(s, j);
      if j != k { SameHistory(s, t, j); }
    }
  }

  lemma DrainSendsFlights(s: State, i: nat, current: string, bindOk: bool, read: Read)
    requires Inv(s) && Enabled(s, Drain(i, current, bindOk, read, true))
    requires Sends(s.flights[i].entry, current, bindOk, read)
    ensures FlightsOk(Next(s, Drain(i, current, bindOk, read, true)))
  {
    var t := Next(s, Drain(i, current, bindOk, read, true));
    assert FlightOk(s, s.flights[i]);
    hide InRange, HistoryOk;
    forall g | g in t.flights ensures FlightOk(t, g) {
      var j :| 0 <= j < |t.flights| && t.flights[j] == g;
      if j != i {
        assert g == s.flights[j] && FlightOk(s, g);
        UntouchedFlight(s, t, g);
      }
    }
  }

  lemma SentHistory(s: State, i: nat, current: string, bindOk: bool, read: Read)
    requires Inv(s) && Enabled(s, Drain(i, current, bindOk, read, true))
    requires Sends(s.flights[i].entry, current, bindOk, read) && s.flights[i].entry.key in s.db.rows
    ensures var t := Next(s, Drain(i, current, bindOk, read, true));
      s.flights[i].entry.key in t.db.rows && HistoryRow(t, s.flights[i].entry.key)
  {
    hide InRange, FlightsOk, Drained, HistoryOk, FlightsApart, RowsLive;
    FlightKnown(s, i);
    HistoryKnown(s, s.flights[i].entry.key);
    DrainedRow(s.db.rows, s.flights[i].entry, current, bindOk, read, Secs(s.now));
  }

  lemma DrainSends(s: State, i: nat, current: string, bindOk: bool, read: Read)
    requires Inv(s) && Enabled(s, Drain(i, current, bindOk, read, true))
    requires Sends(s.flights[i].entry, current, bindOk, read)
    ensures Inv(Next(s, Drain(i, current, bindOk, read, true)))
  {
    hide InRange, FlightsOk, Drained, FlightOk, FlightRow;
    var t := Next(s, Drain(i, current, bindOk, read, true));
    var e := s.flights[i].entry;
    DrainSendsFlights(s, i, current, bindOk, read);
    FlightKnown(s, i);
    DrainedRow(s.db.rows, e, current, bindOk, read, Secs(s.now));
    forall j | j in t.db.rows ensures HistoryRow(t, j) {
      HistoryKnown(s, j);
      if j != e.key { SameHistory(s, t, j); } else { SentHistory(s, i, current, bindOk, read); }
    }
  }

  // ---------- Deleting and retrying ----------

  lemma DeleteKeeps(s: State, profile: int, id: int)
    requires Inv(s)
    ensures Inv(Next(s, Delete(profile, id)))
  {
    hide InRange, FlightsOk, HistoryOk;
    DeleteFlights(s, profile, id);
    DeleteHistory(s, profile, id);
  }

  lemma DeleteFlights(s: State, profile: int, id: int)
    requires Inv(s)
    ensures FlightsOk(Next(s, Delete(profile, id)))
  {
    hide InRange, HistoryOk, FlightsApart;
    var t := Next(s, Delete(profile, id));
    forall f | f in t.flights ensures FlightOk(t, f) { assert FlightOk(s, f); }
  }

  lemma DeleteHistory(s: State, profile: int, id: int)
    requires Inv(s)
    ensures HistoryOk(Next(s, Delete(profile, id)))
  {
    hide InRange, FlightsOk, FlightsApart;
    var t := Next(s, Delete(profile, id));
    forall k | k in t.db.rows ensures HistoryRow(t, k) { SameHistory(s, t, k); }
  }

  lemma RetryFlights(s: State, profile: int, dest: Dest, binding: string)
    requires Inv(s) && Enabled(s, Retry(profile, dest, binding))
    ensures FlightsOk(Next(s, Retry(profile, dest, binding)))
  {
    var t := Next(s, Retry(profile, dest, binding));
    hide InRange, HistoryOk, Reset;
    forall f | f in t.flights ensures FlightOk(t, f) {
      assert FlightOk(s, f);
      UntouchedFlight(s, t, f);
    }
  }

  lemma RetryHistory(s: State, profile: int, dest: Dest, binding: string, k: Key)
    requires k in s.db.rows && HistoryRow(s, k) && Enabled(s, Retry(profile, dest, binding))
    ensures HistoryRow(Next(s, Retry(profile, dest, binding)), k)
  {
    var t := Next(s, Retry(profile, dest, binding));
    if !Retries(s.db.rows[k], k, profile, dest) { SameHistory(s, t, k); }
  }

  lemma RetryHistories(s: State, profile: int, dest: Dest, binding: string)
    requires HistoryOk(s) && Enabled(s, Retry(profile, dest, binding))
    ensures HistoryOk(Next(s, Retry(profile, dest, binding)))
  {
    hide HistoryRow, Retries;
    var t := Next(s, Retry(profile, dest, binding));
    forall k | k in t.db.rows ensures HistoryRow(t, k) { RetryHistory(s, profile, dest, binding, k); }
  }

  lemma RetryKeeps(s: State, profile: int, dest: Dest, binding: string)
    requires Inv(s) && Enabled(s, Retry(profile, dest, binding))
    ensures Inv(Next(s, Retry(profile, dest, binding)))
  {
    RetryFlights(s, profile, dest, binding);
    RetryHistories(s, profile, dest, binding);
    hide InRange, FlightsOk, HistoryOk, FlightsApart, Reset, Retries;
  }

  lemma StepKeeps(s: State, step: Step)
    requires Inv(s) && Enabled(s, step)
    ensures Inv(Next(s, step))
  {
    hide Inv, Enabled, Next;
    match step
    case Tick(d) => TickKeeps(s, d);
    case Log(p, d, n, b) => LogKeeps(s, p, d, n, b);
    case Claim(keys) => ClaimKeeps(s, keys);
    case Drain(i, c, b, r, h) => DrainKeeps(s, i, c, b, r, h);
    case Complete(i, o) => CompleteKeeps(s, i, o);
    case Crash(i) => CrashKeeps(s, i);
    case Delete(p, id) => DeleteKeeps(s, p, id);
    case Backfill(p) => BackfillKeeps(s, p);
    case Retry(p, d, b) => RetryKeeps(s, p, d, b);
  }

  lemma DrainKeeps(s: State, i: nat, current: string, bindOk: bool, read: Read, hasCommand: bool)
    requires Inv(s) && Enabled(s, Drain(i, current, bindOk, read, hasCommand))
    ensures Inv(Next(s, Drain(i, current, bindOk, read, hasCommand)))
  {
    if Sends(s.flights[i].entry, current, bindOk, read) && hasCommand {
      DrainSends(s, i, current, bindOk, read);
    } else {
      DrainEnds(s, i, current, bindOk, read, hasCommand);
    }
    hide Inv, Next;
  }

  // ---------- Whole runs ----------

  ghost predicate Run(states: seq<State>, steps: seq<Step>) {
    && |states| == |steps| + 1 && Init(states[0])
    && forall i :: 0 <= i < |steps| ==> Enabled(states[i], steps[i]) && states[i + 1] == Next(states[i], steps[i])
  }

  lemma {:induction false} RunKeeps(states: seq<State>, steps: seq<Step>, n: nat)
    requires Run(states, steps) && n < |states|
    ensures Inv(states[n])
  {
    hide Inv, Enabled, Next, Init;
    if n == 0 {
      InitInv(states[0]);
    } else {
      RunKeeps(states, steps, n - 1);
      StepKeeps(states[n - 1], steps[n - 1]);
    }
  }

  /** At no time do two uploads of the same contact to the same destination run. */
  lemma NeverInFlightTwice(states: seq<State>, steps: seq<Step>, n: nat, i: nat, j: nat)
    requires Run(states, steps) && n < |states| && i < j < |states[n].flights|
    ensures states[n].flights[i].entry.key != states[n].flights[j].entry.key
  {
    RunKeeps(states, steps, n);
    hide Run;
  }

  /** A queued delivery is still a row, was delivered, or its contact is gone; rows never outlive their contact. */
  lemma NothingLost(states: seq<State>, steps: seq<Step>, n: nat, k: Key)
    requires Run(states, steps) && n < |states|
    ensures k in states[n].past.queued ==>
              k in states[n].db.rows || k in states[n].past.delivered || k.qso !in states[n].db.qsos
    ensures k in states[n].db.rows ==> k.qso in states[n].db.qsos && k in states[n].past.queued
  {
    RunKeeps(states, steps, n);
    hide Run;
  }

  /** attempts counts the failures recorded since the row was created or retried, and
      every send since then went out under the row's own nonempty binding. */
  lemma RowsRemember(states: seq<State>, steps: seq<Step>, n: nat, k: Key)
    requires Run(states, steps) && n < |states| && k in states[n].db.rows
    ensures k in states[n].past.failures && states[n].db.rows[k].attempts == states[n].past.failures[k]
    ensures k in states[n].past.used ==> forall b <- states[n].past.used[k] :: b == states[n].db.rows[k].binding && b != ""
  {
    RunKeeps(states, steps, n);
    assert HistoryRow(states[n], k);
    hide Run;
  }

  // ---------- Single steps ----------

  /** Contact and delivery rows appear in one step. */
  lemma LogQueuesAll(s: State, profile: int, dests: seq<Dest>, notBefore: nat, bindings: map<Dest, string>)
    requires Inv(s)
    ensures var t := Next(s, Log(profile, dests, notBefore, bindings));
      && s.db.nextId in t.db.qsos && s.db.nextId !in s.db.qsos
      && forall d <- dests :: Key(s.db.nextId, d) in t.db.rows && Key(s.db.nextId, d) in t.past.queued
  {
    EnqueueAllRows(s.db.rows, s.db.nextId, profile, dests, notBefore, bindings);
    hide EnqueueAll;
  }

  /** While a flight's row exists its contact is there to be read. */
  lemma LiveReads(s: State, i: nat, current: string, bindOk: bool, read: Read, hasCommand: bool)
    requires Inv(s) && Enabled(s, Drain(i, current, bindOk, read, hasCommand))
    requires s.flights[i].entry.key in s.db.rows
    ensures !read.Gone?
  {
    assert FlightOk(s, s.flights[i]);
    hide InRange, HistoryOk, FlightsOk, FlightsApart;
  }

  /** A row disappears only by a confirmed delivery or with its contact. */
  lemma RowRemoval(s: State, step: Step, k: Key)
    requires Inv(s) && Enabled(s, step) && k in s.db.rows && k !in Next(s, step).db.rows
    ensures || (step.Complete? && step.outcome == Delivered && s.flights[step.i].entry.key == k && s.flights[step.i].phase.Sending?)
            || (step.Delete? && step.id == k.qso && Live(s.db, step.profile, k.qso))
  {
    hide InRange, HistoryOk, FlightsOk, FlightsApart, BackoffDelay, EnqueueAll, Drained;
    match step
    case Log(p, d, n, b) => EnqueueAllRows(s.db.rows, s.db.nextId, p, d, n, b);
    case Drain(i, c, b, r, h) =>
      DrainedRow(s.db.rows, s.flights[i].entry, c, b, r, Secs(s.now));
      if s.flights[i].entry.key == k { LiveReads(s, i, c, b, r, h); }
    case _ =>
  }

  predicate Rebinds(s: State, step: Step, k: Key) {
    k in s.db.rows && step.Retry? && Retries(s.db.rows[k], k, step.profile, step.dest)
  }

  lemma DrainSurvives(s: State, i: nat, current: string, bindOk: bool, read: Read, hasCommand: bool, k: Key)
    requires Inv(s) && Enabled(s, Drain(i, current, bindOk, read, hasCommand)) && k in s.db.rows
    requires k in Next(s, Drain(i, current, bindOk, read, hasCommand)).db.rows
    ensures var after := Next(s, Drain(i, current, bindOk, read, hasCommand)).db.rows[k];
      && (s.db.rows[k].binding != "" ==> after.binding == s.db.rows[k].binding)
      && after.attempts >= s.db.rows[k].attempts
  {
    hide InRange, FlightsOk, FlightsApart, HistoryOk, Drained, RowsLive, FlightOk;
    FlightKnown(s, i);
    DrainedRow(s.db.rows, s.flights[i].entry, current, bindOk, read, Secs(s.now));
  }

  lemma CompleteSurvives(s: State, i: nat, outcome: Outcome, k: Key)
    requires Inv(s) && Enabled(s, Complete(i, outcome)) && k in s.db.rows && k in Next(s, Complete(i, outcome)).db.rows
    ensures var after := Next(s, Complete(i, outcome)).db.rows[k];
      after.binding == s.db.rows[k].binding && after.attempts >= s.db.rows[k].attempts
  {
    hide InRange, FlightsOk, FlightsApart, HistoryOk, RowsLive, BackoffDelay;
  }

  lemma RowSurvives(s: State, step: Step, k: Key)
    requires Inv(s) && Enabled(s, step) && k in s.db.rows && k in Next(s, step).db.rows
    requires !Rebinds(s, step, k)
    ensures s.db.rows[k].binding != "" ==> Next(s, step).db.rows[k].binding == s.db.rows[k].binding
    ensures Next(s, step).db.rows[k].attempts >= s.db.rows[k].attempts
  {
    hide InRange, HistoryOk, FlightsOk, FlightsApart, BackoffDelay, EnqueueAll, Drained, Failed;
    match step
    case Log(p, d, n, b) => EnqueueAllRows(s.db.rows, s.db.nextId, p, d, n, b);
    case Drain(i, c, b, r, h) => DrainSurvives(s, i, c, b, r, h, k);
    case Complete(i, outcome) => CompleteSurvives(s, i, outcome, k);
    case _ =>
  }

  /** A send goes out under the row's binding: the one it had, or the one it gets in the same step. */
  lemma SendsUnderBinding(s: State, i: nat, current: string, bindOk: bool)
    requires Inv(s) && Enabled(s, Drain(i, current, bindOk, Found, true))
    requires Sends(s.flights[i].entry, current, bindOk, Found)
    ensures var k, t := s.flights[i].entry.key, Next(s, Drain(i, current, bindOk, Found, true));
      && k in s.db.rows && k in t.db.rows && current != ""
      && t.db.rows[k].binding == current
      && (s.db.rows[k].binding != "" ==> s.db.rows[k].binding == current)
  {
    assert FlightOk(s, s.flights[i]);
    hide InRange, HistoryOk, FlightsOk, FlightsApart;
  }

  /** Between two points of a run with no Ctrl+U for the row, a nonempty binding stays. */
  lemma {:induction false} BindingUntilRetry(states: seq<State>, steps: seq<Step>, m: nat, n: nat, k: Key)
    requires Run(states, steps) && m <= n < |states|
    requires forall i :: m <= i <= n ==> k in states[i].db.rows
    requires forall i :: m <= i < n ==> !Rebinds(states[i], steps[i], k)
    requires states[m].db.rows[k].binding != ""
    ensures states[n].db.rows[k].binding == states[m].db.rows[k].binding
    decreases n
  {
    hide Inv, Enabled, Next, Init, Rebinds;
    if m < n {
      BindingUntilRetry(states, steps, m, n - 1, k);
      RunKeeps(states, steps, n - 1);
      assert Enabled(states[n - 1], steps[n - 1]) && states[n] == Next(states[n - 1], steps[n - 1]);
      RowSurvives(states[n - 1], steps[n - 1], k);
    }
  }

  /** Two sends of one row with no Ctrl+U in between use one binding. */
  lemma SendsAgree(states: seq<State>, steps: seq<Step>, m: nat, n: nat, i: nat, j: nat, b: string, c: string, u: bool, v: bool)
    requires Run(states, steps) && m < n < |steps|
    requires steps[m] == Drain(i, b, u, Found, true) && Sends(states[m].flights[i].entry, b, u, Found)
    requires steps[n] == Drain(j, c, v, Found, true) && Sends(states[n].flights[j].entry, c, v, Found)
    requires states[m].flights[i].entry.key == states[n].flights[j].entry.key
    requires var k := states[m].flights[i].entry.key;
      && (forall x :: m < x <= n ==> k in states[x].db.rows)
      && (forall x :: m < x < n ==> !Rebinds(states[x], steps[x], k))
    ensures b == c
  {
    var k := states[m].flights[i].entry.key;
    RunKeeps(states, steps, m);
    RunKeeps(states, steps, n);
    assert Enabled(states[m], steps[m]) && Enabled(states[n], steps[n]) && states[m + 1] == Next(states[m], steps[m]);
    SendsUnderBinding(states[m], i, b, u);
    SendsUnderBinding(states[n], j, c, v);
    hide Inv, Enabled, Next, Init, Rebinds;
    BindingUntilRetry(states, steps, m + 1, n, k);
  }

  lemma ExhaustedUnclaimed(s: State, keys: seq<Key>, k: Key)
    requires Enabled(s, Claim(keys)) && k in s.db.rows && s.db.rows[k].attempts >= MAX_ATTEMPTS
    ensures k !in keys
  {
    hide TextDue;
  }

  /** A row at twenty attempts is not claimed until Ctrl+U takes it. */
  lemma {:induction false} ExhaustedWaits(states: seq<State>, steps: seq<Step>, m: nat, n: nat, k: Key)
    requires Run(states, steps) && m <= n < |steps|
    requires forall i :: m <= i <= n ==> k in states[i].db.rows
    requires forall i :: m <= i < n ==> !Rebinds(states[i], steps[i], k)
    requires states[m].db.rows[k].attempts >= MAX_ATTEMPTS
    ensures states[n].db.rows[k].attempts >= MAX_ATTEMPTS
    ensures steps[n].Claim? ==> k !in steps[n].keys
    decreases n
  {
    hide Inv, Enabled, Next, Init, Rebinds;
    if m < n {
      ExhaustedWaits(states, steps, m, n - 1, k);
      RunKeeps(states, steps, n - 1);
      assert Enabled(states[n - 1], steps[n - 1]) && states[n] == Next(states[n - 1], steps[n - 1]);
      RowSurvives(states[n - 1], steps[n - 1], k);
    }
    assert Enabled(states[n], steps[n]);
    if steps[n].Claim? { ExhaustedUnclaimed(states[n], steps[n].keys, k); }
  }

  /** Ctrl+U passes over rows that are in flight. */
  lemma RetrySkipsFlights(s: State, f: Flight, profile: int, bindings: map<Dest, string>, clock: Dest -> nat)
    requires Inv(s) && f in s.flights && f.entry.key in s.db.rows
    ensures Retried(s.db.rows, profile, bindings, clock)[f.entry.key] == s.db.rows[f.entry.key]
  {
    assert FlightOk(s, f);
    hide InRange, HistoryOk, FlightsOk, FlightsApart;
  }

  /** The store's claim query is a claim step of the protocol. */
  lemma ClaimIsStep(s: State, limit: nat, entries: seq<Entry>)
    requires Selected(s.db.rows, Secs(s.now), limit, entries)
    ensures var keys := seq(|entries|, i requires 0 <= i < |entries| => entries[i].key);
      Enabled(s, Claim(keys)) && KeySet(keys) == Outbox.KeysOf(entries)
  {
    hide Claimable;
    var keys := seq(|entries|, i requires 0 <= i < |entries| => entries[i].key);
    assert forall k :: k in keys <==> k in Outbox.KeysOf(entries) by {
      forall k | k in Outbox.KeysOf(entries) ensures k in keys {
        var e :| e in entries && e.key == k;
        var i :| 0 <= i < |entries| && entries[i] == e;
        assert keys[i] == k;
      }
    }
    assert KeySet(keys) == Outbox.KeysOf(entries);
    NoRepeats(keys);
  }

  lemma {:induction false} NoRepeats(keys: seq<Key>)
    requires |KeySet(keys)| == |keys|
    ensures Distinct(keys)
  {
    if keys != [] {
      var n := |keys| - 1;
      var front := keys[..n];
      assert keys == front + [keys[n]];
      assert KeySet(keys) == KeySet(front) + {keys[n]};
      SetOfSeqSize(front);
      NoRepeats(front);
      assert keys[n] in front ==> KeySet(keys) == KeySet(front);
      forall i, j | 0 <= i < j < |keys| ensures keys[i] != keys[j] {
        assert keys[i] == front[i];
        if j < n { assert keys[j] == front[j]; }
      }
    }
  }

  lemma {:induction false} SetOfSeqSize(keys: seq<Key>)
    ensures |KeySet(keys)| <= |keys|
  {
    if keys != [] {
      var n := |keys| - 1;
      SetOfSeqSize(keys[..n]);
      assert keys == keys[..n] + [keys[n]];
      assert KeySet(keys) == KeySet(keys[..n]) + {keys[n]};
    }
  }

  // ---------- The store's longer operations are runs ----------

  /** A run from any state. */
  ghost predicate RunFrom(s: State, states: seq<State>, steps: seq<Step>) {
    && |states| == |steps| + 1 && states[0] == s
    && forall i :: 0 <= i < |steps| ==> Enabled(states[i], steps[i]) && states[i + 1] == Next(states[i], steps[i])
  }

  lemma RunMore(s: State, states: seq<State>, steps: seq<Step>, step: Step)
    requires RunFrom(s, states, steps) && Enabled(states[|steps|], step)
    ensures RunFrom(s, states + [Next(states[|steps|], step)], steps + [step])
  {
    hide Enabled, Next;
    var more, longer := states + [Next(states[|steps|], step)], steps + [step];
    forall i | 0 <= i < |longer| ensures Enabled(more[i], longer[i]) && more[i + 1] == Next(more[i], longer[i]) {
      if i < |steps| { assert more[i] == states[i] && more[i + 1] == states[i + 1] && longer[i] == steps[i]; }
    }
  }

  /** A contact of a LoTW batch is being sent. */
  predicate InBatch(s: State, f: Flight, id: int) { f in s.flights && f.entry.key == Key(id, Lotw) && f.phase.Sending? }

  /** What one row of a batch with an exit code comes to. */
  function BatchOutcome(code: int, text: string): Outcome { if ExitDelivered(code) then Delivered else Rejected(text) }

  lemma CompleteOne(s: State, f: Flight, id: int, code: int, text: string) returns (i: nat)
    requires InBatch(s, f, id)
    ensures Enabled(s, Complete(i, BatchOutcome(code, text)))
    ensures var t, k := Next(s, Complete(i, BatchOutcome(code, text))), Key(id, Lotw);
      && t.now == s.now && t.db.qsos == s.db.qsos && t.db.nextId == s.db.nextId
      && t.db.rows == (if ExitDelivered(code) then Without(s.db.rows, k) else Failed(s.db.rows, k, text, Secs(s.now)))
      && forall g <- s.flights :: g.entry.key != k ==> g in t.flights
  {
    hide Failed;
    i :| 0 <= i < |s.flights| && s.flights[i] == f;
    forall g | g in s.flights && g.entry.key != Key(id, Lotw) ensures g in Drop(s.flights, i) {
      var j :| 0 <= j < |s.flights| && s.flights[j] == g;
      assert Drop(s.flights, i)[if j < i then j else j - 1] == g;
    }
  }

  /** Finishing a LoTW batch is a run of completions, one per contact, that leaves the rows the store leaves. */
  lemma {:induction false} BatchIsRun(s: State, ids: seq<int>, flights: seq<Flight>, code: int, text: string)
      returns (states: seq<State>, steps: seq<Step>)
    requires |flights| == |ids| && forall i :: 0 <= i < |ids| ==> InBatch(s, flights[i], ids[i])
    requires forall i, j :: 0 <= i < j < |ids| ==> ids[i] != ids[j]
    ensures RunFrom(s, states, steps) && |steps| == |ids|
    ensures forall step <- steps :: step.Complete? && step.outcome == BatchOutcome(code, text)
    ensures var t := states[|steps|];
      && t.now == s.now && t.db == s.db.(rows := BatchDone(s.db.rows, ids, code, text, Secs(s.now)))
      && forall f <- s.flights :: f.entry.key.dest != Lotw || f.entry.key.qso !in ids ==> f in t.flights
  {
    hide Enabled, Next, Failed, Without;
    if ids == [] {
      states, steps := [s], [];
    } else {
      var n := |ids| - 1;
      states, steps := BatchIsRun(s, ids[..n], flights[..n], code, text);
      var m := states[n];
      assert InBatch(m, flights[n], ids[n]);
      var i := CompleteOne(m, flights[n], ids[n], code, text);
      var step := Complete(i, BatchOutcome(code, text));
      RunMore(s, states, steps, step);
      assert forall id :: id in ids[..n] ==> id in ids;
      states, steps := states + [Next(m, step)], steps + [step];
    }
  }

  /** A retry that reaches the destinations of `order` is a run of one step for each that is configured. */
  lemma {:induction false} RetryIsRun(s: State, profile: int, order: seq<Dest>, bindings: map<Dest, string>)
      returns (states: seq<State>, steps: seq<Step>)
    requires (forall d <- order :: d in bindings) && forall i, j :: 0 <= i < j < |order| ==> order[i] != order[j]
    ensures RunFrom(s, states, steps) && forall step <- steps :: step.Retry? && step.profile == profile
    ensures var t, left := states[|steps|], bindings.Keys - set d | d in order;
      && t.now == s.now && t.flights == s.flights
      && t.db == s.db.(rows := Retried(s.db.rows, profile, Except(bindings, left), _ => Secs(s.now)))
  {
    hide Enabled, Next, Retried, RetriedDest, Except;
    var clock: Dest -> nat := _ => Secs(s.now);
    if order == [] {
      states, steps := [s], [];
      assert bindings.Keys - (set d | d in order) == bindings.Keys;
      NothingLeft(bindings);
      RetryNothing(s.db.rows, profile, Except(bindings, bindings.Keys), clock);
    } else {
      var n := |order| - 1;
      states, steps := RetryIsRun(s, profile, order[..n], bindings);
      var dest, m := order[n], states[|steps|];
      var todo := bindings.Keys - set d | d in order[..n];
      assert order == order[..n] + [dest];
      assert bindings.Keys - (set d | d in order) == todo - {dest};
      RetryStep(s.db.rows, profile, bindings, todo, dest, clock);
      if bindings[dest] != "" {
        var step := Retry(profile, dest, bindings[dest]);
        RetryOne(m, profile, dest, bindings[dest]);
        RunMore(s, states, steps, step);
        states, steps := states + [Next(m, step)], steps + [step];
      }
    }
  }

  lemma NothingLeft(bindings: map<Dest, string>)
    ensures Except(bindings, bindings.Keys) == map[]
  {
  }

  lemma RetryOne(s: State, profile: int, dest: Dest, binding: string)
    requires binding != ""
    ensures Enabled(s, Retry(profile, dest, binding))
    ensures var t := Next(s, Retry(profile, dest, binding));
      t.now == s.now && t.flights == s.flights && t.db == s.db.(rows := RetriedDest(s.db.rows, profile, dest, binding, Secs(s.now)))
  {
  }
}
