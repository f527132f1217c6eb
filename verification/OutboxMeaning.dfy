/** What every step of the outbox does to the tables, row by row. */
module OutboxMeaning {
  import opened Text
  import opened Clock
  import opened Outbox
  import opened OutboxProtocol

  /** A row may be claimed while it had fewer than twenty failures and its time has come. */
  lemma ClaimableWhen(row: Row, now: nat)
    requires row.nextAt < EndOfTime() && now < EndOfTime()
    ensures Claimable(row, now) <==> row.attempts < 20 && row.nextAt <= now
  {
    hide TextDue, EndOfTime;
    TextDueIsTime(row.nextAt, now);
  }

  /** Logging adds the contact under a new id and, for each destination, a row that is due at `notBefore`, without
      attempts or error, bound to the configuration given for it. */
  lemma LogWrites(s: State, profile: int, dests: seq<Dest>, notBefore: nat, bindings: map<Dest, string>)
    requires Inv(s)
    ensures var t, id := Next(s, Log(profile, dests, notBefore, bindings)), s.db.nextId;
      && t.db.qsos == s.db.qsos[id := profile] && t.db.nextId == id + 1 && t.flights == s.flights && t.now == s.now
      && (forall k <- s.db.rows :: k in t.db.rows && t.db.rows[k] == s.db.rows[k])
      && (forall k <- t.db.rows :: k in s.db.rows || (k.qso == id && k.dest in dests))
      && (forall d <- dests :: Key(id, d) in t.db.rows
            && t.db.rows[Key(id, d)] == Row(profile, 0, notBefore, None, if d in bindings then bindings[d] else ""))
  {
    EnqueueAllRows(s.db.rows, s.db.nextId, profile, dests, notBefore, bindings);
    forall k | k in s.db.rows ensures k.qso != s.db.nextId { }
    NewRows(s.db.rows, s.db.nextId, profile, dests, notBefore, bindings);
    hide EnqueueAll, Inv, Reset;
  }

  lemma {:induction false} NewRows(rows: map<Key, Row>, id: int, profile: int, dests: seq<Dest>, notBefore: nat, bindings: map<Dest, string>)
    requires forall k <- rows :: k.qso != id
    ensures forall d <- dests :: Key(id, d) in EnqueueAll(rows, id, profile, dests, notBefore, bindings)
              && EnqueueAll(rows, id, profile, dests, notBefore, bindings)[Key(id, d)]
                 == Row(profile, 0, notBefore, None, if d in bindings then bindings[d] else "")
  {
    hide Enqueued, Enqueue, SetBinding;
    if dests != [] {
      var n := |dests| - 1;
      NewRows(rows, id, profile, dests[..n], notBefore, bindings);
      EnqueueAllRows(rows, id, profile, dests[..n], notBefore, bindings);
      var b := if dests[n] in bindings then bindings[dests[n]] else "";
      EnqueuedOnly(rows, EnqueueAll(rows, id, profile, dests[..n], notBefore, bindings), id, profile, dests[..n], dests[n]);
      OneNewRow(rows, EnqueueAll(rows, id, profile, dests[..n], notBefore, bindings), id, profile, dests[..n], dests[n], notBefore, b);
      assert dests == dests[..n] + [dests[n]];
    }
  }

  lemma EnqueuedOnly(rows: map<Key, Row>, after: map<Key, Row>, id: int, profile: int, dests: seq<Dest>, dest: Dest)
    requires Enqueued(rows, after, id, profile, dests) && forall k <- rows :: k.qso != id
    ensures Key(id, dest) in after ==> dest in dests
  {
  }

  lemma OneNewRow(rows: map<Key, Row>, before: map<Key, Row>, id: int, profile: int, dests: seq<Dest>, dest: Dest, notBefore: nat, binding: string)
    requires Enqueued(rows, before, id, profile, dests) && forall k <- rows :: k.qso != id
    requires Key(id, dest) in before ==> before[Key(id, dest)] == Row(profile, 0, notBefore, None, binding)
    ensures var k, after := Key(id, dest), SetBinding(Enqueue(before, Key(id, dest), profile, notBefore), Key(id, dest), binding);
      && k in after && after[k] == Row(profile, 0, notBefore, None, binding)
      && forall j :: j in before && j != k ==> j in after && after[j] == before[j]
  {
    hide Enqueued;
  }

  /** Queuing a delivery that is queued already changes nothing. */
  lemma QueuedOnce(rows: map<Key, Row>, k: Key, profile: int, notBefore: nat)
    ensures var after := Enqueue(rows, k, profile, notBefore);
      && (k in rows ==> after == rows)
      && (k !in rows ==> after == rows[k := Row(profile, 0, notBefore, None, "")])
  {
  }

  /** A claim leases its rows for ninety seconds and clears their errors; every flight it starts knows the row's binding. */
  lemma ClaimWrites(s: State, keys: seq<Key>)
    requires Enabled(s, Claim(keys))
    ensures var t := Next(s, Claim(keys));
      && t.db.qsos == s.db.qsos && t.db.nextId == s.db.nextId && t.db.rows.Keys == s.db.rows.Keys && t.now == s.now
      && (forall k <- s.db.rows :: t.db.rows[k]
            == if k in keys then s.db.rows[k].(nextAt := s.now / 1_000_000_000 + 90, lastError := None) else s.db.rows[k])
      && |t.flights| == |s.flights| + |keys| && t.flights[..|s.flights|] == s.flights
      && forall i :: 0 <= i < |keys| ==>
           t.flights[|s.flights| + i] == Flight(Entry(keys[i], s.db.rows[keys[i]].profile, s.db.rows[keys[i]].binding), s.now, Claimed)
  {
    hide Claimable;
  }

  /** Rows other than that of the flight, and the contacts, stay. */
  ghost predicate OnlyRow(s: State, t: State, k: Key) {
    && t.db.qsos == s.db.qsos && t.db.nextId == s.db.nextId && t.now == s.now
    && t.db.rows - {k} == s.db.rows - {k}
  }

  /** Draining a claimed entry: pausing it while its credentials are missing or belong to another account. */
  lemma DrainPauses(s: State, i: nat, current: string, bindOk: bool, read: Read, hasCommand: bool)
    requires Enabled(s, Drain(i, current, bindOk, read, hasCommand))
    requires var e := s.flights[i].entry; current == "" || (e.binding != "" && e.binding != current)
    ensures var t, k := Next(s, Drain(i, current, bindOk, read, hasCommand)), s.flights[i].entry.key;
      && OnlyRow(s, t, k) && t.flights == s.flights[..i] + s.flights[i + 1..]
      && (k in t.db.rows <==> k in s.db.rows)
      && (k in s.db.rows ==> t.db.rows[k] == s.db.rows[k].(lastError :=
            Some("paused: missing or changed destination credentials/logbook; Ctrl+U to retry with current configuration")))
  {
  }

  /** ... giving up until the next drain when binding it fails ... */
  lemma DrainUnbound(s: State, i: nat, current: string, read: Read, hasCommand: bool)
    requires Enabled(s, Drain(i, current, false, read, hasCommand)) && current != "" && s.flights[i].entry.binding == ""
    ensures var t := Next(s, Drain(i, current, false, read, hasCommand)); t.db == s.db && t.flights == s.flights[..i] + s.flights[i + 1..]
  {
  }

  /** ... and otherwise binding an unbound row and sending it, dropping it with its contact, or recording what went wrong. */
  lemma DrainGoesOn(s: State, i: nat, current: string, bindOk: bool, read: Read, hasCommand: bool)
    requires Enabled(s, Drain(i, current, bindOk, read, hasCommand)) && current != ""
    requires var e := s.flights[i].entry; e.binding == current || (e.binding == "" && bindOk)
    ensures var t, f := Next(s, Drain(i, current, bindOk, read, hasCommand)), s.flights[i];
      var k := f.entry.key;
      && OnlyRow(s, t, k)
      && (read == Found && hasCommand ==> t.flights == s.flights[i := f.(phase := Sending(current))])
      && (!(read == Found && hasCommand) ==> t.flights == s.flights[..i] + s.flights[i + 1..])
      && (read == Gone ==> k !in t.db.rows)
      && (read != Gone ==> (k in t.db.rows <==> k in s.db.rows))
      && (read == Found && k in s.db.rows ==>
            t.db.rows[k] == if f.entry.binding == "" then s.db.rows[k].(binding := current) else s.db.rows[k])
      && (forall m :: read == ReadError(m) && k in s.db.rows ==>
            && t.db.rows[k].attempts == s.db.rows[k].attempts + 1 && t.db.rows[k].lastError == Some(m)
            && t.db.rows[k].profile == s.db.rows[k].profile
            && t.db.rows[k].binding == if f.entry.binding == "" then current else s.db.rows[k].binding)
  {
    hide BackoffDelay;
  }

  /** The end of an upload: its row goes when it was delivered, stays with one more attempt when it was rejected, and
      stays as it was when nothing could be recorded. */
  lemma CompleteWrites(s: State, i: nat, outcome: Outcome)
    requires Enabled(s, Complete(i, outcome))
    ensures var t, k := Next(s, Complete(i, outcome)), s.flights[i].entry.key;
      && OnlyRow(s, t, k) && t.flights == s.flights[..i] + s.flights[i + 1..]
      && (outcome == Delivered ==> k !in t.db.rows)
      && (outcome != Delivered ==> (k in t.db.rows <==> k in s.db.rows))
      && (outcome == Unrecorded ==> t.db == s.db)
      && (forall m :: outcome == Rejected(m) && k in s.db.rows ==>
            && t.db.rows[k].attempts == s.db.rows[k].attempts + 1 && t.db.rows[k].lastError == Some(m)
            && t.db.rows[k].profile == s.db.rows[k].profile && t.db.rows[k].binding == s.db.rows[k].binding)
  {
    hide BackoffDelay;
  }

  /** A retry makes every row of the profile and destination that shows an error due now, without attempts or error and
      bound to the current configuration; every other row stays. */
  lemma RetryWrites(s: State, profile: int, dest: Dest, binding: string)
    requires Enabled(s, Retry(profile, dest, binding))
    ensures var t := Next(s, Retry(profile, dest, binding));
      && t.db.qsos == s.db.qsos && t.db.nextId == s.db.nextId && t.flights == s.flights && t.now == s.now && t.db.rows.Keys == s.db.rows.Keys
      && forall k <- s.db.rows :: t.db.rows[k]
           == if s.db.rows[k].profile == profile && k.dest == dest && s.db.rows[k].lastError != None
              then Row(profile, 0, s.now / 1_000_000_000, None, binding) else s.db.rows[k]
  {
    hide Reset;
  }

  /** A backfill gives every contact of the profile a LoTW row that is due now, unless it has one. */
  lemma BackfillWrites(s: State, profile: int)
    ensures var t := Next(s, Backfill(profile));
      && t.db.qsos == s.db.qsos && t.db.nextId == s.db.nextId && t.flights == s.flights && t.now == s.now
      && (forall k <- s.db.rows :: k in t.db.rows && t.db.rows[k] == s.db.rows[k])
      && (forall k :: k in t.db.rows && k !in s.db.rows <==>
            k !in s.db.rows && k.dest == Lotw && k.qso in s.db.qsos && s.db.qsos[k.qso] == profile)
      && (forall k <- t.db.rows :: k !in s.db.rows ==> t.db.rows[k] == Row(profile, 0, s.now / 1_000_000_000, None, ""))
  {
    hide Reset;
  }

  /** Deleting takes the profile's own contact and all its rows; a crash only loses its flight. */
  lemma DeleteWrites(s: State, profile: int, id: int)
    ensures var t := Next(s, Delete(profile, id));
      && t.flights == s.flights && t.now == s.now && t.db.nextId == s.db.nextId
      && (id in s.db.qsos && s.db.qsos[id] == profile ==>
            && t.db.qsos == s.db.qsos - {id}
            && t.db.rows == map k | k in s.db.rows && k.qso != id :: s.db.rows[k])
      && (id !in s.db.qsos || s.db.qsos[id] != profile ==> t.db == s.db)
    ensures forall i: nat :: Enabled(s, Crash(i)) ==>
              Next(s, Crash(i)).db == s.db && Next(s, Crash(i)).flights == s.flights[..i] + s.flights[i + 1..]
  {
  }

  /** How a LoTW exit code resolves a batch: delivered for 0, 8, 9 and 14, of which 0 and 14 count as sent; rejected otherwise. */
  lemma ExitCodes(ids: seq<int>, code: int, text: string, i: nat)
    requires i < |ids|
    ensures BatchOutcome(code, text) == if code in {0, 8, 9, 14} then Delivered else Rejected(text)
    ensures BatchLog(ids, code)[i]
         == (ids[i], Lotw, if code in {0, 14} then SentStatus else if code in {8, 9} then SuppressedStatus else FailedStatus)
  {
  }

  // ---------- What the history remembers ----------

  /** Rows that appear or are retried start over ... */
  lemma FreshHistory(s: State, step: Step)
    requires Enabled(s, step) && (step.Log? || step.Backfill? || step.Retry?)
    ensures var t := Next(s, step);
      StartedOver(s.past, t.past,
        if step.Retry? then set k | k in s.db.rows && s.db.rows[k].profile == step.profile && k.dest == step.dest && s.db.rows[k].lastError != None
        else t.db.rows.Keys - s.db.rows.Keys)
  {
    hide Logged, Backfilled, RetriedDest, Reset, StartedOver;
    match step
    case Log(p, d, n, b) => StartsOver(s.past, Next(s, step).db.rows.Keys - s.db.rows.Keys);
    case Backfill(p) => StartsOver(s.past, Next(s, step).db.rows.Keys - s.db.rows.Keys);
    case Retry(p, d, b) =>
      var keys := set k | k in s.db.rows && Retries(s.db.rows[k], k, p, d);
      StartsOver(s.past, keys);
      assert keys == set k | k in s.db.rows && s.db.rows[k].profile == p && k.dest == d && s.db.rows[k].lastError != None;
  }

  /** ... an upload that ends is charged or remembered as delivered; other steps leave no trace ... */
  lemma EndHistory(s: State, step: Step)
    requires Enabled(s, step) && (step.Complete? || step.Crash? || step.Tick? || step.Claim? || step.Delete?)
    ensures var h, g := s.past, Next(s, step).past;
      && (!step.Complete? ==> g == h)
      && (step.Complete? && step.outcome == Unrecorded ==> g == h)
      && (step.Complete? && step.outcome == Delivered ==> g == h.(delivered := h.delivered + {s.flights[step.i].entry.key}))
      && (step.Complete? && step.outcome.Rejected? ==> Charged(s, h, g, s.flights[step.i].entry.key))
  {
    hide Leased, Deleted, Failed, Without, NewFlights, Claimable, Charged, CountFailure, Drop;
    match step
    case Complete(i, outcome) => if outcome.Rejected? { Charges(s, s.flights[i].entry.key); }
    case _ =>
  }

  /** ... and of draining an entry. */
  lemma DrainHistory(s: State, i: nat, current: string, bindOk: bool, read: Read, hasCommand: bool)
    requires Enabled(s, Drain(i, current, bindOk, read, hasCommand))
    ensures var h, g, e := s.past, Next(s, Drain(i, current, bindOk, read, hasCommand)).past, s.flights[i].entry;
      var accepted := current != "" && (e.binding == current || (e.binding == "" && bindOk));
      && (accepted && read == Found && hasCommand ==>
            && g.queued == h.queued && g.delivered == h.delivered && g.failures == h.failures
            && g.used == h.used[e.key := (if e.key in h.used then h.used[e.key] else {}) + {current}])
      && (accepted && read.ReadError? ==> Charged(s, h, g, e.key))
      && (!accepted || (read == Found && !hasCommand) || read == Gone ==> g == h)
  {
    hide Drained;
    Charges(s, s.flights[i].entry.key);
  }

  ghost predicate StartedOver(h: History, g: History, keys: set<Key>) {
    && g.queued == h.queued + keys && g.delivered == h.delivered
    && g.failures.Keys == h.failures.Keys + keys && g.used.Keys == h.used.Keys + keys
    && (forall k <- g.failures :: g.failures[k] == if k in keys then 0 else h.failures[k])
    && (forall k <- g.used :: g.used[k] == if k in keys then {} else h.used[k])
  }

  ghost predicate Charged(s: State, h: History, g: History, k: Key) {
    if k in s.db.rows && k in h.failures then g == h.(failures := h.failures[k := h.failures[k] + 1]) else g == h
  }

  lemma StartsOver(h: History, keys: set<Key>)
    ensures StartedOver(h, Reset(h, keys), keys)
  {
  }

  lemma Charges(s: State, k: Key)
    ensures Charged(s, s.past, CountFailure(s.past, s.db.rows, k), k)
  {
  }
}
