/** What becomes of a row whose upload failed: over whole runs it waits out its delay,
    and only a retry by the operator takes it earlier. */
module OutboxWaits {
  import opened Text
  import opened Clock
  import opened Outbox
  import opened OutboxProtocol
  import opened OutboxMeaning

  /** A recorded failure of the upload of `k`: it was rejected, or its contact could not be read
      after its credentials were accepted. */
  ghost predicate Fails(s: State, step: Step, k: Key, message: string) {
    match step
    case Complete(i, outcome) => i < |s.flights| && s.flights[i].entry.key == k && outcome == Rejected(message)
    case Drain(i, current, bindOk, read, hasCommand) =>
      && i < |s.flights| && s.flights[i].entry.key == k && read == ReadError(message)
      && current != "" && (s.flights[i].entry.binding == current || (s.flights[i].entry.binding == "" && bindOk))
    case _ => false
  }

  /** No upload of `k` is under way. */
  ghost predicate Grounded(s: State, k: Key) { forall f <- s.flights :: f.entry.key != k }

  /** The row waits: so many attempts, due then, showing that message, no upload under way. */
  ghost predicate Waiting(s: State, k: Key, attempts: nat, due: nat, message: string) {
    && k in s.db.rows && s.db.rows[k].attempts == attempts && s.db.rows[k].nextAt == due && s.db.rows[k].lastError == Some(message)
    && Grounded(s, k)
  }

  /** The delay after so many failures, in seconds: one minute doubled with every failure up to half an hour, then a year. */
  function Delay(attempts: nat): nat
    requires attempts >= 1
  {
    if attempts >= 20 then 365 * 24 * 3600 else 60 * (if Pow2(attempts - 1) < 30 then Pow2(attempts - 1) else 30)
  }

  lemma Ended(s: State, t: State, i: nat)
    requires FlightsApart(s.flights) && i < |s.flights| && t.flights == Drop(s.flights, i)
    ensures Grounded(t, s.flights[i].entry.key)
  {
    OutboxProtocol.DropMembers(s.flights, i);
  }

  lemma DelayIsBackoff(attempts: nat)
    requires attempts >= 1
    ensures BackoffDelay(attempts) == Delay(attempts)
  {
    if attempts < MAX_ATTEMPTS { BackoffClosedForm(attempts); }
  }

  /** A recorded failure adds an attempt and sets the row aside for its delay. */
  lemma FailureSetsAside(s: State, step: Step, k: Key, message: string)
    requires Inv(s) && Enabled(s, step) && Fails(s, step, k, message) && k in s.db.rows
    ensures var n := s.db.rows[k].attempts + 1; Waiting(Next(s, step), k, n, Secs(s.now) + Delay(n), message)
  {
    var t, i := Next(s, step), step.i;
    DelayIsBackoff(s.db.rows[k].attempts + 1);
    assert FlightsApart(s.flights) by { hide FlightsApart; }
    hide Inv, BackoffDelay, Delay, Grounded, Drop, FlightsApart;
    Ended(s, t, i);
  }

  /** Due rows, and no others, may be claimed; rows that had twenty failures are never due. */
  lemma DueWhen(s: State, k: Key)
    requires Inv(s) && k in s.db.rows && s.db.rows[k].nextAt < EndOfTime()
    ensures Claimable(s.db.rows[k], Secs(s.now)) <==> s.db.rows[k].attempts < 20 && s.db.rows[k].nextAt <= Secs(s.now)
  {
    hide FlightsOk, FlightsApart, HistoryOk, RowsLive, Claimable, EndOfTime;
    ClaimableWhen(s.db.rows[k], Secs(s.now));
  }

  /** Only a claim or a retry ends the wait of a row that stays. */
  lemma StepWaits(s: State, step: Step, k: Key, attempts: nat, due: nat, message: string)
    requires Inv(s) && Enabled(s, step) && Waiting(s, k, attempts, due, message) && k in Next(s, step).db.rows
    requires !Rebinds(s, step, k) && (step.Claim? ==> k !in step.keys)
    ensures Waiting(Next(s, step), k, attempts, due, message)
  {
    hide Inv, EnqueueAll, Drained, Claimable;
    assert RowsLive(s.db) && FlightsApart(s.flights) by { hide RowsLive, FlightsApart; InvParts(s); }
    match step
    case Log(p, d, n, b) => EnqueueAllRows(s.db.rows, s.db.nextId, p, d, n, b);
    case Drain(i, c, b, r, h) =>
      DrainedRow(s.db.rows, s.flights[i].entry, c, b, r, Secs(s.now));
      assert s.flights[i] in s.flights;
      assert Grounded(Next(s, step), k) by { DrainGrounded(s, i, c, b, r, h, k); }
    case Complete(i, outcome) => OutboxProtocol.DropMembers(s.flights, i); assert s.flights[i] in s.flights;
    case Crash(i) => OutboxProtocol.DropMembers(s.flights, i);
    case Claim(keys) => ClaimGrounded(s, keys, k);
    case _ =>
  }

  lemma InvParts(s: State)
    requires Inv(s)
    ensures RowsLive(s.db) && FlightsApart(s.flights)
  {
  }

  lemma ClaimGrounded(s: State, keys: seq<Key>, k: Key)
    requires Enabled(s, Claim(keys)) && Grounded(s, k) && k !in keys
    ensures Grounded(Next(s, Claim(keys)), k)
  {
    hide Claimable;
    var created := NewFlights(s.db.rows, keys, s.now);
    forall f | f in created ensures f.entry.key != k {
      var i :| 0 <= i < |created| && created[i] == f;
    }
  }

  lemma DrainGrounded(s: State, i: nat, current: string, bindOk: bool, read: Read, hasCommand: bool, k: Key)
    requires FlightsApart(s.flights) && Enabled(s, Drain(i, current, bindOk, read, hasCommand)) && Grounded(s, k)
    ensures Grounded(Next(s, Drain(i, current, bindOk, read, hasCommand)), k)
  {
    hide Drained, Drop, FlightsApart;
    OutboxProtocol.DropMembers(s.flights, i);
    var t := Next(s, Drain(i, current, bindOk, read, hasCommand));
    assert s.flights[i] in s.flights;
    forall f | f in t.flights ensures f.entry.key != k {
      if t.flights != Drop(s.flights, i) {
        var j :| 0 <= j < |t.flights| && t.flights[j] == f;
        assert s.flights[j] in s.flights;
      }
    }
  }

  lemma NowGrows(states: seq<State>, steps: seq<Step>, m: nat, n: nat)
    requires Run(states, steps) && m <= n < |states|
    ensures states[m].now <= states[n].now
    decreases n
  {
    hide Inv, Enabled, Init;
    if m < n {
      NowGrows(states, steps, m, n - 1);
      assert Enabled(states[n - 1], steps[n - 1]) && states[n] == Next(states[n - 1], steps[n - 1]);
      StepTime(states[n - 1], steps[n - 1]);
    }
  }

  lemma StepTime(s: State, step: Step)
    requires Enabled(s, step)
    ensures Next(s, step).now >= s.now
  {
    hide Drained, Logged, Leased, Deleted, Backfilled, RetriedDest, Reset, CountFailure, NewFlights, Failed, Claimable;
  }

  lemma {:induction false} WaitsOn(states: seq<State>, steps: seq<Step>, m: nat, n: nat, k: Key, attempts: nat, due: nat, message: string)
    requires Run(states, steps) && m <= n < |states| && Waiting(states[m], k, attempts, due, message)
    requires forall i :: m <= i <= n ==> k in states[i].db.rows
    requires forall i :: m <= i < n ==> !Rebinds(states[i], steps[i], k) && (steps[i].Claim? ==> k !in steps[i].keys)
    ensures Waiting(states[n], k, attempts, due, message)
    decreases n
  {
    hide Inv, Enabled, Next, Init, Rebinds, Waiting;
    if m < n {
      WaitsOn(states, steps, m, n - 1, k, attempts, due, message);
      RunKeeps(states, steps, n - 1);
      assert Enabled(states[n - 1], steps[n - 1]) && states[n] == Next(states[n - 1], steps[n - 1]);
      StepWaits(states[n - 1], steps[n - 1], k, attempts, due, message);
    }
  }

  /** After a recorded failure a row keeps its count, its due time and the message while it stays, no retry takes
      it and no claim has; it is due again the delay after the failure, and not at all after twenty. */
  lemma FailureWaits(states: seq<State>, steps: seq<Step>, m: nat, n: nat, k: Key, message: string)
    requires Run(states, steps) && m < n < |states| && Fails(states[m], steps[m], k, message)
    requires forall i :: m <= i <= n ==> k in states[i].db.rows
    requires forall i :: m < i < n ==> !Rebinds(states[i], steps[i], k) && (steps[i].Claim? ==> k !in steps[i].keys)
    ensures var attempts := states[m].db.rows[k].attempts + 1;
      var row, due := states[n].db.rows[k], Secs(states[m].now) + Delay(attempts);
      && row.attempts == attempts && row.lastError == Some(message) && row.nextAt == due
      && (Claimable(row, Secs(states[n].now)) <==> attempts < 20 && due <= Secs(states[n].now))
  {
    RunKeeps(states, steps, m);
    RunKeeps(states, steps, n);
    assert Enabled(states[m], steps[m]) && states[m + 1] == Next(states[m], steps[m]);
    FailureSetsAside(states[m], steps[m], k, message);
    var attempts := states[m].db.rows[k].attempts + 1;
    WaitsOn(states, steps, m + 1, n, k, attempts, Secs(states[m].now) + Delay(attempts), message);
    DueInTime(states[m], attempts);
    hide Inv, Enabled, Next, Init, Rebinds, Delay, Fails, Run;
    DueWhen(states[n], k);
  }

  lemma DueInTime(s: State, attempts: nat)
    requires Inv(s) && attempts >= 1
    ensures Secs(s.now) + Delay(attempts) < EndOfTime()
  {
    hide FlightsOk, FlightsApart, HistoryOk, RowsLive, EndOfTime;
  }

  /** Until its delay is over, no claim takes a failed row before a retry does; after twenty failures none ever does. */
  lemma {:induction false} FailureUnclaimed(states: seq<State>, steps: seq<Step>, m: nat, n: nat, k: Key, message: string)
    requires Run(states, steps) && m < n < |steps| && Fails(states[m], steps[m], k, message)
    requires forall i :: m <= i <= n ==> k in states[i].db.rows
    requires forall i :: m < i < n ==> !Rebinds(states[i], steps[i], k)
    requires var attempts := states[m].db.rows[k].attempts + 1;
      attempts >= 20 || Secs(states[n].now) < Secs(states[m].now) + Delay(attempts)
    ensures steps[n].Claim? ==> k !in steps[n].keys
    decreases n
  {
    forall i | m < i < n ensures steps[i].Claim? ==> k !in steps[i].keys {
      NowGrows(states, steps, i, n);
      SecsGrow(states[i].now, states[n].now);
      FailureUnclaimed(states, steps, m, i, k, message);
    }
    FailureWaits(states, steps, m, n, k, message);
    hide Inv, Next, Init, Rebinds, Delay, Fails, Claimable;
    assert Enabled(states[n], steps[n]);
  }

  lemma SecsGrow(a: nat, b: nat)
    requires a <= b
    ensures Secs(a) <= Secs(b)
  {
  }
}
