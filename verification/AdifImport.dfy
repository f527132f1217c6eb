/** The batch importer: records accepted, batched and inserted in transactions that
    skip contacts already on file. */
module AdifImport {
  import opened Text
  import opened Clock
  import opened AdiReader
  import opened Adif
  import opened AdifQso
  import opened AdifRoundTrip

  /** `valid` stands for the database-boundary check, `enrich` for the country lookup of an inserted contact. */
  datatype World = World(adif: Env, valid: Qso -> bool, enrich: Qso -> (string, string, string, string))

  const BATCH_SIZE: nat := 1000
  const MAX_BATCH_BYTES: nat := 0x100_0000

  // ---------- The table ----------

  /** What makes two contacts the same for an import. */
  datatype Key = Key(call: string, band: string, stamp: string, profile: int)

  function KeyOf(q: Qso): Key { Key(q.call, q.band, Stamp(q.time), q.profile) }

  predicate OnFile(rows: seq<Qso>, k: Key) { exists r :: r in rows && KeyOf(r) == k }

  /** The row stored for a contact: country, entity and zones as looked up. */
  function Stored(w: World, q: Qso): (r: Qso)
    ensures KeyOf(r) == KeyOf(q)
  {
    var (country, dxcc, cqz, ituz) := w.enrich(q);
    q.(country := country, dxccNumber := dxcc, cqZone := cqz, ituZone := ituz)
  }

  function InsertOne(w: World, rows: seq<Qso>, q: Qso): seq<Qso> {
    if OnFile(rows, KeyOf(q)) then rows else rows + [Stored(w, q)]
  }

  /** One-by-one insertion of the contacts not on file. */
  function InsertAll(w: World, rows: seq<Qso>, qsos: seq<Qso>): seq<Qso> {
    if qsos == [] then rows else InsertOne(w, InsertAll(w, rows, qsos[..|qsos| - 1]), qsos[|qsos| - 1])
  }

  lemma {:induction false} InsertConcat(w: World, rows: seq<Qso>, a: seq<Qso>, b: seq<Qso>)
    ensures InsertAll(w, rows, a + b) == InsertAll(w, InsertAll(w, rows, a), b)
  {
    hide InsertOne;
    if b == [] {
      assert a + b == a;
    } else {
      InsertConcat(w, rows, a, b[..|b| - 1]);
      assert (a + b)[..|a + b| - 1] == a + b[..|b| - 1];
    }
  }

  lemma OnFileLater(rows: seq<Qso>, later: seq<Qso>, k: Key)
    requires rows <= later && OnFile(rows, k)
    ensures OnFile(later, k)
  {
    hide KeyOf;
    var r :| r in rows && KeyOf(r) == k;
    assert r in later;
  }

  lemma {:induction false} InsertedOnFile(w: World, rows: seq<Qso>, qsos: seq<Qso>, q: Qso)
    requires q in qsos
    ensures OnFile(InsertAll(w, rows, qsos), KeyOf(q))
  {
    hide KeyOf, Stored;
    var n := |qsos| - 1;
    var before := InsertAll(w, rows, qsos[..n]);
    if q == qsos[n] {
      assert Stored(w, q) in before + [Stored(w, q)];
    } else {
      InsertedOnFile(w, rows, qsos[..n], q);
      assert InsertAll(w, rows, qsos) == InsertOne(w, before, qsos[n]);
      OnFileLater(before, InsertAll(w, rows, qsos), KeyOf(q));
    }
  }

  lemma {:induction false} AllOnFile(w: World, rows: seq<Qso>, qsos: seq<Qso>)
    requires forall q :: q in qsos ==> OnFile(rows, KeyOf(q))
    ensures InsertAll(w, rows, qsos) == rows
  {
    hide OnFile, KeyOf, Stored;
    if qsos != [] {
      AllOnFile(w, rows, qsos[..|qsos| - 1]);
      assert qsos[|qsos| - 1] in qsos;
    }
  }

  /** Importing again what is already on file inserts nothing. */
  lemma ReimportInsertsNothing(w: World, rows: seq<Qso>, qsos: seq<Qso>)
    ensures InsertAll(w, InsertAll(w, rows, qsos), qsos) == InsertAll(w, rows, qsos)
  {
    hide OnFile, KeyOf, InsertAll;
    forall q | q in qsos ensures OnFile(InsertAll(w, rows, qsos), KeyOf(q)) { InsertedOnFile(w, rows, qsos, q); }
    AllOnFile(w, InsertAll(w, rows, qsos), qsos);
  }

  /** A run that stopped after some contacts and a complete run after it leave the
      table a single complete run would. */
  lemma RerunCompletes(w: World, rows: seq<Qso>, qsos: seq<Qso>, k: nat)
    requires k <= |qsos|
    ensures InsertAll(w, InsertAll(w, rows, qsos[..k]), qsos) == InsertAll(w, rows, qsos)
  {
    hide InsertAll;
    var a, b := qsos[..k], qsos[k..];
    assert qsos == a + b;
    var once := InsertAll(w, rows, a);
    InsertConcat(w, once, a, b);
    ReimportInsertsNothing(w, rows, a);
    InsertConcat(w, rows, a, b);
  }

  // ---------- Records ----------

  /** The contact a record gives, if it passes both checks. */
  function AcceptedOne(w: World, r: Record, profile: int): seq<Qso> {
    match QsoFromAdi(w.adif, r, profile)
    case Some(q) => if w.valid(q) then [q] else []
    case None => []
  }

  function Accepted(w: World, records: seq<Record>, profile: int): seq<Qso> {
    if records == [] then [] else Accepted(w, records[..|records| - 1], profile) + AcceptedOne(w, records[|records| - 1], profile)
  }

  lemma AcceptedMore(w: World, records: seq<Record>, r: Record, profile: int)
    ensures Accepted(w, records + [r], profile) == Accepted(w, records, profile) + AcceptedOne(w, r, profile)
  {
    assert (records + [r])[..|records|] == records;
  }

  function ApproxBytes(q: Qso): nat {
    |q.call| + |q.band| + |q.mode| + |q.rstSent| + |q.rstRcvd| + |q.frequency| + |q.name| + |q.qth| + |q.grid| + |q.state|
    + |q.county| + |q.email| + |q.country| + |q.cqZone| + |q.ituZone| + |q.dxccNumber| + |q.comment| + |q.potaRef| + |q.parkName|
    + |q.contestId| + |q.iotaRef| + |q.islandName| + |q.myIotaRef| + |q.stx| + |q.stxString| + |q.srx| + |q.srxString|
    + |q.exchange| + |q.myGrid| + |q.stationCallsign| + |q.operatorName| + |q.myRig| + |q.myAntenna| + |q.txPower|
  }

  function BatchBytes(batch: seq<Qso>): nat {
    if batch == [] then 0 else BatchBytes(batch[..|batch| - 1]) + ApproxBytes(batch[|batch| - 1])
  }

  lemma NoBytes()
    ensures BatchBytes([]) == 0
  {
  }

  /** The bytes of the largest contact, 0 when there is none. */
  function Largest(qsos: seq<Qso>): nat {
    if qsos == [] then 0
    else
      var before, last := Largest(qsos[..|qsos| - 1]), ApproxBytes(qsos[|qsos| - 1]);
      if last > before then last else before
  }

  lemma LargestMore(qsos: seq<Qso>, q: Qso)
    ensures Largest(qsos + [q]) == if ApproxBytes(q) > Largest(qsos) then ApproxBytes(q) else Largest(qsos)
  {
    hide ApproxBytes;
    assert (qsos + [q])[..|qsos|] == qsos;
  }

  lemma {:induction false} LargestPrefix(a: seq<Qso>, b: seq<Qso>)
    requires a <= b
    ensures Largest(a) <= Largest(b)
    decreases |b|
  {
    hide ApproxBytes;
    if a == b { return; }
    LargestPrefix(a, b[..|b| - 1]);
  }

  lemma BytesMore(batch: seq<Qso>, q: Qso)
    ensures BatchBytes(batch + [q]) == BatchBytes(batch) + ApproxBytes(q)
  {
    hide ApproxBytes;
    assert (batch + [q])[..|batch|] == batch;
  }

  // ---------- The importer ----------

  /** Some first part of the accepted contacts is on file. */
  ghost predicate Committed(w: World, start: seq<Qso>, rows: seq<Qso>, taken: seq<Qso>) {
    exists k :: 0 <= k <= |taken| && rows == InsertAll(w, start, taken[..k])
  }

  /** ... and the rest of them is the pending batch. */
  ghost predicate Held(w: World, start: seq<Qso>, rows: seq<Qso>, batch: seq<Qso>, taken: seq<Qso>) {
    exists k :: 0 <= k <= |taken| && rows == InsertAll(w, start, taken[..k]) && batch == taken[k..]
  }

  lemma HeldMore(w: World, start: seq<Qso>, rows: seq<Qso>, batch: seq<Qso>, taken: seq<Qso>, q: Qso)
    requires Held(w, start, rows, batch, taken)
    ensures Held(w, start, rows, batch + [q], taken + [q])
  {
    hide InsertAll;
    var k :| 0 <= k <= |taken| && rows == InsertAll(w, start, taken[..k]) && batch == taken[k..];
    assert (taken + [q])[..k] == taken[..k] && (taken + [q])[k..] == batch + [q];
  }

  /** Once a first part of the batch is inserted, more of the accepted contacts are on file. */
  lemma HeldFlushed(w: World, start: seq<Qso>, rows: seq<Qso>, batch: seq<Qso>, taken: seq<Qso>, done: nat)
    requires Held(w, start, rows, batch, taken) && done <= |batch|
    ensures Committed(w, start, InsertAll(w, rows, batch[..done]), taken)
    ensures done == |batch| ==> Held(w, start, InsertAll(w, rows, batch[..done]), [], taken)
  {
    hide InsertAll;
    var k :| 0 <= k <= |taken| && rows == InsertAll(w, start, taken[..k]) && batch == taken[k..];
    InsertConcat(w, start, taken[..k], batch[..done]);
    assert taken[..k] + batch[..done] == taken[..k + done];
    assert done == |batch| ==> taken[k + done..] == [];
  }

  lemma HeldAll(w: World, start: seq<Qso>, rows: seq<Qso>, taken: seq<Qso>)
    requires Held(w, start, rows, [], taken)
    ensures rows == InsertAll(w, start, taken) && Committed(w, start, rows, taken)
  {
    hide InsertAll;
    var k :| 0 <= k <= |taken| && rows == InsertAll(w, start, taken[..k]) && taken[k..] == [];
    assert taken[..k] == taken && taken[..|taken|] == taken;
  }

  /** What goes wrong in the database: whether a flush's transaction fails, and whether
      the optimisation after it does. */
  datatype Faults = Faults(chunk: nat -> bool, optimize: nat -> bool)

  class Importer {
    const w: World
    const profile: int
    const faults: Faults
    var rows: seq<Qso>
    var batch: seq<Qso>
    var batchBytes: nat
    var imported: nat
    var skipped: nat
    var flushes: nat
    ghost const start: seq<Qso>
    ghost var seen: seq<Record>
    /** The most bytes the pending batch ever held. */
    ghost var peak: nat

    ghost function Taken(): seq<Qso>
      reads this
    {
      Accepted(w, seen, profile)
    }

    /** Between records: the pending batch is small and nothing accepted is lost. */
    ghost predicate Valid()
      reads this
    {
      && |batch| < BATCH_SIZE && batchBytes == BatchBytes(batch) < MAX_BATCH_BYTES && batchBytes <= peak
      && (forall q :: q in batch ==> w.valid(q))
      && Pending() && PeakBounded()
    }

    ghost predicate PeakBounded()
      reads this
    {
      peak < MAX_BATCH_BYTES + Largest(Taken())
    }

    ghost predicate Pending()
      reads this
    {
      && Held(w, start, rows, batch, Taken())
      && imported + |start| == |rows|
      && imported + skipped + |batch| == |seen|
    }

    /** After a failed flush: some first part of what was accepted is on file. */
    ghost predicate Stopped()
      reads this
    {
      && Committed(w, start, rows, Taken())
      && imported + |start| == |rows|
    }

    constructor (w: World, profile: int, faults: Faults, table: seq<Qso>)
      ensures Valid() && rows == table && start == table && seen == []
      ensures this.w == w && this.profile == profile && this.faults == faults && flushes == 0
    {
      this.w, this.profile, this.faults := w, profile, faults;
      rows, batch, batchBytes, imported, skipped, flushes := table, [], 0, 0, 0, 0;
      start, seen, peak := table, [], 0;
      new;
      assert Taken() == [] && rows == InsertAll(w, start, Taken()[..0]) && batch == Taken()[0..];
    }

    method AllValid(qsos: seq<Qso>) returns (ok: bool)
      ensures ok <==> forall q :: q in qsos ==> w.valid(q)
    {
      for i := 0 to |qsos|
        invariant forall q :: q in qsos[..i] ==> w.valid(q)
      {
        assert qsos[..i + 1] == qsos[..i] + [qsos[i]];
        if !w.valid(qsos[i]) { return false; }
      }
      assert qsos[..|qsos|] == qsos;
      return true;
    }

    /** insertQSOChunk: all of the chunk in one transaction, or nothing. */
    method InsertChunk(qsos: seq<Qso>, fails: bool) returns (inserted: nat, ok: bool)
      modifies `rows
      ensures ok <==> !fails && forall q :: q in qsos ==> w.valid(q)
      ensures rows == if ok then InsertAll(w, old(rows), qsos) else old(rows)
      ensures inserted + |old(rows)| == |rows| && inserted <= |qsos|
    {
      hide OnFile, Stored, InsertAll;
      var checked := AllValid(qsos);
      if !checked || fails { return 0, false; }
      var work := rows;
      NothingInserted(w, rows, qsos[..0]);
      inserted := 0;
      for i := 0 to |qsos|
        invariant rows == old(rows) && work == InsertAll(w, rows, qsos[..i])
        invariant inserted + |rows| == |work| && inserted <= i
      {
        InsertNext(w, rows, qsos, i);
        if !OnFile(work, KeyOf(qsos[i])) {
          work := work + [Stored(w, qsos[i])];
          inserted := inserted + 1;
        }
      }
      assert qsos[..|qsos|] == qsos;
      rows := work;
      ok := true;
    }

    /** insertQSOBatch: chunk after chunk, each its own transaction; `fails` tells which chunks fail. */
    method InsertBatch(qsos: seq<Qso>, fails: nat -> bool, optimizeFails: bool) returns (inserted: nat, ok: bool, ghost committed: nat)
      requires forall q :: q in qsos ==> w.valid(q)
      modifies `rows
      ensures committed <= |qsos| && rows == InsertAll(w, old(rows), qsos[..committed])
      ensures inserted + |old(rows)| == |rows| && inserted <= |qsos|
      ensures ok ==> committed == |qsos|
      ensures 0 < |qsos| <= BATCH_SIZE ==> ok == (!fails(0) && !optimizeFails)
    {
      hide InsertAll;
      inserted, committed := 0, 0;
      var first := 0;
      NothingInserted(w, rows, qsos[..0]);
      while first < |qsos|
        invariant 0 <= first <= |qsos| && committed == first
        invariant first == 0 || first == |qsos| || first % BATCH_SIZE == 0
        invariant first > 0 ==> !fails(0)
        invariant rows == InsertAll(w, old(rows), qsos[..first]) && inserted + |old(rows)| == |rows| && inserted <= first
      {
        var end := if first + BATCH_SIZE > |qsos| then |qsos| else first + BATCH_SIZE;
        var n, chunkOk := InsertChunk(qsos[first..end], fails(first / BATCH_SIZE));
        inserted := inserted + n;
        if !chunkOk { return inserted, false, committed; }
        InsertConcat(w, old(rows), qsos[..first], qsos[first..end]);
        assert qsos[..end] == qsos[..first] + qsos[first..end];
        first, committed := end, end;
      }
      ok := !optimizeFails;
    }

    /** Hands the pending batch to the store. */
    method Flush() returns (ok: bool)
      requires (forall q :: q in batch ==> w.valid(q)) && |batch| <= BATCH_SIZE && batchBytes == BatchBytes(batch) && Pending()
      modifies `rows, `batch, `batchBytes, `imported, `skipped, `flushes
      ensures Stopped()
      ensures ok ==> batch == [] && batchBytes == 0 && Pending()
      ensures !faults.chunk(old(flushes)) && !faults.optimize(old(flushes)) ==> ok
      ensures flushes <= old(flushes) + 1
    {
      hide InsertAll, Accepted, Held, Committed;
      HeldFlushed(w, start, rows, batch, Taken(), 0);
      NothingInserted(w, rows, batch[..0]);
      if |batch| == 0 {
        assert batch == [];
        return true;
      }
      var fails, number := faults.chunk, flushes;
      flushes := flushes + 1;
      ghost var done: nat := 0;
      ghost var was := rows;
      var n: nat;
      n, ok, done := InsertBatch(batch, _ => fails(number), faults.optimize(number));
      HeldFlushed(w, start, was, batch, Taken(), done);
      imported := imported + n;
      if ok { skipped := skipped + (|batch| - n); }
      batch, batchBytes := [], 0;
    }

    /** The callback of the parser for one record. */
    method OnRecord(record: Record) returns (ok: bool)
      requires Valid()
      modifies `rows, `batch, `batchBytes, `imported, `skipped, `flushes, `seen, `peak
      ensures seen == old(seen) + [record] && flushes <= old(flushes) + 1
      ensures (if ok then Valid() else Stopped()) && PeakBounded()
      ensures !faults.chunk(old(flushes)) && !faults.optimize(old(flushes)) ==> ok
    {
      hide InsertAll, QsoFromAdi, ApproxBytes, Held, Committed, Largest, Accepted, BatchBytes;
      NoBytes();
      ghost var before := Taken();
      AcceptedMore(w, seen, record, profile);
      seen := seen + [record];
      var q := QsoFromAdi(w.adif, record, profile);
      if q.None? || !w.valid(q.value) {
        skipped := skipped + 1;
        assert Taken() == before;
        return true;
      }
      HeldMore(w, start, rows, batch, before, q.value);
      BytesMore(batch, q.value);
      LargestMore(before, q.value);
      batch := batch + [q.value];
      batchBytes := batchBytes + ApproxBytes(q.value);
      if batchBytes > peak { peak := batchBytes; }
      if |batch| >= BATCH_SIZE || batchBytes >= MAX_BATCH_BYTES {
        ok := Flush();
      } else {
        ok := true;
      }
    }

    /** importADIF. */
    method ImportAdif(text: string) returns (ok: bool)
      requires Valid() && seen == [] && flushes == 0 && rows == start
      modifies this
      ensures var p := Parse(text, NOTHING); var all := Accepted(w, p.records, profile);
        && (ok ==> p.ok && rows == InsertAll(w, start, all) && imported + skipped == |p.records|)
        && Committed(w, start, rows, all)
        && imported + |start| == |rows|
        && peak < MAX_BATCH_BYTES + Largest(all)
        && (p.ok && (forall n :: !faults.chunk(n) && !faults.optimize(n)) ==> ok)
    {
      hide InsertAll, Parse, AcceptedOne, Held, Committed, Largest;
      var reader := new ByteReader(text);
      assert text[0..] == text;
      var records, parsed := ParseAdiRecords(reader);
      for i := 0 to |records|
        invariant Valid() && seen == records[..i] && flushes <= i
      {
        assert records[..i + 1] == records[..i] + [records[i]];
        var recorded := OnRecord(records[i]);
        if !recorded {
          StoppedEarly(records, i + 1);
          return false;
        }
      }
      assert records[..|records|] == records;
      if !parsed {
        HeldFlushed(w, start, rows, batch, Taken(), 0);
        NothingInserted(w, rows, batch[..0]);
        return false;
      }
      ok := Flush();
      if ok { HeldAll(w, start, rows, Taken()); }
    }

    lemma StoppedEarly(records: seq<Record>, n: nat)
      requires n <= |records| && seen == records[..n] && Stopped() && PeakBounded()
      ensures Committed(w, start, rows, Accepted(w, records, profile))
      ensures peak < MAX_BATCH_BYTES + Largest(Accepted(w, records, profile))
    {
      hide InsertAll, Accepted, Committed, Largest;
      AcceptedPrefix(w, records, n, profile);
      LargestPrefix(Taken(), Accepted(w, records, profile));
      CommittedMore(w, start, rows, Taken(), Accepted(w, records, profile));
    }
  }

  /** Runs of one file that stopped, any number of them, then a complete run: the table is that of
      a single complete run. */
  lemma {:induction false} RerunsComplete(w: World, text: string, profile: int, tables: seq<seq<Qso>>)
    requires tables != []
    requires forall i :: 0 < i < |tables| ==> Committed(w, tables[i - 1], tables[i], Accepted(w, Parse(text, NOTHING).records, profile))
    ensures var all := Accepted(w, Parse(text, NOTHING).records, profile);
      InsertAll(w, tables[|tables| - 1], all) == InsertAll(w, tables[0], all)
  {
    hide InsertAll, Parse, Accepted;
    var all, n := Accepted(w, Parse(text, NOTHING).records, profile), |tables| - 1;
    if n > 0 {
      RerunsComplete(w, text, profile, tables[..n]);
      var k :| 0 <= k <= |all| && tables[n] == InsertAll(w, tables[n - 1], all[..k]);
      RerunCompletes(w, tables[n - 1], all, k);
    }
  }

  lemma CommittedMore(w: World, start: seq<Qso>, rows: seq<Qso>, taken: seq<Qso>, all: seq<Qso>)
    requires Committed(w, start, rows, taken) && taken <= all
    ensures Committed(w, start, rows, all)
  {
    hide InsertAll;
    var k :| 0 <= k <= |taken| && rows == InsertAll(w, start, taken[..k]);
    assert all[..k] == taken[..k];
  }

  lemma InsertNext(w: World, rows: seq<Qso>, qsos: seq<Qso>, i: nat)
    requires i < |qsos|
    ensures InsertAll(w, rows, qsos[..i + 1]) == InsertOne(w, InsertAll(w, rows, qsos[..i]), qsos[i])
  {
    hide InsertOne;
    assert qsos[..i + 1][..i] == qsos[..i];
  }

  lemma NothingInserted(w: World, rows: seq<Qso>, none: seq<Qso>)
    requires none == []
    ensures InsertAll(w, rows, none) == rows
  {
  }

  lemma {:induction false} AcceptedPrefix(w: World, records: seq<Record>, n: nat, profile: int)
    requires n <= |records|
    ensures Accepted(w, records[..n], profile) <= Accepted(w, records, profile)
  {
    hide AcceptedOne;
    if n == |records| {
      assert records[..n] == records;
    } else {
      var front := records[..|records| - 1];
      AcceptedPrefix(w, front, n, profile);
      assert front[..n] == records[..n];
    }
  }

  /** Importing a profile's own export changes nothing. */
  lemma ImportOfExport(w: World, rows: seq<Qso>, profile: int)
    requires Loaded(w.adif)
    requires forall i :: 0 <= i < |rows| ==> Normal(rows[i]) && Fits(w.adif, rows[i]) && rows[i].profile == profile
    ensures var p := Parse(FileText(w.adif, rows), NOTHING);
      p.ok && |p.records| == |rows| && InsertAll(w, rows, Accepted(w, p.records, profile)) == rows
  {
    hide Parse, FileText, Normal, Fits, Loaded, QsoFromAdi, KeyOf, InsertAll;
    RoundTrip(w.adif, rows, profile);
    var records := Parse(FileText(w.adif, rows), NOTHING).records;
    AcceptedFrom(w, records, profile, rows);
    var all := Accepted(w, records, profile);
    forall q | q in all ensures OnFile(rows, KeyOf(q)) { assert q in rows; }
    AllOnFile(w, rows, all);
  }

  lemma {:induction false} AcceptedFrom(w: World, records: seq<Record>, profile: int, rows: seq<Qso>)
    requires |records| <= |rows|
    requires forall i :: 0 <= i < |records| ==> QsoFromAdi(w.adif, records[i], profile) == Some(rows[i])
    ensures forall q :: q in Accepted(w, records, profile) ==> q in rows
  {
    hide QsoFromAdi;
    if records != [] {
      var n := |records| - 1;
      AcceptedFrom(w, records[..n], profile, rows);
      assert QsoFromAdi(w.adif, records[n], profile) == Some(rows[n]);
    }
  }
}
