/** Which QSO lines a party submission holds: the Cabrillo exporter's expansion of
    contacts into lines, proved to show the sponsor exactly the credits the scorer counted. */
module PartyCabrillo {
  import opened Text
  import opened PartyRules
  import opened PartyCredits
  import opened PartyScore

  /** One line: `scored` is the QSO: label, otherwise X-QSO:. The columns come from `credit`
      with the two exchanges as printed. */
  datatype Line = Line(scored: bool, credit: Qso, sent: string, received: string)

  function LineOf(c: Qso): Line { Line(!c.unscored, c, TrimPrefix(c.stxString, "DX:"), TrimPrefix(c.srxString, "DX:")) }

  ghost function Lines(credits: seq<Qso>): (r: seq<Line>)
    ensures |r| == |credits| && forall i {:trigger r[i]} :: 0 <= i < |credits| ==> r[i] == LineOf(credits[i])
  {
    seq(|credits|, i requires 0 <= i < |credits| => LineOf(credits[i]))
  }

  /** What rendering a line reads besides the credit: whether the frequency makes a column, and the profile's call. */
  datatype Sheet = Sheet(frequency: Qso -> bool, callsign: string)

  const COLUMN := 13

  /** The columns of a line can be rendered. */
  predicate Renders(p: Sheet, l: Line) {
    var c := l.credit;
    && p.frequency(c)
    && |if c.station == "" then p.callsign else c.station| <= COLUMN && |c.call| <= COLUMN
    && |CabrilloExchange(c.stx, l.sent)| <= COLUMN && |CabrilloExchange(c.srx, l.received)| <= COLUMN
  }

  ghost predicate AllRender(p: Sheet, lines: seq<Line>) { forall l <- lines :: Renders(p, l) }

  // ---------- What may be submitted ----------

  predicate RstReport(s: string) { |s| == 3 && '1' <= s[0] <= '5' && '1' <= s[1] <= '9' && '1' <= s[2] <= '9' }

  predicate BandAllowed(e: Event, band: string) { exists b <- e.bands :: EqualFold(TrimSpace(b), band) }

  /** The checks made on each contact before it is written. */
  ghost predicate Submittable(w: World, e: Event, q: Qso) {
    && (e.bands == [] || BandAllowed(e, q.band))
    && Credits(w, e, q).Ok?
    && InPeriod(e, q.time)
    && (q.mode == "" || EqualFold(q.mode, "CW"))
    && (e.omitRst || (RstReport(q.rstSent) && RstReport(q.rstRcvd)))
  }

  method Submits(w: World, e: Event, q: Qso) returns (ok: bool)
    ensures ok == Submittable(w, e, q)
  {
    if e.bands != [] && !BandAllowed(e, q.band) { return false; }
    var credits := ExpandCredits(w, e, q);
    if credits.Err? { return false; }
    if !InPeriod(e, q.time) { return false; }
    if q.mode != "" && !EqualFold(q.mode, "CW") { return false; }
    return e.omitRst || (RstReport(q.rstSent) && RstReport(q.rstRcvd));
  }

  // ---------- One operation per submission ----------

  /** Contacts of one operation: all sent from counties, or all from one place outside. */
  ghost predicate OneOperation(w: World, e: Event, log: seq<Qso>) {
    && (forall q <- log :: Submittable(w, e, q))
    && ((forall q <- log :: Sent(w, e, q).counties != [])
        || (forall p <- log, q <- log :: Sent(w, e, p).counties == [] && Sent(w, e, p).area == Sent(w, e, q).area))
  }

  lemma SentArea(w: World, e: Event, q: Qso)
    requires ValidEvent(e) && Credits(w, e, q).Ok? && Sent(w, e, q).counties == []
    ensures Sent(w, e, q).area != ""
  {
    hide Exchange, Product, DxEntity;
    ExchangeParts(w, e, q.stx, q.stxString);
    if !ReadsAsRegion(e, Sent(w, e, q).location) { OutsideIsNoCounty(w, e, Sent(w, e, q).location); }
  }

  /** What the header loop knows after part of the log. */
  ghost predicate Headed(w: World, e: Event, log: seq<Qso>, location: string, home: bool, away: bool) {
    && (home <==> exists q <- log :: Sent(w, e, q).counties != [])
    && (away <==> exists q <- log :: Sent(w, e, q).counties == [])
    && (home && !away ==> location == e.rules.state)
    && (!home ==> (location != "" <==> away))
    && (!home ==> forall q <- log :: Sent(w, e, q).area == location)
  }

  /** The one location of a submission. */
  ghost function LocationOf(w: World, e: Event, log: seq<Qso>): string
    requires log != []
  {
    if Sent(w, e, log[0]).counties != [] then e.rules.state else Sent(w, e, log[0]).area
  }

  lemma HeadedStep(w: World, e: Event, front: seq<Qso>, q: Qso, location: string, home: bool, away: bool)
    requires Headed(w, e, front, location, home, away)
    ensures Sent(w, e, q).counties != [] ==> Headed(w, e, front + [q], e.rules.state, true, away)
    ensures var area := Sent(w, e, q).area;
      Sent(w, e, q).counties == [] && (location == "" || location == area) && area != "" ==> Headed(w, e, front + [q], area, home, true)
  {
    hide Sent;
    assert forall p :: p in front + [q] <==> p in front || p == q;
    if front != [] { assert front[0] in front; }
  }

  lemma HeadedEnd(w: World, e: Event, log: seq<Qso>, location: string, home: bool, away: bool)
    requires Headed(w, e, log, location, home, away) && forall q <- log :: Submittable(w, e, q)
    ensures OneOperation(w, e, log) <==> !(home && away)
    ensures !(home && away) && log != [] ==> location == LocationOf(w, e, log)
  {
    hide Sent, Submittable;
    if log != [] { assert log[0] in log; }
  }

  /** The header loop: the one location of the submission, none when it mixes operations. */
  method SubmissionLocation(w: World, e: Event, log: seq<Qso>) returns (r: Option<string>)
    requires ValidEvent(e)
    ensures r.Some? <==> OneOperation(w, e, log)
    ensures r.Some? && log != [] ==> r.value == TrimPrefix(LocationOf(w, e, log), "DX:")
  {
    hide Submittable, Sent, ValidEvent, Headed, OneOperation, LocationOf;
    var location, home, away := "", false, false;
    NothingHeaded(w, e);
    for i := 0 to |log|
      invariant forall q <- log[..i] :: Submittable(w, e, q)
      invariant Headed(w, e, log[..i], location, home, away)
    {
      var q := log[i];
      assert log[..i + 1] == log[..i] + [q];
      var ok := Submits(w, e, q);
      if !ok {
        RefusedOperation(w, e, log, q);
        return None;
      }
      SentValue(w, e, q);
      var exchange := ParseExchange(w, e, q.stx, q.stxString);
      var sent := if exchange.Ok? then exchange.value else NO_EXCHANGE;
      HeadedStep(w, e, log[..i], q, location, home, away);
      if sent.counties != [] {
        home, location := true, e.rules.state;
      } else {
        CreditsParse(w, e, q);
        SentArea(w, e, q);
        if location != "" && location != sent.area {
          Mixed(w, e, log, i, location, home, away);
          return None;
        }
        away, location := true, sent.area;
      }
    }
    assert log[..|log|] == log;
    HeadedEnd(w, e, log, location, home, away);
    if home && away { return None; }
    r := Some(TrimPrefix(location, "DX:"));
  }

  lemma NothingHeaded(w: World, e: Event)
    ensures Headed(w, e, [], "", false, false)
  {
  }

  lemma RefusedOperation(w: World, e: Event, log: seq<Qso>, q: Qso)
    requires q in log && !Submittable(w, e, q)
    ensures !OneOperation(w, e, log)
  {
  }

  lemma SentValue(w: World, e: Event, q: Qso)
    ensures Sent(w, e, q) == match Exchange(w, e, q.stx, q.stxString) case Ok(x) => x case Err(_) => NO_EXCHANGE
  {
    hide Exchange;
  }

  lemma CreditsParse(w: World, e: Event, q: Qso)
    requires Submittable(w, e, q)
    ensures Credits(w, e, q).Ok?
  {
    hide Credits;
  }

  lemma Mixed(w: World, e: Event, log: seq<Qso>, i: nat, location: string, home: bool, away: bool)
    requires i < |log| && Headed(w, e, log[..i], location, home, away)
    requires location != "" && Sent(w, e, log[i]).counties == [] && location != Sent(w, e, log[i]).area
    ensures !OneOperation(w, e, log)
  {
    hide Sent, Submittable;
    if home {
      var q :| q in log[..i] && Sent(w, e, q).counties != [];
      assert q in log && log[i] in log;
    } else {
      var q :| q in log[..i];
      assert q in log && log[i] in log;
    }
  }

  // ---------- Lines ----------

  /** The lines of one contact; a contact without credits keeps one X-QSO line. None when it may not be
      submitted or a line of it cannot be rendered. */
  ghost function ContactLines(w: World, e: Event, p: Sheet, q: Qso): Option<seq<Line>> {
    if !Submittable(w, e, q) then None
    else
      var credits := Credits(w, e, q).value;
      var lines := if credits == [] then [LineOf(q.(unscored := true))] else Lines(credits);
      if AllRender(p, lines) then Some(lines) else None
  }

  /** The lines of the whole log; one refused contact stops the export. */
  ghost function LogLines(w: World, e: Event, p: Sheet, log: seq<Qso>): Option<seq<Line>> {
    if log == [] then Some([])
    else
      match (LogLines(w, e, p, log[..|log| - 1]), ContactLines(w, e, p, log[|log| - 1]))
      case (Some(before), Some(own)) => Some(before + own)
      case _ => None
  }

  method WriteCredits(p: Sheet, credits: seq<Qso>) returns (out: seq<Line>, ok: bool)
    ensures ok <==> AllRender(p, Lines(credits))
    ensures ok ==> out == Lines(credits)
  {
    hide Renders;
    out := [];
    for j := 0 to |credits|
      invariant out == Lines(credits)[..j] && AllRender(p, out)
    {
      var line := LineOf(credits[j]);
      assert line == Lines(credits)[j] && line in Lines(credits);
      if !Renders(p, line) { return out, false; }
      out := out + [line];
    }
    assert out == Lines(credits);
    ok := true;
  }

  /** The loop of exportCabrillo for a party: every credit is a line of its own. */
  method ExportLines(w: World, e: Event, p: Sheet, log: seq<Qso>) returns (lines: Option<seq<Line>>, count: nat)
    ensures lines == LogLines(w, e, p, log)
    ensures lines.Some? ==> count == |log|
  {
    hide Credits, ContactLines, Lines, LineOf, Submittable, AllRender;
    var out: seq<Line> := [];
    count := 0;
    for i := 0 to |log|
      invariant LogLines(w, e, p, log[..i]) == Some(out) && count == i
    {
      assert log[..i + 1][..i] == log[..i];
      RefusedStops(w, e, p, log, i);
      var ok := Submits(w, e, log[i]);
      if !ok {
        RefusedContact(w, e, p, log[i]);
        return None, count;
      }
      CreditsParse(w, e, log[i]);
      var expanded := ExpandCredits(w, e, log[i]);
      OneLine(w, e, p, log[i]);
      var credits := expanded.value;
      if |credits| == 0 { credits := [log[i].(unscored := true)]; }
      var own, rendered := WriteCredits(p, credits);
      if !rendered { return None, count; }
      out := out + own;
      count := count + 1;
    }
    assert log[..|log|] == log;
    lines := Some(out);
  }

  lemma RefusedContact(w: World, e: Event, p: Sheet, q: Qso)
    requires !Submittable(w, e, q)
    ensures ContactLines(w, e, p, q) == None
  {
    hide Submittable;
  }

  lemma OneLine(w: World, e: Event, p: Sheet, q: Qso)
    requires Submittable(w, e, q)
    ensures var credits := Credits(w, e, q).value;
      var lines := Lines(if credits == [] then [q.(unscored := true)] else credits);
      ContactLines(w, e, p, q) == if AllRender(p, lines) then Some(lines) else None
  {
    hide Credits, AllRender;
    var x := q.(unscored := true);
    assert Lines([x]) == [LineOf(x)];
  }

  lemma {:induction false} RefusedStops(w: World, e: Event, p: Sheet, log: seq<Qso>, i: nat)
    requires i < |log|
    ensures ContactLines(w, e, p, log[i]) == None ==> LogLines(w, e, p, log) == None
  {
    hide ContactLines;
    if i < |log| - 1 { RefusedStops(w, e, p, log[..|log| - 1], i); }
  }

  // ---------- Agreement with the scorer ----------

  /** The credits behind the QSO: lines, in order. */
  ghost function ScoredCredits(lines: seq<Line>): seq<Qso> {
    if lines == [] then []
    else
      var n := |lines| - 1;
      ScoredCredits(lines[..n]) + (if lines[n].scored then [lines[n].credit] else [])
  }

  lemma {:induction false} ScoredConcat(a: seq<Line>, b: seq<Line>)
    ensures ScoredCredits(a + b) == ScoredCredits(a) + ScoredCredits(b)
  {
    if b == [] {
      assert a + b == a;
    } else {
      var n := |b| - 1;
      ScoredConcat(a, b[..n]);
      assert (a + b)[..|a + b| - 1] == a + b[..n];
    }
  }

  lemma {:induction false} ScoredOfCredits(credits: seq<Qso>, unscored: bool)
    requires forall c :: c in credits ==> c.unscored == unscored
    ensures ScoredCredits(Lines(credits)) == if unscored then [] else credits
  {
    if credits != [] {
      var n := |credits| - 1;
      ScoredOfCredits(credits[..n], unscored);
      assert Lines(credits)[..n] == Lines(credits[..n]);
      assert credits[n] in credits;
    }
  }

  /** Credits carry their contact's /X flag. */
  lemma CreditsKeepFlag(w: World, e: Event, q: Qso)
    requires Credits(w, e, q).Ok?
    ensures forall c :: c in Credits(w, e, q).value ==> c.unscored == q.unscored
  {
    forall c | c in Credits(w, e, q).value ensures c.unscored == q.unscored {
      CreditFields(w, e, q, c);
    }
  }

  lemma ContactScored(w: World, e: Event, p: Sheet, q: Qso)
    requires ContactLines(w, e, p, q).Some?
    ensures ScoredCredits(ContactLines(w, e, p, q).value) == ContactCredits(w, e, q)
  {
    hide Credits, InPeriod, Submittable, LineOf, Lines, ScoredCredits, ContactLines, AllRender;
    if !Submittable(w, e, q) { RefusedContact(w, e, p, q); }
    CreditsParse(w, e, q);
    CreditsKeepFlag(w, e, q);
    OneLine(w, e, p, q);
    SubmittedInPeriod(w, e, q);
    var credits := Credits(w, e, q).value;
    var shown := if credits == [] then [q.(unscored := true)] else credits;
    ScoredOfCredits(shown, if credits == [] then true else q.unscored);
  }

  lemma SubmittedInPeriod(w: World, e: Event, q: Qso)
    requires Submittable(w, e, q)
    ensures InPeriod(e, q.time)
  {
    hide Credits, InPeriod;
  }

  /** The QSO: lines of a submission are exactly the credits the scorer tallied, in order
      and one line each. */
  lemma {:induction false} LinesAreCredits(w: World, e: Event, p: Sheet, log: seq<Qso>)
    requires LogLines(w, e, p, log).Some?
    ensures ScoredCredits(LogLines(w, e, p, log).value) == LogCredits(w, e, log)
  {
    hide ContactLines, ContactCredits, ScoredCredits;
    if log == [] {
      assert ScoredCredits([]) == [] by { NoLines(); }
    } else {
      var n := |log| - 1;
      LinesAreCredits(w, e, p, log[..n]);
      ContactScored(w, e, p, log[n]);
      ScoredConcat(LogLines(w, e, p, log[..n]).value, ContactLines(w, e, p, log[n]).value);
    }
  }

  lemma NoLines()
    ensures ScoredCredits([]) == []
  {
  }

  /** Every contact shows up in a line of its own. */
  lemma {:induction false} EveryContactHasALine(w: World, e: Event, p: Sheet, log: seq<Qso>)
    requires LogLines(w, e, p, log).Some?
    ensures |LogLines(w, e, p, log).value| >= |log|
  {
    hide Submittable, ContactLines, AllRender;
    if log != [] {
      EveryContactHasALine(w, e, p, log[..|log| - 1]);
      if Submittable(w, e, log[|log| - 1]) { OneLine(w, e, p, log[|log| - 1]); } else { RefusedContact(w, e, p, log[|log| - 1]); }
    }
  }
}
