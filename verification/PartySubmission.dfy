/** What a party submission shows, column by column, and when one is written. */
module PartySubmission {
  import opened Text
  import opened PartyRules
  import opened PartyScore
  import opened PartyCabrillo
  import PartyReading

  /** A report of readability 1 to 5, strength and tone 1 to 9. */
  ghost predicate IsReport(s: string) { |s| == 3 && '1' <= s[0] <= '5' && '1' <= s[1] <= '9' && '1' <= s[2] <= '9' }

  /** The contact may be submitted: on a band and in the mode of the event, within a period, with exchanges that read
      and, unless the event leaves them out, reports. */
  ghost predicate MaySubmit(w: World, e: Event, q: Qso) {
    && (e.bands == [] || exists band :: band in e.bands && ToUpper(TrimSpace(band)) == ToUpper(q.band))
    && Exchange(w, e, q.stx, q.stxString).Ok? && Exchange(w, e, q.srx, q.srxString).Ok?
    && (exists p :: p in e.rules.periods && p.start <= q.time && q.time < p.end)
    && (q.mode == "" || ToUpper(q.mode) == "CW")
    && (e.omitRst || (IsReport(q.rstSent) && IsReport(q.rstRcvd)))
  }

  /** The contacts a contact shows: its credits, or itself without score when it has none. */
  ghost predicate Shows(w: World, e: Event, q: Qso, c: Qso) {
    Credits(w, e, q).Ok? && (c in Credits(w, e, q).value || (Credits(w, e, q).value == [] && c == q.(unscored := true)))
  }

  /** The line of a credit: scored unless it is flagged, its exchanges without a leading DX:. */
  ghost predicate LineShows(l: Line, c: Qso) {
    && l.credit == c && (l.scored <==> !c.unscored)
    && l.sent == (if "DX:" <= c.stxString then c.stxString[3..] else c.stxString)
    && l.received == (if "DX:" <= c.srxString then c.srxString[3..] else c.srxString)
  }

  /** The columns of a credit fit: calls and exchanges of at most thirteen characters, and a frequency. */
  ghost predicate ColumnsFit(p: Sheet, c: Qso) {
    && p.frequency(c) && |c.call| <= 13 && (c.station == "" ==> |p.callsign| <= 13) && |c.station| <= 13
    && forall l :: LineShows(l, c) ==>
         && (exists line :: PartyReading.Line(c.stx, l.sent, line) && |line| <= 13)
         && (exists line :: PartyReading.Line(c.srx, l.received, line) && |line| <= 13)
  }

  lemma SubmitMeans(w: World, e: Event, q: Qso)
    ensures Submittable(w, e, q) <==> MaySubmit(w, e, q)
  {
    hide Exchange, ToUpper, TrimSpace, Product, RstReport, IsReport, Creditable;
    ReportMeans(q.rstSent);
    ReportMeans(q.rstRcvd);
    PeriodMeans(e, q.time);
    assert ToUpper("CW") == "CW" by { ToUpperFixed("CW"); }
  }

  lemma ReportMeans(s: string)
    ensures RstReport(s) <==> IsReport(s)
  {
  }

  lemma PeriodMeans(e: Event, time: int)
    ensures InPeriod(e, time) <==> exists p :: p in e.rules.periods && p.start <= time && time < p.end
  {
    if p :| p in e.rules.periods && p.start <= time && time < p.end {
      var i :| 0 <= i < |e.rules.periods| && e.rules.periods[i] == p;
    }
  }

  lemma LineMeans(l: Line, c: Qso)
    ensures l == LineOf(c) <==> LineShows(l, c)
  {
    assert |"DX:"| == 3;
  }

  lemma FitMeans(p: Sheet, c: Qso)
    ensures Renders(p, LineOf(c)) <==> ColumnsFit(p, c)
  {
    forall l ensures l == LineOf(c) <==> LineShows(l, c) { LineMeans(l, c); }
    hide LineShows, TrimSpace, CabrilloExchange;
    var l := LineOf(c);
    PartyReading.LineMeans(c.stx, l.sent);
    PartyReading.LineMeans(c.srx, l.received);
    assert PartyReading.Line(c.stx, l.sent, CabrilloExchange(c.stx, l.sent)) && PartyReading.Line(c.srx, l.received, CabrilloExchange(c.srx, l.received));
    hide LineOf, PartyReading.Line;
  }

  /** A submission is written when every contact may be submitted and everything it shows fits its columns. */
  ghost predicate Passes(w: World, e: Event, p: Sheet, q: Qso) {
    MaySubmit(w, e, q) && forall c :: Shows(w, e, q, c) ==> ColumnsFit(p, c)
  }

  lemma ContactPasses(w: World, e: Event, p: Sheet, q: Qso)
    ensures ContactLines(w, e, p, q).Some? <==> Passes(w, e, p, q)
    ensures ContactLines(w, e, p, q).Some? ==>
              forall l <- ContactLines(w, e, p, q).value :: exists c :: Shows(w, e, q, c) && LineShows(l, c)
  {
    SubmitMeans(w, e, q);
    hide Credits, Submittable, MaySubmit, ColumnsFit, Renders, LineShows, ContactLines, LineOf;
    if Submittable(w, e, q) {
      OneLine(w, e, p, q);
      SubmittedParses(w, e, q);
      var shown := if Credits(w, e, q).value == [] then [q.(unscored := true)] else Credits(w, e, q).value;
      assert forall c :: Shows(w, e, q, c) <==> c in shown;
      LinesPass(p, shown);
      forall l | l in Lines(shown) ensures exists c :: c in shown && LineShows(l, c) {
        var i :| 0 <= i < |shown| && Lines(shown)[i] == l;
        LineMeans(l, shown[i]);
      }
    } else {
      RefusedContact(w, e, p, q);
    }
  }

  lemma SubmittedParses(w: World, e: Event, q: Qso)
    requires Submittable(w, e, q)
    ensures Credits(w, e, q).Ok?
  {
    CreditsParse(w, e, q);
  }

  lemma LinesPass(p: Sheet, shown: seq<Qso>)
    ensures AllRender(p, Lines(shown)) <==> forall c <- shown :: ColumnsFit(p, c)
  {
    hide ColumnsFit, Renders, LineOf;
    if AllRender(p, Lines(shown)) {
      forall c | c in shown ensures ColumnsFit(p, c) {
        var i :| 0 <= i < |shown| && shown[i] == c;
        assert Lines(shown)[i] == LineOf(c) && Lines(shown)[i] in Lines(shown);
        FitMeans(p, c);
      }
    }
    if forall c <- shown :: ColumnsFit(p, c) {
      forall l | l in Lines(shown) ensures Renders(p, l) {
        var i :| 0 <= i < |shown| && Lines(shown)[i] == l;
        assert shown[i] in shown;
        FitMeans(p, shown[i]);
      }
    }
  }

  /** An export finishes exactly when every contact passes, and each of its lines shows a contact of the log or one of
      its credits. */
  lemma {:induction false} ExportShows(w: World, e: Event, p: Sheet, log: seq<Qso>)
    ensures LogLines(w, e, p, log).Some? <==> forall q <- log :: Passes(w, e, p, q)
    ensures LogLines(w, e, p, log).Some? ==>
              forall l <- LogLines(w, e, p, log).value :: exists q, c :: q in log && Shows(w, e, q, c) && LineShows(l, c)
  {
    hide ContactLines, Passes, Shows, LineShows;
    if log != [] {
      var n := |log| - 1;
      var front, last := log[..n], log[n];
      assert log == front + [last];
      ExportShows(w, e, p, front);
      ContactPasses(w, e, p, last);
      assert (forall q <- log :: Passes(w, e, p, q)) <==> (forall q <- front :: Passes(w, e, p, q)) && Passes(w, e, p, last);
      if LogLines(w, e, p, log).Some? {
        forall l | l in LogLines(w, e, p, log).value ensures exists q, c :: q in log && Shows(w, e, q, c) && LineShows(l, c) {
          if l in LogLines(w, e, p, front).value {
            var q, c :| q in front && Shows(w, e, q, c) && LineShows(l, c);
            assert q in log;
          } else {
            var c :| Shows(w, e, last, c) && LineShows(l, c);
            assert last in log;
          }
        }
      }
    }
  }
}
