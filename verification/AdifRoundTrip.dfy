/** Reading back what was written: every exported file parses to one record per
    contact, and a normalised contact comes back unchanged. */
module AdifRoundTrip {
  import opened Text
  import opened Clock
  import opened Adif
  import opened AdifFields
  import opened AdifQso

  // ---------- Records of an exported file ----------

  /** The record built from the first `n` written fields. */
  function RecordUpTo(x: Env, q: Qso, n: nat): (p: Partial)
    requires n <= WRITTEN
  {
    if n == 0 then NOTHING
    else
      var before, id := RecordUpTo(x, q, n - 1), FieldAt(n - 1);
      if Blank(ValueOf(x, q, id)) then before
      else Partial(before.fields[Spell(id) := Shown(x, q, id)], before.bytes + |Shown(x, q, id)|)
  }

  function RecordOf(x: Env, q: Qso): Record { RecordUpTo(x, q, WRITTEN).fields }

  /** The contact's written values fit in one record. */
  predicate Fits(x: Env, q: Qso) { RecordUpTo(x, q, WRITTEN).bytes <= MAX_RECORD_BYTES }

  lemma {:induction false} BytesGrow(x: Env, q: Qso, n: nat, m: nat)
    requires n <= m <= WRITTEN
    ensures RecordUpTo(x, q, n).bytes <= RecordUpTo(x, q, m).bytes
    decreases m
  {
    hide ValueOf, Spell, FieldAt, Shown;
    if n < m { BytesGrow(x, q, n, m - 1); }
  }

  lemma {:induction false} FewFields(x: Env, q: Qso, n: nat)
    requires n <= WRITTEN
    ensures |RecordUpTo(x, q, n).fields| <= n
  {
    hide ValueOf, Spell, FieldAt, Shown;
    if n > 0 {
      FewFields(x, q, n - 1);
      var before, id := RecordUpTo(x, q, n - 1), FieldAt(n - 1);
      assert before.fields[Spell(id) := Shown(x, q, id)].Keys == before.fields.Keys + {Spell(id)};
    }
  }

  /** Reading the first `n` fields builds the record they make. */
  lemma Associate(a: string, b: string, c: string)
    ensures (a + b) + c == a + (b + c)
  {
  }

  lemma {:induction false} FieldsRead(x: Env, q: Qso, n: nat, rest: string)
    requires Fits(x, q) && n <= WRITTEN
    ensures Parse(FieldsText(x, q, n) + rest, NOTHING) == Parse(rest, RecordUpTo(x, q, n))
  {
    hide ValueOf, Spell, FieldAt, Shown, FieldPart, Parse, Fits;
    if n == 0 {
      assert "" + rest == rest;
    } else {
      var part := FieldPart(x, q, FieldAt(n - 1));
      FieldsRead(x, q, n - 1, part + rest);
      FieldPartReads(x, q, n - 1, rest);
      Associate(FieldsText(x, q, n - 1), part, rest);
    }
  }

  lemma FieldPartReads(x: Env, q: Qso, n: nat, rest: string)
    requires Fits(x, q) && n < WRITTEN
    ensures Parse(FieldPart(x, q, FieldAt(n)) + rest, RecordUpTo(x, q, n)) == Parse(rest, RecordUpTo(x, q, n + 1))
  {
    hide ValueOf, Spell, FieldAt, Shown, FieldText, FieldName, Parse, Blank;
    var id, p := FieldAt(n), RecordUpTo(x, q, n);
    if Blank(ValueOf(x, q, id)) {
      assert "" + rest == rest;
    } else {
      SpellIsName(id);
      BytesGrow(x, q, n + 1, WRITTEN);
      FewFields(x, q, n);
      FieldReads(Spell(id), Shown(x, q, id), rest, p);
    }
  }

  lemma DateWritten(x: Env, q: Qso)
    ensures RecordOf(x, q) != map[]
  {
    assert FieldAt(1) == QsoDate;
    assert !Blank(DateText(q.time)) by { DigitsNotBlank(DateText(q.time)); }
    KeptUpTo(x, q, 1, WRITTEN);
  }

  lemma DigitsNotBlank(s: string)
    requires s != "" && AllDigits(s)
    ensures !Blank(s)
  {
  }

  lemma {:induction false} KeptUpTo(x: Env, q: Qso, n: nat, m: nat)
    requires n < m <= WRITTEN && !Blank(ValueOf(x, q, FieldAt(n)))
    ensures Spell(FieldAt(n)) in RecordUpTo(x, q, m).fields
    decreases m
  {
    hide ValueOf, Spell, FieldAt, Shown;
    if n < m - 1 { KeptUpTo(x, q, n, m - 1); }
  }

  /** One exported record, then the rest of the file. */
  lemma RecordTextReads(x: Env, q: Qso, rest: string)
    requires Fits(x, q)
    ensures Parse(RecordText(x, q) + rest, NOTHING) == Then([RecordOf(x, q)], Parse(rest, NOTHING))
  {
    hide Parse, FieldsText, Fits, RecordUpTo;
    FieldsRead(x, q, WRITTEN, "<EOR>\n" + rest);
    DateWritten(x, q);
    RecordReads(rest, RecordUpTo(x, q, WRITTEN));
    assert RecordText(x, q) + rest == FieldsText(x, q, WRITTEN) + ("<EOR>\n" + rest);
  }

  function RecordsOf(x: Env, qsos: seq<Qso>): seq<Record> {
    if qsos == [] then [] else RecordsOf(x, qsos[..|qsos| - 1]) + [RecordOf(x, qsos[|qsos| - 1])]
  }

  lemma {:induction false} RecordsOfEach(x: Env, qsos: seq<Qso>)
    ensures |RecordsOf(x, qsos)| == |qsos| && forall i :: 0 <= i < |qsos| ==> RecordsOf(x, qsos)[i] == RecordOf(x, qsos[i])
  {
    hide RecordOf;
    if qsos != [] { RecordsOfEach(x, qsos[..|qsos| - 1]); }
  }

  lemma {:induction false} RecordsTextReads(x: Env, qsos: seq<Qso>, rest: string)
    requires forall i :: 0 <= i < |qsos| ==> Fits(x, qsos[i])
    ensures Parse(RecordsText(x, qsos) + rest, NOTHING) == Then(RecordsOf(x, qsos), Parse(rest, NOTHING))
  {
    hide Parse, RecordOf, RecordText, Fits;
    if qsos == [] {
      assert "" + rest == rest;
      assert [] + Parse(rest, NOTHING).records == Parse(rest, NOTHING).records;
    } else {
      var n := |qsos| - 1;
      var record, later := RecordOf(x, qsos[n]), Parse(rest, NOTHING);
      RecordsTextReads(x, qsos[..n], RecordText(x, qsos[n]) + rest);
      RecordTextReads(x, qsos[n], rest);
      assert RecordsText(x, qsos) + rest == RecordsText(x, qsos[..n]) + (RecordText(x, qsos[n]) + rest);
      assert RecordsOf(x, qsos[..n]) + ([record] + later.records) == (RecordsOf(x, qsos[..n]) + [record]) + later.records;
    }
  }

  lemma HeaderReads(rest: string)
    ensures Parse(HeaderText() + rest, NOTHING) == Parse(rest, NOTHING)
  {
    hide Parse, FieldText;
    var program, tail := "CW Logger", "<EOH>\n" + rest;
    var two := FieldText("PROGRAMID", program) + tail;
    var one := FieldText("ADIF_VER", "3.1.7") + two;
    SkipText("CW Logger ADIF export\n", one, NOTHING);
    FieldReads("ADIF_VER", "3.1.7", two, NOTHING);
    var p := Partial(NOTHING.fields["ADIF_VER" := "3.1.7"], 5);
    FieldReads("PROGRAMID", program, tail, p);
    HeaderEndReads(rest, Partial(p.fields["PROGRAMID" := program], p.bytes + |program|));
    assert HeaderText() + rest == "CW Logger ADIF export\n" + one;
  }

  /** An exported file is well formed and holds one record per contact, in order,
      even when values contain brackets, colons or end tags. */
  lemma ExportParses(x: Env, qsos: seq<Qso>)
    requires forall i :: 0 <= i < |qsos| ==> Fits(x, qsos[i])
    ensures Parse(FileText(x, qsos), NOTHING) == Parsed(RecordsOf(x, qsos), true)
  {
    assert Parse("", NOTHING) == Parsed([], true);
    hide Parse, HeaderText, RecordsText, RecordsOf, Fits;
    HeaderReads(RecordsText(x, qsos));
    RecordsTextReads(x, qsos, "");
    assert RecordsText(x, qsos) + "" == RecordsText(x, qsos);
    assert RecordsOf(x, qsos) + [] == RecordsOf(x, qsos);
  }

  // ---------- Fields of a record ----------

  /** A record holds, under each written field's name, what was shown for it. */
  lemma {:induction false} FieldUpTo(x: Env, q: Qso, n: nat, id: FieldId)
    requires n <= WRITTEN
    ensures Field(RecordUpTo(x, q, n).fields, id) == if Place(id) < n then Shown(x, q, id) else ""
  {
    hide ValueOf, Spell, FieldAt, Place, Ascii, Blank;
    if n > 0 {
      FieldUpTo(x, q, n - 1, id);
      NamesApart(FieldAt(n - 1), id);
      PlaceOfFieldAt(n - 1);
      FieldAtPlace(id);
    }
  }

  lemma ReadOnlyShown(x: Env, q: Qso, id: FieldId)
    requires Place(id) >= WRITTEN
    ensures Shown(x, q, id) == ""
  {
    assert ValueOf(x, q, id) == "" && Blank("");
    hide ValueOf, Place, Ascii;
  }

  lemma FieldBack(x: Env, q: Qso, id: FieldId)
    ensures Field(RecordOf(x, q), id) == Shown(x, q, id)
  {
    hide Field, Place, RecordUpTo, Shown;
    FieldUpTo(x, q, WRITTEN, id);
    if Place(id) >= WRITTEN { ReadOnlyShown(x, q, id); }
  }

  // ---------- Normalised contacts ----------

  /** ASCII and, unless empty, not blank. */
  predicate Kept(s: string) { IsAscii(s) && (Blank(s) ==> s == "") }

  /** ASCII without blanks around it. */
  predicate Tidy(s: string) { IsAscii(s) && Trimmed(s) }

  predicate Upper(s: string) { Tidy(s) && ToUpper(s) == s }

  predicate NoBlanks(s: string) { IsAscii(s) && forall i :: 0 <= i < |s| ==> !IsSpace(s[i]) }

  predicate Serial(s: string) { Tidy(s) && (s == "" || Atoi(s).Some?) }

  predicate TidyStation(q: Qso) {
    && NoBlanks(q.myGrid) && Upper(q.myIotaRef) && Upper(q.stationCallsign) && Tidy(q.operatorName)
    && Tidy(q.myRig) && Tidy(q.myAntenna) && Tidy(q.txPower)
  }

  predicate TidyPlace(q: Qso) {
    && Tidy(q.name) && Tidy(q.qth) && NoBlanks(q.grid) && Tidy(q.state) && Tidy(q.county) && Tidy(q.country)
    && Tidy(q.cqZone) && Tidy(q.ituZone) && Tidy(q.dxccNumber) && Tidy(q.email)
  }

  predicate TidyExchange(q: Qso) {
    && Kept(q.rstSent) && Kept(q.rstRcvd) && Kept(q.srxString) && q.exchange == q.srxString
    && Serial(q.stx) && Tidy(q.stxString) && Serial(q.srx) && Tidy(q.contestId)
  }

  predicate TidyAwards(q: Qso) {
    && Tidy(q.comment) && Tidy(q.potaRef) && Tidy(q.parkName) && Upper(q.iotaRef) && Tidy(q.islandName)
  }

  predicate TidyCore(q: Qso) {
    && Upper(q.call) && q.call != "" && Upper(q.band) && q.band != "" && q.mode == "CW" && Tidy(q.frequency)
    && Clock.Valid(q.time) && Clock.Valid(q.timeOff) && !Before(q.timeOff, q.time)
  }

  /** Trimmed ASCII text, integer or blank serials, whole-second times that do not run backwards. */
  predicate Normal(q: Qso) {
    TidyCore(q) && TidyExchange(q) && TidyPlace(q) && TidyAwards(q) && TidyStation(q)
  }

  lemma BlankIsEmpty(s: string)
    requires Trimmed(s)
    ensures Blank(s) <==> s == ""
  {
  }

  /** A tidy value is shown as it is. */
  lemma TidyShown(x: Env, q: Qso, id: FieldId)
    requires Kept(ValueOf(x, q, id)) || Tidy(ValueOf(x, q, id))
    ensures Shown(x, q, id) == ValueOf(x, q, id)
  {
    hide ValueOf;
    if Tidy(ValueOf(x, q, id)) { BlankIsEmpty(ValueOf(x, q, id)); }
  }

  /** Fields read as they were shown. */
  ghost predicate Reads(x: Env, q: Qso, r: Record) { forall id: FieldId :: Field(r, id) == Shown(x, q, id) }

  lemma ReadTidy(x: Env, q: Qso, r: Record, id: FieldId)
    requires Reads(x, q, r) && Tidy(ValueOf(x, q, id))
    ensures Field(r, id) == ValueOf(x, q, id) && TrimSpace(Field(r, id)) == ValueOf(x, q, id)
  {
    TidyShown(x, q, id);
    hide ValueOf, Shown, Field;
  }

  lemma ReadOnly(x: Env, q: Qso, r: Record, id: FieldId)
    requires Reads(x, q, r) && Place(id) >= WRITTEN
    ensures Field(r, id) == "" && Blank(Field(r, id))
  {
    ReadOnlyShown(x, q, id);
    assert Blank("");
    hide ValueOf, Shown, Field;
  }

  lemma DigitsTidy(s: string)
    requires AllDigits(s)
    ensures Tidy(s)
  {
  }

  lemma DateWidth(t: Civil)
    ensures |DateText(t)| == 8 && |TimeText(t)| == 6 && Tidy(DateText(t)) && Tidy(TimeText(t))
  {
    hide Digits, Tidy;
    DigitsTidy(DateText(t));
    DigitsTidy(TimeText(t));
  }

  lemma PlainTexts()
    ensures Tidy("Y") && Tidy("N") && Tidy("CW") && Tidy("") && Blank("") && TrimSpace("") == ""
  {
  }

  lemma TimesBack(x: Env, q: Qso, r: Record)
    requires Reads(x, q, r) && TidyCore(q)
    ensures StartOf(r) == Some(q.time) && EndOf(r, q.time) == q.timeOff
  {
    hide Reads, Field, ParseStamp, Digits, Upper, Tidy, Valid, NextDay, Ascii, IntegerOnly, AdifContestId, GridBase, GridExtension, PotaSignal,
         DateText, TimeText, IsAscii, Trimmed, TrimSpace;
    StampParses(q.time);
    StampParses(q.timeOff);
    DateWidth(q.time);
    DateWidth(q.timeOff);
    ReadTidy(x, q, r, QsoDate);
    ReadTidy(x, q, r, TimeOn);
    ReadTidy(x, q, r, QsoDateOff);
    ReadTidy(x, q, r, TimeOff);
  }

  lemma CoreBack(x: Env, q: Qso, r: Record)
    requires Reads(x, q, r) && TidyCore(q)
    ensures EqualFold(TrimSpace(Field(r, Mode)), "CW")
    ensures !Blank(Field(r, Call)) && ToUpper(TrimSpace(Field(r, Call))) == q.call
    ensures ToUpper(TrimSpace(Field(r, Band))) == q.band
    ensures TrimSpace(Field(r, Freq)) == q.frequency
  {
    hide Reads, Field, Before, Valid, Ascii, IntegerOnly, AdifContestId, GridBase, GridExtension, PotaSignal,
      DateText, TimeText, IsAscii, Trimmed, TrimSpace;
    PlainTexts();
    ReadTidy(x, q, r, Mode);
    ReadTidy(x, q, r, Call);
    ReadTidy(x, q, r, Band);
    ReadTidy(x, q, r, Freq);
  }

  lemma SerialWritten(s: string)
    requires Serial(s)
    ensures IntegerOnly(s) == s
  {
    assert Atoi("") == None;
    hide Atoi;
  }

  lemma ReadKept(x: Env, q: Qso, r: Record, id: FieldId)
    requires Reads(x, q, r) && Kept(ValueOf(x, q, id))
    ensures Field(r, id) == ValueOf(x, q, id)
  {
    TidyShown(x, q, id);
    hide ValueOf, Shown, Field;
  }

  lemma BlankContest(x: Env)
    requires Loaded(x)
    ensures AdifContestId(x.contests, "") == ""
  {
    NoContest(x.contests);
  }

  lemma {:induction false} NoContest(contests: seq<(string, string)>)
    requires forall i :: 0 <= i < |contests| ==> contests[i].0 != ""
    ensures FirstContest(contests, "", "") == ""
  {
    if contests != [] { NoContest(contests[1..]); }
  }

  lemma ContestValues(x: Env, q: Qso)
    ensures ValueOf(x, q, AppContestId) == q.contestId && ValueOf(x, q, ContestId) == AdifContestId(x.contests, q.contestId)
  {
    hide AdifContestId;
  }

  lemma ContestBack(x: Env, q: Qso, r: Record)
    requires Reads(x, q, r) && TidyExchange(q) && Loaded(x)
    ensures ContestOf(x, r, q.time) == q.contestId
  {
    hide ValueOf, Reads, Field, Loaded, Serial, Kept, Ascii, IntegerOnly, AdifContestId, GridBase, GridExtension,
      PotaSignal, DateText, TimeText, IsAscii, Trimmed, TrimSpace;
    if q.contestId == "" { BlankContest(x); }
    PlainTexts();
    BlankIsEmpty(q.contestId);
    ContestValues(x, q);
    ReadTidy(x, q, r, AppContestId);
    ReadOnly(x, q, r, OldContestId);
    if q.contestId == "" { ReadTidy(x, q, r, ContestId); }
  }

  lemma ExchangeValues(x: Env, q: Qso)
    ensures ValueOf(x, q, RstSent) == q.rstSent && ValueOf(x, q, RstRcvd) == q.rstRcvd && ValueOf(x, q, SrxString) == q.srxString
  {
    hide IntegerOnly;
  }

  lemma SerialValues(x: Env, q: Qso)
    ensures ValueOf(x, q, Stx) == IntegerOnly(q.stx) && ValueOf(x, q, StxString) == q.stxString && ValueOf(x, q, Srx) == IntegerOnly(q.srx)
  {
    hide IntegerOnly;
  }

  lemma ExchangeBack(x: Env, q: Qso, r: Record)
    requires Reads(x, q, r) && TidyExchange(q)
    ensures Field(r, RstSent) == q.rstSent && Field(r, RstRcvd) == q.rstRcvd && Field(r, SrxString) == q.srxString
    ensures TrimSpace(Field(r, Stx)) == q.stx && TrimSpace(Field(r, StxString)) == q.stxString && TrimSpace(Field(r, Srx)) == q.srx
  {
    hide ValueOf, Reads, Field, Atoi, Blank, Ascii, IntegerOnly, AdifContestId, GridBase, GridExtension, PotaSignal,
      DateText, TimeText, IsAscii, Trimmed, TrimSpace;
    SerialWritten(q.stx);
    SerialWritten(q.srx);
    ExchangeValues(x, q);
    SerialValues(x, q);
    ReadKept(x, q, r, RstSent);
    ReadKept(x, q, r, RstRcvd);
    ReadKept(x, q, r, SrxString);
    ReadTidy(x, q, r, Stx);
    ReadTidy(x, q, r, StxString);
    ReadTidy(x, q, r, Srx);
  }

  lemma FirstOfPair(a: string, b: string)
    requires Trimmed(b) && Blank(a)
    ensures TrimSpace(FirstNonEmpty(a, b)) == b
  {
    BlankIsEmpty(b);
  }

  lemma SecondBlank(a: string, b: string)
    requires Trimmed(a) && Blank(b)
    ensures TrimSpace(FirstNonEmpty(a, b)) == a
  {
    BlankIsEmpty(a);
    assert TrimSpace("") == "";
  }

  lemma GridBack(grid: string)
    requires NoBlanks(grid)
    ensures Tidy(GridBase(grid)) && Tidy(GridExtension(grid)) && GridBase(grid) + GridExtension(grid) == grid
  {
  }

  /** An international variant, never written, gives way to the plain field. */
  lemma PlainBack(x: Env, q: Qso, r: Record, intl: FieldId, id: FieldId)
    requires Reads(x, q, r) && Place(intl) >= WRITTEN && Tidy(ValueOf(x, q, id))
    ensures TrimSpace(FirstNonEmpty(Field(r, intl), Field(r, id))) == ValueOf(x, q, id)
  {
    ReadOnly(x, q, r, intl);
    ReadTidy(x, q, r, id);
    FirstOfPair(Field(r, intl), Field(r, id));
    hide ValueOf, Reads, Field;
  }

  /** The older namespace, never written, adds nothing. */
  lemma AppBack(x: Env, q: Qso, r: Record, id: FieldId, older: FieldId)
    requires Reads(x, q, r) && Place(older) >= WRITTEN && Tidy(ValueOf(x, q, id))
    ensures TrimSpace(FirstNonEmpty(Field(r, id), Field(r, older))) == ValueOf(x, q, id)
  {
    ReadOnly(x, q, r, older);
    ReadTidy(x, q, r, id);
    SecondBlank(Field(r, id), Field(r, older));
    hide ValueOf, Reads, Field;
  }

  lemma PlaceBack(x: Env, q: Qso, r: Record)
    requires Reads(x, q, r) && TidyPlace(q)
    ensures TrimSpace(FirstNonEmpty(Field(r, NameIntl), Field(r, PersonName))) == q.name && TrimSpace(FirstNonEmpty(Field(r, QthIntl), Field(r, Qth))) == q.qth
    ensures TrimSpace(Field(r, Gridsquare)) + TrimSpace(Field(r, GridsquareExt)) == q.grid
    ensures TrimSpace(Field(r, State)) == q.state && TrimSpace(Field(r, Cnty)) == q.county && TrimSpace(Field(r, Country)) == q.country
    ensures TrimSpace(Field(r, Cqz)) == q.cqZone && TrimSpace(Field(r, Ituz)) == q.ituZone && TrimSpace(Field(r, Dxcc)) == q.dxccNumber
    ensures TrimSpace(Field(r, Email)) == q.email
  {
    hide Reads, Field, FirstNonEmpty, NoBlanks, Ascii, IntegerOnly, AdifContestId, GridBase, GridExtension,
      PotaSignal, DateText, TimeText, IsAscii, Trimmed, TrimSpace;
    GridBack(q.grid);
    PlainBack(x, q, r, NameIntl, PersonName);
    PlainBack(x, q, r, QthIntl, Qth);
    ReadTidy(x, q, r, Gridsquare);
    ReadTidy(x, q, r, GridsquareExt);
    ReadTidy(x, q, r, State);
    ReadTidy(x, q, r, Cnty);
    ReadTidy(x, q, r, Country);
    ReadTidy(x, q, r, Cqz);
    ReadTidy(x, q, r, Ituz);
    ReadTidy(x, q, r, Dxcc);
    ReadTidy(x, q, r, Email);
  }

  lemma NotPota()
    ensures Tidy("") && PotaSignal("") == "" && !EqualFold("", "POTA")
  {
    assert |ToUpper("")| != |ToUpper("POTA")|;
  }

  lemma PotaBack(x: Env, q: Qso, r: Record)
    requires Reads(x, q, r) && Tidy(q.potaRef)
    ensures PotaReference(r) == q.potaRef
  {
    hide Reads, Field, EqualFold, Ascii, IntegerOnly, AdifContestId, GridBase, GridExtension, PotaSignal, DateText,
      TimeText, IsAscii, Trimmed, TrimSpace;
    BlankIsEmpty(q.potaRef);
    if q.potaRef == "" { NotPota(); }
    ReadTidy(x, q, r, PotaRef);
    if q.potaRef == "" { ReadTidy(x, q, r, Sig); }
  }

  lemma AwardsBack(x: Env, q: Qso, r: Record)
    requires Reads(x, q, r) && TidyAwards(q)
    ensures TrimSpace(FirstNonEmpty(Field(r, CommentIntl), Field(r, Comment))) == q.comment && PotaReference(r) == q.potaRef
    ensures TrimSpace(FirstNonEmpty(Field(r, AppParkName), Field(r, OldParkName))) == q.parkName
    ensures TrimSpace(FirstNonEmpty(Field(r, AppIslandName), Field(r, OldIslandName))) == q.islandName
    ensures ToUpper(TrimSpace(Field(r, Iota))) == q.iotaRef
  {
    hide Reads, Field, FirstNonEmpty, PotaReference, Ascii, IntegerOnly, AdifContestId, GridBase, GridExtension,
      PotaSignal, DateText, TimeText, IsAscii, Trimmed, TrimSpace;
    PotaBack(x, q, r);
    PlainBack(x, q, r, CommentIntl, Comment);
    AppBack(x, q, r, AppParkName, OldParkName);
    AppBack(x, q, r, AppIslandName, OldIslandName);
    ReadTidy(x, q, r, Iota);
  }

  lemma UnscoredBack(x: Env, q: Qso, r: Record)
    requires Reads(x, q, r)
    ensures (Field(r, AppUnscored) == "Y" || Field(r, OldUnscored) == "Y") == q.unscored
  {
    hide Reads, Field, Tidy, Ascii, IntegerOnly, AdifContestId, GridBase, GridExtension, PotaSignal, DateText,
      TimeText, IsAscii, Trimmed, TrimSpace;
    PlainTexts();
    ReadTidy(x, q, r, AppUnscored);
    ReadOnly(x, q, r, OldUnscored);
  }

  lemma OperatorBack(x: Env, q: Qso, r: Record)
    requires Reads(x, q, r) && TidyStation(q)
    ensures TrimSpace(FirstNonEmpty(FirstNonEmpty(Field(r, MyNameIntl), Field(r, MyName)), FirstNonEmpty(Field(r, OperatorIntl), Field(r, OperatorName)))) == q.operatorName
  {
    hide Reads, Field, Ascii, IntegerOnly, AdifContestId, GridBase, GridExtension, PotaSignal, DateText, TimeText,
      IsAscii, Trimmed, TrimSpace;
    BlankIsEmpty(q.operatorName);
    PlainTexts();
    ReadOnly(x, q, r, MyNameIntl);
    ReadOnly(x, q, r, OperatorIntl);
    ReadOnly(x, q, r, OperatorName);
    ReadTidy(x, q, r, MyName);
  }

  lemma StationBack(x: Env, q: Qso, r: Record)
    requires Reads(x, q, r) && TidyStation(q)
    ensures TrimSpace(Field(r, MyGridsquare)) + TrimSpace(Field(r, MyGridsquareExt)) == q.myGrid
    ensures ToUpper(TrimSpace(Field(r, MyIota))) == q.myIotaRef && ToUpper(TrimSpace(Field(r, StationCallsign))) == q.stationCallsign
  {
    hide Reads, Field, FirstNonEmpty, NoBlanks, Ascii, IntegerOnly, AdifContestId, GridBase, GridExtension,
      PotaSignal, DateText, TimeText, IsAscii, Trimmed, TrimSpace;
    GridBack(q.myGrid);
    ReadTidy(x, q, r, MyGridsquare);
    ReadTidy(x, q, r, MyGridsquareExt);
    ReadTidy(x, q, r, MyIota);
    ReadTidy(x, q, r, StationCallsign);
  }

  lemma RigBack(x: Env, q: Qso, r: Record)
    requires Reads(x, q, r) && TidyStation(q)
    ensures TrimSpace(FirstNonEmpty(Field(r, MyRigIntl), Field(r, MyRig))) == q.myRig
    ensures TrimSpace(FirstNonEmpty(Field(r, MyAntennaIntl), Field(r, MyAntenna))) == q.myAntenna && TrimSpace(Field(r, TxPwr)) == q.txPower
  {
    hide Reads, Field, FirstNonEmpty, NoBlanks, Ascii, IntegerOnly, AdifContestId, GridBase, GridExtension,
      PotaSignal, DateText, TimeText, IsAscii, Trimmed, TrimSpace;
    PlainBack(x, q, r, MyRigIntl, MyRig);
    PlainBack(x, q, r, MyAntennaIntl, MyAntenna);
    ReadTidy(x, q, r, TxPwr);
  }

  lemma NormalComesBack(x: Env, q: Qso, r: Record)
    requires Reads(x, q, r) && Normal(q) && Loaded(x)
    ensures QsoFromAdi(x, r, q.profile) == Some(q)
  {
    hide Reads, Field, TidyCore, TidyExchange, TidyPlace, TidyAwards, TidyStation, TrimSpace, StartOf, EndOf, ContestOf, PotaReference,
         FirstNonEmpty, EqualFold, ToUpper, Blank, Loaded;
    TimesBack(x, q, r);
    CoreBack(x, q, r);
    ContestBack(x, q, r);
    ExchangeBack(x, q, r);
    PlaceBack(x, q, r);
    AwardsBack(x, q, r);
    UnscoredBack(x, q, r);
    OperatorBack(x, q, r);
    StationBack(x, q, r);
    RigBack(x, q, r);
    CoreShape(q);
  }

  lemma CoreShape(q: Qso)
    requires TidyCore(q) && TidyExchange(q)
    ensures q.band != "" && q.mode == "CW" && q.exchange == q.srxString
  {
    hide Kept, Serial, Upper, Tidy;
  }

  lemma RecordComesBack(x: Env, q: Qso)
    requires Normal(q) && Loaded(x)
    ensures QsoFromAdi(x, RecordOf(x, q), q.profile) == Some(q)
  {
    var r := RecordOf(x, q);
    forall id: FieldId ensures Field(r, id) == Shown(x, q, id) { FieldBack(x, q, id); }
    hide Field, RecordOf, Shown, QsoFromAdi, Normal, Loaded;
    NormalComesBack(x, q, r);
  }

  /** Parsing inverts printing: the file exported for normalised contacts of one
      profile parses, record by record, to exactly those contacts. */
  lemma RoundTrip(x: Env, qsos: seq<Qso>, profile: int)
    requires Loaded(x)
    requires forall i :: 0 <= i < |qsos| ==> Normal(qsos[i]) && Fits(x, qsos[i]) && qsos[i].profile == profile
    ensures var p := Parse(FileText(x, qsos), NOTHING);
      p.ok && |p.records| == |qsos| && forall i :: 0 <= i < |qsos| ==> QsoFromAdi(x, p.records[i], profile) == Some(qsos[i])
  {
    ExportParses(x, qsos);
    RecordsOfEach(x, qsos);
    hide Parse, FileText, Normal, Fits, Loaded, RecordOf, QsoFromAdi;
    forall i | 0 <= i < |qsos| ensures QsoFromAdi(x, RecordsOf(x, qsos)[i], profile) == Some(qsos[i]) {
      RecordComesBack(x, qsos[i]);
    }
  }

  function Awkward(): Qso {
    Qso("W1AW", "20M", "CW", "599", "599", "", "14.05", "Bob", "", "FN31", "", "", "", "", "", "", "", "<EOR> a:b <CALL:2>c",
        "", "", "", "", "", "", "", "", "", Civil(2024, 2, 29, 23, 59, 59), Civil(2024, 2, 29, 23, 59, 59), 1, false,
        "", "", "", "", "", "", "")
  }

  lemma AwkwardCore()
    ensures TidyCore(Awkward())
  {
    hide Atoi, NatValue, TrimSpace, Ascii;
    ToUpperFixed("W1AW");
    ToUpperFixed("20M");
  }

  lemma AwkwardRest()
    ensures var q := Awkward(); TidyExchange(q) && TidyPlace(q) && TidyAwards(q) && TidyStation(q)
  {
    hide Atoi, NatValue, TrimSpace, Ascii;
    assert ToUpper("") == "";
  }

  /** Normalised contacts may hold tags, brackets and colons in their text. */
  lemma TagsAreNormal()
    ensures Normal(Awkward()) && Awkward().comment == "<EOR> a:b <CALL:2>c"
  {
    hide TidyCore, TidyExchange, TidyPlace, TidyAwards, TidyStation;
    AwkwardCore();
    AwkwardRest();
  }
}
