/** The contact an ADIF record describes, told from its fields by their names, and the
    importer as a reader of exactly that. */
module AdifReading {
  import opened Text
  import opened Clock
  import opened Adif
  import opened AdifFields
  import opened AdifQso
  import opened RecordFields

  lemma FieldHolds(r: Record, id: FieldId, name: string)
    requires Spell(id) == name
    ensures Holds(r, name, Field(r, id))
  {
  }

  /** Two fields, one behind the other. */
  ghost predicate SaysJoined(r: Record, first: string, second: string, text: string) {
    exists a, b :: SaysTrimmed(r, first, a) && SaysTrimmed(r, second, b) && text == a + b
  }

  /** The first of two fields that is not blank, without the blanks around it. */
  ghost predicate SaysFirstOf(r: Record, first: string, second: string, text: string) {
    exists raw :: SaysEither(r, first, second, raw) && text == TrimSpace(raw)
  }

  lemma TrimmedField(r: Record, id: FieldId, name: string)
    requires Spell(id) == name
    ensures forall text :: SaysTrimmed(r, name, text) <==> text == TrimSpace(Field(r, id))
  {
    FieldHolds(r, id, name);
    hide Spell, Field, TrimSpace, SaysTrimmed;
    SaysTexts(r, name, Field(r, id));
  }

  lemma RawField(r: Record, id: FieldId, name: string)
    requires Spell(id) == name
    ensures forall text :: Says(r, name, text) <==> text == Field(r, id)
    ensures forall text :: SaysUpper(r, name, text) <==> text == ToUpper(TrimSpace(Field(r, id)))
  {
    FieldHolds(r, id, name);
    hide Spell, Field, TrimSpace, ToUpper, Says, SaysUpper;
    SaysTexts(r, name, Field(r, id));
  }

  lemma FirstField(r: Record, first: FieldId, second: FieldId, a: string, b: string)
    requires Spell(first) == a && Spell(second) == b
    ensures forall text :: SaysEither(r, a, b, text) <==> text == FirstNonEmpty(Field(r, first), Field(r, second))
    ensures forall text :: SaysFirstOf(r, a, b, text) <==> text == TrimSpace(FirstNonEmpty(Field(r, first), Field(r, second)))
  {
    FieldHolds(r, first, a);
    FieldHolds(r, second, b);
    hide Spell, Field, TrimSpace, FirstNonEmpty, SaysEither;
    SaysFirst(r, a, b, Field(r, first), Field(r, second));
    assert SaysEither(r, a, b, FirstNonEmpty(Field(r, first), Field(r, second)));
  }

  lemma JoinedField(r: Record, first: FieldId, second: FieldId, a: string, b: string)
    requires Spell(first) == a && Spell(second) == b
    ensures forall text :: SaysJoined(r, a, b, text) <==> text == TrimSpace(Field(r, first)) + TrimSpace(Field(r, second))
  {
    TrimmedField(r, first, a);
    TrimmedField(r, second, b);
    hide Spell, Field, TrimSpace, SaysTrimmed;
    assert SaysTrimmed(r, a, TrimSpace(Field(r, first))) && SaysTrimmed(r, b, TrimSpace(Field(r, second)));
  }

  lemma TrimmedIs(r: Record, id: FieldId, name: string, text: string)
    requires Spell(id) == name
    ensures SaysTrimmed(r, name, text) <==> text == TrimSpace(Field(r, id))
  {
    TrimmedField(r, id, name);
    hide *;
  }

  lemma UpperIs(r: Record, id: FieldId, name: string, text: string)
    requires Spell(id) == name
    ensures SaysUpper(r, name, text) <==> text == ToUpper(TrimSpace(Field(r, id)))
  {
    RawField(r, id, name);
    hide *;
  }

  lemma FirstIs(r: Record, first: FieldId, second: FieldId, a: string, b: string, text: string)
    requires Spell(first) == a && Spell(second) == b
    ensures SaysFirstOf(r, a, b, text) <==> text == TrimSpace(FirstNonEmpty(Field(r, first), Field(r, second)))
  {
    FirstField(r, first, second, a, b);
    hide *;
  }

  lemma JoinedIs(r: Record, first: FieldId, second: FieldId, a: string, b: string, text: string)
    requires Spell(first) == a && Spell(second) == b
    ensures SaysJoined(r, a, b, text) <==> text == TrimSpace(Field(r, first)) + TrimSpace(Field(r, second))
  {
    JoinedField(r, first, second, a, b);
    hide *;
  }

  // ---------- Times ----------

  /** A date of eight digits and a time of four or six are the time `t`. */
  ghost predicate TimeReads(date: string, time: string, t: Civil) {
    && |date| == 8 && Valid(t)
    && ((|time| == 4 && Stamp(t) == date + time + "00") || (|time| == 6 && Stamp(t) == date + time))
  }

  ghost predicate StartIs(r: Record, t: Civil) {
    exists date, time :: SaysTrimmed(r, "QSO_DATE", date) && SaysTrimmed(r, "TIME_ON", time) && TimeReads(date, time, t)
  }

  /** The day after, at the same time of day. */
  ghost predicate DayAfter(t: Civil, u: Civil)
    requires Valid(t)
  {
    && u.hour == t.hour && u.minute == t.minute && u.second == t.second
    && if t.day < MonthDays(t.year, t.month) then u.year == t.year && u.month == t.month && u.day == t.day + 1
       else u.day == 1 && if t.month < 12 then u.year == t.year && u.month == t.month + 1 else u.year == t.year + 1 && u.month == 1
  }

  /** The end of a contact: on the given date, or on the start date and then past midnight when it lies before the
      start; the start itself when there is no such time or it still lies before the start. */
  ghost predicate Ends(dateOff: string, dateOn: string, time: string, start: Civil, end: Civil) {
    var date := if dateOff == "" then dateOn else dateOff;
    && ((forall t :: !TimeReads(date, time, t)) ==> end == start)
    && (forall t :: TimeReads(date, time, t) ==>
          && (!Before(t, start) ==> end == t)
          && (Before(t, start) && dateOff != "" ==> end == start)
          && (Before(t, start) && dateOff == "" ==> exists u :: DayAfter(t, u) && end == if Before(u, start) then start else u))
  }

  ghost predicate EndIs(r: Record, start: Civil, end: Civil) {
    exists dateOff, dateOn, time ::
      && SaysTrimmed(r, "QSO_DATE_OFF", dateOff) && SaysTrimmed(r, "QSO_DATE", dateOn) && SaysTrimmed(r, "TIME_OFF", time)
      && Ends(dateOff, dateOn, time, start, end)
  }

  lemma TimeReadsMeans(date: string, time: string, t: Civil)
    ensures TimeReads(date, time, t)
        <==> |date| == 8 && (|time| == 4 || |time| == 6) && ParseStamp(date + WithSeconds(time)) == Some(t)
  {
    hide Stamp, ParseStamp;
    assert date + (time + "00") == date + time + "00";
    var text := date + WithSeconds(time);
    if Valid(t) { StampParses(t); }
    if ParseStamp(text).Some? { StampOfParsed(text); }
  }

  lemma StartMeans(r: Record, t: Civil)
    ensures StartIs(r, t) <==> StartOf(r) == Some(t)
  {
    TrimmedField(r, QsoDate, "QSO_DATE");
    TrimmedField(r, TimeOn, "TIME_ON");
    hide SaysTrimmed, TrimSpace, Field, Spell, ParseStamp, WithSeconds, TimeReads;
    TimeReadsMeans(TrimSpace(Field(r, QsoDate)), TrimSpace(Field(r, TimeOn)), t);
    assert SaysTrimmed(r, "QSO_DATE", TrimSpace(Field(r, QsoDate))) && SaysTrimmed(r, "TIME_ON", TrimSpace(Field(r, TimeOn)));
  }

  lemma NextIsDayAfter(t: Civil)
    requires Valid(t)
    ensures forall u :: DayAfter(t, u) <==> u == NextDay(t)
  {
  }

  lemma EndsMeans(r: Record, start: Civil, end: Civil)
    ensures Ends(TrimSpace(Field(r, QsoDateOff)), TrimSpace(Field(r, QsoDate)), TrimSpace(Field(r, TimeOff)), start, end) <==> end == EndOf(r, start)
  {
    hide TrimSpace, Field, Spell, ParseStamp, WithSeconds, TimeReads, NextDay, DayAfter, Before, Stamp;
    var dateOff, time := TrimSpace(Field(r, QsoDateOff)), TrimSpace(Field(r, TimeOff));
    var date := if dateOff == "" then TrimSpace(Field(r, QsoDate)) else dateOff;
    forall t ensures TimeReads(date, time, t) <==> |date| == 8 && (|time| == 4 || |time| == 6) && ParseStamp(date + WithSeconds(time)) == Some(t) {
      TimeReadsMeans(date, time, t);
    }
    if |date| == 8 && (|time| == 4 || |time| == 6) && ParseStamp(date + WithSeconds(time)).Some? {
      var t := ParseStamp(date + WithSeconds(time)).value;
      NextIsDayAfter(t);
      assert TimeReads(date, time, t) && DayAfter(t, NextDay(t));
    }
  }

  lemma EndMeans(r: Record, start: Civil, end: Civil)
    ensures EndIs(r, start, end) <==> end == EndOf(r, start)
  {
    TrimmedField(r, QsoDateOff, "QSO_DATE_OFF");
    TrimmedField(r, QsoDate, "QSO_DATE");
    TrimmedField(r, TimeOff, "TIME_OFF");
    EndsMeans(r, start, end);
    hide SaysTrimmed, TrimSpace, Field, Spell, EndOf, Ends;
    assert SaysTrimmed(r, "QSO_DATE_OFF", TrimSpace(Field(r, QsoDateOff))) && SaysTrimmed(r, "QSO_DATE", TrimSpace(Field(r, QsoDate)))
      && SaysTrimmed(r, "TIME_OFF", TrimSpace(Field(r, TimeOff)));
  }

  // ---------- The whole contact ----------

  ghost predicate SaysCall(r: Record, q: Qso) {
    && (exists mode :: SaysTrimmed(r, "MODE", mode) && ToUpper(mode) == "CW") && q.mode == "CW"
    && SaysUpper(r, "CALL", q.call) && q.call != "" && SaysUpper(r, "BAND", q.band) && q.band != ""
    && SaysTrimmed(r, "FREQ", q.frequency) && Says(r, "RST_SENT", q.rstSent) && Says(r, "RST_RCVD", q.rstRcvd)
    && StartIs(r, q.time) && EndIs(r, q.time, q.timeOff)
  }

  ghost predicate SaysPlace(r: Record, q: Qso) {
    && SaysFirstOf(r, "NAME_INTL", "NAME", q.name) && SaysFirstOf(r, "QTH_INTL", "QTH", q.qth)
    && SaysJoined(r, "GRIDSQUARE", "GRIDSQUARE_EXT", q.grid) && SaysTrimmed(r, "STATE", q.state) && SaysTrimmed(r, "CNTY", q.county)
    && SaysTrimmed(r, "COUNTRY", q.country) && SaysTrimmed(r, "DXCC", q.dxccNumber) && SaysTrimmed(r, "CQZ", q.cqZone)
    && SaysTrimmed(r, "ITUZ", q.ituZone) && SaysTrimmed(r, "EMAIL", q.email) && SaysFirstOf(r, "COMMENT_INTL", "COMMENT", q.comment)
  }

  /** The park: POTA_REF, or what SIG_INFO says of a contact whose SIG is POTA. */
  ghost predicate SaysPark(r: Record, park: string) {
    exists ref, signal :: SaysTrimmed(r, "POTA_REF", ref) && SaysTrimmed(r, "SIG", signal)
      && (ref != "" ==> park == ref)
      && (ref == "" && ToUpper(signal) == "POTA" ==> SaysFirstOf(r, "SIG_INFO_INTL", "SIG_INFO", park))
      && (ref == "" && ToUpper(signal) != "POTA" ==> park == "")
  }

  /** The event: the one this program recorded, else what the catalogue makes of CONTEST_ID. */
  ghost predicate SaysContest(x: Env, r: Record, start: Civil, contest: string) {
    exists own, id :: SaysFirstOf(r, "APP_CWLOGGER_CONTEST_ID", "APP_W4GNS_LOGGER_CONTEST_ID", own) && SaysTrimmed(r, "CONTEST_ID", id)
      && (own != "" ==> contest == own)
      && (own == "" && id == "" ==> contest == "")
      && (own == "" && id != "" ==> contest == x.imported(id, start))
  }

  ghost predicate SaysAwards(x: Env, r: Record, q: Qso) {
    && SaysPark(r, q.potaRef) && SaysFirstOf(r, "APP_CWLOGGER_PARK_NAME", "APP_W4GNS_LOGGER_PARK_NAME", q.parkName)
    && SaysUpper(r, "IOTA", q.iotaRef) && SaysFirstOf(r, "APP_CWLOGGER_ISLAND_NAME", "APP_W4GNS_LOGGER_ISLAND_NAME", q.islandName)
    && SaysContest(x, r, q.time, q.contestId)
    && (q.unscored <==> Says(r, "APP_CWLOGGER_UNSCORED", "Y") || Says(r, "APP_W4GNS_LOGGER_UNSCORED", "Y"))
  }

  ghost predicate SaysExchange(r: Record, q: Qso) {
    && SaysTrimmed(r, "STX", q.stx) && SaysTrimmed(r, "STX_STRING", q.stxString) && SaysTrimmed(r, "SRX", q.srx)
    && Says(r, "SRX_STRING", q.srxString) && q.exchange == q.srxString
  }

  /** The first of four fields that is not blank: the operator's name, kept under two pairs of names. */
  ghost predicate SaysOperator(r: Record, name: string) {
    exists mine, other :: SaysEither(r, "MY_NAME_INTL", "MY_NAME", mine) && SaysEither(r, "OPERATOR_INTL", "OPERATOR", other)
      && name == TrimSpace(if TrimSpace(mine) != "" then mine else other)
  }

  ghost predicate SaysStation(r: Record, q: Qso) {
    && SaysJoined(r, "MY_GRIDSQUARE", "MY_GRIDSQUARE_EXT", q.myGrid) && SaysUpper(r, "MY_IOTA", q.myIotaRef)
    && SaysUpper(r, "STATION_CALLSIGN", q.stationCallsign) && SaysOperator(r, q.operatorName)
    && SaysFirstOf(r, "MY_RIG_INTL", "MY_RIG", q.myRig) && SaysFirstOf(r, "MY_ANTENNA_INTL", "MY_ANTENNA", q.myAntenna)
    && SaysTrimmed(r, "TX_PWR", q.txPower)
  }

  /** The record describes the contact. */
  ghost predicate Describes(x: Env, r: Record, profile: int, q: Qso) {
    SaysCall(r, q) && SaysPlace(r, q) && SaysAwards(x, r, q) && SaysExchange(r, q) && SaysStation(r, q) && q.profile == profile
  }

  lemma SpelledMode()
    ensures Spell(Mode) == "MODE" && Spell(Freq) == "FREQ"
  {
  }

  lemma SpelledCall()
    ensures Spell(Call) == "CALL" && Spell(Band) == "BAND"
  {
  }

  lemma SpelledRstSent()
    ensures Spell(RstSent) == "RST_SENT" && Spell(RstRcvd) == "RST_RCVD"
  {
  }

  lemma CallMeans(r: Record, q: Qso)
    ensures SaysCall(r, q) <==>
      && EqualFold(TrimSpace(Field(r, Mode)), "CW") && q.mode == "CW"
      && q.call == ToUpper(TrimSpace(Field(r, Call))) && !Blank(Field(r, Call))
      && q.band == ToUpper(TrimSpace(Field(r, Band))) && q.band != "" && q.frequency == TrimSpace(Field(r, Freq))
      && q.rstSent == Field(r, RstSent) && q.rstRcvd == Field(r, RstRcvd)
      && StartOf(r) == Some(q.time) && q.timeOff == EndOf(r, q.time)
  {
    hide Spell, Field, TrimSpace, ToUpper, Says, SaysTrimmed, SaysUpper, StartIs, EndIs, StartOf, EndOf;
    SpelledMode();
    SpelledCall();
    SpelledRstSent();
    TrimmedField(r, Mode, "MODE");
    TrimmedField(r, Freq, "FREQ");
    RawField(r, Call, "CALL");
    RawField(r, Band, "BAND");
    RawField(r, RstSent, "RST_SENT");
    RawField(r, RstRcvd, "RST_RCVD");
    StartMeans(r, q.time);
    EndMeans(r, q.time, q.timeOff);
    assert SaysTrimmed(r, "MODE", TrimSpace(Field(r, Mode)));
    assert ToUpper("CW") == "CW" by { ToUpperFixed("CW"); }
  }

  lemma SpelledNameIntl()
    ensures Spell(NameIntl) == "NAME_INTL" && Spell(PersonName) == "NAME"
  {
  }

  lemma SpelledQthIntl()
    ensures Spell(QthIntl) == "QTH_INTL" && Spell(Qth) == "QTH"
  {
  }

  lemma SpelledCommentIntl()
    ensures Spell(CommentIntl) == "COMMENT_INTL" && Spell(Comment) == "COMMENT"
  {
  }

  lemma SpelledGridsquare()
    ensures Spell(Gridsquare) == "GRIDSQUARE" && Spell(GridsquareExt) == "GRIDSQUARE_EXT"
  {
  }

  lemma SpelledState()
    ensures Spell(State) == "STATE" && Spell(Cnty) == "CNTY"
  {
  }

  lemma SpelledCountry()
    ensures Spell(Country) == "COUNTRY" && Spell(Dxcc) == "DXCC"
  {
  }

  lemma SpelledCqz()
    ensures Spell(Cqz) == "CQZ" && Spell(Ituz) == "ITUZ"
  {
  }

  lemma SpelledEmail()
    ensures Spell(Email) == "EMAIL"
  {
  }

  lemma PlaceMeans(r: Record, q: Qso)
    ensures SaysPlace(r, q) <==>
      && q.name == TrimSpace(FirstNonEmpty(Field(r, NameIntl), Field(r, PersonName)))
      && q.qth == TrimSpace(FirstNonEmpty(Field(r, QthIntl), Field(r, Qth)))
      && q.grid == TrimSpace(Field(r, Gridsquare)) + TrimSpace(Field(r, GridsquareExt))
      && q.state == TrimSpace(Field(r, State)) && q.county == TrimSpace(Field(r, Cnty)) && q.country == TrimSpace(Field(r, Country))
      && q.dxccNumber == TrimSpace(Field(r, Dxcc)) && q.cqZone == TrimSpace(Field(r, Cqz)) && q.ituZone == TrimSpace(Field(r, Ituz))
      && q.email == TrimSpace(Field(r, Email)) && q.comment == TrimSpace(FirstNonEmpty(Field(r, CommentIntl), Field(r, Comment)))
  {
    hide Spell, Field, TrimSpace, SaysTrimmed, SaysJoined, SaysFirstOf, FirstNonEmpty;
    SpelledNameIntl();
    SpelledQthIntl();
    SpelledCommentIntl();
    SpelledGridsquare();
    SpelledState();
    SpelledCountry();
    SpelledCqz();
    SpelledEmail();
    FirstIs(r, NameIntl, PersonName, "NAME_INTL", "NAME", q.name);
    FirstIs(r, QthIntl, Qth, "QTH_INTL", "QTH", q.qth);
    FirstIs(r, CommentIntl, Comment, "COMMENT_INTL", "COMMENT", q.comment);
    JoinedIs(r, Gridsquare, GridsquareExt, "GRIDSQUARE", "GRIDSQUARE_EXT", q.grid);
    TrimmedIs(r, State, "STATE", q.state);
    TrimmedIs(r, Cnty, "CNTY", q.county);
    TrimmedIs(r, Country, "COUNTRY", q.country);
    TrimmedIs(r, Dxcc, "DXCC", q.dxccNumber);
    TrimmedIs(r, Cqz, "CQZ", q.cqZone);
    TrimmedIs(r, Ituz, "ITUZ", q.ituZone);
    TrimmedIs(r, Email, "EMAIL", q.email);
  }

  lemma SpelledPotaRef()
    ensures Spell(PotaRef) == "POTA_REF" && Spell(Sig) == "SIG"
  {
  }

  lemma SpelledSigInfoIntl()
    ensures Spell(SigInfoIntl) == "SIG_INFO_INTL" && Spell(SigInfo) == "SIG_INFO"
  {
  }

  lemma ParkMeans(r: Record, park: string)
    ensures SaysPark(r, park) <==> park == PotaReference(r)
  {
    hide Spell, Field, TrimSpace, ToUpper, SaysTrimmed, SaysFirstOf, FirstNonEmpty;
    SpelledPotaRef();
    SpelledSigInfoIntl();
    TrimmedField(r, PotaRef, "POTA_REF");
    TrimmedField(r, Sig, "SIG");
    FirstField(r, SigInfoIntl, SigInfo, "SIG_INFO_INTL", "SIG_INFO");
    assert ToUpper("POTA") == "POTA" by { ToUpperFixed("POTA"); }
    assert SaysTrimmed(r, "POTA_REF", TrimSpace(Field(r, PotaRef))) && SaysTrimmed(r, "SIG", TrimSpace(Field(r, Sig)));
  }

  lemma SpelledAppContestId()
    ensures Spell(AppContestId) == "APP_CWLOGGER_CONTEST_ID"
  {
  }

  lemma SpelledOldContestId()
    ensures Spell(OldContestId) == "APP_W4GNS_LOGGER_CONTEST_ID"
  {
  }

  lemma SpelledContestId()
    ensures Spell(ContestId) == "CONTEST_ID"
  {
  }

  lemma ContestMeans(x: Env, r: Record, start: Civil, contest: string)
    ensures SaysContest(x, r, start, contest) <==> contest == ContestOf(x, r, start)
  {
    hide Spell, Field, TrimSpace, SaysTrimmed, SaysFirstOf, FirstNonEmpty;
    SpelledAppContestId();
    SpelledOldContestId();
    SpelledContestId();
    FirstField(r, AppContestId, OldContestId, "APP_CWLOGGER_CONTEST_ID", "APP_W4GNS_LOGGER_CONTEST_ID");
    TrimmedField(r, ContestId, "CONTEST_ID");
    var own, id := TrimSpace(FirstNonEmpty(Field(r, AppContestId), Field(r, OldContestId))), TrimSpace(Field(r, ContestId));
    assert SaysFirstOf(r, "APP_CWLOGGER_CONTEST_ID", "APP_W4GNS_LOGGER_CONTEST_ID", own) && SaysTrimmed(r, "CONTEST_ID", id);
  }

  lemma SpelledAppParkName()
    ensures Spell(AppParkName) == "APP_CWLOGGER_PARK_NAME"
  {
  }

  lemma SpelledOldParkName()
    ensures Spell(OldParkName) == "APP_W4GNS_LOGGER_PARK_NAME"
  {
  }

  lemma SpelledAppIslandName()
    ensures Spell(AppIslandName) == "APP_CWLOGGER_ISLAND_NAME"
  {
  }

  lemma SpelledOldIslandName()
    ensures Spell(OldIslandName) == "APP_W4GNS_LOGGER_ISLAND_NAME"
  {
  }

  lemma SpelledAppUnscored()
    ensures Spell(AppUnscored) == "APP_CWLOGGER_UNSCORED"
  {
  }

  lemma SpelledOldUnscored()
    ensures Spell(OldUnscored) == "APP_W4GNS_LOGGER_UNSCORED"
  {
  }

  lemma SpelledIota()
    ensures Spell(Iota) == "IOTA"
  {
  }

  lemma FlagIs(r: Record, id: FieldId, name: string)
    requires Spell(id) == name
    ensures Says(r, name, "Y") <==> Field(r, id) == "Y"
  {
    RawField(r, id, name);
    hide *;
  }

  lemma AwardsMean(x: Env, r: Record, q: Qso)
    ensures SaysAwards(x, r, q) <==>
      && q.potaRef == PotaReference(r) && q.parkName == TrimSpace(FirstNonEmpty(Field(r, AppParkName), Field(r, OldParkName)))
      && q.iotaRef == ToUpper(TrimSpace(Field(r, Iota))) && q.islandName == TrimSpace(FirstNonEmpty(Field(r, AppIslandName), Field(r, OldIslandName)))
      && q.contestId == ContestOf(x, r, q.time) && q.unscored == (Field(r, AppUnscored) == "Y" || Field(r, OldUnscored) == "Y")
  {
    hide Spell, Field, TrimSpace, ToUpper, Says, SaysUpper, SaysPark, SaysContest, SaysFirstOf, FirstNonEmpty, PotaReference, ContestOf;
    SpelledAppParkName();
    SpelledOldParkName();
    SpelledAppIslandName();
    SpelledOldIslandName();
    SpelledAppUnscored();
    SpelledOldUnscored();
    SpelledIota();
    ParkMeans(r, q.potaRef);
    ContestMeans(x, r, q.time, q.contestId);
    FirstIs(r, AppParkName, OldParkName, "APP_CWLOGGER_PARK_NAME", "APP_W4GNS_LOGGER_PARK_NAME", q.parkName);
    FirstIs(r, AppIslandName, OldIslandName, "APP_CWLOGGER_ISLAND_NAME", "APP_W4GNS_LOGGER_ISLAND_NAME", q.islandName);
    UpperIs(r, Iota, "IOTA", q.iotaRef);
    FlagIs(r, AppUnscored, "APP_CWLOGGER_UNSCORED");
    FlagIs(r, OldUnscored, "APP_W4GNS_LOGGER_UNSCORED");
  }

  lemma SpelledStx()
    ensures Spell(Stx) == "STX" && Spell(StxString) == "STX_STRING"
  {
  }

  lemma SpelledSrx()
    ensures Spell(Srx) == "SRX" && Spell(SrxString) == "SRX_STRING"
  {
  }

  lemma ExchangeMeans(r: Record, q: Qso)
    ensures SaysExchange(r, q) <==>
      && q.stx == TrimSpace(Field(r, Stx)) && q.stxString == TrimSpace(Field(r, StxString)) && q.srx == TrimSpace(Field(r, Srx))
      && q.srxString == Field(r, SrxString) && q.exchange == q.srxString
  {
    hide Spell, Field, TrimSpace, Says, SaysTrimmed;
    SpelledStx();
    SpelledSrx();
    TrimmedField(r, Stx, "STX");
    TrimmedField(r, StxString, "STX_STRING");
    TrimmedField(r, Srx, "SRX");
    RawField(r, SrxString, "SRX_STRING");
  }

  lemma SpelledMyNameIntl()
    ensures Spell(MyNameIntl) == "MY_NAME_INTL" && Spell(MyName) == "MY_NAME"
  {
  }

  lemma SpelledOperatorIntl()
    ensures Spell(OperatorIntl) == "OPERATOR_INTL" && Spell(OperatorName) == "OPERATOR"
  {
  }

  lemma OperatorMeans(r: Record, name: string)
    ensures SaysOperator(r, name)
        <==> name == TrimSpace(FirstNonEmpty(FirstNonEmpty(Field(r, MyNameIntl), Field(r, MyName)), FirstNonEmpty(Field(r, OperatorIntl), Field(r, OperatorName))))
  {
    hide Spell, Field, TrimSpace, SaysEither, FirstNonEmpty;
    SpelledMyNameIntl();
    SpelledOperatorIntl();
    FirstField(r, MyNameIntl, MyName, "MY_NAME_INTL", "MY_NAME");
    FirstField(r, OperatorIntl, OperatorName, "OPERATOR_INTL", "OPERATOR");
    FirstTwice(FirstNonEmpty(Field(r, MyNameIntl), Field(r, MyName)), Field(r, OperatorIntl), Field(r, OperatorName));
    assert SaysEither(r, "MY_NAME_INTL", "MY_NAME", FirstNonEmpty(Field(r, MyNameIntl), Field(r, MyName)))
      && SaysEither(r, "OPERATOR_INTL", "OPERATOR", FirstNonEmpty(Field(r, OperatorIntl), Field(r, OperatorName)));
  }

  lemma FirstTwice(a: string, b: string, c: string)
    ensures FirstNonEmpty(a, FirstNonEmpty(b, c)) == if TrimSpace(a) != "" then a else FirstNonEmpty(b, c)
  {
    assert TrimSpace("") == "";
  }

  lemma SpelledMyGridsquare()
    ensures Spell(MyGridsquare) == "MY_GRIDSQUARE" && Spell(MyGridsquareExt) == "MY_GRIDSQUARE_EXT"
  {
  }

  lemma SpelledMyIota()
    ensures Spell(MyIota) == "MY_IOTA" && Spell(StationCallsign) == "STATION_CALLSIGN"
  {
  }

  lemma SpelledMyRigIntl()
    ensures Spell(MyRigIntl) == "MY_RIG_INTL" && Spell(MyRig) == "MY_RIG"
  {
  }

  lemma SpelledMyAntennaIntl()
    ensures Spell(MyAntennaIntl) == "MY_ANTENNA_INTL" && Spell(MyAntenna) == "MY_ANTENNA"
  {
  }

  lemma SpelledTxPwr()
    ensures Spell(TxPwr) == "TX_PWR"
  {
  }

  lemma StationMeans(r: Record, q: Qso)
    ensures SaysStation(r, q) <==>
      && q.myGrid == TrimSpace(Field(r, MyGridsquare)) + TrimSpace(Field(r, MyGridsquareExt)) && q.myIotaRef == ToUpper(TrimSpace(Field(r, MyIota)))
      && q.stationCallsign == ToUpper(TrimSpace(Field(r, StationCallsign)))
      && q.operatorName == TrimSpace(FirstNonEmpty(FirstNonEmpty(Field(r, MyNameIntl), Field(r, MyName)), FirstNonEmpty(Field(r, OperatorIntl), Field(r, OperatorName))))
      && q.myRig == TrimSpace(FirstNonEmpty(Field(r, MyRigIntl), Field(r, MyRig)))
      && q.myAntenna == TrimSpace(FirstNonEmpty(Field(r, MyAntennaIntl), Field(r, MyAntenna))) && q.txPower == TrimSpace(Field(r, TxPwr))
  {
    hide Spell, Field, TrimSpace, ToUpper, SaysUpper, SaysTrimmed, SaysJoined, SaysFirstOf, SaysOperator, FirstNonEmpty;
    SpelledMyGridsquare();
    SpelledMyIota();
    SpelledMyRigIntl();
    SpelledMyAntennaIntl();
    SpelledTxPwr();
    JoinedIs(r, MyGridsquare, MyGridsquareExt, "MY_GRIDSQUARE", "MY_GRIDSQUARE_EXT", q.myGrid);
    UpperIs(r, MyIota, "MY_IOTA", q.myIotaRef);
    UpperIs(r, StationCallsign, "STATION_CALLSIGN", q.stationCallsign);
    OperatorMeans(r, q.operatorName);
    FirstIs(r, MyRigIntl, MyRig, "MY_RIG_INTL", "MY_RIG", q.myRig);
    FirstIs(r, MyAntennaIntl, MyAntenna, "MY_ANTENNA_INTL", "MY_ANTENNA", q.myAntenna);
    TrimmedIs(r, TxPwr, "TX_PWR", q.txPower);
  }

  /** A record is imported exactly when it describes a CW contact with a call, a band and a start time, and then as the
      contact it describes. */
  lemma RecordMeans(x: Env, r: Record, profile: int, q: Qso)
    ensures QsoFromAdi(x, r, profile) == Some(q) <==> Describes(x, r, profile, q)
  {
    hide Spell, Field, TrimSpace, ToUpper, FirstNonEmpty, StartOf, EndOf, ContestOf, PotaReference,
      SaysCall, SaysPlace, SaysAwards, SaysExchange, SaysStation;
    CallMeans(r, q);
    PlaceMeans(r, q);
    AwardsMean(x, r, q);
    ExchangeMeans(r, q);
    StationMeans(r, q);
  }
}
