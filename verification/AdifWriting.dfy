/** What an exported record says under every name, told from the contact. */
module AdifWriting {
  import opened Text
  import opened Clock
  import opened Adif
  import opened AdifFields
  import opened AdifQso
  import opened AdifRoundTrip
  import opened RecordFields

  /** The record says the value in ASCII, or nothing when it is blank. */
  ghost predicate Writes(r: Record, name: string, value: string) {
    Says(r, name, if TrimSpace(value) == "" then "" else Ascii(value))
  }

  /** A value is written character by character: ASCII as it is, any other character by its plain letter. */
  lemma {:induction false} AsciiMeans(s: string, i: nat)
    requires i < |s|
    ensures Ascii(s)[i] == if s[i] as int <= 127 then s[i] else PlainLetter(s[i])
  {
    hide PlainLetter;
    if i < |s| - 1 { AsciiMeans(s[..|s| - 1], i); }
  }

  lemma WritesField(x: Env, q: Qso, id: FieldId, name: string, value: string)
    requires Spell(id) == name && ValueOf(x, q, id) == value
    ensures Writes(RecordOf(x, q), name, value)
  {
    FieldBack(x, q, id);
    hide RecordOf, Ascii, TrimSpace, ValueOf, Spell;
  }

  /** Who was worked, on what and with which reports. */
  ghost predicate WritesCall(r: Record, q: Qso) {
    && Writes(r, "CALL", q.call)
    && Writes(r, "BAND", q.band)
    && Writes(r, "FREQ", q.frequency)
    && Writes(r, "MODE", q.mode)
    && Writes(r, "RST_SENT", q.rstSent)
    && Writes(r, "RST_RCVD", q.rstRcvd)
  }

  lemma CallNamesA(x: Env, q: Qso)
    ensures Spell(Call) == "CALL" && Spell(Band) == "BAND"
    ensures ValueOf(x, q, Call) == q.call && ValueOf(x, q, Band) == q.band
  {
    hide Ascii, TrimSpace, Atoi, DateText, TimeText;
  }

  lemma CallNamesB(x: Env, q: Qso)
    ensures Spell(Freq) == "FREQ" && Spell(Mode) == "MODE"
    ensures ValueOf(x, q, Freq) == q.frequency && ValueOf(x, q, Mode) == q.mode
  {
    hide Ascii, TrimSpace, Atoi, DateText, TimeText;
  }

  lemma CallNamesC(x: Env, q: Qso)
    ensures Spell(RstSent) == "RST_SENT" && Spell(RstRcvd) == "RST_RCVD"
    ensures ValueOf(x, q, RstSent) == q.rstSent && ValueOf(x, q, RstRcvd) == q.rstRcvd
  {
    hide Ascii, TrimSpace, Atoi, DateText, TimeText;
  }

  lemma CallWritten(x: Env, q: Qso)
    ensures WritesCall(RecordOf(x, q), q)
  {
    hide Writes, RecordOf, ValueOf, Spell, Ascii, TrimSpace, Atoi, DateText, TimeText;
    CallNamesA(x, q);
    CallNamesB(x, q);
    CallNamesC(x, q);
    WritesField(x, q, Call, "CALL", q.call);
    WritesField(x, q, Band, "BAND", q.band);
    WritesField(x, q, Freq, "FREQ", q.frequency);
    WritesField(x, q, Mode, "MODE", q.mode);
    WritesField(x, q, RstSent, "RST_SENT", q.rstSent);
    WritesField(x, q, RstRcvd, "RST_RCVD", q.rstRcvd);
  }

  /** Start and end, dates of eight digits and times of six. */
  ghost predicate WritesTimes(r: Record, q: Qso) {
    && Writes(r, "QSO_DATE", DateText(q.time))
    && Writes(r, "TIME_ON", TimeText(q.time))
    && Writes(r, "QSO_DATE_OFF", DateText(q.timeOff))
    && Writes(r, "TIME_OFF", TimeText(q.timeOff))
  }

  lemma TimesNamesA(x: Env, q: Qso)
    ensures Spell(QsoDate) == "QSO_DATE" && Spell(TimeOn) == "TIME_ON"
    ensures ValueOf(x, q, QsoDate) == DateText(q.time) && ValueOf(x, q, TimeOn) == TimeText(q.time)
  {
    hide Ascii, TrimSpace, Atoi, DateText, TimeText;
  }

  lemma TimesNamesB(x: Env, q: Qso)
    ensures Spell(QsoDateOff) == "QSO_DATE_OFF" && Spell(TimeOff) == "TIME_OFF"
    ensures ValueOf(x, q, QsoDateOff) == DateText(q.timeOff) && ValueOf(x, q, TimeOff) == TimeText(q.timeOff)
  {
    hide Ascii, TrimSpace, Atoi, DateText, TimeText;
  }

  lemma TimesWritten(x: Env, q: Qso)
    ensures WritesTimes(RecordOf(x, q), q)
  {
    hide Writes, RecordOf, ValueOf, Spell, Ascii, TrimSpace, Atoi, DateText, TimeText;
    TimesNamesA(x, q);
    TimesNamesB(x, q);
    WritesField(x, q, QsoDate, "QSO_DATE", DateText(q.time));
    WritesField(x, q, TimeOn, "TIME_ON", TimeText(q.time));
    WritesField(x, q, QsoDateOff, "QSO_DATE_OFF", DateText(q.timeOff));
    WritesField(x, q, TimeOff, "TIME_OFF", TimeText(q.timeOff));
  }

  /** The operator worked. */
  ghost predicate WritesOperator(r: Record, q: Qso) {
    && Writes(r, "NAME", Ascii(q.name))
    && Writes(r, "QTH", Ascii(q.qth))
    && Writes(r, "EMAIL", q.email)
    && Writes(r, "COMMENT", Ascii(q.comment))
  }

  lemma OperatorNamesA(x: Env, q: Qso)
    ensures Spell(PersonName) == "NAME" && Spell(Qth) == "QTH"
    ensures ValueOf(x, q, PersonName) == Ascii(q.name) && ValueOf(x, q, Qth) == Ascii(q.qth)
  {
    hide Ascii, TrimSpace, Atoi, DateText, TimeText;
  }

  lemma OperatorNamesB(x: Env, q: Qso)
    ensures Spell(Email) == "EMAIL" && Spell(Comment) == "COMMENT"
    ensures ValueOf(x, q, Email) == q.email && ValueOf(x, q, Comment) == Ascii(q.comment)
  {
    hide Ascii, TrimSpace, Atoi, DateText, TimeText;
  }

  lemma OperatorWritten(x: Env, q: Qso)
    ensures WritesOperator(RecordOf(x, q), q)
  {
    hide Writes, RecordOf, ValueOf, Spell, Ascii, TrimSpace, Atoi, DateText, TimeText;
    OperatorNamesA(x, q);
    OperatorNamesB(x, q);
    WritesField(x, q, PersonName, "NAME", Ascii(q.name));
    WritesField(x, q, Qth, "QTH", Ascii(q.qth));
    WritesField(x, q, Email, "EMAIL", q.email);
    WritesField(x, q, Comment, "COMMENT", Ascii(q.comment));
  }

  /** The place worked, a long grid in two parts. */
  ghost predicate WritesPlace(r: Record, q: Qso) {
    && Writes(r, "GRIDSQUARE", if |q.grid| > 8 then q.grid[..8] else q.grid)
    && Writes(r, "GRIDSQUARE_EXT", if |q.grid| > 8 then q.grid[8..] else "")
    && Writes(r, "STATE", q.state)
    && Writes(r, "CNTY", Ascii(q.county))
    && Writes(r, "COUNTRY", q.country)
    && Writes(r, "DXCC", q.dxccNumber)
    && Writes(r, "CQZ", q.cqZone)
    && Writes(r, "ITUZ", q.ituZone)
  }

  lemma PlaceNamesA(x: Env, q: Qso)
    ensures Spell(Gridsquare) == "GRIDSQUARE" && Spell(GridsquareExt) == "GRIDSQUARE_EXT"
    ensures ValueOf(x, q, Gridsquare) == (if |q.grid| > 8 then q.grid[..8] else q.grid)
    ensures ValueOf(x, q, GridsquareExt) == (if |q.grid| > 8 then q.grid[8..] else "")
  {
    hide Ascii, TrimSpace, Atoi, DateText, TimeText;
  }

  lemma PlaceNamesB(x: Env, q: Qso)
    ensures Spell(State) == "STATE" && Spell(Cnty) == "CNTY"
    ensures ValueOf(x, q, State) == q.state && ValueOf(x, q, Cnty) == Ascii(q.county)
  {
    hide Ascii, TrimSpace, Atoi, DateText, TimeText;
  }

  lemma PlaceNamesC(x: Env, q: Qso)
    ensures Spell(Country) == "COUNTRY" && Spell(Dxcc) == "DXCC"
    ensures ValueOf(x, q, Country) == q.country && ValueOf(x, q, Dxcc) == q.dxccNumber
  {
    hide Ascii, TrimSpace, Atoi, DateText, TimeText;
  }

  lemma PlaceNamesD(x: Env, q: Qso)
    ensures Spell(Cqz) == "CQZ" && Spell(Ituz) == "ITUZ"
    ensures ValueOf(x, q, Cqz) == q.cqZone && ValueOf(x, q, Ituz) == q.ituZone
  {
    hide Ascii, TrimSpace, Atoi, DateText, TimeText;
  }

  lemma PlaceWritten(x: Env, q: Qso)
    ensures WritesPlace(RecordOf(x, q), q)
  {
    hide Writes, RecordOf, ValueOf, Spell, Ascii, TrimSpace, Atoi, DateText, TimeText;
    PlaceNamesA(x, q);
    PlaceNamesB(x, q);
    PlaceNamesC(x, q);
    PlaceNamesD(x, q);
    WritesField(x, q, Gridsquare, "GRIDSQUARE", if |q.grid| > 8 then q.grid[..8] else q.grid);
    WritesField(x, q, GridsquareExt, "GRIDSQUARE_EXT", if |q.grid| > 8 then q.grid[8..] else "");
    WritesField(x, q, State, "STATE", q.state);
    WritesField(x, q, Cnty, "CNTY", Ascii(q.county));
    WritesField(x, q, Country, "COUNTRY", q.country);
    WritesField(x, q, Dxcc, "DXCC", q.dxccNumber);
    WritesField(x, q, Cqz, "CQZ", q.cqZone);
    WritesField(x, q, Ituz, "ITUZ", q.ituZone);
  }

  /** The park, also as an activity that other programs know. */
  ghost predicate WritesPark(r: Record, q: Qso) {
    && Writes(r, "SIG", if TrimSpace(q.potaRef) == "" then "" else "POTA")
    && Writes(r, "SIG_INFO", Ascii(q.potaRef))
    && Writes(r, "POTA_REF", q.potaRef)
    && Writes(r, "APP_CWLOGGER_PARK_NAME", Ascii(q.parkName))
  }

  lemma ParkNamesA(x: Env, q: Qso)
    ensures Spell(Sig) == "SIG" && Spell(SigInfo) == "SIG_INFO"
    ensures ValueOf(x, q, Sig) == (if TrimSpace(q.potaRef) == "" then "" else "POTA") && ValueOf(x, q, SigInfo) == Ascii(q.potaRef)
  {
    hide Ascii, TrimSpace, Atoi, DateText, TimeText;
  }

  lemma ParkNamesB(x: Env, q: Qso)
    ensures Spell(PotaRef) == "POTA_REF" && Spell(AppParkName) == "APP_CWLOGGER_PARK_NAME"
    ensures ValueOf(x, q, PotaRef) == q.potaRef && ValueOf(x, q, AppParkName) == Ascii(q.parkName)
  {
    hide Ascii, TrimSpace, Atoi, DateText, TimeText;
  }

  lemma ParkWritten(x: Env, q: Qso)
    ensures WritesPark(RecordOf(x, q), q)
  {
    hide Writes, RecordOf, ValueOf, Spell, Ascii, TrimSpace, Atoi, DateText, TimeText;
    ParkNamesA(x, q);
    ParkNamesB(x, q);
    WritesField(x, q, Sig, "SIG", if TrimSpace(q.potaRef) == "" then "" else "POTA");
    WritesField(x, q, SigInfo, "SIG_INFO", Ascii(q.potaRef));
    WritesField(x, q, PotaRef, "POTA_REF", q.potaRef);
    WritesField(x, q, AppParkName, "APP_CWLOGGER_PARK_NAME", Ascii(q.parkName));
  }

  /** The island, and whether the contact counts. */
  ghost predicate WritesIsland(r: Record, q: Qso) {
    && Writes(r, "IOTA", q.iotaRef)
    && Writes(r, "APP_CWLOGGER_ISLAND_NAME", Ascii(q.islandName))
    && Writes(r, "APP_CWLOGGER_UNSCORED", if q.unscored then "Y" else "N")
  }

  lemma IslandNamesA(x: Env, q: Qso)
    ensures Spell(Iota) == "IOTA" && Spell(AppIslandName) == "APP_CWLOGGER_ISLAND_NAME"
    ensures ValueOf(x, q, Iota) == q.iotaRef && ValueOf(x, q, AppIslandName) == Ascii(q.islandName)
  {
    hide Ascii, TrimSpace, Atoi, DateText, TimeText;
  }

  lemma IslandNamesB(x: Env, q: Qso)
    ensures Spell(AppUnscored) == "APP_CWLOGGER_UNSCORED"
    ensures ValueOf(x, q, AppUnscored) == (if q.unscored then "Y" else "N")
  {
    hide Ascii, TrimSpace, Atoi, DateText, TimeText;
  }

  lemma IslandWritten(x: Env, q: Qso)
    ensures WritesIsland(RecordOf(x, q), q)
  {
    hide Writes, RecordOf, ValueOf, Spell, Ascii, TrimSpace, Atoi, DateText, TimeText;
    IslandNamesA(x, q);
    IslandNamesB(x, q);
    WritesField(x, q, Iota, "IOTA", q.iotaRef);
    WritesField(x, q, AppIslandName, "APP_CWLOGGER_ISLAND_NAME", Ascii(q.islandName));
    WritesField(x, q, AppUnscored, "APP_CWLOGGER_UNSCORED", if q.unscored then "Y" else "N");
  }

  /** The exchanges, serials only when they are numbers. */
  ghost predicate WritesExchange(r: Record, q: Qso) {
    && Writes(r, "STX", if Atoi(TrimSpace(q.stx)) == None then "" else TrimSpace(q.stx))
    && Writes(r, "STX_STRING", q.stxString)
    && Writes(r, "SRX", if Atoi(TrimSpace(q.srx)) == None then "" else TrimSpace(q.srx))
    && Writes(r, "SRX_STRING", q.srxString)
    && Writes(r, "APP_CWLOGGER_CONTEST_ID", q.contestId)
  }

  lemma ExchangeNamesA(x: Env, q: Qso)
    ensures Spell(Stx) == "STX" && Spell(StxString) == "STX_STRING"
    ensures ValueOf(x, q, Stx) == (if Atoi(TrimSpace(q.stx)) == None then "" else TrimSpace(q.stx)) && ValueOf(x, q, StxString) == q.stxString
  {
    hide Ascii, TrimSpace, Atoi, DateText, TimeText;
  }

  lemma ExchangeNamesB(x: Env, q: Qso)
    ensures Spell(Srx) == "SRX" && Spell(SrxString) == "SRX_STRING"
    ensures ValueOf(x, q, Srx) == (if Atoi(TrimSpace(q.srx)) == None then "" else TrimSpace(q.srx)) && ValueOf(x, q, SrxString) == q.srxString
  {
    hide Ascii, TrimSpace, Atoi, DateText, TimeText;
  }

  lemma ExchangeNamesC(x: Env, q: Qso)
    ensures Spell(AppContestId) == "APP_CWLOGGER_CONTEST_ID"
    ensures ValueOf(x, q, AppContestId) == q.contestId
  {
    hide Ascii, TrimSpace, Atoi, DateText, TimeText;
  }

  lemma ExchangeWritten(x: Env, q: Qso)
    ensures WritesExchange(RecordOf(x, q), q)
  {
    hide Writes, RecordOf, ValueOf, Spell, Ascii, TrimSpace, Atoi, DateText, TimeText;
    ExchangeNamesA(x, q);
    ExchangeNamesB(x, q);
    ExchangeNamesC(x, q);
    WritesField(x, q, Stx, "STX", if Atoi(TrimSpace(q.stx)) == None then "" else TrimSpace(q.stx));
    WritesField(x, q, StxString, "STX_STRING", q.stxString);
    WritesField(x, q, Srx, "SRX", if Atoi(TrimSpace(q.srx)) == None then "" else TrimSpace(q.srx));
    WritesField(x, q, SrxString, "SRX_STRING", q.srxString);
    WritesField(x, q, AppContestId, "APP_CWLOGGER_CONTEST_ID", q.contestId);
  }

  /** The own station. */
  ghost predicate WritesStation(r: Record, q: Qso) {
    && Writes(r, "MY_GRIDSQUARE", if |q.myGrid| > 8 then q.myGrid[..8] else q.myGrid)
    && Writes(r, "MY_GRIDSQUARE_EXT", if |q.myGrid| > 8 then q.myGrid[8..] else "")
    && Writes(r, "STATION_CALLSIGN", q.stationCallsign)
    && Writes(r, "MY_NAME", Ascii(q.operatorName))
    && Writes(r, "MY_IOTA", q.myIotaRef)
  }

  lemma StationNamesA(x: Env, q: Qso)
    ensures Spell(MyGridsquare) == "MY_GRIDSQUARE" && Spell(MyGridsquareExt) == "MY_GRIDSQUARE_EXT"
    ensures ValueOf(x, q, MyGridsquare) == (if |q.myGrid| > 8 then q.myGrid[..8] else q.myGrid)
    ensures ValueOf(x, q, MyGridsquareExt) == (if |q.myGrid| > 8 then q.myGrid[8..] else "")
  {
    hide Ascii, TrimSpace, Atoi, DateText, TimeText;
  }

  lemma StationNamesB(x: Env, q: Qso)
    ensures Spell(StationCallsign) == "STATION_CALLSIGN" && Spell(MyName) == "MY_NAME"
    ensures ValueOf(x, q, StationCallsign) == q.stationCallsign && ValueOf(x, q, MyName) == Ascii(q.operatorName)
  {
    hide Ascii, TrimSpace, Atoi, DateText, TimeText;
  }

  lemma StationNamesC(x: Env, q: Qso)
    ensures Spell(MyIota) == "MY_IOTA"
    ensures ValueOf(x, q, MyIota) == q.myIotaRef
  {
    hide Ascii, TrimSpace, Atoi, DateText, TimeText;
  }

  lemma StationWritten(x: Env, q: Qso)
    ensures WritesStation(RecordOf(x, q), q)
  {
    hide Writes, RecordOf, ValueOf, Spell, Ascii, TrimSpace, Atoi, DateText, TimeText;
    StationNamesA(x, q);
    StationNamesB(x, q);
    StationNamesC(x, q);
    WritesField(x, q, MyGridsquare, "MY_GRIDSQUARE", if |q.myGrid| > 8 then q.myGrid[..8] else q.myGrid);
    WritesField(x, q, MyGridsquareExt, "MY_GRIDSQUARE_EXT", if |q.myGrid| > 8 then q.myGrid[8..] else "");
    WritesField(x, q, StationCallsign, "STATION_CALLSIGN", q.stationCallsign);
    WritesField(x, q, MyName, "MY_NAME", Ascii(q.operatorName));
    WritesField(x, q, MyIota, "MY_IOTA", q.myIotaRef);
  }

  /** The own equipment. */
  ghost predicate WritesGear(r: Record, q: Qso) {
    && Writes(r, "MY_RIG", Ascii(q.myRig))
    && Writes(r, "MY_ANTENNA", Ascii(q.myAntenna))
    && Writes(r, "TX_PWR", q.txPower)
  }

  lemma GearNamesA(x: Env, q: Qso)
    ensures Spell(MyRig) == "MY_RIG" && Spell(MyAntenna) == "MY_ANTENNA"
    ensures ValueOf(x, q, MyRig) == Ascii(q.myRig) && ValueOf(x, q, MyAntenna) == Ascii(q.myAntenna)
  {
    hide Ascii, TrimSpace, Atoi, DateText, TimeText;
  }

  lemma GearNamesB(x: Env, q: Qso)
    ensures Spell(TxPwr) == "TX_PWR"
    ensures ValueOf(x, q, TxPwr) == q.txPower
  {
    hide Ascii, TrimSpace, Atoi, DateText, TimeText;
  }

  lemma GearWritten(x: Env, q: Qso)
    ensures WritesGear(RecordOf(x, q), q)
  {
    hide Writes, RecordOf, ValueOf, Spell, Ascii, TrimSpace, Atoi, DateText, TimeText;
    GearNamesA(x, q);
    GearNamesB(x, q);
    WritesField(x, q, MyRig, "MY_RIG", Ascii(q.myRig));
    WritesField(x, q, MyAntenna, "MY_ANTENNA", Ascii(q.myAntenna));
    WritesField(x, q, TxPwr, "TX_PWR", q.txPower);
  }

  /** The contest under its ADIF name: that of the first event of the catalogue whose ID is the contact's up to an "@",
      or starts it before a hyphen; the contact's own when there is none. */
  ghost predicate WritesContest(x: Env, r: Record, q: Qso) {
    var base := q.contestId[..IndexOf(q.contestId, '@')];
    && (forall i :: FirstEvent(x.contests, base, i) ==> Writes(r, "CONTEST_ID", x.contests[i].1))
    && ((forall i :: 0 <= i < |x.contests| ==> !NamesEvent(x.contests[i].0, base)) ==> Writes(r, "CONTEST_ID", q.contestId))
  }

  ghost predicate NamesEvent(id: string, base: string) { base == id || id + "-" <= base }

  ghost predicate FirstEvent(contests: seq<(string, string)>, base: string, i: int) {
    0 <= i < |contests| && NamesEvent(contests[i].0, base) && forall j :: 0 <= j < i ==> !NamesEvent(contests[j].0, base)
  }

  lemma {:induction false} FirstEventIs(contests: seq<(string, string)>, base: string, id: string)
    ensures forall i :: FirstEvent(contests, base, i) ==> FirstContest(contests, base, id) == contests[i].1
    ensures (forall i :: 0 <= i < |contests| ==> !NamesEvent(contests[i].0, base)) ==> FirstContest(contests, base, id) == id
  {
    hide NamesEvent;
    if contests != [] {
      NamesMeans(contests[0].0, base);
      FirstEventIs(contests[1..], base, id);
      forall i | FirstEvent(contests, base, i) ensures FirstContest(contests, base, id) == contests[i].1 {
        if i > 0 { assert FirstEvent(contests[1..], base, i - 1); }
      }
      assert forall i :: 0 <= i < |contests[1..]| ==> contests[1..][i] == contests[i + 1];
    }
  }

  lemma NamesMeans(id: string, base: string)
    ensures NamesEvent(id, base) <==> base == id || id + "-" <= base
  {
  }

  lemma ContestName(x: Env, q: Qso)
    ensures Spell(ContestId) == "CONTEST_ID"
    ensures ValueOf(x, q, ContestId) == FirstContest(x.contests, q.contestId[..IndexOf(q.contestId, '@')], q.contestId)
  {
    hide IndexOf, FirstContest;
  }

  lemma ContestWritten(x: Env, q: Qso)
    ensures WritesContest(x, RecordOf(x, q), q)
  {
    hide Writes, RecordOf, ValueOf, Spell, IndexOf, FirstContest, NamesEvent, FirstEvent;
    var base := q.contestId[..IndexOf(q.contestId, '@')];
    ContestName(x, q);
    FirstEventIs(x.contests, base, q.contestId);
    WritesField(x, q, ContestId, "CONTEST_ID", FirstContest(x.contests, base, q.contestId));
    forall i | FirstEvent(x.contests, base, i) ensures 0 <= i < |x.contests| { EventPlace(x.contests, base, i); }
  }

  lemma EventPlace(contests: seq<(string, string)>, base: string, i: int)
    requires FirstEvent(contests, base, i)
    ensures 0 <= i < |contests|
  {
  }

  /** An exported record says of its contact: the value of every part under its own name. */
  lemma ExportSays(x: Env, q: Qso)
    ensures var r := RecordOf(x, q);
      && WritesCall(r, q)
      && WritesTimes(r, q)
      && WritesOperator(r, q)
      && WritesPlace(r, q)
      && WritesPark(r, q)
      && WritesIsland(r, q)
      && WritesExchange(r, q)
      && WritesStation(r, q)
      && WritesGear(r, q)
      && WritesContest(x, r, q)
  {
    hide *;
    CallWritten(x, q);
    TimesWritten(x, q);
    OperatorWritten(x, q);
    PlaceWritten(x, q);
    ParkWritten(x, q);
    IslandWritten(x, q);
    ExchangeWritten(x, q);
    StationWritten(x, q);
    GearWritten(x, q);
    ContestWritten(x, q);
  }
}
