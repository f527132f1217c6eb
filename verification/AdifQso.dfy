/** Contacts as ADIF records: what the exporter writes for a contact and what the
    importer makes of a record. */
module AdifQso {
  import opened Text
  import opened Clock
  import opened Adif
  import opened AdifFields

  datatype Qso = Qso(
    call: string, band: string, mode: string, rstSent: string, rstRcvd: string, exchange: string, frequency: string,
    name: string, qth: string, grid: string, state: string, county: string, country: string, cqZone: string, ituZone: string,
    dxccNumber: string, email: string, comment: string, potaRef: string, parkName: string, iotaRef: string, islandName: string,
    contestId: string, stx: string, stxString: string, srx: string, srxString: string, time: Civil, timeOff: Civil,
    profile: int, unscored: bool, myGrid: string, myIotaRef: string, stationCallsign: string, operatorName: string,
    myRig: string, myAntenna: string, txPower: string)

  /** `contests` maps event IDs to ADIF contest IDs, longest event ID first; `imported`
      stands for the catalogue's reading of an ADIF contest ID. */
  datatype Env = Env(contests: seq<(string, string)>, imported: (string, Civil) -> string)

  /** The catalogue refuses blank event IDs. */
  predicate Loaded(x: Env) { forall i :: 0 <= i < |x.contests| ==> x.contests[i].0 != "" }

  // ---------- Values as written ----------

  predicate IsAscii(s: string) { forall i :: 0 <= i < |s| ==> s[i] as int <= 127 }

  /** Common Latin letters with diacritics, by the plain letter they become. */
  function PlainLetter(c: char): char {
    if c in "\U{00e1}\U{00e0}\U{00e2}\U{00e4}\U{00e3}\U{00e5}\U{0101}\U{0103}\U{0105}" then 'a'
    else if c in "\U{00c1}\U{00c0}\U{00c2}\U{00c4}\U{00c3}\U{00c5}\U{0100}\U{0102}\U{0104}" then 'A'
    else if c in "\U{00e9}\U{00e8}\U{00ea}\U{00eb}\U{0113}\U{0115}\U{0119}" then 'e'
    else if c in "\U{00c9}\U{00c8}\U{00ca}\U{00cb}\U{0112}\U{0114}\U{0118}" then 'E'
    else if c in "\U{00ed}\U{00ec}\U{00ee}\U{00ef}\U{012b}" then 'i'
    else if c in "\U{00cd}\U{00cc}\U{00ce}\U{00cf}\U{012a}" then 'I'
    else if c in "\U{00f3}\U{00f2}\U{00f4}\U{00f6}\U{00f5}\U{00f8}\U{014d}" then 'o'
    else if c in "\U{00d3}\U{00d2}\U{00d4}\U{00d6}\U{00d5}\U{00d8}\U{014c}" then 'O'
    else if c in "\U{00fa}\U{00f9}\U{00fb}\U{00fc}\U{016b}" then 'u'
    else if c in "\U{00da}\U{00d9}\U{00db}\U{00dc}\U{016a}" then 'U'
    else if c in "\U{00fd}\U{00ff}" then 'y'
    else if c == '\U{00dd}' then 'Y'
    else if c == '\U{00f1}' then 'n'
    else if c == '\U{00d1}' then 'N'
    else if c in "\U{00e7}\U{0107}\U{010d}" then 'c'
    else if c in "\U{00c7}\U{0106}\U{010c}" then 'C'
    else if c in "\U{00df}\U{015b}\U{0161}" then 's'
    else if c in "\U{015a}\U{0160}" then 'S'
    else if c == '\U{0142}' then 'l'
    else if c == '\U{0141}' then 'L'
    else if c in "\U{017e}\U{017a}\U{017c}" then 'z'
    else if c in "\U{017d}\U{0179}\U{017b}" then 'Z'
    else if c == '\U{0111}' then 'd'
    else if c == '\U{0110}' then 'D'
    else '?'
  }

  lemma PlainLetterAscii(c: char)
    ensures PlainLetter(c) as int <= 127
  {
  }

  /** asciiField: the value with every character brought into ASCII. */
  function Ascii(s: string): (r: string)
    ensures |r| == |s| && IsAscii(r)
    ensures IsAscii(s) ==> r == s
  {
    if s == "" then ""
    else
      var c := s[|s| - 1];
      PlainLetterAscii(c);
      Ascii(s[..|s| - 1]) + [if c as int <= 127 then c else PlainLetter(c)]
  }

  /** STX and SRX are written only when they are numbers. */
  function IntegerOnly(s: string): string { if Atoi(TrimSpace(s)).Some? then TrimSpace(s) else "" }

  function GridBase(grid: string): string { if |grid| > 8 then grid[..8] else grid }

  function GridExtension(grid: string): string { if |grid| > 8 then grid[8..] else "" }

  function AdifBool(b: bool): string { if b then "Y" else "N" }

  function PotaSignal(reference: string): string { if TrimSpace(reference) == "" then "" else "POTA" }

  function AdifContestId(contests: seq<(string, string)>, id: string): string {
    FirstContest(contests, id[..IndexOf(id, '@')], id)
  }

  function FirstContest(contests: seq<(string, string)>, base: string, id: string): string {
    if contests == [] then id
    else if base == contests[0].0 || contests[0].0 + "-" <= base then contests[0].1
    else FirstContest(contests[1..], base, id)
  }

  /** The value written for a field, before the last ASCII pass. */
  function ValueOf(x: Env, q: Qso, id: FieldId): string {
    match id
    case Call => q.call
    case QsoDate => DateText(q.time)
    case TimeOn => TimeText(q.time)
    case QsoDateOff => DateText(q.timeOff)
    case TimeOff => TimeText(q.timeOff)
    case Band => q.band
    case Freq => q.frequency
    case Mode => q.mode
    case RstSent => q.rstSent
    case RstRcvd => q.rstRcvd
    case PersonName => Ascii(q.name)
    case Qth => Ascii(q.qth)
    case Gridsquare => GridBase(q.grid)
    case GridsquareExt => GridExtension(q.grid)
    case State => q.state
    case Cnty => Ascii(q.county)
    case Email => q.email
    case Country => q.country
    case Dxcc => q.dxccNumber
    case Cqz => q.cqZone
    case Ituz => q.ituZone
    case Sig => PotaSignal(q.potaRef)
    case SigInfo => Ascii(q.potaRef)
    case PotaRef => q.potaRef
    case Iota => q.iotaRef
    case Comment => Ascii(q.comment)
    case ContestId => AdifContestId(x.contests, q.contestId)
    case Stx => IntegerOnly(q.stx)
    case StxString => q.stxString
    case AppContestId => q.contestId
    case AppParkName => Ascii(q.parkName)
    case AppIslandName => Ascii(q.islandName)
    case AppUnscored => AdifBool(q.unscored)
    case Srx => IntegerOnly(q.srx)
    case SrxString => q.srxString
    case MyGridsquare => GridBase(q.myGrid)
    case MyGridsquareExt => GridExtension(q.myGrid)
    case StationCallsign => q.stationCallsign
    case MyName => Ascii(q.operatorName)
    case MyIota => q.myIotaRef
    case MyRig => Ascii(q.myRig)
    case MyAntenna => Ascii(q.myAntenna)
    case TxPwr => q.txPower
    case _ => ""
  }

  predicate Blank(s: string) { TrimSpace(s) == "" }

  /** What a field holds once written: nothing when its value is blank. */
  function Shown(x: Env, q: Qso, id: FieldId): string {
    if Blank(ValueOf(x, q, id)) then "" else Ascii(ValueOf(x, q, id))
  }

  // ---------- Printing ----------

  /** One field, or nothing when its value is blank. */
  function FieldPart(x: Env, q: Qso, id: FieldId): string {
    if Blank(ValueOf(x, q, id)) then "" else FieldText(Spell(id), Shown(x, q, id))
  }

  /** The first `n` fields. */
  function FieldsText(x: Env, q: Qso, n: nat): string
    requires n <= WRITTEN
  {
    if n == 0 then "" else FieldsText(x, q, n - 1) + FieldPart(x, q, FieldAt(n - 1))
  }

  function RecordText(x: Env, q: Qso): string { FieldsText(x, q, WRITTEN) + "<EOR>\n" }

  function HeaderText(): string {
    "CW Logger ADIF export\n" + FieldText("ADIF_VER", "3.1.7") + FieldText("PROGRAMID", "CW Logger") + "<EOH>\n"
  }

  function RecordsText(x: Env, qsos: seq<Qso>): string {
    if qsos == [] then "" else RecordsText(x, qsos[..|qsos| - 1]) + RecordText(x, qsos[|qsos| - 1])
  }

  /** The whole exported file. */
  function FileText(x: Env, qsos: seq<Qso>): string { HeaderText() + RecordsText(x, qsos) }

  /** exportADIF: streams the header, then every contact's fields and end tag. */
  method ExportAdif(x: Env, qsos: seq<Qso>) returns (out: string, count: nat)
    ensures out == FileText(x, qsos) && count == |qsos|
  {
    hide FieldsText, HeaderText;
    var header := HeaderText();
    var records := "";
    for i := 0 to |qsos|
      invariant records == RecordsText(x, qsos[..i])
    {
      assert qsos[..i + 1][..i] == qsos[..i];
      var fields := WriteFields(x, qsos[i]);
      records := records + (fields + "<EOR>\n");
    }
    assert qsos[..|qsos|] == qsos;
    return header + records, |qsos|;
  }

  method WriteFields(x: Env, q: Qso) returns (out: string)
    ensures out == FieldsText(x, q, WRITTEN)
  {
    hide FieldPart;
    out := "";
    for n := 0 to WRITTEN
      invariant out == FieldsText(x, q, n)
    {
      var part := WriteField(x, q, FieldAt(n));
      out := out + part;
    }
  }

  method WriteField(x: Env, q: Qso, id: FieldId) returns (out: string)
    ensures out == FieldPart(x, q, id)
  {
    var value := ValueOf(x, q, id);
    hide ValueOf, Spell, Ascii, TrimSpace, FieldText;
    if TrimSpace(value) == "" { return ""; }
    out := FieldText(Spell(id), Ascii(value));
  }

  // ---------- Reading back ----------

  function Field(r: Record, id: FieldId): string { if Spell(id) in r then r[Spell(id)] else "" }

  function PotaReference(r: Record): string {
    if !Blank(Field(r, PotaRef)) then TrimSpace(Field(r, PotaRef))
    else if !EqualFold(TrimSpace(Field(r, Sig)), "POTA") then ""
    else TrimSpace(FirstNonEmpty(Field(r, SigInfoIntl), Field(r, SigInfo)))
  }

  /** HHMM or HHMMSS, completed to seconds. */
  function WithSeconds(time: string): string { if |time| == 4 then time + "00" else time }

  function StartOf(r: Record): Option<Civil> {
    var date, time := TrimSpace(Field(r, QsoDate)), TrimSpace(Field(r, TimeOn));
    if |date| != 8 || (|time| != 4 && |time| != 6) then None else ParseStamp(date + WithSeconds(time))
  }

  function EndOf(r: Record, start: Civil): Civil {
    var dateOff, time := TrimSpace(Field(r, QsoDateOff)), TrimSpace(Field(r, TimeOff));
    var date := if dateOff == "" then TrimSpace(Field(r, QsoDate)) else dateOff;
    if |date| != 8 || (|time| != 4 && |time| != 6) then start
    else
      match ParseStamp(date + WithSeconds(time))
      case None => start
      case Some(t) =>
        var end := if dateOff == "" && Before(t, start) then NextDay(t) else t;
        if Before(end, start) then start else end
  }

  /** importedContestID: a blank ID stays blank. */
  function ImportedContest(x: Env, id: string, at: Civil): string { if id == "" then "" else x.imported(id, at) }

  function ContestOf(x: Env, r: Record, start: Civil): string {
    var own := TrimSpace(FirstNonEmpty(Field(r, AppContestId), Field(r, OldContestId)));
    if own != "" then own else ImportedContest(x, TrimSpace(Field(r, ContestId)), start)
  }

  /** qsoFromADI. */
  function QsoFromAdi(x: Env, r: Record, profile: int): Option<Qso> {
    var band := ToUpper(TrimSpace(Field(r, Band)));
    var start := StartOf(r);
    if !EqualFold(TrimSpace(Field(r, Mode)), "CW") || Blank(Field(r, Call)) || start.None? || band == "" then None
    else
      Some(Qso(
        ToUpper(TrimSpace(Field(r, Call))), band, "CW", Field(r, RstSent), Field(r, RstRcvd), Field(r, SrxString), TrimSpace(Field(r, Freq)),
        TrimSpace(FirstNonEmpty(Field(r, NameIntl), Field(r, PersonName))), TrimSpace(FirstNonEmpty(Field(r, QthIntl), Field(r, Qth))),
        TrimSpace(Field(r, Gridsquare)) + TrimSpace(Field(r, GridsquareExt)), TrimSpace(Field(r, State)), TrimSpace(Field(r, Cnty)), TrimSpace(Field(r, Country)),
        TrimSpace(Field(r, Cqz)), TrimSpace(Field(r, Ituz)), TrimSpace(Field(r, Dxcc)), TrimSpace(Field(r, Email)),
        TrimSpace(FirstNonEmpty(Field(r, CommentIntl), Field(r, Comment))), PotaReference(r),
        TrimSpace(FirstNonEmpty(Field(r, AppParkName), Field(r, OldParkName))), ToUpper(TrimSpace(Field(r, Iota))),
        TrimSpace(FirstNonEmpty(Field(r, AppIslandName), Field(r, OldIslandName))), ContestOf(x, r, start.value),
        TrimSpace(Field(r, Stx)), TrimSpace(Field(r, StxString)), TrimSpace(Field(r, Srx)), Field(r, SrxString), start.value, EndOf(r, start.value),
        profile, Field(r, AppUnscored) == "Y" || Field(r, OldUnscored) == "Y",
        TrimSpace(Field(r, MyGridsquare)) + TrimSpace(Field(r, MyGridsquareExt)), ToUpper(TrimSpace(Field(r, MyIota))),
        ToUpper(TrimSpace(Field(r, StationCallsign))),
        TrimSpace(FirstNonEmpty(FirstNonEmpty(Field(r, MyNameIntl), Field(r, MyName)), FirstNonEmpty(Field(r, OperatorIntl), Field(r, OperatorName)))),
        TrimSpace(FirstNonEmpty(Field(r, MyRigIntl), Field(r, MyRig))), TrimSpace(FirstNonEmpty(Field(r, MyAntennaIntl), Field(r, MyAntenna))),
        TrimSpace(Field(r, TxPwr))))
  }
}
