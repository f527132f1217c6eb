/** The names of the ADIF fields this program writes or reads. */
module AdifFields {
  import opened Adif

  datatype FieldId =
    | Call | QsoDate | TimeOn | QsoDateOff | TimeOff | Band | Freq | Mode | RstSent | RstRcvd | PersonName
    | Qth | Gridsquare | GridsquareExt | State | Cnty | Email | Country | Dxcc | Cqz | Ituz | Sig | SigInfo
    | PotaRef | Iota | Comment | ContestId | Stx | StxString | AppContestId | AppParkName | AppIslandName
    | AppUnscored | Srx | SrxString | MyGridsquare | MyGridsquareExt | StationCallsign | MyName | MyIota
    | MyRig | MyAntenna | TxPwr | OldContestId | NameIntl | QthIntl | CommentIntl | OldParkName
    | OldIslandName | OldUnscored | SigInfoIntl | MyNameIntl | OperatorIntl | OperatorName | MyRigIntl
    | MyAntennaIntl

  /** How many fields are written. */
  const WRITTEN := 43

  /** Written fields in export order, then the fields that are only read. */
  function Place(id: FieldId): (n: nat)
    ensures n < 56
  {
    match id
    case Call => 0
    case QsoDate => 1
    case TimeOn => 2
    case QsoDateOff => 3
    case TimeOff => 4
    case Band => 5
    case Freq => 6
    case Mode => 7
    case RstSent => 8
    case RstRcvd => 9
    case PersonName => 10
    case Qth => 11
    case Gridsquare => 12
    case GridsquareExt => 13
    case State => 14
    case Cnty => 15
    case Email => 16
    case Country => 17
    case Dxcc => 18
    case Cqz => 19
    case Ituz => 20
    case Sig => 21
    case SigInfo => 22
    case PotaRef => 23
    case Iota => 24
    case Comment => 25
    case ContestId => 26
    case Stx => 27
    case StxString => 28
    case AppContestId => 29
    case AppParkName => 30
    case AppIslandName => 31
    case AppUnscored => 32
    case Srx => 33
    case SrxString => 34
    case MyGridsquare => 35
    case MyGridsquareExt => 36
    case StationCallsign => 37
    case MyName => 38
    case MyIota => 39
    case MyRig => 40
    case MyAntenna => 41
    case TxPwr => 42
    case OldContestId => 43
    case NameIntl => 44
    case QthIntl => 45
    case CommentIntl => 46
    case OldParkName => 47
    case OldIslandName => 48
    case OldUnscored => 49
    case SigInfoIntl => 50
    case MyNameIntl => 51
    case OperatorIntl => 52
    case OperatorName => 53
    case MyRigIntl => 54
    case MyAntennaIntl => 55
  }

  function FieldAt(n: nat): FieldId
    requires n < WRITTEN
  {
    match n
    case 0 => Call
    case 1 => QsoDate
    case 2 => TimeOn
    case 3 => QsoDateOff
    case 4 => TimeOff
    case 5 => Band
    case 6 => Freq
    case 7 => Mode
    case 8 => RstSent
    case 9 => RstRcvd
    case 10 => PersonName
    case 11 => Qth
    case 12 => Gridsquare
    case 13 => GridsquareExt
    case 14 => State
    case 15 => Cnty
    case 16 => Email
    case 17 => Country
    case 18 => Dxcc
    case 19 => Cqz
    case 20 => Ituz
    case 21 => Sig
    case 22 => SigInfo
    case 23 => PotaRef
    case 24 => Iota
    case 25 => Comment
    case 26 => ContestId
    case 27 => Stx
    case 28 => StxString
    case 29 => AppContestId
    case 30 => AppParkName
    case 31 => AppIslandName
    case 32 => AppUnscored
    case 33 => Srx
    case 34 => SrxString
    case 35 => MyGridsquare
    case 36 => MyGridsquareExt
    case 37 => StationCallsign
    case 38 => MyName
    case 39 => MyIota
    case 40 => MyRig
    case 41 => MyAntenna
    case _ => TxPwr
  }

  /** How a field is spelled in a file; this program's own fields carry its name, or the one before it was renamed. */
  function Spell(id: FieldId): string {
    match id
    case Call => "CALL"
    case QsoDate => "QSO_DATE"
    case TimeOn => "TIME_ON"
    case QsoDateOff => "QSO_DATE_OFF"
    case TimeOff => "TIME_OFF"
    case Band => "BAND"
    case Freq => "FREQ"
    case Mode => "MODE"
    case RstSent => "RST_SENT"
    case RstRcvd => "RST_RCVD"
    case PersonName => "NAME"
    case Qth => "QTH"
    case Gridsquare => "GRIDSQUARE"
    case GridsquareExt => "GRIDSQUARE_EXT"
    case State => "STATE"
    case Cnty => "CNTY"
    case Email => "EMAIL"
    case Country => "COUNTRY"
    case Dxcc => "DXCC"
    case Cqz => "CQZ"
    case Ituz => "ITUZ"
    case Sig => "SIG"
    case SigInfo => "SIG_INFO"
    case PotaRef => "POTA_REF"
    case Iota => "IOTA"
    case Comment => "COMMENT"
    case ContestId => "CONTEST_ID"
    case Stx => "STX"
    case StxString => "STX_STRING"
    case AppContestId => "APP_CWLOGGER_CONTEST_ID"
    case AppParkName => "APP_CWLOGGER_PARK_NAME"
    case AppIslandName => "APP_CWLOGGER_ISLAND_NAME"
    case AppUnscored => "APP_CWLOGGER_UNSCORED"
    case Srx => "SRX"
    case SrxString => "SRX_STRING"
    case MyGridsquare => "MY_GRIDSQUARE"
    case MyGridsquareExt => "MY_GRIDSQUARE_EXT"
    case StationCallsign => "STATION_CALLSIGN"
    case MyName => "MY_NAME"
    case MyIota => "MY_IOTA"
    case MyRig => "MY_RIG"
    case MyAntenna => "MY_ANTENNA"
    case TxPwr => "TX_PWR"
    case OldContestId => "APP_W4GNS_LOGGER_CONTEST_ID"
    case NameIntl => "NAME_INTL"
    case QthIntl => "QTH_INTL"
    case CommentIntl => "COMMENT_INTL"
    case OldParkName => "APP_W4GNS_LOGGER_PARK_NAME"
    case OldIslandName => "APP_W4GNS_LOGGER_ISLAND_NAME"
    case OldUnscored => "APP_W4GNS_LOGGER_UNSCORED"
    case SigInfoIntl => "SIG_INFO_INTL"
    case MyNameIntl => "MY_NAME_INTL"
    case OperatorIntl => "OPERATOR_INTL"
    case OperatorName => "OPERATOR"
    case MyRigIntl => "MY_RIG_INTL"
    case MyAntennaIntl => "MY_ANTENNA_INTL"
  }

  lemma EarlyPlaces(id: FieldId)
    requires Place(id) < 22
    ensures FieldAt(Place(id)) == id
  {
  }

  lemma LatePlaces(id: FieldId)
    requires 22 <= Place(id) < WRITTEN
    ensures FieldAt(Place(id)) == id
  {
  }

  lemma FieldAtPlace(id: FieldId)
    ensures Place(id) < WRITTEN ==> FieldAt(Place(id)) == id
  {
    hide Place, FieldAt;
    if Place(id) < 22 { EarlyPlaces(id); } else if Place(id) < WRITTEN { LatePlaces(id); }
  }

  lemma PlaceOfFieldAt(n: nat)
    requires n < WRITTEN
    ensures Place(FieldAt(n)) == n
  {
  }

  // ---------- Names tell fields apart ----------

  /** Length, second and last character. */
  datatype Mark = Mark(length: nat, second: char, last: char)

  function MarkIn(name: string): Mark { if |name| < 2 then Mark(0, ' ', ' ') else Mark(|name|, name[1], name[|name| - 1]) }

  /** The field with a mark, looked up by length first. */
  function FromMark(m: Mark): FieldId {
    match m.length
    case 3 =>
      if m.second == 'T' && m.last == 'H' then Qth
      else if m.second == 'Q' then Cqz
      else if m.second == 'I' then Sig
      else if m.second == 'T' && m.last == 'X' then Stx
      else Srx
    case 4 =>
      if m.second == 'A' && m.last == 'L' then Call
      else if m.second == 'A' && m.last == 'D' then Band
      else if m.second == 'R' then Freq
      else if m.second == 'O' && m.last == 'E' then Mode
      else if m.second == 'A' && m.last == 'E' then PersonName
      else if m.second == 'N' then Cnty
      else if m.second == 'X' then Dxcc
      else if m.second == 'T' then Ituz
      else Iota
    case 5 => if m.second == 'T' then State else Email
    case 6 => if m.second == 'Y' then MyRig else TxPwr
    case 7 =>
      if m.second == 'I' then TimeOn
      else if m.second == 'O' && m.last == 'Y' then Country
      else if m.second == 'O' && m.last == 'T' then Comment
      else if m.second == 'Y' && m.last == 'E' then MyName
      else MyIota
    case 8 =>
      if m.second == 'S' && m.last == 'E' then QsoDate
      else if m.second == 'I' && m.last == 'F' then TimeOff
      else if m.second == 'S' && m.last == 'T' then RstSent
      else if m.second == 'S' && m.last == 'D' then RstRcvd
      else if m.second == 'I' && m.last == 'O' then SigInfo
      else if m.second == 'O' then PotaRef
      else if m.second == 'T' then QthIntl
      else OperatorName
    case 9 => NameIntl
    case 10 =>
      if m.second == 'R' && m.last == 'E' then Gridsquare
      else if m.second == 'O' then ContestId
      else if m.second == 'T' then StxString
      else if m.second == 'R' && m.last == 'G' then SrxString
      else MyAntenna
    case 11 => MyRigIntl
    case 12 => if m.second == 'S' then QsoDateOff else if m.second == 'O' then CommentIntl else MyNameIntl
    case 13 => if m.second == 'Y' then MyGridsquare else if m.second == 'I' then SigInfoIntl else OperatorIntl
    case 14 => GridsquareExt
    case 15 => MyAntennaIntl
    case 16 => StationCallsign
    case 17 => MyGridsquareExt
    case 21 => AppUnscored
    case 22 => AppParkName
    case 23 => AppContestId
    case 24 => AppIslandName
    case 25 => OldUnscored
    case 26 => OldParkName
    case 27 => OldContestId
    case _ => OldIslandName
  }

  lemma NamesOne()
    ensures FieldName("QTH") && FieldName("CQZ") && FieldName("SIG")
    ensures FieldName("STX") && FieldName("SRX") && FieldName("CALL")
    ensures FieldName("BAND") && FieldName("FREQ") && FieldName("MODE")
    ensures FieldName("NAME")
  {
  }

  lemma NamesTwo()
    ensures FieldName("CNTY") && FieldName("DXCC") && FieldName("ITUZ")
    ensures FieldName("IOTA") && FieldName("STATE") && FieldName("EMAIL")
    ensures FieldName("MY_RIG") && FieldName("TX_PWR") && FieldName("TIME_ON")
    ensures FieldName("COUNTRY")
  {
  }

  lemma NamesThree()
    ensures FieldName("COMMENT") && FieldName("MY_NAME") && FieldName("MY_IOTA")
    ensures FieldName("QSO_DATE") && FieldName("TIME_OFF") && FieldName("RST_SENT")
    ensures FieldName("RST_RCVD") && FieldName("SIG_INFO")
  {
  }

  lemma NamesFour()
    ensures FieldName("POTA_REF") && FieldName("QTH_INTL") && FieldName("OPERATOR")
    ensures FieldName("NAME_INTL") && FieldName("GRIDSQUARE") && FieldName("CONTEST_ID")
    ensures FieldName("STX_STRING")
  {
  }

  lemma NamesFive()
    ensures FieldName("SRX_STRING") && FieldName("MY_ANTENNA") && FieldName("MY_RIG_INTL")
    ensures FieldName("QSO_DATE_OFF") && FieldName("COMMENT_INTL")
  {
  }

  lemma NamesSix()
    ensures FieldName("MY_NAME_INTL") && FieldName("MY_GRIDSQUARE") && FieldName("SIG_INFO_INTL")
    ensures FieldName("OPERATOR_INTL") && FieldName("GRIDSQUARE_EXT")
  {
  }

  lemma NamesSeven()
    ensures FieldName("MY_ANTENNA_INTL") && FieldName("STATION_CALLSIGN") && FieldName("MY_GRIDSQUARE_EXT")
  {
  }

  lemma NamesEight()
    ensures FieldName("APP_CWLOGGER_UNSCORED") && FieldName("APP_CWLOGGER_PARK_NAME") && FieldName("APP_CWLOGGER_CONTEST_ID")
  {
  }

  lemma NamesNine()
    ensures FieldName("APP_CWLOGGER_ISLAND_NAME") && FieldName("APP_W4GNS_LOGGER_UNSCORED")
  {
  }

  lemma NamesTen()
    ensures FieldName("APP_W4GNS_LOGGER_PARK_NAME") && FieldName("APP_W4GNS_LOGGER_CONTEST_ID")
  {
  }

  lemma NamesEleven()
    ensures FieldName("APP_W4GNS_LOGGER_ISLAND_NAME")
  {
  }

  lemma MarksOne()
    ensures FromMark(MarkIn("QTH")) == Qth && FromMark(MarkIn("CQZ")) == Cqz
    ensures FromMark(MarkIn("SIG")) == Sig && FromMark(MarkIn("STX")) == Stx
    ensures FromMark(MarkIn("SRX")) == Srx && FromMark(MarkIn("CALL")) == Call
  {
  }

  lemma MarksTwo()
    ensures FromMark(MarkIn("BAND")) == Band && FromMark(MarkIn("FREQ")) == Freq
    ensures FromMark(MarkIn("MODE")) == Mode && FromMark(MarkIn("NAME")) == PersonName
    ensures FromMark(MarkIn("CNTY")) == Cnty && FromMark(MarkIn("DXCC")) == Dxcc
  {
  }

  lemma MarksThree()
    ensures FromMark(MarkIn("ITUZ")) == Ituz && FromMark(MarkIn("IOTA")) == Iota
    ensures FromMark(MarkIn("STATE")) == State && FromMark(MarkIn("EMAIL")) == Email
    ensures FromMark(MarkIn("MY_RIG")) == MyRig && FromMark(MarkIn("TX_PWR")) == TxPwr
  {
  }

  lemma MarksFour()
    ensures FromMark(MarkIn("TIME_ON")) == TimeOn && FromMark(MarkIn("COUNTRY")) == Country
    ensures FromMark(MarkIn("COMMENT")) == Comment && FromMark(MarkIn("MY_NAME")) == MyName
    ensures FromMark(MarkIn("MY_IOTA")) == MyIota && FromMark(MarkIn("QSO_DATE")) == QsoDate
  {
  }

  lemma MarksFive()
    ensures FromMark(MarkIn("TIME_OFF")) == TimeOff && FromMark(MarkIn("RST_SENT")) == RstSent
    ensures FromMark(MarkIn("RST_RCVD")) == RstRcvd && FromMark(MarkIn("SIG_INFO")) == SigInfo
    ensures FromMark(MarkIn("POTA_REF")) == PotaRef && FromMark(MarkIn("QTH_INTL")) == QthIntl
  {
  }

  lemma MarksSix()
    ensures FromMark(MarkIn("OPERATOR")) == OperatorName && FromMark(MarkIn("NAME_INTL")) == NameIntl
    ensures FromMark(MarkIn("GRIDSQUARE")) == Gridsquare && FromMark(MarkIn("CONTEST_ID")) == ContestId
    ensures FromMark(MarkIn("STX_STRING")) == StxString && FromMark(MarkIn("SRX_STRING")) == SrxString
  {
  }

  lemma MarksSeven()
    ensures FromMark(MarkIn("MY_ANTENNA")) == MyAntenna && FromMark(MarkIn("MY_RIG_INTL")) == MyRigIntl
    ensures FromMark(MarkIn("QSO_DATE_OFF")) == QsoDateOff && FromMark(MarkIn("COMMENT_INTL")) == CommentIntl
    ensures FromMark(MarkIn("MY_NAME_INTL")) == MyNameIntl && FromMark(MarkIn("MY_GRIDSQUARE")) == MyGridsquare
  {
  }

  lemma MarksEight()
    ensures FromMark(MarkIn("SIG_INFO_INTL")) == SigInfoIntl && FromMark(MarkIn("OPERATOR_INTL")) == OperatorIntl
    ensures FromMark(MarkIn("GRIDSQUARE_EXT")) == GridsquareExt && FromMark(MarkIn("MY_ANTENNA_INTL")) == MyAntennaIntl
    ensures FromMark(MarkIn("STATION_CALLSIGN")) == StationCallsign && FromMark(MarkIn("MY_GRIDSQUARE_EXT")) == MyGridsquareExt
  {
  }

  lemma MarksNine()
    ensures FromMark(MarkIn("APP_CWLOGGER_UNSCORED")) == AppUnscored && FromMark(MarkIn("APP_CWLOGGER_PARK_NAME")) == AppParkName
    ensures FromMark(MarkIn("APP_CWLOGGER_CONTEST_ID")) == AppContestId && FromMark(MarkIn("APP_CWLOGGER_ISLAND_NAME")) == AppIslandName
    ensures FromMark(MarkIn("APP_W4GNS_LOGGER_UNSCORED")) == OldUnscored && FromMark(MarkIn("APP_W4GNS_LOGGER_PARK_NAME")) == OldParkName
  {
  }

  lemma MarksTen()
    ensures FromMark(MarkIn("APP_W4GNS_LOGGER_CONTEST_ID")) == OldContestId && FromMark(MarkIn("APP_W4GNS_LOGGER_ISLAND_NAME")) == OldIslandName
  {
  }

  /** Every name is in the file's alphabet. */
  lemma SpellIsName(id: FieldId)
    ensures FieldName(Spell(id))
  {
    hide FieldName;
    NamesOne(); NamesTwo(); NamesThree(); NamesFour(); NamesFive(); NamesSix();
    NamesSeven(); NamesEight(); NamesNine(); NamesTen(); NamesEleven();
  }

  /** The mark of a name leads back to its field. */
  lemma MarkOfSpell(id: FieldId)
    ensures FromMark(MarkIn(Spell(id))) == id
  {
    hide FromMark, MarkIn;
    match id {
      case Qth | Cqz | Sig | Stx | Srx | Call => MarksOne();
      case Band | Freq | Mode | PersonName | Cnty | Dxcc => MarksTwo();
      case Ituz | Iota | State | Email | MyRig | TxPwr => MarksThree();
      case TimeOn | Country | Comment | MyName | MyIota | QsoDate => MarksFour();
      case TimeOff | RstSent | RstRcvd | SigInfo | PotaRef | QthIntl => MarksFive();
      case OperatorName | NameIntl | Gridsquare | ContestId | StxString | SrxString => MarksSix();
      case MyAntenna | MyRigIntl | QsoDateOff | CommentIntl | MyNameIntl | MyGridsquare => MarksSeven();
      case SigInfoIntl | OperatorIntl | GridsquareExt |
           MyAntennaIntl | StationCallsign | MyGridsquareExt => MarksEight();
      case AppUnscored | AppParkName | AppContestId | AppIslandName | OldUnscored | OldParkName => MarksNine();
      case OldContestId | OldIslandName => MarksTen();
    }
  }

  /** No two fields share a name. */
  lemma NamesApart(a: FieldId, b: FieldId)
    ensures Spell(a) == Spell(b) ==> a == b
  {
    hide Spell, MarkIn, FromMark;
    MarkOfSpell(a);
    MarkOfSpell(b);
  }
}
