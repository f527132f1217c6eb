/** The LoTW confirmation report: its header and record parsers, and why a response
    cut before its end marker is never accepted. */
module LotwReport {
  import opened Text
  import opened AdiReader
  import opened Adif

  const MAX_HEADER_FIELDS: nat := 64
  const MAX_RECORDS: nat := 500_000

  /** One field of either part: stored, passed over as no field, or broken. */
  datatype FieldRead = Stored(name: string, value: string, rest: string) | PassedOver | Broken

  /** A tag that is neither an end tag nor the end marker. A bad length is passed over, its value left in the stream. */
  function ReadReportField(descriptor: string, rest: string): (r: FieldRead)
    ensures r.Stored? ==> |r.rest| <= |rest|
  {
    var i := IndexOf(descriptor, ':');
    if i == |descriptor| then PassedOver
    else
      match ParseLength(descriptor[i + 1..])
      case None => PassedOver
      case Some(n) =>
        if n > MAX_FIELD || n > |rest| then Broken
        else Stored(ToUpper(TrimSpace(descriptor[..i])), rest[..n], rest[n..])
  }

  // ---------- The header ----------

  datatype Header = Found(fields: Record, rest: string) | Missing | BadHeader

  function ReadHeader(s: string, fields: Record, seen: nat): (h: Header)
    ensures h.Found? ==> |h.rest| < |s|
    decreases |s|
  {
    if seen > MAX_HEADER_FIELDS then BadHeader
    else
      match NextTag(s)
      case NoTag => Missing
      case BadTag => BadHeader
      case Tag(d, rest) =>
        if EqualFold(d, "EOH") then Found(fields, rest)
        else
          match ReadReportField(d, rest)
          case PassedOver => ReadHeader(rest, fields, seen)
          case Broken => BadHeader
          case Stored(name, value, after) => ReadHeader(after, fields[name := value], seen + 1)
  }

  method ParseReportHeader(reader: ByteReader) returns (h: Header)
    requires reader.pos <= |reader.input|
    modifies reader
    ensures reader.pos <= |reader.input|
    ensures h == ReadHeader(old(reader.Rest()), map[], 0)
    ensures h.Found? ==> h.rest == reader.Rest()
  {
    hide NextTag, EqualFold, ReadReportField;
    ghost var whole := ReadHeader(reader.Rest(), map[], 0);
    var fields: Record, seen: nat := map[], 0;
    while true
      invariant reader.pos <= |reader.input| && ReadHeader(reader.Rest(), fields, seen) == whole
      decreases |reader.Rest()|
    {
      if seen > MAX_HEADER_FIELDS { return BadHeader; }
      var tag := reader.ReadTag();
      match tag {
        case NoTag => return Missing;
        case BadTag => return BadHeader;
        case Tag(d, _) =>
          if EqualFold(d, "EOH") { return Found(fields, reader.Rest()); }
          var field := TakeReportField(reader, d);
          match field {
            case Broken => return BadHeader;
            case PassedOver =>
            case Stored(name, value, _) => fields, seen := fields[name := value], seen + 1;
          }
      }
    }
  }

  method TakeReportField(reader: ByteReader, descriptor: string) returns (field: FieldRead)
    requires reader.pos <= |reader.input|
    modifies reader
    ensures reader.pos <= |reader.input|
    ensures field == ReadReportField(descriptor, old(reader.Rest()))
    ensures field.PassedOver? ==> reader.Rest() == old(reader.Rest())
    ensures field.Stored? ==> reader.Rest() == field.rest
  {
    hide ToUpper, TrimSpace, ParseLength;
    var i := IndexOf(descriptor, ':');
    if i == |descriptor| { return PassedOver; }
    var length := ParseLength(descriptor[i + 1..]);
    if length.None? { return PassedOver; }
    if length.value > MAX_FIELD { return Broken; }
    var value := reader.ReadFull(length.value);
    if value.None? { return Broken; }
    return Stored(ToUpper(TrimSpace(descriptor[..i])), value.value, reader.Rest());
  }

  // ---------- The records ----------

  /** How the record part ended: at the end marker, at the end of the stream, or badly. */
  datatype Ending = Marked(rest: string) | Unmarked | BadRecords

  datatype Body = Body(records: seq<Record>, ending: Ending)

  function Before(records: seq<Record>, later: Body): Body { Body(records + later.records, later.ending) }

  /** The records from a point on, with one under construction and `count` already handed on. */
  function ReadRecords(s: string, record: Record, count: nat): (b: Body)
    ensures b.ending.Marked? ==> |b.ending.rest| < |s|
    decreases |s|
  {
    match NextTag(s)
    case NoTag => Body([], Unmarked)
    case BadTag => Body([], BadRecords)
    case Tag(d, rest) =>
      if EqualFold(d, "EOR") then
        if record == map[] then ReadRecords(rest, record, count)
        else if count >= MAX_RECORDS then Body([], BadRecords)
        else Before([record], ReadRecords(rest, map[], count + 1))
      else if EqualFold(d, "APP_LoTW_EOF") then Body([], Marked(rest))
      else
        match ReadReportField(d, rest)
        case PassedOver => ReadRecords(rest, record, count)
        case Broken => Body([], BadRecords)
        case Stored(name, value, after) =>
          if |record| >= MAX_FIELDS then Body([], BadRecords) else ReadRecords(after, record[name := value], count)
  }

  method ParseReportRecords(reader: ByteReader) returns (records: seq<Record>, ending: Ending)
    requires reader.pos <= |reader.input|
    modifies reader
    ensures Body(records, ending) == ReadRecords(old(reader.Rest()), map[], 0)
  {
    hide NextTag, EqualFold, ReadReportField;
    ghost var whole := ReadRecords(reader.Rest(), map[], 0);
    records := [];
    var record: Record := map[];
    while true
      invariant reader.pos <= |reader.input| && Before(records, ReadRecords(reader.Rest(), record, |records|)) == whole
      decreases |reader.Rest()|
    {
      var tag := reader.ReadTag();
      match tag {
        case NoTag => return records, Unmarked;
        case BadTag => return records, BadRecords;
        case Tag(d, _) =>
          if EqualFold(d, "EOR") {
            if record != map[] {
              if |records| >= MAX_RECORDS { return records, BadRecords; }
              ghost var later := ReadRecords(reader.Rest(), map[], |records| + 1);
              assert records + ([record] + later.records) == (records + [record]) + later.records;
              records := records + [record];
              record := map[];
            }
          } else if EqualFold(d, "APP_LoTW_EOF") {
            return records, Marked(reader.Rest());
          } else {
            var field := TakeReportField(reader, d);
            match field {
              case Broken => return records, BadRecords;
              case PassedOver =>
              case Stored(name, value, _) =>
                if |record| >= MAX_FIELDS { return records, BadRecords; }
                record := record[name := value];
            }
          }
      }
    }
  }

  // ---------- Reading a longer stream ----------

  lemma FieldLonger(d: string, rest: string, more: string)
    requires !ReadReportField(d, rest).Broken?
    ensures ReadReportField(d, rest + more)
         == (match ReadReportField(d, rest) case Stored(n, v, r) => Stored(n, v, r + more) case other => other)
  {
    hide ParseLength, ToUpper, TrimSpace, IndexOf;
    var i := IndexOf(d, ':');
    if i < |d| && ParseLength(d[i + 1..]).Some? {
      var n := ParseLength(d[i + 1..]).value;
      assert (rest + more)[..n] == rest[..n];
      assert (rest + more)[n..] == rest[n..] + more;
    }
  }

  lemma {:induction false} HeaderLonger(s: string, fields: Record, seen: nat, more: string)
    requires ReadHeader(s, fields, seen).Found?
    ensures var h := ReadHeader(s, fields, seen); ReadHeader(s + more, fields, seen) == Found(h.fields, h.rest + more)
    decreases |s|
  {
    hide NextTag, EqualFold, ReadReportField;
    NextTagLonger(s, more);
    var tag := NextTag(s);
    if !EqualFold(tag.descriptor, "EOH") {
      FieldLonger(tag.descriptor, tag.rest, more);
      match ReadReportField(tag.descriptor, tag.rest)
      case PassedOver => HeaderLonger(tag.rest, fields, seen, more);
      case Stored(name, value, after) => HeaderLonger(after, fields[name := value], seen + 1, more);
    }
  }

  lemma {:induction false} RecordsLonger(s: string, record: Record, count: nat, more: string)
    requires ReadRecords(s, record, count).ending.Marked?
    ensures var b := ReadRecords(s, record, count);
      ReadRecords(s + more, record, count) == Body(b.records, Marked(b.ending.rest + more))
    decreases |s|
  {
    hide NextTag, EqualFold, ReadReportField;
    NextTagLonger(s, more);
    var tag := NextTag(s);
    var d, rest := tag.descriptor, tag.rest;
    if EqualFold(d, "EOR") {
      if record == map[] { RecordsLonger(rest, record, count, more); } else { RecordsLonger(rest, map[], count + 1, more); }
    } else if !EqualFold(d, "APP_LoTW_EOF") {
      FieldLonger(d, rest, more);
      match ReadReportField(d, rest)
      case PassedOver => RecordsLonger(rest, record, count, more);
      case Stored(name, value, after) => RecordsLonger(after, record[name := value], count, more);
    }
  }

  // ---------- Accepting a response ----------

  /** A complete response: its header, its records, and what lies behind the end marker. */
  datatype Report = Report(header: Record, records: seq<Record>, behind: string)

  function Lookup(r: Record, name: string): string { if name in r then r[name] else "" }

  /** The declared record count, when it is a number, is the count received. */
  predicate CountAgrees(header: Record, received: nat) {
    match Atoi(TrimSpace(Lookup(header, "APP_LOTW_NUMREC")))
    case Some(n) => n == received
    case None => true
  }

  /** The response as read up to its end marker. */
  function Complete(text: string): (r: Option<Report>)
    ensures r.Some? ==> |r.value.behind| < |text|
  {
    match ReadHeader(text, map[], 0)
    case Found(header, rest) =>
      (var body := ReadRecords(rest, map[], 0);
       match body.ending
       case Marked(behind) => Some(Report(header, body.records, behind))
       case _ => None)
    case _ => None
  }

  /** Header present, end marker seen, count as declared. */
  function Accepted(text: string): Option<Report> {
    match Complete(text)
    case Some(r) => if CountAgrees(r.header, |r.records|) then Some(r) else None
    case None => None
  }

  /** Whatever follows an end marker changes nothing that was read before it. */
  lemma CompleteLonger(text: string, more: string)
    requires Complete(text).Some?
    ensures var r := Complete(text).value; Complete(text + more) == Some(Report(r.header, r.records, r.behind + more))
  {
    HeaderLonger(text, map[], 0, more);
    RecordsLonger(ReadHeader(text, map[], 0).rest, map[], 0, more);
    hide ReadHeader, ReadRecords;
  }

  lemma BehindGrows(text: string, more: string)
    ensures Complete(text).Some? ==> Complete(text + more).Some? && |Complete(text + more).value.behind| >= |more|
  {
    hide Complete;
    if Complete(text).Some? { CompleteLonger(text, more); }
  }

  /** A complete response cut anywhere before the end marker's closing bracket is not
      complete any more, so it is rejected. */
  lemma CutIsRejected(text: string, cut: nat)
    requires Complete(text).Some? && cut < |text| - |Complete(text).value.behind|
    ensures Complete(text[..cut]).None? && Accepted(text[..cut]).None?
  {
    hide Complete, CountAgrees;
    assert text[..cut] + text[cut..] == text;
    BehindGrows(text[..cut], text[cut..]);
  }

  /** Reads a response the way the sync does. */
  method ReadReport(text: string) returns (report: Option<Report>)
    ensures report == Accepted(text)
  {
    hide ReadHeader, ReadRecords, CountAgrees;
    var reader := new ByteReader(text);
    assert text[0..] == text;
    var header := ParseReportHeader(reader);
    if !header.Found? { return None; }
    var records, ending := ParseReportRecords(reader);
    if !ending.Marked? { return None; }
    var declared := TrimSpace(Lookup(header.fields, "APP_LOTW_NUMREC"));
    var number := Atoi(declared);
    if number.Some? && number.value != |records| {
      assert !CountAgrees(header.fields, |records|) by { Counted(header.fields, |records|); }
      return None;
    }
    assert CountAgrees(header.fields, |records|) by { Counted(header.fields, |records|); }
    return Some(Report(header.fields, records, ending.rest));
  }

  lemma Counted(header: Record, received: nat)
    ensures var n := Atoi(TrimSpace(Lookup(header, "APP_LOTW_NUMREC")));
      CountAgrees(header, received) <==> (n.Some? ==> n.value == received)
  {
  }
}
