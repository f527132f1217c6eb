/** Reading a confirmation report back: what the parsers make of a response written
    field by field, and exactly when they accept it. */
module LotwReading {
  import opened Text
  import opened AdiReader
  import opened Adif
  import opened LotwReport

  // ---------- A response as written ----------

  /** What stands in a response between its end tags: text outside brackets, a tag that
      is no field, or a field with its length. */
  datatype Piece = Outside(text: string) | Other(tag: string) | Field(name: string, value: string)

  function PieceText(p: Piece): string {
    match p
    case Outside(text) => text
    case Other(tag) => TagText(tag)
    case Field(name, value) => FieldText(name, value)
  }

  function TagText(tag: string): string { "<" + (tag + ">") }

  function Written(ps: seq<Piece>): string { if ps == [] then "" else PieceText(ps[0]) + Written(ps[1..]) }

  /** A length is a decimal number that is not negative. */
  ghost predicate IsLength(text: string) { exists n :: Atoi(TrimSpace(text)) == Some(n) && n >= 0 }

  /** A tag without a colon, or with something else than a length behind its first colon. */
  ghost predicate NoField(tag: string) {
    forall i :: 0 <= i < |tag| && tag[i] == ':' && ':' !in tag[..i] ==> !IsLength(tag[i + 1..])
  }

  /** A piece that can be written: names may be in lower case, values may hold anything. */
  ghost predicate Legible(p: Piece, ends: set<string>) {
    match p
    case Outside(text) => '<' !in text
    case Other(tag) => Writable(tag) && ToUpper(tag) !in ends && NoField(tag)
    case Field(name, value) =>
      && Trimmed(name) && ':' !in name && '>' !in name
      && |name| + 1 + |Itoa(|value|)| < MAX_TAG && |value| <= MAX_INT
  }

  ghost predicate AllLegible(ps: seq<Piece>, ends: set<string>) { forall p <- ps :: Legible(p, ends) }

  /** The fields written so far, names in capitals; a later value replaces an earlier one. */
  function Fields(ps: seq<Piece>): Record {
    if ps == [] then map[]
    else
      var n := |ps| - 1;
      if ps[n].Field? then Fields(ps[..n])[ToUpper(ps[n].name) := ps[n].value] else Fields(ps[..n])
  }

  // ---------- One piece ----------

  lemma FieldWritable(name: string, n: nat)
    requires Trimmed(name) && '>' !in name && |name| + 1 + |Itoa(n)| < MAX_TAG
    ensures Writable(Descriptor(name, n))
  {
    ItoaValue(n);
    hide Itoa, NatValue;
    var d := Descriptor(name, n);
    assert d[|d| - 1] == Itoa(n)[|Itoa(n)| - 1];
    assert d[0] == if name == "" then ':' else name[0];
  }

  lemma LengthIs(n: nat)
    requires n <= MAX_INT
    ensures ParseLength(Itoa(n)) == Some(n)
  {
    ItoaValue(n);
    hide Itoa, NatValue;
  }

  lemma DescriptorParts(name: string, n: nat)
    requires ':' !in name
    ensures var d := Descriptor(name, n); IndexOf(d, ':') == |name| < |d| && d[..|name|] == name && d[|name| + 1..] == Itoa(n)
  {
    hide Itoa;
    IndexOfAt(Descriptor(name, n), ':', |name|);
  }

  lemma FieldIsRead(name: string, value: string, rest: string)
    requires Trimmed(name) && ':' !in name && |value| <= MAX_INT
    ensures ReadReportField(Descriptor(name, |value|), value + rest)
         == if |value| > MAX_FIELD then Broken else Stored(ToUpper(name), value, rest)
  {
    hide Descriptor, Itoa, ParseLength, ToUpper, TrimSpace, IndexOf;
    LengthIs(|value|);
    DescriptorParts(name, |value|);
    assert (value + rest)[..|value|] == value && (value + rest)[|value|..] == rest;
  }

  lemma OtherIsPassed(tag: string, rest: string)
    requires NoField(tag)
    ensures ReadReportField(tag, rest) == PassedOver
  {
    var i := IndexOf(tag, ':');
    if i < |tag| {
      assert ':' !in tag[..i];
      assert !IsLength(tag[i + 1..]);
    }
    hide TrimSpace, Atoi, ToUpper;
  }

  lemma FieldStarts(name: string, value: string, rest: string)
    requires Writable(Descriptor(name, |value|))
    ensures NextTag(FieldText(name, value) + rest) == Tag(Descriptor(name, |value|), value + rest)
  {
    hide NextTag, Itoa, Writable, Descriptor;
    var d := Descriptor(name, |value|);
    WrittenTag(d, value + rest);
    Regroup(d, value, rest);
  }

  lemma TagStarts(tag: string, rest: string)
    requires Writable(tag)
    ensures NextTag(TagText(tag) + rest) == Tag(tag, rest)
  {
    hide NextTag, Writable;
    WrittenTag(tag, rest);
    assert (tag + ">") + rest == tag + (">" + rest);
    assert TagText(tag) + rest == "<" + (tag + (">" + rest));
  }

  /** A field is never taken for an end tag. */
  lemma FieldIsNoEnd(name: string, n: nat, end: string)
    requires ':' !in end
    ensures ToUpper(Descriptor(name, n)) != end
  {
    hide Itoa;
    assert ToUpper(Descriptor(name, n))[|name|] == ':';
  }

  // ---------- The header ----------

  /** How reading the header goes on after one piece. */
  lemma HeaderPiece(p: Piece, rest: string, fields: Record, seen: nat)
    requires Legible(p, {"EOH"}) && seen <= MAX_HEADER_FIELDS
    ensures ReadHeader(PieceText(p) + rest, fields, seen)
         == match p
            case Field(name, value) =>
              if |value| > MAX_FIELD then BadHeader else ReadHeader(rest, fields[ToUpper(name) := value], seen + 1)
            case _ => ReadHeader(rest, fields, seen)
  {
    hide NextTag, ReadReportField, Writable, Descriptor, FieldText, TagText, ToUpper, NoField;
    assert ToUpper("EOH") == "EOH" by { ToUpperFixed("EOH"); }
    match p
    case Outside(text) => SkipTag(text, rest);
    case Other(tag) =>
      TagStarts(tag, rest);
      OtherIsPassed(tag, rest);
    case Field(name, value) =>
      FieldWritable(name, |value|);
      FieldStarts(name, value, rest);
      FieldIsNoEnd(name, |value|, "EOH");
      FieldIsRead(name, value, rest);
  }

  /** How many fields were written. */
  function FieldCount(ps: seq<Piece>): nat {
    if ps == [] then 0 else FieldCount(ps[..|ps| - 1]) + if ps[|ps| - 1].Field? then 1 else 0
  }

  /** No value is longer than a field may be. */
  ghost predicate ShortValues(ps: seq<Piece>) { forall p <- ps :: p.Field? ==> |p.value| <= MAX_FIELD }

  ghost predicate HeaderFits(ps: seq<Piece>) { FieldCount(ps) <= MAX_HEADER_FIELDS && ShortValues(ps) }

  lemma {:induction false} CountGrows(ps: seq<Piece>, k: nat)
    requires k <= |ps|
    ensures FieldCount(ps[..k]) <= FieldCount(ps)
  {
    if k < |ps| {
      CountGrows(ps[..|ps| - 1], k);
      assert ps[..|ps| - 1][..k] == ps[..k];
    } else {
      assert ps[..k] == ps;
    }
  }

  lemma Advance(ps: seq<Piece>, k: nat)
    requires k < |ps|
    ensures Written(ps[k..]) == PieceText(ps[k]) + Written(ps[k + 1..])
    ensures Fields(ps[..k + 1]) == if ps[k].Field? then Fields(ps[..k])[ToUpper(ps[k].name) := ps[k].value] else Fields(ps[..k])
    ensures FieldCount(ps[..k + 1]) == FieldCount(ps[..k]) + if ps[k].Field? then 1 else 0
  {
    hide PieceText, ToUpper;
    var done := ps[..k + 1];
    assert done[..k] == ps[..k] && done[k] == ps[k];
    assert ps[k..] != [] && ps[k..][0] == ps[k] && ps[k..][1..] == ps[k + 1..];
    WrittenFirst(ps[k..]);
    LastField(done);
    hide Written, Fields, FieldCount;
  }

  lemma WrittenFirst(ps: seq<Piece>)
    requires ps != []
    ensures Written(ps) == PieceText(ps[0]) + Written(ps[1..])
  {
  }

  lemma LastField(ps: seq<Piece>)
    requires ps != []
    ensures var n := |ps| - 1;
      && Fields(ps) == (if ps[n].Field? then Fields(ps[..n])[ToUpper(ps[n].name) := ps[n].value] else Fields(ps[..n]))
      && FieldCount(ps) == FieldCount(ps[..n]) + if ps[n].Field? then 1 else 0
  {
  }

  lemma {:induction false} HeaderFrom(ps: seq<Piece>, end: string, rest: string, k: nat)
    requires AllLegible(ps, {"EOH"}) && Writable(end) && ToUpper(end) == "EOH" && k <= |ps| && ShortValues(ps[..k])
    ensures ReadHeader(Written(ps[k..]) + (TagText(end) + rest), Fields(ps[..k]), FieldCount(ps[..k]))
         == if HeaderFits(ps) then Found(Fields(ps), rest) else BadHeader
    decreases |ps| - k
  {
    hide PieceText, Legible, Fields, FieldCount, TagText, ReadReportField, NextTag, Writable;
    var tail := TagText(end) + rest;
    CountGrows(ps, k);
    if FieldCount(ps[..k]) > MAX_HEADER_FIELDS {
    } else if k == |ps| {
      assert ps[..k] == ps && Written(ps[k..]) + tail == tail;
      TagStarts(end, rest);
      assert ToUpper("EOH") == "EOH" by { ToUpperFixed("EOH"); }
    } else {
      Advance(ps, k);
      var p := ps[k];
      assert (PieceText(p) + Written(ps[k + 1..])) + tail == PieceText(p) + (Written(ps[k + 1..]) + tail);
      HeaderPiece(p, Written(ps[k + 1..]) + tail, Fields(ps[..k]), FieldCount(ps[..k]));
      if p.Field? && |p.value| > MAX_FIELD {
        assert p in ps;
      } else {
        assert ps[..k + 1] == ps[..k] + [p];
        HeaderFrom(ps, end, rest, k + 1);
      }
    }
  }

  // ---------- The records ----------

  /** How reading the records goes on after one piece. */
  lemma RecordPiece(p: Piece, rest: string, record: Record, count: nat)
    requires Legible(p, {"EOR", "APP_LOTW_EOF"})
    ensures ReadRecords(PieceText(p) + rest, record, count)
         == match p
            case Field(name, value) =>
              if |value| > MAX_FIELD || |record| >= MAX_FIELDS then Body([], BadRecords)
              else ReadRecords(rest, record[ToUpper(name) := value], count)
            case _ => ReadRecords(rest, record, count)
  {
    hide NextTag, ReadReportField, Writable, Descriptor, FieldText, TagText, ToUpper, NoField;
    EndNames();
    match p
    case Outside(text) => SkipTag(text, rest);
    case Other(tag) =>
      TagStarts(tag, rest);
      OtherIsPassed(tag, rest);
    case Field(name, value) =>
      FieldWritable(name, |value|);
      FieldStarts(name, value, rest);
      FieldIsNoEnd(name, |value|, "EOR");
      FieldIsNoEnd(name, |value|, "APP_LOTW_EOF");
      FieldIsRead(name, value, rest);
  }

  lemma EndNames()
    ensures ToUpper("EOH") == "EOH" && ToUpper("EOR") == "EOR" && ToUpper("APP_LoTW_EOF") == "APP_LOTW_EOF"
  {
  }

  /** Every value is short enough, and no field comes when the record is full. */
  ghost predicate RecordFits(ps: seq<Piece>) {
    ShortValues(ps) && forall k :: 0 <= k < |ps| && ps[k].Field? ==> |Fields(ps[..k])| < MAX_FIELDS
  }

  lemma {:induction false} RecordFrom(ps: seq<Piece>, tail: string, count: nat, k: nat)
    requires AllLegible(ps, {"EOR", "APP_LOTW_EOF"}) && k <= |ps|
    requires RecordFits(ps[..k])
    ensures ReadRecords(Written(ps[k..]) + tail, Fields(ps[..k]), count)
         == if RecordFits(ps) then ReadRecords(tail, Fields(ps), count) else Body([], BadRecords)
    decreases |ps| - k
  {
    hide PieceText, Legible, Fields, ReadRecords;
    if k == |ps| {
      assert ps[..k] == ps && Written(ps[k..]) + tail == tail;
    } else {
      Advance(ps, k);
      var p := ps[k];
      assert (PieceText(p) + Written(ps[k + 1..])) + tail == PieceText(p) + (Written(ps[k + 1..]) + tail);
      RecordPiece(p, Written(ps[k + 1..]) + tail, Fields(ps[..k]), count);
      FitsOn(ps, k);
      if RecordFits(ps[..k + 1]) { RecordFrom(ps, tail, count, k + 1); }
    }
  }

  lemma FitsOn(ps: seq<Piece>, k: nat)
    requires k < |ps| && RecordFits(ps[..k])
    ensures RecordFits(ps[..k + 1]) <==> (ps[k].Field? ==> |ps[k].value| <= MAX_FIELD && |Fields(ps[..k])| < MAX_FIELDS)
    ensures RecordFits(ps) ==> RecordFits(ps[..k + 1])
  {
    hide Fields;
    assert ps[..k + 1] == ps[..k] + [ps[k]];
    assert forall j :: 0 <= j <= k ==> ps[..k + 1][..j] == ps[..j] && ps[..k + 1][j] == ps[j];
    assert forall j :: 0 <= j < k ==> ps[..k][..j] == ps[..j] && ps[..k][j] == ps[j];
    assert ps[k] in ps[..k + 1];
  }

  /** The records of a response, each ended by its end tag. */
  function RecordsText(blocks: seq<seq<Piece>>, end: string): string {
    if blocks == [] then "" else Written(blocks[0]) + (TagText(end) + RecordsText(blocks[1..], end))
  }

  /** The records that hold a field, in order. */
  function Records(blocks: seq<seq<Piece>>): seq<Record> {
    if blocks == [] then []
    else (if Fields(blocks[0]) == map[] then [] else [Fields(blocks[0])]) + Records(blocks[1..])
  }

  ghost predicate RecordsLegible(blocks: seq<seq<Piece>>) { forall ps <- blocks :: AllLegible(ps, {"EOR", "APP_LOTW_EOF"}) }

  ghost predicate RecordsFit(blocks: seq<seq<Piece>>) { forall ps <- blocks :: RecordFits(ps) }

  /** One finished record, then the others. */
  lemma RecordRead(ps: seq<Piece>, end: string, rest: string, count: nat)
    requires AllLegible(ps, {"EOR", "APP_LOTW_EOF"}) && Writable(end) && ToUpper(end) == "EOR"
    ensures ReadRecords(Written(ps) + (TagText(end) + rest), map[], count)
         == if !RecordFits(ps) then Body([], BadRecords)
            else if Fields(ps) == map[] then ReadRecords(rest, map[], count)
            else if count >= MAX_RECORDS then Body([], BadRecords)
            else Before([Fields(ps)], ReadRecords(rest, map[], count + 1))
  {
    hide AllLegible, Fields, RecordFits, Written, TagText, NextTag, Writable, ReadReportField;
    assert ps[0..] == ps && ps[..0] == [];
    NothingFits();
    RecordFrom(ps, TagText(end) + rest, count, 0);
    TagStarts(end, rest);
    EndNames();
  }

  lemma NothingFits()
    ensures RecordFits([]) && Fields([]) == map[]
  {
  }

  lemma FirstRecordText(blocks: seq<seq<Piece>>, end: string, tail: string)
    requires blocks != []
    ensures RecordsText(blocks, end) + tail == Written(blocks[0]) + (TagText(end) + (RecordsText(blocks[1..], end) + tail))
  {
    hide Written, TagText;
    var written, ended, rest := Written(blocks[0]), TagText(end), RecordsText(blocks[1..], end);
    Associate(ended, rest, tail);
    Associate(written, ended + rest, tail);
  }

  lemma Associate(a: string, b: string, c: string)
    ensures (a + b) + c == a + (b + c)
  {
  }

  lemma FirstRecord(blocks: seq<seq<Piece>>)
    requires blocks != []
    ensures Records(blocks) == (if Fields(blocks[0]) == map[] then [] else [Fields(blocks[0])]) + Records(blocks[1..])
    ensures RecordsFit(blocks) <==> RecordFits(blocks[0]) && RecordsFit(blocks[1..])
    ensures RecordsLegible(blocks) ==> AllLegible(blocks[0], {"EOR", "APP_LOTW_EOF"}) && RecordsLegible(blocks[1..])
  {
    hide Fields, RecordFits, AllLegible;
    assert blocks == [blocks[0]] + blocks[1..];
    assert forall ps :: ps in blocks <==> ps == blocks[0] || ps in blocks[1..];
  }

  lemma {:induction false} RecordsRead(blocks: seq<seq<Piece>>, end: string, tail: string, count: nat)
    requires RecordsLegible(blocks) && Writable(end) && ToUpper(end) == "EOR" && count <= MAX_RECORDS
    ensures var b := ReadRecords(RecordsText(blocks, end) + tail, map[], count);
      if RecordsFit(blocks) && count + |Records(blocks)| <= MAX_RECORDS
      then b == Before(Records(blocks), ReadRecords(tail, map[], count + |Records(blocks)|))
      else b.ending == BadRecords
  {
    hide AllLegible, Fields, RecordFits, Written, TagText, ReadRecords, Writable;
    if blocks == [] {
      assert RecordsText(blocks, end) + tail == tail;
    } else {
      var ps, rest := blocks[0], RecordsText(blocks[1..], end);
      FirstRecordText(blocks, end, tail);
      FirstRecord(blocks);
      hide RecordsText, RecordsLegible, RecordsFit, Records;
      RecordRead(ps, end, rest + tail, count);
      if RecordFits(ps) {
        if Fields(ps) == map[] {
          RecordsRead(blocks[1..], end, tail, count);
        } else if count < MAX_RECORDS {
          RecordsRead(blocks[1..], end, tail, count + 1);
        }
      }
    }
  }

  // ---------- The whole response ----------

  /** The end tags of a response, in any case. */
  ghost predicate EndTags(eoh: string, eor: string, eof: string) {
    && Writable(eoh) && ToUpper(eoh) == "EOH"
    && Writable(eor) && ToUpper(eor) == "EOR"
    && Writable(eof) && ToUpper(eof) == "APP_LOTW_EOF"
  }

  /** A response: header, finished records, what follows the last of them, the end marker and the bytes behind it. */
  function ResponseText(header: seq<Piece>, eoh: string, records: seq<seq<Piece>>, eor: string,
                        last: seq<Piece>, eof: string, behind: string): string {
    Written(header) + (TagText(eoh) + (RecordsText(records, eor) + (Written(last) + (TagText(eof) + behind))))
  }

  lemma MarkerRead(last: seq<Piece>, eof: string, behind: string, count: nat)
    requires AllLegible(last, {"EOR", "APP_LOTW_EOF"}) && Writable(eof) && ToUpper(eof) == "APP_LOTW_EOF"
    ensures ReadRecords(Written(last) + (TagText(eof) + behind), map[], count)
         == if RecordFits(last) then Body([], Marked(behind)) else Body([], BadRecords)
  {
    hide AllLegible, Fields, RecordFits, Written, TagText, NextTag, Writable, ReadReportField;
    assert last[0..] == last && last[..0] == [];
    NothingFits();
    RecordFrom(last, TagText(eof) + behind, count, 0);
    TagStarts(eof, behind);
    EndNames();
  }

  /** A response is complete exactly when it keeps the limits, and then it is read as the header
      and the non-empty records that were written, whatever their values hold. */
  lemma ResponseReads(header: seq<Piece>, eoh: string, records: seq<seq<Piece>>, eor: string,
                      last: seq<Piece>, eof: string, behind: string)
    requires AllLegible(header, {"EOH"}) && RecordsLegible(records) && AllLegible(last, {"EOR", "APP_LOTW_EOF"})
    requires EndTags(eoh, eor, eof)
    ensures Complete(ResponseText(header, eoh, records, eor, last, eof, behind))
         == if HeaderFits(header) && RecordsFit(records) && RecordFits(last) && |Records(records)| <= MAX_RECORDS
            then Some(Report(Fields(header), Records(records), behind)) else None
  {
    hide AllLegible, RecordsLegible, Fields, FieldCount, HeaderFits, RecordFits, RecordsFit, Written, TagText, ReadHeader, ReadRecords,
      Records, RecordsText, Writable;
    var tail := Written(last) + (TagText(eof) + behind);
    assert header[0..] == header && header[..0] == [];
    NoFields();
    HeaderFrom(header, eoh, RecordsText(records, eor) + tail, 0);
    RecordsRead(records, eor, tail, 0);
    MarkerRead(last, eof, behind, |Records(records)|);
    assert Records(records) + [] == Records(records);
  }

  lemma NoFields()
    ensures Fields([]) == map[] && FieldCount([]) == 0 && ShortValues([])
  {
  }

  /** A complete response is accepted unless it declares a number of records and holds another. */
  lemma AcceptedWhen(text: string)
    ensures Complete(text) == None ==> Accepted(text) == None
    ensures forall r :: Complete(text) == Some(r) ==>
              Accepted(text) == if "APP_LOTW_NUMREC" in r.header && (exists n :: Atoi(TrimSpace(r.header["APP_LOTW_NUMREC"])) == Some(n) && n != |r.records|)
                                then None else Some(r)
  {
    hide Complete, TrimSpace, Atoi;
    assert Atoi(TrimSpace("")) == None by { NoNumber(); }
  }

  lemma NoNumber()
    ensures Atoi(TrimSpace("")) == None
  {
  }
}
