/** The ADIF record stream: parseADIRecords as a loop over a reader, the function it
    computes, and what it makes of a file written field by field. */
module Adif {
  import opened Text
  import opened AdiReader

  type Record = map<string, string>

  const MAX_RECORD_BYTES := 0x10_0000

  /** The records handed on, in order, and whether the whole stream was well formed. */
  datatype Parsed = Parsed(records: seq<Record>, ok: bool)

  /** A record under construction with the bytes its fields hold. */
  datatype Partial = Partial(fields: Record, bytes: nat)

  const NOTHING := Partial(map[], 0)

  /** One length-prefixed field: the record with it, and the stream after its value. */
  function ReadField(descriptor: string, rest: string, p: Partial): (r: Option<(Partial, string)>)
    ensures r.Some? ==> |r.value.1| <= |rest|
  {
    var parts := Split(descriptor, ':');
    if |parts| < 2 then None
    else
      match ParseLength(parts[1])
      case None => None
      case Some(n) =>
        if n > MAX_FIELD || n > |rest| || |p.fields| >= MAX_FIELDS || p.bytes + n > MAX_RECORD_BYTES then None
        else Some((Partial(p.fields[ToUpper(TrimSpace(parts[0])) := rest[..n]], p.bytes + n), rest[n..]))
  }

  /** What parseADIRecords makes of a stream with a record under construction. */
  function Parse(s: string, p: Partial): Parsed
    decreases |s|
  {
    match NextTag(s)
    case NoTag => Parsed([], p.fields == map[])
    case BadTag => Parsed([], false)
    case Tag(d, rest) =>
      if ToUpper(d) == "EOH" then Parse(rest, NOTHING)
      else if ToUpper(d) == "EOR" then
        if p.fields == map[] then Parse(rest, p)
        else
          var later := Parse(rest, NOTHING);
          Parsed([p.fields] + later.records, later.ok)
      else
        match ReadField(d, rest, p)
        case None => Parsed([], false)
        case Some((q, after)) => Parse(after, q)
  }

  /** Records already handed on, then what the rest of the stream gives. */
  function Then(done: seq<Record>, later: Parsed): Parsed { Parsed(done + later.records, later.ok) }

  /** The streaming loop. Each finished record is appended to `records`. */
  method ParseAdiRecords(reader: ByteReader) returns (records: seq<Record>, ok: bool)
    requires reader.pos <= |reader.input|
    modifies reader
    ensures Parsed(records, ok) == Parse(old(reader.Rest()), NOTHING)
  {
    hide ReadField, NextTag, ToUpper;
    ghost var whole := Parse(reader.Rest(), NOTHING);
    records := [];
    var record: Record := map[];
    var bytes: nat := 0;
    while true
      invariant reader.pos <= |reader.input|
      invariant Then(records, Parse(reader.Rest(), Partial(record, bytes))) == whole
      decreases |reader.Rest()|
    {
      var tag := reader.ReadTag();
      match tag {
        case NoTag => return records, record == map[];
        case BadTag => return records, false;
        case Tag(d, _) =>
          if ToUpper(d) == "EOH" {
            record, bytes := map[], 0;
          } else if ToUpper(d) == "EOR" {
            if record != map[] {
              ghost var later := Parse(reader.Rest(), NOTHING);
              assert (records + [record]) + later.records == records + ([record] + later.records);
              records := records + [record];
              record, bytes := map[], 0;
            }
          } else {
            var stored: bool;
            stored, record, bytes := StoreField(reader, d, record, bytes);
            if !stored { return records, false; }
          }
      }
    }
  }

  method StoreField(reader: ByteReader, descriptor: string, record: Record, bytes: nat) returns (ok: bool, record': Record, bytes': nat)
    requires reader.pos <= |reader.input|
    modifies reader
    ensures reader.pos <= |reader.input|
    ensures var r := ReadField(descriptor, old(reader.Rest()), Partial(record, bytes));
      ok == r.Some? && (ok ==> r.value == (Partial(record', bytes'), reader.Rest()))
  {
    hide ToUpper, ParseLength, Split;
    record', bytes' := record, bytes;
    var parts := Split(descriptor, ':');
    if |parts| < 2 { return false, record, bytes; }
    var length := ParseLength(parts[1]);
    if length.None? || length.value > MAX_FIELD { return false, record, bytes; }
    var value := reader.ReadFull(length.value);
    if value.None? || |record| >= MAX_FIELDS { return false, record, bytes; }
    if bytes + |value.value| > MAX_RECORD_BYTES { return false, record, bytes; }
    return true, record[ToUpper(TrimSpace(parts[0])) := value.value], bytes + |value.value|;
  }

  // ---------- Writing ----------

  /** A field name as this program writes them. */
  predicate FieldName(name: string) {
    && name != "" && |name| <= 32
    && forall i :: 0 <= i < |name| ==> IsUpper(name[i]) || IsDigit(name[i]) || name[i] == '_'
  }

  function Descriptor(name: string, n: nat): string { name + ":" + Itoa(n) }

  function FieldText(name: string, value: string): string { "<" + (Descriptor(name, |value|) + (">" + value)) }

  lemma {:induction false} ItoaLength(n: nat, w: nat)
    requires 1 <= w && n < Pow10(w)
    ensures |Itoa(n)| <= w
  {
    if n >= 10 { ItoaLength(n / 10, w - 1); }
  }

  lemma SplitAtColon(name: string, number: string)
    requires FieldName(name) && AllDigits(number)
    ensures Split(name + ":" + number, ':') == [name, number]
  {
    var s := name + ":" + number;
    IndexOfAt(s, ':', |name|);
    assert s[..|name|] == name && s[|name| + 1..] == number;
    SplitSingle(number, ':');
  }

  lemma DescriptorWritable(name: string, n: nat)
    requires FieldName(name) && n <= MAX_FIELD
    ensures Writable(Descriptor(name, n))
  {
    ItoaValue(n);
    assert Pow10(1) == 10 && Pow10(3) == 1000 && Pow10(5) == 100000 && Pow10(7) == 10000000;
    ItoaLength(n, 7);
    hide Itoa, NatValue, Pow10;
  }

  lemma NameKept(name: string)
    requires FieldName(name)
    ensures ToUpper(TrimSpace(name)) == name
  {
    ToUpperFixed(name);
  }

  lemma LengthRead(n: nat)
    requires n <= MAX_FIELD
    ensures ParseLength(Itoa(n)) == Some(n) && AllDigits(Itoa(n))
  {
    ItoaValue(n);
    hide Itoa, NatValue;
  }

  /** A descriptor with a colon in it is not an end tag. */
  lemma NotEndTag(name: string, number: string)
    ensures ToUpper(name + ":" + number) != "EOH" && ToUpper(name + ":" + number) != "EOR"
  {
    var d := name + ":" + number;
    assert ToUpper(d)[|name|] == ':';
  }

  lemma Regroup(d: string, value: string, rest: string)
    ensures ("<" + (d + (">" + value))) + rest == "<" + (d + (">" + (value + rest)))
  {
    var x := ">" + value;
    var y := d + x;
    assert x + rest == ">" + (value + rest);
    assert y + rest == d + (x + rest);
    assert ("<" + y) + rest == "<" + (y + rest);
  }

  lemma FieldTag(name: string, value: string, rest: string)
    requires FieldName(name) && |value| <= MAX_FIELD
    ensures NextTag(FieldText(name, value) + rest) == Tag(Descriptor(name, |value|), value + rest)
  {
    DescriptorWritable(name, |value|);
    hide NextTag, FieldName, Itoa, Writable, Descriptor;
    var d := Descriptor(name, |value|);
    WrittenTag(d, value + rest);
    Regroup(d, value, rest);
  }

  lemma FieldStored(name: string, value: string, rest: string, p: Partial)
    requires FieldName(name) && |p.fields| < MAX_FIELDS && p.bytes + |value| <= MAX_RECORD_BYTES
    ensures ReadField(Descriptor(name, |value|), value + rest, p) == Some((Partial(p.fields[name := value], p.bytes + |value|), rest))
  {
    hide Split, ParseLength, ToUpper, TrimSpace, Itoa, FieldName;
    LengthRead(|value|);
    SplitAtColon(name, Itoa(|value|));
    NameKept(name);
    assert (value + rest)[..|value|] == value;
    assert (value + rest)[|value|..] == rest;
  }

  /** A written field reads back as the field it was, whatever its value contains. */
  lemma FieldReads(name: string, value: string, rest: string, p: Partial)
    requires FieldName(name) && |p.fields| < MAX_FIELDS && p.bytes + |value| <= MAX_RECORD_BYTES
    ensures Parse(FieldText(name, value) + rest, p) == Parse(rest, Partial(p.fields[name := value], p.bytes + |value|))
  {
    hide NextTag, ReadField, ToUpper, Itoa, FieldText, FieldName;
    FieldTag(name, value, rest);
    NotEndTag(name, Itoa(|value|));
    FieldStored(name, value, rest, p);
  }

  lemma EndTag(name: string, rest: string)
    requires Writable(name)
    ensures NextTag("<" + name + ">\n" + rest) == Tag(name, "\n" + rest)
  {
    WrittenTag(name, "\n" + rest);
    assert "<" + name + ">\n" + rest == "<" + (name + (">" + ("\n" + rest)));
  }

  /** An end-of-record tag hands the record on. */
  lemma RecordReads(rest: string, p: Partial)
    requires p.fields != map[]
    ensures Parse("<EOR>\n" + rest, p) == Then([p.fields], Parse(rest, NOTHING))
  {
    EndTag("EOR", rest);
    assert "<" + "EOR" + ">\n" == "<EOR>\n" && ToUpper("EOR") == "EOR";
    SkipText("\n", rest, NOTHING);
    hide NextTag, ToUpper;
  }

  /** The end of the header drops what the header held. */
  lemma HeaderEndReads(rest: string, p: Partial)
    ensures Parse("<EOH>\n" + rest, p) == Parse(rest, NOTHING)
  {
    EndTag("EOH", rest);
    assert "<" + "EOH" + ">\n" == "<EOH>\n" && ToUpper("EOH") == "EOH";
    SkipText("\n", rest, NOTHING);
    hide NextTag, ToUpper;
  }

  /** Text without an opening bracket is skipped. */
  lemma SkipText(skip: string, rest: string, p: Partial)
    requires '<' !in skip
    ensures Parse(skip + rest, p) == Parse(rest, p)
  {
    SkipTag(skip, rest);
    hide NextTag, ReadField;
  }
}
