/** Byte-level reading shared by the ADIF parsers: tags between angle brackets and
    length-prefixed values. A stream is its remaining ASCII text. */
module AdiReader {
  import opened Text

  const MAX_TAG := 256
  const MAX_FIELD := 0x10_0000
  const MAX_FIELDS := 2000

  /** The next tag of a stream: its trimmed descriptor and what follows, no tag left,
      or a tag that is unterminated or too long. */
  datatype Tag = NoTag | BadTag | Tag(descriptor: string, rest: string)

  function NextTag(s: string): (r: Tag)
    ensures r.Tag? ==> |r.rest| < |s|
  {
    var i := IndexOf(s, '<');
    if i == |s| then NoTag else OpenTag(s[i + 1..])
  }

  /** The tag whose opening bracket has just been read. */
  function OpenTag(t: string): (r: Tag)
    ensures !r.NoTag?
    ensures r.Tag? ==> |r.rest| < |t|
  {
    var j := IndexOf(t, '>');
    if j == |t| || j >= MAX_TAG then BadTag else Tag(TrimSpace(t[..j]), t[j + 1..])
  }

  /** A declared byte length: decimal, not negative. */
  function ParseLength(s: string): Option<nat> {
    match Atoi(TrimSpace(s))
    case Some(n) => if n < 0 then None else Some(n)
    case None => None
  }

  // ---------- Reading on with more input behind ----------

  lemma {:induction false} IndexOfLonger(s: string, more: string, c: char)
    requires IndexOf(s, c) < |s|
    ensures IndexOf(s + more, c) == IndexOf(s, c)
  {
    if s[0] != c {
      IndexOfLonger(s[1..], more, c);
      assert (s + more)[1..] == s[1..] + more;
    }
  }

  lemma OpenTagLonger(t: string, more: string)
    requires OpenTag(t).Tag?
    ensures OpenTag(t + more) == Tag(OpenTag(t).descriptor, OpenTag(t).rest + more)
  {
    hide IndexOf, TrimSpace;
    var j := IndexOf(t, '>');
    IndexOfLonger(t, more, '>');
    assert (t + more)[..j] == t[..j];
    assert (t + more)[j + 1..] == t[j + 1..] + more;
  }

  /** A tag read from a cut stream is the tag of the whole stream. */
  lemma NextTagLonger(s: string, more: string)
    requires NextTag(s).Tag?
    ensures NextTag(s + more) == Tag(NextTag(s).descriptor, NextTag(s).rest + more)
  {
    hide IndexOf, OpenTag;
    var i := IndexOf(s, '<');
    IndexOfLonger(s, more, '<');
    OpenTagLonger(s[i + 1..], more);
    assert (s + more)[i + 1..] == s[i + 1..] + more;
  }

  // ---------- Tags as written ----------

  /** A descriptor that survives being written between brackets. */
  predicate Writable(d: string) {
    Trimmed(d) && |d| < MAX_TAG && forall i :: 0 <= i < |d| ==> d[i] != '>'
  }

  lemma {:induction false} IndexOfAt(s: string, c: char, i: nat)
    requires i < |s| && s[i] == c && forall j :: 0 <= j < i ==> s[j] != c
    ensures IndexOf(s, c) == i
  {
    if i > 0 { IndexOfAt(s[1..], c, i - 1); }
  }

  lemma WrittenDescriptor(d: string, rest: string)
    requires Writable(d)
    ensures OpenTag(d + (">" + rest)) == Tag(d, rest)
  {
    var t := d + (">" + rest);
    IndexOfAt(t, '>', |d|);
    hide IndexOf, TrimSpace;
    assert t[..|d|] == d;
    assert t[|d| + 1..] == rest;
  }

  /** A tag written at the front of a stream. */
  lemma WrittenTag(d: string, rest: string)
    requires Writable(d)
    ensures NextTag("<" + (d + (">" + rest))) == Tag(d, rest)
  {
    var s := "<" + (d + (">" + rest));
    WrittenDescriptor(d, rest);
    IndexOfAt(s, '<', 0);
    hide IndexOf, OpenTag;
    assert s[1..] == d + (">" + rest);
  }

  lemma {:induction false} IndexAfter(skip: string, rest: string, c: char)
    requires c !in skip
    ensures IndexOf(skip + rest, c) == |skip| + IndexOf(rest, c)
  {
    if skip == "" {
      assert skip + rest == rest;
    } else {
      assert (skip + rest)[1..] == skip[1..] + rest;
      assert forall x :: x in skip[1..] ==> x in skip;
      IndexAfter(skip[1..], rest, c);
    }
  }

  /** Text without an opening bracket is passed over. */
  lemma SkipTag(skip: string, rest: string)
    requires '<' !in skip
    ensures NextTag(skip + rest) == NextTag(rest)
  {
    hide IndexOf, OpenTag;
    IndexAfter(skip, rest, '<');
    var i := IndexOf(rest, '<');
    if i < |rest| { assert (skip + rest)[|skip| + i + 1..] == rest[i + 1..]; }
  }

  // ---------- The buffered reader ----------

  class ByteReader {
    const input: string
    var pos: nat

    constructor (text: string)
      ensures input == text && pos == 0
    {
      input, pos := text, 0;
    }

    function Rest(): string
      requires pos <= |input|
      reads this
    {
      input[pos..]
    }

    /** Reads past the next `delim`. */
    method DiscardUntil(delim: char) returns (found: bool)
      requires pos <= |input|
      modifies `pos
      ensures pos <= |input|
      ensures var i := IndexOf(old(Rest()), delim);
        found == (i < |old(Rest())|) && (found ==> Rest() == old(Rest())[i + 1..])
    {
      ghost var rest := Rest();
      while pos < |input|
        invariant old(pos) <= pos <= |input|
        invariant forall k :: 0 <= k < pos - old(pos) ==> rest[k] != delim
      {
        var b := input[pos];
        pos := pos + 1;
        if b == delim {
          IndexOfAt(rest, delim, pos - 1 - old(pos));
          return true;
        }
      }
      return false;
    }

    /** Reads up to the next `delim`, which must come within `max` bytes. */
    method ReadUntil(delim: char, max: nat) returns (text: Option<string>)
      requires pos <= |input|
      modifies `pos
      ensures pos <= |input|
      ensures var i := IndexOf(old(Rest()), delim);
        && (text.Some? <==> i < |old(Rest())| && i < max)
        && (text.Some? ==> text.value == old(Rest())[..i] && Rest() == old(Rest())[i + 1..])
    {
      ghost var rest := Rest();
      var buf := "";
      while pos < |input|
        invariant old(pos) <= pos <= |input| && pos - old(pos) == |buf| && buf == rest[..|buf|]
        invariant forall k :: 0 <= k < |buf| ==> rest[k] != delim
        invariant |buf| < max || buf == ""
      {
        var b := input[pos];
        pos := pos + 1;
        if b == delim {
          IndexOfAt(rest, delim, |buf|);
          return if |buf| < max then Some(buf) else None;
        }
        buf := buf + [b];
        if |buf| >= max { return None; }
      }
      return None;
    }

    /** Reads exactly `n` bytes. */
    method ReadFull(n: nat) returns (value: Option<string>)
      requires pos <= |input|
      modifies `pos
      ensures pos <= |input|
      ensures value.Some? <==> n <= |old(Rest())|
      ensures value.Some? ==> value.value == old(Rest())[..n] && Rest() == old(Rest())[n..]
    {
      if |input| - pos < n {
        pos := |input|;
        return None;
      }
      value := Some(input[pos..pos + n]);
      pos := pos + n;
    }

    /** The next tag: discardUntil '<', then readUntil '>'. */
    method ReadTag() returns (tag: Tag)
      requires pos <= |input|
      modifies `pos
      ensures pos <= |input|
      ensures var next := NextTag(old(Rest())); tag == next && (next.Tag? ==> Rest() == next.rest)
    {
      var found := DiscardUntil('<');
      if !found { return NoTag; }
      var text := ReadUntil('>', MAX_TAG);
      if text.None? { return BadTag; }
      tag := Tag(TrimSpace(text.value), input[pos..]);
    }
  }
}
