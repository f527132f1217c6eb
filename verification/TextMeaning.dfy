/** What the text functions do, told from the characters. */
module TextMeaning {
  import opened Text

  predicate AllBlank(s: string) { forall i :: 0 <= i < |s| ==> s[i] == ' ' || 9 <= s[i] as int <= 13 }

  /** Trimming takes blanks from both ends and leaves none there. */
  ghost predicate TrimsTo(s: string, t: string) {
    && (t == "" || (!AllBlank(t[..1]) && !AllBlank(t[|t| - 1..])))
    && exists before, after :: AllBlank(before) && AllBlank(after) && s == before + t + after
  }

  lemma {:induction false} LeftTrimmed(s: string) returns (before: string)
    ensures AllBlank(before) && s == before + TrimLeft(s)
  {
    if s != "" && IsSpace(s[0]) {
      var rest := LeftTrimmed(s[1..]);
      before := [s[0]] + rest;
    } else {
      before := "";
    }
  }

  lemma {:induction false} RightTrimmed(s: string) returns (after: string)
    ensures AllBlank(after) && s == TrimRight(s) + after
  {
    if s != "" && IsSpace(s[|s| - 1]) {
      var rest := RightTrimmed(s[..|s| - 1]);
      after := rest + [s[|s| - 1]];
    } else {
      after := "";
    }
  }

  lemma EndsHold(t: string)
    requires Trimmed(t)
    ensures t == "" || (!AllBlank(t[..1]) && !AllBlank(t[|t| - 1..]))
  {
    if t != "" { assert t[..1][0] == t[0] && t[|t| - 1..][0] == t[|t| - 1]; }
  }

  lemma TrimMeans(s: string)
    ensures TrimsTo(s, TrimSpace(s))
  {
    var before := LeftTrimmed(s);
    var after := RightTrimmed(TrimLeft(s));
    TrimSpaceChars(s);
    var t := TrimSpace(s);
    assert TrimLeft(s) == t + after;
    hide TrimSpace, TrimLeft, TrimRight, AllBlank, Trimmed;
    EndsHold(t);
    assert before + (t + after) == before + t + after;
  }

  /** Capitals for small letters, everything else as it is. */
  lemma UpperMeans(s: string, i: nat)
    requires i < |s|
    ensures 'a' <= s[i] <= 'z' ==> ToUpper(s)[i] as int == s[i] as int - 'a' as int + 'A' as int
    ensures !('a' <= s[i] <= 'z') ==> ToUpper(s)[i] == s[i]
  {
    assert ToUpper(s)[i] == UpperChar(s[i]);
  }

  /** The parts put together again, a separator between them. */
  function Joined(parts: seq<string>, c: char): string
    requires parts != []
  {
    if |parts| == 1 then parts[0] else parts[0] + ([c] + Joined(parts[1..], c))
  }

  /** Splitting gives parts without the separator that make the text again. */
  lemma {:induction false} SplitMeans(s: string, c: char)
    ensures Joined(Split(s, c), c) == s && forall part <- Split(s, c) :: c !in part
    decreases |s|
  {
    var i := IndexOf(s, c);
    if i < |s| {
      SplitMeans(s[i + 1..], c);
      var rest := Split(s[i + 1..], c);
      assert Split(s, c)[1..] == rest;
      assert s == s[..i] + ([c] + s[i + 1..]);
    }
  }

  /** A number is digits behind an optional sign, and fits 64 bits. */
  lemma NumberMeans(digits: string, n: int)
    requires digits != "" && AllDigits(digits) && n == NatValue(digits)
    ensures Atoi("-" + digits) == if n <= MAX_INT + 1 then Some(-n) else None
    ensures Atoi("+" + digits) == if n <= MAX_INT then Some(n) else None
  {
    var minus, plus := "-" + digits, "+" + digits;
    assert minus[0] == '-' && plus[0] == '+' && minus[1..] == digits && plus[1..] == digits;
    hide NatValue;
  }

  /** Anything else is no number. */
  lemma NoNumber(s: string)
    ensures Atoi(s).Some? ==> s != "" && (AllDigits(s) || (s[0] in {'+', '-'} && s[1..] != "" && AllDigits(s[1..])))
  {
  }

  /** The value of digits, the last one counting ones. */
  lemma DigitsMean(s: string, d: nat)
    requires AllDigits(s) && d < 10
    ensures NatValue(s + [DigitChar(d)]) == 10 * NatValue(s) + d
  {
    NatValueAppend(s, DigitChar(d));
  }

  lemma FirstWord(s: string)
    ensures var t := TrimLeft(s);
      if t == "" then Fields(s) == []
      else 0 < WordEnd(t) <= |t| && Fields(s) == [t[..WordEnd(t)]] + Fields(t[WordEnd(t)..]) && !IsSpace(t[0])
           && (WordEnd(t) < |t| ==> IsSpace(t[WordEnd(t)]))
  {
  }

  /** Words are separated by blanks: text before the first one, the word, and the words behind it. */
  lemma {:induction false} WordsMean(s: string) returns (before: string, rest: string)
    ensures Fields(s) == [] <==> AllBlank(s)
    ensures Fields(s) != [] ==>
              AllBlank(before) && s == before + Fields(s)[0] + rest && Fields(rest) == Fields(s)[1..] && (rest == "" || AllBlank(rest[..1]))
  {
    before := LeftTrimmed(s);
    rest := "";
    FirstWord(s);
    hide Fields, TrimLeft, WordEnd;
    var t := TrimLeft(s);
    if t == "" {
      assert s == before;
    } else {
      var n := WordEnd(t);
      rest := t[n..];
      assert before + t[..n] + rest == before + t;
      assert s[|before|] == t[0];
    }
  }
}
