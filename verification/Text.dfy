/** ASCII text functions shared by the parsers, printers and key builders.
    A `string` is a sequence of ASCII characters; characters above 127 are
    neither blank nor cased here. */
module Text {

  datatype Option<+T> = None | Some(value: T)

  lemma SubsetSize<T>(a: set<T>, b: set<T>)
    requires a <= b
    ensures |a| <= |b|
  {
    assert b == a + (b - a);
  }

  // ---------- Characters ----------

  predicate IsSpace(c: char) { c == ' ' || 9 <= c as int <= 13 }

  predicate IsUpper(c: char) { 'A' <= c <= 'Z' }

  predicate IsLower(c: char) { 'a' <= c <= 'z' }

  predicate IsDigit(c: char) { '0' <= c <= '9' }

  function UpperChar(c: char): (r: char)
    ensures !IsLower(r)
    ensures !IsLower(c) ==> r == c
    ensures IsSpace(r) <==> IsSpace(c)
  {
    if IsLower(c) then (c as int - 32) as char else c
  }

  /** A nonempty word that is already upper case and holds no blank. */
  predicate IsToken(s: string) {
    s != "" && forall i :: 0 <= i < |s| ==> !IsSpace(s[i]) && !IsLower(s[i])
  }

  predicate Contains(s: string, c: char) { exists i :: 0 <= i < |s| && s[i] == c }

  // ---------- Case and blanks ----------

  function ToUpper(s: string): (r: string)
    ensures |r| == |s|
    ensures forall i {:trigger r[i]} :: 0 <= i < |s| ==> r[i] == UpperChar(s[i])
  {
    seq(|s|, i requires 0 <= i < |s| => UpperChar(s[i]))
  }

  /** strings.EqualFold on ASCII text. */
  predicate EqualFold(a: string, b: string) { ToUpper(a) == ToUpper(b) }

  lemma ToUpperIdempotent(s: string)
    ensures ToUpper(ToUpper(s)) == ToUpper(s)
  {
    assert forall i :: 0 <= i < |s| ==> ToUpper(ToUpper(s))[i] == ToUpper(s)[i];
  }

  lemma ToUpperFixed(s: string)
    requires forall i :: 0 <= i < |s| ==> !IsLower(s[i])
    ensures ToUpper(s) == s
  {
    assert forall i :: 0 <= i < |s| ==> ToUpper(s)[i] == s[i];
  }

  function TrimLeft(s: string): (r: string)
    ensures |r| <= |s|
    ensures r == "" || !IsSpace(r[0])
  {
    if s != "" && IsSpace(s[0]) then TrimLeft(s[1..]) else s
  }

  function TrimRight(s: string): (r: string)
    ensures |r| <= |s|
    ensures r == "" || !IsSpace(r[|r| - 1])
  {
    if s != "" && IsSpace(s[|s| - 1]) then TrimRight(s[..|s| - 1]) else s
  }

  predicate Trimmed(s: string) {
    s == "" || (!IsSpace(s[0]) && !IsSpace(s[|s| - 1]))
  }

  /** strings.TrimSpace. */
  function TrimSpace(s: string): (r: string)
    ensures Trimmed(s) ==> r == s
  {
    TrimRight(TrimLeft(s))
  }

  lemma {:induction false} TrimLeftChars(s: string)
    ensures forall c :: c in TrimLeft(s) ==> c in s
  {
    if s != "" && IsSpace(s[0]) { TrimLeftChars(s[1..]); }
  }

  lemma {:induction false} TrimRightPrefix(s: string)
    ensures TrimRight(s) <= s
  {
    if s != "" && IsSpace(s[|s| - 1]) { TrimRightPrefix(s[..|s| - 1]); }
  }

  lemma TrimSpaceChars(s: string)
    ensures Trimmed(TrimSpace(s))
    ensures forall c :: c in TrimSpace(s) ==> c in s
  {
    TrimLeftChars(s);
    TrimRightPrefix(TrimLeft(s));
  }

  /** Trimming then folding case gives the same text as folding then trimming. */
  lemma {:induction false} TrimUpperCommute(s: string)
    ensures ToUpper(TrimSpace(s)) == TrimSpace(ToUpper(s))
  {
    TrimLeftUpper(s);
    TrimRightUpper(TrimLeft(s));
  }

  lemma {:induction false} TrimLeftUpper(s: string)
    ensures ToUpper(TrimLeft(s)) == TrimLeft(ToUpper(s))
  {
    if s != "" && IsSpace(s[0]) {
      TrimLeftUpper(s[1..]);
      assert ToUpper(s)[1..] == ToUpper(s[1..]);
    }
  }

  lemma {:induction false} TrimRightUpper(s: string)
    ensures ToUpper(TrimRight(s)) == TrimRight(ToUpper(s))
  {
    if s != "" && IsSpace(s[|s| - 1]) {
      TrimRightUpper(s[..|s| - 1]);
      assert ToUpper(s)[..|s| - 1] == ToUpper(s[..|s| - 1]);
    }
  }

  /** Trimmed and in upper case, the form calls, bands and codes are compared in. */
  function Norm(s: string): string { ToUpper(TrimSpace(s)) }

  lemma NormTwice(s: string)
    ensures Norm(Norm(s)) == Norm(s) && TrimSpace(Norm(s)) == Norm(s)
  {
    TrimSpaceChars(s);
    ToUpperIdempotent(TrimSpace(s));
  }

  /** The first of two texts that is not blank. */
  function FirstNonEmpty(a: string, b: string): string { if TrimSpace(a) != "" then a else if TrimSpace(b) != "" then b else "" }

  // ---------- Searching and splitting ----------

  /** Index of the first `c`, or |s| when there is none. */
  function IndexOf(s: string, c: char): (i: nat)
    ensures i <= |s|
    ensures i < |s| ==> s[i] == c
    ensures forall j :: 0 <= j < i ==> s[j] != c
  {
    if s == "" || s[0] == c then 0 else 1 + IndexOf(s[1..], c)
  }

  predicate HasPrefix(s: string, p: string) { p <= s }

  function TrimPrefix(s: string, p: string): string {
    if p <= s then s[|p|..] else s
  }

  /** strings.Split on a one-character separator. */
  function Split(s: string, c: char): (r: seq<string>)
    ensures |r| >= 1
    decreases |s|
  {
    var i := IndexOf(s, c);
    if i == |s| then [s] else [s[..i]] + Split(s[i + 1..], c)
  }

  lemma SplitSingle(s: string, c: char)
    requires !Contains(s, c)
    ensures Split(s, c) == [s]
  {
    assert IndexOf(s, c) == |s|;
  }

  /** strings.Fields: the maximal blank-free words, in order. */
  function Fields(s: string): seq<string>
    decreases |s|
  {
    var t := TrimLeft(s);
    if t == "" then []
    else
      var n := WordEnd(t);
      [t[..n]] + Fields(t[n..])
  }

  /** Length of the blank-free word at the front of `s`. */
  function WordEnd(s: string): (n: nat)
    ensures n <= |s|
    ensures forall i :: 0 <= i < n ==> !IsSpace(s[i])
    ensures n < |s| ==> IsSpace(s[n])
    ensures s != "" && !IsSpace(s[0]) ==> n > 0
  {
    if s == "" || IsSpace(s[0]) then 0 else 1 + WordEnd(s[1..])
  }

  predicate IsWord(s: string) {
    s != "" && forall i :: 0 <= i < |s| ==> !IsSpace(s[i])
  }

  lemma {:induction false} WordEndOf(w: string, rest: string)
    requires forall i :: 0 <= i < |w| ==> !IsSpace(w[i])
    requires rest == "" || IsSpace(rest[0])
    ensures WordEnd(w + rest) == |w|
  {
    if w != "" {
      WordEndOf(w[1..], rest);
      assert (w + rest)[1..] == w[1..] + rest;
    }
  }

  /** Every field is a nonempty blank-free word made of characters of `s`. */
  lemma {:induction false} FieldsAreWords(s: string, k: nat)
    requires k < |Fields(s)|
    ensures IsWord(Fields(s)[k])
    ensures forall i :: 0 <= i < |Fields(s)[k]| ==> Fields(s)[k][i] in s
    decreases |s|
  {
    var t := TrimLeft(s);
    var n := WordEnd(t);
    var rest := Fields(t[n..]);
    TrimLeftChars(s);
    assert Fields(s) == [t[..n]] + rest;
    if k == 0 {
      assert Fields(s)[0] == t[..n];
    } else {
      FieldsAreWords(t[n..], k - 1);
      var w := rest[k - 1];
      assert Fields(s)[k] == w;
      forall i | 0 <= i < |w| ensures w[i] in s {
        assert w[i] in t[n..];
        assert forall c :: c in t[n..] ==> c in t;
      }
    }
  }

  lemma {:induction false} FieldsStep(w: string, rest: string)
    requires IsWord(w)
    requires rest == "" || IsSpace(rest[0])
    ensures Fields(w + rest) == [w] + Fields(rest)
  {
    var s := w + rest;
    WordEndOf(w, rest);
    assert s[0] == w[0];
    assert TrimLeft(s) == s;
    assert s[..|w|] == w && s[|w|..] == rest;
  }

  lemma {:induction false} FieldsOfWord(w: string)
    requires IsWord(w)
    ensures Fields(w) == [w]
  {
    FieldsStep(w, "");
    assert w + "" == w;
    assert Fields("") == [];
  }

  lemma {:induction false} FieldsSkipBlank(rest: string)
    requires rest != "" && IsSpace(rest[0])
    ensures Fields(rest) == Fields(rest[1..])
  {
    assert TrimLeft(rest) == TrimLeft(rest[1..]);
  }

  lemma {:induction false} FieldsOfTwo(v: string, w: string)
    requires IsWord(v) && IsWord(w)
    ensures Fields(v + " " + w) == [v, w]
  {
    FieldsOfPair(v, w, " " + w, v + " " + w);
  }

  lemma {:induction false} FieldsOfPair(v: string, w: string, rest: string, s: string)
    requires IsWord(v) && IsWord(w)
    requires rest != "" && IsSpace(rest[0]) && rest[1..] == w && s == v + rest
    ensures Fields(s) == [v, w]
  {
    FieldsStep(v, rest);
    FieldsSkipBlank(rest);
    FieldsOfWord(w);
  }

  function ReplaceChar(s: string, a: char, b: char): (r: string)
    ensures |r| == |s|
    ensures forall i {:trigger r[i]} :: 0 <= i < |s| ==> r[i] == if s[i] == a then b else s[i]
  {
    seq(|s|, i requires 0 <= i < |s| => if s[i] == a then b else s[i])
  }

  // ---------- Decimal numbers ----------

  function DigitChar(d: nat): (c: char)
    requires d < 10
    ensures IsDigit(c) && c as int - '0' as int == d
  {
    ('0' as int + d) as char
  }

  function DigitValue(c: char): (d: nat)
    requires IsDigit(c)
    ensures d < 10 && DigitChar(d) == c
  {
    c as int - '0' as int
  }

  predicate AllDigits(s: string) { forall i :: 0 <= i < |s| ==> IsDigit(s[i]) }

  function NatValue(s: string): (n: nat)
    requires AllDigits(s)
  {
    if s == "" then 0 else 10 * NatValue(s[..|s| - 1]) + DigitValue(s[|s| - 1])
  }

  lemma NatValueAppend(s: string, c: char)
    requires AllDigits(s) && IsDigit(c)
    ensures AllDigits(s + [c]) && NatValue(s + [c]) == 10 * NatValue(s) + DigitValue(c)
  {
    assert (s + [c])[..|s|] == s;
  }

  /** strconv.Itoa for nonnegative numbers. */
  function Itoa(n: nat): string {
    if n < 10 then [DigitChar(n)] else Itoa(n / 10) + [DigitChar(n % 10)]
  }

  lemma {:induction false} ItoaValue(n: nat)
    ensures Itoa(n) != "" && AllDigits(Itoa(n)) && NatValue(Itoa(n)) == n
  {
    if n < 10 {
      NatValueAppend("", DigitChar(n));
      assert "" + [DigitChar(n)] == [DigitChar(n)];
    } else {
      ItoaValue(n / 10);
      NatValueAppend(Itoa(n / 10), DigitChar(n % 10));
    }
  }

  const MAX_INT: int := 0x7fff_ffff_ffff_ffff

  /** strconv.Atoi: an optional sign, then decimal digits, within 64 bits. */
  function Atoi(s: string): (r: Option<int>)
    ensures r.Some? ==> s != "" && -MAX_INT - 1 <= r.value <= MAX_INT
    ensures s != "" && AllDigits(s) ==> r == if NatValue(s) <= MAX_INT then Some(NatValue(s)) else None
  {
    var signed := s != "" && (s[0] == '+' || s[0] == '-');
    var digits := if signed then s[1..] else s;
    if digits == "" || !AllDigits(digits) then None
    else
      var n: int := NatValue(digits);
      var v := if signed && s[0] == '-' then -n else n;
      if -MAX_INT - 1 <= v <= MAX_INT then Some(v) else None
  }

  /** `n` in exactly `w` decimal digits (the low-order ones). */
  function Digits(n: nat, w: nat): (s: string)
    ensures |s| == w && AllDigits(s)
  {
    if w == 0 then "" else Digits(n / 10, w - 1) + [DigitChar(n % 10)]
  }

  function Pow10(w: nat): (p: nat)
    ensures p >= 1
  {
    if w == 0 then 1 else 10 * Pow10(w - 1)
  }

  lemma {:induction false} DigitsValue(n: nat, w: nat)
    requires n < Pow10(w)
    ensures NatValue(Digits(n, w)) == n
  {
    if w > 0 {
      DigitsValue(n / 10, w - 1);
      var d := Digits(n / 10, w - 1);
      assert (d + [DigitChar(n % 10)])[..w - 1] == d;
    }
  }

  function Pow2(n: nat): (p: nat)
    ensures p >= 1
  {
    if n == 0 then 1 else 2 * Pow2(n - 1)
  }

  // ---------- Lexicographic order ----------

  predicate LexLess(a: string, b: string) {
    if b == "" then false
    else if a == "" then true
    else a[0] < b[0] || (a[0] == b[0] && LexLess(a[1..], b[1..]))
  }

  predicate LexLeq(a: string, b: string) { a == b || LexLess(a, b) }

  lemma {:induction false} LexConcat(a: string, b: string, r: string, t: string)
    requires |a| == |b|
    ensures LexLess(a + r, b + t) <==> LexLess(a, b) || (a == b && LexLess(r, t))
  {
    if a == "" {
      assert a + r == r && b + t == t;
    } else {
      assert (a + r)[1..] == a[1..] + r && (b + t)[1..] == b[1..] + t;
      assert a == [a[0]] + a[1..] && b == [b[0]] + b[1..];
      LexConcat(a[1..], b[1..], r, t);
    }
  }

  lemma {:induction false} LexDigits(m: nat, n: nat, w: nat)
    requires m < Pow10(w) && n < Pow10(w)
    ensures LexLess(Digits(m, w), Digits(n, w)) <==> m < n
  {
    if w > 0 {
      LexDigits(m / 10, n / 10, w - 1);
      var x, y := [DigitChar(m % 10)], [DigitChar(n % 10)];
      LexConcat(Digits(m / 10, w - 1), Digits(n / 10, w - 1), x, y);
      assert LexLess(x, y) <==> m % 10 < n % 10 by {
        assert x[1..] == "" && y[1..] == "";
      }
      DigitsValue(m / 10, w - 1);
      DigitsValue(n / 10, w - 1);
      hide NatValue, DigitChar, LexLess;
    }
  }

  /** Comparing two texts that start with a `w`-digit number compares the numbers first. */
  lemma LexField(m: nat, n: nat, w: nat, r: string, t: string)
    requires m < Pow10(w) && n < Pow10(w)
    ensures LexLess(Digits(m, w) + r, Digits(n, w) + t) <==> m < n || (m == n && LexLess(r, t))
  {
    LexConcat(Digits(m, w), Digits(n, w), r, t);
    LexDigits(m, n, w);
    DigitsValue(m, w);
    DigitsValue(n, w);
  }
}
