/**
 * The JavaScript string primitives the core relies on: the whitespace class
 * shared by `\s` and `String.prototype.trim`, `toLowerCase`, `includes`,
 * `indexOf`, `split`, `parseInt` and the decimal rendering of numbers in
 * template literals. A string is a sequence of `char`; one `char` stands for
 * one UTF-16 code unit of the source (characters outside the Basic
 * Multilingual Plane are not modelled).
 */
module Text {
  import opened Wrappers

  /** JavaScript `\s` and the characters `trim` removes: WhiteSpace and LineTerminator. */
  predicate IsSpace(c: char) {
    c == '\t' || c == '\n' || c == '\U{000B}' || c == '\U{000C}' || c == '\r' || c == ' '
    || c == '\U{00A0}' || c == '\U{1680}' || ('\U{2000}' <= c <= '\U{200A}')
    || c == '\U{2028}' || c == '\U{2029}' || c == '\U{202F}' || c == '\U{205F}'
    || c == '\U{3000}' || c == '\U{FEFF}'
  }

  /** The characters a regular-expression `.` does not match. */
  predicate IsLineTerminator(c: char) {
    c == '\n' || c == '\r' || c == '\U{2028}' || c == '\U{2029}'
  }

  lemma LineTerminatorIsSpace(c: char)
    ensures IsLineTerminator(c) ==> IsSpace(c)
  {
  }

  /** JavaScript `\d`. */
  predicate IsDigit(c: char) {
    '0' <= c <= '9'
  }

  predicate AllSpace(s: string) {
    forall i :: 0 <= i < |s| ==> IsSpace(s[i])
  }

  // ---------------------------------------------------------------- case

  /** A Latin or Cyrillic capital letter: the characters `LowerChar` changes. */
  predicate IsCapital(c: char) {
    ('A' <= c <= 'Z') || ('\U{0400}' <= c <= '\U{042F}')
  }

  /**
   * `toLowerCase` on one character, for the Latin and Cyrillic capitals
   * (the alphabets the core's keywords and messages use); every other
   * character is left as it is.
   */
  function LowerChar(c: char): (l: char)
    ensures l != c ==> IsCapital(c)
  {
    if 'A' <= c <= 'Z' then (c as int + 32) as char
    else if '\U{0410}' <= c <= '\U{042F}' then (c as int + 32) as char
    else if '\U{0400}' <= c <= '\U{040F}' then (c as int + 80) as char
    else c
  }

  /** Lower-casing leaves no capital behind, and changes every capital it meets. */
  lemma LowerCharLowers(c: char)
    ensures !IsCapital(LowerChar(c))
    ensures IsCapital(c) <==> LowerChar(c) != c
  {
  }

  /** `String.prototype.toLowerCase`, character by character. */
  function ToLower(s: string): (r: string)
    ensures |r| == |s|
    ensures forall i :: 0 <= i < |s| ==> r[i] == LowerChar(s[i])
    ensures forall i :: 0 <= i < |r| ==> !IsCapital(r[i])
    ensures forall i :: 0 <= i < |s| ==> (IsCapital(s[i]) <==> r[i] != s[i])
  {
    var r := seq(|s|, i requires 0 <= i < |s| => LowerChar(s[i]));
    assert forall i :: 0 <= i < |s| ==> !IsCapital(r[i]) && (IsCapital(s[i]) <==> r[i] != s[i]) by {
      forall i | 0 <= i < |s| {
        LowerCharLowers(s[i]);
      }
    }
    r
  }

  /** A text with no capital letters is its own lower case. */
  lemma ToLowerOfLower(s: string)
    requires forall i :: 0 <= i < |s| ==> !IsCapital(s[i])
    ensures ToLower(s) == s
  {
  }

  lemma {:induction false} ToLowerAppend(a: string, b: string)
    ensures ToLower(a + b) == ToLower(a) + ToLower(b)
  {
    assert |ToLower(a + b)| == |ToLower(a) + ToLower(b)|;
    forall i | 0 <= i < |a + b|
      ensures ToLower(a + b)[i] == (ToLower(a) + ToLower(b))[i]
    {
      if i < |a| {
        assert (a + b)[i] == a[i];
      } else {
        assert (a + b)[i] == b[i - |a|];
      }
    }
  }

  /** Lower-casing is idempotent: a lower-cased text is its own lower case. */
  lemma ToLowerIdempotent(s: string)
    ensures ToLower(ToLower(s)) == ToLower(s)
  {
    forall i | 0 <= i < |s|
      ensures LowerChar(LowerChar(s[i])) == LowerChar(s[i])
    {
    }
  }

  // ---------------------------------------------------------------- search

  /** `t` occurs in `s` starting at index `k`. */
  predicate OccursAt(s: string, t: string, k: int) {
    0 <= k && k + |t| <= |s| && s[k..k + |t|] == t
  }

  /** `s.indexOf(t, from)`: the first index at or after `from` where `t` occurs. */
  function IndexOfFrom(s: string, t: string, from: nat): (r: Option<nat>)
    decreases |s| + 1 - from
    ensures r.Some? ==> from <= r.value && OccursAt(s, t, r.value)
    ensures r.Some? ==> forall q :: from <= q < r.value ==> !OccursAt(s, t, q)
    ensures r.None? ==> forall q :: from <= q ==> !OccursAt(s, t, q)
  {
    if from + |t| > |s| then None
    else if s[from..from + |t|] == t then Some(from)
    else IndexOfFrom(s, t, from + 1)
  }

  /** `s.includes(t)`. */
  predicate Contains(s: string, t: string) {
    IndexOfFrom(s, t, 0).Some?
  }

  lemma ContainsIff(s: string, t: string)
    ensures Contains(s, t) <==> exists k :: OccursAt(s, t, k)
  {
    if IndexOfFrom(s, t, 0).None? {
      forall k | OccursAt(s, t, k) ensures false { }
    }
  }

  // ---------------------------------------------------------------- trim

  /** Index of the first character that is not whitespace. */
  function TrimStart(s: string): (i: nat)
    ensures i <= |s| && AllSpace(s[..i])
    ensures i < |s| ==> !IsSpace(s[i])
  {
    if s == [] || !IsSpace(s[0]) then 0
    else
      var i := 1 + TrimStart(s[1..]);
      assert s[..i] == [s[0]] + s[1..][..i - 1];
      i
  }

  /** Index just past the last character that is not whitespace. */
  function TrimEnd(s: string): (j: nat)
    ensures j <= |s| && AllSpace(s[j..])
    ensures j > 0 ==> !IsSpace(s[j - 1])
  {
    if s == [] || !IsSpace(s[|s| - 1]) then |s|
    else
      var j := TrimEnd(s[..|s| - 1]);
      assert s[j..] == s[..|s| - 1][j..] + [s[|s| - 1]];
      j
  }

  /**
   * `String.prototype.trim`: the longest middle part of `s` that neither
   * starts nor ends with whitespace; what it drops on both sides is
   * whitespace only.
   */
  function Trim(s: string): (r: string)
    ensures |r| <= |s|
    ensures r == [] || (!IsSpace(r[0]) && !IsSpace(r[|r| - 1]))
    ensures TrimStart(s) + |r| <= |s| && s[TrimStart(s)..TrimStart(s) + |r|] == r
    ensures AllSpace(s[TrimStart(s) + |r|..])
    ensures AllSpace(s) <==> r == []
  {
    var i := TrimStart(s);
    var j := TrimEnd(s[i..]);
    TrimTail(s, i, j);
    TrimNothing(s, i, j);
    if j > 0 then TrimEnds(s, i, j); s[i..i + j] else []
  }

  /** What `Trim` drops at the end is whitespace. */
  lemma TrimTail(s: string, i: nat, j: nat)
    requires i == TrimStart(s) && j == TrimEnd(s[i..])
    ensures i + j <= |s| && AllSpace(s[i + j..])
  {
    assert s[i + j..] == s[i..][j..];
  }

  /** What `Trim` keeps starts and ends with a character that is not whitespace. */
  lemma TrimEnds(s: string, i: nat, j: nat)
    requires i == TrimStart(s) && j == TrimEnd(s[i..]) && j > 0
    ensures i + j <= |s| && !IsSpace(s[i]) && !IsSpace(s[i + j - 1])
  {
    assert s[i..][j - 1] == s[i + j - 1];
  }

  /** `Trim` keeps nothing exactly when the text is all whitespace. */
  lemma TrimNothing(s: string, i: nat, j: nat)
    requires i == TrimStart(s) && j == TrimEnd(s[i..])
    ensures AllSpace(s) <==> j == 0
  {
    if j == 0 {
      LeadingAndRestSpace(s, i);
    } else {
      TrimEnds(s, i, j);
    }
  }

  /** Whitespace up to `i` followed by whitespace from `i` on is whitespace throughout. */
  lemma LeadingAndRestSpace(s: string, i: nat)
    requires i <= |s| && AllSpace(s[..i]) && AllSpace(s[i..])
    ensures AllSpace(s)
  {
    forall k | 0 <= k < |s|
      ensures IsSpace(s[k])
    {
      if k < i {
        assert s[..i][k] == s[k];
      } else {
        assert s[i..][k - i] == s[k];
      }
    }
  }

  /** Trimming an already trimmed text changes nothing. */
  lemma {:induction false} TrimIdempotent(s: string)
    ensures Trim(Trim(s)) == Trim(s)
  {
    var r := Trim(s);
    if r != [] {
      assert TrimStart(r) == 0;
      assert TrimEnd(r) == |r|;
    }
  }

  // ---------------------------------------------------------------- split

  /** `s.split(sep)` for a non-empty separator string. */
  function Split(s: string, sep: string): (r: seq<string>)
    requires sep != []
    decreases |s|
    ensures |r| >= 1
  {
    match IndexOfFrom(s, sep, 0)
    case None => [s]
    case Some(k) => [s[..k]] + Split(s[k + |sep|..], sep)
  }

  /** No piece of a split contains the separator. */
  lemma {:induction false} SplitPiecesAreSeparatorFree(s: string, sep: string)
    requires sep != []
    decreases |s|
    ensures forall i :: 0 <= i < |Split(s, sep)| ==> !Contains(Split(s, sep)[i], sep)
  {
    var i := IndexOfFrom(s, sep, 0);
    if i.Some? {
      var k := i.value;
      var rest := s[k + |sep|..];
      SplitPiecesAreSeparatorFree(rest, sep);
      assert Split(s, sep) == [s[..k]] + Split(rest, sep);
      if IndexOfFrom(s[..k], sep, 0).Some? {
        var q := IndexOfFrom(s[..k], sep, 0).value;
        assert s[..k][q..q + |sep|] == s[q..q + |sep|];
        assert OccursAt(s, sep, q);
      }
    }
  }

  /** Joins pieces with `sep` between them (`Array.prototype.join`). */
  function Join(pieces: seq<string>, sep: string): string
    requires |pieces| >= 1
  {
    if |pieces| == 1 then pieces[0] else pieces[0] + sep + Join(pieces[1..], sep)
  }

  /** Splitting on a separator and joining back with it gives the text back. */
  lemma {:induction false} JoinSplit(s: string, sep: string)
    requires sep != []
    decreases |s|
    ensures Join(Split(s, sep), sep) == s
  {
    var i := IndexOfFrom(s, sep, 0);
    if i.Some? {
      var k := i.value;
      var rest := s[k + |sep|..];
      JoinSplit(rest, sep);
      SplitAround(s, k, |sep|);
    }
  }

  /** A text is the part before `k`, the `n` characters at `k`, and the rest. */
  lemma SplitAround(s: string, k: nat, n: nat)
    requires k + n <= |s|
    ensures s == s[..k] + s[k..k + n] + s[k + n..]
  {
    assert s[..k] + s[k..k + n] == s[..k + n];
  }

  // ---------------------------------------------------------------- numbers

  function DigitValue(c: char): nat
    requires IsDigit(c)
  {
    c as int - '0' as int
  }

  /** The value of a run of decimal digits. */
  function DecimalValue(ds: string): nat
    requires forall i :: 0 <= i < |ds| ==> IsDigit(ds[i])
  {
    if ds == [] then 0
    else 10 * DecimalValue(ds[..|ds| - 1]) + DigitValue(ds[|ds| - 1])
  }

  function DigitChar(d: nat): (c: char)
    requires d < 10
    ensures IsDigit(c) && DigitValue(c) == d
  {
    ('0' as int + d) as char
  }

  /** The decimal text of a natural number, as a template literal renders it. */
  function NatToDecimal(n: nat): (r: string)
    decreases n
    ensures |r| >= 1
    ensures forall i :: 0 <= i < |r| ==> IsDigit(r[i])
  {
    if n < 10 then [DigitChar(n)] else NatToDecimal(n / 10) + [DigitChar(n % 10)]
  }

  /** The decimal text of an integer, with a leading `-` when it is negative. */
  function IntToDecimal(n: int): string {
    if n < 0 then "-" + NatToDecimal(-n) else NatToDecimal(n)
  }

  /** Reading back the decimal text of a number gives the number. */
  lemma {:induction false} DecimalValueOfNatToDecimal(n: nat)
    decreases n
    ensures DecimalValue(NatToDecimal(n)) == n
  {
    if n >= 10 {
      DecimalValueOfNatToDecimal(n / 10);
      var r := NatToDecimal(n);
      assert r[..|r| - 1] == NatToDecimal(n / 10);
    }
  }

  /** Length of the longest prefix of `s` made of characters satisfying `IsDigit`. */
  function DigitRun(s: string): (k: nat)
    ensures k <= |s|
    ensures forall i :: 0 <= i < k ==> IsDigit(s[i])
    ensures k < |s| ==> !IsDigit(s[k])
  {
    if s == [] || !IsDigit(s[0]) then 0 else 1 + DigitRun(s[1..])
  }

  predicate IsHexDigit(c: char) {
    IsDigit(c) || ('a' <= c <= 'f') || ('A' <= c <= 'F')
  }

  function HexDigitValue(c: char): nat
    requires IsHexDigit(c)
  {
    if IsDigit(c) then DigitValue(c)
    else if 'a' <= c <= 'f' then c as int - 'a' as int + 10
    else c as int - 'A' as int + 10
  }

  function HexRun(s: string): (k: nat)
    ensures k <= |s|
    ensures forall i :: 0 <= i < k ==> IsHexDigit(s[i])
  {
    if s == [] || !IsHexDigit(s[0]) then 0 else 1 + HexRun(s[1..])
  }

  function HexValue(ds: string): nat
    requires forall i :: 0 <= i < |ds| ==> IsHexDigit(ds[i])
  {
    if ds == [] then 0
    else 16 * HexValue(ds[..|ds| - 1]) + HexDigitValue(ds[|ds| - 1])
  }

  /** Magnitude part of `parseInt` after the sign: `0x`/`0X` hexadecimal, else decimal. */
  function ParseMagnitude(s: string): Option<nat> {
    if |s| >= 2 && s[0] == '0' && (s[1] == 'x' || s[1] == 'X') then
      var k := HexRun(s[2..]);
      if k == 0 then None else Some(HexValue(s[2..][..k]))
    else
      var k := DigitRun(s);
      if k == 0 then None else Some(DecimalValue(s[..k]))
  }

  /**
   * `parseInt(s)` with no radix: skip leading whitespace, read an optional
   * sign, then the longest run of digits (hexadecimal after `0x`); `None`
   * stands for `NaN` (no digit at all).
   */
  function ParseInt(s: string): (r: Option<int>) {
    var t := s[TrimStart(s)..];
    if t != [] && (t[0] == '-' || t[0] == '+') then
      match ParseMagnitude(t[1..])
      case None => None
      case Some(m) =>
        var v: int := if t[0] == '-' then -(m as int) else m;
        Some(v)
    else
      match ParseMagnitude(t)
      case None => None
      case Some(m) => Some(m)
  }

  /** `parseInt` of a non-empty run of decimal digits is its decimal value. */
  lemma ParseIntDigits(ds: string)
    requires ds != [] && forall i :: 0 <= i < |ds| ==> IsDigit(ds[i])
    ensures ParseInt(ds) == Some(DecimalValue(ds))
  {
    assert TrimStart(ds) == 0;
    assert ds[0..] == ds;
    ParseMagnitudeDigits(ds);
  }

  lemma ParseMagnitudeDigits(ds: string)
    requires ds != [] && forall i :: 0 <= i < |ds| ==> IsDigit(ds[i])
    ensures ParseMagnitude(ds) == Some(DecimalValue(ds))
  {
    assert DigitRun(ds) == |ds|;
    assert ds[..|ds|] == ds;
    if |ds| >= 2 { assert ds[1] != 'x' && ds[1] != 'X'; }
  }

  /** `parseInt` reads back the decimal text of any natural number. */
  lemma ParseIntOfDecimal(n: nat)
    ensures ParseInt(NatToDecimal(n)) == Some(n)
  {
    ParseIntDigits(NatToDecimal(n));
    DecimalValueOfNatToDecimal(n);
  }
}
