/** The Go library routines on strings and integers that the team handlers
    depend on: `strings.TrimSpace`, `strings.ToLower`, `strings.Contains`,
    `len` of a string (a UTF-8 byte count), the decimal rendering `%v` gives
    an int64, and `strconv.ParseInt(s, 10, 64)`. */
module GoStrings {

  import opened Errors

  // ---------------------------------------------------------------------
  // len(s): the number of bytes of the UTF-8 encoding

  /** Bytes UTF-8 needs for one Unicode scalar value. */
  function RuneLen(c: char): (n: nat)
    ensures 1 <= n <= 4
    ensures n == 1 <==> (c as int) < 0x80
  {
    if (c as int) < 0x80 then 1
    else if (c as int) < 0x800 then 2
    else if (c as int) < 0x1_0000 then 3
    else 4
  }

  /** Go's `len(s)`: never less than the number of characters, zero exactly
      for the empty string, and equal to it when every character is ASCII. */
  function Utf8Len(s: string): (n: nat)
    ensures |s| <= n <= 4 * |s|
    ensures n == 0 <==> |s| == 0
    ensures (forall i :: 0 <= i < |s| ==> (s[i] as int) < 0x80) ==> n == |s|
  {
    if s == [] then 0 else RuneLen(s[0]) + Utf8Len(s[1..])
  }

  /** The byte count of one character is its UTF-8 length. */
  lemma Utf8LenOne(c: char)
    ensures Utf8Len([c]) == RuneLen(c)
  {
  }

  /** Byte counts add up over concatenation, so `len(s)` is the sum of the
      UTF-8 lengths of the characters of `s`. */
  lemma {:induction false} Utf8LenAppend(a: string, b: string)
    ensures Utf8Len(a + b) == Utf8Len(a) + Utf8Len(b)
    decreases |a|
  {
    if a == [] {
      assert a + b == b;
    } else {
      assert (a + b)[1..] == a[1..] + b;
      Utf8LenAppend(a[1..], b);
    }
  }

  // ---------------------------------------------------------------------
  // strings.TrimSpace

  /** `unicode.IsSpace`: the Latin-1 spaces and the White_Space characters above them. */
  predicate IsSpace(c: char) {
    c == ' ' || c == '\t' || c == '\n' || c == '\U{B}' || c == '\U{C}' || c == '\r'
    || c == '\U{85}' || c == '\U{A0}' || c == '\U{1680}'
    || ('\U{2000}' <= c <= '\U{200A}')
    || c == '\U{2028}' || c == '\U{2029}' || c == '\U{202F}' || c == '\U{205F}' || c == '\U{3000}'
  }

  /** The index of the first non-space character of `s` at or after `i`,
      or `|s|` when there is none. */
  function FirstNonSpace(s: string, i: nat): (j: nat)
    requires i <= |s|
    ensures i <= j <= |s|
    ensures j == |s| || !IsSpace(s[j])
    ensures forall k :: i <= k < j ==> IsSpace(s[k])
    decreases |s| - i
  {
    if i < |s| && IsSpace(s[i]) then FirstNonSpace(s, i + 1) else i
  }

  /** The index just past the last non-space character of `s[lo..j]`, or
      `lo` when there is none. */
  function PastLastNonSpace(s: string, lo: nat, j: nat): (e: nat)
    requires lo <= j <= |s|
    ensures lo <= e <= j
    ensures e == lo || !IsSpace(s[e - 1])
    ensures forall k :: e <= k < j ==> IsSpace(s[k])
    decreases j
  {
    if j > lo && IsSpace(s[j - 1]) then PastLastNonSpace(s, lo, j - 1) else j
  }

  /** `strings.TrimSpace`: the slice of `s` between its leading and trailing
      white space, so it neither starts nor ends with white space. */
  function TrimSpace(s: string): (r: string)
    ensures |r| <= |s|
    ensures r == [] || (!IsSpace(r[0]) && !IsSpace(r[|r| - 1]))
  {
    var start := FirstNonSpace(s, 0);
    s[start..PastLastNonSpace(s, start, |s|)]
  }

  /** `r` is the run of `s` starting at `i`, and everything around it is white space. */
  predicate TrimmedAt(s: string, r: string, i: nat) {
    i + |r| <= |s|
    && (forall k :: 0 <= k < |r| ==> r[k] == s[i + k])
    && (forall k :: 0 <= k < i ==> IsSpace(s[k]))
    && (forall k :: i + |r| <= k < |s| ==> IsSpace(s[k]))
  }

  /** Trimming keeps a contiguous run of `s` and drops only white space around it. */
  lemma TrimSpaceIsSlice(s: string)
    ensures exists i: nat :: TrimmedAt(s, TrimSpace(s), i)
  {
    var start := FirstNonSpace(s, 0);
    assert TrimmedAt(s, TrimSpace(s), start);
  }

  /** A string with no white space at either end trims to itself. */
  lemma TrimSpaceUnchanged(s: string)
    requires s == [] || (!IsSpace(s[0]) && !IsSpace(s[|s| - 1]))
    ensures TrimSpace(s) == s
  {
    assert FirstNonSpace(s, 0) == 0;
    assert PastLastNonSpace(s, 0, |s|) == |s|;
  }

  /** Trimming twice is trimming once. */
  lemma TrimSpaceIdempotent(s: string)
    ensures TrimSpace(TrimSpace(s)) == TrimSpace(s)
  {
    TrimSpaceUnchanged(TrimSpace(s));
  }

  /** A string trims to nothing exactly when every character in it is white space. */
  lemma TrimSpaceEmptyIff(s: string)
    ensures TrimSpace(s) == [] <==> forall k :: 0 <= k < |s| ==> IsSpace(s[k])
  {
    var start := FirstNonSpace(s, 0);
    var end := PastLastNonSpace(s, start, |s|);
    assert |TrimSpace(s)| == end - start;
    if start < |s| {
      assert !IsSpace(s[start]);
      assert end > start;
    }
  }

  // ---------------------------------------------------------------------
  // strings.ToLower

  predicate IsAsciiUpper(c: char) {
    'A' <= c <= 'Z'
  }

  function LowerChar(c: char): (d: char)
    ensures !IsAsciiUpper(d)
    ensures IsAsciiUpper(c) ==> d as int == c as int + 32
    ensures !IsAsciiUpper(c) ==> d == c
  {
    if IsAsciiUpper(c) then (c as int + 32) as char else c
  }

  /** `strings.ToLower` on the ASCII letters: same length, no upper-case ASCII
      letter left, every other character kept. */
  function ToLower(s: string): (r: string)
    ensures |r| == |s|
    ensures forall i :: 0 <= i < |s| ==> !IsAsciiUpper(r[i])
    ensures forall i :: 0 <= i < |s| && !IsAsciiUpper(s[i]) ==> r[i] == s[i]
    ensures forall i :: 0 <= i < |s| && IsAsciiUpper(s[i]) ==> r[i] as int == s[i] as int + 32
  {
    seq(|s|, i requires 0 <= i < |s| => LowerChar(s[i]))
  }

  lemma ToLowerIdempotent(s: string)
    ensures ToLower(ToLower(s)) == ToLower(s)
  {
  }

  // ---------------------------------------------------------------------
  // strings.Contains

  /** `sub` occurs in `s` starting at index `i`. */
  predicate OccursAt(s: string, sub: string, i: nat) {
    i + |sub| <= |s| && s[i..i + |sub|] == sub
  }

  /** `strings.Contains`, by scanning `s` from the left. */
  function Contains(s: string, sub: string): bool
    decreases |s|
  {
    if |sub| > |s| then false
    else if s[..|sub|] == sub then true
    else Contains(s[1..], sub)
  }

  /** The scan finds `sub` exactly when it occurs somewhere in `s`. */
  lemma {:induction false} ContainsIff(s: string, sub: string)
    ensures Contains(s, sub) <==> exists i: nat :: OccursAt(s, sub, i)
    decreases |s|
  {
    if |sub| > |s| {
      assert forall i: nat :: !OccursAt(s, sub, i);
    } else if s[..|sub|] == sub {
      assert OccursAt(s, sub, 0);
    } else {
      ContainsIff(s[1..], sub);
      if i: nat :| OccursAt(s, sub, i) {
        assert i != 0;
        assert s[1..][i - 1..i - 1 + |sub|] == s[i..i + |sub|];
        assert OccursAt(s[1..], sub, i - 1);
      }
      if j: nat :| OccursAt(s[1..], sub, j) {
        assert s[1..][j..j + |sub|] == s[j + 1..j + 1 + |sub|];
        assert OccursAt(s, sub, j + 1);
      }
    }
  }

  /** A string containing `outer` contains every piece of it. */
  lemma ContainsPiece(s: string, outer: string, from: nat, to: nat)
    requires from <= to <= |outer|
    requires Contains(s, outer)
    ensures Contains(s, outer[from..to])
  {
    ContainsIff(s, outer);
    var i: nat :| OccursAt(s, outer, i);
    assert s[i..i + |outer|] == outer;
    assert forall k :: 0 <= k < to - from ==> outer[from..to][k] == s[i + from + k];
    assert s[i + from..i + to] == outer[from..to];
    assert OccursAt(s, outer[from..to], i + from);
    ContainsIff(s, outer[from..to]);
  }

  // ---------------------------------------------------------------------
  // Decimal rendering of an int64, and strconv.ParseInt(s, 10, 64)

  const MinInt64: int := -0x8000_0000_0000_0000
  const MaxInt64: int := 0x7FFF_FFFF_FFFF_FFFF

  predicate IsInt64(n: int) {
    MinInt64 <= n <= MaxInt64
  }

  /** Go's wrap-around of an int64 result: the value congruent to `x`
      modulo 2^64 that lies in the int64 range. */
  function Wrap64(x: int): (r: int)
    ensures IsInt64(r)
    ensures IsInt64(x) ==> r == x
    ensures (x - r) % 0x1_0000_0000_0000_0000 == 0
  {
    (x - MinInt64) % 0x1_0000_0000_0000_0000 + MinInt64
  }

  predicate IsDigit(c: char) {
    '0' <= c <= '9'
  }

  predicate AllDigits(s: string) {
    forall i :: 0 <= i < |s| ==> IsDigit(s[i])
  }

  function DigitChar(d: nat): (c: char)
    requires d < 10
    ensures IsDigit(c)
  {
    ('0' as int + d) as char
  }

  /** The decimal digits of `n`, most significant first, without leading zeros. */
  function Decimal(n: nat): (s: string)
    ensures |s| >= 1 && AllDigits(s)
  {
    if n < 10 then [DigitChar(n)] else Decimal(n / 10) + [DigitChar(n % 10)]
  }

  /** `fmt.Sprintf("%v", n)` for an integer. */
  function FormatInt(n: int): string {
    if n < 0 then "-" + Decimal(-n) else Decimal(n)
  }

  /** The number a string of decimal digits denotes. */
  function DigitsValue(s: string): nat
    requires AllDigits(s)
  {
    if s == [] then 0 else DigitsValue(s[..|s| - 1]) * 10 + (s[|s| - 1] as int - '0' as int)
  }

  /** `s` without its one optional leading sign. */
  function Unsigned(s: string): (u: string)
    ensures |u| <= |s|
  {
    if |s| > 0 && (s[0] == '+' || s[0] == '-') then s[1..] else s
  }

  /** The number the decimal text `s` denotes, ignoring the int64 range. */
  function SignedValue(s: string): int
    requires AllDigits(Unsigned(s))
  {
    if |s| > 0 && s[0] == '-' then 0 - DigitsValue(Unsigned(s)) else DigitsValue(Unsigned(s))
  }

  /** `strconv.ParseInt(s, 10, 64)`: an optional sign, at least one decimal
      digit and nothing else, and a value inside the int64 range; `None`
      stands for the syntax and range errors. */
  function ParseInt64(s: string): (r: Option<int>)
    ensures r.Some? <==> |Unsigned(s)| > 0 && AllDigits(Unsigned(s)) && IsInt64(SignedValue(s))
    ensures r.Some? ==> r.value == SignedValue(s)
  {
    if |s| == 0 then None
    else
      var neg := s[0] == '-';
      var digits := Unsigned(s);
      if |digits| == 0 || !AllDigits(digits) then None
      else
        var v := DigitsValue(digits);
        var negated: int := 0 - (v as int);
        if neg then (if v <= -MinInt64 then Some(negated) else None)
        else (if v <= MaxInt64 then Some(v) else None)
  }

  /** Reading back the digits `Decimal` writes gives the number. */
  lemma {:induction false} DecimalValue(n: nat)
    ensures DigitsValue(Decimal(n)) == n
  {
    if n >= 10 {
      var s := Decimal(n);
      DecimalValue(n / 10);
      assert s[..|s| - 1] == Decimal(n / 10);
    }
  }

  /** The decimal rendering of any int64 parses back to it. */
  lemma ParseFormatInt(n: int)
    requires IsInt64(n)
    ensures ParseInt64(FormatInt(n)) == Some(n)
  {
    var s := FormatInt(n);
    if n < 0 {
      DecimalValue(-n);
      assert s[1..] == Decimal(-n);
    } else {
      DecimalValue(n);
      assert IsDigit(s[0]);
    }
  }
}
