/**
 * Character and string operations the app takes from Foundation and the
 * Swift standard library: ASCII case mapping (`lowercased()`,
 * `capitalized`), decimal rendering of an `Int` (`String(n)`, string
 * interpolation) and its inverse, `Int(String)`.
 */
module Text {
  import opened Base

  // ---------------------------------------------------------------------
  // Case mapping (ASCII only)
  // ---------------------------------------------------------------------

  predicate IsUpper(c: char) { 'A' <= c <= 'Z' }
  predicate IsLower(c: char) { 'a' <= c <= 'z' }

  function Lower(c: char): (r: char)
    ensures !IsUpper(r)
  {
    if IsUpper(c) then (c as int + 32) as char else c
  }

  function Upper(c: char): (r: char)
    ensures !IsLower(r)
  {
    if IsLower(c) then (c as int - 32) as char else c
  }

  /** `String.lowercased()`, restricted to ASCII letters. */
  function Lowercase(s: string): (r: string)
  {
    seq(|s|, i requires 0 <= i < |s| => Lower(s[i]))
  }

  /** Characters that end a word for `capitalized`. */
  predicate IsSeparator(c: char) { c == ' ' || c == '\t' || c == '\n' }

  /** Position `i` of `s` begins a word. */
  predicate StartsWord(s: string, i: int)
    requires 0 <= i < |s|
  {
    i == 0 || IsSeparator(s[i - 1])
  }

  /**
   * `String.capitalized`: the first letter of every word upper case, every
   * other letter lower case. Computed left to right, remembering whether the
   * previous character was a separator.
   */
  function Capitalize(s: string): (r: string)
    ensures |r| == |s|
    ensures forall i :: 0 <= i < |s| ==>
      r[i] == if StartsWord(s, i) then Upper(s[i]) else Lower(s[i])
  {
    CapitalizeAt(s, 0)
  }

  /** Capitalizes the suffix `s[k..]`, with position `k` judged against `s`. */
  function CapitalizeAt(s: string, k: nat): (r: string)
    requires k <= |s|
    ensures |r| == |s| - k
    ensures forall i :: k <= i < |s| ==>
      r[i - k] == if StartsWord(s, i) then Upper(s[i]) else Lower(s[i])
    decreases |s| - k
  {
    if k == |s| then []
    else [if StartsWord(s, k) then Upper(s[k]) else Lower(s[k])] + CapitalizeAt(s, k + 1)
  }

  /** A single word of lower-case letters only has its first letter raised. */
  lemma CapitalizeLowerWord(s: string)
    requires |s| > 0 && forall i :: 0 <= i < |s| ==> IsLower(s[i])
    ensures Capitalize(s) == [Upper(s[0])] + s[1..]
  {
    var r, w := Capitalize(s), [Upper(s[0])] + s[1..];
    forall i | 0 <= i < |s|
      ensures r[i] == w[i]
    {
      if i > 0 {
        assert !IsSeparator(s[i - 1]) && Lower(s[i]) == s[i];
      }
    }
  }

  lemma LowercaseIdempotent(s: string)
    ensures Lowercase(Lowercase(s)) == Lowercase(s)
  {
  }

  /** Capitalizing an already capitalized string changes nothing. */
  lemma CapitalizeIdempotent(s: string)
    ensures Capitalize(Capitalize(s)) == Capitalize(s)
  {
    var c := Capitalize(s);
    forall i | 0 <= i < |s|
      ensures Capitalize(c)[i] == c[i]
    {
      if i > 0 {
        assert IsSeparator(c[i - 1]) == IsSeparator(s[i - 1]);
      }
    }
  }

  /** `capitalized` only changes the case of letters. */
  lemma LowercaseOfCapitalize(s: string)
    ensures Lowercase(Capitalize(s)) == Lowercase(s)
  {
  }

  // ---------------------------------------------------------------------
  // Searching
  // ---------------------------------------------------------------------

  predicate HasPrefix(s: string, p: string)
  {
    |p| <= |s| && s[..|p|] == p
  }

  /** `String.hasSuffix`. */
  predicate HasSuffix(s: string, t: string)
  {
    |t| <= |s| && s[|s| - |t|..] == t
  }

  /** `String.contains` with a string argument: `t` occurs in `s`. */
  predicate Contains(s: string, t: string)
  {
    exists i | 0 <= i <= |s| - |t| :: OccursAt(s, t, i)
  }

  /** `t` occurs in `s` starting at index `i`. */
  predicate OccursAt(s: string, t: string, i: int)
  {
    0 <= i <= |s| - |t| && s[i..i + |t|] == t
  }

  /** Index of the last occurrence of `c` in `s`, if any. */
  function LastIndexOf(s: string, c: char): (r: Option<nat>)
    ensures r.None? <==> c !in s
    ensures r.Some? ==> r.value < |s| && s[r.value] == c && c !in s[r.value + 1..]
  {
    if s == [] then None
    else if s[|s| - 1] == c then Some(|s| - 1)
    else
      var r := LastIndexOf(s[..|s| - 1], c);
      assert s == s[..|s| - 1] + [s[|s| - 1]];
      r
  }

  /** `[String].joined(separator:)`. */
  function Join(parts: seq<string>, sep: string): string
  {
    if parts == [] then ""
    else if |parts| == 1 then parts[0]
    else parts[0] + sep + Join(parts[1..], sep)
  }

  /** A single part is joined to itself, with no separator. */
  lemma JoinSingle(x: string, sep: string)
    ensures Join([x], sep) == x
  {
  }

  /** Appending a part to a non-empty list appends the separator and the part. */
  lemma {:induction false} JoinSnoc(parts: seq<string>, x: string, sep: string)
    requires parts != []
    ensures Join(parts + [x], sep) == Join(parts, sep) + sep + x
    decreases |parts|
  {
    var whole := parts + [x];
    assert whole[0] == parts[0] && whole[1..] == parts[1..] + [x];
    if |parts| == 1 {
      assert whole[1..] == [x];
      JoinSingle(x, sep);
    } else {
      JoinSnoc(parts[1..], x, sep);
    }
  }

  // ---------------------------------------------------------------------
  // Decimal rendering and `Int(String)`
  // ---------------------------------------------------------------------

  /** The range of Swift's 64-bit `Int`. */
  const IntMin: int := -0x8000_0000_0000_0000
  const IntMax: int := 0x7fff_ffff_ffff_ffff

  predicate IsDigit(c: char) { '0' <= c <= '9' }

  predicate AllDigits(s: string)
  {
    forall i :: 0 <= i < |s| ==> IsDigit(s[i])
  }

  function DigitChar(d: nat): (c: char)
    requires d < 10
    ensures IsDigit(c)
  {
    ('0' as int + d) as char
  }

  function DigitValue(c: char): (d: nat)
    requires IsDigit(c)
    ensures d < 10
  {
    c as int - '0' as int
  }

  /** The decimal digits of a natural number, most significant first. */
  function Natural(n: nat): (r: string)
    ensures |r| > 0 && AllDigits(r)
  {
    if n < 10 then [DigitChar(n)] else Natural(n / 10) + [DigitChar(n % 10)]
  }

  /** `String(n)` for an `Int`: a minus sign for negatives, then the digits. */
  function Decimal(n: int): (r: string)
    ensures |r| > 0
    ensures forall c :: c in r ==> IsDigit(c) || c == '-'
  {
    if n < 0 then "-" + Natural(-n) else Natural(n)
  }

  /** The value of a string of decimal digits. */
  function DigitsValue(s: string): nat
    requires AllDigits(s)
  {
    if s == [] then 0 else DigitsValue(s[..|s| - 1]) * 10 + DigitValue(s[|s| - 1])
  }

  /**
   * `Int(s)`: an optional sign followed by at least one digit and nothing
   * else; a value outside the 64-bit range gives nil.
   */
  function ParseInt(s: string): (r: Option<int>)
    ensures r.Some? ==> IntMin <= r.value <= IntMax
  {
    if |s| > 0 && (s[0] == '-' || s[0] == '+') then ParseDigits(s[1..], s[0] == '-')
    else ParseDigits(s, false)
  }

  function ParseDigits(digits: string, negative: bool): Option<int>
  {
    if digits == [] || !AllDigits(digits) then None
    else
      var magnitude: int := DigitsValue(digits);
      var v := if negative then -magnitude else magnitude;
      if IntMin <= v <= IntMax then Some(v) else None
  }

  lemma {:induction false} NaturalValue(n: nat)
    ensures DigitsValue(Natural(n)) == n
  {
    if n >= 10 {
      NaturalValue(n / 10);
      var r := Natural(n);
      assert r[..|r| - 1] == Natural(n / 10);
    }
  }

  /** `Int(String(n))` gives back `n` for every 64-bit `n`. */
  lemma ParseDecimal(n: int)
    requires IntMin <= n <= IntMax
    ensures ParseInt(Decimal(n)) == Some(n)
  {
    var m: nat := if n < 0 then -n else n;
    NaturalValue(m);
    var d := Natural(m);
    assert ParseDigits(d, n < 0) == Some(n);
    var s := Decimal(n);
    if n < 0 {
      assert s == "-" + d;
      assert s[0] == '-' && s[1..] == d;
    } else {
      assert s == d && IsDigit(s[0]);
    }
  }

  /** Rendering is injective on the 64-bit range. */
  lemma DecimalInjective(a: int, b: int)
    requires IntMin <= a <= IntMax && IntMin <= b <= IntMax
    requires Decimal(a) == Decimal(b)
    ensures a == b
  {
    ParseDecimal(a);
    ParseDecimal(b);
  }
}
