/**
 * The string primitives of the .NET base library that the service relies on,
 * stated on `seq<char>`: null/empty/white-space tests, decimal formatting of
 * integers (`Int32.ToString`, `Int64.ToString`), integer parsing with the
 * default number style (`int.TryParse`, `long.TryParse`), `String.Split(char)`,
 * ordinal `String.Replace(string, string)`, invariant upper-casing of ASCII
 * letters and ordinal string order.
 */
module Text {
  import opened Wrappers

  const Int32Min: int := -0x8000_0000
  const Int32Max: int := 0x7FFF_FFFF
  const Int64Min: int := -0x8000_0000_0000_0000
  const Int64Max: int := 0x7FFF_FFFF_FFFF_FFFF

  type Int32 = x: int | Int32Min <= x <= Int32Max
  type Int64 = x: int | Int64Min <= x <= Int64Max

  /** `string.IsNullOrEmpty`. */
  predicate IsNullOrEmpty(s: Option<string>) {
    s.None? || s.value == ""
  }

  /** `char.IsWhiteSpace`: the Unicode separators and the control characters U+0009-U+000D and U+0085. */
  predicate IsWhiteSpace(c: char) {
    || ('\U{0009}' <= c <= '\U{000D}')
    || c == ' ' || c == '\U{0085}' || c == '\U{00A0}' || c == '\U{1680}'
    || ('\U{2000}' <= c <= '\U{200A}')
    || c == '\U{2028}' || c == '\U{2029}' || c == '\U{202F}' || c == '\U{205F}' || c == '\U{3000}'
  }

  /** `string.IsNullOrWhiteSpace`. */
  predicate IsNullOrWhiteSpace(s: Option<string>) {
    s.None? || forall i :: 0 <= i < |s.value| ==> IsWhiteSpace(s.value[i])
  }

  // ---------------------------------------------------------------------------
  // Decimal formatting and parsing

  predicate IsDigit(c: char) {
    '0' <= c <= '9'
  }

  predicate AllDigits(s: string) {
    forall i :: 0 <= i < |s| ==> IsDigit(s[i])
  }

  function DigitChar(d: nat): (c: char)
    requires d < 10
    ensures IsDigit(c)
  {
    ('0' as int + d) as char
  }

  /** The value of a run of decimal digits, most significant first. */
  function DecimalValue(s: string): nat
    requires AllDigits(s)
  {
    if s == [] then 0 else 10 * DecimalValue(s[..|s| - 1]) + (s[|s| - 1] as int - '0' as int)
  }

  /** The invariant-culture decimal digits of a natural number, without leading zeros. */
  function NatToDecimal(n: nat): (r: string)
    ensures 0 < |r| && AllDigits(r)
    ensures DecimalValue(r) == n
    ensures n < 10 <==> |r| == 1
  {
    if n < 10 then [DigitChar(n)]
    else
      var r := NatToDecimal(n / 10) + [DigitChar(n % 10)];
      assert r[..|r| - 1] == NatToDecimal(n / 10);
      r
  }

  /** `Int32.ToString()` / `Int64.ToString()`: a minus sign for negative values, then the digits. */
  function IntToDecimal(n: int): (r: string)
  {
    if n < 0 then "-" + NatToDecimal(-n) else NatToDecimal(n)
  }

  /** The white space that the default number style lets surround a number. */
  predicate IsNumberWhite(c: char) {
    ('\U{0009}' <= c <= '\U{000D}') || c == ' '
  }

  /** The length of the longest prefix of `s` whose characters all satisfy `p`. */
  function CountLeading(s: string, p: char -> bool): (k: nat)
    ensures k <= |s|
    ensures forall i :: 0 <= i < k ==> p(s[i])
    ensures k < |s| ==> !p(s[k])
  {
    if s == [] || !p(s[0]) then 0 else 1 + CountLeading(s[1..], p)
  }

  /**
   * `TryParse` with the default `NumberStyles.Integer` and invariant signs:
   * optional leading white space, an optional `-` or `+`, one or more ASCII
   * digits, optional trailing white space, then only NUL characters; the
   * value must lie in `lo..hi`, otherwise parsing fails.
   */
  function ParseInteger(s: string, lo: int, hi: int): (r: Option<int>)
    ensures r.Some? ==> lo <= r.value <= hi
  {
    var t := s[CountLeading(s, IsNumberWhite)..];
    var negative := |t| > 0 && t[0] == '-';
    var u := if |t| > 0 && (t[0] == '-' || t[0] == '+') then t[1..] else t;
    var d := CountLeading(u, IsDigit);
    var rest := u[d..];
    var tail := rest[CountLeading(rest, IsNumberWhite)..];
    if d == 0 || exists i :: 0 <= i < |tail| && tail[i] != '\0' then None
    else
      var magnitude: int := DecimalValue(u[..d]);
      var n: int := if negative then -magnitude else magnitude;
      if lo <= n <= hi then Some(n) else None
  }

  /** `int.TryParse(s, out var n)`. */
  function TryParseInt32(s: string): (r: Option<Int32>)
  {
    match ParseInteger(s, Int32Min, Int32Max)
    case Some(n) => Some(n)
    case None => None
  }

  /** `long.TryParse(s, out var n)`. */
  function TryParseInt64(s: string): (r: Option<Int64>)
  {
    match ParseInteger(s, Int64Min, Int64Max)
    case Some(n) => Some(n)
    case None => None
  }

  lemma CountLeadingAll(s: string, p: char -> bool)
    requires forall i :: 0 <= i < |s| ==> p(s[i])
    ensures CountLeading(s, p) == |s|
  {
  }

  /** Parsing the decimal form of any value in range gives that value back. */
  lemma {:induction false} ParseIntToDecimal(n: int, lo: int, hi: int)
    requires lo <= n <= hi
    ensures ParseInteger(IntToDecimal(n), lo, hi) == Some(n)
  {
    var s := IntToDecimal(n);
    var digits := NatToDecimal(if n < 0 then -n else n);
    assert !IsNumberWhite(s[0]);
    assert CountLeading(s, IsNumberWhite) == 0;
    assert s[0..] == s;
    var u := if n < 0 then s[1..] else s;
    assert u == digits;
    CountLeadingAll(digits, IsDigit);
    assert u[..|digits|] == digits;
    assert u[|digits|..] == [];
  }

  lemma Int32ParsesBack(n: Int32)
    ensures TryParseInt32(IntToDecimal(n)) == Some(n)
  {
    ParseIntToDecimal(n, Int32Min, Int32Max);
  }

  lemma Int64ParsesBack(n: Int64)
    ensures TryParseInt64(IntToDecimal(n)) == Some(n)
  {
    ParseIntToDecimal(n, Int64Min, Int64Max);
  }

  /** Decimal forms never contain an underscore, a white-space character or a brace. */
  lemma DecimalCharacters(n: int)
    ensures forall i :: 0 <= i < |IntToDecimal(n)| ==> IntToDecimal(n)[i] == '-' || IsDigit(IntToDecimal(n)[i])
  {
  }

  // ---------------------------------------------------------------------------
  // String.Split(char)

  /** The index of the first occurrence of `c` in `s`. */
  function IndexOf(s: string, c: char): (i: nat)
    requires c in s
    ensures i < |s| && s[i] == c && c !in s[..i]
  {
    if s[0] == c then 0
    else
      var i := 1 + IndexOf(s[1..], c);
      assert s[..i] == [s[0]] + s[1..][..i - 1];
      i
  }

  /** `s.Split(sep)`: the pieces between separators, empty pieces included. */
  function Split(s: string, sep: char): (parts: seq<string>)
    ensures 0 < |parts|
    ensures forall k :: 0 <= k < |parts| ==> sep !in parts[k]
    decreases |s|
  {
    if sep !in s then [s]
    else
      var i := IndexOf(s, sep);
      [s[..i]] + Split(s[i + 1..], sep)
  }

  /** `string.Join(sep, parts)`, the reference inverse of `Split`. */
  function Join(parts: seq<string>, sep: char): string
    requires 0 < |parts|
  {
    if |parts| == 1 then parts[0] else parts[0] + [sep] + Join(parts[1..], sep)
  }

  /** Splitting and joining back restores the string. */
  lemma {:induction false} JoinSplit(s: string, sep: char)
    ensures Join(Split(s, sep), sep) == s
    decreases |s|
  {
    if sep in s {
      var i := IndexOf(s, sep);
      JoinSplit(s[i + 1..], sep);
      assert s == s[..i] + [sep] + s[i + 1..];
    }
  }

  /** Pieces free of the separator are recovered by splitting their join. */
  lemma {:induction false} SplitJoin(parts: seq<string>, sep: char)
    requires 0 < |parts|
    requires forall k :: 0 <= k < |parts| ==> sep !in parts[k]
    ensures Split(Join(parts, sep), sep) == parts
  {
    if |parts| > 1 {
      var s := Join(parts, sep);
      var p := parts[0];
      assert s == p + [sep] + Join(parts[1..], sep);
      assert s[|p|] == sep;
      assert s[..|p|] == p;
      var i := IndexOf(s, sep);
      assert sep !in s[..|p|];
      assert i == |p|;
      assert s[i + 1..] == Join(parts[1..], sep);
      SplitJoin(parts[1..], sep);
    }
  }

  /** Two separator-free pieces joined by the separator split back into exactly those two. */
  lemma SplitPair(a: string, b: string, sep: char)
    requires sep !in a && sep !in b
    ensures Split(a + [sep] + b, sep) == [a, b]
  {
    SplitJoin([a, b], sep);
    assert Join([a, b], sep) == a + [sep] + Join([b], sep);
  }

  // ---------------------------------------------------------------------------
  // String.Replace(string, string), ordinal

  /** `pat` occurs in `s` starting at index `k`. */
  predicate OccursAt(s: string, pat: string, k: nat) {
    k + |pat| <= |s| && s[k..k + |pat|] == pat
  }

  predicate Occurs(s: string, pat: string) {
    exists k: nat :: k <= |s| && OccursAt(s, pat, k)
  }

  /**
   * `s.Replace(pat, rep)`: scanning from the left, every non-overlapping
   * occurrence of `pat` is replaced by `rep`.
   */
  function ReplaceAll(s: string, pat: string, rep: string): string
    requires 0 < |pat|
    decreases |s|
  {
    if |s| < |pat| then s
    else if s[..|pat|] == pat then rep + ReplaceAll(s[|pat|..], pat, rep)
    else [s[0]] + ReplaceAll(s[1..], pat, rep)
  }

  /** Without an occurrence of the pattern, `Replace` returns the string unchanged. */
  lemma {:induction false} ReplaceAllAbsent(s: string, pat: string, rep: string)
    requires 0 < |pat| && !Occurs(s, pat)
    ensures ReplaceAll(s, pat, rep) == s
    decreases |s|
  {
    if |s| >= |pat| {
      assert !OccursAt(s, pat, 0);
      assert s[..|pat|] != pat;
      if Occurs(s[1..], pat) {
        var k: nat :| k <= |s[1..]| && OccursAt(s[1..], pat, k);
        assert s[k + 1..k + 1 + |pat|] == s[1..][k..k + |pat|];
        assert OccursAt(s, pat, k + 1);
        assert false;
      }
      ReplaceAllAbsent(s[1..], pat, rep);
    }
  }

  /** A string without the pattern's first character contains no occurrence of the pattern. */
  lemma FirstCharAbsent(s: string, pat: string)
    requires 0 < |pat| && pat[0] !in s
    ensures !Occurs(s, pat)
  {
    forall k: nat | k <= |s|
      ensures !OccursAt(s, pat, k)
    {
      if k + |pat| <= |s| {
        assert s[k..k + |pat|][0] == s[k];
      }
    }
  }

  /** A string whose first character does not start the pattern keeps that character and goes on with the rest. */
  lemma SkipFirst(a: string, pat: string, b: string, rep: string)
    requires 0 < |pat| && a != [] && a[0] != pat[0]
    ensures ReplaceAll(a + pat + b, pat, rep) == [a[0]] + ReplaceAll(a[1..] + pat + b, pat, rep)
  {
    var s := a + pat + b;
    assert s[..|pat|][0] == a[0];
    assert s[1..] == a[1..] + pat + b;
  }

  /**
   * When the text before an occurrence of the pattern does not contain the
   * pattern's first character, that text is kept, the occurrence becomes
   * `rep`, and replacement carries on after it.
   */
  lemma {:induction false} ReplaceAllSplice(a: string, pat: string, b: string, rep: string)
    requires 0 < |pat| && pat[0] !in a
    ensures ReplaceAll(a + pat + b, pat, rep) == a + rep + ReplaceAll(b, pat, rep)
    decreases |a|
  {
    if a == [] {
      var s := a + pat + b;
      assert s == pat + b;
      assert s[..|pat|] == pat;
      assert s[|pat|..] == b;
    } else {
      SkipFirst(a, pat, b, rep);
      ReplaceAllSplice(a[1..], pat, b, rep);
      var tail := rep + ReplaceAll(b, pat, rep);
      assert [a[0]] + (a[1..] + tail) == ([a[0]] + a[1..]) + tail;
      assert [a[0]] + a[1..] == a;
    }
  }

  /** Replacing the pattern by itself changes nothing. */
  lemma {:induction false} ReplaceAllIdentity(s: string, pat: string)
    requires 0 < |pat|
    ensures ReplaceAll(s, pat, pat) == s
    decreases |s|
  {
    if |s| >= |pat| {
      if s[..|pat|] == pat {
        ReplaceAllIdentity(s[|pat|..], pat);
        assert s == s[..|pat|] + s[|pat|..];
      } else {
        ReplaceAllIdentity(s[1..], pat);
        assert s == [s[0]] + s[1..];
      }
    }
  }

  // ---------------------------------------------------------------------------
  // Upper-casing and ordinal order

  function UpperChar(c: char): char {
    if 'a' <= c <= 'z' then (c as int - 32) as char else c
  }

  /** `ToUpper()` restricted to ASCII letters; every other character is kept. */
  function ToUpperAscii(s: string): (r: string)
    ensures |r| == |s|
    ensures forall i :: 0 <= i < |s| ==> r[i] == UpperChar(s[i])
  {
    seq(|s|, i requires 0 <= i < |s| => UpperChar(s[i]))
  }

  lemma ToUpperAsciiIdempotent(s: string)
    ensures ToUpperAscii(ToUpperAscii(s)) == ToUpperAscii(s)
  {
  }

  /** Ordinal (code-point by code-point) string order; a proper prefix comes first. */
  predicate OrdinalLe(a: string, b: string) {
    if a == [] then true
    else if b == [] then false
    else if a[0] != b[0] then a[0] < b[0]
    else OrdinalLe(a[1..], b[1..])
  }

  lemma {:induction false} OrdinalTotal(a: string, b: string)
    ensures OrdinalLe(a, b) || OrdinalLe(b, a)
  {
    if a != [] && b != [] && a[0] == b[0] {
      OrdinalTotal(a[1..], b[1..]);
    }
  }

  lemma {:induction false} OrdinalTransitive(a: string, b: string, c: string)
    requires OrdinalLe(a, b) && OrdinalLe(b, c)
    ensures OrdinalLe(a, c)
  {
    if a != [] && b != [] && c != [] && a[0] == b[0] && b[0] == c[0] {
      OrdinalTransitive(a[1..], b[1..], c[1..]);
    }
  }

  lemma {:induction false} OrdinalAntisymmetric(a: string, b: string)
    requires OrdinalLe(a, b) && OrdinalLe(b, a)
    ensures a == b
  {
    if a != [] && b != [] {
      OrdinalAntisymmetric(a[1..], b[1..]);
    }
  }
}
