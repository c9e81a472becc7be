/** The .NET string operations the headless code relies on, written out over
  * `seq<char>`: white-space tests, trimming, ordinal prefix and substring tests,
  * ASCII case folding, splitting on one character, and `int.TryParse` /
  * `int.ToString` for 32-bit integers. */
module Text {
  import opened Wrappers

  const Int32Min: int := -0x8000_0000
  const Int32Max: int := 0x7FFF_FFFF

  predicate IsInt32(n: int) { Int32Min <= n <= Int32Max }

  /** `char.IsWhiteSpace`: the Unicode space, line and paragraph separators,
    * U+0009..U+000D and U+0085. */
  predicate IsWhiteSpace(c: char) {
    c == ' ' || ('\t' <= c <= '\r') || c == '\U{0085}' || c == '\U{00A0}'
    || c == '\U{1680}' || ('\U{2000}' <= c <= '\U{200A}') || c == '\U{2028}'
    || c == '\U{2029}' || c == '\U{202F}' || c == '\U{205F}' || c == '\U{3000}'
  }

  predicate AllWhiteSpace(s: string) {
    forall i :: 0 <= i < |s| ==> IsWhiteSpace(s[i])
  }

  /** `string.IsNullOrEmpty` */
  predicate IsNullOrEmpty(s: Option<string>) {
    s.None? || s.value == ""
  }

  /** `string.IsNullOrWhiteSpace` */
  predicate IsNullOrWhiteSpace(s: Option<string>) {
    s.None? || AllWhiteSpace(s.value)
  }

  /** Ordinal `StartsWith`. */
  predicate StartsWith(s: string, prefix: string) {
    |prefix| <= |s| && s[..|prefix|] == prefix
  }

  /** Ordinal `Contains`. */
  predicate Contains(s: string, sub: string) {
    exists i: nat | i + |sub| <= |s| :: OccursAt(s, sub, i)
  }

  predicate OccursAt(s: string, sub: string, i: nat)
    requires i + |sub| <= |s|
  {
    s[i..i + |sub|] == sub
  }

  /** Drops the leading characters that satisfy `w`. */
  function TrimStartWhere(s: string, w: char -> bool): (r: string)
    ensures |r| <= |s| && r == s[|s| - |r|..]
    ensures forall k :: 0 <= k < |s| - |r| ==> w(s[k])
    ensures |r| > 0 ==> !w(r[0])
    decreases |s|
  {
    if |s| > 0 && w(s[0]) then TrimStartWhere(s[1..], w) else s
  }

  /** Drops the trailing characters that satisfy `w`. */
  function TrimEndWhere(s: string, w: char -> bool): (r: string)
    ensures |r| <= |s| && r == s[..|r|]
    ensures forall k :: |r| <= k < |s| ==> w(s[k])
    ensures |r| > 0 ==> !w(r[|r| - 1])
    decreases |s|
  {
    if |s| > 0 && w(s[|s| - 1]) then TrimEndWhere(s[..|s| - 1], w) else s
  }

  function TrimWhere(s: string, w: char -> bool): string {
    TrimEndWhere(TrimStartWhere(s, w), w)
  }

  /** `string.Trim()` */
  function Trim(s: string): string {
    TrimWhere(s, IsWhiteSpace)
  }

  /** Trimming by any test keeps the piece `s[i..j]` of the original, and
    * only matching characters are cut off on either side. */
  lemma TrimWhereBounds(s: string, w: char -> bool) returns (i: nat, j: nat)
    ensures i <= j <= |s| && TrimWhere(s, w) == s[i..j]
    ensures forall k :: 0 <= k < i ==> w(s[k])
    ensures forall k :: j <= k < |s| ==> w(s[k])
  {
    var a := TrimStartWhere(s, w);
    i := |s| - |a|;
    var b := TrimEndWhere(a, w);
    j := i + |b|;
    assert b == s[i..j];
    forall k | j <= k < |s|
      ensures w(s[k])
    {
      assert s[k] == a[k - i];
    }
  }

  /** A string trimmed by a test neither starts nor ends with a matching character. */
  lemma TrimWhereEnds(s: string, w: char -> bool)
    ensures var r := TrimWhere(s, w); |r| > 0 ==> !w(r[0]) && !w(r[|r| - 1])
  {
    var a := TrimStartWhere(s, w);
    var b := TrimEndWhere(a, w);
    if |b| > 0 {
      assert b[0] == a[0];
    }
  }

  /** A trimmed string is a contiguous piece of the original, it has no white
    * space at either end, and everything cut off was white space. */
  lemma TrimIsTightSlice(s: string)
    ensures exists i, j :: (0 <= i <= j <= |s| && Trim(s) == s[i..j]
      && (forall k :: 0 <= k < i ==> IsWhiteSpace(s[k]))
      && (forall k :: j <= k < |s| ==> IsWhiteSpace(s[k])))
    ensures |Trim(s)| > 0 ==> !IsWhiteSpace(Trim(s)[0]) && !IsWhiteSpace(Trim(s)[|Trim(s)| - 1])
  {
    assert Trim(s) == TrimWhere(s, IsWhiteSpace);
    var i, j := TrimWhereBounds(s, IsWhiteSpace);
    TrimWhereEnds(s, IsWhiteSpace);
  }

  /** ASCII upper-case letters to lower case. */
  function ToLowerChar(c: char): char {
    if 'A' <= c <= 'Z' then (c as int + 32) as char else c
  }

  /** `ToLowerInvariant`, restricted to the ASCII letters. */
  function ToLower(s: string): (r: string)
    ensures |r| == |s|
    ensures forall i :: 0 <= i < |s| ==> r[i] == ToLowerChar(s[i])
  {
    seq(|s|, i requires 0 <= i < |s| => ToLowerChar(s[i]))
  }

  lemma ToLowerIdempotent(s: string)
    ensures ToLower(ToLower(s)) == ToLower(s)
  {
  }

  /** `string.Equals(a, b, StringComparison.InvariantCultureIgnoreCase)` on ASCII. */
  predicate EqualsIgnoreCase(a: string, b: string): (r: bool)
    ensures r <==> |a| == |b| && forall i :: 0 <= i < |a| ==> ToLowerChar(a[i]) == ToLowerChar(b[i])
  {
    ToLower(a) == ToLower(b)
  }

  /** Index of the first `c` in `s`. */
  function IndexOf(s: string, c: char): (i: nat)
    requires c in s
    ensures i < |s| && s[i] == c && c !in s[..i]
  {
    if s[0] == c then 0 else 1 + IndexOf(s[1..], c)
  }

  /** `string.Split(char)`: every piece, empty ones included. */
  function Split(s: string, sep: char): (r: seq<string>)
    ensures |r| >= 1
    ensures forall k :: 0 <= k < |r| ==> sep !in r[k]
    decreases |s|
  {
    if sep !in s then [s]
    else
      var i := IndexOf(s, sep);
      [s[..i]] + Split(s[i + 1..], sep)
  }

  /** `string.Join(sep, parts)` */
  function Join(parts: seq<string>, sep: char): string
    requires |parts| >= 1
  {
    if |parts| == 1 then parts[0] else parts[0] + [sep] + Join(parts[1..], sep)
  }

  /** Splitting loses nothing: joining the pieces with the separator gives the
    * string back. */
  lemma {:induction false} JoinSplit(s: string, sep: char)
    ensures Join(Split(s, sep), sep) == s
    decreases |s|
  {
    if sep in s {
      var i := IndexOf(s, sep);
      var rest := Split(s[i + 1..], sep);
      var parts := Split(s, sep);
      assert parts == [s[..i]] + rest;
      assert |parts| > 1 && parts[0] == s[..i] && parts[1..] == rest;
      assert Join(parts, sep) == s[..i] + [sep] + Join(rest, sep);
      JoinSplit(s[i + 1..], sep);
      assert s == s[..i] + [sep] + s[i + 1..];
    }
  }

  /** The number of pieces is one more than the number of separators. */
  lemma {:induction false} SplitCount(s: string, sep: char)
    ensures |Split(s, sep)| == multiset(s)[sep] + 1
    decreases |s|
  {
    if sep in s {
      var i := IndexOf(s, sep);
      SplitCount(s[i + 1..], sep);
      assert s == s[..i] + [sep] + s[i + 1..];
      assert multiset(s) == multiset(s[..i]) + multiset{sep} + multiset(s[i + 1..]);
    } else {
      assert multiset(s)[sep] == 0;
    }
  }

  /** The pieces by the number of separators: none leaves the string whole,
    * one cuts it at that separator, more give three pieces or more. */
  lemma SplitCases(s: string, sep: char)
    ensures multiset(s)[sep] == 0 ==> Split(s, sep) == [s]
    ensures multiset(s)[sep] == 1 ==>
      var i := IndexOf(s, sep);
      Split(s, sep) == [s[..i], s[i + 1..]]
    ensures multiset(s)[sep] >= 2 ==> |Split(s, sep)| >= 3
  {
    SplitCount(s, sep);
    if sep in s {
      var i := IndexOf(s, sep);
      assert s == s[..i] + [sep] + s[i + 1..];
      assert multiset(s) == multiset(s[..i]) + multiset{sep} + multiset(s[i + 1..]);
      assert multiset(s[..i])[sep] == 0;
      if multiset(s)[sep] == 1 {
        assert sep !in s[i + 1..];
      }
    } else {
      assert multiset(s)[sep] == 0;
    }
  }

  // ---- int.TryParse / int.ToString -----------------------------------------

  /** The white space `NumberStyles.Integer` lets surround a number. */
  predicate IsNumberWhite(c: char) { c == ' ' || '\t' <= c <= '\r' }

  predicate IsDigit(c: char) { '0' <= c <= '9' }

  predicate AllDigits(s: string) { forall i :: 0 <= i < |s| ==> IsDigit(s[i]) }

  function DigitValue(c: char): nat requires IsDigit(c) { c as int - '0' as int }

  function DigitChar(d: nat): (c: char)
    requires d < 10
    ensures IsDigit(c) && DigitValue(c) == d
  {
    ('0' as int + d) as char
  }

  /** The value of a run of decimal digits, most significant first. */
  function DigitsValue(s: string): nat
    requires AllDigits(s)
  {
    if s == [] then 0 else DigitsValue(s[..|s| - 1]) * 10 + DigitValue(s[|s| - 1])
  }

  /** `int.TryParse(s, out v)` with the invariant culture's signs: optional
    * surrounding number white space, an optional sign, at least one digit,
    * and a value that fits in 32 bits. */
  function TryParseInt32(s: string): (r: Option<int>)
    ensures r.Some? ==> IsInt32(r.value)
  {
    var t := TrimWhere(s, IsNumberWhite);
    if |t| == 0 then None
    else
      var signed := t[0] == '-' || t[0] == '+';
      var digits := if signed then t[1..] else t;
      if |digits| == 0 || !AllDigits(digits) then None
      else
        var v: int := if t[0] == '-' then 0 - (DigitsValue(digits) as int) else DigitsValue(digits);
        if IsInt32(v) then Some(v) else None
  }

  function NatToString(n: nat): (s: string)
    ensures |s| > 0 && AllDigits(s)
  {
    if n < 10 then [DigitChar(n)] else NatToString(n / 10) + [DigitChar(n % 10)]
  }

  /** `int.ToString()` */
  function IntToString(n: int): (s: string)
    ensures |s| > 0
    ensures n >= 0 ==> AllDigits(s)
    ensures n < 0 ==> s[0] == '-' && |s| > 1 && AllDigits(s[1..])
  {
    if n < 0 then "-" + NatToString(-n) else NatToString(n)
  }

  lemma {:induction false} DigitsOfNat(n: nat)
    ensures DigitsValue(NatToString(n)) == n
  {
    if n >= 10 {
      DigitsOfNat(n / 10);
      var s := NatToString(n);
      assert s[..|s| - 1] == NatToString(n / 10);
    }
  }

  lemma NoNumberWhite(s: string)
    requires |s| > 0 && (s[0] == '-' || IsDigit(s[0])) && AllDigits(s[1..])
    ensures TrimWhere(s, IsNumberWhite) == s
  {
    assert !IsNumberWhite(s[0]);
    assert !IsNumberWhite(s[|s| - 1]);
  }

  /** Printing a 32-bit integer and parsing it back gives the same integer. */
  lemma ParseIntToString(n: int)
    requires IsInt32(n)
    ensures TryParseInt32(IntToString(n)) == Some(n)
  {
    var s := IntToString(n);
    if n < 0 {
      var digits := NatToString(-n);
      DigitsOfNat(-n);
      assert s == "-" + digits && s[0] == '-' && s[1..] == digits;
      NoNumberWhite(s);
      assert DigitsValue(digits) == -n;
    } else {
      var digits := NatToString(n);
      DigitsOfNat(n);
      assert s == digits && IsDigit(s[0]);
      assert AllDigits(s[1..]);
      NoNumberWhite(s);
      assert s[0] != '-' && s[0] != '+';
    }
  }
}
