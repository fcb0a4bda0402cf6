/** The pieces of ECMAScript string and number semantics the front end relies on:
    the white-space set that `String.prototype.trim` strips and `\s` matches,
    `.length` in UTF-16 code units, `startsWith`, `includes`, `split`, `join`,
    the `||` fallback on strings, `Number.parseInt`, number-to-string in
    template literals, and `Math.round` of a percentage. */
module Js {
  import opened Wrappers

  /** WhiteSpace and LineTerminator code points of ECMAScript (section 12.2 and 12.3 of ECMA-262). */
  predicate IsSpace(c: char) {
    var n := c as int;
    || n == 0x09 || n == 0x0A || n == 0x0B || n == 0x0C || n == 0x0D || n == 0x20
    || n == 0xA0 || n == 0x1680 || (0x2000 <= n <= 0x200A)
    || n == 0x2028 || n == 0x2029 || n == 0x202F || n == 0x205F || n == 0x3000 || n == 0xFEFF
  }

  predicate AllSpace(s: string) {
    forall i :: 0 <= i < |s| ==> IsSpace(s[i])
  }

  function TrimStart(s: string): string {
    if s != [] && IsSpace(s[0]) then TrimStart(s[1..]) else s
  }

  function TrimEnd(s: string): string {
    if s != [] && IsSpace(s[|s| - 1]) then TrimEnd(s[..|s| - 1]) else s
  }

  /** `trimStart` removes the longest all-white-space prefix. */
  lemma {:induction false} TrimStartSpec(s: string)
    ensures var r := TrimStart(s);
      && |r| <= |s| && r == s[|s| - |r|..]
      && AllSpace(s[..|s| - |r|])
      && (r != [] ==> !IsSpace(r[0]))
  {
    if s != [] && IsSpace(s[0]) {
      TrimStartSpec(s[1..]);
      var r := TrimStart(s);
      assert s[..|s| - |r|] == [s[0]] + s[1..][..|s| - 1 - |r|];
    }
  }

  /** `trimEnd` removes the longest all-white-space suffix. */
  lemma {:induction false} TrimEndSpec(s: string)
    ensures var r := TrimEnd(s);
      && |r| <= |s| && r == s[..|r|]
      && AllSpace(s[|r|..])
      && (r != [] ==> !IsSpace(r[|r| - 1]))
  {
    if s != [] && IsSpace(s[|s| - 1]) {
      var t := s[..|s| - 1];
      TrimEndSpec(t);
      var r := TrimEnd(s);
      assert s[|r|..] == t[|r|..] + [s[|s| - 1]];
    }
  }

  /** `s.trim()` */
  function Trim(s: string): string {
    TrimEnd(TrimStart(s))
  }

  /** `!s.trim()`: the trimmed text is the empty string. */
  predicate IsBlank(s: string) {
    Trim(s) == ""
  }

  /** A string is blank exactly when every character in it is white space. */
  lemma BlankIffAllSpace(s: string)
    ensures IsBlank(s) <==> AllSpace(s)
  {
    var t := TrimStart(s);
    TrimStartSpec(s);
    TrimEndSpec(t);
    var k := |s| - |t|;
    if IsBlank(s) {
      assert t[|TrimEnd(t)|..] == t;
      assert s[..k] == s;
    } else {
      assert t != [];
      assert t[0] == s[|s| - |t|];
    }
  }

  /** The trimmed text has no white space at either end and is a slice of the original
      whose cut-off ends are white space. */
  lemma TrimIsInnerSlice(s: string)
    ensures var r := Trim(s);
      && (r != [] ==> !IsSpace(r[0]) && !IsSpace(r[|r| - 1]))
      && (exists i :: 0 <= i <= |s| - |r| && r == s[i..i + |r|]
                      && AllSpace(s[..i]) && AllSpace(s[i + |r|..]))
  {
    var t := TrimStart(s);
    TrimStartSpec(s);
    TrimEndSpec(t);
    var r := TrimEnd(t);
    var i := |s| - |t|;
    assert r == s[i..i + |r|];
    assert s[i + |r|..] == t[|r|..];
    if r != [] { assert r[0] == t[0]; }
  }

  /** `s.length`: the number of UTF-16 code units, two for a code point above U+FFFF. */
  function Utf16Length(s: string): (n: nat)
    ensures n >= |s|
    ensures n <= 2 * |s|
  {
    if s == [] then 0 else (if s[0] as int >= 0x10000 then 2 else 1) + Utf16Length(s[1..])
  }

  lemma {:induction false} Utf16LengthConcat(a: string, b: string)
    ensures Utf16Length(a + b) == Utf16Length(a) + Utf16Length(b)
  {
    if a != [] {
      assert (a + b)[0] == a[0] && (a + b)[1..] == a[1..] + b;
      Utf16LengthConcat(a[1..], b);
    } else {
      assert a + b == b;
    }
  }

  /** Trimming never lengthens a text. */
  lemma Utf16LengthOfTrim(s: string)
    ensures Utf16Length(Trim(s)) <= Utf16Length(s)
  {
    var t := TrimStart(s);
    TrimStartSpec(s);
    assert s == s[..|s| - |t|] + t;
    Utf16LengthConcat(s[..|s| - |t|], t);
    var r := TrimEnd(t);
    TrimEndSpec(t);
    assert t == r + t[|r|..];
    Utf16LengthConcat(r, t[|r|..]);
  }

  /** Trimming a trimmed text changes nothing. */
  lemma TrimIdempotent(s: string)
    ensures Trim(Trim(s)) == Trim(s)
  {
    var r := Trim(s);
    TrimIsInnerSlice(s);
    assert TrimStart(r) == r;
    assert TrimEnd(r) == r;
  }

  /** On text from the Basic Multilingual Plane the two lengths agree. */
  lemma {:induction false} Utf16LengthOfBmp(s: string)
    requires forall i :: 0 <= i < |s| ==> s[i] as int < 0x10000
    ensures Utf16Length(s) == |s|
  {
    if s != [] {
      Utf16LengthOfBmp(s[1..]);
    }
  }

  predicate StartsWith(s: string, prefix: string) {
    |prefix| <= |s| && s[..|prefix|] == prefix
  }

  /** `s.includes(sub)` */
  predicate Contains(s: string, sub: string)
    decreases |s|
  {
    StartsWith(s, sub) || (s != [] && Contains(s[1..], sub))
  }

  lemma {:induction false} ContainsAt(s: string, sub: string, i: nat)
    requires i + |sub| <= |s| && s[i..i + |sub|] == sub
    ensures Contains(s, sub)
    decreases i
  {
    if i > 0 {
      assert s[1..][i - 1..i - 1 + |sub|] == sub;
      ContainsAt(s[1..], sub, i - 1);
    }
  }

  /** `s || fallback` for a string `s`. */
  function Or(s: string, fallback: string): (r: string)
    ensures r == s || r == fallback
    ensures r == "" ==> fallback == ""
  {
    if s != "" then s else fallback
  }

  predicate Avoids(x: string, c: char) {
    forall i :: 0 <= i < |x| ==> x[i] != c
  }

  /** `s.split(sep)` for a non-empty separator: the pieces between non-overlapping
      occurrences found left to right; always at least one piece. */
  function Split(s: string, sep: string): (r: seq<string>)
    requires sep != ""
    ensures |r| >= 1
    ensures |sep| == 1 ==> forall k :: 0 <= k < |r| ==> Avoids(r[k], sep[0])
    decreases |s|
  {
    if s == [] then [""]
    else if StartsWith(s, sep) then [""] + Split(s[|sep|..], sep)
    else
      var rest := Split(s[1..], sep);
      [[s[0]] + rest[0]] + rest[1..]
  }

  /** `xs.join(sep)` */
  function Join(xs: seq<string>, sep: string): string {
    if xs == [] then ""
    else if |xs| == 1 then xs[0]
    else xs[0] + sep + Join(xs[1..], sep)
  }

  lemma {:induction false} SplitWithoutSeparator(x: string, sep: string)
    requires sep != "" && Avoids(x, sep[0])
    ensures Split(x, sep) == [x]
    decreases |x|
  {
    if x != [] {
      assert !StartsWith(x, sep) by {
        if |sep| <= |x| { assert x[..|sep|][0] == x[0]; }
      }
      SplitWithoutSeparator(x[1..], sep);
      assert [x[0]] + x[1..] == x;
    }
  }

  lemma {:induction false} SplitAtFirstSeparator(x: string, sep: string, t: string)
    requires sep != "" && Avoids(x, sep[0])
    ensures Split(x + sep + t, sep) == [x] + Split(t, sep)
    decreases |x|
  {
    var s := x + sep + t;
    if x == [] {
      assert s == sep + t;
      assert s[..|sep|] == sep;
      assert s[|sep|..] == t;
    } else {
      assert !StartsWith(s, sep) by { assert s[..|sep|][0] == x[0]; }
      assert s[1..] == x[1..] + sep + t;
      SplitAtFirstSeparator(x[1..], sep, t);
      assert [x[0]] + x[1..] == x;
    }
  }

  /** Splitting a joined list gives the list back when no piece holds the separator's first character. */
  lemma {:induction false} SplitJoin(xs: seq<string>, sep: string)
    requires sep != "" && xs != []
    requires forall k :: 0 <= k < |xs| ==> Avoids(xs[k], sep[0])
    ensures Split(Join(xs, sep), sep) == xs
  {
    if |xs| == 1 {
      SplitWithoutSeparator(xs[0], sep);
    } else {
      SplitJoin(xs[1..], sep);
      SplitAtFirstSeparator(xs[0], sep, Join(xs[1..], sep));
    }
  }

  predicate IsDecimalDigit(c: char) {
    '0' <= c <= '9'
  }

  predicate IsDigitIn(c: char, radix: int) {
    if radix == 16 then IsDecimalDigit(c) || 'a' <= c <= 'f' || 'A' <= c <= 'F'
    else IsDecimalDigit(c)
  }

  function DigitValue(c: char): (d: nat)
    ensures IsDecimalDigit(c) ==> d == c as int - '0' as int
    ensures d < 16
  {
    if IsDecimalDigit(c) then c as int - '0' as int
    else if 'a' <= c <= 'f' then c as int - 'a' as int + 10
    else if 'A' <= c <= 'F' then c as int - 'A' as int + 10
    else 0
  }

  /** The longest prefix of `s` made of digits of the radix. */
  function LeadingDigits(s: string, radix: int): (r: string)
    ensures |r| <= |s| && r == s[..|r|]
    ensures forall i :: 0 <= i < |r| ==> IsDigitIn(r[i], radix)
    ensures |r| < |s| ==> !IsDigitIn(s[|r|], radix)
  {
    if s != [] && IsDigitIn(s[0], radix) then [s[0]] + LeadingDigits(s[1..], radix) else ""
  }

  /** The value of a digit string, most significant digit first. */
  function DigitsValue(ds: string, radix: nat): nat {
    if ds == [] then 0 else DigitsValue(ds[..|ds| - 1], radix) * radix + DigitValue(ds[|ds| - 1])
  }

  /** `Number.parseInt(s)` with no radix: leading white space and one sign are skipped, a `0x`/`0X`
      prefix selects base 16, and the longest run of digits is read; `None` is `NaN`. */
  function ParseInt(s: string): (r: Option<int>)
    ensures r.None? <==> LeadingDigits(Unsigned(s).1, Unsigned(s).0) == ""
  {
    var (radix, body, negative) := Unsigned(s);
    var ds := LeadingDigits(body, radix);
    if ds == "" then None
    else if negative then Some(-(DigitsValue(ds, radix) as int))
    else Some(DigitsValue(ds, radix))
  }

  /** Radix, digit text and sign of `Number.parseInt`'s input once spaces, sign and hex prefix are removed. */
  function Unsigned(s: string): (int, string, bool) {
    var t := TrimStart(s);
    var negative := t != [] && t[0] == '-';
    var u := if t != [] && (t[0] == '-' || t[0] == '+') then t[1..] else t;
    if StartsWith(u, "0x") || StartsWith(u, "0X") then (16, u[2..], negative) else (10, u, negative)
  }

  function DigitChar(d: nat): (c: char)
    requires d < 10
    ensures IsDecimalDigit(c) && DigitValue(c) == d
  {
    ('0' as int + d) as char
  }

  /** The decimal text of a natural number, with no leading zeros. */
  function DecimalText(n: nat): (s: string)
    ensures s != [] && forall i :: 0 <= i < |s| ==> IsDecimalDigit(s[i])
    ensures |s| > 1 ==> s[0] != '0'
  {
    if n < 10 then [DigitChar(n)] else DecimalText(n / 10) + [DigitChar(n % 10)]
  }

  /** A number in a template literal, as `${n}` writes an integer. */
  function NumberText(n: int): string {
    if n < 0 then "-" + DecimalText(-n) else DecimalText(n)
  }

  lemma {:induction false} DecimalTextValue(n: nat)
    ensures DigitsValue(DecimalText(n), 10) == n
  {
    if n >= 10 {
      var s := DecimalText(n);
      assert s[..|s| - 1] == DecimalText(n / 10);
      DecimalTextValue(n / 10);
    }
  }

  lemma LeadingDigitsOfDigits(s: string, radix: int)
    requires forall i :: 0 <= i < |s| ==> IsDigitIn(s[i], radix)
    ensures LeadingDigits(s, radix) == s
  {
  }

  lemma UnsignedNumberText(n: int)
    ensures Unsigned(NumberText(n)) == (10, DecimalText(if n < 0 then -n else n), n < 0)
  {
    var s := NumberText(n);
    var d := DecimalText(if n < 0 then -n else n);
    assert !IsSpace(s[0]) by {
      if n >= 0 { assert IsDecimalDigit(d[0]); }
    }
    assert TrimStart(s) == s;
    var u := if n < 0 then s[1..] else s;
    assert u == d;
    assert !StartsWith(u, "0x") && !StartsWith(u, "0X") by {
      if |u| >= 2 { assert IsDecimalDigit(u[1]); assert u[..2][1] == u[1]; }
    }
  }

  /** `Number.parseInt` reads back every integer that a template literal writes. */
  lemma ParseIntNumberText(n: int)
    ensures ParseInt(NumberText(n)) == Some(n)
  {
    var m: nat := if n < 0 then -n else n;
    UnsignedNumberText(n);
    LeadingDigitsOfDigits(DecimalText(m), 10);
    DecimalTextValue(m);
  }

  /** `Math.round(part / whole * 100)` for counts, rounding halves up. */
  function RoundedPercent(part: nat, whole: nat): (r: int)
    requires whole > 0
    ensures 2 * whole * r <= 200 * part + whole < 2 * whole * (r + 1)
  {
    var d := 2 * whole;
    var x := 200 * part + whole;
    var r := x / d;
    assert d * r + x % d == x;
    assert d * (r + 1) == d * r + d;
    r
  }

  /** The rounded percentage of a part of a whole lies in 0..100, with 0 and 100 at the ends. */
  lemma RoundedPercentBounds(part: nat, whole: nat)
    requires 0 < whole && part <= whole
    ensures 0 <= RoundedPercent(part, whole) <= 100
    ensures part == 0 ==> RoundedPercent(part, whole) == 0
    ensures part == whole ==> RoundedPercent(part, whole) == 100
  {
    var r := RoundedPercent(part, whole);
    var d := 2 * whole;
    assert d * r <= 200 * part + whole;
    assert 200 * part + whole < d * (r + 1);
    assert 200 * part + whole < d * 101;
    CancelFactor(d, r, 101);
    assert 0 < d * (r + 1);
    CancelFactor(d, -1, r);
    if part == 0 {
      assert d * r < d * 1;
      CancelFactor(d, r, 1);
    }
    if part == whole {
      assert d * 99 < d * (r + 1);
      CancelFactor(d, 99, r + 1);
    }
  }

  lemma CancelFactor(d: int, a: int, b: int)
    requires d > 0 && d * a < d * b
    ensures a < b
  {
  }
}
