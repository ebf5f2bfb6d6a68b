/**
 * The Python (and pydantic) string built-ins the upload core relies on, written out as
 * functions over `string` (Dafny's `seq<char>` of Unicode scalar values): `str.strip`,
 * `str.startswith`, `str.split`, `str.join`, ASCII lower-casing, `format(n, "0Nd")`, and the
 * code-point lexicographic order that DynamoDB uses for string sort keys.
 */
module PyText {

  // ---------------------------------------------------------------------------
  // Whitespace and stripping
  // ---------------------------------------------------------------------------

  /**
   * Two whitespace sets. Python's `str.strip()` and `str.isspace()` use `PySpace`; pydantic's
   * `str_strip_whitespace` trims with Rust's `str::trim`, whose set is Unicode White_Space.
   * They differ only in the four separators U+001C..U+001F, which Python also strips.
   */
  datatype Whitespace = PySpace | UnicodeWhiteSpace

  predicate IsWhite(k: Whitespace, c: char) {
    var n := c as int;
    || 9 <= n <= 13
    || n == 32
    || n == 0x85
    || n == 0xA0
    || n == 0x1680
    || 0x2000 <= n <= 0x200A
    || n == 0x2028
    || n == 0x2029
    || n == 0x202F
    || n == 0x205F
    || n == 0x3000
    || (k == PySpace && 0x1C <= n <= 0x1F)
  }

  predicate AllWhite(k: Whitespace, s: string) {
    forall i :: 0 <= i < |s| ==> IsWhite(k, s[i])
  }

  /** Neither the first nor the last character is whitespace. */
  predicate Trimmed(k: Whitespace, s: string) {
    s == [] || (!IsWhite(k, s[0]) && !IsWhite(k, s[|s| - 1]))
  }

  /** The first index at or after `i` that holds a non-white character, or `|s|`. */
  function SkipWhite(k: Whitespace, s: string, i: nat): (j: nat)
    requires i <= |s|
    ensures i <= j <= |s|
    ensures j < |s| ==> !IsWhite(k, s[j])
    decreases |s| - i
  {
    if i < |s| && IsWhite(k, s[i]) then SkipWhite(k, s, i + 1) else i
  }

  /** The end of `s[lo..j]` once its trailing whitespace is dropped. */
  function BackWhite(k: Whitespace, s: string, lo: nat, j: nat): (e: nat)
    requires lo <= j <= |s|
    ensures lo <= e <= j
    ensures e > lo ==> !IsWhite(k, s[e - 1])
    decreases j
  {
    if j > lo && IsWhite(k, s[j - 1]) then BackWhite(k, s, lo, j - 1) else j
  }

  /** `s.strip()`: drops leading and trailing whitespace. */
  function Strip(k: Whitespace, s: string): (r: string)
    ensures Trimmed(k, r)
    ensures |r| <= |s|
  {
    var a := SkipWhite(k, s, 0);
    s[a..BackWhite(k, s, a, |s|)]
  }

  lemma {:induction false} SkipWhiteStops(k: Whitespace, s: string, i: nat, a: nat)
    requires i <= a <= |s| && AllWhite(k, s[i..a]) && (a < |s| ==> !IsWhite(k, s[a]))
    ensures SkipWhite(k, s, i) == a
    decreases a - i
  {
    if i < a {
      assert s[i..a][0] == s[i];
      assert s[i + 1..a] == s[i..a][1..];
      SkipWhiteStops(k, s, i + 1, a);
    }
  }

  lemma {:induction false} BackWhiteStops(k: Whitespace, s: string, lo: nat, b: nat, j: nat)
    requires lo <= b <= j <= |s| && AllWhite(k, s[b..j]) && (b > lo ==> !IsWhite(k, s[b - 1]))
    ensures BackWhite(k, s, lo, j) == b
    decreases j
  {
    if b < j {
      assert s[b..j][j - 1 - b] == s[j - 1];
      assert s[b..j - 1] == s[b..j][..j - 1 - b];
      BackWhiteStops(k, s, lo, b, j - 1);
    }
  }

  /** A non-white character at `m - 1` bounds the dropped tail from below. */
  lemma {:induction false} BackWhiteKeeps(k: Whitespace, s: string, lo: nat, m: nat, j: nat)
    requires lo < m <= j <= |s| && !IsWhite(k, s[m - 1])
    ensures BackWhite(k, s, lo, j) >= m
    decreases j
  {
    if j > m && IsWhite(k, s[j - 1]) {
      BackWhiteKeeps(k, s, lo, m, j - 1);
    }
  }

  /**
   * The stripped string is the trimmed slice `s[a..b]` with only whitespace outside it: any
   * such slice is the stripped string.
   */
  lemma {:induction false} StripIsTrimmedCore(k: Whitespace, s: string, a: nat, b: nat)
    requires a <= b <= |s|
    requires AllWhite(k, s[..a]) && AllWhite(k, s[b..]) && Trimmed(k, s[a..b])
    ensures Strip(k, s) == s[a..b]
  {
    if a == b {
      assert AllWhite(k, s) by {
        forall i | 0 <= i < |s| ensures IsWhite(k, s[i]) {
          if i < a { assert s[..a][i] == s[i]; } else { assert s[b..][i - b] == s[i]; }
        }
      }
      assert s[0..] == s;
      SkipWhiteStops(k, s, 0, |s|);
    } else {
      assert s[a..b][0] == s[a] && s[a..b][b - a - 1] == s[b - 1];
      assert s[0..a] == s[..a];
      SkipWhiteStops(k, s, 0, a);
      assert s[b..|s|] == s[b..];
      BackWhiteStops(k, s, a, b, |s|);
    }
  }

  lemma {:induction false} StripTrimmed(k: Whitespace, s: string)
    requires Trimmed(k, s)
    ensures Strip(k, s) == s
  {
    assert s[..0] == [] && s[|s|..] == [] && s[0..|s|] == s;
    StripIsTrimmedCore(k, s, 0, |s|);
  }

  /** The stripped string is a slice of `s` with only whitespace outside it. */
  lemma StripSlice(k: Whitespace, s: string) returns (a: nat, b: nat)
    ensures a <= b <= |s| && Strip(k, s) == s[a..b]
    ensures AllWhite(k, s[..a]) && AllWhite(k, s[b..])
  {
    a := SkipWhite(k, s, 0);
    b := BackWhite(k, s, a, |s|);
    forall i | 0 <= i < a ensures IsWhite(k, s[i]) {
      SkipWhiteBefore(k, s, 0, i);
    }
    forall i | b <= i < |s| ensures IsWhite(k, s[i]) {
      BackWhiteAfter(k, s, a, |s|, i);
    }
  }

  lemma AllWhiteConcat(k: Whitespace, x: string, y: string)
    requires AllWhite(k, x) && AllWhite(k, y)
    ensures AllWhite(k, x + y)
  {
  }

  /** How the slices of `w1 + s + w2` around a slice `s[a..b]` of the middle part fall. */
  lemma MiddleSlices(w1: string, s: string, w2: string, a: nat, b: nat)
    requires a <= b <= |s|
    ensures var t := w1 + s + w2;
      && t[|w1| + a..|w1| + b] == s[a..b]
      && t[..|w1| + a] == w1 + s[..a]
      && t[|w1| + b..] == s[b..] + w2
  {
  }

  /** Surrounding whitespace never reaches the result: `(w1 + s + w2).strip() == s.strip()`. */
  lemma {:induction false} StripIgnoresSurroundingWhite(k: Whitespace, w1: string, s: string, w2: string)
    requires AllWhite(k, w1) && AllWhite(k, w2)
    ensures Strip(k, w1 + s + w2) == Strip(k, s)
  {
    var t := w1 + s + w2;
    var a, b := StripSlice(k, s);
    var n := |w1|;
    MiddleSlices(w1, s, w2, a, b);
    AllWhiteConcat(k, w1, s[..a]);
    AllWhiteConcat(k, s[b..], w2);
    StripIsTrimmedCore(k, t, n + a, n + b);
  }

  lemma {:induction false} SkipWhiteBefore(k: Whitespace, s: string, i: nat, m: nat)
    requires i <= |s| && i <= m < SkipWhite(k, s, i)
    ensures IsWhite(k, s[m])
    decreases m - i
  {
    if i < m {
      SkipWhiteBefore(k, s, i + 1, m);
    }
  }

  lemma {:induction false} BackWhiteAfter(k: Whitespace, s: string, lo: nat, j: nat, m: nat)
    requires lo <= j <= |s| && BackWhite(k, s, lo, j) <= m < j
    ensures IsWhite(k, s[m])
    decreases j
  {
    if m < j - 1 {
      BackWhiteAfter(k, s, lo, j - 1, m);
    }
  }

  // ---------------------------------------------------------------------------
  // Prefixes, splitting and joining
  // ---------------------------------------------------------------------------

  /** `s.startswith(p)` */
  predicate StartsWith(s: string, p: string) {
    |p| <= |s| && s[..|p|] == p
  }

  /** Appending keeps a prefix, and a prefix of a prefix is a prefix. */
  lemma StartsWithAppend(s: string, p: string, t: string)
    requires StartsWith(s, p)
    ensures StartsWith(s + t, p)
  {
    assert (s + t)[..|p|] == s[..|p|];
  }

  lemma StartsWithTransitive(s: string, q: string, p: string)
    requires StartsWith(s, q) && StartsWith(q, p)
    ensures StartsWith(s, p)
  {
    assert s[..|p|] == s[..|q|][..|p|];
  }

  /** Joining a non-empty trimmed string and a trimmed string gives a trimmed string. */
  lemma TrimmedConcat(k: Whitespace, a: string, b: string)
    requires a != [] && Trimmed(k, a) && Trimmed(k, b)
    ensures Trimmed(k, a + b)
  {
    assert (a + b)[0] == a[0];
    assert (a + b)[|a + b| - 1] == if b == [] then a[|a| - 1] else b[|b| - 1];
  }

  /** A prefix that starts and ends with a non-white character survives stripping. */
  lemma StripKeepsStart(k: Whitespace, s: string, p: string)
    requires StartsWith(s, p) && p != [] && !IsWhite(k, p[0]) && !IsWhite(k, p[|p| - 1])
    ensures StartsWith(Strip(k, s), p)
  {
    assert s[0] == p[0] && s[|p| - 1] == p[|p| - 1];
    SkipWhiteStops(k, s, 0, 0);
    BackWhiteKeeps(k, s, 0, |p|, |s|);
    assert Strip(k, s)[..|p|] == s[..|p|];
  }

  /** `s.split(c)` for a one-character separator: every piece, in order, between separators. */
  function Split(s: string, c: char): (r: seq<string>)
    ensures |r| >= 1
    ensures forall i :: 0 <= i < |r| ==> c !in r[i]
    decreases |s|
  {
    if |s| == 0 then [""]
    else
      var rest := Split(s[1..], c);
      if s[0] == c then [""] + rest else [[s[0]] + rest[0]] + rest[1..]
  }

  /** `c.join(parts)` */
  function Join(parts: seq<string>, c: char): string
    decreases |parts|
  {
    if |parts| == 0 then ""
    else if |parts| == 1 then parts[0]
    else parts[0] + [c] + Join(parts[1..], c)
  }

  /** Joining the pieces of a split gives the string back. */
  lemma {:induction false} JoinSplit(s: string, c: char)
    ensures Join(Split(s, c), c) == s
    decreases |s|
  {
    if |s| > 0 {
      var rest := Split(s[1..], c);
      JoinSplit(s[1..], c);
      if s[0] == c {
        assert Split(s, c) == [""] + rest;
        assert ([""] + rest)[1..] == rest;
      } else {
        var r := Split(s, c);
        assert r == [[s[0]] + rest[0]] + rest[1..];
        if |rest| == 1 {
          assert r == [[s[0]] + rest[0]];
          assert Join(rest, c) == rest[0];
        } else {
          assert r[1..] == rest[1..];
          assert Join(rest, c) == rest[0] + [c] + Join(rest[1..], c);
        }
        assert s == [s[0]] + s[1..];
      }
    }
  }

  /** A split yields more than one piece exactly when the separator occurs. */
  lemma {:induction false} SplitSinglePiece(s: string, c: char)
    ensures |Split(s, c)| == 1 <==> c !in s
    decreases |s|
  {
    if |s| > 0 {
      SplitSinglePiece(s[1..], c);
      assert c in s <==> s[0] == c || c in s[1..];
    }
  }

  /** Splitting at a separator that follows a separator-free head yields that head first. */
  lemma {:induction false} SplitAfterHead(a: string, c: char, b: string)
    requires c !in a
    ensures Split(a + [c] + b, c) == [a] + Split(b, c)
    decreases |a|
  {
    if a == [] {
      assert a + [c] + b == [c] + b;
      assert ([c] + b)[1..] == b;
    } else {
      assert (a + [c] + b)[1..] == a[1..] + [c] + b;
      SplitAfterHead(a[1..], c, b);
      assert a == [a[0]] + a[1..];
    }
  }

  /** A separator-free tail is the last piece of a split. */
  lemma {:induction false} SplitBeforeTail(a: string, c: char, b: string)
    requires c !in b
    ensures Split(a + [c] + b, c) == Split(a, c) + [b]
    decreases |a|
  {
    if a == [] {
      assert a + [c] + b == [c] + b;
      assert ([c] + b)[1..] == b;
      SplitSinglePiece(b, c);
      assert Split(b, c) == [b] by {
        JoinSplit(b, c);
      }
    } else {
      assert (a + [c] + b)[1..] == a[1..] + [c] + b;
      SplitBeforeTail(a[1..], c, b);
      var ra := Split(a[1..], c);
      if a[0] != c {
        assert (ra + [b])[0] == ra[0];
        assert (ra + [b])[1..] == ra[1..] + [b];
      }
    }
  }

  lemma {:induction false} JoinSnoc(parts: seq<string>, p: string, c: char)
    requires |parts| >= 1
    ensures Join(parts + [p], c) == Join(parts, c) + [c] + p
    decreases |parts|
  {
    if |parts| == 1 {
      assert (parts + [p])[1..] == [p];
    } else {
      assert (parts + [p])[1..] == parts[1..] + [p];
      JoinSnoc(parts[1..], p, c);
    }
  }

  /**
   * `c.join(s.split(c)[:-1]) + c + s.split(c)[-1] == s` whenever `c` occurs in `s`: the
   * pieces before the last separator and the piece after it rebuild the string.
   */
  lemma SplitLastPiece(s: string, c: char)
    requires c in s
    ensures var parts := Split(s, c);
      Join(parts[..|parts| - 1], c) + [c] + parts[|parts| - 1] == s
  {
    var parts := Split(s, c);
    SplitSinglePiece(s, c);
    JoinSplit(s, c);
    assert parts == parts[..|parts| - 1] + [parts[|parts| - 1]];
    JoinSnoc(parts[..|parts| - 1], parts[|parts| - 1], c);
  }

  // ---------------------------------------------------------------------------
  // Lower-casing
  // ---------------------------------------------------------------------------

  function LowerChar(c: char): char {
    if 'A' <= c <= 'Z' then (c as int + 32) as char else c
  }

  predicate HasAsciiUpper(s: string) {
    exists i :: 0 <= i < |s| && 'A' <= s[i] <= 'Z'
  }

  /** `s.lower()` on the ASCII letters; every other character is kept. */
  function Lower(s: string): (r: string)
    ensures |r| == |s|
    ensures forall i :: 0 <= i < |s| ==> r[i] == LowerChar(s[i])
    ensures !HasAsciiUpper(r)
  {
    seq(|s|, i requires 0 <= i < |s| => LowerChar(s[i]))
  }

  // ---------------------------------------------------------------------------
  // Decimal formatting
  // ---------------------------------------------------------------------------

  predicate IsDigit(c: char) {
    '0' <= c <= '9'
  }

  predicate AllDigits(s: string) {
    forall i :: 0 <= i < |s| ==> IsDigit(s[i])
  }

  lemma AllDigitsConcat(a: string, b: string)
    requires AllDigits(a) && AllDigits(b)
    ensures AllDigits(a + b)
  {
  }

  function DigitChar(d: nat): (c: char)
    requires d < 10
    ensures IsDigit(c)
  {
    ('0' as int + d) as char
  }

  function Pow10(w: nat): (p: nat)
    ensures p >= 1
  {
    if w == 0 then 1 else 10 * Pow10(w - 1)
  }

  /** `str(n)` for a natural number. */
  function Decimal(n: nat): (r: string)
    ensures r != [] && AllDigits(r)
    decreases n
  {
    if n < 10 then [DigitChar(n)] else Decimal(n / 10) + [DigitChar(n % 10)]
  }

  /** `str(n)` for any integer. */
  function IntToString(n: int): string {
    if n >= 0 then Decimal(n) else "-" + Decimal(-n)
  }

  function Zeros(k: nat): (r: string)
    ensures |r| == k
    ensures forall i :: 0 <= i < k ==> r[i] == '0'
  {
    seq(k, i => '0')
  }

  /** `format(n, "0<w>d")`: the decimal digits, zero-filled on the left to width `w`; the sign counts. */
  function ZeroPad(n: int, w: nat): string {
    if n >= 0 then
      var d := Decimal(n);
      Zeros(if w > |d| then w - |d| else 0) + d
    else
      var d := Decimal(-n);
      "-" + Zeros(if w > |d| + 1 then w - |d| - 1 else 0) + d
  }

  /** A non-negative number renders as a non-empty run of digits. */
  lemma ZeroPadDigits(n: nat, w: nat)
    ensures ZeroPad(n, w) != [] && AllDigits(ZeroPad(n, w))
  {
  }

  /** The `w` lowest decimal digits of `n`, most significant first. */
  function FixedDigits(n: nat, w: nat): (r: string)
    ensures |r| == w && AllDigits(r)
  {
    if w == 0 then "" else FixedDigits(n / 10, w - 1) + [DigitChar(n % 10)]
  }

  /** The number a digit string denotes. */
  function ParseDigits(s: string): nat
    requires AllDigits(s)
  {
    if s == [] then 0 else ParseDigits(s[..|s| - 1]) * 10 + (s[|s| - 1] as int - '0' as int)
  }

  lemma {:induction false} DecimalShort(n: nat, w: nat)
    requires n < Pow10(w)
    ensures |Decimal(n)| <= w || (n == 0 && w == 0)
    decreases n
  {
    if n >= 10 {
      DecimalShort(n / 10, w - 1);
    }
  }

  lemma {:induction false} FixedDigitsOfZero(w: nat)
    ensures FixedDigits(0, w) == Zeros(w)
  {
    if w > 0 {
      FixedDigitsOfZero(w - 1);
      assert Zeros(w) == Zeros(w - 1) + ['0'];
    }
  }

  /** Zero-padding a number that fits the width gives exactly `w` digits: the fixed-width form. */
  lemma {:induction false} ZeroPadFixed(n: nat, w: nat)
    requires w >= 1 && n < Pow10(w)
    ensures ZeroPad(n, w) == FixedDigits(n, w)
    decreases n
  {
    if n < 10 {
      FixedDigitsOfZero(w - 1);
    } else {
      DecimalShort(n / 10, w - 1);
      ZeroPadFixed(n / 10, w - 1);
      var d := Decimal(n / 10);
      assert Zeros(w - |d| - 1) + (d + [DigitChar(n % 10)])
          == (Zeros(w - 1 - |d|) + d) + [DigitChar(n % 10)];
    }
  }

  /** A number of at least `10^w` has more than `w` digits. */
  lemma {:induction false} DecimalLong(n: nat, w: nat)
    requires n >= Pow10(w)
    ensures |Decimal(n)| > w
    decreases w
  {
    if w > 0 {
      DecimalLong(n / 10, w - 1);
    }
  }

  /** A fixed-width digit string reads back as the number, when the number fits. */
  lemma {:induction false} ParseFixedDigits(n: nat, w: nat)
    requires n < Pow10(w)
    ensures ParseDigits(FixedDigits(n, w)) == n
  {
    if w > 0 {
      ParseFixedDigits(n / 10, w - 1);
      var s := FixedDigits(n, w);
      assert s[..|s| - 1] == FixedDigits(n / 10, w - 1);
    }
  }

  lemma ConcatSameLength(x1: string, y1: string, x2: string, y2: string)
    requires x1 + y1 == x2 + y2 && |x1| == |x2|
    ensures x1 == x2 && y1 == y2
  {
    assert x1 == (x1 + y1)[..|x1|] && x2 == (x2 + y2)[..|x2|];
    assert y1 == (x1 + y1)[|x1|..] && y2 == (x2 + y2)[|x2|..];
  }

  /** Equal fixed-width renderings of numbers that fit the width are renderings of equal numbers. */
  lemma FixedDigitsInjective(a: nat, b: nat, w: nat)
    requires a < Pow10(w) && b < Pow10(w)
    requires FixedDigits(a, w) == FixedDigits(b, w)
    ensures a == b
  {
    ParseFixedDigits(a, w);
    ParseFixedDigits(b, w);
  }

  // ---------------------------------------------------------------------------
  // Lexicographic order (code-point order, which is also UTF-8 byte order)
  // ---------------------------------------------------------------------------

  /** `a` sorts strictly before `b`. */
  predicate LexLess(a: string, b: string)
    decreases |a|
  {
    |b| > 0 && (|a| == 0 || a[0] < b[0] || (a[0] == b[0] && LexLess(a[1..], b[1..])))
  }

  predicate LexLe(a: string, b: string) {
    a == b || LexLess(a, b)
  }

  lemma {:induction false} LexLessIrreflexive(a: string)
    ensures !LexLess(a, a)
    decreases |a|
  {
    if |a| > 0 {
      LexLessIrreflexive(a[1..]);
    }
  }

  lemma {:induction false} LexLessTransitive(a: string, b: string, c: string)
    requires LexLess(a, b) && LexLess(b, c)
    ensures LexLess(a, c)
    decreases |a|
  {
    if |a| > 0 && a[0] == b[0] && b[0] == c[0] {
      LexLessTransitive(a[1..], b[1..], c[1..]);
    }
  }

  lemma {:induction false} LexTotal(a: string, b: string)
    ensures a == b || LexLess(a, b) || LexLess(b, a)
    decreases |a|
  {
    if |a| > 0 && |b| > 0 && a[0] == b[0] {
      LexTotal(a[1..], b[1..]);
      if a[1..] == b[1..] {
        assert a == [a[0]] + a[1..] && b == [b[0]] + b[1..];
      }
    }
  }

  /** A common prefix does not change the order. */
  lemma {:induction false} LexCommonPrefix(p: string, a: string, b: string)
    ensures LexLess(p + a, p + b) <==> LexLess(a, b)
    decreases |p|
  {
    if p != [] {
      assert (p + a)[0] == p[0] == (p + b)[0];
      assert (p + a)[1..] == p[1..] + a;
      assert (p + b)[1..] == p[1..] + b;
      LexCommonPrefix(p[1..], a, b);
    } else {
      assert p + a == a && p + b == b;
    }
  }

  /** For equal-length heads, the heads decide, and the last characters break a tie. */
  lemma {:induction false} LexSnoc(x: string, c: char, y: string, e: char)
    requires |x| == |y|
    ensures LexLess(x + [c], y + [e]) <==> LexLess(x, y) || (x == y && c < e)
    decreases |x|
  {
    if |x| > 0 {
      assert (x + [c])[1..] == x[1..] + [c];
      assert (y + [e])[1..] == y[1..] + [e];
      LexSnoc(x[1..], c, y[1..], e);
      if x[0] == y[0] && x[1..] == y[1..] {
        assert x == [x[0]] + x[1..] && y == [y[0]] + y[1..];
      }
      if x == y {
        assert x[1..] == y[1..];
      }
    }
  }

  /** Fixed-width digit strings sort in numeric order. */
  lemma {:induction false} FixedDigitsSorted(a: nat, b: nat, w: nat)
    requires a < b < Pow10(w)
    ensures LexLess(FixedDigits(a, w), FixedDigits(b, w))
  {
    var x, y := FixedDigits(a / 10, w - 1), FixedDigits(b / 10, w - 1);
    if a / 10 < b / 10 {
      FixedDigitsSorted(a / 10, b / 10, w - 1);
    } else {
      assert a / 10 == b / 10 && a % 10 < b % 10;
    }
    LexSnoc(x, DigitChar(a % 10), y, DigitChar(b % 10));
  }

  /** A non-empty finite set of strings has a least element. */
  lemma {:induction false} LexMinimumExists(ss: set<string>) returns (m: string)
    requires ss != {}
    ensures m in ss && forall x :: x in ss ==> LexLe(m, x)
    decreases |ss|
  {
    var x :| x in ss;
    if ss == {x} {
      m := x;
    } else {
      var rest := LexMinimumExists(ss - {x});
      LexTotal(x, rest);
      if LexLess(x, rest) {
        m := x;
        forall y | y in ss ensures LexLe(m, y) {
          if y != x {
            assert LexLe(rest, y);
            if y != rest {
              LexLessTransitive(x, rest, y);
            }
          }
        }
      } else {
        m := rest;
      }
    }
  }

  /** `m` is the least string of `ss`. */
  predicate IsLexMin(ss: set<string>, m: string) {
    m in ss && forall x :: x in ss ==> LexLe(m, x)
  }

  lemma LexMinExists(ss: set<string>)
    requires ss != {}
    ensures exists m :: IsLexMin(ss, m)
  {
    var m := LexMinimumExists(ss);
    assert IsLexMin(ss, m);
  }

  /** A set has at most one least string. */
  lemma LexMinUnique(ss: set<string>)
    ensures forall m1, m2 :: IsLexMin(ss, m1) && IsLexMin(ss, m2) ==> m1 == m2
  {
    forall m1, m2 | IsLexMin(ss, m1) && IsLexMin(ss, m2) ensures m1 == m2 {
      assert LexLe(m1, m2) && LexLe(m2, m1);
      if m1 != m2 {
        LexLessTransitive(m1, m2, m1);
        LexLessIrreflexive(m1);
      }
    }
  }

  /** The least string of a non-empty set. */
  function LexMin(ss: set<string>): (m: string)
    requires ss != {}
    ensures IsLexMin(ss, m)
  {
    LexMinExists(ss);
    LexMinUnique(ss);
    var m :| IsLexMin(ss, m); m
  }
}
