/**
 * Object-key building (`domain/logic/key_builder.py`): filename sanitising, the per-user
 * dated prefix, and the single-part and multipart object keys.
 */
module KeyBuilder {
  import opened Wrappers
  import opened PyText
  import opened CivilTime

  // ---------------------------------------------------------------------------
  // safe_name
  // ---------------------------------------------------------------------------

  /** The characters the pattern `[A-Za-z0-9._\-]` admits. */
  predicate SafeChar(c: char) {
    ('A' <= c <= 'Z') || ('a' <= c <= 'z') || ('0' <= c <= '9') || c == '.' || c == '_' || c == '-'
  }

  /** What sanitising makes of one character of the stripped name. */
  function SafeCharOf(c: char): char {
    if SafeChar(c) then c else if c == ' ' then '_' else '-'
  }

  /** `s.replace(" ", "_")` */
  function ReplaceSpace(s: string): (r: string)
    ensures |r| == |s|
    ensures forall i :: 0 <= i < |s| ==> r[i] == (if s[i] == ' ' then '_' else s[i])
  {
    if s == [] then [] else [if s[0] == ' ' then '_' else s[0]] + ReplaceSpace(s[1..])
  }

  /** `re.sub(r"[^A-Za-z0-9._\-]", "-", s)` */
  function SubUnsafe(s: string): (r: string)
    ensures |r| == |s|
    ensures forall i :: 0 <= i < |s| ==> r[i] == (if SafeChar(s[i]) then s[i] else '-')
  {
    if s == [] then [] else [if SafeChar(s[0]) then s[0] else '-'] + SubUnsafe(s[1..])
  }

  /**
   * `safe_name(name)`: strip, turn spaces into `_`, then every character outside the safe set
   * into `-`. Each character of the stripped name yields exactly one safe character.
   */
  function SafeName(name: string): (r: string)
    ensures |r| == |Strip(PySpace, name)|
    ensures forall i :: 0 <= i < |r| ==> SafeChar(r[i])
  {
    SubUnsafe(ReplaceSpace(Strip(PySpace, name)))
  }

  /** Sanitising is character by character: position `i` depends only on position `i` of the stripped name. */
  lemma SafeNameChars(name: string)
    ensures forall i :: 0 <= i < |SafeName(name)| ==> SafeName(name)[i] == SafeCharOf(Strip(PySpace, name)[i])
  {
  }

  /** A string made of safe characters passes both rewriting steps unchanged. */
  lemma {:induction false} RewriteKeepsSafe(s: string)
    requires forall i :: 0 <= i < |s| ==> SafeChar(s[i])
    ensures SubUnsafe(ReplaceSpace(s)) == s
  {
    var t := ReplaceSpace(s);
    forall i | 0 <= i < |s|
      ensures t[i] == s[i]
    {
      assert SafeChar(s[i]);
    }
    assert t == s;
  }

  /** Sanitising a sanitised name changes nothing. */
  lemma {:induction false} SafeNameIdempotent(name: string)
    ensures SafeName(SafeName(name)) == SafeName(name)
  {
    var r := SafeName(name);
    assert Trimmed(PySpace, r) by {
      if r != [] {
        assert SafeChar(r[0]) && SafeChar(r[|r| - 1]);
      }
    }
    SafeNameOfSafe(r);
  }

  lemma SafeNameOfSafe(r: string)
    requires forall i :: 0 <= i < |r| ==> SafeChar(r[i])
    requires Trimmed(PySpace, r)
    ensures SafeName(r) == r
  {
    StripTrimmed(PySpace, r);
    RewriteKeepsSafe(r);
  }

  /** Whitespace around the name never reaches the sanitised form. */
  lemma {:induction false} SafeNameIgnoresOuterWhitespace(w1: string, name: string, w2: string)
    requires AllWhite(PySpace, w1) && AllWhite(PySpace, w2)
    ensures SafeName(w1 + name + w2) == SafeName(name)
  {
    StripIgnoresSurroundingWhite(PySpace, w1, name, w2);
  }

  /** A white character of a stripped string is neither its first nor its last. */
  lemma InteriorOfTrimmed(k: Whitespace, t: string, i: int)
    requires Trimmed(k, t) && 0 <= i < |t| && IsWhite(k, t[i])
    ensures 0 < i < |t| - 1
  {
  }

  /** Both rewriting steps at one position: a space becomes `_`, any other unsafe character `-`. */
  lemma RewriteAt(t: string, i: int)
    requires 0 <= i < |t|
    ensures SubUnsafe(ReplaceSpace(t))[i] == SafeCharOf(t[i])
  {
  }

  /**
   * Whitespace that survives stripping is interior, and becomes `_` if it is a space and `-`
   * otherwise (a tab, say).
   */
  lemma {:induction false} SafeNameInteriorWhitespace(name: string, i: int)
    requires 0 <= i < |Strip(PySpace, name)|
    requires IsWhite(PySpace, Strip(PySpace, name)[i])
    ensures 0 < i < |Strip(PySpace, name)| - 1
    ensures SafeName(name)[i] == (if Strip(PySpace, name)[i] == ' ' then '_' else '-')
  {
    var t := Strip(PySpace, name);
    InteriorOfTrimmed(PySpace, t, i);
    assert !SafeChar(t[i]);
    RewriteAt(t, i);
  }

  /** Safe characters of the stripped name are kept as they are. */
  lemma {:induction false} SafeNameKeepsSafeChars(name: string, i: int)
    requires 0 <= i < |Strip(PySpace, name)|
    requires SafeChar(Strip(PySpace, name)[i])
    ensures SafeName(name)[i] == Strip(PySpace, name)[i]
  {
    SafeNameChars(name);
  }

  lemma SafeNameHasNoSlash(name: string)
    ensures '/' !in SafeName(name)
  {
    var r := SafeName(name);
    forall i | 0 <= i < |r|
      ensures r[i] != '/'
    {
      assert SafeChar(r[i]);
    }
  }

  // ---------------------------------------------------------------------------
  // compute_prefix
  // ---------------------------------------------------------------------------

  /** `year={now:%Y}/month={now:%m}/day={now:%d}/` */
  function DateSegment(now: DateTime): string {
    "year=" + YearField(now.year) + "/month=" + ZeroPad(now.month, 2) + "/day=" + ZeroPad(now.day, 2) + "/"
  }

  /** `compute_prefix(user_sub, project_id, now)` */
  function ComputePrefix(userSub: string, projectId: string, now: DateTime): string {
    "user/" + userSub + "/project/" + projectId + "/" + DateSegment(now)
  }

  /** Reads year, month and day back out of a date segment. */
  function ParseDateSegment(seg: string): Option<(nat, nat, nat)> {
    if |seg| == 26 && seg[..5] == "year=" && seg[9..16] == "/month=" && seg[18..23] == "/day="
       && seg[25] == '/' && AllDigits(seg[5..9]) && AllDigits(seg[16..18]) && AllDigits(seg[23..25])
    then Some((ParseDigits(seg[5..9]), ParseDigits(seg[16..18]), ParseDigits(seg[23..25])))
    else None
  }

  /** A date segment built from fixed-width digit fields reads back as those fields. */
  lemma {:induction false} DateSegmentFields(y: string, m: string, d: string)
    requires |y| == 4 && |m| == 2 && |d| == 2 && AllDigits(y) && AllDigits(m) && AllDigits(d)
    ensures var seg := "year=" + y + "/month=" + m + "/day=" + d + "/";
      && |seg| == 26 && seg[25] == '/'
      && ParseDateSegment(seg) == Some((ParseDigits(y), ParseDigits(m), ParseDigits(d)))
  {
    var seg := "year=" + y + "/month=" + m + "/day=" + d + "/";
    assert seg[..5] == "year=" && seg[9..16] == "/month=" && seg[18..23] == "/day=";
    assert seg[5..9] == y && seg[16..18] == m && seg[23..25] == d;
  }

  /** For years 1000..9999 the date segment has 26 characters, ends in `/` and reads back as the date. */
  lemma {:induction false} DateSegmentLayout(now: DateTime)
    requires ValidDateTime(now) && now.year >= 1000
    ensures var seg := DateSegment(now);
      && |seg| == 26 && seg[25] == '/'
      && ParseDateSegment(seg) == Some((now.year as nat, now.month as nat, now.day as nat))
  {
    assert Pow10(2) == 100 && Pow10(4) == 10000;
    YearFieldFixed(now.year);
    ZeroPadFixed(now.month, 2);
    ZeroPadFixed(now.day, 2);
    DateSegmentFields(FixedDigits(now.year, 4), FixedDigits(now.month, 2), FixedDigits(now.day, 2));
    ParseFixedDigits(now.year, 4);
    ParseFixedDigits(now.month, 2);
    ParseFixedDigits(now.day, 2);
  }

  lemma HeadAndTail(head: string, tail: string)
    ensures StartsWith(head + tail, head)
    ensures (head + tail)[|head + tail| - |tail|..] == tail
  {
    assert (head + tail)[..|head|] == head;
    assert (head + tail)[|head|..] == tail;
  }

  /**
   * For years 1000..9999 the prefix is `user/<sub>/project/<id>/` followed by a 26-character
   * date segment with a four-digit year and two-digit month and day; it ends in `/`, and the
   * date reads back from it.
   */
  lemma {:induction false} ComputePrefixLayout(userSub: string, projectId: string, now: DateTime)
    requires ValidDateTime(now) && now.year >= 1000
    ensures var p := ComputePrefix(userSub, projectId, now);
      && StartsWith(p, "user/" + userSub + "/project/" + projectId + "/")
      && |p| >= 26
      && p[|p| - 26..] == DateSegment(now)
      && ParseDateSegment(p[|p| - 26..]) == Some((now.year as nat, now.month as nat, now.day as nat))
      && p[|p| - 1] == '/'
  {
    var head := "user/" + userSub + "/project/" + projectId + "/";
    var seg := DateSegment(now);
    DateSegmentLayout(now);
    assert ComputePrefix(userSub, projectId, now) == head + seg;
    HeadAndTail(head, seg);
  }

  /** Two days give the same prefix only if they are the same calendar day. */
  lemma {:induction false} ComputePrefixDistinguishesDays(userSub: string, projectId: string, d1: DateTime, d2: DateTime)
    requires ValidDateTime(d1) && d1.year >= 1000 && ValidDateTime(d2) && d2.year >= 1000
    requires ComputePrefix(userSub, projectId, d1) == ComputePrefix(userSub, projectId, d2)
    ensures d1.year == d2.year && d1.month == d2.month && d1.day == d2.day
  {
    ComputePrefixLayout(userSub, projectId, d1);
    ComputePrefixLayout(userSub, projectId, d2);
  }

  // ---------------------------------------------------------------------------
  // Object keys
  // ---------------------------------------------------------------------------

  /** `key_for_single(prefix, upload_id, seq, filename)` */
  function KeyForSingle(prefix: string, uploadId: string, seqNo: int, filename: string): string {
    prefix + uploadId + "/" + ZeroPad(seqNo, 4) + "__" + SafeName(filename)
  }

  /** `key_for_multipart(prefix, upload_id, filename)`: one key shared by every part. */
  function KeyForMultipart(prefix: string, uploadId: string, filename: string): string {
    prefix + uploadId + "/" + SafeName(filename)
  }

  /**
   * For sequence numbers 0..9999 the number sits in a four-digit slot right after
   * `prefix + upload_id + "/"`: every such key starts with that segment, and different
   * numbers give different keys.
   */
  lemma {:induction false} KeyForSingleSequence(prefix: string, uploadId: string, s1: int, s2: int, filename: string)
    requires 0 <= s1 <= 9999 && 0 <= s2 <= 9999
    ensures StartsWith(KeyForSingle(prefix, uploadId, s1, filename), prefix + uploadId + "/")
    ensures StartsWith(KeyForSingle(prefix, uploadId, s1, filename), prefix)
    ensures KeyForSingle(prefix, uploadId, s1, filename) == KeyForSingle(prefix, uploadId, s2, filename) <==> s1 == s2
  {
    assert Pow10(4) == 10000;
    ZeroPadFixed(s1, 4);
    ZeroPadFixed(s2, 4);
    var head := prefix + uploadId + "/";
    var tail := "__" + SafeName(filename);
    KeyForSingleForm(prefix, uploadId, s1, filename);
    KeyForSingleForm(prefix, uploadId, s2, filename);
    SlotLayout(prefix, uploadId + "/", FixedDigits(s1, 4), tail);
    SlotDistinct(head, FixedDigits(s1, 4), FixedDigits(s2, 4), tail);
    if FixedDigits(s1, 4) == FixedDigits(s2, 4) {
      FixedDigitsInjective(s1, s2, 4);
    }
  }

  lemma KeyForSingleForm(prefix: string, uploadId: string, seqNo: int, filename: string)
    ensures KeyForSingle(prefix, uploadId, seqNo, filename)
         == prefix + (uploadId + "/") + ZeroPad(seqNo, 4) + ("__" + SafeName(filename))
    ensures KeyForSingle(prefix, uploadId, seqNo, filename)
         == (prefix + uploadId + "/") + ZeroPad(seqNo, 4) + ("__" + SafeName(filename))
  {
    KeyShape(prefix, uploadId, ZeroPad(seqNo, 4), SafeName(filename));
  }

  lemma KeyShape(prefix: string, uploadId: string, z: string, n: string)
    ensures prefix + uploadId + "/" + z + "__" + n == prefix + (uploadId + "/") + z + ("__" + n)
    ensures prefix + uploadId + "/" + z + "__" + n == (prefix + uploadId + "/") + z + ("__" + n)
  {
  }

  lemma SlotLayout(p: string, q: string, a: string, b: string)
    ensures StartsWith(p + q + a + b, p + q) && StartsWith(p + q + a + b, p)
  {
    assert (p + q + a + b)[..|p + q|] == p + q;
    assert (p + q + a + b)[..|p|] == p;
  }

  lemma SlotDistinct(head: string, a: string, b: string, tail: string)
    requires |a| == |b|
    ensures head + a + tail == head + b + tail <==> a == b
  {
    if head + a + tail == head + b + tail {
      assert head + a + tail == head + (a + tail);
      assert head + b + tail == head + (b + tail);
      ConcatSameLength(head, a + tail, head, b + tail);
      ConcatSameLength(a, tail, b, tail);
    }
  }

  lemma {:induction false} KeyForMultipartStartsWithPrefix(prefix: string, uploadId: string, filename: string)
    ensures StartsWith(KeyForMultipart(prefix, uploadId, filename), prefix + uploadId + "/")
    ensures StartsWith(KeyForMultipart(prefix, uploadId, filename), prefix)
  {
    var k := KeyForMultipart(prefix, uploadId, filename);
    assert k == (prefix + uploadId + "/") + SafeName(filename);
    assert k[..|prefix + uploadId + "/"|] == prefix + uploadId + "/";
    assert k[..|prefix|] == prefix;
  }

  lemma ZeroPadHasNoSlash(n: nat, w: nat)
    ensures '/' !in ZeroPad(n, w)
  {
    var z := ZeroPad(n, w);
    var d := Decimal(n);
    var zs := Zeros(if w > |d| then w - |d| else 0);
    assert z == zs + d;
    forall i | 0 <= i < |z|
      ensures z[i] != '/'
    {
      if i < |zs| {
        assert z[i] == zs[i];
      } else {
        assert z[i] == d[i - |zs|];
        assert IsDigit(d[i - |zs|]);
      }
    }
  }

  /**
   * Splitting a key on `/` gives back its parts: the last piece is what follows the last
   * separator, and the pieces before it join to `prefix + upload_id`.
   */
  lemma {:induction false} LastSegmentSplit(head: string, tail: string)
    requires '/' !in tail
    ensures var parts := Split(head + "/" + tail, '/');
      && |parts| >= 2
      && parts[|parts| - 1] == tail
      && Join(parts[..|parts| - 1], '/') == head
  {
    SplitBeforeTail(head, '/', tail);
    var parts := Split(head + "/" + tail, '/');
    assert parts[..|parts| - 1] == Split(head, '/');
    JoinSplit(head, '/');
  }

  /** The last `/`-segment of a single-part key is `<seq:04d>__<safe name>`. */
  lemma {:induction false} KeyForSingleLastSegment(prefix: string, uploadId: string, seqNo: nat, filename: string)
    ensures var parts := Split(KeyForSingle(prefix, uploadId, seqNo, filename), '/');
      && parts[|parts| - 1] == ZeroPad(seqNo, 4) + "__" + SafeName(filename)
      && Join(parts[..|parts| - 1], '/') == prefix + uploadId
  {
    var tail := ZeroPad(seqNo, 4) + "__" + SafeName(filename);
    ZeroPadHasNoSlash(seqNo, 4);
    SafeNameHasNoSlash(filename);
    assert '/' !in tail;
    assert KeyForSingle(prefix, uploadId, seqNo, filename) == (prefix + uploadId) + "/" + tail;
    LastSegmentSplit(prefix + uploadId, tail);
  }

  /** The last `/`-segment of a multipart key is the safe name itself. */
  lemma {:induction false} KeyForMultipartLastSegment(prefix: string, uploadId: string, filename: string)
    ensures var parts := Split(KeyForMultipart(prefix, uploadId, filename), '/');
      && parts[|parts| - 1] == SafeName(filename)
      && Join(parts[..|parts| - 1], '/') == prefix + uploadId
  {
    SafeNameHasNoSlash(filename);
    assert KeyForMultipart(prefix, uploadId, filename) == (prefix + uploadId) + "/" + SafeName(filename);
    LastSegmentSplit(prefix + uploadId, SafeName(filename));
  }
}
