/**
 * The string operations the source takes from the JavaScript library:
 * `includes`, `endsWith`, `indexOf`, `toLowerCase`, `join` and the
 * decimal rendering of a number inside a template literal.
 */
module Text {
  import opened Wrappers

  /** `sub` occurs in `s` starting at index `i`. */
  predicate OccursAt(s: string, sub: string, i: nat) {
    i + |sub| <= |s| && s[i..i + |sub|] == sub
  }

  /** `i` is the first index where `sub` occurs in `s`. */
  predicate FirstOccurrence(s: string, sub: string, i: nat) {
    OccursAt(s, sub, i) && forall k :: 0 <= k < i ==> !OccursAt(s, sub, k)
  }

  /** `s.includes(sub)`. */
  predicate Contains(s: string, sub: string) {
    exists i :: 0 <= i <= |s| - |sub| && OccursAt(s, sub, i)
  }

  /** `s.endsWith(suffix)`. */
  predicate EndsWith(s: string, suffix: string) {
    |suffix| <= |s| && s[|s| - |suffix|..] == suffix
  }

  /** The first index at or after `from` where `sub` occurs, scanning left to right. */
  function IndexOfFrom(s: string, sub: string, from: nat): (r: Option<nat>)
    ensures r.Some? ==> from <= r.value && OccursAt(s, sub, r.value)
    ensures r.Some? ==> forall k :: from <= k < r.value ==> !OccursAt(s, sub, k)
    ensures r.None? ==> forall k :: from <= k ==> !OccursAt(s, sub, k)
    decreases |s| - from
  {
    if from + |sub| > |s| then None
    else if OccursAt(s, sub, from) then Some(from)
    else IndexOfFrom(s, sub, from + 1)
  }

  /** `s.indexOf(sub)`, with `None` for -1. */
  function IndexOf(s: string, sub: string): (r: Option<nat>)
    ensures r.Some? <==> Contains(s, sub)
    ensures r.Some? ==> OccursAt(s, sub, r.value) && forall k :: 0 <= k < r.value ==> !OccursAt(s, sub, k)
  {
    var r := IndexOfFrom(s, sub, 0);
    assert r.Some? ==> 0 <= r.value <= |s| - |sub|;
    r
  }

  /**
   * `c.toLowerCase()` for the characters whose lower case is ASCII: the letters `A`-`Z`, the
   * Kelvin sign (lower-cased to `k`) and the capital I with dot above (lower-cased to `i` followed
   * by a combining dot). Every other character is left as it is.
   */
  function LowerText(c: char): (lower: string)
    ensures 1 <= |lower| <= 2
  {
    if 'A' <= c <= 'Z' then [(c as int + 32) as char]
    else if c == '\U{212A}' then "k"
    else if c == '\U{0130}' then "i\U{0307}"
    else [c]
  }

  /** `s.toLowerCase()`, character by character. */
  function ToLower(s: string): (lower: string)
    ensures |s| <= |lower| <= 2 * |s|
  {
    if s == [] then [] else LowerText(s[0]) + ToLower(s[1..])
  }

  /** Lower-casing works character by character, so it distributes over concatenation. */
  lemma {:induction false} ToLowerAppend(a: string, b: string)
    ensures ToLower(a + b) == ToLower(a) + ToLower(b)
  {
    if a != [] {
      assert (a + b)[0] == a[0];
      assert (a + b)[1..] == a[1..] + b;
      ToLowerAppend(a[1..], b);
    } else {
      assert a + b == b;
    }
  }

  /** The Kelvin sign lower-cases exactly as the letter K does. */
  lemma KelvinSignLowersLikeK(pre: string, post: string)
    ensures ToLower(pre + "\U{212A}" + post) == ToLower(pre + "K" + post)
  {
    ToLowerAppend(pre + "\U{212A}", post);
    ToLowerAppend(pre, "\U{212A}");
    ToLowerAppend(pre + "K", post);
    ToLowerAppend(pre, "K");
    assert ToLower("\U{212A}") == "k" == ToLower("K");
  }

  /** `parts.join(sep)`. */
  function Join(parts: seq<string>, sep: string): string {
    if |parts| == 0 then ""
    else if |parts| == 1 then parts[0]
    else parts[0] + sep + Join(parts[1..], sep)
  }

  /** A join is empty for no parts, and otherwise starts with the first part and ends with the last. */
  lemma {:induction false} JoinEnds(parts: seq<string>, sep: string)
    ensures |parts| == 0 ==> Join(parts, sep) == ""
    ensures |parts| > 0 ==> var joined := Join(parts, sep);
      |parts[0]| <= |joined| && joined[..|parts[0]|] == parts[0]
    ensures |parts| > 0 ==> var joined, last := Join(parts, sep), parts[|parts| - 1];
      |last| <= |joined| && joined[|joined| - |last|..] == last
    decreases |parts|
  {
    if |parts| > 1 {
      JoinEnds(parts[1..], sep);
      var rest := Join(parts[1..], sep);
      assert Join(parts, sep) == parts[0] + sep + rest;
      assert parts[1..][|parts[1..]| - 1] == parts[|parts| - 1];
    }
  }

  /** The decimal digit character for `d`. */
  function DigitChar(d: nat): (c: char)
    requires d < 10
    ensures '0' <= c <= '9'
  {
    ('0' as int + d) as char
  }

  /** The decimal rendering of a natural number, most significant digit first. */
  function NatToString(n: nat): (r: string)
    ensures |r| >= 1 && (n >= 10 ==> |r| >= 2)
    ensures forall i :: 0 <= i < |r| ==> '0' <= r[i] <= '9'
    ensures r[|r| - 1] == DigitChar(n % 10)
  {
    if n < 10 then [DigitChar(n)]
    else NatToString(n / 10) + [DigitChar(n % 10)]
  }

  /** The decimal rendering of an integer, as `${n}` gives it for a whole number. */
  function IntToString(n: int): (r: string)
    ensures |r| >= 1
    ensures r[0] == '-' <==> n < 0
    ensures forall i :: (if n < 0 then 1 else 0) <= i < |r| ==> '0' <= r[i] <= '9'
  {
    if n < 0 then "-" + NatToString(-n) else NatToString(n)
  }

  /** Different integers render differently, negative ones included. */
  lemma IntToStringInjective(a: int, b: int)
    requires IntToString(a) == IntToString(b)
    ensures a == b
  {
    if a < 0 && b < 0 {
      NegativeRenderingInjective(a, b);
    } else if a >= 0 && b >= 0 {
      NatToStringInjective(a, b);
    } else {
      SignsRenderApart(a, b);
    }
  }

  /** Two negative numbers with one rendering have one magnitude. */
  lemma NegativeRenderingInjective(a: int, b: int)
    requires a < 0 && b < 0 && IntToString(a) == IntToString(b)
    ensures a == b
  {
    var m: nat, n: nat := -a, -b;
    var x, y := NatToString(m), NatToString(n);
    assert IntToString(a) == "-" + x && IntToString(b) == "-" + y;
    assert ("-" + x)[1..] == x && ("-" + y)[1..] == y;
    NatToStringInjective(m, n);
  }

  /** Only negative numbers render with a leading minus sign. */
  lemma SignsRenderApart(a: int, b: int)
    ensures (a < 0) != (b < 0) ==> IntToString(a) != IntToString(b)
  {
  }

  /** Different numbers render differently. */
  lemma {:induction false} NatToStringInjective(a: nat, b: nat)
    requires NatToString(a) == NatToString(b)
    ensures a == b
  {
    var sa, sb := NatToString(a), NatToString(b);
    if a >= 10 && b >= 10 {
      assert sa[..|sa| - 1] == NatToString(a / 10);
      assert sb[..|sb| - 1] == NatToString(b / 10);
      NatToStringInjective(a / 10, b / 10);
      assert DigitChar(a % 10) == DigitChar(b % 10);
    } else if a < 10 && b < 10 {
      assert sa[0] == DigitChar(a);
    }
  }

  /** A string contains itself placed between any two others. */
  lemma ContainsMiddle(pre: string, sub: string, post: string)
    ensures Contains(pre + sub + post, sub)
  {
    var s := pre + sub + post;
    assert s[|pre|..|pre| + |sub|] == sub;
    assert OccursAt(s, sub, |pre|);
  }

  /** A string contains its own prefix. */
  lemma ContainsPrefix(sub: string, post: string)
    ensures Contains(sub + post, sub)
  {
    assert (sub + post)[0..|sub|] == sub;
    assert OccursAt(sub + post, sub, 0);
  }

  /** `endsWith` holds exactly when the text is some stem followed by the suffix. */
  lemma EndsWithIsConcat(s: string, suffix: string)
    ensures EndsWith(s, suffix) <==> exists stem :: s == stem + suffix
  {
    if EndsWith(s, suffix) {
      assert s == s[..|s| - |suffix|] + suffix;
    }
  }

  /** Every text includes the empty text, and a text includes only what fits in it. */
  lemma ContainsBounds(s: string, sub: string)
    ensures Contains(s, [])
    ensures Contains(s, sub) ==> |sub| <= |s|
  {
    assert OccursAt(s, [], 0);
  }

  /** A text ends with what was appended last. */
  lemma EndsWithSuffix(pre: string, sub: string)
    ensures EndsWith(pre + sub, sub)
  {
    assert (pre + sub)[|pre + sub| - |sub|..] == sub;
  }

  /** A string contains its own suffix. */
  lemma ContainsSuffix(pre: string, sub: string)
    ensures Contains(pre + sub, sub)
  {
    assert (pre + sub)[|pre|..|pre| + |sub|] == sub;
    assert OccursAt(pre + sub, sub, |pre|);
  }

  /** A substring of a substring is a substring. */
  lemma ContainsTransitive(s: string, mid: string, sub: string)
    requires Contains(s, mid) && Contains(mid, sub)
    ensures Contains(s, sub)
  {
    var i :| 0 <= i <= |s| - |mid| && OccursAt(s, mid, i);
    var j :| 0 <= j <= |mid| - |sub| && OccursAt(mid, sub, j);
    assert mid == s[i..i + |mid|];
    forall k | 0 <= k < |sub| ensures s[i + j + k] == sub[k] {
      assert sub[k] == mid[j + k];
    }
    assert s[i + j..i + j + |sub|] == sub;
    assert OccursAt(s, sub, i + j);
  }

  /** Each part of a join is a substring of it. */
  lemma {:induction false} JoinContainsPart(parts: seq<string>, sep: string, k: nat)
    requires k < |parts|
    ensures Contains(Join(parts, sep), parts[k])
  {
    if |parts| == 1 {
      ContainsMiddle("", parts[0], "");
      assert "" + parts[0] + "" == parts[0];
    } else if k == 0 {
      ContainsMiddle("", parts[0], sep + Join(parts[1..], sep));
      assert "" + parts[0] + (sep + Join(parts[1..], sep)) == Join(parts, sep);
    } else {
      JoinContainsPart(parts[1..], sep, k - 1);
      var rest := Join(parts[1..], sep);
      ContainsMiddle(parts[0] + sep, rest, "");
      assert parts[0] + sep + rest + "" == Join(parts, sep);
      ContainsTransitive(Join(parts, sep), rest, parts[k]);
    }
  }

  /** Cutting a string before the first occurrence of `sub` leaves no occurrence of it. */
  lemma NoOccurrenceInPrefix(s: string, sub: string, j: nat)
    requires j <= |s| && |sub| > 0
    requires forall k :: 0 <= k < j ==> !OccursAt(s, sub, k)
    ensures !Contains(s[..j], sub)
  {
    forall k | 0 <= k <= |s[..j]| - |sub| ensures !OccursAt(s[..j], sub, k) {
      assert s[..j][k..k + |sub|] == s[k..k + |sub|];
      assert !OccursAt(s, sub, k);
    }
  }

  /** Equal texts with the same head and the same tail have the same middle. */
  lemma ConcatCancel(head: string, a: string, b: string, tail: string)
    requires head + a + tail == head + b + tail
    ensures a == b
  {
    assert a == (head + a + tail)[|head|..|head| + |a|];
    assert b == (head + b + tail)[|head|..|head| + |b|];
  }

  /** There is only one first occurrence. */
  lemma FirstOccurrenceUnique(s: string, sub: string, i: nat)
    requires FirstOccurrence(s, sub, i)
    ensures forall j: nat :: FirstOccurrence(s, sub, j) ==> j == i
  {
  }

  // ---------------------------------------------------------------------------
  // `s.split(sep)[1]`.
  // ---------------------------------------------------------------------------

  /**
   * `segment` is what `rest.split(sep)[0]` gives: a prefix of `rest` in which no `sep` starts,
   * followed by the first `sep` or by the end of `rest`.
   */
  predicate SegmentBefore(rest: string, sep: string, segment: string) {
    && |segment| <= |rest|
    && rest[..|segment|] == segment
    && (forall k :: 0 <= k < |segment| ==> !OccursAt(rest, sep, k))
    && (|segment| == |rest| || OccursAt(rest, sep, |segment|))
  }

  /** Only one segment fits: the split result is determined by the text. */
  lemma SegmentBeforeUnique(rest: string, sep: string, a: string, b: string)
    requires SegmentBefore(rest, sep, a) && SegmentBefore(rest, sep, b)
    ensures a == b
  {
  }

  /** `s.split(sep)[1]` for an `s` that contains `sep`: the text after its first occurrence, up to the next. */
  function SplitSecond(s: string, sep: string): (field: string)
    requires |sep| > 0 && Contains(s, sep)
    ensures !Contains(field, sep)
  {
    var i := IndexOf(s, sep).value;
    var rest := s[i + |sep|..];
    match IndexOf(rest, sep)
    case None => rest
    case Some(j) =>
      NoOccurrenceInPrefix(rest, sep, j);
      rest[..j]
  }

  /** The field is the whole segment after the first separator. */
  lemma SplitSecondIsSegment(s: string, sep: string, i: nat)
    requires |sep| > 0 && FirstOccurrence(s, sep, i)
    ensures Contains(s, sep)
    ensures SegmentBefore(s[i + |sep|..], sep, SplitSecond(s, sep))
  {
    var first := IndexOf(s, sep).value;
    FirstOccurrenceUnique(s, sep, first);
    assert first == i;
    var rest := s[i + |sep|..];
    match IndexOf(rest, sep)
    case None =>
      assert SplitSecond(s, sep) == rest;
      assert rest[..|rest|] == rest;
    case Some(j) =>
      assert SplitSecond(s, sep) == rest[..j];
  }

  /** No `sep` starts inside a `head` none of whose characters is the first one of `sep`. */
  lemma NoOccurrenceInHead(head: string, sep: string, tail: string)
    requires |sep| > 0
    requires forall k :: 0 <= k < |head| ==> head[k] != sep[0]
    ensures forall k :: 0 <= k < |head| ==> !OccursAt(head + sep + tail, sep, k)
  {
    var s := head + sep + tail;
    forall k | 0 <= k < |head| ensures !OccursAt(s, sep, k) {
      assert s[k] == head[k];
      if k + |sep| <= |s| {
        assert s[k..k + |sep|][0] == s[k];
      }
    }
  }

  /** A text that starts with `head + sep`, where no `sep` starts inside `head`, splits to what follows. */
  lemma SplitSecondAfterHead(head: string, sep: string, tail: string)
    requires |sep| > 0 && !Contains(tail, sep)
    requires forall k :: 0 <= k < |head| ==> !OccursAt(head + sep + tail, sep, k)
    ensures Contains(head + sep + tail, sep)
    ensures SplitSecond(head + sep + tail, sep) == tail
  {
    var s := head + sep + tail;
    assert s[|head|..|head| + |sep|] == sep;
    assert OccursAt(s, sep, |head|);
    var i := IndexOf(s, sep).value;
    assert i == |head|;
    assert s[i + |sep|..] == tail;
  }
}
