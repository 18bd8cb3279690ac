/**
 * The Python string operations the orchestration code relies on, over
 * strings of code points: `str.strip()`, `startswith`/`endswith`,
 * comparisons against upper-cased text, `sep.join(parts)`, `str.split`,
 * decimal rendering of lengths and slicing to a prefix.
 */
module Text {

  /** Python's `str.isspace()` for one code point (the characters `str.strip()` removes). */
  predicate IsSpace(c: char) {
    || ('\U{9}' <= c <= '\U{D}')
    || ('\U{1C}' <= c <= '\U{20}')
    || c == '\U{85}' || c == '\U{A0}' || c == '\U{1680}'
    || ('\U{2000}' <= c <= '\U{200A}')
    || c == '\U{2028}' || c == '\U{2029}' || c == '\U{202F}' || c == '\U{205F}'
    || c == '\U{3000}'
  }

  /** Every character of `s` is whitespace (vacuously true of ""). */
  predicate AllSpace(s: string) {
    forall i :: 0 <= i < |s| ==> IsSpace(s[i])
  }

  /** The end of the whitespace run that starts at `from`. */
  function SpaceRunEnd(s: string, from: nat): (g: nat)
    requires from <= |s|
    ensures from <= g <= |s|
    ensures forall i :: from <= i < g ==> IsSpace(s[i])
    ensures g == |s| || !IsSpace(s[g])
    decreases |s| - from
  {
    if from < |s| && IsSpace(s[from]) then SpaceRunEnd(s, from + 1) else from
  }

  /** The whitespace run starting at `from` ends at the first non-space index `g`. */
  lemma {:induction false} SpaceRunEndIs(s: string, from: nat, g: nat)
    requires from <= g <= |s|
    requires forall i :: from <= i < g ==> IsSpace(s[i])
    requires g == |s| || !IsSpace(s[g])
    ensures SpaceRunEnd(s, from) == g
    decreases g - from
  {
    if from < g {
      SpaceRunEndIs(s, from + 1, g);
    }
  }

  /** The start of the whitespace run that ends at `to`. */
  function SpaceRunStart(s: string, to: nat): (g: nat)
    requires to <= |s|
    ensures g <= to
    ensures forall i :: g <= i < to ==> IsSpace(s[i])
    ensures g == 0 || !IsSpace(s[g - 1])
  {
    if 0 < to && IsSpace(s[to - 1]) then SpaceRunStart(s, to - 1) else to
  }

  /** `s.lstrip()`: the suffix left after dropping leading whitespace. */
  function StripStart(s: string): (r: string)
    ensures |r| <= |s| && r == s[|s| - |r|..]
    ensures AllSpace(s[..|s| - |r|])
    ensures r == [] || !IsSpace(r[0])
  {
    s[SpaceRunEnd(s, 0)..]
  }

  /** `s.rstrip()`: the prefix left after dropping trailing whitespace. */
  function StripEnd(s: string): (r: string)
    ensures |r| <= |s| && r == s[..|r|]
    ensures AllSpace(s[|r|..])
    ensures r == [] || !IsSpace(r[|r| - 1])
  {
    s[..SpaceRunStart(s, |s|)]
  }

  /** `s.strip()`: a contiguous piece of `s` with no whitespace at either end. */
  function Strip(s: string): (r: string)
    ensures |r| <= |s|
    ensures r == [] || (!IsSpace(r[0]) && !IsSpace(r[|r| - 1]))
    ensures r == [] <==> AllSpace(s)
  {
    var t := StripStart(s);
    StripEnd(t)
  }

  /** Stripping a string that already has no outer whitespace leaves it as it is. */
  lemma StripFixed(s: string)
    requires s == [] || (!IsSpace(s[0]) && !IsSpace(s[|s| - 1]))
    ensures Strip(s) == s
  {
    if s != [] {
      assert SpaceRunEnd(s, 0) == 0;
      assert StripStart(s) == s;
      assert SpaceRunStart(s, |s|) == |s|;
      assert StripEnd(s) == s;
    }
  }

  /** `str.strip()` is idempotent. */
  lemma StripIdempotent(s: string)
    ensures Strip(Strip(s)) == Strip(s)
  {
    StripFixed(Strip(s));
  }

  /** Leading whitespace does not change the result of stripping. */
  lemma StripAfterSpace(s: string, n: nat)
    requires n <= |s| && AllSpace(s[..n])
    ensures Strip(s[n..]) == Strip(s)
  {
    var t := s[n..];
    var m := SpaceRunEnd(t, 0);
    forall i | 0 <= i < n + m ensures IsSpace(s[i]) {
      if i < n {
        assert s[..n][i] == s[i];
      } else {
        assert t[i - n] == s[i];
      }
    }
    if n + m < |s| {
      assert t[m] == s[n + m];
    }
    SpaceRunEndIs(s, 0, n + m);
    assert t[m..] == s[n + m..];
  }

  /** `s.startswith(p)`. */
  predicate StartsWith(s: string, p: string) {
    |p| <= |s| && s[..|p|] == p
  }

  /** `s.endswith(p)`. */
  predicate EndsWith(s: string, p: string) {
    |p| <= |s| && s[|s| - |p|..] == p
  }

  /**
   * Python's `c.upper()` where the result is a single ASCII character:
   * ASCII letters, U+017F (long s, upper-cased to 'S') and U+0131 (dotless i,
   * upper-cased to 'I'). Every other code point is returned as it is; Python
   * maps some of them to other non-ASCII text, which never equals an ASCII
   * upper-case character, so comparisons against ASCII targets are exact.
   */
  function UpperChar(c: char): char {
    if 'a' <= c <= 'z' then (c as int - 32) as char
    else if c == '\U{17F}' then 'S'
    else if c == '\U{131}' then 'I'
    else c
  }

  /**
   * `s.upper() == t` for a target `t` made of ASCII upper-case letters and
   * punctuation. No code point upper-cases to a string of two or more
   * characters found inside such a target, so the match is character-wise.
   */
  predicate UpperEquals(s: string, t: string) {
    |s| == |t| && forall i :: 0 <= i < |s| ==> UpperChar(s[i]) == t[i]
  }

  /** `s.upper().startswith(t)` for such an ASCII target `t`. */
  predicate UpperStartsWith(s: string, t: string) {
    |t| <= |s| && UpperEquals(s[..|t|], t)
  }

  /** `sep.join(parts)`. */
  function Join(parts: seq<string>, sep: string): string {
    if |parts| == 0 then ""
    else if |parts| == 1 then parts[0]
    else parts[0] + sep + Join(parts[1..], sep)
  }

  /** `s.split(c)` for a one-character separator: always at least one piece. */
  function SplitOn(s: string, c: char): (pieces: seq<string>)
    ensures |pieces| >= 1
  {
    if |s| == 0 then [""]
    else if s[0] == c then [""] + SplitOn(s[1..], c)
    else
      var rest := SplitOn(s[1..], c);
      [[s[0]] + rest[0]] + rest[1..]
  }

  /** Splitting `p + [c] + rest` where `p` has no `c` yields `p` first. */
  lemma {:induction false} SplitFirstPiece(p: string, c: char, rest: string)
    requires c !in p
    ensures SplitOn(p + [c] + rest, c) == [p] + SplitOn(rest, c)
  {
    if p == [] {
      assert p + [c] + rest == [c] + rest;
      assert ([c] + rest)[1..] == rest;
    } else {
      assert (p + [c] + rest)[1..] == p[1..] + [c] + rest;
      SplitFirstPiece(p[1..], c, rest);
      assert [p[0]] + p[1..] == p;
    }
  }

  /** A string without the separator splits into itself. */
  lemma {:induction false} SplitNoSeparator(p: string, c: char)
    requires c !in p
    ensures SplitOn(p, c) == [p]
  {
    if p != [] {
      SplitNoSeparator(p[1..], c);
      assert [p[0]] + p[1..] == p;
    }
  }

  /**
   * Round trip: splitting a join on a one-character separator gives back
   * the parts, when there is at least one part and none contains the separator.
   */
  lemma {:induction false} SplitJoin(parts: seq<string>, c: char)
    requires |parts| >= 1
    requires forall k :: 0 <= k < |parts| ==> c !in parts[k]
    ensures SplitOn(Join(parts, [c]), c) == parts
  {
    if |parts| == 1 {
      SplitNoSeparator(parts[0], c);
    } else {
      SplitJoin(parts[1..], c);
      SplitFirstPiece(parts[0], c, Join(parts[1..], [c]));
      assert [parts[0]] + parts[1..] == parts;
    }
  }

  /** Joining one more part appends the separator and the part. */
  lemma {:induction false} JoinSnoc(parts: seq<string>, p: string, sep: string)
    requires |parts| >= 1
    ensures Join(parts + [p], sep) == Join(parts, sep) + sep + p
  {
    if |parts| == 1 {
      assert (parts + [p])[1..] == [p];
    } else {
      assert (parts + [p])[1..] == parts[1..] + [p];
      JoinSnoc(parts[1..], p, sep);
    }
  }

  /** Decimal digits of a natural number: Python's `f"{n}"` for `n >= 0`. */
  function NatToString(n: nat): (r: string)
    ensures |r| >= 1 && forall i :: 0 <= i < |r| ==> '0' <= r[i] <= '9'
  {
    var d := ((n % 10) + '0' as int) as char;
    if n < 10 then [d] else NatToString(n / 10) + [d]
  }

  /** `s[:n]`: the first `n` characters, or all of `s` when it is shorter. */
  function Take<T>(s: seq<T>, n: nat): (r: seq<T>)
    ensures |r| == if |s| <= n then |s| else n
    ensures r == s[..|r|]
  {
    if |s| <= n then s else s[..n]
  }
}
