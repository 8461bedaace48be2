/** Text helpers shared by the API layer and the menu-authority rule:
    the decimal rendering of integers (what `${n}` in TypeScript and
    `"" + n` in Java produce for an integer), its inverse, substring
    search, and the two splitting idioms the source uses. */
module Strings {

  predicate IsDigit(c: char) {
    '0' <= c <= '9'
  }

  function DigitChar(d: nat): (c: char)
    requires d < 10
    ensures IsDigit(c) && c as int - '0' as int == d
  {
    ('0' as int + d) as char
  }

  function DigitValue(c: char): (d: nat)
    requires IsDigit(c)
    ensures d < 10 && DigitChar(d) == c
  {
    c as int - '0' as int
  }

  predicate AllDigits(s: string) {
    forall i :: 0 <= i < |s| ==> IsDigit(s[i])
  }

  /** Decimal digits of a natural number, most significant first, no leading zeros. */
  function NatText(n: nat): (s: string)
    ensures |s| > 0 && AllDigits(s)
    ensures n >= 10 ==> s[0] != '0'
    decreases n
  {
    if n < 10 then [DigitChar(n)] else NatText(n / 10) + [DigitChar(n % 10)]
  }

  /** Decimal text of an integer: a leading '-' for negative values. */
  function IntText(n: int): (s: string)
    ensures |s| > 0
    ensures forall c :: c in s ==> IsDigit(c) || c == '-'
    ensures (s[0] == '-') == (n < 0)
  {
    if n < 0 then "-" + NatText(-n) else NatText(n)
  }

  /** Reads a run of decimal digits back into a number. */
  function ParseNat(s: string): nat
    requires AllDigits(s)
    decreases |s|
  {
    if s == [] then 0 else ParseNat(s[..|s| - 1]) * 10 + DigitValue(s[|s| - 1])
  }

  function ParseInt(s: string): int
    requires |s| > 0 && (AllDigits(s) || (s[0] == '-' && AllDigits(s[1..])))
  {
    if s[0] == '-' then -(ParseNat(s[1..]) as int) else ParseNat(s)
  }

  lemma {:induction false} ParseNatText(n: nat)
    ensures ParseNat(NatText(n)) == n
    decreases n
  {
    if n >= 10 {
      var s := NatText(n);
      assert s[..|s| - 1] == NatText(n / 10);
      ParseNatText(n / 10);
    }
  }

  /** ParseInt undoes IntText, so the decimal text determines the number. */
  lemma ParseIntText(n: int)
    ensures var s := IntText(n);
      (AllDigits(s) || (s[0] == '-' && AllDigits(s[1..]))) && ParseInt(s) == n
  {
    if n < 0 {
      assert IntText(n)[1..] == NatText(-n);
      ParseNatText(-n);
    } else {
      ParseNatText(n);
    }
  }

  lemma IntTextInjective(a: int, b: int)
    ensures IntText(a) == IntText(b) <==> a == b
  {
    ParseIntText(a);
    ParseIntText(b);
  }

  // ---------------------------------------------------------------------
  // Substring search, as org.apache.commons.lang3.StringUtils.contains on
  // a non-null string

  predicate StartsWith(s: string, t: string) {
    |t| <= |s| && s[..|t|] == t
  }

  predicate OccursAt(s: string, t: string, i: int) {
    0 <= i && i + |t| <= |s| && s[i..i + |t|] == t
  }

  /** Does `t` occur somewhere in `s`? */
  predicate Contains(s: string, t: string)
    decreases |s|
  {
    StartsWith(s, t) || (|s| > 0 && Contains(s[1..], t))
  }

  /** The recursive search agrees with "there is a position where t occurs". */
  lemma {:induction false} ContainsOccurs(s: string, t: string)
    ensures Contains(s, t) <==> exists i :: OccursAt(s, t, i)
    decreases |s|
  {
    if StartsWith(s, t) {
      assert OccursAt(s, t, 0);
    } else if |s| > 0 {
      ContainsOccurs(s[1..], t);
      if Contains(s[1..], t) {
        var i :| OccursAt(s[1..], t, i);
        assert s[1..][i..i + |t|] == s[i + 1..i + 1 + |t|];
        assert OccursAt(s, t, i + 1);
      }
      if i :| OccursAt(s, t, i) {
        assert i != 0;
        assert s[i..i + |t|] == s[1..][i - 1..i - 1 + |t|];
        assert OccursAt(s[1..], t, i - 1);
      }
    }
  }

  /** A prefix containing no occurrence of t's first character cannot hold
      the start of an occurrence of t. */
  lemma {:induction false} ContainsSkipsPrefix(u: string, r: string, t: string)
    requires |t| > 0 && t[0] !in u
    ensures Contains(u + r, t) <==> Contains(r, t)
    decreases |u|
  {
    if u != [] {
      assert (u + r)[0] == u[0] != t[0];
      assert (u + r)[1..] == u[1..] + r;
      ContainsSkipsPrefix(u[1..], r, t);
    } else {
      assert u + r == r;
    }
  }

  // ---------------------------------------------------------------------
  // '/'-terminated path segments

  /** Index of the first `c` in `s`, or |s| when there is none. */
  function IndexOf(s: string, c: char): (i: nat)
    ensures i <= |s|
    ensures forall j :: 0 <= j < i ==> s[j] != c
    ensures i < |s| ==> s[i] == c
    decreases |s|
  {
    if s == [] then 0 else if s[0] == c then 0 else 1 + IndexOf(s[1..], c)
  }

  /** The first `c` after a stretch free of `c` is the one that ends it. */
  lemma IndexOfFirst(p: string, c: char, r: string)
    requires c !in p
    ensures IndexOf(p + [c] + r, c) == |p|
  {
    var s := p + [c] + r;
    assert s[|p|] == c;
    assert forall j :: 0 <= j < |p| ==> s[j] == p[j];
  }

  /** A prefix that already holds a `c` finds the same first `c`. */
  lemma IndexOfPrefix(s: string, t: string, c: char)
    requires StartsWith(s, t) && IndexOf(t, c) < |t|
    ensures IndexOf(s, c) == IndexOf(t, c)
  {
    assert forall j :: 0 <= j < |t| ==> s[j] == s[..|t|][j] == t[j];
  }

  /** Each part followed by '/', in order. */
  function JoinTerminated(parts: seq<string>): string
    decreases |parts|
  {
    if parts == [] then "" else parts[0] + "/" + JoinTerminated(parts[1..])
  }

  lemma {:induction false} JoinTerminatedAppend(parts: seq<string>, p: string)
    ensures JoinTerminated(parts + [p]) == JoinTerminated(parts) + p + "/"
    decreases |parts|
  {
    if parts == [] {
      assert parts + [p] == [p];
    } else {
      assert (parts + [p])[1..] == parts[1..] + [p];
      JoinTerminatedAppend(parts[1..], p);
    }
  }

  /** Cuts a path at every '/'; a trailing piece without '/' becomes a last part. */
  function Segments(s: string): seq<string>
    decreases |s|
  {
    if s == [] then []
    else
      var i := IndexOf(s, '/');
      if i == |s| then [s] else [s[..i]] + Segments(s[i + 1..])
  }

  /** Joining parts that hold no '/' can be undone by cutting at '/'. */
  lemma {:induction false} SegmentsOfJoin(parts: seq<string>)
    requires forall k :: 0 <= k < |parts| ==> '/' !in parts[k]
    ensures Segments(JoinTerminated(parts)) == parts
    decreases |parts|
  {
    if parts != [] {
      var p, rest := parts[0], JoinTerminated(parts[1..]);
      var s := p + "/" + rest;
      IndexOfFirst(p, '/', rest);
      assert s[..|p|] == p;
      assert s[|p| + 1..] == rest;
      SegmentsOfJoin(parts[1..]);
      assert parts == [p] + parts[1..];
    }
  }

  // ---------------------------------------------------------------------
  // `s.split(sep).pop()` and `s.split(c).join('')`

  /** The text after the last `sep` in `s` (all of `s` when there is none):
      the last element of `s.split(sep)`. */
  function LastSegment(s: string, sep: char): (r: string)
    ensures sep !in r
    decreases |s|
  {
    if s == [] then ""
    else if s[|s| - 1] == sep then ""
    else LastSegment(s[..|s| - 1], sep) + [s[|s| - 1]]
  }

  /** `s` with every `c` removed. */
  function RemoveAll(s: string, c: char): (r: string)
    ensures c !in r
    ensures forall x :: x in r ==> x in s
    decreases |s|
  {
    if s == [] then "" else (if s[0] == c then "" else [s[0]]) + RemoveAll(s[1..], c)
  }

  /** LastSegment gives exactly the piece after the last separator. */
  lemma {:induction false} LastSegmentAfterSeparator(p: string, x: string, sep: char)
    requires sep !in x
    ensures LastSegment(p + [sep] + x, sep) == x
    decreases |x|
  {
    var s := p + [sep] + x;
    if x == [] {
      assert s[|s| - 1] == sep;
    } else {
      assert s[..|s| - 1] == p + [sep] + x[..|x| - 1];
      LastSegmentAfterSeparator(p, x[..|x| - 1], sep);
      assert x == x[..|x| - 1] + [x[|x| - 1]];
    }
  }

  lemma {:induction false} LastSegmentWithoutSeparator(s: string, sep: char)
    requires sep !in s
    ensures LastSegment(s, sep) == s
    decreases |s|
  {
    if s != [] {
      assert sep !in s[..|s| - 1];
      LastSegmentWithoutSeparator(s[..|s| - 1], sep);
      assert s == s[..|s| - 1] + [s[|s| - 1]];
    }
  }

  /** RemoveAll leaves a string without `c` unchanged. */
  lemma {:induction false} RemoveAllKeepsOthers(s: string, c: char)
    requires c !in s
    ensures RemoveAll(s, c) == s
    decreases |s|
  {
    if s != [] {
      RemoveAllKeepsOthers(s[1..], c);
    }
  }
}
