/**
 * The parts of Python's `str` that the core relies on: whitespace and
 * `strip()`, `startswith`, `in`, `find`, `split`, `join`, `replace` and an
 * ASCII `lower()`, written on `seq<char>`.
 */
module Strings {
  import opened Outcomes

  /** The characters for which Python's `str.isspace()` holds (and that `\s` matches). */
  predicate IsSpace(c: char)
  {
    ('\U{9}' <= c <= '\U{D}') || ('\U{1C}' <= c <= '\U{20}') || c == '\U{85}' || c == '\U{A0}'
    || c == '\U{1680}' || ('\U{2000}' <= c <= '\U{200A}') || c == '\U{2028}' || c == '\U{2029}'
    || c == '\U{202F}' || c == '\U{205F}' || c == '\U{3000}'
  }

  /** A string made only of whitespace (the empty string included). */
  predicate IsBlank(s: string)
  {
    forall i :: 0 <= i < |s| ==> IsSpace(s[i])
  }

  /** Python's truth value of an optional string: present and not empty. */
  predicate Given(s: Option<string>)
  {
    s.Some? && s.value != ""
  }

  /** The number of whitespace characters `s` starts with. */
  function LeadingSpaces(s: string): (n: nat)
    ensures n <= |s|
    decreases |s|
  {
    if s != [] && IsSpace(s[0]) then 1 + LeadingSpaces(s[1..]) else 0
  }

  /** The leading whitespace is whitespace, and the character after it is not. */
  lemma {:induction false} LeadingSpacesFacts(s: string)
    ensures forall i :: 0 <= i < LeadingSpaces(s) ==> IsSpace(s[i])
    ensures LeadingSpaces(s) < |s| ==> !IsSpace(s[LeadingSpaces(s)])
    decreases |s|
  {
    if s != [] && IsSpace(s[0]) {
      LeadingSpacesFacts(s[1..]);
      forall i | 1 <= i < LeadingSpaces(s)
        ensures IsSpace(s[i])
      {
        assert s[i] == s[1..][i - 1];
      }
      if LeadingSpaces(s) < |s| {
        assert s[LeadingSpaces(s)] == s[1..][LeadingSpaces(s[1..])];
      }
    }
  }

  /** The length of `s` without its trailing whitespace. */
  function KeptLength(s: string): (n: nat)
    ensures n <= |s|
    decreases |s|
  {
    if s != [] && IsSpace(s[|s| - 1]) then KeptLength(s[..|s| - 1]) else |s|
  }

  /** The trailing whitespace is whitespace, and the character before it is not. */
  lemma {:induction false} KeptLengthFacts(s: string)
    ensures forall i :: KeptLength(s) <= i < |s| ==> IsSpace(s[i])
    ensures 0 < KeptLength(s) ==> !IsSpace(s[KeptLength(s) - 1])
    decreases |s|
  {
    if s != [] && IsSpace(s[|s| - 1]) {
      var t := s[..|s| - 1];
      KeptLengthFacts(t);
      forall i | KeptLength(s) <= i < |s| - 1
        ensures IsSpace(s[i])
      {
        assert s[i] == t[i];
      }
      if 0 < KeptLength(s) {
        assert s[KeptLength(s) - 1] == t[KeptLength(t) - 1];
      }
    }
  }

  /** Python's `s.lstrip()`. */
  function LStrip(s: string): string
  {
    s[LeadingSpaces(s)..]
  }

  /** Python's `s.rstrip()`. */
  function RStrip(s: string): string
  {
    s[..KeptLength(s)]
  }

  /** Python's `s.strip()`: `s` without its leading and trailing whitespace. */
  function Strip(s: string): string
  {
    RStrip(LStrip(s))
  }

  /** What `strip` keeps is the piece of `s` after its leading whitespace. */
  lemma StripInside(s: string)
    ensures LeadingSpaces(s) + |Strip(s)| <= |s|
    ensures forall j :: 0 <= j < |Strip(s)| ==> Strip(s)[j] == s[LeadingSpaces(s) + j]
  {
  }

  /** What `lstrip` keeps does not start with whitespace. */
  lemma LStripStart(s: string)
    ensures LStrip(s) != [] ==> !IsSpace(LStrip(s)[0])
  {
    LeadingSpacesFacts(s);
  }

  /**
   * The stripped string neither starts nor ends with whitespace, and it is
   * empty exactly when `s` is all whitespace.
   */
  lemma StripEnds(s: string)
    ensures Strip(s) != [] ==> !IsSpace(Strip(s)[0]) && !IsSpace(Strip(s)[|Strip(s)| - 1])
    ensures Strip(s) == [] <==> IsBlank(s)
  {
    var l := LStrip(s);
    LeadingSpacesFacts(s);
    KeptLengthFacts(l);
    if Strip(s) != [] {
      assert Strip(s)[0] == l[0] == s[LeadingSpaces(s)];
      assert Strip(s)[|Strip(s)| - 1] == l[KeptLength(l) - 1];
    } else {
      LStripStart(s);
    }
  }

  /** A string with no whitespace at its ends is left alone by `strip`. */
  lemma StripNoop(x: string)
    requires x != [] ==> !IsSpace(x[0]) && !IsSpace(x[|x| - 1])
    ensures Strip(x) == x
  {
    assert LStrip(x) == x;
    assert RStrip(x) == x;
  }

  /** Leading whitespace makes no difference to `strip`. */
  lemma StripLeadingSpace(c: char, x: string)
    requires IsSpace(c)
    ensures Strip([c] + x) == Strip(x)
  {
    assert ([c] + x)[1..] == x;
    assert LStrip([c] + x) == LStrip(x);
  }

  /** Python's `s.startswith(p)`. */
  predicate StartsWith(s: string, p: string)
  {
    |p| <= |s| && s[..|p|] == p
  }

  /** Python's `s.endswith(p)`. */
  predicate EndsWith(s: string, p: string)
  {
    |p| <= |s| && s[|s| - |p|..] == p
  }

  /** `p` occurs in `s` starting at index `i`. */
  predicate MatchAt(s: string, p: string, i: int)
  {
    0 <= i && i + |p| <= |s| && s[i..i + |p|] == p
  }

  /** An occurrence is checked character by character. */
  lemma MatchPointwise(s: string, p: string, i: int)
    requires 0 <= i && i + |p| <= |s|
    requires forall j :: 0 <= j < |p| ==> p[j] == s[i + j]
    ensures MatchAt(s, p, i)
  {
    assert s[i..i + |p|] == p;
  }

  /** Python's `p in s` for strings. */
  predicate Contains(s: string, p: string)
  {
    exists i :: 0 <= i <= |s| - |p| && MatchAt(s, p, i)
  }

  /** A string contains every one of its suffixes. */
  lemma ContainsSuffix(a: string, b: string)
    ensures Contains(a + b, b)
  {
    assert (a + b)[|a|..|a| + |b|] == b;
    assert MatchAt(a + b, b, |a|);
  }

  /** An occurrence in a prefix is an occurrence in the whole string. */
  lemma ContainsPrefix(a: string, b: string, p: string)
    requires Contains(a, p)
    ensures Contains(a + b, p)
  {
    var i :| 0 <= i <= |a| - |p| && MatchAt(a, p, i);
    assert (a + b)[i..i + |p|] == a[i..i + |p|];
    assert MatchAt(a + b, p, i);
  }

  /** An occurrence in a suffix is an occurrence in the whole string. */
  lemma ContainsInSuffix(a: string, b: string, p: string)
    requires Contains(b, p)
    ensures Contains(a + b, p)
  {
    var i :| 0 <= i <= |b| - |p| && MatchAt(b, p, i);
    assert (a + b)[|a| + i..|a| + i + |p|] == b[i..i + |p|];
    assert MatchAt(a + b, p, |a| + i);
  }

  /** Python's `s.find(p, k)`, with `None` for -1: the first index at or after `k` where `p` starts. */
  function FindFrom(s: string, p: string, k: nat): (r: Option<nat>)
    requires k <= |s|
    decreases |s| - k
    ensures r.Some? ==> k <= r.value && MatchAt(s, p, r.value)
    ensures r.Some? ==> forall i :: k <= i < r.value ==> !MatchAt(s, p, i)
    ensures r.None? ==> forall i :: k <= i ==> !MatchAt(s, p, i)
  {
    if |s| - k < |p| then None
    else if s[k..k + |p|] == p then Some(k)
    else FindFrom(s, p, k + 1)
  }

  /** Python's `s.find(p)`, with `None` for -1. */
  function Find(s: string, p: string): (r: Option<nat>)
    ensures r.Some? <==> Contains(s, p)
    ensures r.Some? ==> MatchAt(s, p, r.value) && forall i :: 0 <= i < r.value ==> !MatchAt(s, p, i)
  {
    FindFrom(s, p, 0)
  }

  /** Python's `s.split(sep)` for a non-empty separator. */
  function Split(s: string, sep: string): (r: seq<string>)
    requires sep != []
    decreases |s|
    ensures |r| >= 1
    ensures Contains(s, sep) <==> |r| >= 2
  {
    match Find(s, sep)
    case None => [s]
    case Some(i) => [s[..i]] + Split(s[i + |sep|..], sep)
  }

  /** Python's `sep.join(xs)`. */
  function Join(xs: seq<string>, sep: string): string
  {
    if xs == [] then ""
    else if |xs| == 1 then xs[0]
    else xs[0] + sep + Join(xs[1..], sep)
  }

  /** A joined string ends with the last element joined. */
  lemma {:induction false} JoinEndsWithLast(xs: seq<string>, sep: string)
    requires xs != []
    ensures EndsWith(Join(xs, sep), xs[|xs| - 1])
  {
    if |xs| > 1 {
      JoinEndsWithLast(xs[1..], sep);
      var rest := Join(xs[1..], sep);
      var last := xs[|xs| - 1];
      assert xs[1..][|xs[1..]| - 1] == last;
      calc {
        Join(xs, sep)[|Join(xs, sep)| - |last|..];
        (xs[0] + sep + rest)[|xs[0] + sep| + |rest| - |last|..];
        rest[|rest| - |last|..];
      }
    }
  }

  /** Python's `s.replace(p, n)` for a non-empty pattern: every non-overlapping occurrence, left to right. */
  function Replace(s: string, p: string, n: string): string
    requires p != []
    decreases |s|
  {
    if |s| < |p| then s
    else if s[..|p|] == p then n + Replace(s[|p|..], p, n)
    else [s[0]] + Replace(s[1..], p, n)
  }

  /** A string in which `p` does not occur is left alone by `replace`. */
  lemma {:induction false} ReplaceAbsent(s: string, p: string, n: string)
    requires p != [] && (forall i :: 0 <= i < |s| ==> s[i] != p[0])
    ensures Replace(s, p, n) == s
  {
    if |s| >= |p| {
      assert s[..|p|][0] == s[0];
      ReplaceAbsent(s[1..], p, n);
    }
  }

  /** A string that does not contain `p` is left alone by `replace`. */
  lemma {:induction false} ReplaceNotContained(s: string, p: string, n: string)
    requires p != [] && !Contains(s, p)
    ensures Replace(s, p, n) == s
    decreases |s|
  {
    if |s| >= |p| {
      if s[..|p|] == p {
        assert MatchAt(s, p, 0);
      }
      if Contains(s[1..], p) {
        var i :| 0 <= i <= |s[1..]| - |p| && MatchAt(s[1..], p, i);
        assert s[i + 1..i + 1 + |p|] == s[1..][i..i + |p|];
        assert MatchAt(s, p, i + 1);
      }
      ReplaceNotContained(s[1..], p, n);
    }
  }

  /** `replace` on the pattern itself gives the replacement. */
  lemma ReplaceWhole(p: string, n: string)
    requires p != []
    ensures Replace(p, p, n) == n
  {
    assert p[..|p|] == p && p[|p|..] == [];
  }

  /** Two strings meet at a character the pattern does not use, so no occurrence straddles them. */
  predicate Separated(x: string, y: string, p: string)
  {
    (x != [] && x[|x| - 1] !in p) || (y != [] && y[0] !in p)
  }

  /** An occurrence at the start of `x + y` lies inside `x` when the two are separated. */
  lemma MatchAtStartInsideLeft(x: string, y: string, p: string)
    requires p != [] && Separated(x, y, p) && MatchAt(x + y, p, 0)
    ensures |p| <= |x|
  {
    if |p| > |x| {
      PrefixAt(x + y, p, |x| - 1);
      PrefixAt(x + y, p, |x|);
      assert false;
    }
  }

  /** Character `k` of a string that starts with `q` is character `k` of `q`. */
  lemma PrefixAt(s: string, q: string, k: int)
    ensures 0 <= k < |q| <= |s| && s[..|q|] == q ==> s[k] == q[k]
  {
    if 0 <= k < |q| <= |s| && s[..|q|] == q {
      assert s[..|q|][k] == s[k];
    }
  }

  lemma ReplaceUnfoldMatch(s: string, p: string, n: string)
    requires p != [] && |s| >= |p| && s[..|p|] == p
    ensures Replace(s, p, n) == n + Replace(s[|p|..], p, n)
  {
  }

  lemma ReplaceUnfoldSkip(s: string, p: string, n: string)
    requires p != [] && |s| >= |p| && s[..|p|] != p
    ensures Replace(s, p, n) == [s[0]] + Replace(s[1..], p, n)
  {
  }

  /** When no occurrence of `p` can straddle `x` and `y`, `replace` works on each side alone. */
  lemma {:induction false} ReplaceSplit(x: string, y: string, p: string, n: string)
    requires p != [] && Separated(x, y, p)
    ensures Replace(x + y, p, n) == Replace(x, p, n) + Replace(y, p, n)
    decreases |x|
  {
    if x == [] {
      assert x + y == y;
    } else if |x + y| < |p| {
      ReplaceShort(x, p, n);
    } else if MatchAt(x + y, p, 0) {
      ReplaceSplitMatch(x, y, p, n);
    } else {
      ReplaceSplitNoMatch(x, y, p, n);
    }
  }

  lemma {:induction false} ReplaceSplitMatch(x: string, y: string, p: string, n: string)
    requires p != [] && Separated(x, y, p) && x != [] && MatchAt(x + y, p, 0)
    ensures Replace(x + y, p, n) == Replace(x, p, n) + Replace(y, p, n)
    decreases |x|, 0
  {
    MatchAtStartInsideLeft(x, y, p);
    var x' := x[|p|..];
    ReplaceMatchFront(x, y, p, n);
    if x' == [] {
      assert x' + y == y;
    } else {
      assert x'[|x'| - 1] == x[|x| - 1];
      ReplaceSplit(x', y, p, n);
    }
  }

  /** A string that starts with the pattern inside `x` has it replaced and goes on after it. */
  lemma ReplaceMatchFront(x: string, y: string, p: string, n: string)
    requires p != [] && |p| <= |x| && MatchAt(x + y, p, 0)
    ensures Replace(x + y, p, n) == n + Replace(x[|p|..] + y, p, n)
    ensures Replace(x, p, n) == n + Replace(x[|p|..], p, n)
  {
    assert x[..|p|] == p by {
      assert (x + y)[..|p|] == p;
      assert x[..|p|] == (x + y)[..|p|];
    }
    assert (x + y)[|p|..] == x[|p|..] + y;
    ReplaceUnfoldMatch(x + y, p, n);
    ReplaceUnfoldMatch(x, p, n);
  }

  lemma {:induction false} ReplaceSplitNoMatch(x: string, y: string, p: string, n: string)
    requires p != [] && Separated(x, y, p) && x != [] && |x + y| >= |p| && !MatchAt(x + y, p, 0)
    ensures Replace(x + y, p, n) == Replace(x, p, n) + Replace(y, p, n)
    decreases |x|, 0
  {
    var x' := x[1..];
    ReplaceSkipFront(x, y, p, n);
    ReplaceFirstChar(x, p, n);
    if x' == [] {
      assert x' + y == y;
    } else {
      assert x'[|x'| - 1] == x[|x| - 1];
      ReplaceSplit(x', y, p, n);
    }
  }

  /** A string that does not start with the pattern keeps its first character and goes on after it. */
  lemma ReplaceSkipFront(x: string, y: string, p: string, n: string)
    requires p != [] && x != [] && |x + y| >= |p| && !MatchAt(x + y, p, 0)
    ensures Replace(x + y, p, n) == [x[0]] + Replace(x[1..] + y, p, n)
  {
    assert (x + y)[1..] == x[1..] + y;
    assert (x + y)[..|p|] != p by {
      assert (x + y)[..|p|] == (x + y)[0..0 + |p|];
    }
    ReplaceUnfoldSkip(x + y, p, n);
  }

  /** The first character of a string that does not start with the pattern is copied. */
  lemma ReplaceFirstChar(x: string, p: string, n: string)
    requires p != [] && x != [] && (|x| >= |p| ==> x[..|p|] != p)
    ensures Replace(x, p, n) == [x[0]] + Replace(x[1..], p, n)
  {
    if |x| < |p| {
      ReplaceShort(x[1..], p, n);
      assert x == [x[0]] + x[1..];
    }
  }

  /** A string shorter than the pattern is left alone by `replace`. */
  lemma ReplaceShort(s: string, p: string, n: string)
    requires p != [] && |s| < |p|
    ensures Replace(s, p, n) == s
  {
  }

  /** Python's `s.lower()` on ASCII letters; every other character is kept. */
  function Lower(s: string): (r: string)
    ensures |r| == |s|
  {
    seq(|s|, i requires 0 <= i < |s| => if 'A' <= s[i] <= 'Z' then (s[i] as int + 32) as char else s[i])
  }

  /** Decimal digits of a natural number, as Python's `str(n)` writes them. */
  function NatToString(n: nat): (r: string)
    ensures r != []
    decreases n
  {
    var d := ['0', '1', '2', '3', '4', '5', '6', '7', '8', '9'][n % 10];
    if n < 10 then [d] else NatToString(n / 10) + [d]
  }
}
