/** The few operations of Python's `str` that the core relies on, stated on
    `seq<char>` with Python's own edge cases (clamped slices, `rfind` returning
    -1, the empty string being a substring of every string). */
module PyText {

  /** `s[lo:hi]` for non-negative bounds: both bounds are clamped to `len(s)`,
      and crossing bounds give the empty string instead of an error. */
  function Slice(s: string, lo: nat, hi: nat): (r: string)
    ensures lo <= hi && hi <= |s| ==> r == s[lo..hi]
    ensures hi < lo || |s| <= lo ==> r == ""
    ensures lo <= hi && lo < |s| < hi ==> r == s[lo..]
  {
    var h := if hi < |s| then hi else |s|;
    if lo < h then s[lo..h] else ""
  }

  /** `s.rfind(c)`: the index of the last occurrence of `c`, or -1. */
  function RFind(s: string, c: char): (r: int)
    ensures -1 <= r < |s|
    ensures r >= 0 ==> s[r] == c
    ensures forall k :: r < k < |s| ==> s[k] != c
  {
    if s == [] then -1
    else if s[|s| - 1] == c then |s| - 1
    else RFind(s[..|s| - 1], c)
  }

  /** `s.endswith(suffix)` */
  predicate EndsWith(s: string, suffix: string)
  {
    |suffix| <= |s| && s[|s| - |suffix|..] == suffix
  }

  predicate OccursAt(s: string, sub: string, i: nat)
  {
    i + |sub| <= |s| && s[i..i + |sub|] == sub
  }

  /** `sub in s`; the empty string occurs in every string. */
  predicate Contains(s: string, sub: string)
  {
    exists i | 0 <= i <= |s| :: OccursAt(s, sub, i)
  }

  /** Some word of `words` occurs in `s`. */
  predicate ContainsAny(s: string, words: seq<string>)
  {
    exists w | w in words :: Contains(s, w)
  }

  /** Whatever occurs in `s` still occurs once text is appended to `s`. */
  lemma ContainsExtend(s: string, t: string, sub: string)
    requires Contains(s, sub)
    ensures Contains(s + t, sub)
  {
    var i :| 0 <= i <= |s| && OccursAt(s, sub, i);
    assert (s + t)[i..i + |sub|] == s[i..i + |sub|];
    assert OccursAt(s + t, sub, i);
  }

  /** A text free of every word of `words` was free of them before text was appended. */
  lemma ContainsAnyPrefix(s: string, t: string, words: seq<string>)
    requires !ContainsAny(s + t, words)
    ensures !ContainsAny(s, words)
  {
    if ContainsAny(s, words) {
      var w :| w in words && Contains(s, w);
      ContainsExtend(s, t, w);
    }
  }

  /** The characters Python's `str.strip()` removes (those for which `str.isspace()` holds). */
  const Whitespace: set<char> := {
    '\t', '\n', '\U{000B}', '\U{000C}', '\r', '\U{001C}', '\U{001D}', '\U{001E}', '\U{001F}', ' ',
    '\U{0085}', '\U{00A0}', '\U{1680}', '\U{2000}', '\U{2001}', '\U{2002}', '\U{2003}', '\U{2004}',
    '\U{2005}', '\U{2006}', '\U{2007}', '\U{2008}', '\U{2009}', '\U{200A}', '\U{2028}', '\U{2029}',
    '\U{202F}', '\U{205F}', '\U{3000}'
  }

  /** `s.lstrip(chars)` */
  function TrimStart(s: string, chars: set<char>): (r: string)
  {
    if s != [] && s[0] in chars then TrimStart(s[1..], chars) else s
  }

  /** `s.rstrip(chars)` */
  function TrimEnd(s: string, chars: set<char>): (r: string)
  {
    if s != [] && s[|s| - 1] in chars then TrimEnd(s[..|s| - 1], chars) else s
  }

  /** Left-stripping removes exactly the longest prefix made of `chars`. */
  lemma {:induction false} TrimStartIsSuffix(s: string, chars: set<char>)
    ensures var r := TrimStart(s, chars);
      && |r| <= |s| && r == s[|s| - |r|..]
      && AllIn(s[..|s| - |r|], chars)
      && (r == [] || r[0] !in chars)
  {
    if s != [] && s[0] in chars {
      TrimStartIsSuffix(s[1..], chars);
      var r := TrimStart(s, chars);
      assert s[..|s| - |r|] == [s[0]] + s[1..][..|s[1..]| - |r|];
    }
  }

  /** Right-stripping removes exactly the longest suffix made of `chars`. */
  lemma {:induction false} TrimEndIsPrefix(s: string, chars: set<char>)
    ensures var r := TrimEnd(s, chars);
      && |r| <= |s| && r == s[..|r|]
      && AllIn(s[|r|..], chars)
      && (r == [] || r[|r| - 1] !in chars)
  {
    if s != [] && s[|s| - 1] in chars {
      var t := s[..|s| - 1];
      TrimEndIsPrefix(t, chars);
      var r := TrimEnd(s, chars);
      assert s[|r|..] == t[|r|..] + [s[|s| - 1]];
    }
  }

  /** `s.strip(chars)` */
  function Trim(s: string, chars: set<char>): (r: string)
  {
    TrimEnd(TrimStart(s, chars), chars)
  }

  /** `s.strip()` with no argument. */
  function Strip(s: string): (r: string)
  {
    Trim(s, Whitespace)
  }

  /** Every character of `s` is one of `chars`. */
  predicate AllIn(s: string, chars: set<char>)
  {
    forall k :: 0 <= k < |s| ==> s[k] in chars
  }

  /** Stripping removes exactly a run of `chars` at each end: the result is the
      slice of `s` between a prefix and a suffix made only of `chars`, and neither
      of its own ends is in `chars`. */
  lemma TrimIsSlice(s: string, chars: set<char>) returns (i: nat, j: nat)
    ensures i <= j <= |s| && Trim(s, chars) == s[i..j]
    ensures AllIn(s[..i], chars) && AllIn(s[j..], chars)
    ensures i < j ==> s[i] !in chars && s[j - 1] !in chars
  {
    var t := TrimStart(s, chars);
    var r := TrimEnd(t, chars);
    TrimStartIsSuffix(s, chars);
    TrimEndIsPrefix(t, chars);
    i := |s| - |t|;
    j := i + |r|;
    assert r == s[i..j];
    assert r != [] ==> r[0] == t[0];
  }

  /** `str.lower()` on the ASCII letters (Unicode case mapping is not modelled). */
  function LowerChar(c: char): (r: char)
  {
    if 'A' <= c <= 'Z' then (c as int + 32) as char else c
  }

  function Lower(s: string): (r: string)
    ensures |r| == |s|
  {
    seq(|s|, i requires 0 <= i < |s| => LowerChar(s[i]))
  }

  /** `"".join(parts)`, built from the last part backwards. */
  function Concat(parts: seq<string>): (r: string)
  {
    if parts == [] then "" else Concat(parts[..|parts| - 1]) + parts[|parts| - 1]
  }

  lemma {:induction false} ConcatAppend(a: seq<string>, b: seq<string>)
    ensures Concat(a + b) == Concat(a) + Concat(b)
  {
    if b != [] {
      assert (a + b)[..|a + b| - 1] == a + b[..|b| - 1];
      ConcatAppend(a, b[..|b| - 1]);
    } else {
      assert a + b == a;
    }
  }

  /** `sep.join(parts)`. */
  function Join(parts: seq<string>, sep: string): (r: string)
  {
    if |parts| == 0 then ""
    else if |parts| == 1 then parts[0]
    else Join(parts[..|parts| - 1], sep) + sep + parts[|parts| - 1]
  }

  /** `str(n)` for a natural number: its decimal digits. */
  function NatToString(n: nat): (r: string)
    ensures |r| >= 1
    ensures forall k :: 0 <= k < |r| ==> '0' <= r[k] <= '9'
  {
    if n < 10 then ["0123456789"[n]]
    else NatToString(n / 10) + ["0123456789"[n % 10]]
  }
}
