/** Optional values: JavaScript's `undefined`/`null` next to a present value. */
module Options {
  datatype Option<+T> = None | Some(value: T)
}

/** The few JavaScript string operations the server code is built from:
    `includes`, `join`, `||` defaults, number rendering, global `replace` and `trim`. */
module Text {
  import opened Options

  /** `s.includes(sub)` */
  predicate Contains(s: string, sub: string) {
    exists i :: 0 <= i <= |s| && sub <= s[i..]
  }

  lemma ContainsAt(s: string, sub: string, i: nat)
    requires i + |sub| <= |s| && s[i..i + |sub|] == sub
    ensures Contains(s, sub)
  {
    assert sub <= s[i..];
  }

  /** Whatever is placed between two strings occurs in the result. */
  lemma ContainsMiddle(pre: string, sub: string, post: string)
    ensures Contains(pre + sub + post, sub)
  {
    var s := pre + sub + post;
    assert s[|pre|..|pre| + |sub|] == sub;
    ContainsAt(s, sub, |pre|);
  }

  lemma ContainsTransitive(a: string, b: string, c: string)
    requires Contains(a, b) && Contains(b, c)
    ensures Contains(a, c)
  {
    var i :| 0 <= i <= |a| && b <= a[i..];
    assert i + |b| <= |a| && a[i..i + |b|] == b;
    ContainsInSlice(a, i, i + |b|, c);
  }

  /** Whatever a contained text contains, the containing text contains. */
  lemma ContainsEach(a: string, b: string, xs: seq<string>)
    requires Contains(a, b)
    requires forall k :: 0 <= k < |xs| ==> Contains(b, xs[k])
    ensures forall k :: 0 <= k < |xs| ==> Contains(a, xs[k])
  {
    forall k | 0 <= k < |xs|
      ensures Contains(a, xs[k])
    {
      ContainsTransitive(a, b, xs[k]);
    }
  }

  lemma ContainsSelf(s: string)
    ensures Contains(s, s)
  {
    assert s <= s[0..];
  }

  /** Appending text keeps every occurrence. */
  lemma ContainsLeft(a: string, b: string, sub: string)
    requires Contains(a, sub)
    ensures Contains(a + b, sub)
  {
    var i :| 0 <= i <= |a| && sub <= a[i..];
    assert (a + b)[i..i + |sub|] == a[i..i + |sub|];
    ContainsAt(a + b, sub, i);
  }

  /** Prepending text keeps every occurrence. */
  lemma ContainsRight(a: string, b: string, sub: string)
    requires Contains(b, sub)
    ensures Contains(a + b, sub)
  {
    var i :| 0 <= i <= |b| && sub <= b[i..];
    assert (a + b)[|a| + i..|a| + i + |sub|] == b[i..i + |sub|];
    ContainsAt(a + b, sub, |a| + i);
  }

  /** A piece of a string contains only what the whole string contains. */
  lemma ContainsInSlice(s: string, lo: nat, hi: nat, sub: string)
    requires lo <= hi <= |s| && Contains(s[lo..hi], sub)
    ensures Contains(s, sub)
  {
    var t := s[lo..hi];
    var i :| 0 <= i <= |t| && sub <= t[i..];
    assert i + |sub| <= |t| && t[i..i + |sub|] == sub;
    assert s[lo + i..lo + i + |sub|] == t[i..i + |sub|];
    ContainsAt(s, sub, lo + i);
  }

  /** `parts.join(sep)` */
  function Join(parts: seq<string>, sep: string): string
  {
    if |parts| == 0 then ""
    else if |parts| == 1 then parts[0]
    else parts[0] + sep + Join(parts[1..], sep)
  }

  /** Every joined part occurs in the joined text. */
  lemma {:induction false} JoinContainsPart(parts: seq<string>, sep: string, k: nat)
    requires k < |parts|
    ensures Contains(Join(parts, sep), parts[k])
  {
    if |parts| == 1 {
      ContainsMiddle("", parts[0], "");
      assert "" + parts[0] + "" == parts[0];
    } else if k == 0 {
      ContainsMiddle("", parts[0], sep + Join(parts[1..], sep));
      assert "" + parts[0] + (sep + Join(parts[1..], sep)) == Join(parts, sep);
    } else {
      JoinContainsPart(parts[1..], sep, k - 1);
      var rest := Join(parts[1..], sep);
      ContainsMiddle(parts[0] + sep, rest, "");
      assert parts[0] + sep + rest + "" == Join(parts, sep);
      ContainsTransitive(Join(parts, sep), rest, parts[k]);
    }
  }

  /** With a non-empty separator, the join is empty only for no parts or one empty part. */
  lemma {:induction false} JoinEmptyIff(parts: seq<string>, sep: string)
    requires sep != ""
    ensures Join(parts, sep) == "" <==> |parts| == 0 || (|parts| == 1 && parts[0] == "")
  {
    if |parts| >= 2 {
      assert |Join(parts, sep)| >= |sep|;
    }
  }

  /** `list?.join(sep) || fallback`: a missing list, or one whose join is the empty string
      (which JavaScript treats as false), renders the fallback text. */
  function JoinOr(list: Option<seq<string>>, sep: string, fallback: string): (r: string)
    requires sep != ""
    ensures list.None? ==> r == fallback
    ensures list.Some? && |list.value| == 0 ==> r == fallback
    ensures list.Some? ==> r == (if Join(list.value, sep) == "" then fallback else Join(list.value, sep))
    ensures list.Some? && (exists k :: 0 <= k < |list.value| && list.value[k] != "") ==> r == Join(list.value, sep)
  {
    match list
    case None => fallback
    case Some(parts) =>
      JoinEmptyIff(parts, sep);
      var j := Join(parts, sep);
      if j == "" then fallback else j
  }

  /** Each element of a present list occurs in its joined-or-defaulted rendering. */
  lemma JoinOrContainsPart(list: seq<string>, sep: string, fallback: string, k: nat)
    requires sep != "" && k < |list|
    ensures Contains(JoinOr(Some(list), sep, fallback), list[k])
  {
    JoinEmptyIff(list, sep);
    if Join(list, sep) == "" {
      assert list[k] == "";
      assert list[k] <= fallback[0..];
    } else {
      JoinContainsPart(list, sep, k);
    }
  }

  /** `value || fallback` for an optional string: a missing or empty value renders the fallback. */
  function StringOr(value: Option<string>, fallback: string): (r: string)
    ensures r == fallback || (value.Some? && r == value.value && r != "")
    ensures value.Some? && value.value != "" ==> r == value.value
  {
    if value.Some? && value.value != "" then value.value else fallback
  }

  // ---------------------------------------------------------------------------
  // Decimal rendering of integers (`${n}` in a template literal)

  function DigitChar(d: nat): char
    requires d < 10
  {
    (('0' as int) + d) as char
  }

  function DigitValue(c: char): int
  {
    if '0' <= c <= '9' then (c as int) - ('0' as int) else -1
  }

  function NatToString(n: nat): (r: string)
    ensures |r| >= 1
    ensures forall k :: 0 <= k < |r| ==> '0' <= r[k] <= '9'
    decreases n
  {
    if n < 10 then [DigitChar(n)] else NatToString(n / 10) + [DigitChar(n % 10)]
  }

  /** `${n}` for an integer `n`. */
  function IntToString(n: int): string
  {
    if n < 0 then "-" + NatToString(-n) else NatToString(n)
  }

  /** Reads back a string of decimal digits. */
  function ParseDigits(s: string): int
    decreases |s|
  {
    if |s| == 0 then 0 else 10 * ParseDigits(s[..|s| - 1]) + DigitValue(s[|s| - 1])
  }

  function ParseInt(s: string): int
  {
    if |s| > 0 && s[0] == '-' then -ParseDigits(s[1..]) else ParseDigits(s)
  }

  lemma {:induction false} NatToStringRoundTrip(n: nat)
    ensures ParseDigits(NatToString(n)) == n
    decreases n
  {
    var r := NatToString(n);
    if n < 10 {
      assert r == [DigitChar(n)];
      assert r[..0] == [];
    } else {
      var hi := NatToString(n / 10);
      NatToStringRoundTrip(n / 10);
      assert r == hi + [DigitChar(n % 10)];
      assert r[..|r| - 1] == hi;
    }
  }

  /** Rendering an integer as text loses nothing: it reads back as the same number. */
  lemma IntToStringRoundTrip(n: int)
    ensures ParseInt(IntToString(n)) == n
  {
    if n < 0 {
      NatToStringRoundTrip(-n);
      assert ("-" + NatToString(-n))[1..] == NatToString(-n);
    } else {
      NatToStringRoundTrip(n);
    }
  }

  // ---------------------------------------------------------------------------
  // `s.replace(/pat/g, '')` and `s.trim()`

  /** Removes every occurrence of `pat`, scanning left to right and resuming after each match,
      as a global regular-expression replace with a literal pattern does. */
  function RemoveAll(s: string, pat: string): string
    requires pat != ""
    decreases |s|
  {
    if |s| < |pat| then s
    else if s[..|pat|] == pat then RemoveAll(s[|pat|..], pat)
    else [s[0]] + RemoveAll(s[1..], pat)
  }

  /** Removing a pattern that does not occur changes nothing. */
  lemma {:induction false} RemoveAllAbsent(s: string, pat: string)
    requires pat != "" && !Contains(s, pat)
    ensures RemoveAll(s, pat) == s
    decreases |s|
  {
    if |s| >= |pat| {
      if s[..|pat|] == pat {
        ContainsAt(s, pat, 0);
      }
      RemoveAllAbsent(s[1..], pat);
      assert [s[0]] + s[1..] == s;
    }
  }

  const Fence := "```"

  /** No three consecutive backticks. */
  predicate NoFence(t: string) {
    forall i :: 0 <= i && i + 2 < |t| ==> !(t[i] == '`' && t[i + 1] == '`' && t[i + 2] == '`')
  }

  lemma NoFenceNotContains(t: string)
    requires NoFence(t)
    ensures !Contains(t, Fence)
  {
    forall i | 0 <= i <= |t|
      ensures !(Fence <= t[i..])
    {
      if i + 2 < |t| {
        assert !(t[i] == '`' && t[i + 1] == '`' && t[i + 2] == '`');
        assert t[i..][0] == t[i] && t[i..][1] == t[i + 1] && t[i..][2] == t[i + 2];
      }
    }
  }

  /** A piece of a text without fences has none either. */
  lemma NoFenceSlice(t: string, lo: nat, hi: nat)
    requires lo <= hi <= |t| && NoFence(t)
    ensures NoFence(t[lo..hi])
  {
    var u := t[lo..hi];
    forall i | 0 <= i && i + 2 < |u|
      ensures !(u[i] == '`' && u[i + 1] == '`' && u[i + 2] == '`')
    {
      assert u[i] == t[lo + i] && u[i + 1] == t[lo + i + 1] && u[i + 2] == t[lo + i + 2];
    }
  }

  /** What is left of a text that does not start with a backtick starts with that same character. */
  lemma RemoveFenceKeepsHead(s: string)
    requires |s| > 0 && s[0] != '`'
    ensures |RemoveAll(s, Fence)| > 0 && RemoveAll(s, Fence)[0] == s[0]
  {
    if |s| >= 3 {
      assert s[..3] != Fence by { assert s[..3][0] == s[0]; }
    }
  }

  /** A kept backtick is never followed by two more: the text after it, once its fences are
      removed, does not start with two backticks. */
  lemma KeptTickStartsNoFence(s: string)
    requires |s| >= 3 && s[..3] != Fence && s[0] == '`'
    ensures var t := RemoveAll(s[1..], Fence); !(|t| >= 2 && t[0] == '`' && t[1] == '`')
  {
    var t := RemoveAll(s[1..], Fence);
    if s[1] != '`' {
      RemoveFenceKeepsHead(s[1..]);
    } else {
      assert s[2] != '`' by { assert s[..3] == [s[0], s[1], s[2]]; }
      var u := s[1..];
      if |u| >= 3 {
        assert u[..3] != Fence by { assert u[..3][1] == s[2]; }
        assert u[1..] == s[2..];
        assert t == [u[0]] + RemoveAll(s[2..], Fence);
        RemoveFenceKeepsHead(s[2..]);
        assert t[1] == s[2];
      } else {
        assert t == u;
      }
    }
  }

  /** After removing every "```", no "```" is left: a run of backticks loses a multiple of three
      and keeps fewer than three, and the runs stay separated by the characters that were kept. */
  lemma {:induction false} RemoveFenceLeavesNoFence(s: string)
    ensures NoFence(RemoveAll(s, Fence))
    decreases |s|
  {
    var r := RemoveAll(s, Fence);
    if |s| < 3 {
    } else if s[..3] == Fence {
      RemoveFenceLeavesNoFence(s[3..]);
    } else {
      var t := RemoveAll(s[1..], Fence);
      RemoveFenceLeavesNoFence(s[1..]);
      assert r == [s[0]] + t;
      if s[0] == '`' {
        KeptTickStartsNoFence(s);
      }
      forall i | 0 <= i && i + 2 < |r|
        ensures !(r[i] == '`' && r[i + 1] == '`' && r[i + 2] == '`')
      {
        if i > 0 {
          assert r[i] == t[i - 1] && r[i + 1] == t[i] && r[i + 2] == t[i + 1];
        }
      }
    }
  }

  /** The characters JavaScript's `trim` removes: white space and line terminators. */
  predicate IsTrimmable(c: char) {
    c == '\t' || c == '\n' || c == '\U{000B}' || c == '\U{000C}' || c == '\r' || c == ' ' ||
    c == '\U{00A0}' || c == '\U{1680}' || ('\U{2000}' <= c <= '\U{200A}') ||
    c == '\U{2028}' || c == '\U{2029}' || c == '\U{202F}' || c == '\U{205F}' ||
    c == '\U{3000}' || c == '\U{FEFF}'
  }

  predicate AllTrimmable(s: string) {
    forall k :: 0 <= k < |s| ==> IsTrimmable(s[k])
  }

  /** Number of trimmable characters at the start of `s`. */
  function LeadingTrimmable(s: string): (n: nat)
    ensures n <= |s| && AllTrimmable(s[..n])
    ensures n < |s| ==> !IsTrimmable(s[n])
    decreases |s|
  {
    if |s| == 0 || !IsTrimmable(s[0]) then 0
    else
      var n := 1 + LeadingTrimmable(s[1..]);
      assert forall k :: 1 <= k < n ==> s[..n][k] == s[1..][..n - 1][k - 1];
      n
  }

  /** Number of trimmable characters at the end of `s`. */
  function TrailingTrimmable(s: string): (n: nat)
    ensures n <= |s| && AllTrimmable(s[|s| - n..])
    ensures n < |s| ==> !IsTrimmable(s[|s| - n - 1])
    decreases |s|
  {
    if |s| == 0 || !IsTrimmable(s[|s| - 1]) then 0
    else
      var n := 1 + TrailingTrimmable(s[..|s| - 1]);
      assert forall k :: |s| - n <= k < |s| - 1 ==> s[k] == s[..|s| - 1][k];
      n
  }

  /** Where `s.trim()` starts: after the leading trimmable characters. */
  function TrimStart(s: string): nat
  {
    LeadingTrimmable(s)
  }

  /** Where `s.trim()` ends: before the trailing trimmable characters of what follows `TrimStart(s)`. */
  function TrimEnd(s: string): (e: nat)
    ensures TrimStart(s) <= e <= |s|
  {
    |s| - TrailingTrimmable(s[TrimStart(s)..])
  }

  /** `s.trim()`: the text left after cutting the trimmable characters at both ends. */
  function Trim(s: string): (r: string)
    ensures r == "" || (!IsTrimmable(r[0]) && !IsTrimmable(r[|r| - 1]))
  {
    var rest := s[TrimStart(s)..];
    assert s[TrimStart(s)..TrimEnd(s)] == rest[..|rest| - TrailingTrimmable(rest)];
    s[TrimStart(s)..TrimEnd(s)]
  }

  /** A text begins with each of its leading parts. */
  lemma PrefixOfConcat(a: string, b: string)
    ensures a <= a + b
  {
    assert (a + b)[..|a|] == a;
  }

  /** A text contains each of its prefixes. */
  lemma PrefixContained(s: string, x: string)
    requires x <= s
    ensures Contains(s, x)
  {
    assert s[0..] == s;
  }

  /** A text is its three slices at two cut points. */
  lemma SplitThree(s: string, a: nat, e: nat)
    requires a <= e <= |s|
    ensures s == s[..a] + s[a..e] + s[e..]
  {
    assert s[..a] + s[a..e] == s[..e];
  }

  /** `trim` cuts only trimmable characters. */
  lemma TrimCutsOnlyTrimmable(s: string)
    ensures s == s[..TrimStart(s)] + Trim(s) + s[TrimEnd(s)..]
    ensures AllTrimmable(s[..TrimStart(s)]) && AllTrimmable(s[TrimEnd(s)..])
  {
    var a, e := TrimStart(s), TrimEnd(s);
    var rest := s[a..];
    var b := TrailingTrimmable(rest);
    assert s[e..] == rest[|rest| - b..];
    SplitThree(s, a, e);
  }

  /** `trim` leaves nothing exactly when there is nothing but trimmable characters. */
  lemma TrimEmptyIff(s: string)
    ensures AllTrimmable(s) <==> Trim(s) == ""
  {
    var a := TrimStart(s);
    var rest := s[a..];
    if AllTrimmable(s) {
      assert a == |s|;
    }
    if Trim(s) == "" {
      assert a == |s|;
      assert s[..a] == s;
    }
  }

  lemma TrimOfTrimmed(s: string)
    requires s == "" || (!IsTrimmable(s[0]) && !IsTrimmable(s[|s| - 1]))
    ensures Trim(s) == s
  {
    if s != "" {
      assert LeadingTrimmable(s) == 0;
      assert TrailingTrimmable(s) == 0;
    }
  }
}
