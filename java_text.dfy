/** The java.lang.String and java.lang.Integer operations the application
    relies on, stated over `seq<char>`.

    Approximations (each named where it is defined):
    - line breaks: Java's `\R` is taken to be the single character '\n';
    - lower-casing and case-insensitive comparison cover ASCII letters only. */
module JavaText {
  import opened Wrappers

  type Str = seq<char>

  // ---------------------------------------------------------------- trim

  /** `String.trim` removes every leading and trailing char whose code is
      at most U+0020. */
  predicate TrimmedAway(c: char) { c <= ' ' }

  function TrimStart(s: Str): Str
    decreases |s|
  {
    if s != [] && TrimmedAway(s[0]) then TrimStart(s[1..]) else s
  }

  function TrimEnd(s: Str): Str
    decreases |s|
  {
    if s != [] && TrimmedAway(s[|s| - 1]) then TrimEnd(s[..|s| - 1]) else s
  }

  /** `String.trim()`. */
  function Trim(s: Str): Str {
    TrimEnd(TrimStart(s))
  }

  /** `TrimStart` keeps a suffix that starts with a significant char and
      drops only insignificant ones. */
  lemma {:induction false} TrimStartFacts(s: Str)
    ensures |TrimStart(s)| <= |s| && TrimStart(s) == s[|s| - |TrimStart(s)|..]
    ensures TrimStart(s) == [] || !TrimmedAway(TrimStart(s)[0])
    ensures forall k | 0 <= k < |s| - |TrimStart(s)| :: TrimmedAway(s[k])
    decreases |s|
  {
    if s != [] && TrimmedAway(s[0]) {
      TrimStartFacts(s[1..]);
    }
  }

  /** `TrimEnd` keeps a prefix that ends with a significant char and drops
      only insignificant ones. */
  lemma {:induction false} TrimEndFacts(s: Str)
    ensures |TrimEnd(s)| <= |s| && TrimEnd(s) == s[..|TrimEnd(s)|]
    ensures TrimEnd(s) == [] || !TrimmedAway(TrimEnd(s)[|TrimEnd(s)| - 1])
    ensures forall k | |TrimEnd(s)| <= k < |s| :: TrimmedAway(s[k])
    decreases |s|
  {
    if s != [] && TrimmedAway(s[|s| - 1]) {
      TrimEndFacts(s[..|s| - 1]);
    }
  }

  /** A trimmed text is empty or starts and ends with significant chars. */
  lemma TrimFacts(s: Str)
    ensures Trim(s) == [] || (!TrimmedAway(Trim(s)[0]) && !TrimmedAway(Trim(s)[|Trim(s)| - 1]))
  {
    TrimStartFacts(s);
    TrimEndFacts(TrimStart(s));
  }

  /** Trim is empty exactly when every char is trimmed away. */
  lemma TrimEmptyIff(s: Str)
    ensures Trim(s) == [] <==> forall k | 0 <= k < |s| :: TrimmedAway(s[k])
  {
    TrimStartFacts(s);
    TrimEndFacts(TrimStart(s));
    if Trim(s) != [] {
      var t := TrimStart(s);
      assert Trim(s)[0] == t[0] == s[|s| - |t|];
    }
  }

  /** Trimming a text whose ends are already significant changes nothing. */
  lemma TrimNoop(s: Str)
    requires s == [] || (!TrimmedAway(s[0]) && !TrimmedAway(s[|s| - 1]))
    ensures Trim(s) == s
  {
  }

  lemma {:induction false} TrimStartPadded(pre: Str, x: Str)
    requires forall k | 0 <= k < |pre| :: TrimmedAway(pre[k])
    requires x == [] || !TrimmedAway(x[0])
    ensures TrimStart(pre + x) == x
    decreases |pre|
  {
    if pre != [] {
      assert (pre + x)[0] == pre[0];
      assert (pre + x)[1..] == pre[1..] + x;
      TrimStartPadded(pre[1..], x);
    }
  }

  lemma {:induction false} TrimEndPadded(y: Str, post: Str)
    requires forall k | 0 <= k < |post| :: TrimmedAway(post[k])
    requires y == [] || !TrimmedAway(y[|y| - 1])
    ensures TrimEnd(y + post) == y
    decreases |post|
  {
    if post != [] {
      var s := y + post;
      assert s[|s| - 1] == post[|post| - 1];
      assert s[..|s| - 1] == y + post[..|post| - 1];
      TrimEndPadded(y, post[..|post| - 1]);
    }
  }

  /** Trimming pads of insignificant chars around a trimmed core gives the core. */
  lemma TrimPadded(pre: Str, m: Str, post: Str)
    requires forall k | 0 <= k < |pre| :: TrimmedAway(pre[k])
    requires forall k | 0 <= k < |post| :: TrimmedAway(post[k])
    requires m == [] || (!TrimmedAway(m[0]) && !TrimmedAway(m[|m| - 1]))
    ensures Trim(pre + m + post) == m
  {
    if m == [] {
      assert pre + m + post == (pre + post) + [];
      TrimStartPadded(pre + post, []);
    } else {
      assert pre + m + post == pre + (m + post);
      TrimStartPadded(pre, m + post);
      TrimEndPadded(m, post);
    }
  }

  /** `Trim(s)` sits inside `s` between two runs of trimmed-away chars. */
  lemma TrimDecompose(s: Str) returns (pre: Str, post: Str)
    ensures s == pre + Trim(s) + post
    ensures forall k | 0 <= k < |pre| :: TrimmedAway(pre[k])
    ensures forall k | 0 <= k < |post| :: TrimmedAway(post[k])
  {
    var t := TrimStart(s);
    var m := TrimEnd(t);
    TrimStartFacts(s);
    TrimEndFacts(t);
    pre := s[..|s| - |t|];
    post := t[|m|..];
    forall k | 0 <= k < |pre| ensures TrimmedAway(pre[k]) {
      assert pre[k] == s[k];
    }
    forall k | 0 <= k < |post| ensures TrimmedAway(post[k]) {
      assert post[k] == t[|m| + k];
    }
    assert s == pre + t;
    assert t == m + post by {
      assert m == t[..|m|];
    }
  }

  /** Trailing insignificant chars do not change the trimmed text. */
  lemma TrimAppendPad(s: Str, pad: Str)
    requires forall k | 0 <= k < |pad| :: TrimmedAway(pad[k])
    ensures Trim(s + pad) == Trim(s)
  {
    var pre, post := TrimDecompose(s);
    var m := Trim(s);
    TrimFacts(s);
    assert s + pad == pre + m + (post + pad);
    TrimPadded(pre, m, post + pad);
  }

  /** Leading insignificant chars do not change the trimmed text. */
  lemma TrimPrependPad(pad: Str, s: Str)
    requires forall k | 0 <= k < |pad| :: TrimmedAway(pad[k])
    ensures Trim(pad + s) == Trim(s)
  {
    var pre, post := TrimDecompose(s);
    var m := Trim(s);
    TrimFacts(s);
    assert pad + s == (pad + pre) + m + post;
    TrimPadded(pad + pre, m, post);
  }

  lemma TrimIdempotent(s: Str)
    ensures Trim(Trim(s)) == Trim(s)
  {
    TrimFacts(s);
    TrimNoop(Trim(s));
  }

  // --------------------------------------------------------- whitespace

  /** `Character.isWhitespace`: the ASCII controls TAB..CR and FS..US, the
      space, and the Unicode space/line/paragraph separators other than the
      three non-breaking ones (U+00A0, U+2007, U+202F). */
  predicate IsWhitespace(c: char) {
    ('\t' <= c <= '\r') || ('\U{1C}' <= c <= ' ')
    || c == '\U{1680}' || ('\U{2000}' <= c <= '\U{2006}') || ('\U{2008}' <= c <= '\U{200A}')
    || c == '\U{2028}' || c == '\U{2029}' || c == '\U{205F}' || c == '\U{3000}'
  }

  /** `String.isBlank()`: empty or whitespace only. */
  predicate IsBlank(s: Str) {
    forall k | 0 <= k < |s| :: IsWhitespace(s[k])
  }

  /** A Java reference that may be null, tested with `s == null || s.isBlank()`. */
  predicate NullOrBlank(s: Option<Str>) {
    s.None? || IsBlank(s.value)
  }

  /** How string concatenation and `StringBuilder.append` render a
      reference that may be null. */
  function Shown(s: Option<Str>): Str {
    if s.None? then "null" else s.value
  }

  /** A Java reference tested with `s == null || s.trim().isEmpty()`. */
  predicate NullOrTrimEmpty(s: Option<Str>) {
    s.None? || Trim(s.value) == []
  }

  // --------------------------------------------------------- lower case

  /** `Character.toLowerCase`, ASCII letters only. */
  function LowerChar(c: char): (r: char)
    ensures 'A' <= c <= 'Z' ==> 'a' <= r <= 'z'
    ensures !('A' <= c <= 'Z') ==> r == c
  {
    if 'A' <= c <= 'Z' then (c as int + 32) as char else c
  }

  /** `String.toLowerCase()`, ASCII letters only. */
  function Lower(s: Str): Str {
    seq(|s|, k requires 0 <= k < |s| => LowerChar(s[k]))
  }

  lemma LowerIdempotent(s: Str)
    ensures Lower(Lower(s)) == Lower(s)
  {
  }

  lemma LowerAppend(a: Str, b: Str)
    ensures Lower(a + b) == Lower(a) + Lower(b)
  {
  }

  /** `String.equalsIgnoreCase`, ASCII letters only: equal lengths and equal
      chars after lower-casing, compared front to back. */
  function EqualsIgnoreCase(a: Str, b: Str): bool
    decreases |a|
  {
    if |a| != |b| then false
    else if a == [] then true
    else LowerChar(a[0]) == LowerChar(b[0]) && EqualsIgnoreCase(a[1..], b[1..])
  }

  lemma {:induction false} EqualsIgnoreCaseLower(a: Str, b: Str)
    ensures EqualsIgnoreCase(a, b) <==> Lower(a) == Lower(b)
    decreases |a|
  {
    if |a| == |b| && a != [] {
      EqualsIgnoreCaseLower(a[1..], b[1..]);
      assert Lower(a) == [LowerChar(a[0])] + Lower(a[1..]);
      assert Lower(b) == [LowerChar(b[0])] + Lower(b[1..]);
      if Lower(a) == Lower(b) {
        assert Lower(a)[0] == Lower(b)[0];
        assert Lower(a)[1..] == Lower(b)[1..];
      }
    }
  }

  // ----------------------------------------------------------- searching

  /** `p` occurs in `s` starting at index `i`. */
  predicate IsAt(s: Str, p: Str, i: int) {
    0 <= i && i + |p| <= |s| && s[i..i + |p|] == p
  }

  predicate StartsWith(s: Str, p: Str) {
    IsAt(s, p, 0)
  }

  /** `String.contains`. */
  predicate Contains(s: Str, p: Str) {
    exists i | 0 <= i <= |s| - |p| :: IsAt(s, p, i)
  }

  /** `b` sits right after `a`. */
  lemma ContainsMiddle(a: Str, b: Str, c: Str)
    ensures Contains(a + b + c, b)
  {
    assert (a + b + c)[|a|..|a| + |b|] == b;
    assert IsAt(a + b + c, b, |a|);
  }

  lemma ContainsSelf(p: Str)
    ensures Contains(p, p)
  {
    assert p[0..|p|] == p;
    assert IsAt(p, p, 0);
  }

  lemma ContainsEnd(a: Str, b: Str)
    ensures Contains(a + b, b)
  {
    assert (a + b)[|a|..] == b;
    assert IsAt(a + b, b, |a|);
  }

  /** An occurrence survives text appended after it. */
  lemma ContainsAfter(s: Str, p: Str, z: Str)
    requires Contains(s, p)
    ensures Contains(s + z, p)
  {
    var i :| 0 <= i <= |s| - |p| && IsAt(s, p, i);
    assert (s + z)[i..i + |p|] == s[i..i + |p|];
    assert IsAt(s + z, p, i);
  }

  /** An occurrence survives text added on both sides. */
  lemma ContainsWithin(x: Str, s: Str, z: Str, p: Str)
    requires Contains(s, p)
    ensures Contains(x + s + z, p)
  {
    var i :| 0 <= i <= |s| - |p| && IsAt(s, p, i);
    assert (x + s + z)[|x| + i..|x| + i + |p|] == s[i..i + |p|];
    assert IsAt(x + s + z, p, |x| + i);
  }

  lemma Regroup(p: Str, a: Str, b: Str)
    ensures p + a + b == p + (a + b)
  {
  }

  lemma Regroup3(p: Str, a: Str, b: Str, c: Str)
    ensures p + a + b + c == p + (a + b + c)
  {
  }

  /** `String.indexOf(p, from)`: the first occurrence at or after `from`, or -1. */
  function IndexOfFrom(s: Str, p: Str, from: nat): (r: int)
    requires from <= |s|
    ensures r == -1 || (from <= r && IsAt(s, p, r))
    ensures r == -1 ==> forall i | from <= i <= |s| :: !IsAt(s, p, i)
    ensures r != -1 ==> forall i | from <= i < r :: !IsAt(s, p, i)
    decreases |s| - from
  {
    if IsAt(s, p, from) then from
    else if from == |s| then -1
    else IndexOfFrom(s, p, from + 1)
  }

  /** `String.indexOf(p)`. */
  function IndexOf(s: Str, p: Str): (r: int)
    ensures r == -1 <==> !Contains(s, p)
    ensures r != -1 ==> IsAt(s, p, r) && forall i | 0 <= i < r :: !IsAt(s, p, i)
  {
    var r := IndexOfFrom(s, p, 0);
    if r == -1 then
      assert forall i | 0 <= i <= |s| - |p| :: !IsAt(s, p, i);
      r
    else
      r
  }

  function LastAtOrBefore(s: Str, p: Str, i: int): (r: int)
    requires -1 <= i <= |s|
    ensures r == -1 || (0 <= r <= i && IsAt(s, p, r))
    ensures forall j | r < j <= i :: !IsAt(s, p, j)
    decreases i + 1
  {
    if i < 0 then -1
    else if IsAt(s, p, i) then i
    else LastAtOrBefore(s, p, i - 1)
  }

  /** `String.lastIndexOf(p)`: the last occurrence, or -1. */
  function LastIndexOf(s: Str, p: Str): (r: int)
    ensures r == -1 <==> !Contains(s, p)
    ensures r != -1 ==> IsAt(s, p, r) && forall j | r < j <= |s| :: !IsAt(s, p, j)
  {
    LastAtOrBefore(s, p, |s|)
  }

  // ---------------------------------------------------- split and join

  /** The fields of `s` between occurrences of `c`, empty fields kept:
      `split(regex, -1)`. */
  function SplitAll(s: Str, c: char): (r: seq<Str>)
    ensures |r| >= 1
    decreases |s|
  {
    if s == [] then [[]]
    else
      var rest := SplitAll(s[1..], c);
      if s[0] == c then [[]] + rest
      else [[s[0]] + rest[0]] + rest[1..]
  }

  /** The parts of a sequence separated by `sep`. */
  function Join(parts: seq<Str>, sep: Str): Str
  {
    if |parts| == 0 then []
    else if |parts| == 1 then parts[0]
    else parts[0] + sep + Join(parts[1..], sep)
  }

  /** No field contains the separator. */
  lemma {:induction false} SplitAllFields(s: Str, c: char)
    ensures forall k | 0 <= k < |SplitAll(s, c)| :: c !in SplitAll(s, c)[k]
    decreases |s|
  {
    if s != [] {
      SplitAllFields(s[1..], c);
    }
  }

  /** Joining the fields with the separator gives back the text. */
  lemma {:induction false} JoinSplitAll(s: Str, c: char)
    ensures Join(SplitAll(s, c), [c]) == s
    decreases |s|
  {
    if s != [] {
      JoinSplitAll(s[1..], c);
      var rest := SplitAll(s[1..], c);
      if s[0] != c {
        if |rest| > 1 {
          assert Join(rest, [c]) == rest[0] + [c] + Join(rest[1..], [c]);
        }
      }
    }
  }

  /** Splitting a join of separator-free parts gives back the parts. */
  lemma {:induction false} SplitAllJoin(parts: seq<Str>, c: char)
    requires |parts| >= 1
    requires forall k | 0 <= k < |parts| :: c !in parts[k]
    ensures SplitAll(Join(parts, [c]), c) == parts
    decreases |parts|, |parts[0]|
  {
    if |parts| == 1 {
      SplitAllNoSep(parts[0], c);
    } else if parts[0] == [] {
      SplitAllJoin(parts[1..], c);
      assert Join(parts, [c]) == [c] + Join(parts[1..], [c]);
    } else {
      var p0 := parts[0];
      var shorter := [p0[1..]] + parts[1..];
      assert shorter[0] == p0[1..];
      assert forall k | 1 <= k < |shorter| :: shorter[k] == parts[k];
      SplitAllJoin(shorter, c);
      var x := Join(parts, [c]);
      assert shorter[1..] == parts[1..];
      assert x == [p0[0]] + Join(shorter, [c]);
      assert x[0] == p0[0] != c;
      assert x[1..] == Join(shorter, [c]);
      assert [p0[0]] + p0[1..] == p0;
    }
  }

  lemma {:induction false} SplitAllNoSep(s: Str, c: char)
    requires c !in s
    ensures SplitAll(s, c) == [s]
    decreases |s|
  {
    if s != [] {
      assert s[0] != c;
      SplitAllNoSep(s[1..], c);
      assert [s[0]] + s[1..] == s;
    }
  }

  lemma {:induction false} JoinAppend(a: seq<Str>, b: seq<Str>, sep: Str)
    requires |a| >= 1 && |b| >= 1
    ensures Join(a + b, sep) == Join(a, sep) + sep + Join(b, sep)
    decreases |a|
  {
    if |a| == 1 {
      assert (a + b)[1..] == b;
    } else {
      assert (a + b)[1..] == a[1..] + b;
      JoinAppend(a[1..], b, sep);
    }
  }

  /** The fields of `a + [c] + b` are those of `a` followed by those of `b`. */
  lemma SplitAllConcat(a: Str, c: char, b: Str)
    ensures SplitAll(a + [c] + b, c) == SplitAll(a, c) + SplitAll(b, c)
  {
    var fa, fb := SplitAll(a, c), SplitAll(b, c);
    SplitAllFields(a, c);
    SplitAllFields(b, c);
    JoinSplitAll(a, c);
    JoinSplitAll(b, c);
    JoinAppend(fa, fb, [c]);
    SplitAllJoin(fa + fb, c);
  }

  /** Separator-free text followed by the separator contributes one field. */
  lemma SplitAllCons(a: Str, c: char, b: Str)
    requires c !in a
    ensures SplitAll(a + [c] + b, c) == [a] + SplitAll(b, c)
  {
    var parts := SplitAll(b, c);
    SplitAllFields(b, c);
    JoinSplitAll(b, c);
    SplitAllJoin([a] + parts, c);
    assert Join([a] + parts, [c]) == a + [c] + Join(parts, [c]);
  }

  /** Drops trailing empty strings, as Java's `split` does with limit 0. */
  function DropTrailingEmpty(parts: seq<Str>): (r: seq<Str>)
    ensures |r| <= |parts| && r == parts[..|r|]
    ensures r == [] || r[|r| - 1] != []
    ensures forall k | |r| <= k < |parts| :: parts[k] == []
    decreases |parts|
  {
    if parts != [] && parts[|parts| - 1] == [] then DropTrailingEmpty(parts[..|parts| - 1]) else parts
  }

  /** The line terminator (Java's `\R`, approximated by '\n'). */
  const NL: char := '\n'

  /** `s.split("\\R", -1)`: every line, trailing empty lines kept. */
  function Lines(s: Str): seq<Str> {
    SplitAll(s, NL)
  }

  /** `s.split("\\R")`: a text without line breaks is its only line;
      otherwise trailing empty lines are dropped. */
  function LinesNoTrailing(s: Str): (r: seq<Str>)
    ensures NL !in s ==> r == [s]
    ensures NL in s ==> r == DropTrailingEmpty(Lines(s))
  {
    if NL !in s then [s] else DropTrailingEmpty(Lines(s))
  }

  // ---------------------------------------------------- line terminators

  /** The line terminators the regex `.` does not match. */
  predicate IsLineTerminator(c: char) {
    c == '\n' || c == '\r' || c == '\U{0085}' || c == '\U{2028}' || c == '\U{2029}'
  }

  /** The first index at or after `i` that holds a line terminator, or
      `|s|`: how far a `.` run that starts at `i` can reach. */
  function LineEnd(s: Str, i: nat): (r: nat)
    requires i <= |s|
    ensures i <= r <= |s|
    ensures forall k | i <= k < r :: !IsLineTerminator(s[k])
    ensures r < |s| ==> IsLineTerminator(s[r])
    decreases |s| - i
  {
    if i == |s| || IsLineTerminator(s[i]) then i else LineEnd(s, i + 1)
  }

  // -------------------------------------------------- String.replace

  /** `String.replace(t, r)`: left to right, non-overlapping. */
  function Replace(s: Str, t: Str, r: Str): Str
    requires |t| > 0
    decreases |s|
  {
    if |s| < |t| then s
    else if s[..|t|] == t then r + Replace(s[|t|..], t, r)
    else [s[0]] + Replace(s[1..], t, r)
  }

  // -------------------------------------------------- integers as text

  const INT_MIN: int := -0x8000_0000
  const INT_MAX: int := 0x7FFF_FFFF

  /** A value representable as a Java `int`. */
  predicate InInt32(i: int) { INT_MIN <= i <= INT_MAX }

  predicate IsDigit(c: char) { '0' <= c <= '9' }

  predicate AllDigits(s: Str) { forall k | 0 <= k < |s| :: IsDigit(s[k]) }

  function DigitChar(d: nat): (c: char)
    requires d < 10
    ensures IsDigit(c)
  {
    ('0' as int + d) as char
  }

  /** Decimal digits of a natural number, most significant first. */
  function NatToString(n: nat): (r: Str)
    ensures |r| >= 1 && AllDigits(r)
    decreases n
  {
    if n < 10 then [DigitChar(n)] else NatToString(n / 10) + [DigitChar(n % 10)]
  }

  /** `Integer.toString(i)`. */
  function IntToString(i: int): (r: Str)
    ensures |r| >= 1
  {
    if i < 0 then "-" + NatToString(-i) else NatToString(i)
  }

  /** The value of a string of decimal digits. */
  function DigitsValue(s: Str): nat
    requires AllDigits(s)
    decreases |s|
  {
    if s == [] then 0 else DigitsValue(s[..|s| - 1]) * 10 + (s[|s| - 1] as int - '0' as int)
  }

  lemma {:induction false} DigitsValueOfNat(n: nat)
    ensures DigitsValue(NatToString(n)) == n
    decreases n
  {
    var s := NatToString(n);
    if n >= 10 {
      DigitsValueOfNat(n / 10);
      assert s[..|s| - 1] == NatToString(n / 10);
    }
  }

  /** `Integer.parseInt(s)`: an optional sign and at least one ASCII digit,
      with a value in the `int` range; `None` where Java throws
      NumberFormatException. */
  function ParseInt(s: Str): (r: Option<int>)
    ensures r.Some? ==> InInt32(r.value)
  {
    if s == [] then None
    else
      var digits := if s[0] == '-' || s[0] == '+' then s[1..] else s;
      if digits == [] || !AllDigits(digits) then None
      else
        var n: int := DigitsValue(digits);
        var v := if s[0] == '-' then -n else n;
        if InInt32(v) then Some(v) else None
  }

  /** `Integer.parseInt` reads back what `Integer.toString` wrote. */
  lemma ParseIntToString(i: int)
    requires InInt32(i)
    ensures ParseInt(IntToString(i)) == Some(i)
  {
    var s := IntToString(i);
    if i < 0 {
      var d := NatToString(-i);
      DigitsValueOfNat(-i);
      assert s[0] == '-' && s[1..] == d;
    } else {
      var d := NatToString(i);
      DigitsValueOfNat(i);
      assert IsDigit(d[0]);
      assert s[0] != '-' && s[0] != '+';
    }
  }

  /** Text that is not an optionally signed run of digits does not parse. */
  lemma ParseIntRejectsEmptyDigits(s: Str)
    requires s == [] || s == "-" || s == "+"
    ensures ParseInt(s) == None
  {
  }
}
