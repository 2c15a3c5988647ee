/**
 * The handful of Python `str` operations the pipeline's parsers rely on:
 * `in`, `startswith`, `split(sep)`, `replace(old, new)`, `strip()`,
 * `lower()`, `sep.join(...)`, `str(int)` and `int(str)`, each written out
 * with the edge cases of CPython's definition.
 */
module Strings {
  import opened Wrappers

  // ---------------------------------------------------------------------
  // Occurrences of a pattern

  /** `p` occurs in `s` starting at offset `i`. */
  ghost predicate OccursAt(s: string, p: string, i: int) {
    0 <= i && i + |p| <= |s| && s[i..i + |p|] == p
  }

  /** `p` occurs somewhere in `s` (reference definition of `p in s`). */
  ghost predicate Occurs(s: string, p: string) {
    exists i :: OccursAt(s, p, i)
  }

  /** Python's `s.startswith(p)`. */
  predicate StartsWith(s: string, p: string) {
    |p| <= |s| && s[..|p|] == p
  }

  /** Python's `p in s` for strings, scanning offsets left to right. */
  predicate Contains(s: string, p: string)
    decreases |s|
  {
    StartsWith(s, p) || (|s| > 0 && Contains(s[1..], p))
  }

  /** The scan finds only real occurrences. */
  lemma {:induction false} ContainsOccurs(s: string, p: string)
    requires Contains(s, p)
    ensures Occurs(s, p)
    decreases |s|
  {
    if StartsWith(s, p) {
      assert OccursAt(s, p, 0);
    } else {
      ContainsOccurs(s[1..], p);
      var i :| OccursAt(s[1..], p, i);
      assert s[i + 1..i + 1 + |p|] == s[1..][i..i + |p|];
      assert OccursAt(s, p, i + 1);
    }
  }

  /** The scan finds every occurrence. */
  lemma {:induction false} OccursContains(s: string, p: string, i: int)
    requires OccursAt(s, p, i)
    ensures Contains(s, p)
    decreases i
  {
    if i > 0 {
      assert s[1..][i - 1..i - 1 + |p|] == s[i..i + |p|];
      OccursContains(s[1..], p, i - 1);
    } else {
      assert s[..|p|] == p;
    }
  }

  /** Python's `p in s` agrees with the reference definition of an occurrence. */
  lemma ContainsIffOccurs(s: string, p: string)
    ensures Contains(s, p) <==> Occurs(s, p)
  {
    if Contains(s, p) {
      ContainsOccurs(s, p);
    }
    if Occurs(s, p) {
      var i :| OccursAt(s, p, i);
      OccursContains(s, p, i);
    }
  }

  /** Offset of the leftmost occurrence of a non-empty `p` in `s` (Python's `s.find(p)`). */
  function FindFirst(s: string, p: string): (r: Option<nat>)
    requires |p| > 0
    ensures r.Some? ==> OccursAt(s, p, r.value)
    ensures r.Some? ==> forall i :: 0 <= i < r.value ==> !OccursAt(s, p, i)
    ensures r.None? <==> !Occurs(s, p)
    decreases |s|
  {
    if |s| < |p| then None
    else if s[..|p|] == p then Some(0)
    else
      var rest := FindFirst(s[1..], p);
      ShiftOccurrences(s, p);
      match rest
      case None => None
      case Some(i) => Some(i + 1)
  }

  /** Occurrences in `s` at offsets > 0 are the occurrences in `s[1..]`, shifted by one. */
  lemma ShiftOccurrences(s: string, p: string)
    requires |s| > 0
    ensures forall i :: 1 <= i ==> (OccursAt(s, p, i) <==> OccursAt(s[1..], p, i - 1))
  {
    forall i | 1 <= i
      ensures OccursAt(s, p, i) <==> OccursAt(s[1..], p, i - 1)
    {
      if i + |p| <= |s| {
        assert s[1..][i - 1..i - 1 + |p|] == s[i..i + |p|];
      }
    }
  }

  /** FindFirst is pinned down by its contract: the first offset where `p` occurs. */
  lemma FindFirstIs(s: string, p: string, k: nat)
    requires |p| > 0 && OccursAt(s, p, k)
    requires forall i :: 0 <= i < k ==> !OccursAt(s, p, i)
    ensures FindFirst(s, p) == Some(k)
  {
    var r := FindFirst(s, p);
    assert Occurs(s, p);
    assert r.Some?;
  }

  /** A pattern cannot occur in a text that lacks one of its characters. */
  lemma AbsentChar(s: string, p: string, k: nat)
    requires k < |p| && p[k] !in s
    ensures !Occurs(s, p)
  {
    forall i | 0 <= i
      ensures !OccursAt(s, p, i)
    {
      if i + |p| <= |s| {
        assert s[i..i + |p|][k] == s[i + k];
      }
    }
  }

  // ---------------------------------------------------------------------
  // split, join and replace

  /** Python's `s.split(sep)` for a non-empty separator: cut at each leftmost, non-overlapping occurrence. */
  function Split(s: string, sep: string): (parts: seq<string>)
    requires |sep| > 0
    ensures |parts| >= 1
    decreases |s|
  {
    match FindFirst(s, sep)
    case None => [s]
    case Some(i) => [s[..i]] + Split(s[i + |sep|..], sep)
  }

  /**
   * Splitting `a + sep + b` cuts right after `a` when the character `sep[k]`
   * appears neither in `a` nor earlier in `sep`: no occurrence can start inside `a`.
   */
  lemma SplitConcat(a: string, sep: string, b: string, k: nat)
    requires 0 < k < |sep| && sep[k] !in a && sep[k] !in sep[..k]
    ensures Split(a + sep + b, sep) == [a] + Split(b, sep)
  {
    var s := a + sep + b;
    assert s[|a|..|a| + |sep|] == sep;
    forall i | 0 <= i < |a|
      ensures !OccursAt(s, sep, i)
    {
      assert s[i..i + |sep|][k] == s[i + k];
      if i + k < |a| {
        assert s[i + k] == a[i + k];
      } else {
        assert s[i + k] == sep[i + k - |a|];
        assert sep[..k][i + k - |a|] == sep[i + k - |a|];
      }
    }
    FindFirstIs(s, sep, |a|);
    SplitAt(s, sep, |a|);
    assert s[..|a|] == a;
    assert s[|a| + |sep|..] == b;
  }

  /** The same cut for a one-character separator that does not occur in `a`. */
  lemma SplitCharConcat(a: string, c: char, b: string)
    requires c !in a
    ensures Split(a + [c] + b, [c]) == [a] + Split(b, [c])
  {
    var s := a + [c] + b;
    assert s[|a|..|a| + 1] == [c];
    forall i | 0 <= i < |a|
      ensures !OccursAt(s, [c], i)
    {
      assert s[i..i + 1][0] == s[i] == a[i];
    }
    FindFirstIs(s, [c], |a|);
    SplitAt(s, [c], |a|);
    assert s[..|a|] == a;
    assert s[|a| + 1..] == b;
  }

  /** Python's `sep.join(xs)`. */
  function Join(xs: seq<string>, sep: string): string
    decreases |xs|
  {
    if |xs| == 0 then ""
    else if |xs| == 1 then xs[0]
    else xs[0] + sep + Join(xs[1..], sep)
  }

  /** Joining one more element appends the separator and the element (Join agrees with a left fold). */
  lemma {:induction false} JoinSnoc(xs: seq<string>, x: string, sep: string)
    requires |xs| > 0
    ensures Join(xs + [x], sep) == Join(xs, sep) + sep + x
    decreases |xs|
  {
    if |xs| == 1 {
      assert (xs + [x])[1..] == [x];
    } else {
      assert (xs + [x])[1..] == xs[1..] + [x];
      JoinSnoc(xs[1..], x, sep);
    }
  }

  lemma JoinCons(x: string, xs: seq<string>, sep: string)
    requires |xs| > 0
    ensures Join([x] + xs, sep) == x + sep + Join(xs, sep)
  {
    assert ([x] + xs)[1..] == xs;
  }

  /** Splitting and re-joining on the same separator gives the original text back. */
  lemma {:induction false} JoinSplit(s: string, sep: string)
    requires |sep| > 0
    ensures Join(Split(s, sep), sep) == s
    decreases |s|
  {
    var f := FindFirst(s, sep);
    if f.Some? {
      var i := f.value;
      var rest := s[i + |sep|..];
      JoinSplit(rest, sep);
      SplitAt(s, sep, i);
      JoinCons(s[..i], Split(rest, sep), sep);
    }
  }

  /** Where the `k`-th piece starts in `sep.join(xs)`: after every earlier piece and its separator. */
  function JoinOffset(xs: seq<string>, sep: string, k: nat): (offset: nat)
    requires k <= |xs|
    ensures k > 0 ==> offset >= |xs[0]| + |sep|
    decreases k
  {
    if k == 0 then 0 else |xs[0]| + |sep| + JoinOffset(xs[1..], sep, k - 1)
  }

  /**
   * Every piece appears unchanged in the joined text at its offset, followed
   * by the separator and then the next piece, except the last piece, which
   * ends the text.
   */
  lemma JoinPlaces(xs: seq<string>, sep: string, k: nat)
    requires k < |xs|
    ensures var o := JoinOffset(xs, sep, k); var e := o + |xs[k]|; var j := Join(xs, sep);
      e <= |j| && j[o..e] == xs[k]
      && (k + 1 < |xs| ==> e + |sep| <= |j| && j[e..e + |sep|] == sep)
      && (k + 1 == |xs| ==> e == |j|)
      && (k + 1 < |xs| ==> JoinOffset(xs, sep, k + 1) == e + |sep|)
  {
    JoinSuffix(xs, sep, k);
    var o := JoinOffset(xs, sep, k);
    var j := Join(xs, sep);
    var t := Join(xs[k..], sep);
    assert j[o..] == t;
    assert xs[k..][0] == xs[k];
    if k + 1 < |xs| {
      assert t == xs[k] + sep + Join(xs[k..][1..], sep);
      assert t[..|xs[k]|] == xs[k];
      assert t[|xs[k]|..|xs[k]| + |sep|] == sep;
      JoinOffsetNext(xs, sep, k);
    } else {
      assert xs[k..] == [xs[k]];
    }
  }

  /** The joined text from the `k`-th piece's offset on is the join of the pieces from `k` on. */
  lemma {:induction false} JoinSuffix(xs: seq<string>, sep: string, k: nat)
    requires k < |xs|
    ensures JoinOffset(xs, sep, k) <= |Join(xs, sep)|
    ensures Join(xs, sep)[JoinOffset(xs, sep, k)..] == Join(xs[k..], sep)
    decreases k
  {
    if k > 0 {
      var front := xs[0] + sep;
      var rest := Join(xs[1..], sep);
      assert Join(xs, sep) == front + rest;
      JoinSuffix(xs[1..], sep, k - 1);
      assert xs[1..][k - 1..] == xs[k..];
      var o' := JoinOffset(xs[1..], sep, k - 1);
      assert (front + rest)[|front| + o'..] == rest[o'..];
    }
  }

  /** Consecutive offsets are one piece and one separator apart. */
  lemma {:induction false} JoinOffsetNext(xs: seq<string>, sep: string, k: nat)
    requires k + 1 < |xs|
    ensures JoinOffset(xs, sep, k + 1) == JoinOffset(xs, sep, k) + |xs[k]| + |sep|
    decreases k
  {
    if k > 0 {
      JoinOffsetNext(xs[1..], sep, k - 1);
    }
  }

  /** A slice of the second part of a concatenation, read from the whole. */
  lemma SliceOfConcat(p: string, t: string, a: nat, b: nat)
    requires a <= b <= |t|
    ensures (p + t)[|p| + a..|p| + b] == t[a..b]
  {
  }

  /** Joining pieces free of a one-character separator and splitting again gives the pieces back. */
  lemma {:induction false} SplitJoinChar(xs: seq<string>, c: char)
    requires |xs| > 0
    requires forall k :: 0 <= k < |xs| ==> c !in xs[k]
    ensures Split(Join(xs, [c]), [c]) == xs
    decreases |xs|
  {
    if |xs| == 1 {
      AbsentChar(xs[0], [c], 0);
      SplitNoSeparator(xs[0], [c]);
    } else {
      SplitCharConcat(xs[0], c, Join(xs[1..], [c]));
      SplitJoinChar(xs[1..], c);
      assert xs == [xs[0]] + xs[1..];
    }
  }

  /** One step of Split: the text before the leftmost separator, then the split of what follows it. */
  lemma SplitAt(s: string, sep: string, i: nat)
    requires |sep| > 0 && FindFirst(s, sep) == Some(i)
    ensures i + |sep| <= |s| && s == s[..i] + sep + s[i + |sep|..]
    ensures Split(s, sep) == [s[..i]] + Split(s[i + |sep|..], sep)
  {
    assert s[i..i + |sep|] == sep;
    SliceThree(s, i, i + |sep|);
  }

  /** A text is its three slices at two cut points. */
  lemma SliceThree(s: string, i: nat, j: nat)
    requires i <= j <= |s|
    ensures s == s[..i] + s[i..j] + s[j..]
  {
    assert s[..j] == s[..i] + s[i..j];
  }

  /** No piece produced by Split contains the separator. */
  lemma {:induction false} SplitPartsFree(s: string, sep: string)
    requires |sep| > 0
    ensures forall k :: 0 <= k < |Split(s, sep)| ==> !Occurs(Split(s, sep)[k], sep)
    decreases |s|
  {
    match FindFirst(s, sep)
    case None =>
    case Some(i) =>
      var rest := s[i + |sep|..];
      SplitPartsFree(rest, sep);
      var head := s[..i];
      if Occurs(head, sep) {
        var j :| OccursAt(head, sep, j);
        assert s[j..j + |sep|] == head[j..j + |sep|];
        assert OccursAt(s, sep, j);
        assert false;
      }
      assert Split(s, sep) == [head] + Split(rest, sep);
  }

  /** A text without the separator splits into itself. */
  lemma SplitNoSeparator(s: string, sep: string)
    requires |sep| > 0
    requires !Occurs(s, sep)
    ensures Split(s, sep) == [s]
  {
  }

  /** Python's `s.replace(old, new)`: every leftmost, non-overlapping occurrence of `old` becomes `new`. */
  function Replace(s: string, target: string, repl: string): (r: string)
    requires |target| > 0
    ensures !Occurs(s, target) ==> r == s
    decreases |s|
  {
    match FindFirst(s, target)
    case None => s
    case Some(i) => s[..i] + repl + Replace(s[i + |target|..], target, repl)
  }

  /** Python documents `s.replace(old, new)` as `new.join(s.split(old))`; the two definitions agree. */
  lemma {:induction false} ReplaceIsJoinOfSplit(s: string, target: string, repl: string)
    requires |target| > 0
    ensures Replace(s, target, repl) == Join(Split(s, target), repl)
    decreases |s|
  {
    match FindFirst(s, target)
    case None =>
    case Some(i) =>
      var rest := s[i + |target|..];
      ReplaceIsJoinOfSplit(rest, target, repl);
      var parts := Split(rest, target);
      assert Split(s, target) == [s[..i]] + parts;
      JoinCons(s[..i], parts, repl);
  }

  /** Deleting `old` from a text that starts with it drops that leading copy first. */
  lemma ReplaceLeading(target: string, s: string)
    requires |target| > 0
    ensures Replace(target + s, target, "") == Replace(s, target, "")
  {
    var t := target + s;
    assert t[..|target|] == target;
    assert FindFirst(t, target) == Some(0);
    assert t[|target|..] == s;
  }

  // ---------------------------------------------------------------------
  // strip and lower

  /** Python's `str.isspace()` for one character: the full set of Unicode whitespace code points. */
  predicate IsSpace(c: char) {
    c == ' ' || ('\t' <= c <= '\r') || ('\U{1C}' <= c <= '\U{1F}') || c == '\U{85}' || c == '\U{A0}'
    || c == '\U{1680}' || ('\U{2000}' <= c <= '\U{200A}') || c == '\U{2028}' || c == '\U{2029}'
    || c == '\U{202F}' || c == '\U{205F}' || c == '\U{3000}'
  }

  /** Every character of `s` is whitespace. */
  ghost predicate AllSpace(s: string) {
    forall k :: 0 <= k < |s| ==> IsSpace(s[k])
  }

  /** Python's `s.lstrip()`. */
  function LStrip(s: string): (r: string)
    ensures |r| <= |s|
    decreases |s|
  {
    if |s| > 0 && IsSpace(s[0]) then LStrip(s[1..]) else s
  }

  /** `lstrip` removes a run of whitespace from the front and nothing else. */
  lemma {:induction false} LStripSpec(s: string)
    ensures LStrip(s) == s[|s| - |LStrip(s)|..]
    ensures AllSpace(s[..|s| - |LStrip(s)|])
    ensures LStrip(s) == [] || !IsSpace(LStrip(s)[0])
    decreases |s|
  {
    if |s| > 0 && IsSpace(s[0]) {
      LStripSpec(s[1..]);
      var n := |s| - |LStrip(s)|;
      assert s[1..][..n - 1] == s[1..n];
      assert s[1..][n - 1..] == s[n..];
    }
  }

  /** Python's `s.rstrip()`. */
  function RStrip(s: string): (r: string)
    ensures |r| <= |s|
    decreases |s|
  {
    if |s| > 0 && IsSpace(s[|s| - 1]) then RStrip(s[..|s| - 1]) else s
  }

  /** `rstrip` removes a run of whitespace from the end and nothing else. */
  lemma {:induction false} RStripSpec(s: string)
    ensures RStrip(s) == s[..|RStrip(s)|]
    ensures AllSpace(s[|RStrip(s)|..])
    ensures RStrip(s) == [] || !IsSpace(RStrip(s)[|RStrip(s)| - 1])
    decreases |s|
  {
    if |s| > 0 && IsSpace(s[|s| - 1]) {
      RStripSpec(s[..|s| - 1]);
      var n := |RStrip(s)|;
      assert s[..|s| - 1][..n] == s[..n];
      assert s[..|s| - 1][n..] == s[n..|s| - 1];
      assert s[n..] == s[n..|s| - 1] + [s[|s| - 1]];
    }
  }

  /** Python's `s.strip()`. */
  function Strip(s: string): (r: string)
    ensures |r| <= |s|
  {
    RStrip(LStrip(s))
  }

  /** `strip` yields the longest middle slice of `s` that neither starts nor ends with whitespace. */
  lemma StripSpec(s: string)
    ensures var r := Strip(s);
      exists i :: (0 <= i <= |s| - |r| && r == s[i..i + |r|] && AllSpace(s[..i]) && AllSpace(s[i + |r|..]))
    ensures Strip(s) == [] || (!IsSpace(Strip(s)[0]) && !IsSpace(Strip(s)[|Strip(s)| - 1]))
  {
    var l := LStrip(s);
    LStripSpec(s);
    RStripSpec(l);
    var i := |s| - |l|;
    var r := Strip(s);
    assert r == s[i..i + |r|];
    assert AllSpace(s[i + |r|..]) by {
      assert s[i + |r|..] == l[|r|..];
    }
    if r != [] {
      assert r[0] == l[0];
    }
  }

  /** A text that begins with a non-space character is only trimmed at its end. */
  lemma StripKeepsStart(s: string)
    requires |s| > 0 && !IsSpace(s[0])
    ensures Strip(s) == s[..|Strip(s)|]
    ensures AllSpace(s[|Strip(s)|..])
  {
    assert LStrip(s) == s;
    RStripSpec(s);
  }

  /** A text without whitespace at either end is left as it is by Strip. */
  lemma StripTrimmed(s: string)
    requires s == [] || (!IsSpace(s[0]) && !IsSpace(s[|s| - 1]))
    ensures Strip(s) == s
  {
  }

  /** Python's `s.lower()` on ASCII letters; every other character is kept. */
  function Lower(s: string): (r: string)
    ensures |r| == |s|
    ensures forall k :: 0 <= k < |s| && !('A' <= s[k] <= 'Z') ==> r[k] == s[k]
  {
    seq(|s|, k requires 0 <= k < |s| => LowerChar(s[k]))
  }

  function LowerChar(c: char): char {
    if 'A' <= c <= 'Z' then (c as int - 'A' as int + 'a' as int) as char else c
  }

  /** `s.lower() == "true"` holds exactly for the sixteen spellings of "true" in any mix of cases. */
  lemma LowerIsTrue(s: string)
    ensures Lower(s) == "true" <==>
      |s| == 4 && s[0] in "tT" && s[1] in "rR" && s[2] in "uU" && s[3] in "eE"
  {
    if |s| == 4 {
      assert Lower(s) == [LowerChar(s[0]), LowerChar(s[1]), LowerChar(s[2]), LowerChar(s[3])];
    }
  }

  // ---------------------------------------------------------------------
  // Integers as text

  predicate IsDigit(c: char) {
    '0' <= c <= '9'
  }

  function DigitChar(d: nat): (c: char)
    requires d < 10
    ensures IsDigit(c) && c as int - '0' as int == d
  {
    ('0' as int + d) as char
  }

  /** Python's `str(n)` for a natural number. */
  function NatToString(n: nat): (s: string)
    ensures |s| > 0 && IsDigit(s[0]) && IsDigit(s[|s| - 1])
    decreases n
  {
    if n < 10 then [DigitChar(n)] else NatToString(n / 10) + [DigitChar(n % 10)]
  }

  /** Python's `str(i)` for an integer. */
  function IntToString(i: int): string {
    if i < 0 then "-" + NatToString(-i) else NatToString(i)
  }

  /**
   * The digits part of Python's `int(text)` in base 10: ASCII digits, where a
   * single underscore may separate two digits; `None` where `int` raises.
   */
  function ParseDigits(t: string): Option<nat>
    decreases |t|
  {
    if |t| == 0 || !IsDigit(t[|t| - 1]) then None
    else
      var d := t[|t| - 1] as int - '0' as int;
      if |t| == 1 then Some(d)
      else
        var init := t[..|t| - 1];
        var init' := if init[|init| - 1] == '_' then init[..|init| - 1] else init;
        match ParseDigits(init')
        case None => None
        case Some(v) => Some(10 * v + d)
  }

  /** Python's `int(text)`: surrounding whitespace, an optional sign, then digits. `None` where `int` raises ValueError. */
  function ParseInt(text: string): Option<int> {
    ParseSigned(Strip(text))
  }

  /** An optional sign followed by digits. */
  function ParseSigned(t: string): Option<int> {
    if |t| > 0 && t[0] == '-' then
      match ParseDigits(t[1..])
      case None => None
      case Some(v) => Some(-(v as int))
    else if |t| > 0 && t[0] == '+' then
      match ParseDigits(t[1..])
      case None => None
      case Some(v) => Some(v)
    else
      match ParseDigits(t)
      case None => None
      case Some(v) => Some(v)
  }

  lemma {:induction false} ParseDigitsOfNat(n: nat)
    ensures ParseDigits(NatToString(n)) == Some(n)
    decreases n
  {
    if n >= 10 {
      var s := NatToString(n);
      ParseDigitsOfNat(n / 10);
      assert s[..|s| - 1] == NatToString(n / 10);
    }
  }

  /** `int(str(i)) == i`: parsing the decimal rendering of any integer gives it back. */
  lemma ParseIntOfString(i: int)
    ensures ParseInt(IntToString(i)) == Some(i)
  {
    if i < 0 {
      ParseDigitsOfNat(-i);
      ParseNegative(NatToString(-i), -i);
    } else {
      ParseDigitsOfNat(i);
      ParseUnsigned(NatToString(i), i);
    }
  }

  /** A digit string with a minus sign in front parses to the negated number. */
  lemma ParseNegative(n: string, v: nat)
    requires |n| > 0 && IsDigit(n[|n| - 1]) && ParseDigits(n) == Some(v)
    ensures ParseInt("-" + n) == Some(-(v as int))
  {
    var s := "-" + n;
    assert s[0] == '-' && s[|s| - 1] == n[|n| - 1];
    assert s[1..] == n;
    assert ParseSigned(s) == Some(-(v as int));
    StripTrimmed(s);
  }

  /** A digit string without a sign parses to its number. */
  lemma ParseUnsigned(n: string, v: nat)
    requires |n| > 0 && IsDigit(n[0]) && IsDigit(n[|n| - 1]) && ParseDigits(n) == Some(v)
    ensures ParseInt(n) == Some(v)
  {
    assert ParseSigned(n) == Some(v);
    StripTrimmed(n);
  }
}
