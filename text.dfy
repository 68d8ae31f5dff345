/** The Python string operations the modelled code relies on, over ASCII:
    str.lower, the regex tokens \b\w+\b, str.split() with no argument,
    the `in` substring test, str.strip, the last piece of str.split(sep),
    str.join and the decimal rendering of an int in an f-string. */
module Text {
  import opened Results

  predicate IsAsciiUpper(c: char) { 'A' <= c <= 'Z' }

  function LowerChar(c: char): (d: char)
    ensures !IsAsciiUpper(d)
    ensures !IsAsciiUpper(c) ==> d == c
  {
    if IsAsciiUpper(c) then (c as int + 32) as char else c
  }

  /** str.lower() on ASCII letters; every other character is kept. */
  function Lower(s: string): (r: string)
    ensures |r| == |s|
    ensures forall i :: 0 <= i < |r| ==> !IsAsciiUpper(r[i])
  {
    seq(|s|, i requires 0 <= i < |s| => LowerChar(s[i]))
  }

  /** The characters the regex class \w matches, restricted to ASCII. */
  predicate IsWordChar(c: char) {
    'a' <= c <= 'z' || 'A' <= c <= 'Z' || '0' <= c <= '9' || c == '_'
  }

  /** The ASCII characters str.split() and str.strip() treat as whitespace. */
  predicate IsSpace(c: char) {
    c as int == 32 || 9 <= c as int <= 13 || 28 <= c as int <= 31
  }

  predicate IsNonSpace(c: char) { !IsSpace(c) }

  /** Length of the longest prefix of s made of characters satisfying p. */
  function RunLength(s: string, p: char -> bool): (n: nat)
    ensures n <= |s|
    ensures forall i :: 0 <= i < n ==> p(s[i])
    ensures n < |s| ==> !p(s[n])
  {
    if s == [] || !p(s[0]) then 0 else 1 + RunLength(s[1..], p)
  }

  predicate AllSatisfy(w: string, p: char -> bool) {
    forall i :: 0 <= i < |w| ==> p(w[i])
  }

  /** The maximal runs of characters satisfying p, left to right. */
  function Runs(s: string, p: char -> bool): (r: seq<string>)
    ensures forall k :: 0 <= k < |r| ==> |r[k]| > 0 && AllSatisfy(r[k], p)
    decreases |s|
  {
    if s == [] then []
    else if !p(s[0]) then Runs(s[1..], p)
    else
      var n := RunLength(s, p);
      [s[..n]] + Runs(s[n..], p)
  }

  /** Run k of r sits in s at starts[k]. */
  ghost predicate Placed(s: string, r: seq<string>, starts: seq<nat>) {
    && |starts| == |r|
    && forall k :: 0 <= k < |r| ==>
         starts[k] + |r[k]| <= |s| && forall j :: 0 <= j < |r[k]| ==> s[starts[k] + j] == r[k][j]
  }

  /** No run could be longer: the characters just before and just after it
      are outside the class. */
  ghost predicate MaximalRuns(s: string, p: char -> bool, r: seq<string>, starts: seq<nat>)
    requires Placed(s, r, starts)
  {
    forall k :: 0 <= k < |r| ==>
      && (starts[k] == 0 || !p(s[starts[k] - 1]))
      && (starts[k] + |r[k]| == |s| || !p(s[starts[k] + |r[k]|]))
  }

  /** The runs appear left to right, with a gap between neighbours. */
  ghost predicate InOrder(r: seq<string>, starts: seq<nat>)
    requires |starts| == |r|
  {
    forall k :: 0 <= k < |r| - 1 ==> starts[k] + |r[k]| < starts[k + 1]
  }

  /** Every character of the class lies inside some run. */
  ghost predicate Covers(s: string, p: char -> bool, r: seq<string>, starts: seq<nat>)
    requires |starts| == |r|
  {
    forall j :: 0 <= j < |s| && p(s[j]) ==> exists k :: 0 <= k < |r| && starts[k] <= j < starts[k] + |r[k]|
  }

  /** The runs are exactly the maximal runs of the class: each one is placed
      in s with a character outside the class (or an end of s) on both sides,
      they appear in order, and every character of the class falls in one. */
  lemma {:induction false} RunsAreMaximal(s: string, p: char -> bool) returns (starts: seq<nat>)
    ensures Placed(s, Runs(s, p), starts)
    ensures MaximalRuns(s, p, Runs(s, p), starts)
    ensures InOrder(Runs(s, p), starts)
    ensures Covers(s, p, Runs(s, p), starts)
    decreases |s|
  {
    var r := Runs(s, p);
    if s == [] {
      return [];
    }
    var d := if p(s[0]) then RunLength(s, p) else 1;
    var tail := s[d..];
    var sub := RunsAreMaximal(tail, p);
    var rt := Runs(tail, p);
    var shifted := seq(|sub|, k requires 0 <= k < |sub| => sub[k] + d);
    if !p(s[0]) {
      assert r == rt;
      starts := shifted;
    } else {
      assert r == [s[..d]] + rt;
      starts := [0] + shifted;
    }
    ShiftRuns(s, p, d, rt, sub, shifted);
    if p(s[0]) {
      FirstRun(s, p, d, rt, shifted, starts);
    }
  }

  /** Runs of s[d..] found at `sub` are runs of s at the shifted positions. */
  lemma ShiftRuns(s: string, p: char -> bool, d: nat, rt: seq<string>, sub: seq<nat>, shifted: seq<nat>)
    requires 0 < d <= |s|
    requires p(s[0]) ==> (forall j :: 0 <= j < d ==> p(s[j])) && (d < |s| ==> !p(s[d]))
    requires !p(s[0]) ==> d == 1
    requires Placed(s[d..], rt, sub) && MaximalRuns(s[d..], p, rt, sub) && InOrder(rt, sub) && Covers(s[d..], p, rt, sub)
    requires forall k :: 0 <= k < |rt| ==> |rt[k]| > 0 && AllSatisfy(rt[k], p)
    requires |shifted| == |sub| && forall k :: 0 <= k < |sub| ==> shifted[k] == sub[k] + d
    ensures Placed(s, rt, shifted) && MaximalRuns(s, p, rt, shifted) && InOrder(rt, shifted)
    ensures forall j :: d <= j < |s| && p(s[j]) ==> exists k :: 0 <= k < |rt| && shifted[k] <= j < shifted[k] + |rt[k]|
    ensures p(s[0]) ==> forall k :: 0 <= k < |rt| ==> shifted[k] > d
  {
    ShiftPlaced(s, d, rt, sub, shifted);
    if p(s[0]) {
      ShiftAfterBoundary(s, p, d, rt, sub);
    }
    ShiftMaximal(s, p, d, rt, sub, shifted);
    ShiftCovers(s, p, d, rt, sub, shifted);
  }

  lemma ShiftPlaced(s: string, d: nat, rt: seq<string>, sub: seq<nat>, shifted: seq<nat>)
    requires d <= |s| && Placed(s[d..], rt, sub)
    requires |shifted| == |sub| && forall k :: 0 <= k < |sub| ==> shifted[k] == sub[k] + d
    ensures Placed(s, rt, shifted)
  {
    var t := s[d..];
    forall k | 0 <= k < |rt|
      ensures shifted[k] + |rt[k]| <= |s| && forall j :: 0 <= j < |rt[k]| ==> s[shifted[k] + j] == rt[k][j]
    {
      forall j | 0 <= j < |rt[k]| ensures s[shifted[k] + j] == rt[k][j] {
        assert t[sub[k] + j] == rt[k][j];
      }
    }
  }

  /** A run of s[d..] cannot start at its very beginning when s[d] is outside
      the class. */
  lemma ShiftAfterBoundary(s: string, p: char -> bool, d: nat, rt: seq<string>, sub: seq<nat>)
    requires 0 < d <= |s| && (d < |s| ==> !p(s[d]))
    requires Placed(s[d..], rt, sub)
    requires forall k :: 0 <= k < |rt| ==> |rt[k]| > 0 && AllSatisfy(rt[k], p)
    ensures forall k :: 0 <= k < |rt| ==> sub[k] > 0
  {
    var t := s[d..];
    forall k | 0 <= k < |rt|
      ensures sub[k] > 0
    {
      assert t[sub[k]] == rt[k][0] && p(rt[k][0]);
    }
  }

  lemma ShiftMaximal(s: string, p: char -> bool, d: nat, rt: seq<string>, sub: seq<nat>, shifted: seq<nat>)
    requires 0 < d <= |s|
    requires Placed(s[d..], rt, sub) && MaximalRuns(s[d..], p, rt, sub)
    requires p(s[0]) ==> forall k :: 0 <= k < |rt| ==> sub[k] > 0
    requires !p(s[0]) ==> d == 1
    requires |shifted| == |sub| && forall k :: 0 <= k < |sub| ==> shifted[k] == sub[k] + d
    requires Placed(s, rt, shifted)
    requires InOrder(rt, sub)
    ensures MaximalRuns(s, p, rt, shifted) && InOrder(rt, shifted)
  {
    var t := s[d..];
    forall k | 0 <= k < |rt|
      ensures shifted[k] == 0 || !p(s[shifted[k] - 1])
      ensures shifted[k] + |rt[k]| == |s| || !p(s[shifted[k] + |rt[k]|])
    {
      if sub[k] > 0 {
        assert t[sub[k] - 1] == s[shifted[k] - 1];
      }
      if shifted[k] + |rt[k]| < |s| {
        assert t[sub[k] + |rt[k]|] == s[shifted[k] + |rt[k]|];
      }
    }
  }

  lemma ShiftCovers(s: string, p: char -> bool, d: nat, rt: seq<string>, sub: seq<nat>, shifted: seq<nat>)
    requires d <= |s| && |sub| == |rt| && Covers(s[d..], p, rt, sub)
    requires |shifted| == |sub| && forall k :: 0 <= k < |sub| ==> shifted[k] == sub[k] + d
    ensures forall j :: d <= j < |s| && p(s[j]) ==> exists k :: 0 <= k < |rt| && shifted[k] <= j < shifted[k] + |rt[k]|
  {
    var t := s[d..];
    forall j | d <= j < |s| && p(s[j])
      ensures exists k :: 0 <= k < |rt| && shifted[k] <= j < shifted[k] + |rt[k]|
    {
      assert t[j - d] == s[j];
      var k :| 0 <= k < |rt| && sub[k] <= j - d < sub[k] + |rt[k]|;
    }
  }

  /** With the first run s[..d] in front, the shifted runs stay placed and
      maximal, keep their order and, with it, cover every character of the
      class. */
  lemma FirstRun(s: string, p: char -> bool, d: nat, rt: seq<string>, shifted: seq<nat>, starts: seq<nat>)
    requires 0 < d <= |s| && (forall j :: 0 <= j < d ==> p(s[j])) && (d < |s| ==> !p(s[d]))
    requires Placed(s, rt, shifted) && MaximalRuns(s, p, rt, shifted) && InOrder(rt, shifted)
    requires forall j :: d <= j < |s| && p(s[j]) ==> exists k :: 0 <= k < |rt| && shifted[k] <= j < shifted[k] + |rt[k]|
    requires forall k :: 0 <= k < |rt| ==> shifted[k] > d
    requires starts == [0] + shifted
    ensures Placed(s, [s[..d]] + rt, starts) && MaximalRuns(s, p, [s[..d]] + rt, starts)
    ensures InOrder([s[..d]] + rt, starts) && Covers(s, p, [s[..d]] + rt, starts)
  {
    FirstRunPlaced(s, d, rt, shifted, starts);
    FirstRunMaximal(s, p, d, rt, shifted, starts);
    FirstRunInOrder(s, d, rt, shifted, starts);
    FirstRunCovers(s, p, d, rt, shifted, starts);
  }

  lemma FirstRunPlaced(s: string, d: nat, rt: seq<string>, shifted: seq<nat>, starts: seq<nat>)
    requires 0 < d <= |s| && Placed(s, rt, shifted) && starts == [0] + shifted
    ensures Placed(s, [s[..d]] + rt, starts)
  {
    var r := [s[..d]] + rt;
    forall k | 0 <= k < |r|
      ensures starts[k] + |r[k]| <= |s| && forall j :: 0 <= j < |r[k]| ==> s[starts[k] + j] == r[k][j]
    {
      if k > 0 {
        assert r[k] == rt[k - 1] && starts[k] == shifted[k - 1];
      }
    }
  }

  lemma FirstRunMaximal(s: string, p: char -> bool, d: nat, rt: seq<string>, shifted: seq<nat>, starts: seq<nat>)
    requires 0 < d <= |s| && (d < |s| ==> !p(s[d]))
    requires Placed(s, rt, shifted) && MaximalRuns(s, p, rt, shifted) && starts == [0] + shifted
    requires Placed(s, [s[..d]] + rt, starts)
    ensures MaximalRuns(s, p, [s[..d]] + rt, starts)
  {
    var r := [s[..d]] + rt;
    forall k | 0 <= k < |r|
      ensures starts[k] == 0 || !p(s[starts[k] - 1])
      ensures starts[k] + |r[k]| == |s| || !p(s[starts[k] + |r[k]|])
    {
      if k > 0 {
        assert r[k] == rt[k - 1] && starts[k] == shifted[k - 1];
      }
    }
  }

  lemma FirstRunInOrder(s: string, d: nat, rt: seq<string>, shifted: seq<nat>, starts: seq<nat>)
    requires 0 < d <= |s| && |shifted| == |rt| && InOrder(rt, shifted) && starts == [0] + shifted
    requires forall k :: 0 <= k < |rt| ==> shifted[k] > d
    ensures InOrder([s[..d]] + rt, starts)
  {
    var r := [s[..d]] + rt;
    forall k | 0 <= k < |r| - 1
      ensures starts[k] + |r[k]| < starts[k + 1]
    {
      if k > 0 {
        assert r[k] == rt[k - 1] && starts[k] == shifted[k - 1] && starts[k + 1] == shifted[k];
      }
    }
  }

  lemma FirstRunCovers(s: string, p: char -> bool, d: nat, rt: seq<string>, shifted: seq<nat>, starts: seq<nat>)
    requires 0 < d <= |s| && |shifted| == |rt| && starts == [0] + shifted
    requires forall j :: d <= j < |s| && p(s[j]) ==> exists k :: 0 <= k < |rt| && shifted[k] <= j < shifted[k] + |rt[k]|
    ensures Covers(s, p, [s[..d]] + rt, starts)
  {
    var r := [s[..d]] + rt;
    forall j | 0 <= j < |s| && p(s[j])
      ensures exists k :: 0 <= k < |r| && starts[k] <= j < starts[k] + |r[k]|
    {
      if j < d {
        assert starts[0] <= j < starts[0] + |r[0]|;
      } else {
        var k :| 0 <= k < |rt| && shifted[k] <= j < shifted[k] + |rt[k]|;
        assert r[k + 1] == rt[k] && starts[k + 1] == shifted[k];
      }
    }
  }

  /** re.findall(r'\b\w+\b', s): the maximal runs of word characters. */
  function Tokens(s: string): seq<string> {
    Runs(s, IsWordChar)
  }

  /** s.split() with no argument: the maximal runs of non-whitespace. */
  function Fields(s: string): seq<string> {
    Runs(s, IsNonSpace)
  }

  /** Python's `p in s` on strings. */
  function Contains(s: string, p: string): bool
    decreases |s|
  {
    (|p| <= |s| && s[..|p|] == p) || (|s| > 0 && Contains(s[1..], p))
  }

  lemma {:induction false} ContainsSelf(s: string)
    ensures Contains(s, s)
  {
    assert s[..|s|] == s;
  }

  lemma {:induction false} ContainsInSuffix(s: string, k: nat, p: string)
    requires k <= |s|
    requires Contains(s[k..], p)
    ensures Contains(s, p)
    decreases k
  {
    if k > 0 {
      assert s[1..][k - 1..] == s[k..];
      ContainsInSuffix(s[1..], k - 1, p);
    }
  }

  /** Every run, and so every token of a text, occurs in that text. */
  lemma {:induction false} RunOccursIn(s: string, p: char -> bool, w: string)
    requires w in Runs(s, p)
    ensures Contains(s, w)
    decreases |s|
  {
    if s == [] {
    } else if !p(s[0]) {
      RunOccursIn(s[1..], p, w);
      ContainsInSuffix(s, 1, w);
    } else {
      var n := RunLength(s, p);
      if w == s[..n] {
      } else {
        RunOccursIn(s[n..], p, w);
        ContainsInSuffix(s, n, w);
      }
    }
  }

  lemma TokenOccursIn(s: string, w: string)
    requires w in Tokens(s)
    ensures Contains(s, w)
  {
    RunOccursIn(s, IsWordChar, w);
  }

  function StripLeft(s: string): (r: string)
    ensures |r| <= |s| && r == s[|s| - |r|..]
    ensures r == [] || !IsSpace(r[0])
  {
    if s != [] && IsSpace(s[0]) then StripLeft(s[1..]) else s
  }

  function StripRight(s: string): (r: string)
    ensures |r| <= |s| && r == s[..|r|]
    ensures r == [] || !IsSpace(r[|r| - 1])
  {
    if s != [] && IsSpace(s[|s| - 1]) then StripRight(s[..|s| - 1]) else s
  }

  /** str.strip(): the text without leading or trailing whitespace. */
  function Strip(s: string): (r: string)
    ensures r == [] || (!IsSpace(r[0]) && !IsSpace(r[|r| - 1]))
  {
    StripRight(StripLeft(s))
  }

  /** StripLeft removes only blanks: everything it drops is whitespace. */
  lemma {:induction false} StripLeftDropsBlanks(s: string)
    ensures forall k :: 0 <= k < |s| - |StripLeft(s)| ==> IsSpace(s[k])
    decreases |s|
  {
    if s != [] && IsSpace(s[0]) {
      StripLeftDropsBlanks(s[1..]);
    }
  }

  /** StripRight removes only blanks: everything it drops is whitespace. */
  lemma {:induction false} StripRightDropsBlanks(s: string)
    ensures forall k :: |StripRight(s)| <= k < |s| ==> IsSpace(s[k])
    decreases |s|
  {
    if s != [] && IsSpace(s[|s| - 1]) {
      StripRightDropsBlanks(s[..|s| - 1]);
    }
  }

  /** The stripped text is a slice s[i..j] of s, and only whitespace lies
      before i and from j on. */
  lemma StripIsInfix(s: string) returns (i: nat, j: nat)
    ensures i <= j <= |s| && Strip(s) == s[i..j]
    ensures forall k :: 0 <= k < i ==> IsSpace(s[k])
    ensures forall k :: j <= k < |s| ==> IsSpace(s[k])
  {
    var l := StripLeft(s);
    StripLeftDropsBlanks(s);
    StripRightDropsBlanks(l);
    i := |s| - |l|;
    j := i + |StripRight(l)|;
    assert forall k :: j <= k < |s| ==> s[k] == l[k - i];
  }

  /** s.split(sep)[-1]: the text after the last occurrence of sep that a
      left-to-right scan for non-overlapping occurrences finds. */
  function LastPiece(s: string, sep: string): (r: string)
    requires |sep| > 0
    decreases |s|
  {
    if |s| < |sep| then s
    else if s[..|sep|] == sep then LastPiece(s[|sep|..], sep)
    else if Contains(s[1..], sep) then LastPiece(s[1..], sep)
    else s
  }

  /** The last piece is a suffix of s that holds no separator, and when s
      holds a separator the piece directly follows one. */
  lemma {:induction false} LastPieceIsSuffixAfterSep(s: string, sep: string)
    requires |sep| > 0
    ensures var r := LastPiece(s, sep);
      && |r| <= |s| && r == s[|s| - |r|..]
      && !Contains(r, sep)
      && (Contains(s, sep) ==> |r| + |sep| <= |s| && s[|s| - |r| - |sep|..] == sep + r)
      && (!Contains(s, sep) ==> r == s)
    decreases |s|
  {
    var r := LastPiece(s, sep);
    if |s| < |sep| {
      NoRoomNoContains(s, sep);
    } else if s[..|sep|] == sep {
      var t := s[|sep|..];
      LastPieceIsSuffixAfterSep(t, sep);
      if !Contains(t, sep) {
        assert r == t;
        assert s == sep + r;
      } else {
        assert t[|t| - |r| - |sep|..] == sep + r;
        assert s[|s| - |r| - |sep|..] == t[|t| - |r| - |sep|..];
      }
    } else if Contains(s[1..], sep) {
      var t := s[1..];
      LastPieceIsSuffixAfterSep(t, sep);
      assert s[|s| - |r| - |sep|..] == t[|t| - |r| - |sep|..];
      assert s[|s| - |r|..] == t[|t| - |r|..];
    } else {
      assert r == s;
      assert !Contains(s, sep);
    }
  }

  lemma NoRoomNoContains(s: string, p: string)
    requires |s| < |p|
    ensures !Contains(s, p)
    decreases |s|
  {
    if |s| > 0 {
      NoRoomNoContains(s[1..], p);
    }
  }

  /** str.rfind for one character: the last index holding c, or -1. */
  function LastIndexOf(s: string, c: char): (i: int)
    ensures -1 <= i < |s|
    ensures i >= 0 ==> s[i] == c
    ensures forall j :: i < j < |s| ==> s[j] != c
  {
    if s == [] then -1
    else if s[|s| - 1] == c then |s| - 1
    else LastIndexOf(s[..|s| - 1], c)
  }

  /** sep.join(parts). */
  function Join(sep: string, parts: seq<string>): string
  {
    if |parts| == 0 then ""
    else if |parts| == 1 then parts[0]
    else Join(sep, parts[..|parts| - 1]) + sep + parts[|parts| - 1]
  }

  lemma {:induction false} ContainsExtended(a: string, b: string, p: string)
    requires Contains(a, p)
    ensures Contains(a + b, p)
    decreases |a|
  {
    if |p| <= |a| && a[..|p|] == p {
      assert (a + b)[..|p|] == p;
    } else {
      assert (a + b)[1..] == a[1..] + b;
      ContainsExtended(a[1..], b, p);
    }
  }

  /** Every part of sep.join(parts) occurs in the joined text. */
  lemma {:induction false} JoinHoldsEachPart(sep: string, parts: seq<string>, i: nat)
    requires i < |parts|
    ensures Contains(Join(sep, parts), parts[i])
    decreases |parts|
  {
    if |parts| == 1 {
      ContainsSelf(parts[0]);
    } else {
      var init := Join(sep, parts[..|parts| - 1]);
      var last := parts[|parts| - 1];
      var joined := Join(sep, parts);
      if i == |parts| - 1 {
        ContainsSelf(last);
        assert joined[|init + sep|..] == last;
        ContainsInSuffix(joined, |init + sep|, last);
      } else {
        JoinHoldsEachPart(sep, parts[..|parts| - 1], i);
        ContainsExtended(init, sep + last, parts[i]);
        assert joined == init + (sep + last);
      }
    }
  }

  function DigitChar(d: nat): char
    requires d < 10
  {
    ('0' as int + d) as char
  }

  /** The decimal text of a non-negative int, as str() renders it. */
  function NatToString(n: nat): (r: string)
    ensures |r| > 0
    ensures forall i :: 0 <= i < |r| ==> '0' <= r[i] <= '9'
    ensures |r| == 1 || r[0] != '0'
  {
    if n < 10 then [DigitChar(n)] else NatToString(n / 10) + [DigitChar(n % 10)]
  }

  /** Lower-casing text without upper-case letters changes nothing. */
  lemma LowerNoUpper(s: string)
    requires forall i :: 0 <= i < |s| ==> !IsAsciiUpper(s[i])
    ensures Lower(s) == s
  {
  }

  /** Stripping text without whitespace changes nothing. */
  lemma StripNoSpace(s: string)
    requires forall i :: 0 <= i < |s| ==> !IsSpace(s[i])
    ensures Strip(s) == s
  {
    assert StripLeft(s) == s;
  }

  predicate IsDigit(c: char) { '0' <= c <= '9' }

  predicate IsDigits(s: string) {
    |s| > 0 && forall i :: 0 <= i < |s| ==> IsDigit(s[i])
  }

  /** The value of a string of decimal digits. */
  function DigitsValue(s: string): nat
    requires forall i :: 0 <= i < |s| ==> IsDigit(s[i])
  {
    if s == [] then 0
    else
      assert IsDigit(s[|s| - 1]);
      DigitsValue(s[..|s| - 1]) * 10 + (s[|s| - 1] as int - '0' as int)
  }

  /** int(s) on already stripped text: an optional sign and ASCII digits;
      anything else is the ValueError int() raises, here None. */
  function ParseInt(s: string): Option<int> {
    if IsDigits(s) then Some(DigitsValue(s))
    else if |s| > 1 && (s[0] == '+' || s[0] == '-') && IsDigits(s[1..]) then
      var magnitude: int := DigitsValue(s[1..]);
      var v := if s[0] == '-' then 0 - magnitude else magnitude;
      Some(v)
    else None
  }

  /** int() reads back what str() writes for a non-negative number. */
  lemma {:induction false} DigitsValueOfNatToString(n: nat)
    ensures IsDigits(NatToString(n)) && DigitsValue(NatToString(n)) == n
  {
    var s := NatToString(n);
    if n >= 10 {
      DigitsValueOfNatToString(n / 10);
      assert s[..|s| - 1] == NatToString(n / 10);
    }
  }

  lemma ParseIntOfNatToString(n: nat)
    ensures ParseInt(NatToString(n)) == Some(n)
  {
    DigitsValueOfNatToString(n);
  }

  /** Text that starts with a letter is not a number. */
  lemma ParseIntRejectsLetters(s: string)
    requires |s| > 0 && 'a' <= s[0] <= 'z'
    ensures ParseInt(s) == None
  {
    assert !IsDigit(s[0]);
  }
}
