/** The handful of Python `str` operations the pipeline relies on, on `seq<char>`. */
module Text {

  /** Python's `str.isspace()` for one character (the full Unicode set it accepts). */
  predicate IsSpace(c: char) {
    || ('\t' <= c <= '\r')
    || ('\U{1C}' <= c <= ' ')
    || c == '\U{85}' || c == '\U{A0}' || c == '\U{1680}'
    || ('\U{2000}' <= c <= '\U{200A}')
    || c == '\U{2028}' || c == '\U{2029}' || c == '\U{202F}' || c == '\U{205F}' || c == '\U{3000}'
  }

  /** The characters at which Python's `str.splitlines()` ends a line. */
  predicate IsLineBreak(c: char) {
    || ('\n' <= c <= '\r')
    || ('\U{1C}' <= c <= '\U{1E}')
    || c == '\U{85}' || c == '\U{2028}' || c == '\U{2029}'
  }

  predicate IsDigit(c: char) { '0' <= c <= '9' }

  predicate IsAsciiLetter(c: char) { 'a' <= c <= 'z' || 'A' <= c <= 'Z' }

  function UpperChar(c: char): char {
    if 'a' <= c <= 'z' then (c as int - 32) as char else c
  }

  function LowerChar(c: char): char {
    if 'A' <= c <= 'Z' then (c as int + 32) as char else c
  }

  /** `str.upper()`, restricted to ASCII letters. */
  function Upper(s: string): (r: string)
    ensures |r| == |s|
    ensures forall i :: 0 <= i < |s| ==> r[i] == UpperChar(s[i])
  {
    if s == [] then [] else [UpperChar(s[0])] + Upper(s[1..])
  }

  /** `str.lower()`, restricted to ASCII letters. */
  function Lower(s: string): (r: string)
    ensures |r| == |s|
    ensures forall i :: 0 <= i < |s| ==> r[i] == LowerChar(s[i])
  {
    if s == [] then [] else [LowerChar(s[0])] + Lower(s[1..])
  }

  lemma UpperIdempotent(s: string)
    ensures Upper(Upper(s)) == Upper(s)
  {
  }

  lemma LowerIdempotent(s: string)
    ensures Lower(Lower(s)) == Lower(s)
  {
  }

  /** A string with no lower-case ASCII letter is its own upper-case form. */
  lemma UpperFixed(s: string)
    requires forall i :: 0 <= i < |s| ==> !('a' <= s[i] <= 'z')
    ensures Upper(s) == s
  {
  }

  predicate StartsWith(s: string, p: string) {
    |p| <= |s| && s[..|p|] == p
  }

  predicate OccursAt(s: string, p: string, i: int) {
    0 <= i && i + |p| <= |s| && s[i..i + |p|] == p
  }

  /** Python's `p in s` on strings. */
  predicate Contains(s: string, p: string)
    decreases |s|
  {
    StartsWith(s, p) || (|s| > 0 && Contains(s[1..], p))
  }

  lemma ContainsSelf(s: string)
    ensures Contains(s, s)
  {
    assert s[..|s|] == s;
  }

  /** `Contains` is the substring relation: `p` occurs in `s` at some position. */
  lemma {:induction false} ContainsIff(s: string, p: string)
    ensures Contains(s, p) <==> exists i :: OccursAt(s, p, i)
    decreases |s|
  {
    if StartsWith(s, p) {
      assert OccursAt(s, p, 0);
    } else if s == [] {
      // only the empty pattern occurs in the empty string, and it is a prefix
    } else {
      ContainsIff(s[1..], p);
      forall i ensures OccursAt(s[1..], p, i) <==> OccursAt(s, p, i + 1) {
        if 0 <= i && i + 1 + |p| <= |s| {
          assert s[1..][i..i + |p|] == s[i + 1..i + 1 + |p|];
        }
      }
      if exists i :: OccursAt(s, p, i) {
        var i :| OccursAt(s, p, i);
        assert i != 0;
        assert OccursAt(s[1..], p, i - 1);
      }
    }
  }

  function LStrip(s: string): (r: string)
    ensures |r| <= |s| && r == s[|s| - |r|..]
    ensures forall i :: 0 <= i < |s| - |r| ==> IsSpace(s[i])
    ensures r != [] ==> !IsSpace(r[0])
    decreases |s|
  {
    if |s| > 0 && IsSpace(s[0]) then LStrip(s[1..]) else s
  }

  function RStrip(s: string): (r: string)
    ensures |r| <= |s| && r == s[..|r|]
    ensures forall i :: |r| <= i < |s| ==> IsSpace(s[i])
    ensures r != [] ==> !IsSpace(r[|r| - 1])
    decreases |s|
  {
    if |s| > 0 && IsSpace(s[|s| - 1]) then RStrip(s[..|s| - 1]) else s
  }

  /** Python's `str.strip()` with no argument. */
  function Strip(s: string): string {
    RStrip(LStrip(s))
  }

  /** Where `Strip(s)` starts in `s`. */
  function StripStart(s: string): nat {
    |s| - |LStrip(s)|
  }

  /** A prefix of a suffix is a middle slice. */
  lemma PrefixOfSuffix(s: string, a: nat, l: string, r: string)
    requires a <= |s| && l == s[a..] && |r| <= |l| && r == l[..|r|]
    ensures a + |r| <= |s| && r == s[a..a + |r|]
  {
    forall i | 0 <= i < |r| ensures r[i] == s[a + i] {
      assert r[i] == l[i];
    }
  }

  lemma StripSlice(s: string)
    ensures StripStart(s) + |Strip(s)| <= |s|
    ensures Strip(s) == s[StripStart(s)..StripStart(s) + |Strip(s)|]
  {
    PrefixOfSuffix(s, StripStart(s), LStrip(s), Strip(s));
  }

  lemma StripEdges(s: string)
    ensures Strip(s) != [] ==> !IsSpace(Strip(s)[0]) && !IsSpace(Strip(s)[|Strip(s)| - 1])
  {
    var l, r := LStrip(s), Strip(s);
    if r != [] {
      assert r == l[..|r|];
      assert r[0] == l[0];
    }
  }

  lemma StripCuts(s: string)
    ensures forall i :: 0 <= i < StripStart(s) ==> IsSpace(s[i])
    ensures forall i :: StripStart(s) + |Strip(s)| <= i < |s| ==> IsSpace(s[i])
  {
    var a, l, r := StripStart(s), LStrip(s), Strip(s);
    assert l == s[a..];
    forall i | a + |r| <= i < |s| ensures IsSpace(s[i]) {
      assert s[i] == l[i - a];
    }
  }

  /** `Strip` removes the whitespace at both ends and nothing else: what is left is a
      slice of the input that neither starts nor ends with whitespace, and everything
      cut off is whitespace. */
  lemma StripIsTrimmedSlice(s: string)
    ensures var a, r := StripStart(s), Strip(s);
      && a + |r| <= |s| && r == s[a..a + |r|]
      && (r != [] ==> !IsSpace(r[0]) && !IsSpace(r[|r| - 1]))
      && (forall i :: 0 <= i < a ==> IsSpace(s[i]))
      && (forall i :: a + |r| <= i < |s| ==> IsSpace(s[i]))
  {
    StripSlice(s);
    StripEdges(s);
    StripCuts(s);
  }

  lemma StripIdempotent(s: string)
    ensures Strip(Strip(s)) == Strip(s)
  {
  }

  function FirstIndex(s: string, c: char): (k: nat)
    requires c in s
    ensures k < |s| && s[k] == c && c !in s[..k]
  {
    if s[0] == c then 0 else 1 + FirstIndex(s[1..], c)
  }

  /** The first occurrence is the one with no earlier occurrence. */
  lemma {:induction false} FirstIndexIs(s: string, c: char, k: nat)
    requires k < |s| && s[k] == c && c !in s[..k]
    ensures FirstIndex(s, c) == k
    decreases k
  {
    if k > 0 {
      assert s[0] == s[..k][0];
      assert s[1..][..k - 1] == s[..k][1..];
      FirstIndexIs(s[1..], c, k - 1);
    }
  }

  /** Python's `s.split(c)` for a one-character separator `c`. */
  function Split(s: string, c: char): (parts: seq<string>)
    ensures |parts| >= 1
    ensures forall i :: 0 <= i < |parts| ==> c !in parts[i]
    decreases |s|
  {
    if c !in s then [s]
    else
      var k := FirstIndex(s, c);
      [s[..k]] + Split(s[k + 1..], c)
  }

  /** Python's `c.join(parts)`, the inverse of `Split`. */
  function Join(parts: seq<string>, c: char): string {
    if parts == [] then ""
    else if |parts| == 1 then parts[0]
    else parts[0] + [c] + Join(parts[1..], c)
  }

  lemma {:induction false} JoinSplit(s: string, c: char)
    ensures Join(Split(s, c), c) == s
    decreases |s|
  {
    if c in s {
      var k := FirstIndex(s, c);
      var head, rest := s[..k], s[k + 1..];
      var tail := Split(rest, c);
      assert Split(s, c) == [head] + tail;
      JoinSplit(rest, c);
      assert Join([head] + tail, c) == head + [c] + Join(tail, c) by {
        assert ([head] + tail)[1..] == tail;
      }
      assert s == head + [c] + rest;
    }
  }

  /** A string with exactly one separator splits into the two sides of it. */
  lemma SplitAtOnly(s: string, c: char, k: nat)
    requires k < |s| && s[k] == c && c !in s[..k] && c !in s[k + 1..]
    ensures Split(s, c) == [s[..k], s[k + 1..]]
  {
    var f := FirstIndex(s, c);
    assert s[..f + 1][f] == c;
  }

  /** A pattern holding a character the string lacks does not occur in it. */
  lemma AbsentCharExcludes(s: string, p: string, c: char)
    requires c in p && c !in s
    ensures !Contains(s, p)
  {
    ContainsIff(s, p);
  }

  /** `parts[-1]` of `s.split(c)`. */
  function LastPart(s: string, c: char): string {
    var parts := Split(s, c);
    parts[|parts| - 1]
  }

  /** The split yields more than one part exactly when the separator occurs. */
  lemma SplitHasManyParts(s: string, c: char)
    ensures |Split(s, c)| > 1 <==> c in s
  {
  }

  /** Past the first separator the last part is that of the rest. */
  lemma LastPartStep(s: string, c: char)
    requires c in s
    ensures FirstIndex(s, c) < |s|
    ensures LastPart(s, c) == LastPart(s[FirstIndex(s, c) + 1..], c)
  {
    var k := FirstIndex(s, c);
    var parts, tail := Split(s, c), Split(s[k + 1..], c);
    assert parts == [s[..k]] + tail;
    assert |parts| - 1 == |tail| && parts[|parts| - 1] == tail[|tail| - 1];
  }

  /** A tail that follows a separator at `k` is a tail of the whole string that follows
      a separator. */
  lemma TailBeyond(s: string, c: char, k: nat, l: string)
    requires k < |s| && s[k] == c
    requires |l| <= |s| - k - 1 && l == s[k + 1..][|s| - k - 1 - |l|..]
    requires c in s[k + 1..] ==> |l| < |s| - k - 1 && s[k + 1..][|s| - k - 1 - |l| - 1] == c
    requires c !in s[k + 1..] ==> l == s[k + 1..]
    ensures |l| < |s| && l == s[|s| - |l|..] && s[|s| - |l| - 1] == c
  {
    if c !in s[k + 1..] {
      assert |s| - |l| - 1 == k;
    } else {
      assert s[k + 1..][|s| - k - 1 - |l| - 1] == s[|s| - |l| - 1];
    }
  }

  /** The last part is what follows the separator's last occurrence, or the whole
      string when the separator does not occur. */
  lemma {:induction false} LastPartIsTail(s: string, c: char)
    ensures |LastPart(s, c)| <= |s|
    ensures LastPart(s, c) == s[|s| - |LastPart(s, c)|..]
    ensures c !in LastPart(s, c)
    ensures c in s ==> |LastPart(s, c)| < |s| && s[|s| - |LastPart(s, c)| - 1] == c
    ensures c !in s ==> LastPart(s, c) == s
    decreases |s|
  {
    if c in s {
      var k := FirstIndex(s, c);
      LastPartStep(s, c);
      LastPartIsTail(s[k + 1..], c);
      TailBeyond(s, c, k, LastPart(s[k + 1..], c));
    }
  }

  /** Python's `s.replace(c, '')`. */
  function RemoveChar(s: string, c: char): (r: string)
    ensures |r| <= |s|
    ensures forall x :: x in r <==> x in s && x != c
    ensures c !in s ==> r == s
  {
    if s == [] then []
    else (if s[0] == c then [] else [s[0]]) + RemoveChar(s[1..], c)
  }

  /** `s.replace(c, '')` keeps every other character as often as it occurs, and no `c`. */
  lemma {:induction false} RemoveCharCounts(s: string, c: char)
    ensures multiset(RemoveChar(s, c)) == multiset(s)[c := 0]
    decreases |s|
  {
    if s != [] {
      assert s == [s[0]] + s[1..];
      RemoveCharCounts(s[1..], c);
    }
  }

  /** Removing a character from a concatenation removes it from each side, in order. */
  lemma {:induction false} RemoveCharAppend(s: string, t: string, c: char)
    ensures RemoveChar(s + t, c) == RemoveChar(s, c) + RemoveChar(t, c)
    decreases |s|
  {
    if s == [] {
      assert s + t == t;
    } else {
      assert (s + t)[0] == s[0] && (s + t)[1..] == s[1..] + t;
      RemoveCharAppend(s[1..], t, c);
    }
  }

  /** Index of the first line break of `s`, or `|s|` when there is none. */
  function BreakIndex(s: string): (k: nat)
    ensures k <= |s| && (k < |s| ==> IsLineBreak(s[k]))
    ensures forall i :: 0 <= i < k ==> !IsLineBreak(s[i])
  {
    if s == [] then 0 else if IsLineBreak(s[0]) then 0 else 1 + BreakIndex(s[1..])
  }

  predicate NoLineBreak(line: string) {
    forall i :: 0 <= i < |line| ==> !IsLineBreak(line[i])
  }

  /** Python's `str.splitlines()`: "\r\n" ends one line, and a break at the very end
      does not start an empty last line. */
  function SplitLines(s: string): (lines: seq<string>)
    ensures forall i :: 0 <= i < |lines| ==> NoLineBreak(lines[i])
    ensures s == [] <==> lines == []
    decreases |s|
  {
    if s == [] then []
    else
      var k := BreakIndex(s);
      if k == |s| then [s]
      else [s[..k]] + SplitLines(s[LineEndAt(s, k)..])
  }

  /** What can end a line: one line-break character, or the pair "\r\n". */
  predicate IsLineEnd(e: string) {
    e == ['\r', '\n'] || (|e| == 1 && IsLineBreak(e[0]))
  }

  /** Where the text after the line break at `k` starts: "\r\n" is one break. */
  function LineEndAt(s: string, k: nat): (next: nat)
    requires k < |s| && IsLineBreak(s[k])
    ensures k < next <= |s| && IsLineEnd(s[k..next])
    ensures next == k + 2 <==> s[k] == '\r' && k + 1 < |s| && s[k + 1] == '\n'
  {
    if s[k] == '\r' && k + 1 < |s| && s[k + 1] == '\n' then
      assert s[k..k + 2] == ['\r', '\n'];
      k + 2
    else
      assert s[k..k + 1] == [s[k]];
      k + 1
  }

  /** The text that ended each line of `SplitLines(s)`; only an unterminated last line
      has none. */
  function LineEnds(s: string): (ends: seq<string>)
    ensures |ends| == |SplitLines(s)|
    ensures forall i :: 0 <= i < |ends| ==> IsLineEnd(ends[i]) || (i == |ends| - 1 && ends[i] == [])
    decreases |s|
  {
    if s == [] then []
    else
      var k := BreakIndex(s);
      if k == |s| then [[]]
      else
        var next := LineEndAt(s, k);
        [s[k..next]] + LineEnds(s[next..])
  }

  /** Each line followed by the text that ended it. */
  function Rejoin(lines: seq<string>, ends: seq<string>): string
    requires |lines| == |ends|
  {
    if lines == [] then [] else lines[0] + ends[0] + Rejoin(lines[1..], ends[1..])
  }

  /** The lines put back together with their line ends give the original text. */
  lemma {:induction false} SplitLinesRejoin(s: string)
    ensures Rejoin(SplitLines(s), LineEnds(s)) == s
    decreases |s|
  {
    if s != [] {
      var k := BreakIndex(s);
      if k == |s| {
        assert Rejoin([s], [[]]) == s + [] + Rejoin([], []);
      } else {
        var next := LineEndAt(s, k);
        SplitLinesRejoin(s[next..]);
        RejoinStep(s, k, next);
      }
    }
  }

  /** One step of `SplitLinesRejoin`: the first line and its end, then the rest. */
  lemma RejoinStep(s: string, k: nat, next: nat)
    requires k == BreakIndex(s) < |s| && next == LineEndAt(s, k)
    requires Rejoin(SplitLines(s[next..]), LineEnds(s[next..])) == s[next..]
    ensures Rejoin(SplitLines(s), LineEnds(s)) == s
  {
    var line, end, rest := s[..k], s[k..next], s[next..];
    var lines, ends := SplitLines(rest), LineEnds(rest);
    FirstLineAndEnd(s, k, next);
    RejoinCons(line, end, lines, ends);
    SliceThree(s, k, next);
  }

  lemma FirstLineAndEnd(s: string, k: nat, next: nat)
    requires k == BreakIndex(s) < |s| && next == LineEndAt(s, k)
    ensures SplitLines(s) == [s[..k]] + SplitLines(s[next..])
    ensures LineEnds(s) == [s[k..next]] + LineEnds(s[next..])
  {
  }

  lemma SliceThree(s: string, k: nat, next: nat)
    requires k <= next <= |s|
    ensures s[..k] + s[k..next] + s[next..] == s
  {
  }

  lemma RejoinCons(line: string, end: string, lines: seq<string>, ends: seq<string>)
    requires |lines| == |ends|
    ensures Rejoin([line] + lines, [end] + ends) == line + end + Rejoin(lines, ends)
  {
    assert ([line] + lines)[1..] == lines;
    assert ([end] + ends)[1..] == ends;
  }

  /** The position of the first line break, when the first `k` characters hold none and
      the next one is a break. */
  lemma {:induction false} BreakIndexIs(s: string, k: nat)
    requires k < |s| && IsLineBreak(s[k]) && forall i :: 0 <= i < k ==> !IsLineBreak(s[i])
    ensures BreakIndex(s) == k
    decreases k
  {
    if k > 0 {
      BreakIndexIs(s[1..], k - 1);
    }
  }

  lemma {:induction false} BreakIndexNone(s: string)
    requires NoLineBreak(s)
    ensures BreakIndex(s) == |s|
    decreases |s|
  {
    if s != [] {
      BreakIndexNone(s[1..]);
    }
  }

  /** A line is the text before the first line end, and "\r\n" ends one line, not two. */
  lemma SplitLinesAt(x: string, e: string, rest: string)
    requires NoLineBreak(x) && IsLineEnd(e)
    requires e == ['\r'] ==> rest == [] || rest[0] != '\n'
    ensures SplitLines(x + e + rest) == [x] + SplitLines(rest)
  {
    var s := x + e + rest;
    assert s[|x|] == e[0];
    BreakIndexIs(s, |x|);
    assert s[..|x|] == x;
    assert s[|x| + |e|..] == rest;
    if |e| == 2 {
      assert s[|x| + 1] == '\n';
    }
  }

  /** Text without a line break is a single line. */
  lemma SplitLinesOne(x: string)
    requires x != [] && NoLineBreak(x)
    ensures SplitLines(x) == [x]
  {
    BreakIndexNone(x);
  }
}
