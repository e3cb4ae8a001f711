/**
 * The three string operations of the Python standard library that the
 * evaluation pipeline uses: `str.splitlines()` (Lines), `str.strip()` (Strip)
 * and the substring test `needle in hay` (Contains).
 *
 * Line boundaries are those of `str.splitlines`: "\n", "\r", "\r\n", "\v",
 * "\f", "\x1c", "\x1d", "\x1e", "\x85", U+2028 and U+2029, with "\r\n" one
 * boundary. Whitespace is that of `str.isspace`, written out below.
 */
module Text {

  predicate IsLineBreak(c: char) {
    c == '\n' || c == '\r' || c == '\U{0B}' || c == '\U{0C}'
    || c == '\U{1C}' || c == '\U{1D}' || c == '\U{1E}' || c == '\U{85}'
    || c == '\U{2028}' || c == '\U{2029}'
  }

  predicate NoLineBreak(s: string) {
    forall i | 0 <= i < |s| :: !IsLineBreak(s[i])
  }

  /** The characters for which `str.isspace` holds. */
  predicate IsSpace(c: char) {
    c == ' ' || c == '\t' || c == '\n' || c == '\U{0B}' || c == '\U{0C}' || c == '\r'
    || ('\U{1C}' <= c <= '\U{1F}') || c == '\U{85}' || c == '\U{A0}' || c == '\U{1680}'
    || ('\U{2000}' <= c <= '\U{200A}') || c == '\U{2028}' || c == '\U{2029}'
    || c == '\U{202F}' || c == '\U{205F}' || c == '\U{3000}'
  }

  predicate AllSpace(s: string) {
    forall i | 0 <= i < |s| :: IsSpace(s[i])
  }

  /** `needle` occurs in `hay` starting at index `i`. */
  predicate OccursAt(hay: string, needle: string, i: int) {
    0 <= i <= |hay| - |needle| && hay[i..i + |needle|] == needle
  }

  /** `needle in hay` */
  predicate Contains(hay: string, needle: string) {
    exists i | 0 <= i <= |hay| - |needle| :: OccursAt(hay, needle, i)
  }

  lemma {:induction false} NoLineBreakAppend(a: string, b: string)
    requires NoLineBreak(a) && NoLineBreak(b)
    ensures NoLineBreak(a + b)
  {
    forall i | 0 <= i < |a + b| ensures !IsLineBreak((a + b)[i]) {
      if i < |a| { assert (a + b)[i] == a[i]; } else { assert (a + b)[i] == b[i - |a|]; }
    }
  }

  // ---------------------------------------------------------------------
  // splitlines

  /** The index of the first line break of `s`, or `|s|` if there is none. */
  function LineEnd(s: string): (i: nat)
    ensures i <= |s|
    ensures i < |s| ==> IsLineBreak(s[i])
  {
    if s == [] || IsLineBreak(s[0]) then 0
    else 1 + LineEnd(s[1..])
  }

  /** No character before the first line break is a line break. */
  lemma {:induction false} LineEndFirst(s: string)
    ensures NoLineBreak(s[..LineEnd(s)])
  {
    if s != [] && !IsLineBreak(s[0]) {
      LineEndFirst(s[1..]);
      assert s[..LineEnd(s)] == [s[0]] + s[1..][..LineEnd(s[1..])];
    }
  }

  /** The first line break comes no later than any line break. */
  lemma {:induction false} LineEndBefore(s: string, j: nat)
    requires j < |s| && IsLineBreak(s[j])
    ensures LineEnd(s) <= j
  {
    if j > 0 && !IsLineBreak(s[0]) {
      LineEndBefore(s[1..], j - 1);
    }
  }

  /** The contract of LineEnd determines it. */
  lemma {:induction false} LineEndUnique(s: string, i: nat)
    requires i <= |s| && NoLineBreak(s[..i])
    requires i < |s| ==> IsLineBreak(s[i])
    ensures LineEnd(s) == i
  {
    if i > 0 {
      assert s[0] == s[..i][0];
      assert s[1..][..i - 1] == s[..i][1..];
      LineEndUnique(s[1..], i - 1);
    }
  }

  /** How many characters the line break at `s[i]` takes: 2 for "\r\n". */
  function BreakWidth(s: string, i: nat): (w: nat)
    requires i < |s| && IsLineBreak(s[i])
    ensures 1 <= w <= |s| - i
  {
    if s[i] == '\r' && i + 1 < |s| && s[i + 1] == '\n' then 2 else 1
  }

  /**
   * `s.splitlines()`: the lines of `s`, in order, without their line breaks.
   * A final line break does not start a further, empty line.
   */
  function Lines(s: string): (lines: seq<string>)
    decreases |s|
  {
    if s == [] then []
    else
      var i := LineEnd(s);
      if i == |s| then [s]
      else [s[..i]] + Lines(s[i + BreakWidth(s, i)..])
  }

  /** The concatenation of a sequence of strings. */
  function Concat(ss: seq<string>): string {
    if ss == [] then [] else ss[0] + Concat(ss[1..])
  }

  /** `s` with every line-break character removed. */
  function RemoveLineBreaks(s: string): (r: string)
    ensures NoLineBreak(r)
  {
    if s == [] then []
    else (if IsLineBreak(s[0]) then [] else [s[0]]) + RemoveLineBreaks(s[1..])
  }

  lemma {:induction false} RemoveLineBreaksAppend(a: string, b: string)
    ensures RemoveLineBreaks(a + b) == RemoveLineBreaks(a) + RemoveLineBreaks(b)
  {
    if a != [] {
      assert (a + b)[1..] == a[1..] + b;
      RemoveLineBreaksAppend(a[1..], b);
    } else {
      assert a + b == b;
    }
  }

  lemma {:induction false} RemoveLineBreaksNone(s: string)
    requires NoLineBreak(s)
    ensures RemoveLineBreaks(s) == s
  {
    if s != [] {
      RemoveLineBreaksNone(s[1..]);
    }
  }

  lemma {:induction false} RemoveLineBreaksAll(s: string)
    requires forall i | 0 <= i < |s| :: IsLineBreak(s[i])
    ensures RemoveLineBreaks(s) == []
  {
    if s != [] {
      RemoveLineBreaksAll(s[1..]);
    }
  }

  /** Removing line breaks from a string whose first line ends at a break. */
  lemma {:induction false} RemoveLineBreaksStep(s: string)
    requires LineEnd(s) < |s|
    ensures RemoveLineBreaks(s)
            == s[..LineEnd(s)] + RemoveLineBreaks(s[LineEnd(s) + BreakWidth(s, LineEnd(s))..])
  {
    var i := LineEnd(s);
    var w := BreakWidth(s, i);
    var rest := s[i + w..];
    var brk := s[i..i + w];
    FirstLineKept(s);
    BreakRemoved(s, i);
    RemoveLineBreaksAppend(brk, rest);
    SplitThree(s, i, i + w);
    RemoveLineBreaksAppend(s[..i], brk + rest);
    DropEmptyMiddle(RemoveLineBreaks(s), s[..i], RemoveLineBreaks(brk + rest),
                    RemoveLineBreaks(brk), RemoveLineBreaks(rest));
  }

  lemma {:induction false} FirstLineKept(s: string)
    ensures RemoveLineBreaks(s[..LineEnd(s)]) == s[..LineEnd(s)]
  {
    LineEndFirst(s);
    RemoveLineBreaksNone(s[..LineEnd(s)]);
  }

  lemma {:induction false} BreakRemoved(s: string, i: nat)
    requires i < |s| && IsLineBreak(s[i])
    ensures RemoveLineBreaks(s[i..i + BreakWidth(s, i)]) == []
  {
    var brk := s[i..i + BreakWidth(s, i)];
    assert forall k | 0 <= k < |brk| :: brk[k] == s[i + k];
    RemoveLineBreaksAll(brk);
  }

  lemma {:induction false} SplitThree(s: string, i: nat, j: nat)
    requires i <= j <= |s|
    ensures s == s[..i] + (s[i..j] + s[j..])
  {
  }

  lemma {:induction false} DropEmptyMiddle(total: string, front: string, back: string, mid: string, rest: string)
    requires total == front + back && back == mid + rest && mid == []
    ensures total == front + rest
  {
  }

  /**
   * Splitting loses nothing but the line breaks: the lines, put back
   * together, are `s` without its line-break characters.
   */
  lemma {:induction false} LinesKeepText(s: string)
    ensures Concat(Lines(s)) == RemoveLineBreaks(s)
    decreases |s|, 1
  {
    if s != [] {
      if LineEnd(s) == |s| {
        OneLineKeepsText(s);
      } else {
        LinesKeepTextStep(s);
      }
    }
  }

  /** The inductive step of LinesKeepText: split off the first line. */
  lemma {:induction false} LinesKeepTextStep(s: string)
    requires LineEnd(s) < |s|
    ensures Concat(Lines(s)) == RemoveLineBreaks(s)
    decreases |s|, 0
  {
    var i := LineEnd(s);
    var rest := s[i + BreakWidth(s, i)..];
    LinesStep(s);
    LinesKeepText(rest);
    RemoveLineBreaksStep(s);
    KeepCombine(Lines(s), s[..i], Lines(rest), RemoveLineBreaks(s), RemoveLineBreaks(rest));
  }

  lemma {:induction false} KeepCombine(lines: seq<string>, line: string, restLines: seq<string>,
                                       removed: string, restRemoved: string)
    requires lines == [line] + restLines && Concat(restLines) == restRemoved
    requires removed == line + restRemoved
    ensures Concat(lines) == removed
  {
    ConcatCons(line, restLines);
  }

  lemma {:induction false} OneLineKeepsText(s: string)
    requires s != [] && LineEnd(s) == |s|
    ensures Concat(Lines(s)) == RemoveLineBreaks(s)
  {
    LineEndFirst(s);
    assert s[..|s|] == s;
    RemoveLineBreaksNone(s);
    assert Lines(s) == [s];
    assert Concat([s]) == s + Concat([]);
  }

  lemma {:induction false} ConcatCons(x: string, ss: seq<string>)
    ensures Concat([x] + ss) == x + Concat(ss)
  {
    assert ([x] + ss)[1..] == ss;
  }

  /** No line of `s` holds a line break. */
  lemma {:induction false} LineHasNoBreak(s: string, j: nat)
    requires j < |Lines(s)|
    ensures NoLineBreak(Lines(s)[j])
    decreases |s|
  {
    var i := LineEnd(s);
    LineEndFirst(s);
    if i < |s| {
      var rest := s[i + BreakWidth(s, i)..];
      LinesStep(s);
      if j > 0 {
        LineHasNoBreak(rest, j - 1);
      }
    } else {
      assert s[..i] == s;
    }
  }

  /** A non-empty string without line breaks is one line. */
  lemma {:induction false} SingleLine(s: string)
    requires s != [] && NoLineBreak(s)
    ensures Lines(s) == [s]
  {
  }

  /**
   * The first line of `x + y`, when `x` holds no line break, is `x` followed
   * by the first line of `y`.
   */
  lemma {:induction false} FirstLineOfAppend(x: string, y: string)
    requires x != [] && NoLineBreak(x)
    ensures Lines(x + y) != []
    ensures Lines(x + y)[0] == x + y[..LineEnd(y)]
  {
    var s := x + y;
    var k := LineEnd(y);
    LineEndFirst(y);
    assert s[..|x| + k] == x + y[..k];
    NoLineBreakAppend(x, y[..k]);
    LineEndUnique(s, |x| + k);
    if |x| + k < |s| {
      LinesStep(s);
    }
  }

  /**
   * Splitting distributes over concatenation when the first part is empty
   * or ends with a line break that cannot join with what follows (anything
   * but "\r", which would pair with a leading "\n").
   */
  lemma {:induction false} LinesAppend(a: string, b: string)
    requires a == [] || (IsLineBreak(a[|a| - 1]) && a[|a| - 1] != '\r')
    ensures Lines(a + b) == Lines(a) + Lines(b)
    decreases |a|, 1
  {
    if a == [] {
      assert a + b == b;
    } else {
      LinesAppendStep(a, b);
    }
  }

  /** The inductive step of LinesAppend: split off the first line of `a`. */
  lemma {:induction false} LinesAppendStep(a: string, b: string)
    requires a != [] && IsLineBreak(a[|a| - 1]) && a[|a| - 1] != '\r'
    ensures Lines(a + b) == Lines(a) + Lines(b)
    decreases |a|, 0
  {
    FirstLineOfJoin(a, b);
    var i := LineEnd(a);
    var rest := a[i + BreakWidth(a, i)..];
    RestEndsLikeWhole(a);
    LinesStep(a);
    LinesAppend(rest, b);
    Recombine(Lines(a + b), Lines(a), Lines(rest), Lines(b), a[..i]);
  }

  lemma {:induction false} FirstLineOfJoin(a: string, b: string)
    requires a != [] && IsLineBreak(a[|a| - 1]) && a[|a| - 1] != '\r'
    ensures LineEnd(a) < |a|
    ensures Lines(a + b)
            == [a[..LineEnd(a)]] + Lines(a[LineEnd(a) + BreakWidth(a, LineEnd(a))..] + b)
  {
    FirstBreakOfAppend(a, b);
    LinesStep(a + b);
  }

  lemma {:induction false} Recombine(whole: seq<string>, front: seq<string>, mid: seq<string>, back: seq<string>, line: string)
    requires whole == [line] + (mid + back) && front == [line] + mid
    ensures whole == front + back
  {
  }

  /**
   * When `a` ends with a line break other than "\r", the first line break
   * of `a + b` is that of `a`, and what follows it is the rest of `a`
   * followed by `b`; the rest of `a` again ends like `a`, or is empty.
   */
  lemma {:induction false} FirstBreakOfAppend(a: string, b: string)
    requires a != [] && IsLineBreak(a[|a| - 1]) && a[|a| - 1] != '\r'
    ensures LineEnd(a) < |a| && LineEnd(a + b) == LineEnd(a)
    ensures BreakWidth(a + b, LineEnd(a)) == BreakWidth(a, LineEnd(a))
    ensures (a + b)[..LineEnd(a)] == a[..LineEnd(a)]
    ensures (a + b)[LineEnd(a) + BreakWidth(a, LineEnd(a))..]
            == a[LineEnd(a) + BreakWidth(a, LineEnd(a))..] + b
  {
    var s := a + b;
    var i := LineEnd(a);
    LineEndFirst(a);
    LineEndBefore(a, |a| - 1);
    assert s[..i] == a[..i];
    LineEndUnique(s, i);
  }

  /** What follows the first line break of `a` ends as `a` does, or is empty. */
  lemma {:induction false} RestEndsLikeWhole(a: string)
    requires a != [] && IsLineBreak(a[|a| - 1]) && a[|a| - 1] != '\r'
    ensures LineEnd(a) < |a|
    ensures var rest := a[LineEnd(a) + BreakWidth(a, LineEnd(a))..];
            rest == [] || (IsLineBreak(rest[|rest| - 1]) && rest[|rest| - 1] != '\r')
  {
    LineEndBefore(a, |a| - 1);
    var i := LineEnd(a);
    var rest := a[i + BreakWidth(a, i)..];
    assert rest == [] || rest[|rest| - 1] == a[|a| - 1];
  }

  /** One step of `Lines`: the first line, then the lines after its break. */
  lemma {:induction false} LinesStep(s: string)
    requires LineEnd(s) < |s|
    ensures Lines(s) == [s[..LineEnd(s)]] + Lines(s[LineEnd(s) + BreakWidth(s, LineEnd(s))..])
  {
    assert s != [];
  }

  /** Every line of a digit-free string is digit-free, and likewise for any character class. */
  lemma {:induction false} LinesAvoid(s: string, bad: char -> bool)
    requires forall k | 0 <= k < |s| :: !bad(s[k])
    ensures forall j, k | 0 <= j < |Lines(s)| && 0 <= k < |Lines(s)[j]| :: !bad(Lines(s)[j][k])
    decreases |s|
  {
    if s != [] {
      var i := LineEnd(s);
      if i < |s| {
        LinesAvoid(s[i + BreakWidth(s, i)..], bad);
      }
    }
  }

  // ---------------------------------------------------------------------
  // strip

  /** `s.lstrip()` */
  function StripLeading(s: string): (r: string)
    ensures |r| <= |s| && r == s[|s| - |r|..]
    ensures AllSpace(s[..|s| - |r|])
    ensures r == [] || !IsSpace(r[0])
  {
    if s != [] && IsSpace(s[0]) then
      var r := StripLeading(s[1..]);
      assert s[..|s| - |r|] == [s[0]] + s[1..][..|s| - 1 - |r|];
      r
    else s
  }

  /** `s.rstrip()` */
  function StripTrailing(s: string): (r: string)
    ensures |r| <= |s| && r == s[..|r|]
    ensures AllSpace(s[|r|..])
    ensures r == [] || !IsSpace(r[|r| - 1])
  {
    if s != [] && IsSpace(s[|s| - 1]) then
      var r := StripTrailing(s[..|s| - 1]);
      assert s[|r|..] == s[..|s| - 1][|r|..] + [s[|s| - 1]];
      r
    else s
  }

  /**
   * `s.strip()`: the part of `s` left after removing its leading and its
   * trailing whitespace.
   */
  function Strip(s: string): (r: string)
    ensures |r| <= |s|
    ensures r == [] || (!IsSpace(r[0]) && !IsSpace(r[|r| - 1]))
  {
    StripTrailing(StripLeading(s))
  }

  /** `r` is `s` without its first `i` characters and without a whitespace suffix. */
  predicate StrippedAt(s: string, r: string, i: int) {
    0 <= i <= |s| - |r| && r == s[i..i + |r|] && AllSpace(s[..i]) && AllSpace(s[i + |r|..])
  }

  /**
   * What `strip` removes is whitespace: the result is the part of `s`
   * between a whitespace prefix and a whitespace suffix.
   */
  lemma {:induction false} StripRemovesSpace(s: string)
    ensures exists i :: StrippedAt(s, Strip(s), i)
  {
    StripsLeadingSpace(s);
  }

  /** The whitespace prefix removed is the one `lstrip` removes. */
  lemma {:induction false} StripsLeadingSpace(s: string)
    ensures StrippedAt(s, Strip(s), |s| - |StripLeading(s)|)
  {
    var left := StripLeading(s);
    StrippedAtParts(s, left, StripTrailing(left), |s| - |left|);
  }

  lemma {:induction false} StrippedAtParts(s: string, left: string, r: string, i: nat)
    requires i <= |s| && left == s[i..] && AllSpace(s[..i])
    requires |r| <= |left| && r == left[..|r|] && AllSpace(left[|r|..])
    ensures StrippedAt(s, r, i)
  {
    assert r == s[i..i + |r|];
    assert s[i + |r|..] == left[|r|..];
  }

  /** A string that neither starts nor ends with whitespace is left as it is. */
  lemma {:induction false} StripUnchanged(s: string)
    requires s == [] || (!IsSpace(s[0]) && !IsSpace(s[|s| - 1]))
    ensures Strip(s) == s
  {
  }

  /** Stripping twice is stripping once. */
  lemma {:induction false} StripIdempotent(s: string)
    ensures Strip(Strip(s)) == Strip(s)
  {
    StripUnchanged(Strip(s));
  }

  /** A string made only of whitespace strips to the empty string. */
  lemma {:induction false} StripAllSpace(s: string)
    requires AllSpace(s)
    ensures Strip(s) == []
  {
    if s != [] {
      assert IsSpace(s[|s| - 1]);
    }
  }
}
