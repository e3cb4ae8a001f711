/**
 * Score extraction (app.py, lines 97-98): the score of a reply is read from
 * the first line of the reply that mentions one of the numbers 0 to 10, by
 * concatenating every digit of that line and reading the result as a number.
 * A reply with no such line is read from the fallback line "Score: 0".
 *
 * The rule is modelled as written, including its consequences: the line
 * "Score: 7 out of 10." scores 710, and scores are not bounded by 10.
 */
module Scoring {
  import opened Decimal
  import opened Text

  /** The line used when no line of the reply mentions a score. */
  const FallbackLine: string := "Score: 0"

  /** The line contains the decimal spelling of some number from 0 to 10. */
  predicate MentionsScore(line: string) {
    exists n | 0 <= n < 11 :: Contains(line, DecimalString(n))
  }

  /**
   * The index of the first line that mentions a score, or `|lines|` when
   * none does.
   */
  function ScoreLineIndex(lines: seq<string>): (k: nat)
    ensures k <= |lines|
  {
    if lines == [] || MentionsScore(lines[0]) then 0
    else 1 + ScoreLineIndex(lines[1..])
  }

  /**
   * The first line of the reply, as `str.splitlines` splits it, that
   * contains the decimal spelling of a number from 0 to 10, or the fallback
   * line when there is none.
   */
  function SelectScoreLine(reply: string): (line: string)
    ensures HasDigit(line)
  {
    var lines := Lines(reply);
    var k := ScoreLineIndex(lines);
    if k < |lines| then
      ScoreLineIndexFirst(lines);
      MentionsScoreIffHasDigit(lines[k]);
      lines[k]
    else
      assert IsDigit(FallbackLine[7]);
      FallbackLine
  }

  /**
   * The selected line's digits, joined in order and read as a decimal
   * number, or 0 when the line holds no digit; the selected line always
   * holds one.
   */
  function ExtractScore(reply: string): (score: int)
    ensures score >= 0
  {
    var line := SelectScoreLine(reply);
    if HasDigit(line) then
      DecimalValue(DigitsOf(line))
    else
      assert false; 0
  }

  // ---------------------------------------------------------------------
  // Lemmas

  /**
   * A line mentions one of "0", "1", ..., "10" exactly when it holds a digit:
   * every digit is the spelling of a number below 10, and each of these
   * spellings starts with a digit.
   */
  lemma {:induction false} MentionsScoreIffHasDigit(line: string)
    ensures MentionsScore(line) <==> HasDigit(line)
  {
    if MentionsScore(line) {
      var n :| 0 <= n < 11 && Contains(line, DecimalString(n));
      var t := DecimalString(n);
      var i :| 0 <= i <= |line| - |t| && OccursAt(line, t, i);
      assert line[i..i + |t|] == t;
      assert t[0] == line[i];
    }
    if HasDigit(line) {
      var i :| 0 <= i < |line| && IsDigit(line[i]);
      var n := DigitValue(line[i]);
      assert DecimalString(n) == [line[i]];
      assert OccursAt(line, DecimalString(n), i);
    }
  }

  /**
   * The index found is that of the first line that mentions a score: no
   * line before it does, and the line at it does, if there is one.
   */
  lemma {:induction false} ScoreLineIndexFirst(lines: seq<string>)
    ensures forall j | 0 <= j < ScoreLineIndex(lines) :: !MentionsScore(lines[j])
    ensures ScoreLineIndex(lines) < |lines| ==> MentionsScore(lines[ScoreLineIndex(lines)])
  {
    if lines != [] && !MentionsScore(lines[0]) {
      ScoreLineIndexFirst(lines[1..]);
    }
  }

  /**
   * The decimal spelling of the score is the selected line's digits, in
   * order, without leading zeros: every digit of the line is kept.
   */
  lemma {:induction false} ScoreSpelling(reply: string)
    ensures DecimalString(ExtractScore(reply)) == TrimLeadingZeros(DigitsOf(SelectScoreLine(reply)))
  {
    DecimalSpelling(DigitsOf(SelectScoreLine(reply)));
  }

  /** The selected line is the first line of the reply that holds a digit. */
  lemma {:induction false} SelectsFirstDigitLine(reply: string, k: nat)
    requires k < |Lines(reply)| && HasDigit(Lines(reply)[k])
    requires forall j | 0 <= j < k :: !HasDigit(Lines(reply)[j])
    ensures SelectScoreLine(reply) == Lines(reply)[k]
  {
    var lines := Lines(reply);
    MentionsScoreIffHasDigit(lines[k]);
    forall j | 0 <= j < k ensures !MentionsScore(lines[j]) {
      MentionsScoreIffHasDigit(lines[j]);
    }
    var m := ScoreLineIndex(lines);
    ScoreLineIndexFirst(lines);
  }

  /** When no line of the reply holds a digit the fallback line is selected. */
  lemma {:induction false} SelectsFallback(reply: string)
    requires forall j | 0 <= j < |Lines(reply)| :: !HasDigit(Lines(reply)[j])
    ensures SelectScoreLine(reply) == FallbackLine
  {
    var lines := Lines(reply);
    var m := ScoreLineIndex(lines);
    ScoreLineIndexFirst(lines);
    if m < |lines| {
      MentionsScoreIffHasDigit(lines[m]);
    }
  }

  /** A reply in which no line holds a digit scores 0. */
  lemma {:induction false} FallbackScoresZero(reply: string)
    requires forall j | 0 <= j < |Lines(reply)| :: !HasDigit(Lines(reply)[j])
    ensures ExtractScore(reply) == 0
  {
    SelectsFallback(reply);
    FallbackDigits();
    ScoreIsDigitValue(reply);
  }

  /** The only digit of the fallback line is its '0'. */
  lemma {:induction false} FallbackDigits()
    ensures DigitsOf(FallbackLine) == "0" && DecimalValue("0") == 0
  {
    var tag, zero := "Score: ", "0";
    assert FallbackLine == tag + zero;
    assert !HasDigit(tag) && AllDigits(zero);
    DigitsOfLabelled(tag, zero);
  }

  /** A digit-free tag followed by digits filters to the digits. */
  lemma {:induction false} DigitsOfLabelled(tag: string, ds: string)
    requires !HasDigit(tag) && AllDigits(ds)
    ensures DigitsOf(tag + ds) == ds
  {
    DigitsOfAppend(tag, ds);
    DigitsOfNoDigits(tag);
    DigitsOfDigits(ds);
  }

  /** In particular, a reply without any digit scores 0. */
  lemma {:induction false} NoDigitScoresZero(reply: string)
    requires !HasDigit(reply)
    ensures ExtractScore(reply) == 0
  {
    LinesAvoid(reply, IsDigit);
    FallbackScoresZero(reply);
  }

  /** The score is the value of the selected line's digits, read in order. */
  lemma {:induction false} ScoreIsDigitValue(reply: string)
    ensures ExtractScore(reply) == DecimalValue(DigitsOf(SelectScoreLine(reply)))
  {
  }

  /**
   * The score is 0 exactly when every digit of the selected line is '0';
   * leading zeros never count.
   */
  lemma {:induction false} ScoreZeroIff(reply: string)
    ensures ExtractScore(reply) == 0
            <==> forall i | 0 <= i < |DigitsOf(SelectScoreLine(reply))| ::
                   DigitsOf(SelectScoreLine(reply))[i] == '0'
  {
    var ds := DigitsOf(SelectScoreLine(reply));
    ScoreIsDigitValue(reply);
    DecimalValueZero(ds);
  }

  /**
   * Every natural number is the score of some reply: the reply made of its
   * decimal spelling. The score is not bounded by 10.
   */
  lemma {:induction false} EveryScoreReachable(n: nat)
    ensures ExtractScore(DecimalString(n)) == n
  {
    var s := DecimalString(n);
    assert NoLineBreak(s);
    SingleLine(s);
    assert IsDigit(s[0]);
    SelectsFirstDigitLine(s, 0);
    DigitsOfDigits(s);
    DecimalValueOfString(n);
  }

  /** A text without digits and without line breaks. */
  predicate Plain(s: string) {
    !HasDigit(s) && NoLineBreak(s)
  }

  /** A single line that holds a digit is the line selected, and its digits give the score. */
  lemma {:induction false} SingleLineScore(line: string)
    requires NoLineBreak(line) && HasDigit(line)
    ensures ExtractScore(line) == DecimalValue(DigitsOf(line))
  {
    SingleLine(line);
    SelectsFirstDigitLine(line, 0);
  }

  /** Digits and plain text joined hold no line break. */
  lemma {:induction false} NoLineBreakJoin(pre: string, a: string, mid: string, b: string, post: string)
    requires Plain(pre) && Plain(mid) && Plain(post) && AllDigits(a) && AllDigits(b)
    ensures NoLineBreak(pre + a + mid + b + post)
  {
    DigitsNoLineBreak(a);
    DigitsNoLineBreak(b);
    NoLineBreakAppend(pre, a);
    NoLineBreakAppend(pre + a, mid);
    NoLineBreakAppend(pre + a + mid, b);
    NoLineBreakAppend(pre + a + mid + b, post);
  }

  /** A digit is not a line break. */
  lemma {:induction false} DigitsNoLineBreak(ds: string)
    requires AllDigits(ds)
    ensures NoLineBreak(ds)
  {
    forall i | 0 <= i < |ds| ensures !IsLineBreak(ds[i]) {
      assert IsDigit(ds[i]);
    }
  }

  /** The digits of digit strings separated by plain text are the digit strings, joined. */
  lemma {:induction false} DigitsOfJoin(pre: string, a: string, mid: string, b: string, post: string)
    requires Plain(pre) && Plain(mid) && Plain(post) && AllDigits(a) && AllDigits(b)
    ensures DigitsOf(pre + a + mid + b + post) == a + b
  {
    DigitsOfNoDigits(pre);
    DigitsOfNoDigits(mid);
    DigitsOfNoDigits(post);
    DigitsOfDigits(a);
    DigitsOfDigits(b);
    DigitsOfAppend(pre, a);
    assert DigitsOf(pre + a) == a;
    DigitsOfAppend(pre + a, mid);
    assert DigitsOf(pre + a + mid) == a;
    DigitsOfAppend(pre + a + mid, b);
    assert DigitsOf(pre + a + mid + b) == a + b;
    DigitsOfAppend(pre + a + mid + b, post);
  }

  /**
   * A line that reads "x out of y" with no other digit scores the
   * concatenation of the two numerals, x * 10^(digits of y) + y, not x.
   */
  lemma {:induction false} OutOfScore(pre: string, x: nat, mid: string, y: nat, post: string)
    requires Plain(pre) && Plain(mid) && Plain(post)
    ensures ExtractScore(pre + DecimalString(x) + mid + DecimalString(y) + post)
            == x * Pow10(|DecimalString(y)|) + y
  {
    var sx, sy := DecimalString(x), DecimalString(y);
    var line := pre + sx + mid + sy + post;
    NoLineBreakJoin(pre, sx, mid, sy, post);
    DigitsOfJoin(pre, sx, mid, sy, post);
    SingleLineScore(line);
    DecimalValueAppend(sx, sy);
    DecimalValueOfString(x);
    DecimalValueOfString(y);
  }

  lemma {:induction false} SevenOutOfTenParts()
    ensures Plain("Score: ") && Plain(" out of ") && Plain(".")
  {
  }

  lemma {:induction false} SevenOutOfTenNumerals()
    ensures DecimalString(7) == "7" && DecimalString(10) == "10" && Pow10(2) == 100
  {
  }

  lemma {:induction false} SevenOutOfTenText()
    ensures "Score: " + "7" + " out of " + "10" + "." == "Score: 7 out of 10."
  {
  }

  /** "Score: 7 out of 10." scores 710, not 7. */
  lemma {:induction false} SevenOutOfTenScores710()
    ensures ExtractScore("Score: 7 out of 10.") == 710
  {
    SevenOutOfTenParts();
    SevenOutOfTenNumerals();
    SevenOutOfTenText();
    OutOfScore("Score: ", 7, " out of ", 10, ".");
  }

  /** Leading zeros in a line do not count: the line reads as the number after them. */
  lemma {:induction false} LeadingZerosScore(pre: string, k: nat, n: nat, post: string)
    requires Plain(pre) && Plain(post)
    ensures ExtractScore(pre + Zeros(k) + DecimalString(n) + post) == n
  {
    var z, sn := Zeros(k), DecimalString(n);
    assert pre + z + [] + sn + post == pre + z + sn + post;
    NoLineBreakJoin(pre, z, [], sn, post);
    DigitsOfJoin(pre, z, [], sn, post);
    SingleLineScore(pre + z + sn + post);
    LeadingZerosIgnored(k, sn);
    DecimalValueOfString(n);
  }

  /**
   * Once a line holds a digit, nothing after its line break counts: the
   * reply scores as that line alone.
   */
  lemma {:induction false} LaterLinesIgnored(first: string, brk: char, rest: string)
    requires NoLineBreak(first) && HasDigit(first)
    requires IsLineBreak(brk)
    ensures ExtractScore(first + [brk] + rest) == ExtractScore(first)
  {
    var reply := first + [brk] + rest;
    LineEndUnique(reply, |first|);
    LinesStep(reply);
    assert reply[..|first|] == first;
    SelectsFirstDigitLine(reply, 0);
    SingleLineScore(first);
  }
}
