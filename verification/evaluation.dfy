/**
 * The evaluation loop `evaluate_content` (app.py, lines 92-104): for every
 * principle of the catalog, in order, build a prompt from the content and the
 * principle's instruction, ask the language model for a reply, read a score
 * from the reply and record the principle's title, the score and the
 * stripped reply.
 *
 * The language model is a parameter: a function from a prompt and a token
 * budget to the generated text.
 */
module Evaluation {
  import opened Decimal
  import opened Text
  import opened Scoring
  import opened Catalog

  /** The text-generation pipeline: prompt and `max_new_tokens` to `generated_text`. */
  type Generator = (string, nat) -> string

  /** The `max_new_tokens` of every generation request. */
  const MaxNewTokens: nat := 256

  const ContentHeader: string := "Content:\n"
  const InstructionHeader: string := "\n\nInstruction:\n"

  /**
   * The prompt sent for one principle: a "Content:" header line, the
   * content, a blank line, an "Instruction:" header line and the
   * instruction.
   */
  function BuildPrompt(content: string, instruction: string): (prompt: string)
    ensures |prompt| == |ContentHeader| + |content| + |InstructionHeader| + |instruction|
    ensures prompt[..|ContentHeader|] == ContentHeader
    ensures prompt[|ContentHeader|..|ContentHeader| + |content|] == content
    ensures prompt[|ContentHeader| + |content|..|prompt| - |instruction|] == InstructionHeader
    ensures prompt[|prompt| - |instruction|..] == instruction
  {
    var prompt := ContentHeader + content + InstructionHeader + instruction;
    assert prompt == ContentHeader + (content + (InstructionHeader + instruction));
    prompt
  }

  /** The generated text for one principle. */
  function Reply(content: string, gen: Generator, p: Principle): string {
    gen(BuildPrompt(content, p.prompt), MaxNewTokens)
  }

  /** One row of the result: the principle's title, the score and the explanation. */
  datatype EvaluationResult = EvaluationResult(principle: string, score: nat, explanation: string)

  /**
   * One pass of the loop body: the prompt for the principle, the reply to
   * it, and the row recorded from that one reply.
   */
  function Evaluate(content: string, gen: Generator, p: Principle): (r: EvaluationResult)
  {
    var reply := Reply(content, gen, p);
    EvaluationResult(p.title, ExtractScore(reply), Strip(reply))
  }

  /**
   * `evaluate_content(content)`: one result per principle of the catalog, in
   * catalog order; the title is the principle's, and the score and the
   * explanation both come from the one reply generated for that principle.
   */
  method EvaluateContent(content: string, gen: Generator) returns (results: seq<EvaluationResult>)
    ensures |results| == |Principles|
    ensures forall i | 0 <= i < |results| ::
              results[i].principle == Principles[i].title
              && results[i].score == ExtractScore(Reply(content, gen, Principles[i]))
              && results[i].explanation == Strip(Reply(content, gen, Principles[i]))
  {
    results := EvaluateEach(Principles, p => Evaluate(content, gen, p));
  }

  /** The loop of `evaluate_content`: the rows for the given principles, in order. */
  method EvaluateEach(principles: seq<Principle>, evaluate: Principle -> EvaluationResult)
    returns (results: seq<EvaluationResult>)
    ensures |results| == |principles|
    ensures forall i | 0 <= i < |results| :: results[i] == evaluate(principles[i])
  {
    results := [];
    for k := 0 to |principles|
      invariant |results| == k
      invariant forall i | 0 <= i < k :: results[i] == evaluate(principles[i])
    {
      results := results + [evaluate(principles[k])];
    }
  }

  // ---------------------------------------------------------------------
  // A model that echoes its prompt

  /**
   * A generator whose generated text starts with the prompt itself, as a
   * text-generation pipeline does when it returns the full text.
   */
  ghost predicate EchoesPrompt(gen: Generator) {
    forall prompt: string, n: nat ::
      |prompt| <= |gen(prompt, n)| && gen(prompt, n)[..|prompt|] == prompt
  }

  lemma {:induction false} HeadersDigitFree()
    ensures !HasDigit(ContentHeader) && !HasDigit(InstructionHeader)
    ensures InstructionHeader[|InstructionHeader| - 1] == '\n'
  {
  }

  lemma {:induction false} TenValue()
    ensures DecimalValue("10") == 10 && DecimalString(10) == "10"
  {
    DecimalValueSnoc("1", '0');
    assert "1" + ['0'] == "10";
  }

  /**
   * The lines of the prompt before the instruction hold no digit, and the
   * instruction starts a line of its own.
   */
  lemma {:induction false} HeadLines(content: string, rest: string)
    requires !HasDigit(content)
    ensures Lines(ContentHeader + content + InstructionHeader + rest)
            == Lines(ContentHeader + content + InstructionHeader) + Lines(rest)
    ensures forall j | 0 <= j < |Lines(ContentHeader + content + InstructionHeader)| ::
              !HasDigit(Lines(ContentHeader + content + InstructionHeader)[j])
  {
    var head := ContentHeader + content + InstructionHeader;
    HeadersDigitFree();
    DigitsOfAppend(ContentHeader + content, InstructionHeader);
    DigitsOfAppend(ContentHeader, content);
    assert !HasDigit(head);
    LinesAvoid(head, IsDigit);
    assert head[|head| - 1] == InstructionHeader[|InstructionHeader| - 1];
    LinesAppend(head, rest);
  }

  /** A plain question followed by the rating request is one line with the digits "010". */
  lemma {:induction false} InstructionDigits(question: string)
    requires Plain(question)
    ensures NoLineBreak(question + RateRequest) && DigitsOf(question + RateRequest) == "010"
  {
    RateRequestDigits();
    NoLineBreakAppend(question, RateRequest);
    DigitsOfAppend(question, RateRequest);
    DigitsOfNoDigits(question);
  }

  /**
   * The line selected from the echoed reply is the instruction's line,
   * completed by the first line of the continuation.
   */
  lemma {:induction false} EchoedScoreLine(content: string, question: string, cont: string)
    requires !HasDigit(content) && Plain(question)
    ensures SelectScoreLine(BuildPrompt(content, question + RateRequest) + cont)
            == question + RateRequest + cont[..LineEnd(cont)]
  {
    var head := ContentHeader + content + InstructionHeader;
    var asked := question + RateRequest;
    var rest := asked + cont;
    var reply := BuildPrompt(content, asked) + cont;
    assert reply == head + rest;
    HeadLines(content, rest);
    var k := |Lines(head)|;
    forall j | 0 <= j < k ensures !HasDigit(Lines(reply)[j]) {
      assert Lines(reply)[j] == Lines(head)[j];
    }
    InstructionDigits(question);
    FirstLineOfAppend(asked, cont);
    var line := asked + cont[..LineEnd(cont)];
    assert Lines(reply)[k] == line;
    DigitsOfAppend(asked, cont[..LineEnd(cont)]);
    assert HasDigit(line);
    SelectsFirstDigitLine(reply, k);
  }

  /** The '0' of the scale, in front of "10", does not count. */
  lemma {:induction false} ScaleLeadingZero(d: string)
    requires AllDigits(d)
    ensures AllDigits("10" + d) && ("10" + d)[0] == '1'
    ensures DecimalValue("010" + d) == DecimalValue("10" + d)
  {
    var t := "10" + d;
    assert t[0] == '1' && t[1] == '0';
    assert forall i | 2 <= i < |t| :: t[i] == d[i - 2];
    assert Zeros(1) == "0";
    assert "010" + d == "0" + t;
    LeadingZerosIgnored(1, t);
  }

  /**
   * When the reply is the prompt followed by some continuation, the content
   * has no digit and the instruction is a plain question followed by the
   * rating request, the score is spelt "10" followed by the digits of the
   * first line of the continuation.
   */
  lemma {:induction false} EchoedScore(content: string, question: string, cont: string)
    requires !HasDigit(content) && Plain(question)
    ensures DecimalString(ExtractScore(BuildPrompt(content, question + RateRequest) + cont))
            == "10" + DigitsOf(cont[..LineEnd(cont)])
  {
    var reply := BuildPrompt(content, question + RateRequest) + cont;
    var tail := cont[..LineEnd(cont)];
    EchoedScoreLine(content, question, cont);
    var d := DigitsOf(tail);
    InstructionDigits(question);
    DigitsOfAppend(question + RateRequest, tail);
    assert DigitsOf(SelectScoreLine(reply)) == "010" + d;
    ScoreIsDigitValue(reply);
    ScaleLeadingZero(d);
    DecimalStringOfValue("10" + d);
  }

  /**
   * Under the same conditions the score is at least 10, and exactly 10 when
   * the first line of the continuation holds no digit.
   */
  lemma {:induction false} EchoedScoreAtLeastTen(content: string, question: string, cont: string)
    requires !HasDigit(content) && Plain(question)
    ensures ExtractScore(BuildPrompt(content, question + RateRequest) + cont) >= 10
    ensures ExtractScore(BuildPrompt(content, question + RateRequest) + cont) == 10
            <==> !HasDigit(cont[..LineEnd(cont)])
  {
    var score := ExtractScore(BuildPrompt(content, question + RateRequest) + cont);
    EchoedScore(content, question, cont);
    var d := DigitsOf(cont[..LineEnd(cont)]);
    assert |DecimalString(score)| >= 2;
    TenValue();
    if d == [] {
      assert DecimalString(score) == "10";
      DecimalValueOfString(score);
    }
  }

  /**
   * With a generator that echoes its prompt and content without digits, a
   * principle whose instruction ends with the rating request scores at
   * least 10.
   */
  lemma {:induction false} EchoedRatedScore(content: string, gen: Generator, p: Principle)
    requires EchoesPrompt(gen) && !HasDigit(content) && RatedInstruction(p.prompt)
    ensures ExtractScore(Reply(content, gen, p)) >= 10
  {
    var instruction := p.prompt;
    var question := instruction[..|instruction| - |RateRequest|];
    assert instruction == question + RateRequest;
    var prompt := BuildPrompt(content, instruction);
    var reply := gen(prompt, MaxNewTokens);
    assert reply == prompt + reply[|prompt|..];
    EchoedScoreAtLeastTen(content, question, reply[|prompt|..]);
  }

  /**
   * Hence, with such a generator and content without digits, every
   * principle of the catalog scores at least 10.
   */
  lemma {:induction false} CatalogScoresUnderEcho(content: string, gen: Generator, i: nat)
    requires EchoesPrompt(gen) && !HasDigit(content) && i < |Principles|
    ensures ExtractScore(Reply(content, gen, Principles[i])) >= 10
  {
    CatalogInstructionRated(i);
    EchoedRatedScore(content, gen, Principles[i]);
  }
}
