# AI Search Optimization Evaluator: the scoring core

The evaluator is a Streamlit application. It asks a local text-generation
model to rate a page's content against eight principles of AI-search
readiness, such as chunk-level retrieval, citation-worthiness and AI
crawlability. This project models the part of the application that turns
content into scores:

- the catalog of principles: a title, a description and an instruction each;
- the prompt built for every principle: a `Content:` header, the content, a
  blank line, an `Instruction:` header and the instruction;
- the generation request, with a budget of 256 new tokens;
- the score-line rule: the first line of the reply (as `str.splitlines`
  splits it) that mentions one of the numbers 0 to 10, or the fallback line
  `Score: 0` when no line does;
- the score rule: every digit of that line, concatenated and read as a
  number;
- the result row: the principle's title, the score, and the reply with its
  surrounding whitespace stripped.

The model keeps the rules as written, with two exceptions, both listed under
"## Left out": only the ASCII digits '0' to '9' count as digits, and the
limit on the length of the digit strings that `int()` accepts is not
modelled. In what follows, "digit" means an ASCII digit. The model also
proves what follows from the rules:

- a line mentions a number from 0 to 10 exactly when it holds a digit;
- the line `Score: 7 out of 10.` scores 710, not 7;
- scores are not bounded by 10;
- leading zeros are not counted;
- a reply without digits scores 0.

A text-generation pipeline echoes the prompt at the start of its reply. Every
instruction in the catalog ends with `Rate 0-10 and explain.`, so with content
that has no digit, the line selected is always the instruction line. The
score is then spelt `10` followed by the digits of the rest of that line. So
every principle scores at least 10, and exactly 10 when the model starts its
own text on a new line.

Modules:

- `Decimal`: ASCII digits, `str(n)`, `int(ds)` and the digit filter;
- `Text`: `str.splitlines`, `str.strip` and substring search;
- `Scoring`: the score-line and score rules;
- `Catalog`: the eight principles;
- `Evaluation`: the prompt, the evaluation loop and what an echoing model
  implies.

The language model is a parameter `gen: (string, nat) -> string`. It maps a
prompt and a token budget to the generated text.

## Model

| member | source | states |
|---|---|---|
| Decimal.HasDigit | app.py:98 | some character is a digit; DigitsOf states that it holds exactly when the digit filter is non-empty |
| Decimal.DigitsOf | app.py:98 | the filtered digits are all digits, no more than the line's characters, and non-empty exactly when the line holds a digit |
| Decimal.DigitsOfAppend | app.py:98 | filtering digits distributes over concatenation |
| Decimal.DigitsOfDigits | app.py:98 | a string of digits filters to itself |
| Decimal.DecimalValue | app.py:98 | `int(ds)` of k digits is below 10^k |
| Decimal.DecimalString | app.py:97 | `str(n)` is a non-empty digit string with no leading zero, starting with '0' only for 0 |
| Decimal.DecimalValueAppend | app.py:98 | `int(a + b) == int(a) * 10^len(b) + int(b)` |
| Decimal.DecimalValueZero | app.py:98 | a digit string reads as 0 exactly when all its digits are '0' |
| Decimal.LeadingZerosIgnored | app.py:98 | leading zeros do not change the value `int` reads |
| Decimal.DecimalValueOfString | app.py:97-98 | `int(str(n)) == n` |
| Decimal.DecimalStringOfValue | app.py:97-98 | `str(int(ds)) == ds` for digit strings without a leading zero |
| Decimal.DecimalSpelling | app.py:98 | the number read from a digit string is spelt as that string without its leading zeros |
| Text.Contains | app.py:97 | `needle in hay`: the needle occurs at some index; Scoring.MentionsScoreIffHasDigit states what it means for the needles `str(0)`..`str(10)` |
| Text.Lines | app.py:97 | `str.splitlines()`; Text.LinesKeepText, Text.LineHasNoBreak, Text.SingleLine, Text.FirstLineOfAppend and Text.LinesAppend state what it produces |
| Text.LineEndUnique | app.py:97 | the end of the first line is the first line break, and nothing else |
| Text.LinesKeepText | app.py:97 | the lines of a text, joined, are the text without its line-break characters |
| Text.LineHasNoBreak | app.py:97 | no line produced by `splitlines` holds a line break |
| Text.SingleLine | app.py:97 | a non-empty text without line breaks is one line |
| Text.FirstLineOfAppend | app.py:97 | a line-break-free prefix begins the first line, and that line runs on to the first break of what follows |
| Text.LinesAppend | app.py:97 | after a text ending in a line break (not a lone '\r'), the lines of what follows are simply appended |
| Text.LinesAvoid | app.py:97 | every line of a text is free of any character class the text is free of |
| Text.RemoveLineBreaksNone | app.py:97 | removing line breaks leaves a break-free text unchanged |
| Text.Strip | app.py:102 | `strip()` is no longer than its input, and neither starts nor ends with whitespace |
| Text.StripRemovesSpace | app.py:102 | what `strip()` keeps is a slice of the reply between an all-whitespace prefix and an all-whitespace suffix |
| Text.StripUnchanged | app.py:102 | a text with non-whitespace ends is left as it is |
| Text.StripIdempotent | app.py:102 | stripping twice is stripping once |
| Text.StripAllSpace | app.py:102 | an all-whitespace reply strips to the empty string |
| Scoring.MentionsScore | app.py:97 | the line contains the decimal spelling of some number from 0 to 10; Scoring.MentionsScoreIffHasDigit states that it holds exactly when the line has a digit |
| Scoring.MentionsScoreIffHasDigit | app.py:97 | a line contains one of `str(0)`..`str(10)` exactly when it holds a digit |
| Scoring.ScoreLineIndexFirst | app.py:97 | the chosen index is the first line that mentions a score, and no earlier line mentions one |
| Scoring.SelectScoreLine | app.py:97 | the selected line always holds a digit, so the `else 0` of the score rule never applies |
| Scoring.SelectsFirstDigitLine | app.py:97 | the selected line is the first line of the reply that holds a digit |
| Scoring.SelectsFallback | app.py:97 | when no line holds a digit, `Score: 0` is selected |
| Scoring.FallbackScoresZero | app.py:97-98 | a reply in which no line holds a digit scores 0 |
| Scoring.NoDigitScoresZero | app.py:97-98 | a reply without digits scores 0 |
| Scoring.ExtractScore | app.py:98 | the score is never negative |
| Scoring.ScoreSpelling | app.py:97-98 | the score is spelt with every digit of the selected line, in order, less the leading zeros |
| Scoring.ScoreZeroIff | app.py:97-98 | the score is 0 exactly when every digit of the selected line is '0' |
| Scoring.EveryScoreReachable | app.py:97-98 | a reply that is just `str(n)` scores n, so scores are not bounded by 10 |
| Scoring.SingleLineScore | app.py:97-98 | a one-line reply with a digit scores the value of its digits |
| Scoring.OutOfScore | app.py:97-98 | a line "x ... y" (plain text around two numbers) scores x * 10^len(str(y)) + y, not x |
| Scoring.SevenOutOfTenScores710 | app.py:97-98 | the reply `Score: 7 out of 10.` scores 710 |
| Scoring.LeadingZerosScore | app.py:97-98 | zeros in front of `str(n)` on a plain line leave the score n |
| Scoring.LaterLinesIgnored | app.py:97-98 | once a line holds a digit, nothing after its line break changes the score |
| Catalog.RateRequestDigits | app.py:22 | the closing request `Rate 0-10 and explain.` is one line whose digits are "010" |
| Catalog.ChunkLevelRetrievalRated | app.py:19-23 | this instruction is a plain single-line question followed by the rating request |
| Catalog.AnswerSynthesisOptimizationRated | app.py:24-28 | likewise |
| Catalog.CitationWorthinessRated | app.py:29-33 | likewise |
| Catalog.TopicalBreadthDepthRated | app.py:34-38 | likewise |
| Catalog.MultiModalSupportRated | app.py:39-43 | likewise |
| Catalog.AuthoritativenessSignalsRated | app.py:44-48 | likewise |
| Catalog.PersonalizationResilienceRated | app.py:49-53 | likewise |
| Catalog.AiCrawlabilityRated | app.py:54-58 | likewise |
| Catalog.CatalogTitlesDistinct | app.py:18-59 | the catalog `principles` holds eight entries with pairwise distinct titles |
| Catalog.CatalogInstructionRated | app.py:18-59 | every instruction in the catalog is a digit-free single-line question followed by `Rate 0-10 and explain.` |
| Evaluation.BuildPrompt | app.py:95 | the prompt is the `Content:` header, then the content, then the blank line and the `Instruction:` header, then the instruction, and nothing else |
| Evaluation.Reply | app.py:96 | the generated text for the prompt of one principle, with 256 new tokens; the Echoed lemmas below state what follows when the generator echoes its prompt |
| Evaluation.Evaluate | app.py:95-103 | one pass of the loop body, the row built from one reply; Evaluation.EvaluateContent states the fields of each row |
| Evaluation.EvaluateEach | app.py:94-103 | the loop yields one row per principle, in order, each the row for that principle |
| Evaluation.EvaluateContent | app.py:92-104 | one row per catalog principle, in catalog order: row i carries principle i's title, and both its score and its explanation come from the one reply generated for that principle's prompt with 256 new tokens |
| Evaluation.EchoedScoreLine | app.py:95-97 | if the reply echoes a prompt whose content has no digit, the selected line is the instruction line plus the first line of the model's own text |
| Evaluation.EchoedScore | app.py:95-98 | under that echo, the score is spelt `10` followed by the digits of the first line of the model's own text |
| Evaluation.EchoedScoreAtLeastTen | app.py:95-98 | under that echo the score is at least 10, and exactly 10 when that first line holds no digit |
| Evaluation.EchoedRatedScore | app.py:95-98 | with an echoing generator and digit-free content, any instruction ending in the rating request scores at least 10 |
| Evaluation.CatalogScoresUnderEcho | app.py:18-59 | with an echoing generator and digit-free content, every principle of the catalog scores at least 10 |

## Left out

- The Streamlit interface (app.py:8, 76-89, 106-121) and the page layout are user interface, not computation.
- The float average shown as the overall score (app.py:122-123) is left out, because floating point is not modelled.
- `pandas.DataFrame` display (app.py:110-113) only formats results.
- `load_model` (app.py:11-15) is not part of this model. The model it loads is the parameter `gen`: a deterministic function of the prompt and the token budget. Sampling randomness, device placement and the `[0]['generated_text']` unwrapping are not modelled.
- Exceptions raised by the generator are not modelled. In the source they would propagate out of `evaluate_content`.
- `scrape_url` (app.py:62-73) is not part of this model. It fetches over the network, and its text, or its error message, only reaches the core as the `content` string.
- Decimal.DecimalValue: `int()` on a digit string longer than 4300 characters raises ValueError in Python 3.11 and later, and in the 2022 security releases of 3.7 to 3.10 (the default `sys.int_max_str_digits`). That exception would end `evaluate_content`. The model reads digit strings of any length.
- Scoring.EveryScoreReachable: for a number with more than 4300 digits, the source raises instead of scoring it, because of that limit on `int()`. The same limit bounds Scoring.OutOfScore and Scoring.LeadingZerosScore: they hold in the source only while the selected line has at most 4300 digits.
- Decimal.DigitsOf: `str.isdigit` is modelled on the ASCII digits '0'..'9' only. Python also accepts other Unicode digits, which `int` may then reject or read differently.
- Evaluation.EvaluateContent: the loop is written as a map of one pure evaluation step over the catalog. Generation is a pure function, so the order of calls to the model is not observable here.
