/**
 * The catalog of evaluation principles (app.py, lines 18-59): eight
 * principles, each with a title, a one-line description and the instruction
 * given to the language model. Every instruction ends with the same request,
 * "Rate 0-10 and explain."; the catalog below writes each instruction as its
 * own question followed by that request, which spells the same strings.
 */
module Catalog {
  import opened Decimal
  import opened Text
  import opened Scoring

  datatype Principle = Principle(title: string, description: string, prompt: string)

  /** The request that closes every instruction of the catalog. */
  const RateRequest: string := "Rate 0-10 and explain."

  const ChunkLevelRetrievalQuestion: string :=
    "Analyze if the "
    + "content contains "
    + "semantically "
    + "complete chunks "
    + "that are "
    + "self-contained and "
    + "independently "
    + "understandable. "
    + "Does each section "
    + "focus on a single "
    + "idea? "

  const AnswerSynthesisOptimizationQuestion: string :=
    "Evaluate if the "
    + "content is "
    + "structured with a "
    + "summary followed by "
    + "elaboration, plain "
    + "tone, and Q&A "
    + "format. "

  const CitationWorthinessQuestion: string :=
    "Check if content "
    + "includes citations, "
    + "author credentials, "
    + "accurate claims, "
    + "and timestamps. "

  const TopicalBreadthDepthQuestion: string :=
    "Assess if the "
    + "content follows a "
    + "pillar-and-cluster "
    + "approach, linking "
    + "to detailed "
    + "subtopics. "

  const MultiModalSupportQuestion: string :=
    "Evaluate if the "
    + "content uses HTML "
    + "tables, descriptive "
    + "alt text, <figure> "
    + "markup, and "
    + "captions for "
    + "images. "

  const AuthoritativenessSignalsQuestion: string :=
    "Check for expert "
    + "bylines, original "
    + "data, external "
    + "mentions, "
    + "structured "
    + "metadata, and "
    + "citations. "

  const PersonalizationResilienceQuestion: string :=
    "Analyze if content "
    + "targets multiple "
    + "personas, intents, "
    + "and locales with "
    + "segmented sections. "

  const AiCrawlabilityQuestion: string :=
    "Evaluate if content "
    + "is server-rendered, "
    + "allows AI bots via "
    + "robots.txt, and "
    + "avoids "
    + "noindex/nosnippet. "

  const ChunkLevelRetrieval: Principle := Principle(
    "Chunk-Level Retrieval",
    "Is each section self-contained and focused on one topic?",
    ChunkLevelRetrievalQuestion + RateRequest)

  const AnswerSynthesisOptimization: Principle := Principle(
    "Answer Synthesis Optimization",
    "Is the answer easy to extract and fit into multi-source AI answers?",
    AnswerSynthesisOptimizationQuestion + RateRequest)

  const CitationWorthiness: Principle := Principle(
    "Citation-Worthiness",
    "Does the content look trustworthy and fact-based?",
    CitationWorthinessQuestion + RateRequest)

  const TopicalBreadthDepth: Principle := Principle(
    "Topical Breadth & Depth",
    "Does the site use hub-cluster model to fully cover a topic?",
    TopicalBreadthDepthQuestion + RateRequest)

  const MultiModalSupport: Principle := Principle(
    "Multi-Modal Support",
    "Are visuals and tables machine-readable and helpful?",
    MultiModalSupportQuestion + RateRequest)

  const AuthoritativenessSignals: Principle := Principle(
    "Authoritativeness Signals",
    "Is there clear EEAT (expertise, authority, trust) in the content?",
    AuthoritativenessSignalsQuestion + RateRequest)

  const PersonalizationResilience: Principle := Principle(
    "Personalization Resilience",
    "Does the content serve diverse intents, personas, or regions?",
    PersonalizationResilienceQuestion + RateRequest)

  const AiCrawlability: Principle := Principle(
    "AI Crawlability & Indexability",
    "Is the content accessible and indexable by AI bots?",
    AiCrawlabilityQuestion + RateRequest)

  /** `principles`, in the order in which they are evaluated. */
  const Principles: seq<Principle> := [
    ChunkLevelRetrieval,
    AnswerSynthesisOptimization,
    CitationWorthiness,
    TopicalBreadthDepth,
    MultiModalSupport,
    AuthoritativenessSignals,
    PersonalizationResilience,
    AiCrawlability
  ]

  /**
   * An instruction that asks one digit-free question on a single line and
   * then makes the rating request.
   */
  predicate RatedInstruction(prompt: string) {
    |prompt| >= |RateRequest|
    && prompt[|prompt| - |RateRequest|..] == RateRequest
    && Plain(prompt[..|prompt| - |RateRequest|])
  }

  lemma {:induction false} PlainJoin(a: string, b: string)
    requires Plain(a) && Plain(b)
    ensures Plain(a + b)
  {
    NoLineBreakAppend(a, b);
    DigitsOfAppend(a, b);
    DigitsOfNoDigits(a);
    DigitsOfNoDigits(b);
  }

  lemma {:induction false} RatedOf(question: string)
    requires Plain(question)
    ensures RatedInstruction(question + RateRequest)
  {
    var p := question + RateRequest;
    assert p[..|question|] == question;
    assert p[|question|..] == RateRequest;
  }

  lemma {:induction false} ChunkLevelRetrievalPiece0()
    ensures Plain("Analyze if the ")
  {
  }

  lemma {:induction false} ChunkLevelRetrievalPiece1()
    ensures Plain("content contains ")
  {
  }

  lemma {:induction false} ChunkLevelRetrievalPiece2()
    ensures Plain("semantically ")
  {
  }

  lemma {:induction false} ChunkLevelRetrievalPiece3()
    ensures Plain("complete chunks ")
  {
  }

  lemma {:induction false} ChunkLevelRetrievalPiece4()
    ensures Plain("that are ")
  {
  }

  lemma {:induction false} ChunkLevelRetrievalPiece5()
    ensures Plain("self-contained and ")
  {
  }

  lemma {:induction false} ChunkLevelRetrievalPiece6()
    ensures Plain("independently ")
  {
  }

  lemma {:induction false} ChunkLevelRetrievalPiece7()
    ensures Plain("understandable. ")
  {
  }

  lemma {:induction false} ChunkLevelRetrievalPiece8()
    ensures Plain("Does each section ")
  {
  }

  lemma {:induction false} ChunkLevelRetrievalPiece9()
    ensures Plain("focus on a single ")
  {
  }

  lemma {:induction false} ChunkLevelRetrievalPiece10()
    ensures Plain("idea? ")
  {
  }

  lemma {:induction false} ChunkLevelRetrievalPlain()
    ensures Plain(ChunkLevelRetrievalQuestion)
  {
    ChunkLevelRetrievalPiece0();
    ChunkLevelRetrievalPiece1();
    ChunkLevelRetrievalPiece2();
    ChunkLevelRetrievalPiece3();
    ChunkLevelRetrievalPiece4();
    ChunkLevelRetrievalPiece5();
    ChunkLevelRetrievalPiece6();
    ChunkLevelRetrievalPiece7();
    ChunkLevelRetrievalPiece8();
    ChunkLevelRetrievalPiece9();
    ChunkLevelRetrievalPiece10();
    PlainJoin("Analyze if the ", "content contains ");
    PlainJoin("Analyze if the " + "content contains ", "semantically ");
    PlainJoin("Analyze if the " + "content contains " + "semantically ", "complete chunks ");
    PlainJoin("Analyze if the " + "content contains " + "semantically " + "complete chunks ", "that are ");
    PlainJoin("Analyze if the " + "content contains " + "semantically " + "complete chunks " + "that are ", "self-contained and ");
    PlainJoin("Analyze if the " + "content contains " + "semantically " + "complete chunks " + "that are " + "self-contained and ", "independently ");
    PlainJoin("Analyze if the " + "content contains " + "semantically " + "complete chunks " + "that are " + "self-contained and " + "independently ", "understandable. ");
    PlainJoin("Analyze if the " + "content contains " + "semantically " + "complete chunks " + "that are " + "self-contained and " + "independently " + "understandable. ", "Does each section ");
    PlainJoin("Analyze if the " + "content contains " + "semantically " + "complete chunks " + "that are " + "self-contained and " + "independently " + "understandable. " + "Does each section ", "focus on a single ");
    PlainJoin("Analyze if the " + "content contains " + "semantically " + "complete chunks " + "that are " + "self-contained and " + "independently " + "understandable. " + "Does each section " + "focus on a single ", "idea? ");
  }

  lemma {:induction false} ChunkLevelRetrievalRated()
    ensures RatedInstruction(ChunkLevelRetrieval.prompt)
  {
    ChunkLevelRetrievalPlain();
    RatedOf(ChunkLevelRetrievalQuestion);
  }

  lemma {:induction false} AnswerSynthesisOptimizationPiece0()
    ensures Plain("Evaluate if the ")
  {
  }

  lemma {:induction false} AnswerSynthesisOptimizationPiece1()
    ensures Plain("content is ")
  {
  }

  lemma {:induction false} AnswerSynthesisOptimizationPiece2()
    ensures Plain("structured with a ")
  {
  }

  lemma {:induction false} AnswerSynthesisOptimizationPiece3()
    ensures Plain("summary followed by ")
  {
  }

  lemma {:induction false} AnswerSynthesisOptimizationPiece4()
    ensures Plain("elaboration, plain ")
  {
  }

  lemma {:induction false} AnswerSynthesisOptimizationPiece5()
    ensures Plain("tone, and Q&A ")
  {
  }

  lemma {:induction false} AnswerSynthesisOptimizationPiece6()
    ensures Plain("format. ")
  {
  }

  lemma {:induction false} AnswerSynthesisOptimizationPlain()
    ensures Plain(AnswerSynthesisOptimizationQuestion)
  {
    AnswerSynthesisOptimizationPiece0();
    AnswerSynthesisOptimizationPiece1();
    AnswerSynthesisOptimizationPiece2();
    AnswerSynthesisOptimizationPiece3();
    AnswerSynthesisOptimizationPiece4();
    AnswerSynthesisOptimizationPiece5();
    AnswerSynthesisOptimizationPiece6();
    PlainJoin("Evaluate if the ", "content is ");
    PlainJoin("Evaluate if the " + "content is ", "structured with a ");
    PlainJoin("Evaluate if the " + "content is " + "structured with a ", "summary followed by ");
    PlainJoin("Evaluate if the " + "content is " + "structured with a " + "summary followed by ", "elaboration, plain ");
    PlainJoin("Evaluate if the " + "content is " + "structured with a " + "summary followed by " + "elaboration, plain ", "tone, and Q&A ");
    PlainJoin("Evaluate if the " + "content is " + "structured with a " + "summary followed by " + "elaboration, plain " + "tone, and Q&A ", "format. ");
  }

  lemma {:induction false} AnswerSynthesisOptimizationRated()
    ensures RatedInstruction(AnswerSynthesisOptimization.prompt)
  {
    AnswerSynthesisOptimizationPlain();
    RatedOf(AnswerSynthesisOptimizationQuestion);
  }

  lemma {:induction false} CitationWorthinessPiece0()
    ensures Plain("Check if content ")
  {
  }

  lemma {:induction false} CitationWorthinessPiece1()
    ensures Plain("includes citations, ")
  {
  }

  lemma {:induction false} CitationWorthinessPiece2()
    ensures Plain("author credentials, ")
  {
  }

  lemma {:induction false} CitationWorthinessPiece3()
    ensures Plain("accurate claims, ")
  {
  }

  lemma {:induction false} CitationWorthinessPiece4()
    ensures Plain("and timestamps. ")
  {
  }

  lemma {:induction false} CitationWorthinessPlain()
    ensures Plain(CitationWorthinessQuestion)
  {
    CitationWorthinessPiece0();
    CitationWorthinessPiece1();
    CitationWorthinessPiece2();
    CitationWorthinessPiece3();
    CitationWorthinessPiece4();
    PlainJoin("Check if content ", "includes citations, ");
    PlainJoin("Check if content " + "includes citations, ", "author credentials, ");
    PlainJoin("Check if content " + "includes citations, " + "author credentials, ", "accurate claims, ");
    PlainJoin("Check if content " + "includes citations, " + "author credentials, " + "accurate claims, ", "and timestamps. ");
  }

  lemma {:induction false} CitationWorthinessRated()
    ensures RatedInstruction(CitationWorthiness.prompt)
  {
    CitationWorthinessPlain();
    RatedOf(CitationWorthinessQuestion);
  }

  lemma {:induction false} TopicalBreadthDepthPiece0()
    ensures Plain("Assess if the ")
  {
  }

  lemma {:induction false} TopicalBreadthDepthPiece1()
    ensures Plain("content follows a ")
  {
  }

  lemma {:induction false} TopicalBreadthDepthPiece2()
    ensures Plain("pillar-and-cluster ")
  {
  }

  lemma {:induction false} TopicalBreadthDepthPiece3()
    ensures Plain("approach, linking ")
  {
  }

  lemma {:induction false} TopicalBreadthDepthPiece4()
    ensures Plain("to detailed ")
  {
  }

  lemma {:induction false} TopicalBreadthDepthPiece5()
    ensures Plain("subtopics. ")
  {
  }

  lemma {:induction false} TopicalBreadthDepthPlain()
    ensures Plain(TopicalBreadthDepthQuestion)
  {
    TopicalBreadthDepthPiece0();
    TopicalBreadthDepthPiece1();
    TopicalBreadthDepthPiece2();
    TopicalBreadthDepthPiece3();
    TopicalBreadthDepthPiece4();
    TopicalBreadthDepthPiece5();
    PlainJoin("Assess if the ", "content follows a ");
    PlainJoin("Assess if the " + "content follows a ", "pillar-and-cluster ");
    PlainJoin("Assess if the " + "content follows a " + "pillar-and-cluster ", "approach, linking ");
    PlainJoin("Assess if the " + "content follows a " + "pillar-and-cluster " + "approach, linking ", "to detailed ");
    PlainJoin("Assess if the " + "content follows a " + "pillar-and-cluster " + "approach, linking " + "to detailed ", "subtopics. ");
  }

  lemma {:induction false} TopicalBreadthDepthRated()
    ensures RatedInstruction(TopicalBreadthDepth.prompt)
  {
    TopicalBreadthDepthPlain();
    RatedOf(TopicalBreadthDepthQuestion);
  }

  lemma {:induction false} MultiModalSupportPiece0()
    ensures Plain("Evaluate if the ")
  {
  }

  lemma {:induction false} MultiModalSupportPiece1()
    ensures Plain("content uses HTML ")
  {
  }

  lemma {:induction false} MultiModalSupportPiece2()
    ensures Plain("tables, descriptive ")
  {
  }

  lemma {:induction false} MultiModalSupportPiece3()
    ensures Plain("alt text, <figure> ")
  {
  }

  lemma {:induction false} MultiModalSupportPiece4()
    ensures Plain("markup, and ")
  {
  }

  lemma {:induction false} MultiModalSupportPiece5()
    ensures Plain("captions for ")
  {
  }

  lemma {:induction false} MultiModalSupportPiece6()
    ensures Plain("images. ")
  {
  }

  lemma {:induction false} MultiModalSupportPlain()
    ensures Plain(MultiModalSupportQuestion)
  {
    MultiModalSupportPiece0();
    MultiModalSupportPiece1();
    MultiModalSupportPiece2();
    MultiModalSupportPiece3();
    MultiModalSupportPiece4();
    MultiModalSupportPiece5();
    MultiModalSupportPiece6();
    PlainJoin("Evaluate if the ", "content uses HTML ");
    PlainJoin("Evaluate if the " + "content uses HTML ", "tables, descriptive ");
    PlainJoin("Evaluate if the " + "content uses HTML " + "tables, descriptive ", "alt text, <figure> ");
    PlainJoin("Evaluate if the " + "content uses HTML " + "tables, descriptive " + "alt text, <figure> ", "markup, and ");
    PlainJoin("Evaluate if the " + "content uses HTML " + "tables, descriptive " + "alt text, <figure> " + "markup, and ", "captions for ");
    PlainJoin("Evaluate if the " + "content uses HTML " + "tables, descriptive " + "alt text, <figure> " + "markup, and " + "captions for ", "images. ");
  }

  lemma {:induction false} MultiModalSupportRated()
    ensures RatedInstruction(MultiModalSupport.prompt)
  {
    MultiModalSupportPlain();
    RatedOf(MultiModalSupportQuestion);
  }

  lemma {:induction false} AuthoritativenessSignalsPiece0()
    ensures Plain("Check for expert ")
  {
  }

  lemma {:induction false} AuthoritativenessSignalsPiece1()
    ensures Plain("bylines, original ")
  {
  }

  lemma {:induction false} AuthoritativenessSignalsPiece2()
    ensures Plain("data, external ")
  {
  }

  lemma {:induction false} AuthoritativenessSignalsPiece3()
    ensures Plain("mentions, ")
  {
  }

  lemma {:induction false} AuthoritativenessSignalsPiece4()
    ensures Plain("structured ")
  {
  }

  lemma {:induction false} AuthoritativenessSignalsPiece5()
    ensures Plain("metadata, and ")
  {
  }

  lemma {:induction false} AuthoritativenessSignalsPiece6()
    ensures Plain("citations. ")
  {
  }

  lemma {:induction false} AuthoritativenessSignalsPlain()
    ensures Plain(AuthoritativenessSignalsQuestion)
  {
    AuthoritativenessSignalsPiece0();
    AuthoritativenessSignalsPiece1();
    AuthoritativenessSignalsPiece2();
    AuthoritativenessSignalsPiece3();
    AuthoritativenessSignalsPiece4();
    AuthoritativenessSignalsPiece5();
    AuthoritativenessSignalsPiece6();
    PlainJoin("Check for expert ", "bylines, original ");
    PlainJoin("Check for expert " + "bylines, original ", "data, external ");
    PlainJoin("Check for expert " + "bylines, original " + "data, external ", "mentions, ");
    PlainJoin("Check for expert " + "bylines, original " + "data, external " + "mentions, ", "structured ");
    PlainJoin("Check for expert " + "bylines, original " + "data, external " + "mentions, " + "structured ", "metadata, and ");
    PlainJoin("Check for expert " + "bylines, original " + "data, external " + "mentions, " + "structured " + "metadata, and ", "citations. ");
  }

  lemma {:induction false} AuthoritativenessSignalsRated()
    ensures RatedInstruction(AuthoritativenessSignals.prompt)
  {
    AuthoritativenessSignalsPlain();
    RatedOf(AuthoritativenessSignalsQuestion);
  }

  lemma {:induction false} PersonalizationResiliencePiece0()
    ensures Plain("Analyze if content ")
  {
  }

  lemma {:induction false} PersonalizationResiliencePiece1()
    ensures Plain("targets multiple ")
  {
  }

  lemma {:induction false} PersonalizationResiliencePiece2()
    ensures Plain("personas, intents, ")
  {
  }

  lemma {:induction false} PersonalizationResiliencePiece3()
    ensures Plain("and locales with ")
  {
  }

  lemma {:induction false} PersonalizationResiliencePiece4()
    ensures Plain("segmented sections. ")
  {
  }

  lemma {:induction false} PersonalizationResiliencePlain()
    ensures Plain(PersonalizationResilienceQuestion)
  {
    PersonalizationResiliencePiece0();
    PersonalizationResiliencePiece1();
    PersonalizationResiliencePiece2();
    PersonalizationResiliencePiece3();
    PersonalizationResiliencePiece4();
    PlainJoin("Analyze if content ", "targets multiple ");
    PlainJoin("Analyze if content " + "targets multiple ", "personas, intents, ");
    PlainJoin("Analyze if content " + "targets multiple " + "personas, intents, ", "and locales with ");
    PlainJoin("Analyze if content " + "targets multiple " + "personas, intents, " + "and locales with ", "segmented sections. ");
  }

  lemma {:induction false} PersonalizationResilienceRated()
    ensures RatedInstruction(PersonalizationResilience.prompt)
  {
    PersonalizationResiliencePlain();
    RatedOf(PersonalizationResilienceQuestion);
  }

  lemma {:induction false} AiCrawlabilityPiece0()
    ensures Plain("Evaluate if content ")
  {
  }

  lemma {:induction false} AiCrawlabilityPiece1()
    ensures Plain("is server-rendered, ")
  {
  }

  lemma {:induction false} AiCrawlabilityPiece2()
    ensures Plain("allows AI bots via ")
  {
  }

  lemma {:induction false} AiCrawlabilityPiece3()
    ensures Plain("robots.txt, and ")
  {
  }

  lemma {:induction false} AiCrawlabilityPiece4()
    ensures Plain("avoids ")
  {
  }

  lemma {:induction false} AiCrawlabilityPiece5()
    ensures Plain("noindex/nosnippet. ")
  {
  }

  lemma {:induction false} AiCrawlabilityPlain()
    ensures Plain(AiCrawlabilityQuestion)
  {
    AiCrawlabilityPiece0();
    AiCrawlabilityPiece1();
    AiCrawlabilityPiece2();
    AiCrawlabilityPiece3();
    AiCrawlabilityPiece4();
    AiCrawlabilityPiece5();
    PlainJoin("Evaluate if content ", "is server-rendered, ");
    PlainJoin("Evaluate if content " + "is server-rendered, ", "allows AI bots via ");
    PlainJoin("Evaluate if content " + "is server-rendered, " + "allows AI bots via ", "robots.txt, and ");
    PlainJoin("Evaluate if content " + "is server-rendered, " + "allows AI bots via " + "robots.txt, and ", "avoids ");
    PlainJoin("Evaluate if content " + "is server-rendered, " + "allows AI bots via " + "robots.txt, and " + "avoids ", "noindex/nosnippet. ");
  }

  lemma {:induction false} AiCrawlabilityRated()
    ensures RatedInstruction(AiCrawlability.prompt)
  {
    AiCrawlabilityPlain();
    RatedOf(AiCrawlabilityQuestion);
  }

  lemma {:induction false} RateRequestParts()
    ensures RateRequest == "Rate " + "0-10" + " and explain."
  {
  }

  lemma {:induction false} RateRequestWords()
    ensures Plain("Rate ") && Plain(" and explain.")
  {
  }

  lemma {:induction false} ScaleDigits()
    ensures NoLineBreak("0-10") && DigitsOf("0-10") == "010"
  {
  }

  /**
   * The rating request is one line whose digits, in order, are "010": the
   * "0" and the "10" of the scale.
   */
  lemma {:induction false} RateRequestDigits()
    ensures NoLineBreak(RateRequest) && DigitsOf(RateRequest) == "010"
  {
    RateRequestParts();
    RateRequestWords();
    ScaleDigits();
    DigitsOfAppend("Rate " + "0-10", " and explain.");
    DigitsOfAppend("Rate ", "0-10");
    DigitsOfNoDigits("Rate ");
    DigitsOfNoDigits(" and explain.");
    NoLineBreakAppend("Rate ", "0-10");
    NoLineBreakAppend("Rate " + "0-10", " and explain.");
  }


  /** Every instruction of the catalog asks a plain question and then for a rating. */
  lemma {:induction false} CatalogInstructionRated(i: nat)
    requires i < |Principles|
    ensures RatedInstruction(Principles[i].prompt)
  {
    if i == 0 {
      ChunkLevelRetrievalRated();
    } else if i == 1 {
      AnswerSynthesisOptimizationRated();
    } else if i == 2 {
      CitationWorthinessRated();
    } else if i == 3 {
      TopicalBreadthDepthRated();
    } else if i == 4 {
      MultiModalSupportRated();
    } else if i == 5 {
      AuthoritativenessSignalsRated();
    } else if i == 6 {
      PersonalizationResilienceRated();
    } else {
      AiCrawlabilityRated();
    }
  }

  /**
   * The catalog holds eight principles, and no two share a title, so the
   * title identifies a row of the results.
   */
  lemma {:induction false} CatalogTitlesDistinct()
    ensures |Principles| == 8
    ensures forall i, j | 0 <= i < j < |Principles| :: Principles[i].title != Principles[j].title
  {
  }
}
