/**
 * Generation of an educational story about a software-engineering domain:
 * a fixed prompt template with the domain written into it twice, sent to the
 * language model.
 */
module StoryGenerator {
  import opened Text
  import opened Llm

  // The prompt template, cut into short pieces at places no request phrase
  // can cross.  The domain goes after the opening and again after the middle.
  const OpeningPieces: seq<string> := ["\nGenerate an ", "educational story ", "about "]

  // The middle, in runs of at most four pieces.
  const ContextRun: seq<string> := [" in the context of "]
  const EngineeringRun: seq<string> := ["software ", "engineering.\n"]
  const ShouldRun: seq<string> := ["The story should:\n"]
  const CharactersRun: seq<string> := ["1. Include some ", "named ", "characters facing "]
  const ChallengeRun: seq<string> := ["a software ", "engineering ", "challenge\n"]
  const ProgressionRun: seq<string> := ["2. Show ", "a progression ", "from a basic "]
  const ApproachRun: seq<string> := ["approach to ", "a more "]
  const SolutionRun: seq<string> := ["sophisticated ", "solution\n"]
  const TradeOffRun: seq<string> := ["3. ", "Highlight trade-", "offs and "]
  const DecisionRun: seq<string> := ["decision-making ", "processes\n"]
  const LessonRun: seq<string> := ["4. Convey ", "a key ", "lesson or "]
  const PrincipleRun: seq<string> := ["principle about "]
  const MiddlePieces: seq<string> :=
    ContextRun + EngineeringRun + ShouldRun + CharactersRun + ChallengeRun + ProgressionRun
    + ApproachRun + SolutionRun + TradeOffRun + DecisionRun + LessonRun + PrincipleRun

  const ClosingPieces: seq<string> := ["\n5. Be concise ", "(about 250-350 ", "words)\n"]

  // Each run of pieces spells out its stretch of the template.

  lemma OpeningText()
    ensures Concat(OpeningPieces) == "\nGenerate an educational story about "
  {
    ConcatThree("\nGenerate an ", "educational story ", "about ",
      "\nGenerate an educational story ",
      "\nGenerate an educational story about ");
  }

  lemma EngineeringText()
    ensures Concat(EngineeringRun) == "software engineering.\n"
  {
    ConcatTwo("software ", "engineering.\n", "software engineering.\n");
  }

  lemma CharactersText()
    ensures Concat(CharactersRun) == "1. Include some named characters facing "
  {
    ConcatThree("1. Include some ", "named ", "characters facing ",
      "1. Include some named ",
      "1. Include some named characters facing ");
  }

  lemma ChallengeText()
    ensures Concat(ChallengeRun) == "a software engineering challenge\n"
  {
    ConcatThree("a software ", "engineering ", "challenge\n",
      "a software engineering ",
      "a software engineering challenge\n");
  }

  lemma ProgressionText()
    ensures Concat(ProgressionRun) == "2. Show a progression from a basic "
  {
    ConcatThree("2. Show ", "a progression ", "from a basic ",
      "2. Show a progression ",
      "2. Show a progression from a basic ");
  }

  lemma ApproachText()
    ensures Concat(ApproachRun) == "approach to a more "
  {
    ConcatTwo("approach to ", "a more ", "approach to a more ");
  }

  lemma SolutionText()
    ensures Concat(SolutionRun) == "sophisticated solution\n"
  {
    ConcatTwo("sophisticated ", "solution\n", "sophisticated solution\n");
  }

  lemma TradeOffText()
    ensures Concat(TradeOffRun) == "3. Highlight trade-offs and "
  {
    ConcatThree("3. ", "Highlight trade-", "offs and ",
      "3. Highlight trade-",
      "3. Highlight trade-offs and ");
  }

  lemma DecisionText()
    ensures Concat(DecisionRun) == "decision-making processes\n"
  {
    ConcatTwo("decision-making ", "processes\n", "decision-making processes\n");
  }

  lemma LessonText()
    ensures Concat(LessonRun) == "4. Convey a key lesson or "
  {
    ConcatThree("4. Convey ", "a key ", "lesson or ",
      "4. Convey a key ",
      "4. Convey a key lesson or ");
  }

  lemma ClosingText()
    ensures Concat(ClosingPieces) == "\n5. Be concise (about 250-350 words)\n"
  {
    ConcatThree("\n5. Be concise ", "(about 250-350 ", "words)\n",
      "\n5. Be concise (about 250-350 ",
      "\n5. Be concise (about 250-350 words)\n");
  }

  /** A prompt template with two slots, both filled with the same text. */
  datatype Template = Template(opening: seq<string>, middle: seq<string>, closing: seq<string>)

  function Fill(t: Template, slot: string): string {
    Concat(t.opening) + slot + Concat(t.middle) + slot + Concat(t.closing)
  }

  const StoryTemplate := Template(OpeningPieces, MiddlePieces, ClosingPieces)

  /** The prompt asking for a story about `domain`. */
  function StoryPrompt(domain: string): string {
    Fill(StoryTemplate, domain)
  }

  /** The filled template is the story prompt of the source, stretch by
      stretch: the domain follows the opening line's "about " and item 4's
      "about ". */
  lemma StoryPromptText(domain: string)
    ensures StoryPrompt(domain)
         == "\nGenerate an educational story about " + domain
          + (" in the context of "
          + "software engineering.\n"
          + "The story should:\n"
          + "1. Include some named characters facing "
          + "a software engineering challenge\n"
          + "2. Show a progression from a basic "
          + "approach to a more "
          + "sophisticated solution\n"
          + "3. Highlight trade-offs and "
          + "decision-making processes\n"
          + "4. Convey a key lesson or "
          + "principle about ")
          + domain + "\n5. Be concise (about 250-350 words)\n"
  {
    // The middle grows one run at a time.
    var m := ContextRun;
    ConcatAppend(m, EngineeringRun); m := m + EngineeringRun;
    ConcatAppend(m, ShouldRun); m := m + ShouldRun;
    ConcatAppend(m, CharactersRun); m := m + CharactersRun;
    ConcatAppend(m, ChallengeRun); m := m + ChallengeRun;
    ConcatAppend(m, ProgressionRun); m := m + ProgressionRun;
    ConcatAppend(m, ApproachRun); m := m + ApproachRun;
    ConcatAppend(m, SolutionRun); m := m + SolutionRun;
    ConcatAppend(m, TradeOffRun); m := m + TradeOffRun;
    ConcatAppend(m, DecisionRun); m := m + DecisionRun;
    ConcatAppend(m, LessonRun); m := m + LessonRun;
    ConcatAppend(m, PrincipleRun); m := m + PrincipleRun;
    ConcatOne(" in the context of ");
    ConcatOne("The story should:\n");
    ConcatOne("principle about ");
    OpeningText(); EngineeringText(); CharactersText(); ChallengeText(); ProgressionText(); ApproachText();
    SolutionText(); TradeOffText(); DecisionText(); LessonText(); ClosingText();
  }

  /** Asks the model for a story about `domain` and returns its reply. */
  method GenerateStory(domain: string, llm: LLMInterface) returns (story: string)
    modifies llm`prompts
    ensures llm.prompts == old(llm.prompts) + [StoryPrompt(domain)]
    ensures story == SimulatedResponse(StoryPrompt(domain))
  {
    var prompt := StoryPrompt(domain);
    story := llm.GenerateResponse(prompt);
  }

  // ---------------------------------------------------------------------
  // The template asks for nothing by itself
  // ---------------------------------------------------------------------

  /** The template lacks `p`, and no occurrence of `p` can run from the
      template into a slot or from a slot into the template. */
  predicate SilentOn(t: Template, p: string) {
    |p| >= 1 && |t.opening| >= 1 && |t.middle| >= 1 && |t.closing| >= 1
    && !Contains(Lower(Concat(t.opening)), p)
    && !Contains(Lower(Concat(t.middle)), p)
    && !Contains(Lower(Concat(t.closing)), p)
    && ClosedAfter(t.opening[|t.opening| - 1], p)
    && ClosedBefore(p, t.middle[0])
    && ClosedAfter(t.middle[|t.middle| - 1], p)
    && ClosedBefore(p, t.closing[0])
  }

  /** Text made of five parts, with the slot text in the second and fourth,
      contains `p` exactly when the slot text does, provided the other parts
      lack `p` and no occurrence of `p` runs across a seam. */
  lemma ContainsInSlotsIff(a: string, s: string, m: string, c: string, p: string)
    requires !Contains(a, p) && !Contains(m, p) && !Contains(c, p)
    requires !EndsWithStartOf(a, p) && !StartsWithEndOf(p, m)
    requires !EndsWithStartOf(a + s + m, p) && !StartsWithEndOf(p, c)
    ensures Contains(a + s + m + s + c, p) <==> Contains(s, p)
  {
    if Contains(a + s + m + s + c, p) {
      ContainsSplit(a + s + m + s, c, p);
      ContainsSplit(a + s + m, s, p);
      if Contains(a + s + m, p) {
        ContainsSplit(a + s, m, p);
        if Contains(a + s, p) {
          ContainsSplit(a, s, p);
        }
      }
    }
    if Contains(s, p) {
      ContainsAppendRight(a, s, p);
      ContainsAppendLeft(a + s, m + s + c, p);
      assert a + s + (m + s + c) == a + s + m + s + c;
    }
  }

  /** An occurrence of `p` cannot start inside the opening and run into the slot. */
  lemma OpeningSeamClosed(t: Template, p: string)
    requires SilentOn(t, p)
    ensures !EndsWithStartOf(Lower(Concat(t.opening)), p)
  {
    ClosedAfterRefutes(Concat(t.opening[..|t.opening| - 1]), t.opening[|t.opening| - 1], p);
  }

  /** An occurrence of `p` cannot start in a slot and run into the following part. */
  lemma PartStartClosed(part: seq<string>, p: string)
    requires |part| >= 1 && ClosedBefore(p, part[0])
    ensures !StartsWithEndOf(p, Lower(Concat(part)))
  {
    ConcatFront(part);
    ClosedBeforeRefutes(p, part[0], Concat(part[1..]));
  }

  lemma SeamAfterLast(front: string, x: string, c: string, p: string)
    requires ClosedAfter(c, p)
    ensures !EndsWithStartOf(Lower(front + (x + c)), p)
  {
    assert front + (x + c) == front + x + c;
    ClosedAfterRefutes(front + x, c, p);
  }

  /** An occurrence of `p` cannot start inside the middle and run into the second slot. */
  lemma MiddleSeamClosed(front: string, middle: seq<string>, p: string)
    requires |middle| >= 1 && ClosedAfter(middle[|middle| - 1], p)
    ensures !EndsWithStartOf(Lower(front + Concat(middle)), p)
  {
    var n := |middle|;
    var x, c := Concat(middle[..n - 1]), middle[n - 1];
    ConcatLast(middle);
    SeamAfterLast(front, x, c, p);
  }

  /** When the template is silent on `p`, the filled prompt mentions `p`
      exactly when the slot text does. */
  lemma FilledMentionsOnlySlot(t: Template, slot: string, p: string)
    requires SilentOn(t, p)
    ensures Contains(Lower(Fill(t, slot)), p) <==> Contains(Lower(slot), p)
  {
    var o, m, c := Concat(t.opening), Concat(t.middle), Concat(t.closing);
    LowerAppend(o, slot);
    LowerAppend(o + slot, m);
    LowerAppend(o + slot + m, slot);
    LowerAppend(o + slot + m + slot, c);
    OpeningSeamClosed(t, p);
    PartStartClosed(t.middle, p);
    MiddleSeamClosed(o + slot, t.middle, p);
    PartStartClosed(t.closing, p);
    ContainsInSlotsIff(Lower(o), Lower(slot), Lower(m), Lower(c), p);
  }

  // ---------------------------------------------------------------------
  // Scans of the template pieces
  // ---------------------------------------------------------------------

  /** The piece lacks all three grams. */
  predicate Quiet(piece: string) {
    LacksGrams(piece, PatternGram, PrincipleGram, StoryGram)
  }

  /** No occurrence of any of the three grams can run on past the piece's end. */
  predicate Sealed(piece: string) {
    ClosedEndIgnoringCase(piece, PatternGram)
    && ClosedEndIgnoringCase(piece, PrincipleGram)
    && ClosedEndIgnoringCase(piece, StoryGram)
  }

  // Each scan is its own lemma: deciding a property of a literal string
  // costs the solver time that grows quickly with the length scanned.

  lemma OpeningQuiet()
    ensures forall i :: 0 <= i < |OpeningPieces| ==> Quiet(OpeningPieces[i])
  {
  }

  lemma ClosingQuiet()
    ensures forall i :: 0 <= i < |ClosingPieces| ==> Quiet(ClosingPieces[i])
  {
  }

  lemma ContextQuiet()
    ensures forall i :: 0 <= i < |ContextRun| ==> Quiet(ContextRun[i])
  {
  }

  lemma EngineeringQuiet()
    ensures forall i :: 0 <= i < |EngineeringRun| ==> Quiet(EngineeringRun[i])
  {
  }

  lemma ShouldQuiet()
    ensures forall i :: 0 <= i < |ShouldRun| ==> Quiet(ShouldRun[i])
  {
  }

  lemma CharactersQuiet()
    ensures forall i :: 0 <= i < |CharactersRun| ==> Quiet(CharactersRun[i])
  {
  }

  lemma ChallengeQuiet()
    ensures forall i :: 0 <= i < |ChallengeRun| ==> Quiet(ChallengeRun[i])
  {
  }

  lemma ProgressionQuiet()
    ensures forall i :: 0 <= i < |ProgressionRun| ==> Quiet(ProgressionRun[i])
  {
  }

  lemma ApproachQuiet()
    ensures forall i :: 0 <= i < |ApproachRun| ==> Quiet(ApproachRun[i])
  {
  }

  lemma SolutionQuiet()
    ensures forall i :: 0 <= i < |SolutionRun| ==> Quiet(SolutionRun[i])
  {
  }

  lemma TradeOffQuiet()
    ensures forall i :: 0 <= i < |TradeOffRun| ==> Quiet(TradeOffRun[i])
  {
  }

  lemma DecisionQuiet()
    ensures forall i :: 0 <= i < |DecisionRun| ==> Quiet(DecisionRun[i])
  {
  }

  lemma LessonQuiet()
    ensures forall i :: 0 <= i < |LessonRun| ==> Quiet(LessonRun[i])
  {
  }

  lemma PrincipleQuiet()
    ensures forall i :: 0 <= i < |PrincipleRun| ==> Quiet(PrincipleRun[i])
  {
  }

  lemma OuterSealed()
    ensures forall i :: 0 <= i < |OpeningPieces| - 1 ==> Sealed(OpeningPieces[i])
    ensures forall i :: 0 <= i < |ClosingPieces| - 1 ==> Sealed(ClosingPieces[i])
  {
  }

  lemma FirstRunsSealed()
    ensures forall i :: 0 <= i < |ContextRun| ==> Sealed(ContextRun[i])
    ensures forall i :: 0 <= i < |EngineeringRun| ==> Sealed(EngineeringRun[i])
    ensures forall i :: 0 <= i < |ShouldRun| ==> Sealed(ShouldRun[i])
    ensures forall i :: 0 <= i < |CharactersRun| ==> Sealed(CharactersRun[i])
    ensures forall i :: 0 <= i < |ChallengeRun| ==> Sealed(ChallengeRun[i])
    ensures forall i :: 0 <= i < |ProgressionRun| ==> Sealed(ProgressionRun[i])
  {
  }

  lemma LastRunsSealed()
    ensures forall i :: 0 <= i < |ApproachRun| ==> Sealed(ApproachRun[i])
    ensures forall i :: 0 <= i < |SolutionRun| ==> Sealed(SolutionRun[i])
    ensures forall i :: 0 <= i < |TradeOffRun| ==> Sealed(TradeOffRun[i])
    ensures forall i :: 0 <= i < |DecisionRun| ==> Sealed(DecisionRun[i])
    ensures forall i :: 0 <= i < |LessonRun| ==> Sealed(LessonRun[i])
  {
  }

  lemma MiddleScanned()
    ensures forall i :: 0 <= i < |MiddlePieces| ==> Quiet(MiddlePieces[i])
    ensures forall i :: 0 <= i < |MiddlePieces| - 1 ==> Sealed(MiddlePieces[i])
  {
    ContextQuiet(); EngineeringQuiet(); ShouldQuiet(); CharactersQuiet(); ChallengeQuiet(); ProgressionQuiet();
    ApproachQuiet(); SolutionQuiet(); TradeOffQuiet(); DecisionQuiet(); LessonQuiet(); PrincipleQuiet();
    FirstRunsSealed();
    LastRunsSealed();
  }

  /** The three parts of the story template each lack the gram `g`. */
  lemma TemplateLacksGram(g: string)
    requires g == PatternGram || g == PrincipleGram || g == StoryGram
    ensures !Contains(Lower(Concat(OpeningPieces)), g)
    ensures !Contains(Lower(Concat(MiddlePieces)), g)
    ensures !Contains(Lower(Concat(ClosingPieces)), g)
  {
    OpeningQuiet();
    ClosingQuiet();
    OuterSealed();
    MiddleScanned();
    PiecesLackGram(OpeningPieces, PatternGram, PrincipleGram, StoryGram, g);
    PiecesLackGram(MiddlePieces, PatternGram, PrincipleGram, StoryGram, g);
    PiecesLackGram(ClosingPieces, PatternGram, PrincipleGram, StoryGram, g);
  }

  /** The three parts of the story template each lack `p`, which has the
      gram `g` at `lo`. */
  lemma TemplateLacks(p: string, g: string, lo: nat)
    requires g == PatternGram || g == PrincipleGram || g == StoryGram
    requires lo + |g| <= |p| && p[lo..lo + |g|] == g
    ensures !Contains(Lower(Concat(OpeningPieces)), p)
    ensures !Contains(Lower(Concat(MiddlePieces)), p)
    ensures !Contains(Lower(Concat(ClosingPieces)), p)
  {
    TemplateLacksGram(g);
    NotContainsPart(Lower(Concat(OpeningPieces)), p, lo, lo + |g|);
    NotContainsPart(Lower(Concat(MiddlePieces)), p, lo, lo + |g|);
    NotContainsPart(Lower(Concat(ClosingPieces)), p, lo, lo + |g|);
  }

  /** The pieces next to the slots, each with a two-letter piece no request
      phrase has: "ou" in "about ", "xt" in " in the context of ", "ou" in
      "principle about " and "\n5" in the first closing piece. */
  lemma SlotNeighbours()
    ensures OpeningPieces[|OpeningPieces| - 1] == "about "
    ensures MiddlePieces[0] == " in the context of "
    ensures MiddlePieces[|MiddlePieces| - 1] == "principle about "
    ensures ClosingPieces[0] == "\n5. Be concise "
  {
  }

  lemma PatternGrams()
    ensures NoGram(PatternRequest, "ou") && NoGram(PatternRequest, "xt") && NoGram(PatternRequest, "\n5")
  {
  }

  lemma PatternOpeningScan()
    ensures NoStartIgnoringCase("about ", PatternRequest) && NoEndIgnoringCase(PatternRequest, " in the context of ")
  {
  }

  lemma PatternClosingScan()
    ensures NoStartIgnoringCase("principle about ", PatternRequest) && NoEndIgnoringCase(PatternRequest, "\n5. Be concise ")
  {
  }

  lemma PrincipleGrams()
    ensures NoGram(PrincipleRequest, "ou") && NoGram(PrincipleRequest, "xt") && NoGram(PrincipleRequest, "\n5")
  {
  }

  lemma PrincipleOpeningScan()
    ensures NoStartIgnoringCase("about ", PrincipleRequest) && NoEndIgnoringCase(PrincipleRequest, " in the context of ")
  {
  }

  lemma PrincipleClosingScan()
    ensures NoStartIgnoringCase("principle about ", PrincipleRequest) && NoEndIgnoringCase(PrincipleRequest, "\n5. Be concise ")
  {
  }

  lemma StoryGrams()
    ensures NoGram(StoryRequest, "ou") && NoGram(StoryRequest, "xt") && NoGram(StoryRequest, "\n5")
  {
  }

  lemma StoryOpeningScan()
    ensures NoStartIgnoringCase("about ", StoryRequest) && NoEndIgnoringCase(StoryRequest, " in the context of ")
  {
  }

  lemma StoryClosingScan()
    ensures NoStartIgnoringCase("principle about ", StoryRequest) && NoEndIgnoringCase(StoryRequest, "\n5. Be concise ")
  {
  }

  // The four seams around the slots, each closed by a gram of its
  // neighbouring piece that `p` lacks.

  lemma AboutSeamClosed(p: string)
    requires |p| >= 1 && NoGram(p, "ou") && NoStartIgnoringCase("about ", p)
    ensures ClosedAfter("about ", p)
  {
    assert [LowerChar("about "[2]), LowerChar("about "[3])] == "ou";
    ClosedAfterByGram("about ", p, 2);
  }

  lemma ContextSeamClosed(p: string)
    requires |p| >= 1 && NoGram(p, "xt") && NoEndIgnoringCase(p, " in the context of ")
    ensures ClosedBefore(p, " in the context of ")
  {
    assert [LowerChar(" in the context of "[13]), LowerChar(" in the context of "[14])] == "xt";
    ClosedBeforeByGram(p, " in the context of ", 13);
  }

  lemma PrincipleSeamClosed(p: string)
    requires |p| >= 1 && NoGram(p, "ou") && NoStartIgnoringCase("principle about ", p)
    ensures ClosedAfter("principle about ", p)
  {
    assert [LowerChar("principle about "[12]), LowerChar("principle about "[13])] == "ou";
    ClosedAfterByGram("principle about ", p, 12);
  }

  lemma ConciseSeamClosed(p: string)
    requires |p| >= 1 && NoGram(p, "\n5") && NoEndIgnoringCase(p, "\n5. Be concise ")
    ensures ClosedBefore(p, "\n5. Be concise ")
  {
    assert [LowerChar("\n5. Be concise "[0]), LowerChar("\n5. Be concise "[1])] == "\n5";
    ClosedBeforeByGram(p, "\n5. Be concise ", 0);
  }

  /** The template neither contains "identify common patterns" nor lets it
      run across a seam with the domain. */
  lemma PatternSilent()
    ensures SilentOn(StoryTemplate, PatternRequest)
  {
    SlotNeighbours();
    RequestGrams();
    TemplateLacks(PatternRequest, PatternGram, 6);
    PatternGrams(); PatternOpeningScan(); PatternClosingScan();
    AboutSeamClosed(PatternRequest);
    ContextSeamClosed(PatternRequest);
    PrincipleSeamClosed(PatternRequest);
    ConciseSeamClosed(PatternRequest);
  }

  lemma PrincipleSilent()
    ensures SilentOn(StoryTemplate, PrincipleRequest)
  {
    SlotNeighbours();
    RequestGrams();
    TemplateLacks(PrincipleRequest, PrincipleGram, 1);
    PrincipleGrams(); PrincipleOpeningScan(); PrincipleClosingScan();
    AboutSeamClosed(PrincipleRequest);
    ContextSeamClosed(PrincipleRequest);
    PrincipleSeamClosed(PrincipleRequest);
    ConciseSeamClosed(PrincipleRequest);
  }

  lemma StorySilent()
    ensures SilentOn(StoryTemplate, StoryRequest)
  {
    SlotNeighbours();
    RequestGrams();
    TemplateLacks(StoryRequest, StoryGram, 9);
    StoryGrams(); StoryOpeningScan(); StoryClosingScan();
    AboutSeamClosed(StoryRequest);
    ContextSeamClosed(StoryRequest);
    PrincipleSeamClosed(StoryRequest);
    ConciseSeamClosed(StoryRequest);
  }

  // ---------------------------------------------------------------------
  // Which reply a story prompt gets
  // ---------------------------------------------------------------------

  /** The reply to a story prompt is decided by the domain alone: the
      template adds none of the three request phrases, not even "generate a
      story", since it asks to "Generate an educational story". */
  lemma StoryPromptRouting(domain: string)
    ensures SimulatedResponse(StoryPrompt(domain)) ==
      if Asks(domain, PatternRequest) then PatternIdentificationReply
      else if Asks(domain, PrincipleRequest) then PrincipleAbstractionReply
      else if Asks(domain, StoryRequest) then StoryReply(StoryPrompt(domain))
      else DefaultReply
  {
    PatternSilent();
    FilledMentionsOnlySlot(StoryTemplate, domain, PatternRequest);
    PrincipleSilent();
    FilledMentionsOnlySlot(StoryTemplate, domain, PrincipleRequest);
    StorySilent();
    FilledMentionsOnlySlot(StoryTemplate, domain, StoryRequest);
  }

  /** A domain lacking the three grams gets the fallback reply, not a story. */
  lemma QuietDomainGetsFallback(domain: string)
    requires Quiet(domain)
    ensures SimulatedResponse(StoryPrompt(domain)) == DefaultReply
  {
    StoryPromptRouting(domain);
    LacksGramsNotContains(domain, PatternGram, PrincipleGram, StoryGram);
    RequestGrams();
    NotContainsPart(Lower(domain), PatternRequest, 6, 8);
    NotContainsPart(Lower(domain), PrincipleRequest, 1, 3);
    NotContainsPart(Lower(domain), StoryRequest, 9, 13);
  }

  lemma SortingQuiet() ensures Quiet(SortingTopic) {}
  lemma IndexingQuiet() ensures Quiet(IndexingTopic) {}
  lemma DesignPatternsQuiet() ensures Quiet(DesignPatternsTopic) {}
  lemma TestingQuiet() ensures Quiet(TestingTopic) {}

  /** The domains the application asks about by default all get the
      fallback reply. */
  lemma DefaultDomainsGetFallback()
    ensures SimulatedResponse(StoryPrompt(SortingTopic)) == DefaultReply
    ensures SimulatedResponse(StoryPrompt(IndexingTopic)) == DefaultReply
    ensures SimulatedResponse(StoryPrompt(DesignPatternsTopic)) == DefaultReply
    ensures SimulatedResponse(StoryPrompt(TestingTopic)) == DefaultReply
  {
    SortingQuiet(); IndexingQuiet(); DesignPatternsQuiet(); TestingQuiet();
    QuietDomainGetsFallback(SortingTopic);
    QuietDomainGetsFallback(IndexingTopic);
    QuietDomainGetsFallback(DesignPatternsTopic);
    QuietDomainGetsFallback(TestingTopic);
  }
}
