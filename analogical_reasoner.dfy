/**
 * The four phases of analogical reasoning over stories: building a graph of
 * a story's entities (phase 1), asking the model for the relations the
 * stories share (phase 2), marking the alignable differences among them
 * (phase 3), and asking the model to re-represent them as one general
 * principle (phase 4).
 */
module AnalogicalReasoner {
  import opened Text
  import opened Options
  import opened Llm

  // =====================================================================
  // Phase 1: initial graph construction
  // =====================================================================

  datatype Relationship = Relationship(source: string, target: string, relation: string)

  datatype Graph = Graph(objects: seq<string>, relationships: seq<Relationship>)

  predicate Distinct(xs: seq<string>) {
    forall i, j :: 0 <= i < j < |xs| ==> xs[i] != xs[j]
  }

  function Min(a: int, b: int): int {
    if a <= b then a else b
  }

  function Max(a: int, b: int): int {
    if a <= b then b else a
  }

  /** A stripped line is mined for entities when it is longer than ten
      characters and is not a Markdown heading. */
  predicate IsKeptLine(line: string) {
    line != [] && line[0] != '#' && |line| > 10
  }

  const Stopwords: seq<string> := ["the", "and", "but"]

  /** A word is taken as an entity when it starts with a capital letter, is
      longer than three characters and is not a stop word. */
  predicate IsEntityToken(word: string) {
    word != [] && IsUpper(word[0]) && |word| > 3 && Lower(word) !in Stopwords
  }

  /** The entity words among `words`, in order. */
  function EntityTokens(words: seq<string>): (r: seq<string>)
    ensures forall w :: w in r <==> w in words && IsEntityToken(w)
  {
    if words == [] then []
    else
      var last := words[|words| - 1];
      EntityTokens(words[..|words| - 1]) + (if IsEntityToken(last) then [last] else [])
  }

  /** The entity words of one line of the story. */
  function LineCandidates(line: string): seq<string> {
    var l := Strip(line);
    if IsKeptLine(l) then EntityTokens(Words(l)) else []
  }

  /** The entity words of the lines, line by line. */
  function LinesCandidates(lines: seq<string>): seq<string> {
    if lines == [] then []
    else LinesCandidates(lines[..|lines| - 1]) + LineCandidates(lines[|lines| - 1])
  }

  /** A word is among the candidates of some lines exactly when it is among
      the candidates of one of them. */
  lemma {:induction false} LinesCandidatesMembers(lines: seq<string>, w: string)
    ensures w in LinesCandidates(lines) <==> exists line :: line in lines && w in LineCandidates(line)
  {
    if lines != [] {
      var front, last := lines[..|lines| - 1], lines[|lines| - 1];
      assert lines == front + [last];
      LinesCandidatesMembers(front, w);
    }
  }

  /** Every entity word of the story, repetitions included, in reading order. */
  function Candidates(story: string): seq<string> {
    LinesCandidates(SplitOn(story, '\n'))
  }

  /** The different words of `xs`, as Python's `set(xs)`. */
  function Elements(xs: seq<string>): set<string> {
    set w | w in xs
  }

  /** The stop-word test never rejects a word: a word long enough to pass
      the length test is longer than every stop word. */
  lemma StopwordsNeverMatch(word: string)
    ensures IsEntityToken(word) <==> |word| > 3 && IsUpper(word[0])
  {
    if |word| > 3 {
      assert |Lower(word)| > 3;
    }
  }

  /** A word is a candidate exactly when some line of the story, stripped,
      is kept and has the word, capitalised and over three characters long,
      among its whitespace-separated words. */
  lemma CandidateCharacterization(story: string, w: string)
    ensures w in Candidates(story) <==>
      exists line :: line in SplitOn(story, '\n') && IsKeptLine(Strip(line))
        && w in Words(Strip(line)) && |w| > 3 && IsUpper(w[0])
  {
    StopwordsNeverMatch(w);
    LinesCandidatesMembers(SplitOn(story, '\n'), w);
  }

  /** Every candidate is a capitalised word of more than three characters. */
  lemma CandidateShape(story: string, w: string)
    requires w in Candidates(story)
    ensures |w| > 3 && IsUpper(w[0]) && NoSpace(w)
  {
    LinesCandidatesMembers(SplitOn(story, '\n'), w);
    var line :| line in SplitOn(story, '\n') && w in LineCandidates(line);
    LineCandidateShape(line, w);
  }

  lemma LineCandidateShape(line: string, w: string)
    requires w in LineCandidates(line)
    ensures |w| > 3 && IsUpper(w[0]) && NoSpace(w)
  {
    var words := Words(Strip(line));
    assert w in EntityTokens(words);
    assert w in words && IsEntityToken(w);
    var k :| 0 <= k < |words| && words[k] == w;
  }

  /** `str(i)` appended to the label of the `i`-th relationship. */
  function RelationLabel(i: nat): string {
    "relates_to_" + Decimal(i)
  }

  /** Relationship labels are pairwise different. */
  lemma RelationLabelsDistinct(i: nat, j: nat)
    requires i != j
    ensures RelationLabel(i) != RelationLabel(j)
  {
    if RelationLabel(i) == RelationLabel(j) {
      assert RelationLabel(i)[11..] == Decimal(i);
      assert RelationLabel(j)[11..] == Decimal(j);
      DecimalInjective(i, j);
    }
  }

  /** The stand-in objects used when the story yields no entity. */
  function Placeholders(): (r: seq<string>)
    ensures |r| == 5 && Distinct(r)
    ensures forall k :: 0 <= k < |r| ==> |r[k]| > 3 && IsUpper(r[k][0]) && NoSpace(r[k])
  {
    var r := seq(5, i requires 0 <= i < 5 => "Entity_" + Decimal(i));
    forall i, j | 0 <= i < j < 5
      ensures r[i] != r[j]
    {
      assert r[i][7] as int - '0' as int == i;
      assert r[j][7] as int - '0' as int == j;
    }
    r
  }

  /** Consecutive objects are joined, the `i`-th relationship leading from
      object `i` to object `i + 1` under the label for `i`. */
  predicate IsChain(g: Graph) {
    |g.objects| >= 1 && |g.relationships| == |g.objects| - 1
    && forall i :: 0 <= i < |g.relationships| ==>
      g.relationships[i].source == g.objects[i] && g.relationships[i].target == g.objects[i + 1]
      && g.relationships[i].relation == RelationLabel(i)
  }

  predicate Touches(r: Relationship, o: string) {
    r.source == o || r.target == o
  }

  /** Some relationship starts or ends at `o`. */
  predicate Linked(rs: seq<Relationship>, o: string) {
    exists i :: 0 <= i < |rs| && Touches(rs[i], o)
  }

  /** Over distinct objects, a chain is a simple path: no two relationships
      share a source, a target or a label, and every object is an end of
      some relationship once there are two objects. */
  lemma ChainIsSimplePath(g: Graph)
    requires IsChain(g) && Distinct(g.objects)
    ensures forall i, j :: 0 <= i < j < |g.relationships| ==>
      g.relationships[i].source != g.relationships[j].source
      && g.relationships[i].target != g.relationships[j].target
      && g.relationships[i].relation != g.relationships[j].relation
    ensures |g.objects| >= 2 ==> forall k :: 0 <= k < |g.objects| ==> Linked(g.relationships, g.objects[k])
  {
    var os, rs := g.objects, g.relationships;
    forall i, j | 0 <= i < j < |rs|
      ensures rs[i].source != rs[j].source && rs[i].target != rs[j].target && rs[i].relation != rs[j].relation
    {
      assert os[i + 1] != os[j + 1];
      RelationLabelsDistinct(i, j);
    }
    if |os| >= 2 {
      forall k | 0 <= k < |os|
        ensures Linked(rs, os[k])
      {
        var i := if k < |rs| then k else k - 1;
        assert Touches(rs[i], os[k]);
      }
    }
  }

  /** The entity words of the story, gathered line by line. */
  method CollectCandidates(story: string) returns (found: seq<string>)
    ensures found == Candidates(story)
  {
    var lines := SplitOn(story, '\n');
    found := [];
    var n := 0;
    while n < |lines|
      invariant 0 <= n <= |lines|
      invariant found == LinesCandidates(lines[..n])
    {
      found := CollectLineEntities(found, lines[n]);
      assert lines[..n + 1][..n] == lines[..n];
      n := n + 1;
    }
    assert lines[..n] == lines;
  }

  /** Appends the entity words of one line of the story to `found` when
      the stripped line is kept. */
  method CollectLineEntities(found0: seq<string>, rawLine: string) returns (found: seq<string>)
    ensures found == found0 + LineCandidates(rawLine)
  {
    found := found0;
    var line := Strip(rawLine);
    if line != [] && line[0] != '#' && |line| > 10 {
      found := AppendEntityTokens(found0, Words(line));
    }
  }

  /** Appends the entity words among `words` to `found`, word by word. */
  method AppendEntityTokens(found0: seq<string>, words: seq<string>) returns (found: seq<string>)
    ensures found == found0 + EntityTokens(words)
  {
    found := found0;
    var k := 0;
    while k < |words|
      invariant 0 <= k <= |words|
      invariant found == found0 + EntityTokens(words[..k])
    {
      var word := words[k];
      if word != [] && IsUpper(word[0]) && |word| > 3 && Lower(word) !in Stopwords {
        found := found + [word];
      }
      assert words[..k + 1][..k] == words[..k];
      k := k + 1;
    }
    assert words[..k] == words;
  }

  /** `list(set(found))[:5]`: at most five different words of `found`, in no
      particular order, and all of them when there are no more than five. */
  method KeepDistinct(found: seq<string>) returns (objects: seq<string>)
    ensures Distinct(objects) && |objects| == Min(5, |Elements(found)|)
    ensures forall k :: 0 <= k < |objects| ==> objects[k] in found
    ensures |Elements(found)| <= 5 ==> Elements(objects) == Elements(found)
    ensures found != [] ==> objects != []
  {
    var all := Elements(found);
    if found != [] {
      assert found[0] in all;
    }
    var pool := all;
    objects := [];
    while |objects| < 5 && pool != {}
      invariant |objects| <= 5 && Distinct(objects)
      invariant pool <= all
      invariant forall k :: 0 <= k < |objects| ==> objects[k] in all && objects[k] !in pool
      invariant forall w :: w in all ==> w in pool || w in objects
      invariant |pool| + |objects| == |all|
      decreases |pool|
    {
      var w :| w in pool;
      objects := objects + [w];
      pool := pool - {w};
    }
  }

  /** The relationships joining each object to the next. */
  method ChainObjects(objects: seq<string>) returns (relationships: seq<Relationship>)
    ensures |objects| == 0 ==> relationships == []
    ensures |objects| >= 1 ==> IsChain(Graph(objects, relationships))
  {
    relationships := [];
    var i := 0;
    while i < |objects| - 1
      invariant 0 <= i <= Max(0, |objects| - 1)
      invariant |relationships| == i
      invariant forall j :: 0 <= j < i ==>
        relationships[j].source == objects[j] && relationships[j].target == objects[j + 1]
        && relationships[j].relation == RelationLabel(j)
    {
      relationships := relationships + [Relationship(objects[i], objects[i + 1], RelationLabel(i))];
      i := i + 1;
    }
  }

  /** How the objects are drawn from the candidate words: the stand-ins
      when there is no candidate, otherwise as many different candidates as
      there are, up to five, and all of them when there are five or fewer. */
  predicate DrawnFrom(objects: seq<string>, candidates: seq<string>) {
    (candidates == [] ==> objects == Placeholders())
    && (candidates != [] ==>
      (forall k :: 0 <= k < |objects| ==> objects[k] in candidates)
      && |objects| == Min(5, |Elements(candidates)|)
      && (|Elements(candidates)| <= 5 ==> Elements(objects) == Elements(candidates)))
  }

  /** Phase 1.  Collects the entity words of the story, keeps at most five
      different ones, falls back to five stand-ins when there are none, and
      chains the objects in the order kept. */
  method InitialGraphConstruction(story: string) returns (g: Graph)
    ensures 1 <= |g.objects| <= 5 && Distinct(g.objects)
    ensures forall k :: 0 <= k < |g.objects| ==> |g.objects[k]| > 3 && IsUpper(g.objects[k][0]) && NoSpace(g.objects[k])
    ensures DrawnFrom(g.objects, Candidates(story))
    ensures IsChain(g)
  {
    var found := CollectCandidates(story);
    var objects := KeepDistinct(found);
    if |objects| == 0 {
      objects := Placeholders();
    } else {
      forall k | 0 <= k < |objects|
        ensures |objects[k]| > 3 && IsUpper(objects[k][0]) && NoSpace(objects[k])
      {
        CandidateShape(story, objects[k]);
      }
    }
    assert DrawnFrom(objects, found);
    var relationships := ChainObjects(objects);
    g := Graph(objects, relationships);
  }

  // =====================================================================
  // Phase 2: identifying the common relations
  // =====================================================================

  /** A concept mapping: each story's key and its concept, in insertion order. */
  type ConceptMapping = seq<(string, string)>

  /** A relationship mapping; an absent key is `None`. */
  datatype RelationMapping = RelationMapping(kind: Option<string>, instances: Option<seq<string>>)

  /** The mapping of relations common to the stories; an absent key is `None`. */
  datatype CommonRelations = CommonRelations(
    structuralPatterns: Option<seq<string>>,
    conceptMappings: Option<seq<ConceptMapping>>,
    relationshipMappings: Option<seq<RelationMapping>>)

  function Patterns(cr: CommonRelations): seq<string> {
    cr.structuralPatterns.GetOr([])
  }

  function Mappings(cr: CommonRelations): seq<ConceptMapping> {
    cr.conceptMappings.GetOr([])
  }

  function RelationsOf(cr: CommonRelations): seq<RelationMapping> {
    cr.relationshipMappings.GetOr([])
  }

  /** The mapping phase 2 returns, whatever the model replied. */
  const FixedCommonRelations := CommonRelations(
    Some(["sequential_process", "problem_solution"]),
    Some([
      [("story_1", "sorting_algorithm"), ("story_2", "database_indexing"), ("story_3", "software_pattern")],
      [("story_1", "efficiency"), ("story_2", "performance"), ("story_3", "optimization")]]),
    Some([RelationMapping(Some("improves"), Some([
      "quicksort improves sorting speed",
      "indexing improves query performance",
      "pattern improves code organization"]))]))

  // The prompt of phase 2 is the lead, the request phrase "identify common
  // patterns", the rest of the opening, the stories and the closing.
  const CommonRelationsLead := "I'll provide you with multiple stories. Please "
  const CommonRelationsRest := ", relationships, and structure between them:\n\n"
  const CommonRelationsClosing := "Identify and list the common elements, relationships, and structural patterns across these stories. Format your response as a structured mapping."

  /** The block that presents the story numbered `number`. */
  function StoryBlock(number: nat, story: string): string {
    "Story " + Decimal(number) + ":\n" + story + "\n\n"
  }

  /** The blocks of all stories, numbered from 1. */
  function StoryBlocks(stories: seq<string>): string
    decreases |stories|
  {
    if stories == [] then []
    else StoryBlocks(stories[..|stories| - 1]) + StoryBlock(|stories|, stories[|stories| - 1])
  }

  function CommonRelationsPrompt(stories: seq<string>): string {
    CommonRelationsLead + PatternRequest + CommonRelationsRest + StoryBlocks(stories) + CommonRelationsClosing
  }

  /** Phase 2: sends the numbered stories to the model and returns the fixed
    * mapping; the model's reply is not parsed. */
  method IdentifyCommonRelations(stories: seq<string>, llm: LLMInterface) returns (relations: CommonRelations)
    modifies llm`prompts
    ensures llm.prompts == old(llm.prompts) + [CommonRelationsPrompt(stories)]
    ensures relations == FixedCommonRelations
  {
    var prompt := CommonRelationsLead + PatternRequest + CommonRelationsRest;
    prompt := AppendStories(prompt, stories);
    prompt := prompt + CommonRelationsClosing;
    var response := llm.GenerateResponse(prompt);
    relations := FixedCommonRelations;
  }

  /** One more story extends the numbered list by its block. */
  lemma StoryBlocksStep(prompt0: string, stories: seq<string>, i: nat)
    requires i < |stories|
    ensures prompt0 + StoryBlocks(stories[..i + 1]) == prompt0 + StoryBlocks(stories[..i]) + StoryBlock(i + 1, stories[i])
  {
    assert stories[..i + 1][..i] == stories[..i];
  }

  /** Appends each story under its 1-based number. */
  method AppendStories(prompt0: string, stories: seq<string>) returns (prompt: string)
    ensures prompt == prompt0 + StoryBlocks(stories)
  {
    prompt := prompt0;
    for i := 0 to |stories|
      invariant prompt == prompt0 + StoryBlocks(stories[..i])
    {
      StoryBlocksStep(prompt0, stories, i);
      prompt := prompt + StoryBlock(i + 1, stories[i]);
    }
    assert stories[..|stories|] == stories;
  }

  /** Every story appears in the prompt, under its 1-based number. */
  lemma {:induction false} StoryListed(stories: seq<string>, k: nat)
    requires k < |stories|
    ensures Contains(StoryBlocks(stories), StoryBlock(k + 1, stories[k]))
    decreases |stories|
  {
    var n := |stories|;
    var front := stories[..n - 1];
    if k == n - 1 {
      ContainsItself(StoryBlock(n, stories[k]));
      ContainsAppendRight(StoryBlocks(front), StoryBlock(n, stories[k]), StoryBlock(k + 1, stories[k]));
    } else {
      assert front[k] == stories[k];
      StoryListed(front, k);
      ContainsAppendLeft(StoryBlocks(front), StoryBlock(n, stories[n - 1]), StoryBlock(k + 1, stories[k]));
    }
  }

  lemma StoryInPrompt(stories: seq<string>, k: nat)
    requires k < |stories|
    ensures Contains(CommonRelationsPrompt(stories), StoryBlock(k + 1, stories[k]))
  {
    var lead := CommonRelationsLead + PatternRequest + CommonRelationsRest;
    StoryListed(stories, k);
    ContainsAppendRight(lead, StoryBlocks(stories), StoryBlock(k + 1, stories[k]));
    ContainsAppendLeft(lead + StoryBlocks(stories), CommonRelationsClosing, StoryBlock(k + 1, stories[k]));
  }

  /** A prompt that spells out a lower-case request phrase asks for it. */
  lemma AsksSpelledOut(a: string, phrase: string, b: string)
    requires Lower(phrase) == phrase
    ensures Asks(a + phrase + b, phrase)
  {
    LowerAppend(a + phrase, b);
    LowerAppend(a, phrase);
    ContainsItself(phrase);
    ContainsAppendRight(Lower(a), phrase, phrase);
    ContainsAppendLeft(Lower(a) + phrase, Lower(b), phrase);
  }

  /** A prompt that spells out the pattern request gets the pattern
    * identification, whatever surrounds it. */
  lemma SpelledOutPatternRequest(lead: string, rest: string, middle: string, closing: string)
    ensures SimulatedResponse(lead + PatternRequest + rest + middle + closing) == PatternIdentificationReply
  {
    LowerOfLower(PatternRequest);
    assert lead + PatternRequest + rest + middle + closing == lead + PatternRequest + (rest + middle + closing);
    AsksSpelledOut(lead, PatternRequest, rest + middle + closing);
    PatternReplyIff(lead + PatternRequest + rest + middle + closing);
  }

  /** Whatever the stories say, the prompt of phase 2 asks for common
    * patterns, so the reply it gets is the pattern identification. */
  lemma CommonRelationsRouting(stories: seq<string>)
    ensures SimulatedResponse(CommonRelationsPrompt(stories)) == PatternIdentificationReply
  {
    SpelledOutPatternRequest(CommonRelationsLead, CommonRelationsRest, StoryBlocks(stories), CommonRelationsClosing);
  }

  // =====================================================================
  // Phase 3: alignable differences
  // =====================================================================

  const ImprovementMechanism := "improvement_mechanism"
  const EnhancementProcess := "enhancement_process"

  /** A marked difference: the concepts one mapping aligns, or the instances
    * of one kind of relationship. */
  datatype Difference =
    | ConceptVariation(variants: seq<string>, commonAbstractConcept: string)
    | RelationshipVariation(relationshipType: string, variants: seq<string>, commonAbstractRelation: string)

  /** The concepts of a mapping, in insertion order. */
  function Values(m: ConceptMapping): (r: seq<string>)
    ensures |r| == |m|
  {
    seq(|m|, i requires 0 <= i < |m| => m[i].1)
  }

  function ConceptDifference(m: ConceptMapping): Difference {
    ConceptVariation(Values(m), ImprovementMechanism)
  }

  /** A missing type is the empty string, missing instances the empty list. */
  function RelationDifference(r: RelationMapping): Difference {
    RelationshipVariation(r.kind.GetOr(""), r.instances.GetOr([]), EnhancementProcess)
  }

  /** One concept variation per concept mapping, then one relationship
    * variation per relationship mapping, each in the mappings' order. */
  predicate MarksDifferences(differences: seq<Difference>, cr: CommonRelations) {
    var ms, rs := Mappings(cr), RelationsOf(cr);
    |differences| == |ms| + |rs|
    && (forall k :: 0 <= k < |ms| ==> differences[k] == ConceptDifference(ms[k]))
    && (forall k :: |ms| <= k < |differences| ==> differences[k] == RelationDifference(rs[k - |ms|]))
  }

  /** Phase 3. */
  method IdentifyAlignableDifferences(cr: CommonRelations) returns (differences: seq<Difference>)
    ensures MarksDifferences(differences, cr)
  {
    differences := [];
    var ms := Mappings(cr);
    for i := 0 to |ms|
      invariant |differences| == i
      invariant forall k :: 0 <= k < i ==> differences[k] == ConceptDifference(ms[k])
    {
      differences := differences + [ConceptVariation(Values(ms[i]), ImprovementMechanism)];
    }
    var rs := RelationsOf(cr);
    for j := 0 to |rs|
      invariant |differences| == |ms| + j
      invariant forall k :: 0 <= k < |ms| ==> differences[k] == ConceptDifference(ms[k])
      invariant forall k :: |ms| <= k < |differences| ==> differences[k] == RelationDifference(rs[k - |ms|])
    {
      differences := differences + [RelationshipVariation(rs[j].kind.GetOr(""), rs[j].instances.GetOr([]), EnhancementProcess)];
    }
  }

  /** The marking is determined by the relations. */
  lemma MarkingUnique(d1: seq<Difference>, d2: seq<Difference>, cr: CommonRelations)
    requires MarksDifferences(d1, cr) && MarksDifferences(d2, cr)
    ensures d1 == d2
  {
  }

  /** A concept variation lists the concepts of its mapping, one per story. */
  lemma ConceptVariantsPerStory(differences: seq<Difference>, cr: CommonRelations, i: nat)
    requires MarksDifferences(differences, cr) && i < |Mappings(cr)|
    ensures differences[i].ConceptVariation?
    ensures |differences[i].variants| == |Mappings(cr)[i]|
    ensures forall s :: 0 <= s < |Mappings(cr)[i]| ==> differences[i].variants[s] == Mappings(cr)[i][s].1
  {
  }

  /** Relations with none of the three keys have no differences. */
  lemma NoRelationsNoDifferences(differences: seq<Difference>)
    requires MarksDifferences(differences, CommonRelations(None, None, None))
    ensures differences == []
  {
  }

  /** For the fixed relations of phase 2 the differences are two concept
    * variations and one variation of `improves`. */
  lemma FixedDifferences(differences: seq<Difference>)
    requires MarksDifferences(differences, FixedCommonRelations)
    ensures differences == [
      ConceptVariation(["sorting_algorithm", "database_indexing", "software_pattern"], ImprovementMechanism),
      ConceptVariation(["efficiency", "performance", "optimization"], ImprovementMechanism),
      RelationshipVariation("improves", [
        "quicksort improves sorting speed",
        "indexing improves query performance",
        "pattern improves code organization"], EnhancementProcess)]
  {
    var ms, rs := Mappings(FixedCommonRelations), RelationsOf(FixedCommonRelations);
    assert differences[0] == ConceptDifference(ms[0]);
    assert differences[1] == ConceptDifference(ms[1]);
    assert differences[2] == RelationDifference(rs[0]);
    assert Values(ms[0]) == ["sorting_algorithm", "database_indexing", "software_pattern"];
    assert Values(ms[1]) == ["efficiency", "performance", "optimization"];
  }

  // =====================================================================
  // Phase 4: re-representation as a general principle
  // =====================================================================

  // The fixed text of the prompt, in runs of pieces short enough to scan.
  const IntroHead := ["Based on the ", "following ", "patterns and "]
  const IntroTail := ["relationships ", "identified across ", "multiple stories:\n\n"]
  const PatternsHeading := "Structural Patterns:\n"
  const MappingsHeading := "\nConcept Mappings:\n"
  const RelationsHeading := "\nRelationship Mappings:\n"
  const ClosingHead := ["\nPlease ", "abstract a general principle", " or concept that "]
  const ClosingMiddle := ["captures the ", "essence of these ", "patterns. This "]
  const ClosingLate := ["principle should ", "be applicable to ", "software "]
  const ClosingTail := ["engineering ", "education and ", "practice."]
  const ReRepresentPieces := IntroHead + IntroTail
  const ReRepresentClosingPieces := ClosingHead + ClosingMiddle + ClosingLate + ClosingTail

  function ReRepresentIntro(): string {
    Concat(ReRepresentPieces)
  }

  function ReRepresentClosing(): string {
    Concat(ReRepresentClosingPieces)
  }

  // Each run of pieces spells out its stretch of the fixed text.

  lemma IntroHeadText()
    ensures Concat(IntroHead) == "Based on the following patterns and "
  {
    ConcatThree("Based on the ", "following ", "patterns and ",
      "Based on the following ",
      "Based on the following patterns and ");
  }

  lemma IntroTailText()
    ensures Concat(IntroTail) == "relationships identified across multiple stories:\n\n"
  {
    ConcatThree("relationships ", "identified across ", "multiple stories:\n\n",
      "relationships identified across ",
      "relationships identified across multiple stories:\n\n");
  }

  lemma ClosingHeadText()
    ensures Concat(ClosingHead) == "\nPlease abstract a general principle or concept that "
  {
    ClosingHeadJoins();
    ConcatThree("\nPlease ", "abstract a general principle", " or concept that ",
      "\nPlease abstract a general principle",
      "\nPlease abstract a general principle or concept that ");
  }

  lemma ClosingHeadJoins()
    ensures "\nPlease " + "abstract a general principle" == "\nPlease abstract a general principle"
    ensures "\nPlease abstract a general principle" + " or concept that " == "\nPlease abstract a general principle or concept that "
  {
  }

  lemma ClosingMiddleText()
    ensures Concat(ClosingMiddle) == "captures the essence of these patterns. This "
  {
    ConcatThree("captures the ", "essence of these ", "patterns. This ",
      "captures the essence of these ",
      "captures the essence of these patterns. This ");
  }

  lemma ClosingLateText()
    ensures Concat(ClosingLate) == "principle should be applicable to software "
  {
    ConcatThree("principle should ", "be applicable to ", "software ",
      "principle should be applicable to ",
      "principle should be applicable to software ");
  }

  lemma ClosingTailText()
    ensures Concat(ClosingTail) == "engineering education and practice."
  {
    ConcatThree("engineering ", "education and ", "practice.",
      "engineering education and ",
      "engineering education and practice.");
  }

  /** The opening sentence of the phase-4 prompt. */
  lemma ReRepresentIntroText()
    ensures ReRepresentIntro()
         == "Based on the following patterns and " + "relationships identified across multiple stories:\n\n"
  {
    ConcatAppend(IntroHead, IntroTail);
    IntroHeadText(); IntroTailText();
  }

  /** The closing request of the phase-4 prompt. */
  lemma ReRepresentClosingText()
    ensures ReRepresentClosing()
         == "\nPlease abstract a general principle or concept that "
          + "captures the essence of these patterns. This "
          + "principle should be applicable to software "
          + "engineering education and practice."
  {
    ConcatAppend(ClosingHead + ClosingMiddle + ClosingLate, ClosingTail);
    ConcatAppend(ClosingHead + ClosingMiddle, ClosingLate);
    ConcatAppend(ClosingHead, ClosingMiddle);
    ClosingHeadText(); ClosingMiddleText(); ClosingLateText(); ClosingTailText();
  }

  /** A bullet line of the prompt. */
  function Item(u: string): string {
    "- " + u + "\n"
  }

  function PairText(kv: (string, string)): string {
    kv.0 + ": " + kv.1
  }

  function PairTexts(m: ConceptMapping): seq<string> {
    seq(|m|, i requires 0 <= i < |m| => PairText(m[i]))
  }

  function TypeLine(r: RelationMapping): string {
    "- Type: " + r.kind.GetOr("") + "\n"
  }

  function InstancesLine(r: RelationMapping): string {
    "  Instances: " + Join(r.instances.GetOr([]), ", ") + "\n"
  }

  function RelationText(r: RelationMapping): string {
    TypeLine(r) + InstancesLine(r)
  }

  function PatternItems(ps: seq<string>): seq<string> {
    seq(|ps|, i requires 0 <= i < |ps| => Item(ps[i]))
  }

  function MappingItems(ms: seq<ConceptMapping>): seq<string> {
    seq(|ms|, i requires 0 <= i < |ms| => Item(Join(PairTexts(ms[i]), ", ")))
  }

  function RelationItems(rs: seq<RelationMapping>): seq<string> {
    seq(|rs|, i requires 0 <= i < |rs| => RelationText(rs[i]))
  }

  function ReRepresentPrompt(cr: CommonRelations): string {
    ReRepresentIntro() + PatternsHeading + Concat(PatternItems(Patterns(cr)))
    + MappingsHeading + Concat(MappingItems(Mappings(cr)))
    + RelationsHeading + Concat(RelationItems(RelationsOf(cr)))
    + ReRepresentClosing()
  }

  /** Appending one more item to a list of items. */
  lemma ConcatSnoc(cs: seq<string>, c: string)
    ensures Concat(cs + [c]) == Concat(cs) + c
  {
    assert (cs + [c])[..|cs|] == cs;
  }

  lemma PatternItemsStep(prompt0: string, ps: seq<string>, i: nat)
    requires i < |ps|
    ensures prompt0 + Concat(PatternItems(ps[..i + 1])) == prompt0 + Concat(PatternItems(ps[..i])) + Item(ps[i])
  {
    assert PatternItems(ps[..i + 1]) == PatternItems(ps[..i]) + [Item(ps[i])];
    ConcatSnoc(PatternItems(ps[..i]), Item(ps[i]));
  }

  lemma MappingItemsStep(prompt0: string, ms: seq<ConceptMapping>, i: nat)
    requires i < |ms|
    ensures prompt0 + Concat(MappingItems(ms[..i + 1])) == prompt0 + Concat(MappingItems(ms[..i])) + Item(Join(PairTexts(ms[i]), ", "))
  {
    assert MappingItems(ms[..i + 1]) == MappingItems(ms[..i]) + [Item(Join(PairTexts(ms[i]), ", "))];
    ConcatSnoc(MappingItems(ms[..i]), Item(Join(PairTexts(ms[i]), ", ")));
  }

  lemma RelationItemsStep(prompt0: string, rs: seq<RelationMapping>, i: nat)
    requires i < |rs|
    ensures prompt0 + Concat(RelationItems(rs[..i + 1])) == prompt0 + Concat(RelationItems(rs[..i])) + TypeLine(rs[i]) + InstancesLine(rs[i])
  {
    assert RelationItems(rs[..i + 1]) == RelationItems(rs[..i]) + [RelationText(rs[i])];
    ConcatSnoc(RelationItems(rs[..i]), RelationText(rs[i]));
  }

  /** Appends one bullet line per structural pattern. */
  method AppendPatterns(prompt0: string, ps: seq<string>) returns (prompt: string)
    ensures prompt == prompt0 + Concat(PatternItems(ps))
  {
    prompt := prompt0;
    for i := 0 to |ps|
      invariant prompt == prompt0 + Concat(PatternItems(ps[..i]))
    {
      PatternItemsStep(prompt0, ps, i);
      prompt := prompt + Item(ps[i]);
    }
    assert ps[..|ps|] == ps;
  }

  /** Appends one bullet line per concept mapping, its pairs joined by commas. */
  method AppendMappings(prompt0: string, ms: seq<ConceptMapping>) returns (prompt: string)
    ensures prompt == prompt0 + Concat(MappingItems(ms))
  {
    prompt := prompt0;
    for i := 0 to |ms|
      invariant prompt == prompt0 + Concat(MappingItems(ms[..i]))
    {
      MappingItemsStep(prompt0, ms, i);
      prompt := prompt + Item(Join(PairTexts(ms[i]), ", "));
    }
    assert ms[..|ms|] == ms;
  }

  /** Appends a type line and an instances line per relationship mapping. */
  method AppendRelations(prompt0: string, rs: seq<RelationMapping>) returns (prompt: string)
    ensures prompt == prompt0 + Concat(RelationItems(rs))
  {
    prompt := prompt0;
    for i := 0 to |rs|
      invariant prompt == prompt0 + Concat(RelationItems(rs[..i]))
    {
      RelationItemsStep(prompt0, rs, i);
      prompt := prompt + TypeLine(rs[i]);
      prompt := prompt + InstancesLine(rs[i]);
    }
    assert rs[..|rs|] == rs;
  }

  /** Phase 4: sends the relations to the model and returns its reply. */
  method ReRepresentRelations(cr: CommonRelations, llm: LLMInterface) returns (principle: string)
    modifies llm`prompts
    ensures llm.prompts == old(llm.prompts) + [ReRepresentPrompt(cr)]
    ensures principle == SimulatedResponse(ReRepresentPrompt(cr))
  {
    var prompt := ReRepresentIntro();
    prompt := prompt + PatternsHeading;
    prompt := AppendPatterns(prompt, Patterns(cr));
    prompt := prompt + MappingsHeading;
    prompt := AppendMappings(prompt, Mappings(cr));
    prompt := prompt + RelationsHeading;
    prompt := AppendRelations(prompt, RelationsOf(cr));
    prompt := prompt + ReRepresentClosing();
    principle := llm.GenerateResponse(prompt);
  }

  /** Every structural pattern has its bullet line in the prompt. */
  lemma PatternListed(cr: CommonRelations, i: nat)
    requires i < |Patterns(cr)|
    ensures Contains(ReRepresentPrompt(cr), Item(Patterns(cr)[i]))
  {
    var a := ReRepresentIntro() + PatternsHeading;
    var b := Concat(PatternItems(Patterns(cr)));
    var c := MappingsHeading + Concat(MappingItems(Mappings(cr)))
      + RelationsHeading + Concat(RelationItems(RelationsOf(cr))) + ReRepresentClosing();
    assert ReRepresentPrompt(cr) == a + b + c;
    ConcatHasPiece(PatternItems(Patterns(cr)), i);
    ContainsInMiddle(a, b, c, Item(Patterns(cr)[i]));
  }

  /** Every concept mapping has its line of comma-separated pairs in the prompt. */
  lemma MappingListed(cr: CommonRelations, i: nat)
    requires i < |Mappings(cr)|
    ensures Contains(ReRepresentPrompt(cr), Item(Join(PairTexts(Mappings(cr)[i]), ", ")))
  {
    var a := ReRepresentIntro() + PatternsHeading + Concat(PatternItems(Patterns(cr))) + MappingsHeading;
    var b := Concat(MappingItems(Mappings(cr)));
    var c := RelationsHeading + Concat(RelationItems(RelationsOf(cr))) + ReRepresentClosing();
    assert ReRepresentPrompt(cr) == a + b + c;
    ConcatHasPiece(MappingItems(Mappings(cr)), i);
    ContainsInMiddle(a, b, c, Item(Join(PairTexts(Mappings(cr)[i]), ", ")));
  }

  /** Every relationship mapping has its type line and instances line in the prompt. */
  lemma RelationListed(cr: CommonRelations, i: nat)
    requires i < |RelationsOf(cr)|
    ensures Contains(ReRepresentPrompt(cr), RelationText(RelationsOf(cr)[i]))
  {
    var a := ReRepresentIntro() + PatternsHeading + Concat(PatternItems(Patterns(cr)))
      + MappingsHeading + Concat(MappingItems(Mappings(cr))) + RelationsHeading;
    var b := Concat(RelationItems(RelationsOf(cr)));
    ConcatHasPiece(RelationItems(RelationsOf(cr)), i);
    ContainsInMiddle(a, b, ReRepresentClosing(), RelationText(RelationsOf(cr)[i]));
  }

  // ---------------------------------------------------------------------
  // Which reply the prompt of phase 4 gets
  // ---------------------------------------------------------------------

  /** Characters the prompt of phase 4 puts between the user's texts. */
  predicate IsSeparator(c: char) {
    c == '\n' || c == '-' || c == ':' || c == ','
  }

  /** A phrase that cannot straddle a separator, begin after a label's
    * trailing blank, or fit in a label of the prompt. */
  predicate FieldSafe(p: string) {
    |p| >= 14 && p[0] != ' ' && forall j :: 0 <= j < |p| ==> !IsSeparator(p[j])
  }

  /** Some text of `xs` asks for `p`. */
  predicate AnyAsks(xs: seq<string>, p: string) {
    exists i :: 0 <= i < |xs| && Asks(xs[i], p)
  }

  lemma ShortLabel(x: string, p: string)
    requires |x| < |p|
    ensures !Asks(x, p)
  {
    ShortNotContains(Lower(x), p);
  }

  lemma SplitBeforeSeparator(x: string, y: string, p: string)
    requires FieldSafe(p) && y != [] && IsSeparator(y[0])
    ensures Asks(x + y, p) <==> Asks(x, p) || Asks(y, p)
  {
    LowerAppend(x, y);
    assert Lower(y)[0] == y[0];
    ContainsJoinedIff(Lower(x), Lower(y), p);
  }

  lemma SplitAfterSeparator(x: string, y: string, p: string)
    requires FieldSafe(p) && x != [] && IsSeparator(x[|x| - 1])
    ensures Asks(x + y, p) <==> Asks(x, p) || Asks(y, p)
  {
    LowerAppend(x, y);
    assert Lower(x)[|x| - 1] == x[|x| - 1];
    ContainsJoinedIff(Lower(x), Lower(y), p);
  }

  lemma SplitAfterGap(x: string, y: string, p: string)
    requires FieldSafe(p) && |x| >= 2 && x[|x| - 1] == ' ' && IsSeparator(x[|x| - 2])
    ensures Asks(x + y, p) <==> Asks(x, p) || Asks(y, p)
  {
    LowerAppend(x, y);
    assert Lower(x)[|x| - 1] == ' ' && Lower(x)[|x| - 2] == x[|x| - 2];
    ContainsJoinedIff(Lower(x), Lower(y), p);
  }

  lemma ItemAsks(u: string, p: string)
    requires FieldSafe(p)
    ensures Asks(Item(u), p) <==> Asks(u, p)
  {
    SplitBeforeSeparator("- " + u, "\n", p);
    SplitAfterGap("- ", u, p);
    ShortLabel("- ", p);
    ShortLabel("\n", p);
  }

  lemma PairAsks(kv: (string, string), p: string)
    requires FieldSafe(p)
    ensures Asks(PairText(kv), p) <==> Asks(kv.0, p) || Asks(kv.1, p)
  {
    SplitAfterGap(kv.0 + ": ", kv.1, p);
    SplitBeforeSeparator(kv.0, ": ", p);
    ShortLabel(": ", p);
  }

  /** A comma-joined list asks for `p` exactly when one of its texts does. */
  lemma {:induction false} JoinAsks(xs: seq<string>, p: string)
    requires FieldSafe(p)
    ensures Asks(Join(xs, ", "), p) <==> AnyAsks(xs, p)
    decreases |xs|
  {
    if |xs| == 0 {
      ShortLabel([], p);
    } else if |xs| == 1 {
      assert Join(xs, ", ") == xs[0];
    } else {
      var rest := Join(xs[1..], ", ");
      assert Join(xs, ", ") == xs[0] + ", " + rest;
      SplitAfterGap(xs[0] + ", ", rest, p);
      SplitBeforeSeparator(xs[0], ", ", p);
      ShortLabel(", ", p);
      JoinAsks(xs[1..], p);
      if AnyAsks(xs[1..], p) {
        var i :| 0 <= i < |xs[1..]| && Asks(xs[1..][i], p);
        assert Asks(xs[i + 1], p);
      }
      if AnyAsks(xs, p) && !Asks(xs[0], p) {
        var i :| 0 <= i < |xs| && Asks(xs[i], p);
        assert xs[1..][i - 1] == xs[i];
      }
    }
  }

  /** Some pair of the mapping asks for `p`, in its key or its concept. */
  predicate MappingAsks(m: ConceptMapping, p: string) {
    exists i :: 0 <= i < |m| && (Asks(m[i].0, p) || Asks(m[i].1, p))
  }

  /** The relationship's type or one of its instances asks for `p`. */
  predicate RelationAsks(r: RelationMapping, p: string) {
    Asks(r.kind.GetOr(""), p) || AnyAsks(r.instances.GetOr([]), p)
  }

  lemma MappingLineAsks(m: ConceptMapping, p: string)
    requires FieldSafe(p)
    ensures Asks(Item(Join(PairTexts(m), ", ")), p) <==> MappingAsks(m, p)
  {
    ItemAsks(Join(PairTexts(m), ", "), p);
    JoinAsks(PairTexts(m), p);
    forall i | 0 <= i < |m|
      ensures Asks(PairTexts(m)[i], p) <==> Asks(m[i].0, p) || Asks(m[i].1, p)
    {
      PairAsks(m[i], p);
    }
  }

  lemma RelationTextAsks(r: RelationMapping, p: string)
    requires FieldSafe(p)
    ensures Asks(RelationText(r), p) <==> RelationAsks(r, p)
  {
    var t, j := r.kind.GetOr(""), Join(r.instances.GetOr([]), ", ");
    SplitAfterSeparator(TypeLine(r), InstancesLine(r), p);
    SplitBeforeSeparator("- Type: " + t, "\n", p);
    SplitAfterGap("- Type: ", t, p);
    SplitBeforeSeparator("  Instances: " + j, "\n", p);
    SplitAfterGap("  Instances: ", j, p);
    ShortLabel("- Type: ", p);
    ShortLabel("  Instances: ", p);
    ShortLabel("\n", p);
    JoinAsks(r.instances.GetOr([]), p);
  }

  /** Lines that each begin with a bullet ask for `p` exactly when one of them does. */
  lemma {:induction false} ItemsAsk(cs: seq<string>, p: string)
    requires FieldSafe(p)
    requires forall i :: 0 <= i < |cs| ==> cs[i] != [] && cs[i][0] == '-'
    ensures Asks(Concat(cs), p) <==> AnyAsks(cs, p)
    decreases |cs|
  {
    if cs == [] {
      ShortLabel([], p);
    } else {
      var front := cs[..|cs| - 1];
      ConcatLast(cs);
      SplitBeforeSeparator(Concat(front), cs[|cs| - 1], p);
      ItemsAsk(front, p);
      if AnyAsks(front, p) {
        var i :| 0 <= i < |front| && Asks(front[i], p);
        assert Asks(cs[i], p);
      }
      if AnyAsks(cs, p) && !Asks(cs[|cs| - 1], p) {
        var i :| 0 <= i < |cs| && Asks(cs[i], p);
        assert front[i] == cs[i];
      }
    }
  }

  lemma PatternsAsk(ps: seq<string>, p: string)
    requires FieldSafe(p)
    ensures Asks(Concat(PatternItems(ps)), p) <==> AnyAsks(ps, p)
  {
    ItemsAsk(PatternItems(ps), p);
    forall i | 0 <= i < |ps|
      ensures Asks(PatternItems(ps)[i], p) <==> Asks(ps[i], p)
    {
      ItemAsks(ps[i], p);
    }
  }

  lemma MappingsAsk(ms: seq<ConceptMapping>, p: string)
    requires FieldSafe(p)
    ensures Asks(Concat(MappingItems(ms)), p) <==> exists i :: 0 <= i < |ms| && MappingAsks(ms[i], p)
  {
    ItemsAsk(MappingItems(ms), p);
    forall i | 0 <= i < |ms|
      ensures Asks(MappingItems(ms)[i], p) <==> MappingAsks(ms[i], p)
    {
      MappingLineAsks(ms[i], p);
    }
  }

  lemma RelationsAsk(rs: seq<RelationMapping>, p: string)
    requires FieldSafe(p)
    ensures Asks(Concat(RelationItems(rs)), p) <==> exists i :: 0 <= i < |rs| && RelationAsks(rs[i], p)
  {
    ItemsAsk(RelationItems(rs), p);
    forall i | 0 <= i < |rs|
      ensures Asks(RelationItems(rs)[i], p) <==> RelationAsks(rs[i], p)
    {
      RelationTextAsks(rs[i], p);
    }
  }

  /** The user's texts in the relations: patterns, mapping keys and concepts,
    * relationship types and instances; some of them asks for `p`. */
  predicate UserTextAsks(cr: CommonRelations, p: string) {
    AnyAsks(Patterns(cr), p)
    || (exists i :: 0 <= i < |Mappings(cr)| && MappingAsks(Mappings(cr)[i], p))
    || (exists i :: 0 <= i < |RelationsOf(cr)| && RelationAsks(RelationsOf(cr)[i], p))
  }

  /** The fixed text of the prompt does not ask for `p`. */
  predicate FixedTextSilent(p: string) {
    !Asks(ReRepresentIntro(), p) && !Asks(PatternsHeading, p) && !Asks(MappingsHeading, p)
    && !Asks(RelationsHeading, p) && !Asks(ReRepresentClosing(), p)
  }

  /** The introduction ends a line and the closing begins one. */
  lemma FixedTextEdges()
    ensures ReRepresentIntro() != [] && ReRepresentIntro()[|ReRepresentIntro()| - 1] == '\n'
    ensures ReRepresentClosing() != [] && ReRepresentClosing()[0] == '\n'
  {
    ConcatLast(ReRepresentPieces);
    ConcatFront(ReRepresentClosingPieces);
  }

  /** When its fixed text is silent on `p`, the prompt of phase 4 asks for
    * `p` exactly when the user's texts do. */
  lemma ReRepresentAsks(cr: CommonRelations, p: string)
    requires FieldSafe(p) && FixedTextSilent(p)
    ensures Asks(ReRepresentPrompt(cr), p) <==> UserTextAsks(cr, p)
  {
    FixedTextEdges();
    var a1 := ReRepresentIntro() + PatternsHeading;
    var a2 := a1 + Concat(PatternItems(Patterns(cr)));
    var a3 := a2 + MappingsHeading;
    var a4 := a3 + Concat(MappingItems(Mappings(cr)));
    var a5 := a4 + RelationsHeading;
    var a6 := a5 + Concat(RelationItems(RelationsOf(cr)));
    SplitBeforeSeparator(a6, ReRepresentClosing(), p);
    SplitAfterSeparator(a5, Concat(RelationItems(RelationsOf(cr))), p);
    SplitBeforeSeparator(a4, RelationsHeading, p);
    SplitAfterSeparator(a3, Concat(MappingItems(Mappings(cr))), p);
    SplitBeforeSeparator(a2, MappingsHeading, p);
    SplitAfterSeparator(a1, Concat(PatternItems(Patterns(cr))), p);
    SplitAfterSeparator(ReRepresentIntro(), PatternsHeading, p);
    PatternsAsk(Patterns(cr), p);
    MappingsAsk(Mappings(cr), p);
    RelationsAsk(RelationsOf(cr), p);
  }

  // The pattern request is safe to split on, and the fixed text has no "y",
  // which the pattern request has.  Each scan is its own lemma, to keep
  // each proof small.

  lemma PatternRequestFieldSafe()
    ensures FieldSafe(PatternRequest)
  {
  }

  lemma AvoidsPatternLetter(w: string)
    requires Avoids(w, 'y')
    ensures !Asks(w, PatternRequest)
  {
    assert PatternRequest[7] == 'y';
    AvoidsNotContains(w, PatternRequest, 7);
  }

  lemma IntroHeadScan()
    ensures forall i :: 0 <= i < |IntroHead| ==> Avoids(IntroHead[i], 'y')
  {
  }

  lemma IntroTailScan()
    ensures forall i :: 0 <= i < |IntroTail| ==> Avoids(IntroTail[i], 'y')
  {
  }

  lemma ClosingHeadScan()
    ensures forall i :: 0 <= i < |ClosingHead| ==> Avoids(ClosingHead[i], 'y')
  {
  }

  lemma ClosingMiddleScan()
    ensures forall i :: 0 <= i < |ClosingMiddle| ==> Avoids(ClosingMiddle[i], 'y')
  {
  }

  lemma ClosingLateScan()
    ensures forall i :: 0 <= i < |ClosingLate| ==> Avoids(ClosingLate[i], 'y')
  {
  }

  lemma ClosingTailScan()
    ensures forall i :: 0 <= i < |ClosingTail| ==> Avoids(ClosingTail[i], 'y')
  {
  }

  lemma PatternsHeadingScan()
    ensures Avoids(PatternsHeading, 'y')
  {
  }

  lemma MappingsHeadingScan()
    ensures Avoids(MappingsHeading, 'y')
  {
  }

  lemma RelationsHeadingScan()
    ensures Avoids(RelationsHeading, 'y')
  {
  }

  lemma FixedTextSilentOnPatterns()
    ensures FixedTextSilent(PatternRequest)
  {
    IntroHeadScan();
    IntroTailScan();
    ConcatAvoids(ReRepresentPieces, 'y');
    AvoidsPatternLetter(ReRepresentIntro());
    ClosingHeadScan();
    ClosingMiddleScan();
    ClosingLateScan();
    ClosingTailScan();
    ConcatAvoids(ReRepresentClosingPieces, 'y');
    AvoidsPatternLetter(ReRepresentClosing());
    PatternsHeadingScan();
    MappingsHeadingScan();
    RelationsHeadingScan();
    AvoidsPatternLetter(PatternsHeading);
    AvoidsPatternLetter(MappingsHeading);
    AvoidsPatternLetter(RelationsHeading);
  }

  /** The closing asks for a general principle. */
  lemma ClosingAsksPrinciple()
    ensures Asks(ReRepresentClosing(), PrincipleRequest)
  {
    var cs := ReRepresentClosingPieces;
    ConcatFront(cs);
    ConcatFront(cs[1..]);
    assert cs[1..][0] == PrincipleRequest && cs[1..][1..] == cs[2..];
    LowerOfLower(PrincipleRequest);
    assert ReRepresentClosing() == cs[0] + PrincipleRequest + Concat(cs[2..]);
    AsksSpelledOut(cs[0], PrincipleRequest, Concat(cs[2..]));
  }

  /** The prompt of phase 4 gets the pattern identification when one of the
    * user's texts asks for common patterns, and the principle otherwise. */
  lemma ReRepresentRouting(cr: CommonRelations)
    ensures SimulatedResponse(ReRepresentPrompt(cr))
      == if UserTextAsks(cr, PatternRequest) then PatternIdentificationReply else PrincipleAbstractionReply
  {
    var prompt := ReRepresentPrompt(cr);
    PatternRequestFieldSafe();
    FixedTextSilentOnPatterns();
    ReRepresentAsks(cr, PatternRequest);
    ClosingAsksPrinciple();
    var front := ReRepresentIntro() + PatternsHeading + Concat(PatternItems(Patterns(cr)))
      + MappingsHeading + Concat(MappingItems(Mappings(cr)))
      + RelationsHeading + Concat(RelationItems(RelationsOf(cr)));
    LowerAppend(front, ReRepresentClosing());
    ContainsAppendRight(Lower(front), Lower(ReRepresentClosing()), PrincipleRequest);
    PatternReplyIff(prompt);
    PrincipleReplyIff(prompt);
  }

  lemma FixedPatternsSilent()
    ensures !AnyAsks(Patterns(FixedCommonRelations), PatternRequest)
  {
    var ps := Patterns(FixedCommonRelations);
    forall i | 0 <= i < |ps|
      ensures !Asks(ps[i], PatternRequest)
    {
      ShortLabel(ps[i], PatternRequest);
    }
  }

  lemma FixedMappingsSilent()
    ensures forall i :: 0 <= i < |Mappings(FixedCommonRelations)| ==> !MappingAsks(Mappings(FixedCommonRelations)[i], PatternRequest)
  {
    var ms: seq<ConceptMapping> := Mappings(FixedCommonRelations);
    forall i: int, j: int | 0 <= i < |ms| && 0 <= j < |ms[i]|
      ensures !Asks(ms[i][j].0, PatternRequest) && !Asks(ms[i][j].1, PatternRequest)
    {
      ShortLabel(ms[i][j].0, PatternRequest);
      ShortLabel(ms[i][j].1, PatternRequest);
    }
  }

  lemma QuicksortInstanceScan()
    ensures Avoids("quicksort improves sorting speed", 'y')
  {
  }

  lemma IndexingHeadScan()
    ensures Avoids("indexing improves query", 'f')
  {
  }

  lemma IndexingTailScan()
    ensures Avoids(" performance", 'y')
  {
  }

  /** "indexing improves query performance" has an "f" and a "y", but
    * never the one right after the other. */
  lemma IndexingInstanceSilent()
    ensures !Asks("indexing improves query performance", PatternRequest)
  {
    var x, y := "indexing improves query", " performance";
    IndexingHeadScan();
    IndexingTailScan();
    PairAvoided(x, y, PatternGram);
    assert x + y == "indexing improves query performance";
    RequestGrams();
    NotContainsPart(Lower(x + y), PatternRequest, 6, 8);
  }

  lemma PatternInstanceScan()
    ensures Avoids("pattern improves code organization", 'y')
  {
  }

  lemma FixedRelationsSilent()
    ensures forall i :: 0 <= i < |RelationsOf(FixedCommonRelations)| ==> !RelationAsks(RelationsOf(FixedCommonRelations)[i], PatternRequest)
  {
    var r := RelationsOf(FixedCommonRelations)[0];
    var xs := r.instances.GetOr([]);
    ShortLabel(r.kind.GetOr(""), PatternRequest);
    QuicksortInstanceScan();
    AvoidsPatternLetter(xs[0]);
    IndexingInstanceSilent();
    PatternInstanceScan();
    AvoidsPatternLetter(xs[2]);
  }

  /** The relations phase 2 returns never ask for common patterns, so
    * phase 4 always gets the general principle for them. */
  lemma FixedRelationsGetPrinciple()
    ensures !UserTextAsks(FixedCommonRelations, PatternRequest)
    ensures SimulatedResponse(ReRepresentPrompt(FixedCommonRelations)) == PrincipleAbstractionReply
  {
    FixedPatternsSilent();
    FixedMappingsSilent();
    FixedRelationsSilent();
    ReRepresentRouting(FixedCommonRelations);
  }
}
