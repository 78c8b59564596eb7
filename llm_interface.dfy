/**
 * The gateway to the language model.  In this prototype the model is
 * simulated: the reply is chosen by looking for a few request phrases in the
 * lower-cased prompt, in a fixed order of priority, and is one of a handful of
 * canned texts.
 */
module Llm {
  import opened Text
  import opened Options

  /** The settings read from the configuration mapping; an absent key is `None`. */
  datatype Config = Config(
    apiKey: Option<string>,
    model: Option<string>,
    temperature: Option<real>,
    maxTokens: Option<int>)

  const DefaultApiKey := "mock_api_key"
  const DefaultModel := "gpt-3.5-turbo"
  const DefaultTemperature: real := 0.7
  const DefaultMaxTokens := 1000

  // The request phrases the simulator looks for, in order of priority.
  const PatternRequest := "identify common patterns"
  const PrincipleRequest := "abstract a general principle"
  const StoryRequest := "generate a story"

  // A two- to four-letter piece of each request phrase: a text that lacks
  // the piece cannot mention the phrase.
  const PatternGram := "fy"
  const PrincipleGram := "bs"
  const StoryGram := "a st"

  /** Where each gram sits in its request phrase. */
  lemma RequestGrams()
    ensures PatternRequest[6..8] == PatternGram
    ensures PrincipleRequest[1..3] == PrincipleGram
    ensures StoryRequest[9..13] == StoryGram
  {
    assert PatternRequest[6] == 'f' && PatternRequest[7] == 'y';
    assert PrincipleRequest[1] == 'b' && PrincipleRequest[2] == 's';
    assert StoryRequest[9] == 'a' && StoryRequest[10] == ' ' && StoryRequest[11] == 's' && StoryRequest[12] == 't';
  }

  // The phrases that choose among the canned stories, in order of priority.
  const SortingTopic := "sorting algorithms"
  const IndexingTopic := "database indexing"
  const DesignPatternsTopic := "software design patterns"
  const PatternTopic := "software pattern"
  const TestingTopic := "software testing"

  // The canned replies, each long text represented by its opening line.
  // Within the modelled phases a reply is only ever returned, never read.
  const PatternIdentificationReply := "\nI've identified the following common patterns across the stories:\n"
  const PrincipleAbstractionReply := "\n# The Optimization-Complexity Trade-off Principle\n"
  const SortingStory := "\n# The Tale of Sorting Algorithms\n"
  const IndexingStory := "\n# The Database Indexing Journey\n"
  const DesignPatternsStory := "\n# Evolving Through Design Patterns\n"
  const TestingStory := "\n# The Testing Transformation\n"
  const GenericStory := "\n# A Story About Software Engineering\n"
  const DefaultReply := "This is a simulated response from the LLM."

  const StoryReplies: seq<string> := [SortingStory, IndexingStory, DesignPatternsStory, TestingStory, GenericStory]
  const Replies: seq<string> := [PatternIdentificationReply, PrincipleAbstractionReply] + StoryReplies + [DefaultReply]

  /** The prompt asks for the request phrase `phrase`, ignoring case. */
  predicate Asks(prompt: string, phrase: string) {
    Contains(Lower(prompt), phrase)
  }

  /** The simulated story: chosen by the first topic the prompt mentions. */
  function StoryReply(prompt: string): (r: string)
    ensures r in StoryReplies
  {
    if Asks(prompt, SortingTopic) then SortingStory
    else if Asks(prompt, IndexingTopic) then IndexingStory
    else if Asks(prompt, DesignPatternsTopic) || Asks(prompt, PatternTopic) then DesignPatternsStory
    else if Asks(prompt, TestingTopic) then TestingStory
    else GenericStory
  }

  /** The simulated model: the first request phrase found decides the reply. */
  function SimulatedResponse(prompt: string): (r: string)
    ensures r in Replies
  {
    if Asks(prompt, PatternRequest) then PatternIdentificationReply
    else if Asks(prompt, PrincipleRequest) then PrincipleAbstractionReply
    else if Asks(prompt, StoryRequest) then StoryReply(prompt)
    else DefaultReply
  }

  lemma RepliesDistinct()
    ensures forall i, j :: 0 <= i < j < |Replies| ==> Replies[i] != Replies[j]
  {
  }

  /** The pattern reply comes back exactly when the prompt asks to identify common patterns. */
  lemma PatternReplyIff(prompt: string)
    ensures SimulatedResponse(prompt) == PatternIdentificationReply <==> Asks(prompt, PatternRequest)
  {
    RepliesDistinct();
  }

  /** The principle reply comes back exactly when the prompt asks for a
      principle and not for common patterns. */
  lemma PrincipleReplyIff(prompt: string)
    ensures SimulatedResponse(prompt) == PrincipleAbstractionReply
        <==> !Asks(prompt, PatternRequest) && Asks(prompt, PrincipleRequest)
  {
    RepliesDistinct();
  }

  /** A story comes back exactly when the prompt asks for one and for
      neither of the two requests that take priority. */
  lemma StoryReplyIff(prompt: string)
    ensures SimulatedResponse(prompt) in StoryReplies
        <==> !Asks(prompt, PatternRequest) && !Asks(prompt, PrincipleRequest) && Asks(prompt, StoryRequest)
  {
    RepliesDistinct();
  }

  /** The default reply comes back exactly when no request phrase occurs. */
  lemma DefaultReplyIff(prompt: string)
    ensures SimulatedResponse(prompt) == DefaultReply
        <==> !Asks(prompt, PatternRequest) && !Asks(prompt, PrincipleRequest) && !Asks(prompt, StoryRequest)
  {
    RepliesDistinct();
  }

  /** Which story comes back: the topics are tried in order. */
  lemma StoryChoice(prompt: string)
    ensures StoryReply(prompt) == SortingStory <==> Asks(prompt, SortingTopic)
    ensures StoryReply(prompt) == IndexingStory <==> !Asks(prompt, SortingTopic) && Asks(prompt, IndexingTopic)
    ensures StoryReply(prompt) == DesignPatternsStory
        <==> !Asks(prompt, SortingTopic) && !Asks(prompt, IndexingTopic)
             && (Asks(prompt, DesignPatternsTopic) || Asks(prompt, PatternTopic))
    ensures StoryReply(prompt) == TestingStory
        <==> !Asks(prompt, SortingTopic) && !Asks(prompt, IndexingTopic)
             && !Asks(prompt, DesignPatternsTopic) && !Asks(prompt, PatternTopic) && Asks(prompt, TestingTopic)
    ensures StoryReply(prompt) == GenericStory
        <==> !Asks(prompt, SortingTopic) && !Asks(prompt, IndexingTopic)
             && !Asks(prompt, DesignPatternsTopic) && !Asks(prompt, PatternTopic) && !Asks(prompt, TestingTopic)
  {
    RepliesDistinct();
  }

  /** Matching ignores case: a prompt and its lower-cased form get the same reply. */
  lemma ResponseIgnoresCase(prompt: string)
    ensures SimulatedResponse(Lower(prompt)) == SimulatedResponse(prompt)
  {
    AsksIgnoresCase(prompt, PatternRequest);
    AsksIgnoresCase(prompt, PrincipleRequest);
    AsksIgnoresCase(prompt, StoryRequest);
    StoryIgnoresCase(prompt);
  }

  /** The story chosen for a prompt and for its lower-cased form is the same. */
  lemma StoryIgnoresCase(prompt: string)
    ensures StoryReply(Lower(prompt)) == StoryReply(prompt)
  {
    AsksIgnoresCase(prompt, SortingTopic);
    AsksIgnoresCase(prompt, IndexingTopic);
    AsksIgnoresCase(prompt, DesignPatternsTopic);
    AsksIgnoresCase(prompt, PatternTopic);
    AsksIgnoresCase(prompt, TestingTopic);
  }

  /** Lower-casing a prompt again changes none of the phrases it asks for. */
  lemma AsksIgnoresCase(prompt: string, phrase: string)
    ensures Asks(Lower(prompt), phrase) == Asks(prompt, phrase)
  {
    LowerOfLower(Lower(prompt));
  }

  /** The language-model client.  Its settings are fixed when it is built;
      `prompts` records, oldest first, every prompt sent through it. */
  class LLMInterface {
    const apiKey: string
    const model: string
    const temperature: real
    const maxTokens: int
    ghost var prompts: seq<string>

    /** Each setting comes from the configuration, or its default when absent. */
    constructor (config: Config)
      ensures apiKey == config.apiKey.GetOr(DefaultApiKey)
      ensures model == config.model.GetOr(DefaultModel)
      ensures temperature == config.temperature.GetOr(DefaultTemperature)
      ensures maxTokens == config.maxTokens.GetOr(DefaultMaxTokens)
      ensures prompts == []
    {
      apiKey := config.apiKey.GetOr(DefaultApiKey);
      model := config.model.GetOr(DefaultModel);
      temperature := config.temperature.GetOr(DefaultTemperature);
      maxTokens := config.maxTokens.GetOr(DefaultMaxTokens);
      prompts := [];
    }

    /** Sends `prompt` and returns the simulated model's reply. */
    method GenerateResponse(prompt: string) returns (reply: string)
      modifies this`prompts
      ensures prompts == old(prompts) + [prompt]
      ensures reply == SimulatedResponse(prompt)
    {
      prompts := prompts + [prompt];
      var lowered := Lower(prompt);
      if Contains(lowered, PatternRequest) {
        reply := PatternIdentificationReply;
      } else if Contains(lowered, PrincipleRequest) {
        reply := PrincipleAbstractionReply;
      } else if Contains(lowered, StoryRequest) {
        reply := StoryReply(prompt);
      } else {
        reply := DefaultReply;
      }
    }
  }
}
