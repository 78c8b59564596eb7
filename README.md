# Analogical reasoning over software-engineering stories, in Dafny

This project models the core of SEE-Analogical-Reasoning-LLMs. That
program reasons by analogy over short stories about software
engineering, in four phases:

1. **Initial graph construction.** Capitalised words are mined from a
   story. At most five different ones are kept, with `Entity_0..Entity_4`
   as stand-ins when there are none. They are chained into a path.
2. **Common relations.** The numbered stories are sent to the language
   model in one prompt. A fixed mapping of patterns, concept mappings and
   relationship mappings is returned; the reply is not parsed.
3. **Alignable differences.** One difference record is made per concept
   mapping and per relationship mapping.
4. **Re-representation.** The relations are serialised into a prompt. The
   model's reply is returned as the general principle.

The language model is simulated. Its reply is chosen by looking for three
request phrases in the lower-cased prompt, in order of priority:
"identify common patterns", "abstract a general principle" and "generate a
story". When a story is asked for, a second list of topics chooses among
five canned stories. The story generator fills a fixed template with a
domain and sends it to that model.

Modules:

- `Text` (`text.dfy`): ASCII models of `str.lower`, `str.strip`,
  `str.split`, `str.join`, `str(n)` and `in`. It also holds the facts about
  substring containment that the routing proofs use.
- `Options` (`options.dfy`): an `Option` type for dictionary keys that may
  be absent.
- `Llm` (`llm_interface.dfy`): the configuration, the pure function
  `SimulatedResponse`, and the class `LLMInterface`. The class has
  read-only settings and a ghost log of the prompts sent through it, so
  "exactly one call" can be stated.
- `StoryGenerator` (`story_generator.dfy`): the story prompt template and
  `GenerateStory`.
- `AnalogicalReasoner` (`analogical_reasoner.dfy`): the four phases. Each
  loop of the Python code is a Dafny method with loop invariants, proved
  against a pure function that specifies its result.

Two results are worth noting:

- **The story template never selects a story.** It says "Generate an
  educational story", not "generate a story", so by itself it contains
  none of the three request phrases. No phrase can run across a seam
  between the template and the domain either. The reply to a story prompt
  therefore depends on the domain alone.
  - `StoryGenerator.StoryPromptRouting` proves this.
  - `StoryGenerator.DefaultDomainsGetFallback` shows the consequence: the
    four domains listed in the default configuration (sorting algorithms,
    database indexing, software design patterns, software testing) all get
    the fallback sentence, not a story.
- **The two phase prompts route as intended.**
  - With the fixed relations of phase 2, the phase-2 prompt gets the
    pattern identification (`AnalogicalReasoner.CommonRelationsRouting`).
  - The phase-4 prompt gets the general principle
    (`AnalogicalReasoner.FixedRelationsGetPrinciple`).
  - For arbitrary relations, the phase-4 prompt gets the pattern reply
    exactly when one of the user's texts asks for common patterns
    (`AnalogicalReasoner.ReRepresentRouting`).

## Model

| member | source | states |
|---|---|---|
| Text.Lower | core/llm_interface.py:40 | `prompt.lower()` keeps the length and lowers each character (ASCII). |
| Text.Strip | core/analogical_reasoner.py:36 | `line.strip()` is a slice of the line that neither starts nor ends with whitespace; only whitespace is cut away. |
| Text.SplitOn | core/analogical_reasoner.py:35 | `story.split('\n')` has at least one part, and no part contains a newline. |
| Text.JoinSplitOn | core/analogical_reasoner.py:35 | Joining the parts of `split(sep)` with `sep` gives back the original text. |
| Text.Words | core/analogical_reasoner.py:39 | `line.split()` yields only non-empty words without whitespace. |
| Text.WordsOfWord | core/analogical_reasoner.py:39 | A non-empty text without whitespace splits into exactly itself. |
| Text.WordsBreakAtSpace | core/analogical_reasoner.py:39 | `split()` breaks at every whitespace character: the words of `a + c + b`, for whitespace `c`, are the words of `a` followed by the words of `b`. With `WordsOfWord` this fixes the words of every line. |
| Text.WordsKeepCharacters | core/analogical_reasoner.py:39 | The words of `split()`, concatenated, are the line with its whitespace removed. |
| Text.Decimal | core/analogical_reasoner.py:57 | `str(i)` is all digits, one digit exactly when i < 10, and its last digit is i mod 10. |
| Text.DecimalValue | core/analogical_reasoner.py:57 | The numeral `str(i)`, read as decimal digits, denotes i. |
| Text.DecimalNoLeadingZero | core/analogical_reasoner.py:57 | `str(i)` starts with '0' exactly when i is 0. |
| Text.DecimalInjective | core/analogical_reasoner.py:57 | Different indices have different numerals. |
| Llm.LLMInterface.constructor | core/llm_interface.py:15-25 | Each setting is taken from the configuration when present, else "mock_api_key", "gpt-3.5-turbo", 0.7, 1000; nothing has been sent yet. |
| Llm.LLMInterface.GenerateResponse | core/llm_interface.py:27-47 | Exactly this prompt is sent once, and the reply is the simulated reply to the prompt alone; the settings are never read. |
| Llm.SimulatedResponse | core/llm_interface.py:39-47 | Every reply is one of the eight canned replies. |
| Llm.StoryReply | core/llm_interface.py:85-160 | Every simulated story is one of the five canned stories. |
| Llm.RepliesDistinct | core/llm_interface.py:49-160 | The eight canned replies are pairwise different. |
| Llm.PatternReplyIff | core/llm_interface.py:40-41 | The pattern identification comes back exactly when the lowered prompt contains "identify common patterns", whatever else it contains. |
| Llm.PrincipleReplyIff | core/llm_interface.py:42-43 | The principle comes back exactly when the prompt asks for "abstract a general principle" and not for common patterns. |
| Llm.StoryReplyIff | core/llm_interface.py:44-45 | A story comes back exactly when the prompt asks for "generate a story" and for neither earlier phrase. |
| Llm.DefaultReplyIff | core/llm_interface.py:46-47 | The fallback sentence comes back exactly when none of the three phrases occurs. |
| Llm.StoryChoice | core/llm_interface.py:85-160 | The story is chosen by the first topic found, in order: sorting algorithms, database indexing, software design patterns or software pattern, software testing, else the generic story; both directions for each. |
| Llm.ResponseIgnoresCase | core/llm_interface.py:40-47 | A prompt and its lower-cased form get the same reply. |
| Llm.StoryIgnoresCase | core/llm_interface.py:87-147 | A prompt and its lower-cased form get the same story. |
| StoryGenerator.OpeningText | utils/story_generator.py:21 | The opening pieces spell "\nGenerate an educational story about ". |
| StoryGenerator.EngineeringText | utils/story_generator.py:21 | Its run spells "software engineering.\n". |
| StoryGenerator.CharactersText | utils/story_generator.py:23 | Its run spells "1. Include some named characters facing ". |
| StoryGenerator.ChallengeText | utils/story_generator.py:23 | Its run spells "a software engineering challenge\n". |
| StoryGenerator.ProgressionText | utils/story_generator.py:24 | Its run spells "2. Show a progression from a basic ". |
| StoryGenerator.ApproachText | utils/story_generator.py:24 | Its run spells "approach to a more ". |
| StoryGenerator.SolutionText | utils/story_generator.py:24 | Its run spells "sophisticated solution\n". |
| StoryGenerator.TradeOffText | utils/story_generator.py:25 | Its run spells "3. Highlight trade-offs and ". |
| StoryGenerator.DecisionText | utils/story_generator.py:25 | Its run spells "decision-making processes\n". |
| StoryGenerator.LessonText | utils/story_generator.py:26 | Its run spells "4. Convey a key lesson or ". |
| StoryGenerator.ClosingText | utils/story_generator.py:27 | The closing pieces spell "\n5. Be concise (about 250-350 words)\n". |
| StoryGenerator.StoryPromptText | utils/story_generator.py:20-28 | The story prompt is the f-string of the source, stretch by stretch, with the domain after the opening line's "about " and after item 4's "about ". |
| StoryGenerator.GenerateStory | utils/story_generator.py:9-33 | The template filled with the domain is sent exactly once, and its reply is returned unchanged. |
| StoryGenerator.FilledMentionsOnlySlot | utils/story_generator.py:20-28 | For a template that lacks a phrase and whose seams no occurrence can cross, the filled prompt contains the phrase exactly when the domain does. |
| StoryGenerator.PatternSilent | utils/story_generator.py:20-28 | The story template neither contains "identify common patterns" nor lets it run across a seam with the domain. |
| StoryGenerator.PrincipleSilent | utils/story_generator.py:20-28 | The same for "abstract a general principle". |
| StoryGenerator.StorySilent | utils/story_generator.py:20-28 | The same for "generate a story": the template says "Generate an educational story". |
| StoryGenerator.StoryPromptRouting | utils/story_generator.py:20-31 | The story prompt asks for each of the three request phrases exactly when the domain does. So the top-level branch taken depends on the domain alone. |
| StoryGenerator.QuietDomainGetsFallback | utils/story_generator.py:20-31 | A domain that lacks "fy", "bs" and "a st" (pieces of the three phrases) gets the fallback sentence, not a story. |
| StoryGenerator.DefaultDomainsGetFallback | utils/story_generator.py:20-31 | Sorting algorithms, database indexing, software design patterns and software testing each get the fallback sentence. |
| AnalogicalReasoner.EntityTokens | core/analogical_reasoner.py:40-42 | A word is kept exactly when it is one of the line's words and is capitalised, longer than three characters and not a stop word. |
| AnalogicalReasoner.LinesCandidatesMembers | core/analogical_reasoner.py:35-42 | A word is collected from the lines exactly when some single line yields it. |
| AnalogicalReasoner.StopwordsNeverMatch | core/analogical_reasoner.py:41 | The stop-word test never rejects a word: every word passing the length test passes it. |
| AnalogicalReasoner.CandidateCharacterization | core/analogical_reasoner.py:35-42 | A word is collected exactly when some stripped, kept line (non-empty, not a heading, over ten characters) has it among its words, capitalised and over three characters long. |
| AnalogicalReasoner.CandidateShape | core/analogical_reasoner.py:39-41 | Every collected word is capitalised, longer than three characters and free of whitespace. |
| AnalogicalReasoner.Placeholders | core/analogical_reasoner.py:48-49 | The stand-ins `Entity_0..Entity_4` are five distinct capitalised names longer than three characters. |
| AnalogicalReasoner.RelationLabelsDistinct | core/analogical_reasoner.py:57 | Labels `relates_to_i` of different relationships differ. |
| AnalogicalReasoner.ChainIsSimplePath | core/analogical_reasoner.py:52-58 | Over distinct objects no two relationships share a source, target or label, and with two or more objects every object is an end of some relationship. |
| AnalogicalReasoner.CollectCandidates | core/analogical_reasoner.py:34-42 | The loop over lines collects exactly the entity words of the story, line by line, in order. |
| AnalogicalReasoner.CollectLineEntities | core/analogical_reasoner.py:36-42 | One line adds its entity words when, stripped, it is kept, and nothing otherwise. |
| AnalogicalReasoner.AppendEntityTokens | core/analogical_reasoner.py:39-42 | The loop over words appends exactly the entity words, in order. |
| AnalogicalReasoner.KeepDistinct | core/analogical_reasoner.py:45 | `list(set(found))[:5]`: distinct words of `found`, min(5, number of different words) of them, all of them when there are at most five, at least one when `found` is non-empty. |
| AnalogicalReasoner.ChainObjects | core/analogical_reasoner.py:52-58 | There are one fewer relationships than objects, the i-th from object i to object i + 1 labelled `relates_to_i`. |
| AnalogicalReasoner.InitialGraphConstruction | core/analogical_reasoner.py:18-66 | One to five distinct objects, each capitalised, longer than three characters and without whitespace. They are the stand-ins when no word qualifies, and otherwise min(5, #distinct) qualifying words. The relationships chain them. |
| AnalogicalReasoner.IdentifyCommonRelations | core/analogical_reasoner.py:68-109 | Exactly one prompt is sent: header, "Story i:\n" + story + "\n\n" for each story in order, trailer. The fixed mapping is returned whatever the stories and the reply. |
| AnalogicalReasoner.AppendStories | core/analogical_reasoner.py:85-86 | The loop appends every story's numbered block, in order. |
| AnalogicalReasoner.StoryListed | core/analogical_reasoner.py:85-86 | The numbered block of every story occurs in the list of blocks. |
| AnalogicalReasoner.StoryInPrompt | core/analogical_reasoner.py:82-89 | Every story occurs in the prompt, under its 1-based number. |
| AnalogicalReasoner.CommonRelationsRouting | core/analogical_reasoner.py:82-92 | Whatever the stories, the phase-2 prompt gets the pattern identification. |
| AnalogicalReasoner.IdentifyAlignableDifferences | core/analogical_reasoner.py:111-144 | One concept variation per concept mapping (its values in order, "improvement_mechanism"), then one relationship variation per relationship mapping (type or "", instances or [], "enhancement_process"), in input order. |
| AnalogicalReasoner.MarkingUnique | core/analogical_reasoner.py:123-144 | The differences are determined by the relations. |
| AnalogicalReasoner.ConceptVariantsPerStory | core/analogical_reasoner.py:128-133 | The i-th difference is a concept variation listing the i-th mapping's concepts, one per story, in insertion order. |
| AnalogicalReasoner.NoRelationsNoDifferences | core/analogical_reasoner.py:123-144 | Relations without any of the three keys give no differences. |
| AnalogicalReasoner.FixedDifferences | core/analogical_reasoner.py:96-107 | For the fixed relations of phase 2 the differences are two concept variations and one variation of "improves", spelled out. |
| AnalogicalReasoner.AppendPatterns | core/analogical_reasoner.py:164-165 | The loop appends "- p\n" for each pattern, in order. |
| AnalogicalReasoner.AppendMappings | core/analogical_reasoner.py:169-170 | The loop appends one bullet line per mapping, its "k: v" pairs joined by ", ". |
| AnalogicalReasoner.AppendRelations | core/analogical_reasoner.py:174-176 | The loop appends a type line and an instances line (joined by ", ") per relationship mapping. |
| AnalogicalReasoner.ReRepresentRelations | core/analogical_reasoner.py:146-185 | Exactly one prompt is sent (intro, three headed sections, closing), and the model's reply to it is returned unchanged. |
| AnalogicalReasoner.IntroHeadText | core/analogical_reasoner.py:160 | Its run spells "Based on the following patterns and ". |
| AnalogicalReasoner.IntroTailText | core/analogical_reasoner.py:160 | Its run spells "relationships identified across multiple stories:\n\n". |
| AnalogicalReasoner.ReRepresentIntroText | core/analogical_reasoner.py:160 | The opening of the phase-4 prompt is the source's first sentence. |
| AnalogicalReasoner.ClosingHeadText | core/analogical_reasoner.py:178 | Its run spells "\nPlease abstract a general principle or concept that ". |
| AnalogicalReasoner.ClosingMiddleText | core/analogical_reasoner.py:178-179 | Its run spells "captures the essence of these patterns. This ". |
| AnalogicalReasoner.ClosingLateText | core/analogical_reasoner.py:179 | Its run spells "principle should be applicable to software ". |
| AnalogicalReasoner.ClosingTailText | core/analogical_reasoner.py:179-180 | Its run spells "engineering education and practice.". |
| AnalogicalReasoner.ReRepresentClosingText | core/analogical_reasoner.py:178-180 | The closing of the phase-4 prompt is the source's closing request, word for word. |
| AnalogicalReasoner.PatternListed | core/analogical_reasoner.py:164-165 | Every pattern's bullet line occurs in the prompt. |
| AnalogicalReasoner.MappingListed | core/analogical_reasoner.py:169-170 | Every concept mapping's line of pairs occurs in the prompt. |
| AnalogicalReasoner.RelationListed | core/analogical_reasoner.py:174-176 | Every relationship mapping's type and instances lines occur in the prompt. |
| AnalogicalReasoner.JoinAsks | core/analogical_reasoner.py:170 | A ", "-joined list contains a phrase exactly when one of its texts does. This holds for a phrase of at least 14 characters that does not start with a blank and has no newline, dash, colon or comma. |
| AnalogicalReasoner.ReRepresentAsks | core/analogical_reasoner.py:160-180 | Take such a phrase that the fixed text lacks. The phase-4 prompt contains it exactly when one of the user's texts (patterns, mapping keys and concepts, relationship types and instances) does. |
| AnalogicalReasoner.ClosingAsksPrinciple | core/analogical_reasoner.py:178-180 | The closing asks to "abstract a general principle". |
| AnalogicalReasoner.ReRepresentRouting | core/analogical_reasoner.py:160-183 | The phase-4 prompt gets the pattern identification when a user's text asks for common patterns, and the general principle otherwise. |
| AnalogicalReasoner.FixedRelationsGetPrinciple | core/analogical_reasoner.py:96-107 | No text of the fixed relations asks for common patterns, so phase 4 gets the general principle for them. |

## Left out

- main.py is not part of this model. It lists and reads story files, writes results and prints; its only logic is list handling around the four phases.
- utils/config_loader.py is not part of this model. It loads JSON from a file. Its default list of story domains is used only as the four domains of `StoryGenerator.DefaultDomainsGetFallback`.
- core/graph_representation.py is not part of this model. `visualize_graph` only prints, and the graph record is the `Graph` datatype.
- The canned replies are represented by their opening lines. Within the four phases and the story generator a reply is only ever returned, never read, so the abbreviation changes no contract. It would matter outside the modelled core: main.py feeds generated stories back in as stories (phase 1 mines their words, phase 2 pastes them into its prompt) and prints the principle, and the abbreviated texts would yield other entity words and another prompt there.
- The temperature setting is an opaque `real`. Nothing reads it, and floating point is not modelled.
- Python's hash-dependent set order is not fixed. `AnalogicalReasoner.KeepDistinct` picks the kept words in an arbitrary order, and its contract holds for every order. It does not choose a first-seen tie-break, because the code uses an unordered set.
- Case, whitespace and `isupper` follow ASCII only; Unicode case mapping and Unicode whitespace are not modelled.
- Python dictionaries are modelled in two ways.
  - A concept mapping is a sequence of key/value pairs in insertion order, with string values; a non-string value (which Python would format with `str()`) is not modelled.
  - The configuration, the common relations and a relationship mapping are datatypes with one `Option` field per key the code reads. Keys the code never reads, and the order of keys, are not kept; a key present with value `None` is not distinguished from an absent key.
- Phase 3 returns the sequence of differences rather than a dictionary with one "differences" entry. Each entry's "type" is its datatype constructor.
- The log of prompts in `Llm.LLMInterface` is ghost state: the program keeps no such log.
- Some loop bodies of the Python functions are helper methods here, with the same effect (`AppendStories`, `AppendPatterns`, `AppendMappings`, `AppendRelations`, `CollectLineEntities`, `AppendEntityTokens`).
