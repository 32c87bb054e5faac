# Story assistant: chapter graph and story generator helpers, in Dafny

This project models two parts of an interactive story-writing assistant.

**The LangGraph story assistant** (`assistant/multi_agent_system_v2.py`). A
story is a state record holding:

- the user's premise and details;
- the summary and context requests;
- a chapter graph;
- two chapter pointers, the viewed chapter and the newest one;
- the rewrite and continue instructions;
- the story title.

One invocation runs three steps. A router picks one of three handlers
(first chapter, rewrite, continue). The handler writes a chapter through a
pipeline of language-model chains: brainstorm, outline, draft, title. It
then links the new chapter into the graph. Finally, a reducer merges the
returned graph into the stored one.

Chapters carry four relations: `children`, `siblings`, `cousins` and
`parent`. The model reproduces the bookkeeping of those relations exactly
as the code performs it:

- The summary walk starts at a chapter. It records that chapter's text,
  then records the text of each chapter it stands on before moving to its
  parent. It stops at the chapter whose parent is the root marker. So the
  starting chapter appears twice whenever it has a parent, the top chapter's
  text is missing unless it is the start, and the texts run leaf to root
  (`ChapterGraph.SummaryTextsShape`).
- A rewrite of chapter `v` walks the sibling list of chapter `v+1`, not
  that of `v` or of the new chapter. That chapter is the new chapter only
  when `v` is the newest one. In that case every listed sibling gains the
  new id, and `v` gains it twice (`ChapterGraph.RewriteAtCurrent`,
  `ChapterGraph.RewriteScenario`). Otherwise sibling lists can become
  one-sided (`ChapterGraph.RewriteBelowCurrentBreaksSymmetry`).
- A rewrite is never added to its parent's `children`
  (`ChapterGraph.RewrittenShape`).
- No handler clears `rewrite_instructions`. Once a rewrite has been asked
  for, every later invocation is routed to a rewrite (`Assistant.Invoke`).
- No handler ever fills in a chapter's `summary` field.

**The one-shot story generator** (`story_generator.py`). It maps the user's
option choices to prompt phrases and assembles the prompt. It also splits a
story at `". "` and truncates a string.

Chapter ids, which the source keeps as the decimal strings `"1"`, `"2"`,
…, are integers here, and the root marker `"-1"` is `ROOT = -1`. The
handlers update the state dictionary in place and return it. The model
follows that shape in one of two ways:

- **State handlers** take a `State` value and return the updated one.
- **Graph work** is done by methods that carry the source's loops.
  `AddContinuation` and `AddRewrite` are proved to build the graphs given
  by the specification functions `Continued` and `Rewritten`, and
  `SummarizeCurrentStory` to return `SummaryTexts`. `AppendCousin` and
  `AppendSibling` are proved against the closed-form graph they leave
  behind. `WriteFirstChapter` is specified by `FirstGraph`.

The language models are the fields of a `Models` value, each an arbitrary
function of the values its prompt template is filled with.

All graph-changing operations preserve the well-formedness invariant
`GraphOk(g, current)`. It says four things:

- the ids are exactly 1..current;
- a parent is `ROOT` or an older chapter;
- every id a relation lists names a chapter;
- no chapter lists itself as a sibling.

## Model

| member | source | states |
|---|---|---|
| ChapterGraph.Router | assistant/multi_agent_system_v2.py:473-479 | "first" exactly when the graph is empty; otherwise "rewrite" exactly when the rewrite instructions are non-empty, else "continue" |
| ChapterGraph.RewriteWinsOverContinue | assistant/multi_agent_system_v2.py:476-477 | with a non-empty graph and rewrite instructions, the continue instructions never change the route |
| ChapterGraph.UpdateChapterGraph | assistant/multi_agent_system_v2.py:55-59 | a dictionary update yields the right-biased merge (keys are the union, new values win, old values survive elsewhere); a non-dictionary update yields None |
| ChapterGraph.MergeOfExtension | assistant/multi_agent_system_v2.py:55-59 | merging a graph whose keys include the old ones gives back exactly that graph |
| ChapterGraph.Ancestor | assistant/multi_agent_system_v2.py:266-270 | the parent walk stays inside the graph and reaches a chapter whose parent is ROOT exactly at depth Depth(k) (so the summary loop terminates) |
| ChapterGraph.ClimbAt | assistant/multi_agent_system_v2.py:266-270 | the loop appends one text per parent step, the i-th being the content of the i-th ancestor of the start |
| ChapterGraph.SummaryTextsShape | assistant/multi_agent_system_v2.py:260-270 | Depth+1 texts: the start's content first, then the contents from the start upwards excluding the top chapter; the start is listed twice when it has a parent |
| Assistant.SummarizeCurrentStory | assistant/multi_agent_system_v2.py:258-277 | the loop's result is the summarizer applied to the numbered, joined and stripped SummaryTexts; ROOT gives "" without a model call |
| Text.StripShape | assistant/multi_agent_system_v2.py:271-276 | `.strip()` leaves no whitespace at either end, never lengthens, and leaves a whitespace-free string unchanged |
| Text.TrimLeftShape | assistant/multi_agent_system_v2.py:276 | the left trim removes a prefix of whitespace only and stops at the first other character |
| Text.TrimRightShape | assistant/multi_agent_system_v2.py:276 | the right trim removes a suffix of whitespace only and stops at the last other character |
| Text.NatToString | assistant/multi_agent_system_v2.py:273 | the chapter number in the label is a non-empty string of decimal digits without a leading zero |
| Text.NatToStringValue | assistant/multi_agent_system_v2.py:273 | read back as a decimal number, the chapter label's digits give the chapter number itself |
| Text.IntToStringValue | story_generator.py:115 | the number of characters written into the prompt reads back as that number, with a leading minus sign for a negative one |
| Text.RemoveQuotes | assistant/multi_agent_system_v2.py:312-314 | the result has no `"`, is no longer than the input, and keeps every other character with its multiplicity |
| Text.RemoveQuotesIsSubsequence | assistant/multi_agent_system_v2.py:314 | the remaining characters keep their order |
| Text.RemoveQuotesIdempotent | assistant/multi_agent_system_v2.py:321 | removing quotes twice is the same as once |
| Text.RemoveQuotesOfQuoteFree | assistant/multi_agent_system_v2.py:314 | a title without quotes is left unchanged |
| Text.RemoveQuotesAppend | assistant/multi_agent_system_v2.py:314 | quote removal distributes over concatenation |
| Assistant.WriteChapter | assistant/multi_agent_system_v2.py:280-315 | the returned chapter title contains no double quote |
| Assistant.GetTitle | assistant/multi_agent_system_v2.py:318-321 | the story title contains no double quote |
| Assistant.NewStory | assistant/multi_agent_system_v2.py:62-83 | a fresh state with the user's premise and details and an empty summary request is valid and is routed to the first-chapter handler |
| Assistant.Background | assistant/multi_agent_system_v2.py:324-347 | the context request starts with the details request that both description chains were given |
| Assistant.WriteBackground | assistant/multi_agent_system_v2.py:324-347 | only the context request changes, to the details request followed by the character and environment descriptions |
| ChapterGraph.FirstGraphOk | assistant/multi_agent_system_v2.py:359-370 | the one-chapter graph is well formed with current 1, and chapter 1 is a top chapter |
| Assistant.WriteFirstChapter | assistant/multi_agent_system_v2.py:350-372 | the state is valid with the single chapter 1 and both pointers on it; the new state is the old one with context request, graph, pointers and story title set as the pipeline computes them; the request fields are kept |
| ChapterGraph.AppendCousin | assistant/multi_agent_system_v2.py:460-463 | after the loop every chapter's cousins end with the new id once per listing of that chapter among the walked ids; nothing else changes |
| ChapterGraph.AppendSibling | assistant/multi_agent_system_v2.py:417-422 | after the loop every chapter's siblings end with the new id once per listing of that chapter among the walked ids; nothing else changes |
| ChapterGraph.ContinuedBySteps | assistant/multi_agent_system_v2.py:449-467 | inserting the new chapter, the cousin loop and the final children append together build exactly Continued |
| ChapterGraph.RewrittenBySteps | assistant/multi_agent_system_v2.py:403-426 | inserting the new chapter, the sibling loop and the final sibling append together build exactly Rewritten |
| ChapterGraph.ContinuedOk | assistant/multi_agent_system_v2.py:449-469 | a continuation keeps the graph well formed with ids 1..current+1 |
| ChapterGraph.RewrittenOk | assistant/multi_agent_system_v2.py:403-428 | a rewrite keeps the graph well formed with ids 1..current+1, and chapter viewing+1 always exists, so the loop's lookup cannot fail |
| ChapterGraph.AddContinuation | assistant/multi_agent_system_v2.py:448-467 | the in-order graph updates of continue_chapter produce Continued, and the result is well formed |
| ChapterGraph.AddRewrite | assistant/multi_agent_system_v2.py:402-426 | the in-order graph updates of edit_chapter produce Rewritten, and the result is well formed |
| ChapterGraph.ContinuedShape | assistant/multi_agent_system_v2.py:449-467 | exactly one new key; the new chapter's fields; the viewed chapter's children gain the new id once at the end; only the viewed chapter's children gain cousins; every other field is unchanged |
| ChapterGraph.RewrittenShape | assistant/multi_agent_system_v2.py:403-426 | exactly one new key; the new chapter copies the viewed chapter's parent and cousins and lists its siblings then the viewed chapter; the viewed chapter's siblings end with the new id; no children, cousins, content, title or parent change (the parent never learns of the rewrite); sibling lists only grow |
| ChapterGraph.RewriteAtCurrent | assistant/multi_agent_system_v2.py:417-426 | rewriting the newest chapter: it gains the new id twice, and every chapter it lists as a sibling gains it too |
| ChapterGraph.RewriteWithEmptyGroup | assistant/multi_agent_system_v2.py:417-426 | when chapter v+1 lists no siblings, only the viewed chapter learns of the rewrite |
| ChapterGraph.RewriteScenario | assistant/multi_agent_system_v2.py:403-426 | first chapter, continuation, rewrite of the newest: the rewrite's parent is 1, chapter 1's children stay [2], chapter 2 lists the rewrite twice |
| ChapterGraph.RewriteBelowCurrentBreaksSymmetry | assistant/multi_agent_system_v2.py:417-426 | after rewriting an older chapter, the new chapter 5 lists chapter 2 as a sibling but chapter 2 does not list 5 |
| Assistant.ContinueGraph | assistant/multi_agent_system_v2.py:439-467 | summarize up to the viewed chapter, write from the continue instructions, link as a child of the viewed chapter: the result is AfterContinue, well formed, with exactly one new key |
| Assistant.ContinueChapter | assistant/multi_agent_system_v2.py:439-470 | the state gets ContinueGraph's graph and both pointers move to current+1; every other field, request fields included, is unchanged |
| Assistant.RewriteGraph | assistant/multi_agent_system_v2.py:388-426 | summarize up to the viewed chapter's parent, write from the viewed text and the rewrite instructions, link beside the viewed chapter: the result is AfterRewrite, well formed, with exactly one new key |
| Assistant.EditChapter | assistant/multi_agent_system_v2.py:388-429 | the state gets RewriteGraph's graph and both pointers move to current+1; every other field, request fields included, is unchanged |
| Assistant.Dispatch | assistant/multi_agent_system_v2.py:482-489 | the handler the route names is the one that ran: "first" gives the one-chapter graph with the generated title and the background as context request, "continue" and "rewrite" give the graph of a continuation or a rewrite of the viewed chapter and keep the title; in every case exactly one chapter is added (1 for the first, current+1 otherwise), both pointers are on it, the state stays valid and the request fields are unchanged |
| Assistant.Invoke | assistant/multi_agent_system_v2.py:482-492 | one pass of router, handler and reducer: the route is the router's, the merged graph is the routed handler's (first chapter, continuation or rewrite of the viewed chapter, with the title generated on "first" and kept otherwise), the state is valid with one new chapter and both pointers on it, the request fields are kept, and the next route is "rewrite" exactly when rewrite instructions were given |
| StoryGenerator.GetFindsEntry | story_generator.py:99-103 | `.get(option, "")` returns the table's phrase for a known option and "" for an unknown one |
| StoryGenerator.PhrasesAreNonEmpty | story_generator.py:66-96 | no phrase of the five tables is empty |
| StoryGenerator.OptionsAreDistinct | story_generator.py:66-96 | no option is listed twice in any of the five tables |
| StoryGenerator.EntryDeterminesPhrase | story_generator.py:66-96 | in a table whose options are distinct, an option has a single phrase |
| StoryGenerator.MapUserInputs | story_generator.py:65-106 | five parts in the order length, fiction level, reality level, informativeness, IP avoidance; each is its table's phrase for a known option and "" otherwise |
| StoryGenerator.PhraseEmptyIffUnknown | story_generator.py:98-104 | for a table without empty phrases, a part is empty if and only if the option is unknown |
| StoryGenerator.PartEmptyIffUnrecognised | story_generator.py:98-106 | each of the five parts is empty if and only if its option is not one the table knows |
| StoryGenerator.ConstructPrompt | story_generator.py:108-117 | the prompt is parts 1-4 (the length part is dropped), then the theme sentence, then the character-count sentence |
| StoryGenerator.LengthIsIgnored | story_generator.py:113 | two length choices give the same prompt |
| StoryGenerator.UnrecognisedOptionsLeaveTwoSentences | story_generator.py:108-117 | with no recognised option the prompt is just the theme and character-count sentences |
| StoryGenerator.SplitStoryIntoSegments | story_generator.py:146-148 | at least one segment; a non-empty first segment starts with the story's first character, and the story does not start with ". " |
| StoryGenerator.JoinSegments | story_generator.py:146-148 | joining the segments with ". " gives back the story |
| StoryGenerator.SegmentCount | story_generator.py:146-148 | there is one more segment than there are non-overlapping ". " occurrences |
| StoryGenerator.SegmentsHaveNoSeparator | story_generator.py:146-148 | no segment contains ". " |
| StoryGenerator.Left | story_generator.py:150-151 | `s[:amount]` is a prefix of `s` whose length is the amount clamped to the string; a negative amount counts from the end |
| StoryGenerator.LeftIdempotent | story_generator.py:150-151 | truncating a truncated string to the same non-negative amount changes nothing |

## Left out

- **Language-model behaviour.** Every chain is a total function of the
  values filled into its template. The model does not capture failures,
  retries, latency or different answers to the same input within one run.
  A call that raises leaves the Python state partly updated; that is not
  modelled either.
- **Prompt wording.** System messages and templates are not modelled; the
  chains take only the values filled into them. The chapter title writer is
  a function of the chapter content, and the story title writer of the plot
  and the first chapter. The user messages of the three handlers, the
  details request and the persona names are kept verbatim.
- **LangGraph plumbing.** The compiled graph, the `MemorySaver`
  checkpointer and threads are left out. `Assistant.Invoke` models one pass:
  entry router, one node, and the `update_chapter_graph` reducer on the
  returned graph. The other fields take the node's returned values.
- **In-place updates and aliasing.**
  - The handlers mutate the state dictionary and the chapter dictionaries
    in place. Here they return a new `State` value.
  - `update_chapter_graph` updates the old dictionary in place. Here it is
    modelled by the value it returns.
  - The loops in the source walk a list while appending to other lists.
    The sibling walk would extend its own list only if chapter v+1 listed
    itself as a sibling. `GraphOk` rules that out and every handler keeps
    it, so each walk sees the list as it was when the loop began.
- **Missing keys (`KeyError`).**
  - Reading the graph or the instruction fields before they are set raises
    in the handlers. Here those fields are the empty map and the empty
    string.
  - `summary_request` is read by `write_chapter`
    (assistant/multi_agent_system_v2.py:285, 295, 305) but no handler ever
    assigns it. The `= ""` at line 67 is a class attribute of the
    `TypedDict`, not a default the state dictionary receives, so the
    source's first read can raise. The model assumes `""`: `NewStory`
    starts with an empty `summaryRequest` and every handler keeps it.
  - A viewed chapter that is not in the graph raises too. The
    `Assistant.ContinueChapter`, `Assistant.EditChapter`,
    `Assistant.Dispatch` and `Assistant.Invoke` preconditions exclude it.
    The viewing pointer is set by the user interface, which is not part of
    this model.
- **Chapter ids as strings.** Ids are decimal strings in the source and
  integers here. A non-canonical id string such as "01" would break
  `str(int(x) + 1)` lookups; this is not modelled.
- **Other files.** The user interface and the web app are not part of this
  model, nor is the older assistant version. The rest of
  `story_generator.py` is I/O, also left out: the OpenAI calls, story
  logging, pacing analysis and the book cover.
- **Assistant.WriteChapter:** the contract states only the quote-freedom
  of the title. The chaining of brainstorm, outline and draft is the
  function's definition, which the handlers' contracts use.

