/**
 * The story state and the three handlers that the router dispatches to:
 * writing the first chapter, continuing the viewed chapter and rewriting
 * it. Each handler takes the state and returns it updated, as a node of the
 * story graph does; one invocation routes, runs the handler and merges the
 * returned chapter graph into the stored one. The language-model chains are
 * parameters (`Models`): each is an arbitrary function from its inputs to text.
 */
module Assistant {
  import opened Wrappers
  import opened Text
  import opened ChapterGraph

  /**
   * The inputs every synthesis chain receives: the summary of the story so
   * far, the requested action, and the user's summary and context requests.
   */
  datatype Request = Request(storySummary: string, action: string, summaryRequest: string, contextRequest: string)

  /**
   * The language models the assistant calls, each an arbitrary function of
   * the values its prompt template is filled with. The last argument of a
   * chain that takes one is the persona it is asked to imitate. The chapter
   * title writer stands for the title prompt filled with a chapter's
   * content, the story title writer for the one filled with the plot and
   * the first chapter.
   */
  datatype Models = Models(
    summarizer: string -> string,
    brainstormer: (Request, string) -> string,
    chapterOutliner: (Request, string, string) -> string,
    chapterWriter: (Request, string, string) -> string,
    chapterTitleWriter: string -> string,
    storyTitleWriter: (string, string) -> string,
    characterDescriber: (string, string) -> string,
    environmentDescriber: (string, string) -> string)

  /** The blocks "Chapter i" followed by a blank line and the i-th text, for i from `from` on. */
  function Blocks(texts: seq<string>, from: nat): seq<string>
    decreases |texts| - from
  {
    if from >= |texts| then [] else ["Chapter " + NatToString(from) + "\n\n" + texts[from]] + Blocks(texts, from + 1)
  }

  /** The labelled block handed to the summarizer: the numbered blocks separated by a blank line, stripped. */
  function ChaptersStr(texts: seq<string>): string
  {
    Strip(Join(Blocks(texts, 0), "\n\n"))
  }

  /** The summary of the story up to `start`: empty, without calling the summarizer, when `start` is ROOT. */
  function StorySummary(models: Models, g: Graph, current: ChapterId, start: ChapterId): string
    requires start == ROOT || (GraphOk(g, current) && start in g)
  {
    if start == ROOT then ""
    else models.summarizer(ChaptersStr(SummaryTexts(g, current, start)))
  }

  /**
   * The synthesis pipeline: brainstorm, outline and draft, each fed the
   * previous stage's output, then a title for the draft with every double
   * quote removed. Returns (content, title).
   */
  function WriteChapter(models: Models, userMessage: string, chaptersSummary: string,
                        summaryRequest: string, contextRequest: string): (r: (string, string))
    ensures '"' !in r.1
  {
    var request := Request(chaptersSummary, userMessage, summaryRequest, contextRequest);
    var ideas := models.brainstormer(request, "Lev Tolstoy");
    var outline := models.chapterOutliner(request, ideas, "Cristopher Nolan");
    var content := models.chapterWriter(request, outline, "Fyodor Dostoevsky");
    var title := RemoveQuotes(models.chapterTitleWriter(content));
    (content, title)
  }

  /** The story title, from the overall plot and the first chapter, with every double quote removed. */
  function GetTitle(models: Models, instruction: string, firstChapter: string): (title: string)
    ensures '"' !in title
  {
    RemoveQuotes(models.storyTitleWriter(instruction, firstChapter))
  }

  function DetailsRequest(details: string): string
  {
    "I would like you to keep the following details in mind when writing " + details
  }

  /** The user message of a continuation. */
  function ContinueMessage(instructions: string): string
  {
    "Here is what I want in the next chapter:\n\n<Instructions>\n" + instructions + "\n</Instructions>"
  }

  /** The user message of a rewrite: the viewed chapter as the draft, then the requested edits. */
  function EditMessage(draft: string, edit: string): string
  {
    "Here is the current state of the new chapter:\n\n<Draft>\n" + draft
    + "\n</Draft>\n\nHere are some edits I want to make to that chapter:\n\n<EditInstructions>\n" + edit
    + "\n</EditInstructions>"
  }

  /**
   * The state of one story. A chapter graph that was never set is the empty
   * map, an instruction field that was never set is the empty string, and
   * the two chapter pointers are 0 until the first chapter exists.
   */
  datatype State = State(
    instruction: string,
    details: string,
    summaryRequest: string,
    contextRequest: string,
    graph: Graph,
    viewing: ChapterId,
    current: ChapterId,
    rewriteInstructions: string,
    continueInstructions: string,
    storyTitle: string)

  /** The graph is empty or well formed with ids 1..current. */
  ghost predicate Valid(s: State)
  {
    |s.graph| == 0 || GraphOk(s.graph, s.current)
  }

  /** The user's request fields of `t` are those of `s`: the plot, the details and the three instructions. */
  ghost predicate KeepsRequests(s: State, t: State)
  {
    && t.instruction == s.instruction && t.details == s.details && t.summaryRequest == s.summaryRequest
    && t.rewriteInstructions == s.rewriteInstructions && t.continueInstructions == s.continueInstructions
  }

  /** The state a story starts from: the user's premise and details, and no chapter yet. */
  function NewStory(instruction: string, details: string): (s: State)
    ensures Valid(s)
    ensures Router(s.graph, s.rewriteInstructions, s.continueInstructions) == First
    ensures s.instruction == instruction && s.details == details && s.summaryRequest == ""
  {
    State(instruction, details, "", "", map[], 0, 0, "", "", "")
  }

  /**
   * Walks from `chapterId` up the parent links of the chapter graph `g`,
   * collecting texts, and hands the labelled block to the summarizer; ROOT
   * gives the empty summary.
   */
  method SummarizeCurrentStory(models: Models, g: Graph, ghost current: ChapterId, chapterId: ChapterId)
    returns (summary: string)
    requires chapterId == ROOT || (GraphOk(g, current) && chapterId in g)
    ensures summary == StorySummary(models, g, current, chapterId)
  {
    if chapterId == ROOT {
      return "";
    }
    var at := chapterId;
    var texts := [g[at].content];
    while g[at].parent != ROOT
      invariant at in g
      invariant texts + Climb(g, current, at) == SummaryTexts(g, current, chapterId)
      decreases at
    {
      assert ChapterOk(g[at], at, current);
      texts := texts + [g[at].content];
      at := g[at].parent;
    }
    assert Climb(g, current, at) == [];
    assert texts == SummaryTexts(g, current, chapterId);
    summary := models.summarizer(ChaptersStr(texts));
  }

  /**
   * The context request the background step leaves behind: the details
   * request, then the character and environment descriptions written from it.
   */
  function Background(models: Models, details: string): (request: string)
    ensures DetailsRequest(details) <= request
  {
    var first := DetailsRequest(details);
    var character := models.characterDescriber(first, "J. K. Rowling");
    var environment := models.environmentDescriber(first, "H. P. Lovecraft");
    first + ". \n\n Character Description: " + character + " \n\n Environment Description: " + environment
  }

  /** Sets the context request from the details and the two scene descriptions; nothing else changes. */
  method WriteBackground(models: Models, s: State) returns (t: State)
    ensures t == s.(contextRequest := Background(models, s.details))
  {
    t := s.(contextRequest := DetailsRequest(s.details));
    var character := models.characterDescriber(t.contextRequest, "J. K. Rowling");
    var environment := models.environmentDescriber(t.contextRequest, "H. P. Lovecraft");
    t := t.(contextRequest := DetailsRequest(s.details) + ". \n\n Character Description: " + character
                              + " \n\n Environment Description: " + environment);
  }

  const FirstChapterMessage := "Please write the first chapter of this story."
  const NoStorySummary := "no story up to this point, this is the first chapter!"

  /**
   * Writes chapter 1 after the background step: the graph becomes that
   * single chapter (parent ROOT, no relations), both pointers are 1 and the
   * story gets its title; the other fields are as before.
   */
  method WriteFirstChapter(models: Models, s: State) returns (t: State)
    ensures Valid(t) && t.graph.Keys == {1} && t.current == 1 && t.viewing == 1 && KeepsRequests(s, t)
    ensures var request := Background(models, s.details);
      var written := WriteChapter(models, FirstChapterMessage, NoStorySummary, s.summaryRequest, request);
      t == s.(contextRequest := request, graph := FirstGraph(written.0, written.1),
              current := 1, viewing := 1, storyTitle := GetTitle(models, s.instruction, written.0))
  {
    t := WriteBackground(models, s);
    var written := WriteChapter(models, FirstChapterMessage, NoStorySummary, t.summaryRequest, t.contextRequest);
    t := t.(current := 1, viewing := 1);
    t := t.(graph := map[1 := Chapter(written.0, None, written.1, [], [], [], ROOT)]);
    t := t.(storyTitle := GetTitle(models, t.instruction, written.0));
    FirstGraphOk(written.0, written.1);
  }

  /**
   * The chapter graph after a continuation: the story up to the viewed
   * chapter is summarized, the next chapter is written from the continue
   * instructions, and it becomes chapter current+1 under the viewed chapter.
   */
  function AfterContinue(models: Models, g: Graph, current: ChapterId, viewing: ChapterId,
                         continueInstructions: string, summaryRequest: string, contextRequest: string): Graph
    requires GraphOk(g, current) && viewing in g
  {
    var summary := StorySummary(models, g, current, viewing);
    var written := WriteChapter(models, ContinueMessage(continueInstructions), summary, summaryRequest, contextRequest);
    Continued(g, viewing, current + 1, written.0, written.1)
  }

  /**
   * The chapter graph after a rewrite: the story up to the viewed chapter's
   * parent is summarized, a new version is written from the viewed text and
   * the rewrite instructions, and it becomes chapter current+1 beside the
   * viewed chapter.
   */
  function AfterRewrite(models: Models, g: Graph, current: ChapterId, viewing: ChapterId,
                        rewriteInstructions: string, summaryRequest: string, contextRequest: string): Graph
    requires GraphOk(g, current) && viewing in g
  {
    var viewed := g[viewing];
    assert ChapterOk(viewed, viewing, current);
    var summary := StorySummary(models, g, current, viewed.parent);
    var written := WriteChapter(models, EditMessage(viewed.content, rewriteInstructions), summary,
                                summaryRequest, contextRequest);
    RewrittenOk(g, current, viewing, written.0, written.1);
    Rewritten(g, viewing, current + 1, written.0, written.1)
  }

  /**
   * The work of a continuation on the chapter graph: summarize the story up
   * to the viewed chapter, write the next chapter from the continue
   * instructions, add it as chapter current+1 under the viewed chapter and
   * record it as a cousin of the viewed chapter's earlier children.
   */
  method ContinueGraph(models: Models, g: Graph, current: ChapterId, viewing: ChapterId,
                       continueInstructions: string, summaryRequest: string, contextRequest: string)
    returns (r: Graph)
    requires GraphOk(g, current) && viewing in g
    ensures GraphOk(r, current + 1) && r.Keys == g.Keys + {current + 1}
    ensures r == AfterContinue(models, g, current, viewing, continueInstructions, summaryRequest, contextRequest)
  {
    var summary := SummarizeCurrentStory(models, g, current, viewing);
    var message := ContinueMessage(continueInstructions);
    var written := WriteChapter(models, message, summary, summaryRequest, contextRequest);
    r := AddContinuation(g, current, viewing, written.0, written.1);
  }

  /**
   * The continue handler: the chapter graph gains chapter current+1 as
   * ContinueGraph builds it, both pointers move to it, and the other fields
   * are as before.
   */
  method ContinueChapter(models: Models, s: State) returns (t: State)
    requires Valid(s) && s.viewing in s.graph
    ensures Valid(t) && t.graph.Keys == s.graph.Keys + {t.current}
    ensures t.current == s.current + 1 && t.viewing == t.current
    ensures KeepsRequests(s, t) && t.contextRequest == s.contextRequest
    ensures t == s.(graph := AfterContinue(models, s.graph, s.current, s.viewing,
                                           s.continueInstructions, s.summaryRequest, s.contextRequest),
                    current := s.current + 1, viewing := s.current + 1)
  {
    var g := ContinueGraph(models, s.graph, s.current, s.viewing, s.continueInstructions, s.summaryRequest, s.contextRequest);
    t := s.(graph := g, current := s.current + 1, viewing := s.current + 1);
  }

  /**
   * The work of a rewrite on the chapter graph: summarize the story up to
   * the viewed chapter's parent, write a new version from the viewed text and
   * the rewrite instructions, add it as chapter current+1 beside the viewed
   * chapter (same parent, a copy of its cousins, its siblings plus itself as
   * siblings), then append the new id to the siblings of every chapter
   * listed as a sibling of chapter viewing+1 and once more to the viewed
   * chapter's.
   */
  method RewriteGraph(models: Models, g: Graph, current: ChapterId, viewing: ChapterId,
                      rewriteInstructions: string, summaryRequest: string, contextRequest: string)
    returns (r: Graph)
    requires GraphOk(g, current) && viewing in g
    ensures GraphOk(r, current + 1) && r.Keys == g.Keys + {current + 1}
    ensures r == AfterRewrite(models, g, current, viewing, rewriteInstructions, summaryRequest, contextRequest)
  {
    var viewed := g[viewing];
    assert ChapterOk(viewed, viewing, current);
    var summary := SummarizeCurrentStory(models, g, current, viewed.parent);
    var message := EditMessage(viewed.content, rewriteInstructions);
    var written := WriteChapter(models, message, summary, summaryRequest, contextRequest);
    r := AddRewrite(g, current, viewing, written.0, written.1);
  }

  /**
   * The rewrite handler: the chapter graph gains chapter current+1 as
   * RewriteGraph builds it, both pointers move to it, and the other fields
   * are as before.
   */
  method EditChapter(models: Models, s: State) returns (t: State)
    requires Valid(s) && s.viewing in s.graph
    ensures Valid(t) && t.graph.Keys == s.graph.Keys + {t.current}
    ensures t.current == s.current + 1 && t.viewing == t.current
    ensures KeepsRequests(s, t) && t.contextRequest == s.contextRequest
    ensures t == s.(graph := AfterRewrite(models, s.graph, s.current, s.viewing,
                                          s.rewriteInstructions, s.summaryRequest, s.contextRequest),
                    current := s.current + 1, viewing := s.current + 1)
  {
    var g := RewriteGraph(models, s.graph, s.current, s.viewing, s.rewriteInstructions, s.summaryRequest, s.contextRequest);
    t := s.(graph := g, current := s.current + 1, viewing := s.current + 1);
  }

  /**
   * What the handler for `route` makes of `s`. The first-chapter handler
   * sets the context request, the one-chapter graph and the story title as
   * its pipeline computes them. The continue and rewrite handlers replace the
   * graph by AfterContinue or AfterRewrite and keep the story title.
   */
  ghost predicate HandledAs(models: Models, s: State, route: Route, t: State)
    requires Valid(s) && route == Router(s.graph, s.rewriteInstructions, s.continueInstructions)
    requires |s.graph| > 0 ==> s.viewing in s.graph
  {
    match route
    case First =>
      var request := Background(models, s.details);
      var written := WriteChapter(models, FirstChapterMessage, NoStorySummary, s.summaryRequest, request);
      && t.contextRequest == request && t.graph == FirstGraph(written.0, written.1)
      && t.storyTitle == GetTitle(models, s.instruction, written.0)
    case Continue =>
      && t.graph == AfterContinue(models, s.graph, s.current, s.viewing, s.continueInstructions,
                                  s.summaryRequest, s.contextRequest)
      && t.storyTitle == s.storyTitle
    case Rewrite =>
      && t.graph == AfterRewrite(models, s.graph, s.current, s.viewing, s.rewriteInstructions,
                                 s.summaryRequest, s.contextRequest)
      && t.storyTitle == s.storyTitle
  }

  /**
   * Runs the handler the router chose and returns the state it leaves: one
   * new chapter, numbered current+1 (1 for the first), with both pointers on
   * it and the request fields untouched.
   */
  method Dispatch(models: Models, s: State, route: Route) returns (t: State)
    requires Valid(s) && route == Router(s.graph, s.rewriteInstructions, s.continueInstructions)
    requires |s.graph| > 0 ==> s.viewing in s.graph
    ensures Valid(t) && t.viewing == t.current && t.graph.Keys == s.graph.Keys + {t.current}
    ensures route == First ==> t.current == 1
    ensures route != First ==> t.current == s.current + 1 && t.contextRequest == s.contextRequest
    ensures KeepsRequests(s, t)
    ensures HandledAs(models, s, route, t)
  {
    match route {
      case First =>
        t := WriteFirstChapter(models, s);
        assert s.graph.Keys == {};
      case Rewrite =>
        t := EditChapter(models, s);
      case Continue =>
        t := ContinueChapter(models, s);
    }
  }

  /**
   * One invocation of the story graph: the router picks a handler, the
   * handler runs, and the chapter graph it returns is merged into the stored
   * one. Every invocation adds exactly one chapter, numbered current+1 (1 for
   * the first), and leaves both pointers on it. No handler clears an
   * instruction field, so once a rewrite has been requested every later
   * invocation is routed to a rewrite again.
   */
  method Invoke(models: Models, s: State) returns (route: Route, t: State)
    requires Valid(s)
    requires |s.graph| > 0 ==> s.viewing in s.graph
    ensures route == Router(s.graph, s.rewriteInstructions, s.continueInstructions)
    ensures Valid(t) && t.viewing in t.graph && t.viewing == t.current
    ensures route == First ==> t.current == 1
    ensures route != First ==> t.current == s.current + 1 && t.contextRequest == s.contextRequest
    ensures t.graph.Keys == s.graph.Keys + {t.current}
    ensures KeepsRequests(s, t)
    ensures HandledAs(models, s, route, t)
    ensures Router(t.graph, t.rewriteInstructions, t.continueInstructions)
            == if s.rewriteInstructions != "" then Rewrite else Continue
  {
    route := Router(s.graph, s.rewriteInstructions, s.continueInstructions);
    var returned := Dispatch(models, s, route);
    var merged := UpdateChapterGraph(s.graph, Some(returned.graph)).value;
    MergeOfExtension(s.graph, returned.graph);
    t := returned.(graph := merged);
    assert t == returned;
    assert t.current in t.graph;
  }
}
