/**
 * The chapter graph of the story assistant: chapters keyed by integer ids,
 * the relation lists each chapter keeps, the router that picks a handler,
 * the dictionary-merge reducer, the ancestor walk behind the summary and the
 * graphs that the three handlers produce, stated as functions of the graph
 * before the call.
 *
 * Ids are the decimal strings "1", "2", ... of the source read as integers;
 * ROOT is the "-1" parent of the first chapter.
 */
module ChapterGraph {
  import opened Wrappers

  type ChapterId = int

  /** The parent recorded for a chapter that has none. */
  const ROOT: ChapterId := -1

  /**
   * One chapter. `summary` is never filled in by any handler, so it is
   * always `None`; the relation lists may hold repeated ids.
   */
  datatype Chapter = Chapter(
    content: string,
    summary: Option<string>,
    title: string,
    children: seq<ChapterId>,
    siblings: seq<ChapterId>,
    cousins: seq<ChapterId>,
    parent: ChapterId)

  type Graph = map<ChapterId, Chapter>

  /** The three handlers the router can choose. */
  datatype Route = First | Rewrite | Continue

  /**
   * Picks the handler for a request. A missing graph is the empty map and a
   * missing instruction the empty string, the defaults the router reads with.
   */
  function Router(graph: Graph, rewriteInstructions: string, continueInstructions: string): (r: Route)
    ensures r == First <==> |graph| == 0
    ensures r == Rewrite <==> |graph| > 0 && rewriteInstructions != ""
    ensures r == Continue <==> |graph| > 0 && rewriteInstructions == ""
  {
    if |graph| == 0 then First
    else if rewriteInstructions != "" then Rewrite
    else Continue
  }

  /** A rewrite request wins over a continue request, whatever the latter says. */
  lemma RewriteWinsOverContinue(graph: Graph, rewriteInstructions: string, c1: string, c2: string)
    requires |graph| > 0 && rewriteInstructions != ""
    ensures Router(graph, rewriteInstructions, c1) == Router(graph, rewriteInstructions, c2) == Rewrite
  {
  }

  /**
   * The reducer for the graph channel: a right-biased merge of the new graph
   * into the old one; an update that is not a dictionary (`None` here) gives
   * `None`.
   */
  function UpdateChapterGraph(oldGraph: Graph, newGraph: Option<Graph>): (r: Option<Graph>)
    ensures newGraph.None? <==> r.None?
    ensures newGraph.Some? ==>
      && r.value.Keys == oldGraph.Keys + newGraph.value.Keys
      && (forall k :: k in newGraph.value ==> r.value[k] == newGraph.value[k])
      && (forall k :: k in oldGraph && k !in newGraph.value ==> r.value[k] == oldGraph[k])
  {
    if newGraph.Some? then Some(oldGraph + newGraph.value) else None
  }

  /** Merging a graph that extends the old one yields that graph: every handler's output passes through unchanged. */
  lemma MergeOfExtension(oldGraph: Graph, newGraph: Graph)
    requires oldGraph.Keys <= newGraph.Keys
    ensures UpdateChapterGraph(oldGraph, Some(newGraph)) == Some(newGraph)
  {
    assert oldGraph + newGraph == newGraph;
  }

  /** Every id in `ids` names one of the chapters 1..current. */
  ghost predicate IdsWithin(ids: seq<ChapterId>, current: ChapterId)
  {
    forall x :: x in ids ==> 1 <= x <= current
  }

  ghost predicate ChapterOk(ch: Chapter, id: ChapterId, current: ChapterId)
  {
    && (ch.parent == ROOT || 1 <= ch.parent < id)
    && IdsWithin(ch.children, current)
    && IdsWithin(ch.siblings, current)
    && IdsWithin(ch.cousins, current)
    && id !in ch.siblings
  }

  /**
   * The shape every handler keeps: the ids are exactly 1..current, a parent
   * is ROOT or an older chapter (so the parent links form a forest), every
   * related id names a chapter, and no chapter lists itself as a sibling.
   */
  ghost predicate GraphOk(g: Graph, current: ChapterId)
  {
    && current >= 1
    && (forall k :: k in g <==> 1 <= k <= current)
    && forall k :: k in g ==> ChapterOk(g[k], k, current)
  }

  /** Number of parent steps from `k` to the chapter whose parent is ROOT. */
  ghost function Depth(g: Graph, current: ChapterId, k: ChapterId): (d: nat)
    requires GraphOk(g, current) && k in g
    ensures d < k
    decreases k
  {
    if g[k].parent == ROOT then 0 else 1 + Depth(g, current, g[k].parent)
  }

  /** The chapter `j` parent steps above `k`; the walk ends exactly at depth Depth(k), on a chapter whose parent is ROOT. */
  ghost function Ancestor(g: Graph, current: ChapterId, k: ChapterId, j: nat): (a: ChapterId)
    requires GraphOk(g, current) && k in g && j <= Depth(g, current, k)
    ensures a in g
    ensures g[a].parent == ROOT <==> j == Depth(g, current, k)
    decreases j
  {
    if j == 0 then k else Ancestor(g, current, g[k].parent, j - 1)
  }

  /** The texts the summary loop appends while the chapter it stands on has a parent. */
  function Climb(g: Graph, current: ChapterId, k: ChapterId): seq<string>
    requires GraphOk(g, current) && k in g
    decreases k
  {
    if g[k].parent == ROOT then [] else [g[k].content] + Climb(g, current, g[k].parent)
  }

  /**
   * The chapter texts collected for the summary of `start`: its own content,
   * then the content of every chapter on the way up that still has a parent.
   */
  function SummaryTexts(g: Graph, current: ChapterId, start: ChapterId): seq<string>
    requires GraphOk(g, current) && start in g
  {
    [g[start].content] + Climb(g, current, start)
  }

  lemma {:induction false} ClimbAt(g: Graph, current: ChapterId, k: ChapterId)
    requires GraphOk(g, current) && k in g
    ensures |Climb(g, current, k)| == Depth(g, current, k)
    ensures forall i :: 0 <= i < Depth(g, current, k) ==>
      Climb(g, current, k)[i] == g[Ancestor(g, current, k, i)].content
    decreases k
  {
    if g[k].parent != ROOT {
      var p := g[k].parent;
      ClimbAt(g, current, p);
      forall i | 0 <= i < Depth(g, current, k)
        ensures Climb(g, current, k)[i] == g[Ancestor(g, current, k, i)].content
      {
        if i > 0 {
          assert Climb(g, current, k)[i] == Climb(g, current, p)[i - 1];
        }
      }
    }
  }

  /**
   * The summary walk collects Depth+1 texts: the start's content, then the
   * start's content again and the ancestors' contents from the leaf up,
   * stopping before the chapter whose parent is ROOT. So the start is listed
   * twice unless it is that chapter, and that chapter's content is absent
   * unless it is the start.
   */
  lemma {:induction false} SummaryTextsShape(g: Graph, current: ChapterId, start: ChapterId)
    requires GraphOk(g, current) && start in g
    ensures var texts := SummaryTexts(g, current, start);
      && |texts| == Depth(g, current, start) + 1
      && texts[0] == g[start].content
      && (forall i :: 1 <= i < |texts| ==> texts[i] == g[Ancestor(g, current, start, i - 1)].content)
      && (g[start].parent != ROOT ==> texts[1] == g[start].content)
  {
    ClimbAt(g, current, start);
  }

  /** `count` copies of `id`. */
  function Copies(id: ChapterId, count: nat): (r: seq<ChapterId>)
    ensures |r| == count
    ensures forall x :: x in r ==> x == id
  {
    seq(count, _ => id)
  }

  lemma CopiesSnoc(id: ChapterId, count: nat)
    ensures Copies(id, count + 1) == Copies(id, count) + [id]
  {
  }

  /** Appends `n` to the cousins of every chapter listed in `ids`, once per listing (the loop of a continuation). */
  method AppendCousin(g: Graph, ids: seq<ChapterId>, n: ChapterId) returns (r: Graph)
    requires forall x :: x in ids ==> x in g
    ensures r.Keys == g.Keys
    ensures forall k :: k in g ==> r[k] == g[k].(cousins := g[k].cousins + Copies(n, multiset(ids)[k]))
  {
    r := g;
    var i := 0;
    while i < |ids|
      invariant 0 <= i <= |ids|
      invariant r.Keys == g.Keys
      invariant forall k :: k in g ==> r[k] == g[k].(cousins := g[k].cousins + Copies(n, multiset(ids[..i])[k]))
    {
      var id := ids[i];
      assert ids[..i + 1] == ids[..i] + [id];
      CopiesSnoc(n, multiset(ids[..i])[id]);
      r := r[id := r[id].(cousins := r[id].cousins + [n])];
      i := i + 1;
    }
    assert ids[..i] == ids;
  }

  /** Appends `n` to the siblings of every chapter listed in `ids`, once per listing (the loop of a rewrite). */
  method AppendSibling(g: Graph, ids: seq<ChapterId>, n: ChapterId) returns (r: Graph)
    requires forall x :: x in ids ==> x in g
    ensures r.Keys == g.Keys
    ensures forall k :: k in g ==> r[k] == g[k].(siblings := g[k].siblings + Copies(n, multiset(ids)[k]))
  {
    r := g;
    var i := 0;
    while i < |ids|
      invariant 0 <= i <= |ids|
      invariant r.Keys == g.Keys
      invariant forall k :: k in g ==> r[k] == g[k].(siblings := g[k].siblings + Copies(n, multiset(ids[..i])[k]))
    {
      var id := ids[i];
      assert ids[..i + 1] == ids[..i] + [id];
      CopiesSnoc(n, multiset(ids[..i])[id]);
      r := r[id := r[id].(siblings := r[id].siblings + [n])];
      i := i + 1;
    }
    assert ids[..i] == ids;
  }

  /** The graph right after the first chapter is written. */
  function FirstGraph(content: string, title: string): Graph
  {
    map[1 := Chapter(content, None, title, [], [], [], ROOT)]
  }

  lemma FirstGraphOk(content: string, title: string)
    ensures GraphOk(FirstGraph(content, title), 1)
    ensures Depth(FirstGraph(content, title), 1, 1) == 0
  {
  }

  /**
   * The graph after a continuation `n` of chapter `v`: the new chapter's
   * parent is `v`, it starts with no siblings and with `v`'s children as its
   * cousins; each occurrence of a chapter among `v`'s children appends `n`
   * once to that chapter's cousins, and `v`'s children gain `n` at the end.
   */
  function Continued(g: Graph, v: ChapterId, n: ChapterId, content: string, title: string): Graph
    requires v in g && n !in g
  {
    var kids := g[v].children;
    map k | k in g.Keys + {n} ::
      if k == n then Chapter(content, None, title, [], [], kids, v)
      else
        var ch := g[k].(cousins := g[k].cousins + Copies(n, multiset(kids)[k]));
        if k == v then ch.(children := ch.children + [n]) else ch
  }

  /**
   * The graph after a rewrite `n` of chapter `v`. The new chapter copies
   * `v`'s parent and cousins, its siblings are `v`'s siblings followed by `v`,
   * and it has no children. The sibling lists that gain `n` are those of the
   * chapters listed as siblings of chapter v+1 (once per listing), which is
   * the new chapter only when v+1 == n; `v` gains `n` once more on top of
   * that. Nobody's children or cousins change, the parent's included.
   */
  function Rewritten(g: Graph, v: ChapterId, n: ChapterId, content: string, title: string): Graph
    requires v in g && n !in g && (v + 1 in g || v + 1 == n)
  {
    var rewrite := Chapter(content, None, title, [], g[v].siblings + [v], g[v].cousins, g[v].parent);
    var group := if v + 1 == n then rewrite.siblings else g[v + 1].siblings;
    map k | k in g.Keys + {n} ::
      if k == n then rewrite
      else g[k].(siblings := g[k].siblings + Copies(n, multiset(group)[k] + if k == v then 1 else 0))
  }

  /** The continuation's steps, in the order the handler takes them, build Continued. */
  lemma ContinuedBySteps(g0: Graph, v: ChapterId, n: ChapterId, content: string, title: string, g1: Graph)
    requires v in g0 && n !in g0
    requires g1.Keys == g0.Keys + {n}
    requires g1[n] == Chapter(content, None, title, [], [], g0[v].children, v)
    requires forall k :: k in g0 ==> g1[k] == g0[k].(cousins := g0[k].cousins + Copies(n, multiset(g0[v].children)[k]))
    ensures g1[v := g1[v].(children := g1[v].children + [n])] == Continued(g0, v, n, content, title)
  {
    var r := Continued(g0, v, n, content, title);
    var g2 := g1[v := g1[v].(children := g1[v].children + [n])];
    assert g2.Keys == r.Keys;
    forall k | k in r ensures g2[k] == r[k] {
    }
  }

  /** The rewrite's steps, in the order the handler takes them, build Rewritten. */
  lemma RewrittenBySteps(g0: Graph, v: ChapterId, n: ChapterId, content: string, title: string,
                         group: seq<ChapterId>, g1: Graph)
    requires v in g0 && n !in g0 && (v + 1 in g0 || v + 1 == n)
    requires group == if v + 1 == n then g0[v].siblings + [v] else g0[v + 1].siblings
    requires g1.Keys == g0.Keys + {n}
    requires g1[n] == Chapter(content, None, title, [], g0[v].siblings + [v], g0[v].cousins, g0[v].parent)
    requires forall k :: k in g0 ==> g1[k] == g0[k].(siblings := g0[k].siblings + Copies(n, multiset(group)[k]))
    ensures g1[v := g1[v].(siblings := g1[v].siblings + [n])] == Rewritten(g0, v, n, content, title)
  {
    var r := Rewritten(g0, v, n, content, title);
    var g2 := g1[v := g1[v].(siblings := g1[v].siblings + [n])];
    assert g2.Keys == r.Keys;
    forall k | k in r ensures g2[k] == r[k] {
      RewrittenStepAt(g0, v, n, content, title, group, g1, k);
    }
  }

  /** One chapter of RewrittenBySteps: the value at key `k` after the steps is the one Rewritten gives. */
  lemma RewrittenStepAt(g0: Graph, v: ChapterId, n: ChapterId, content: string, title: string,
                        group: seq<ChapterId>, g1: Graph, k: ChapterId)
    requires v in g0 && n !in g0 && (v + 1 in g0 || v + 1 == n)
    requires group == if v + 1 == n then g0[v].siblings + [v] else g0[v + 1].siblings
    requires g1.Keys == g0.Keys + {n}
    requires g1[n] == Chapter(content, None, title, [], g0[v].siblings + [v], g0[v].cousins, g0[v].parent)
    requires forall k :: k in g0 ==> g1[k] == g0[k].(siblings := g0[k].siblings + Copies(n, multiset(group)[k]))
    requires k in g0 || k == n
    ensures k in Rewritten(g0, v, n, content, title)
    ensures g1[v := g1[v].(siblings := g1[v].siblings + [n])][k] == Rewritten(g0, v, n, content, title)[k]
  {
    if k == v {
      RewrittenStepAtViewed(g0[v], n, multiset(group)[v], g1[v]);
    }
  }

  /** The viewed chapter: the loop's copies of `n`, then one more, are Rewritten's count plus one. */
  lemma RewrittenStepAtViewed(viewed: Chapter, n: ChapterId, count: nat, afterLoop: Chapter)
    requires afterLoop == viewed.(siblings := viewed.siblings + Copies(n, count))
    ensures afterLoop.(siblings := afterLoop.siblings + [n]) == viewed.(siblings := viewed.siblings + Copies(n, count + 1))
  {
    CopiesSnoc(n, count);
    assert viewed.siblings + (Copies(n, count) + [n]) == (viewed.siblings + Copies(n, count)) + [n];
  }

  /** A continuation keeps the graph well formed, with ids 1..current+1. */
  lemma ContinuedOk(g: Graph, current: ChapterId, v: ChapterId, content: string, title: string)
    requires GraphOk(g, current) && v in g
    ensures GraphOk(Continued(g, v, current + 1, content, title), current + 1)
  {
    var n := current + 1;
    var r := Continued(g, v, n, content, title);
    forall k | k in r ensures ChapterOk(r[k], k, n) {
      if k != n {
        assert ChapterOk(g[k], k, current);
      }
    }
  }

  /** A rewrite keeps the graph well formed, with ids 1..current+1. */
  lemma RewrittenOk(g: Graph, current: ChapterId, v: ChapterId, content: string, title: string)
    requires GraphOk(g, current) && v in g
    ensures v + 1 in g || v + 1 == current + 1
    ensures GraphOk(Rewritten(g, v, current + 1, content, title), current + 1)
  {
    var n := current + 1;
    var r := Rewritten(g, v, n, content, title);
    assert ChapterOk(g[v], v, current);
    forall k | k in r ensures ChapterOk(r[k], k, n) {
      if k != n {
        assert ChapterOk(g[k], k, current);
      }
    }
  }

  /**
   * The graph work of continue_chapter: inserts chapter current+1 as a child
   * of `v`, walks `v`'s children appending the new id to their cousins, then
   * appends the new id to `v`'s children.
   */
  method AddContinuation(g0: Graph, current: ChapterId, v: ChapterId, content: string, title: string)
    returns (g: Graph)
    requires GraphOk(g0, current) && v in g0
    ensures g == Continued(g0, v, current + 1, content, title)
    ensures GraphOk(g, current + 1)
  {
    var n := current + 1;
    assert ChapterOk(g0[v], v, current);
    g := g0[n := Chapter(content, None, title, [], [], g0[v].children, v)];
    var kids := g[v].children;
    g := AppendCousin(g, kids, n);
    assert g[v].children == kids;
    assert n !in kids;
    assert multiset(kids)[n] == 0;
    ContinuedBySteps(g0, v, n, content, title, g);
    g := g[v := g[v].(children := g[v].children + [n])];
    ContinuedOk(g0, current, v, content, title);
  }

  /**
   * The graph work of edit_chapter: inserts chapter current+1 as a rewrite of
   * `v`, walks the sibling list of chapter v+1 appending the new id to each
   * listed chapter's siblings, then appends the new id to `v`'s siblings.
   */
  method AddRewrite(g0: Graph, current: ChapterId, v: ChapterId, content: string, title: string)
    returns (g: Graph)
    requires GraphOk(g0, current) && v in g0
    ensures v + 1 in g0 || v + 1 == current + 1
    ensures g == Rewritten(g0, v, current + 1, content, title)
    ensures GraphOk(g, current + 1)
  {
    var n := current + 1;
    var viewed := g0[v];
    assert ChapterOk(viewed, v, current);
    g := g0[n := Chapter(content, None, title, [], viewed.siblings + [v], viewed.cousins, viewed.parent)];
    assert v + 1 in g;
    var group := g[v + 1].siblings;
    assert v + 1 != n ==> ChapterOk(g0[v + 1], v + 1, current);
    assert IdsWithin(group, current) && v + 1 !in group;
    g := AppendSibling(g, group, n);
    assert n !in group;
    assert multiset(group)[n] == 0;
    RewrittenBySteps(g0, v, n, content, title, group, g);
    g := g[v := g[v].(siblings := g[v].siblings + [n])];
    RewrittenOk(g0, current, v, content, title);
  }

  /**
   * What a continuation changes: exactly one new key; the new chapter's
   * fields; `v`'s children gain `n` once at the end; a child of `v` gains
   * `n` in its cousins once per listing; every other chapter and every
   * other field is as before.
   */
  lemma ContinuedShape(g: Graph, current: ChapterId, v: ChapterId, content: string, title: string)
    requires GraphOk(g, current) && v in g
    ensures var n := current + 1;
      var r := Continued(g, v, n, content, title);
      && r.Keys == g.Keys + {n}
      && r[n] == Chapter(content, None, title, [], [], g[v].children, v)
      && r[v].children == g[v].children + [n]
      && (forall k :: k in g && k != v ==> r[k].children == g[k].children)
      && (forall k :: k in g ==> r[k].cousins == g[k].cousins + Copies(n, multiset(g[v].children)[k]))
      && (forall k :: k in g && k !in g[v].children ==> r[k].cousins == g[k].cousins)
      && (forall k :: k in g ==> r[k].(children := g[k].children, cousins := g[k].cousins) == g[k])
  {
  }

  /**
   * What a rewrite changes: exactly one new key; the new chapter copies
   * `v`'s parent and cousins and lists `v`'s siblings then `v`; `v`'s
   * siblings end with `n`; no chapter's children or cousins change (the
   * parent of `v` does not learn about `n`), and sibling lists only grow.
   */
  lemma RewrittenShape(g: Graph, current: ChapterId, v: ChapterId, content: string, title: string)
    requires GraphOk(g, current) && v in g
    ensures v + 1 in g || v + 1 == current + 1
    ensures var n := current + 1;
      var r := Rewritten(g, v, n, content, title);
      && r.Keys == g.Keys + {n}
      && r[n] == Chapter(content, None, title, [], g[v].siblings + [v], g[v].cousins, g[v].parent)
      && r[v].siblings[|r[v].siblings| - 1] == n
      && (forall k :: k in g ==> r[k].children == g[k].children && r[k].cousins == g[k].cousins)
      && (forall k :: k in g ==> r[k].content == g[k].content && r[k].title == g[k].title && r[k].parent == g[k].parent)
      && (forall k :: k in g ==> g[k].siblings <= r[k].siblings)
  {
    var n := current + 1;
    assert v + 1 in g || v + 1 == n;
    var r := Rewritten(g, v, n, content, title);
    var group := if v + 1 == n then g[v].siblings + [v] else g[v + 1].siblings;
    var m := multiset(group)[v] + 1;
    assert r[v].siblings == g[v].siblings + Copies(n, m);
    assert Copies(n, m)[m - 1] == n;
  }

  /**
   * A rewrite of the newest chapter (viewing == current): the sibling loop
   * runs over the new chapter's own list, so every member of the group gains
   * `n`, and `v` gains it twice.
   */
  lemma RewriteAtCurrent(g: Graph, current: ChapterId, content: string, title: string)
    requires GraphOk(g, current)
    ensures var n := current + 1;
      var r := Rewritten(g, current, n, content, title);
      && r[current].siblings == g[current].siblings + [n, n]
      && (forall s :: s in g[current].siblings ==> n in r[s].siblings)
  {
    var n := current + 1;
    var v := current;
    assert v in g;
    assert ChapterOk(g[v], v, current);
    var group := g[v].siblings + [v];
    assert multiset(group)[v] == 1;
    var r := Rewritten(g, current, n, content, title);
    forall s | s in g[current].siblings ensures n in r[s].siblings {
      assert s in group;
      var m := multiset(group)[s] + if s == v then 1 else 0;
      assert m > 0;
      assert r[s].siblings == g[s].siblings + Copies(n, m);
      assert Copies(n, m)[0] == n;
      assert r[s].siblings[|g[s].siblings|] == n;
    }
  }

  /**
   * The first chapter, one continuation of it and a rewrite
   * of the newest chapter: the rewrite's parent is chapter 1, chapter 1's
   * children stay [2], and chapter 2 lists the rewrite twice.
   */
  lemma RewriteScenario()
    ensures var g1 := FirstGraph("c1", "t1");
      var g2 := Continued(g1, 1, 2, "c2", "t2");
      var g3 := Rewritten(g2, 2, 3, "c3", "t3");
      && g2[1].children == [2] && g2[2].parent == 1
      && g3[3].parent == 1 && g3[3].siblings == [2]
      && g3[2].siblings == [3, 3]
      && g3[1].children == [2]
  {
    var g1 := FirstGraph("c1", "t1");
    var g2 := Continued(g1, 1, 2, "c2", "t2");
    assert g2[2].siblings == [];
    assert multiset([2])[2] == 1;
  }

  /**
   * A rewrite of `v` when chapter v+1 exists and lists no siblings: the loop
   * has nothing to walk, so only `v` learns of the new chapter.
   */
  lemma RewriteWithEmptyGroup(g: Graph, current: ChapterId, v: ChapterId, content: string, title: string)
    requires GraphOk(g, current) && v in g && v + 1 in g && g[v + 1].siblings == []
    ensures var r := Rewritten(g, v, current + 1, content, title);
      && r[current + 1].siblings == g[v].siblings + [v]
      && r[v].siblings == g[v].siblings + [current + 1]
      && forall k :: k in g && k != v ==> r[k].siblings == g[k].siblings
  {
    var n := current + 1;
    var r := Rewritten(g, v, n, content, title);
    assert multiset(g[v + 1].siblings) == multiset{};
    assert Copies(n, 1) == [n];
  }

  /** The story of RewriteScenario: a first chapter, its continuation 2 and the rewrite 3 of chapter 2. */
  ghost function ThreeChapterStory(): (g: Graph)
    ensures GraphOk(g, 3)
  {
    var g1 := FirstGraph("c1", "t1");
    FirstGraphOk("c1", "t1");
    ContinuedOk(g1, 1, 1, "c2", "t2");
    var g2 := Continued(g1, 1, 2, "c2", "t2");
    RewrittenOk(g2, 2, 2, "c3", "t3");
    Rewritten(g2, 2, 3, "c3", "t3")
  }

  /** ThreeChapterStory continued from chapter 3 by chapter 4. */
  ghost function FourChapterStory(): (g: Graph)
    ensures GraphOk(g, 4)
  {
    ContinuedOk(ThreeChapterStory(), 3, 3, "c4", "t4");
    Continued(ThreeChapterStory(), 3, 4, "c4", "t4")
  }

  /** FourChapterStory with chapter 3, no longer the newest, rewritten as chapter 5. */
  ghost function FiveChapterStory(): (g: Graph)
    ensures GraphOk(g, 5)
  {
    RewrittenOk(FourChapterStory(), 4, 3, "c5", "t5");
    Rewritten(FourChapterStory(), 3, 5, "c5", "t5")
  }

  /**
   * A rewrite of a chapter other than the newest one reads the sibling list
   * of the wrong chapter (v+1), so the new chapter can list a sibling that
   * does not list it back: in FiveChapterStory chapter 5 lists 2, but 2
   * never learns of 5.
   */
  lemma RewriteBelowCurrentBreaksSymmetry()
    ensures 2 in FiveChapterStory()[5].siblings && 5 !in FiveChapterStory()[2].siblings
  {
    RewriteScenario();
    var g3 := ThreeChapterStory();
    ContinuedShape(g3, 3, 3, "c4", "t4");
    var g4 := FourChapterStory();
    assert g4[3].siblings == [2] && g4[4].siblings == [];
    RewriteWithEmptyGroup(g4, 4, 3, "c5", "t5");
    assert ChapterOk(g4[2], 2, 4);
  }
}
