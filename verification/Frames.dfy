/**
 * What is done with a laid-out frame: the search for the scroll views at a point, their
 * scrollbars (packages/tui/src/layout.ts), and scrolling between layouts
 * (packages/tui/src/tui-alt-screen.ts).
 */
module Frames {
  import opened Base
  import opened ScrollViews
  import opened BoxTrees
  import opened LayoutBoxes
  import opened Sorting

  // ------------------------------------------------------------------
  // The scroll views at a point
  // ------------------------------------------------------------------

  lemma ChildOf(box: LayoutBox, i: nat)
    requires box.Valid() && i < |box.children|
    ensures box.children[i].Valid() && box.children[i].repr < box.repr
        && box.Value().children[i] == box.children[i].Value()
  {
  }

  lemma VisitUnfolds(b: Box, depth: nat, x: int, y: int)
    ensures Visit(b, depth, x, y) ==
            if !Contains(b.clip, x, y) then []
            else (if b.scroll.Some? && Contains(b.rect, x, y) then [Hit(b.scroll.value.view, depth)] else []) +
                 VisitAll(b.children, depth + 1, x, y)
  {
  }

  lemma VisitNext(boxes: seq<Box>, i: nat, depth: nat, x: int, y: int)
    requires i < |boxes|
    ensures VisitAll(boxes[..i+1], depth, x, y) == VisitAll(boxes[..i], depth, x, y) + Visit(boxes[i], depth, x, y)
  {
    assert boxes[..i+1][..i] == boxes[..i];
  }

  /** The pruned search pushes its hits. */
  method VisitBox(box: LayoutBox, depth: nat, x: int, y: int, result0: seq<Hit>) returns (result: seq<Hit>)
    requires box.Valid()
    ensures result == result0 + Visit(box.Value(), depth, x, y)
    decreases box.repr
  {
    hide LayoutBox.Valid, LayoutBox.Value, Visit, VisitAll, Contains;
    VisitUnfolds(box.Value(), depth, x, y);
    result := result0;
    if !Contains(box.clip, x, y) { return; }
    if box.scrollView != null && Contains(box.rect, x, y) {
      result := result + [Hit(box.scrollView, depth)];
    }
    ghost var own, children := result, box.Value().children;
    VisitNone(children, depth + 1, x, y);
    for i := 0 to |box.children|
      invariant result == own + VisitAll(children[..i], depth + 1, x, y)
    {
      ChildOf(box, i);
      VisitNext(children, i, depth + 1, x, y);
      result := VisitBox(box.children[i], depth + 1, x, y, result);
      Associate(own, VisitAll(children[..i], depth + 1, x, y), Visit(children[i], depth + 1, x, y));
    }
    Associate(result0, own[|result0|..], VisitAll(children, depth + 1, x, y));
  }

  lemma Associate(a: seq<Hit>, b: seq<Hit>, c: seq<Hit>)
    ensures a + b + c == a + (b + c)
  {
  }

  lemma VisitNone(boxes: seq<Box>, depth: nat, x: int, y: int)
    ensures VisitAll(boxes[..0], depth, x, y) == [] && boxes[..|boxes|] == boxes
  {
  }

  function ViewsOf(hits: seq<Hit>): seq<ScrollView> {
    seq(|hits|, i requires 0 <= i < |hits| => hits[i].view)
  }

  /**
   * The search at a point finds exactly the scroll boxes of the whole tree that have the
   * point in their clip, sorted stably with the deepest first.
   */
  method GetScrollViewsAt(root: LayoutBox, ghost screen: Rect, x: int, y: int) returns (found: seq<ScrollView>)
    requires root.Valid() && ClipsOk(root.Value(), screen)
    ensures found == ViewsOf(SortBy(DeepestFirst, FullScan(root.Value(), 0, x, y)))
    ensures var hits := SortBy(DeepestFirst, FullScan(root.Value(), 0, x, y));
      |found| == |hits| && forall k :: 0 <= k < |found| ==> found[k] == hits[k].view
  {
    hide LayoutBox.Valid, LayoutBox.Value, Visit, FullScan, SortBy;
    var result := VisitBox(root, 0, x, y, []);
    PrunedSearchIsComplete(root.Value(), screen, 0, x, y);
    assert result == FullScan(root.Value(), 0, x, y);
    found := ViewsOf(SortBy(DeepestFirst, result));
  }

  /** What that list is: the full scan's hits, deeper ones before shallower ones, scan order within a depth. */
  lemma DeepestFirstOrder(hits: seq<Hit>, i: nat, j: nat, depth: nat)
    requires i < j < |SortBy(DeepestFirst, hits)|
    ensures SortBy(DeepestFirst, hits)[i].depth >= SortBy(DeepestFirst, hits)[j].depth
    ensures multiset(SortBy(DeepestFirst, hits)) == multiset(hits)
    ensures WithKey(DeepestFirst, SortBy(DeepestFirst, hits), 0 - depth) == WithKey(DeepestFirst, hits, 0 - depth)
  {
    hide SortBy, WithKey;
    SortByIsStableSort(DeepestFirst, hits);
    var sorted := SortBy(DeepestFirst, hits);
    assert DeepestFirst(sorted[i]) <= DeepestFirst(sorted[j]);
  }

  // ------------------------------------------------------------------
  // The scrollbar of a box
  // ------------------------------------------------------------------

  /** A view always shows its scrollbar, or while it scrolls and has something to scroll. */
  predicate ShowsScrollbar(view: ScrollView)
    reads view
  {
    || (view.scrollbar == Always && view.viewportHeight > 0)
    || (view.scrollbar == Auto && view.contentHeight > view.viewportHeight && view.transientScrollbarVisible)
  }

  datatype Geometry = Geometry(column: int, trackTop: int, trackHeight: int, thumbTop: int, thumbHeight: int,
      maxScrollTop: int)

  /**
   * The scrollbar of a measured box: in the box's last column, within its clip's columns,
   * with the thumb inside the box, at its ends exactly when the view is at its own.
   */
  ghost predicate IsScrollbarOf(g: Option<Geometry>, b: Box, visible: bool)
    requires ScrollMeasured(b)
  {
    && (g.Some? <==>
          && b.scroll.Some? && visible && b.rect.width > 0 && b.rect.height > 0
          && b.clip.x <= b.rect.x + b.rect.width - 1 < b.clip.x + b.clip.width)
    && (g.Some? ==>
          var s, rect, scroll := g.value, b.rect, b.scroll.value;
          && s.column == rect.x + rect.width - 1 && s.trackTop == rect.y && s.trackHeight == rect.height
          && s.maxScrollTop == Max(0, scroll.contentHeight - scroll.viewportHeight)
          && s.thumbHeight == ThumbHeight(rect.height, scroll.contentHeight)
          && s.thumbTop == rect.y + ThumbOffset(rect.height, scroll.contentHeight, scroll.top)
          && s.thumbHeight >= 1 && rect.y <= s.thumbTop && s.thumbTop + s.thumbHeight <= rect.y + rect.height
          && (scroll.top == 0 ==> s.thumbTop == rect.y)
          && (scroll.top == s.maxScrollTop ==> s.thumbTop + s.thumbHeight == rect.y + rect.height))
  }

  method GetScrollbarGeometry(box: LayoutBox) returns (g: Option<Geometry>)
    requires box.Valid() && ScrollMeasured(box.Value())
    ensures IsScrollbarOf(g, box.Value(), box.scrollView != null && ShowsScrollbar(box.scrollView))
  {
    hide LayoutBox.Valid, LayoutBox.Value, ThumbHeight, ThumbOffset;
    var view := box.scrollView;
    if view == null { return None; }
    ChildOf(box, 0);
    if !view.IsScrollbarVisible() || box.rect.width <= 0 || box.rect.height <= 0 { return None; }
    var contentHeight := box.children[0].rect.height;
    var trackHeight := box.rect.height;
    var thumbHeight := ThumbHeight(trackHeight, contentHeight);
    var maxScrollTop := Max(0, contentHeight - trackHeight);
    var thumbOffset := ThumbOffset(trackHeight, contentHeight, view.scrollTop);
    var column := box.rect.x + box.rect.width - 1;
    if column < box.clip.x || column >= box.clip.x + box.clip.width { return None; }
    ThumbInTrack(trackHeight, contentHeight, view.scrollTop);
    g := Some(Geometry(column, box.rect.y, trackHeight, box.rect.y + thumbOffset, thumbHeight, maxScrollTop));
  }

  ghost predicate Shows(b: Box, view: ScrollView) {
    b.scroll.Some? && b.scroll.value.view == view
  }

  /** `getScrollViewBox`: the first box of a view, unless no box of the tree has it. */
  method GetScrollViewBox(box: LayoutBox, view: ScrollView) returns (found: LayoutBox?, ghost path: seq<nat>)
    requires box.Valid()
    ensures found != null ==>
              && IsPath(box.Value(), path) && found.Valid() && found.Value() == BoxAt(box.Value(), path)
              && Shows(found.Value(), view)
    ensures found == null ==> forall p :: IsPath(box.Value(), p) ==> !Shows(BoxAt(box.Value(), p), view)
    decreases box.repr
  {
    hide LayoutBox.Valid, LayoutBox.Value;
    if box.scrollView == view { return box, []; }
    for i := 0 to |box.children|
      invariant forall p :: IsPath(box.Value(), p) && p != [] && p[0] < i ==> !Shows(BoxAt(box.Value(), p), view)
    {
      ChildOf(box, i);
      found, path := GetScrollViewBox(box.children[i], view);
      if found != null {
        path := [i] + path;
        return;
      }
    }
    found, path := null, [];
  }

  /** `g` is the scrollbar of the box at `path`, which shows the view. */
  ghost predicate ScrollbarAt(root: Box, path: seq<nat>, view: ScrollView, g: Option<Geometry>, visible: bool) {
    && IsPath(root, path) && Shows(BoxAt(root, path), view)
    && ScrollMeasured(BoxAt(root, path)) && IsScrollbarOf(g, BoxAt(root, path), visible)
  }

  /** The scrollbar of a view in a frame, wherever its box is. */
  method GetViewScrollbar(root: LayoutBox, view: ScrollView) returns (g: Option<Geometry>)
    requires root.Valid() && ScrollsMeasured(root.Value())
    ensures || (g.None? && forall p :: IsPath(root.Value(), p) ==> !Shows(BoxAt(root.Value(), p), view))
            || (exists p :: ScrollbarAt(root.Value(), p, view, g, ShowsScrollbar(view)))
  {
    hide LayoutBox.Valid, LayoutBox.Value, ScrollMeasured, IsScrollbarOf;
    var box;
    ghost var path;
    box, path := GetScrollViewBox(root, view);
    if box == null { return None; }
    BoxAtMeasured(root.Value(), path);
    g := GetScrollbarGeometry(box);
    assert ScrollbarAt(root.Value(), path, view, g, ShowsScrollbar(view));
  }

  // ------------------------------------------------------------------
  // Scrolling between layouts
  // ------------------------------------------------------------------

  /** All views of a tree are among `views`. */
  ghost predicate ViewsIn(b: Box, views: set<ScrollView>) {
    && (b.scroll.Some? ==> b.scroll.value.view in views)
    && forall i :: 0 <= i < |b.children| ==> ViewsIn(b.children[i], views)
  }

  lemma {:induction false} ViewsInMore(b: Box, views: set<ScrollView>, more: set<ScrollView>)
    requires ViewsIn(b, views) && views <= more
    ensures ViewsIn(b, more)
  {
    forall i | 0 <= i < |b.children| ensures ViewsIn(b.children[i], more) {
      ViewsInMore(b.children[i], views, more);
    }
  }

  lemma {:induction false} BoxViews(box: LayoutBox)
    requires box.Valid()
    ensures ViewsIn(box.Value(), box.views)
    decreases box.repr
  {
    forall i | 0 <= i < |box.children| ensures ViewsIn(box.Value().children[i], box.views) {
      BoxViews(box.children[i]);
      ViewsInMore(box.children[i].Value(), box.children[i].views, box.views);
    }
  }

  lemma {:induction false} HitsAreViews(b: Box, views: set<ScrollView>, depth: nat, x: int, y: int)
    requires ViewsIn(b, views)
    ensures forall h :: h in FullScan(b, depth, x, y) ==> h.view in views
    decreases b, 0
  {
    AllHitsAreViews(b.children, views, depth + 1, x, y);
  }

  lemma {:induction false} AllHitsAreViews(boxes: seq<Box>, views: set<ScrollView>, depth: nat, x: int, y: int)
    requires forall i :: 0 <= i < |boxes| ==> ViewsIn(boxes[i], views)
    ensures forall h :: h in FullScanAll(boxes, depth, x, y) ==> h.view in views
    decreases boxes, 1
  {
    if boxes != [] {
      HitsAreViews(boxes[|boxes|-1], views, depth, x, y);
      AllHitsAreViews(boxes[..|boxes|-1], views, depth, x, y);
    }
  }

  lemma FoundAreViews(root: LayoutBox, x: int, y: int)
    requires root.Valid()
    ensures forall v :: v in ViewsOf(SortBy(DeepestFirst, FullScan(root.Value(), 0, x, y))) ==> v in root.views
  {
    hide LayoutBox.Valid, LayoutBox.Value, FullScan, SortBy;
    var hits := FullScan(root.Value(), 0, x, y);
    BoxViews(root);
    HitsAreViews(root.Value(), root.views, 0, x, y);
    SortByIsStableSort(DeepestFirst, hits);
    forall h | h in SortBy(DeepestFirst, hits) ensures h in hits {
      assert h in multiset(SortBy(DeepestFirst, hits));
    }
  }

  ghost predicate AllFit(views: set<ScrollView>)
    reads views
  {
    forall v :: v in views ==> v.Valid()
  }

  /** The content and viewport heights of some views. */
  ghost function Heights(views: set<ScrollView>): map<ScrollView, (int, int)>
    reads views
  {
    map v | v in views :: (v.contentHeight, v.viewportHeight)
  }

  /** The positions of some views. */
  ghost function Tops(views: set<ScrollView>): (tops: map<ScrollView, int>)
    reads views
    ensures tops.Keys == views
  {
    map v | v in views :: v.scrollTop
  }

  /** The tree is `b` but for the positions of its views, whose heights are given. */
  ghost predicate LooksLike(box: LayoutBox, b: Box, heights: map<ScrollView, (int, int)>)
    requires box.Valid()
    reads box, box.repr
    decreases box.repr
  {
    && b.rect == box.rect && b.clip == box.clip && |b.children| == |box.children|
    && (if box.scrollView == null then b.scroll.None?
        else b.scroll.Some? && b.scroll.value.view == box.scrollView && box.scrollView in heights
             && heights[box.scrollView] == (b.scroll.value.contentHeight, b.scroll.value.viewportHeight))
    && forall i :: 0 <= i < |box.children| ==> LooksLike(box.children[i], b.children[i], heights)
  }

  lemma {:induction false} LooksLikeItself(box: LayoutBox, all: set<ScrollView>)
    requires box.Valid() && box.views <= all
    ensures LooksLike(box, box.Value(), Heights(all))
    decreases box.repr
  {
    forall i | 0 <= i < |box.children| ensures LooksLike(box.children[i], box.Value().children[i], Heights(all)) {
      LooksLikeItself(box.children[i], all);
    }
  }

  lemma {:induction false} LooksRescrolled(box: LayoutBox, b: Box, all: set<ScrollView>)
    requires box.Valid() && box.views <= all && LooksLike(box, b, Heights(all)) && AllFit(all)
    ensures Rescrolled(b, box.Value())
    decreases box.repr
  {
    forall i | 0 <= i < |box.children| ensures Rescrolled(b.children[i], box.Value().children[i]) {
      LooksRescrolled(box.children[i], b.children[i], all);
    }
  }

  function Total(moves: seq<int>): int {
    if moves == [] then 0 else Total(moves[..|moves|-1]) + moves[|moves|-1]
  }

  lemma TotalMore(moves: seq<int>, move: int)
    ensures Total(moves + [move]) == Total(moves) + move
  {
    assert (moves + [move])[..|moves|] == moves;
  }

  predicate Unique(views: seq<ScrollView>, k: nat)
    requires k < |views|
  {
    forall j :: 0 <= j < |views| && j != k ==> views[j] != views[k]
  }

  /** A view at this position cannot go further in the direction of `lines`. */
  predicate AtLimit(top: int, heights: (int, int), lines: int) {
    (lines > 0 ==> top == Max(0, heights.0 - heights.1)) && (lines < 0 ==> top == 0)
  }

  /**
   * How far along its views a wheel event is: the moves so far and what is left of its
   * lines; every view that passed lines on is at its limit and chains its overscroll.
   */
  ghost predicate Routed(visited: seq<ScrollView>, moves: seq<int>, lines: int, remaining: int,
      before: map<ScrollView, int>, tops: map<ScrollView, int>, heights: map<ScrollView, (int, int)>)
  {
    && |moves| == |visited| && (forall v :: v in visited ==> v in before && v in tops && v in heights)
    && Total(moves) + remaining == lines
    && (if lines >= 0 then 0 <= remaining <= lines else lines <= remaining <= 0)
    && (forall k :: 0 <= k < |visited| && Unique(visited, k) ==> moves[k] == tops[visited[k]] - before[visited[k]])
    && (forall v :: v in before && v !in visited ==> v in tops && tops[v] == before[v])
    && (forall k :: 0 <= k < |visited| && (k < |visited| - 1 || remaining != 0) ==>
          AtLimit(tops[visited[k]], heights[visited[k]], lines))
    && (forall k :: 0 <= k < |visited| - 1 ==> visited[k].overscroll.Chain?)
  }

  lemma NothingRouted(lines: int, tops: map<ScrollView, int>, heights: map<ScrollView, (int, int)>)
    ensures Routed([], [], lines, lines, tops, tops, heights)
  {
  }

  /** What one view's turn does to the positions. */
  ghost predicate Turned(view: ScrollView, before: int, remaining: int, tops: map<ScrollView, int>,
      now: map<ScrollView, int>, heights: map<ScrollView, (int, int)>)
  {
    && view in tops && view in heights && now == tops[view := tops[view] + before - remaining]
    && 0 <= now[view] <= Max(0, heights[view].0 - heights[view].1)
    && (if before >= 0 then 0 <= remaining <= before else before <= remaining <= 0)
    && (remaining > 0 ==> now[view] == Max(0, heights[view].0 - heights[view].1))
    && (remaining < 0 ==> now[view] == 0)
  }

  lemma UniqueEarlier(visited: seq<ScrollView>, view: ScrollView, k: nat)
    requires k <= |visited| && Unique(visited + [view], k)
    ensures if k < |visited| then visited[k] != view && Unique(visited, k) else view !in visited
  {
    var now := visited + [view];
    if k < |visited| {
      assert now[|visited|] != now[k];
      forall j | 0 <= j < |visited| && j != k ensures visited[j] != visited[k] { assert now[j] != now[k]; }
    } else {
      forall j | 0 <= j < |visited| ensures visited[j] != view { assert now[j] != now[k]; }
    }
  }

  /** A view that was at its limit stays there when it takes more of the same direction. */
  lemma StaysAtLimit(view: ScrollView, other: ScrollView, lines: int, before: int, remaining: int,
      tops: map<ScrollView, int>, now: map<ScrollView, int>, heights: map<ScrollView, (int, int)>)
    requires Turned(view, before, remaining, tops, now, heights) && other in tops && other in heights
    requires AtLimit(tops[other], heights[other], lines)
    requires if lines >= 0 then 0 <= before <= lines else lines <= before <= 0
    ensures AtLimit(now[other], heights[other], lines)
  {
  }

  /** One more view has taken what it can. */
  lemma RoutedMore(visited: seq<ScrollView>, moves: seq<int>, lines: int, before: int, remaining: int,
      view: ScrollView, start: map<ScrollView, int>, tops: map<ScrollView, int>, now: map<ScrollView, int>,
      heights: map<ScrollView, (int, int)>)
    requires Routed(visited, moves, lines, before, start, tops, heights) && view in start
    requires Turned(view, before, remaining, tops, now, heights) && (before == 0 ==> lines == 0)
    requires visited != [] ==> visited[|visited|-1].overscroll.Chain?
    ensures Routed(visited + [view], moves + [before - remaining], lines, remaining, start, now, heights)
  {
    TotalMore(moves, before - remaining);
    hide Unique, Total, AtLimit;
    var seen, all := visited + [view], moves + [before - remaining];
    forall k | 0 <= k < |seen| && Unique(seen, k) ensures all[k] == now[seen[k]] - start[seen[k]] {
      UniqueEarlier(visited, view, k);
    }
    forall k | 0 <= k < |seen| && (k < |seen| - 1 || remaining != 0)
      ensures AtLimit(now[seen[k]], heights[seen[k]], lines)
    {
      if k < |visited| {
        LimitsEarlier(visited, moves, lines, before, start, tops, heights, k);
        StaysAtLimit(view, visited[k], lines, before, remaining, tops, now, heights);
      } else {
        LimitsNow(view, lines, before, remaining, tops, now, heights);
      }
    }
  }

  lemma LimitsEarlier(visited: seq<ScrollView>, moves: seq<int>, lines: int, before: int,
      start: map<ScrollView, int>, tops: map<ScrollView, int>, heights: map<ScrollView, (int, int)>, k: nat)
    requires Routed(visited, moves, lines, before, start, tops, heights) && (before == 0 ==> lines == 0)
    requires k < |visited|
    ensures AtLimit(tops[visited[k]], heights[visited[k]], lines)
  {
    hide Unique, Total;
  }

  lemma LimitsNow(view: ScrollView, lines: int, before: int, remaining: int, tops: map<ScrollView, int>,
      now: map<ScrollView, int>, heights: map<ScrollView, (int, int)>)
    requires Turned(view, before, remaining, tops, now, heights) && remaining != 0
    requires if lines >= 0 then 0 <= before <= lines else lines <= before <= 0
    ensures AtLimit(now[view], heights[view], lines)
  {
  }

  /** The visited views are the first ones found, all of them unless the lines ran out or a view kept them. */
  ghost predicate Visited(visited: seq<ScrollView>, remaining: int, found: seq<ScrollView>) {
    && visited <= found
    && (visited != found ==> visited != [] && (remaining == 0 || visited[|visited|-1].overscroll.Contain?))
  }

  /** One view's turn. */
  method RouteTo(view: ScrollView, before: int, ghost all: set<ScrollView>) returns (remaining: int)
    requires AllFit(all) && view in all
    modifies view
    ensures AllFit(all) && Heights(all) == old(Heights(all))
    ensures Turned(view, before, remaining, old(Tops(all)), Tops(all), Heights(all))
  {
    remaining := view.ScrollBy(before);
  }

  /**
   * The loop of `routeWheel`: the views at the point take what they can, the deepest
   * first, until no line is left or a view keeps them to itself.
   */
  method RouteToFound(views: seq<ScrollView>, lines: int, ghost all: set<ScrollView>)
    returns (remaining: int, n: nat, ghost moves: seq<int>)
    requires AllFit(all) && forall v :: v in views ==> v in all
    modifies all
    ensures AllFit(all) && Heights(all) == old(Heights(all)) && n <= |views|
    ensures Routed(views[..n], moves, lines, remaining, old(Tops(all)), Tops(all), Heights(all))
    ensures Visited(views[..n], remaining, views)
  {
    hide Routed, AllFit, Heights, Turned;
    remaining, n, moves := lines, 0, [];
    ghost var start := Tops(all);
    NothingRouted(lines, start, Heights(all));
    var done := false;
    while n < |views| && !done
      invariant n <= |views| && AllFit(all) && Heights(all) == old(Heights(all))
      invariant Routed(views[..n], moves, lines, remaining, start, Tops(all), Heights(all))
      invariant if done then 0 < n && (remaining == 0 || views[n-1].overscroll.Contain?)
          else if n == 0 then remaining == lines else remaining != 0 && views[n-1].overscroll.Chain?
      decreases |views| - n
    {
      ghost var before, tops := remaining, Tops(all);
      remaining := RouteTo(views[n], remaining, all);
      RoutedMore(views[..n], moves, lines, before, remaining, views[n], start, tops, Tops(all), Heights(all));
      assert views[..n+1] == views[..n] + [views[n]];
      moves := moves + [before - remaining];
      n := n + 1;
      done := remaining == 0 || views[n-1].overscroll.Contain?;
    }
  }

  /** The frame after a wheel event: as searchable and measured as it was, its views scrolled within their heights. */
  ghost predicate StillAFrame(root: LayoutBox, before: Box, screen: Rect)
    reads root, root.repr, root.views
  {
    && root.Valid() && Rescrolled(before, root.Value())
    && ClipsOk(root.Value(), screen) && ScrollsMeasured(root.Value())
  }

  lemma FrameStays(root: LayoutBox, before: Box, screen: Rect, all: set<ScrollView>)
    requires root.Valid() && root.views <= all && LooksLike(root, before, Heights(all)) && AllFit(all)
    requires ClipsOk(before, screen) && ScrollsMeasured(before)
    ensures StillAFrame(root, before, screen)
  {
    hide LayoutBox.Valid, LayoutBox.Value, LooksLike, ClipsOk, ScrollsMeasured, Rescrolled;
    LooksRescrolled(root, before, all);
    RescrollKeeps(before, root.Value(), screen);
  }

  /**
   * `routeWheel`: the lines go to the views at the point, and what those pass on to the
   * primary view unless it was among them.  `between` holds the positions before that;
   * the frame serves later searches until the next layout.
   */
  method RouteWheel(root: LayoutBox, ghost screen: Rect, x: int, y: int, lines: int, primary: ScrollView)
    returns (ghost visited: seq<ScrollView>, ghost moves: seq<int>, ghost passed: int, ghost left: int,
        ghost between: map<ScrollView, int>)
    requires root.Valid() && ClipsOk(root.Value(), screen) && ScrollsMeasured(root.Value())
    requires AllFit(root.views + {primary})
    modifies root.views, primary
    ensures root.views == old(root.views) && AllFit(root.views + {primary})
    ensures StillAFrame(root, old(root.Value()), screen)
    ensures Visited(visited, passed, ViewsOf(SortBy(DeepestFirst, FullScan(old(root.Value()), 0, x, y))))
    ensures var all := root.views + {primary};
      && Heights(all) == old(Heights(root.views + {primary}))
      && Routed(visited, moves, lines, passed, old(Tops(root.views + {primary})), between, Heights(all))
      && if passed != 0 && primary !in visited then Turned(primary, passed, left, between, Tops(all), Heights(all))
         else left == passed && Tops(all) == between
  {
    hide LayoutBox.Valid, LayoutBox.Value, LooksLike, ClipsOk, ScrollsMeasured, Rescrolled, StillAFrame, Routed, AllFit,
        Heights, Turned, Visit, FullScan, SortBy, Tops, ViewsOf;
    ghost var all, before := root.views + {primary}, root.Value();
    LooksLikeItself(root, all);
    FoundAreViews(root, x, y);
    var views := GetScrollViewsAt(root, screen, x, y);
    var remaining, count;
    remaining, count, moves := RouteToFound(views, lines, all);
    visited, passed, between := views[..count], remaining, Tops(all);
    if remaining != 0 && primary !in views[..count] {
      remaining := RouteTo(primary, remaining, all);
    }
    left := remaining;
    FrameStays(root, before, screen, all);
  }
}
