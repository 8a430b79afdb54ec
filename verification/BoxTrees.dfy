/**
 * Rectangles, layout trees as values, and hit testing
 * (packages/tui/src/layout.ts).  The boxes themselves live in LayoutBoxes.dfy; this
 * module says what their trees look like and what follows from it.
 */
module BoxTrees {
  import opened Base
  import opened ScrollViews

  datatype Rect = Rect(x: int, y: int, width: int, height: int)

  predicate Contains(r: Rect, x: int, y: int) {
    r.x <= x < r.x + r.width && r.y <= y < r.y + r.height
  }

  function Intersect(a: Rect, b: Rect): Rect {
    var x, y := Max(a.x, b.x), Max(a.y, b.y);
    var right, bottom := Min(a.x + a.width, b.x + b.width), Min(a.y + a.height, b.y + b.height);
    Rect(x, y, Max(0, right - x), Max(0, bottom - y))
  }

  /** As point sets, `intersect` is intersection; its sides are never negative. */
  lemma IntersectIsIntersection(a: Rect, b: Rect, x: int, y: int)
    ensures Contains(Intersect(a, b), x, y) <==> Contains(a, x, y) && Contains(b, x, y)
    ensures Intersect(a, b).width >= 0 && Intersect(a, b).height >= 0
  {
  }

  // ------------------------------------------------------------------
  // Trees of boxes
  // ------------------------------------------------------------------

  /** A scroll box's view, with the position and the heights it has. */
  datatype Scroll = Scroll(view: ScrollView, top: int, contentHeight: int, viewportHeight: int)

  function ScrollOf(view: ScrollView): Scroll
    reads view
  {
    Scroll(view, view.scrollTop, view.contentHeight, view.viewportHeight)
  }

  datatype Box = Box(rect: Rect, clip: Rect, children: seq<Box>, scroll: Option<Scroll>)

  function Translate(b: Box, dy: int): Box {
    Box(b.rect.(y := b.rect.y + dy), b.clip,
        seq(|b.children|, i requires 0 <= i < |b.children| => Translate(b.children[i], dy)), b.scroll)
  }

  function Reclip(b: Box, parentClip: Rect): Box {
    var clip := Intersect(parentClip, b.rect);
    Box(b.rect, clip, seq(|b.children|, i requires 0 <= i < |b.children| => Reclip(b.children[i], clip)), b.scroll)
  }

  /** As a point set, `clip` is the parent's clip within `rect`. */
  ghost predicate ClipOk(clip: Rect, parentClip: Rect, rect: Rect) {
    forall x, y {:trigger Contains(clip, x, y)} ::
      Contains(clip, x, y) <==> Contains(parentClip, x, y) && Contains(rect, x, y)
  }

  ghost predicate ClipsOk(b: Box, parentClip: Rect) {
    ClipOk(b.clip, parentClip, b.rect) && forall i :: 0 <= i < |b.children| ==> ClipsOk(b.children[i], b.clip)
  }

  lemma IntersectOk(parentClip: Rect, rect: Rect)
    ensures ClipOk(Intersect(parentClip, rect), parentClip, rect)
  {
    forall x, y ensures Contains(Intersect(parentClip, rect), x, y) <==>
        Contains(parentClip, x, y) && Contains(rect, x, y) {
      IntersectIsIntersection(parentClip, rect, x, y);
    }
  }

  /** Re-clipping establishes the clips of a whole tree, whatever they were. */
  lemma {:induction false} ReclipEstablishesClips(b: Box, parentClip: Rect)
    ensures ClipsOk(Reclip(b, parentClip), parentClip)
  {
    var clip := Intersect(parentClip, b.rect);
    IntersectOk(parentClip, b.rect);
    forall i | 0 <= i < |b.children| ensures ClipsOk(Reclip(b, parentClip).children[i], clip) {
      ReclipEstablishesClips(b.children[i], clip);
    }
  }

  /** A scroll box has one child, at its own x, and `top` above its own y. */
  predicate ScrollPlaced(b: Box) {
    b.scroll.Some? ==>
      && |b.children| == 1
      && b.children[0].rect.x == b.rect.x
      && b.children[0].rect.y == b.rect.y - b.scroll.value.top
  }

  predicate ScrollsPlaced(b: Box) {
    ScrollPlaced(b) && forall i :: 0 <= i < |b.children| ==> ScrollsPlaced(b.children[i])
  }

  /** A scroll box's view knows the heights of the box and of its one child, and is within them. */
  predicate ScrollMeasured(b: Box) {
    b.scroll.Some? ==>
      && |b.children| == 1
      && b.scroll.value.contentHeight == b.children[0].rect.height >= 0
      && b.scroll.value.viewportHeight == b.rect.height
      && 0 <= b.scroll.value.top <= Max(0, b.scroll.value.contentHeight - b.scroll.value.viewportHeight)
  }

  predicate ScrollsMeasured(b: Box) {
    ScrollMeasured(b) && forall i :: 0 <= i < |b.children| ==> ScrollsMeasured(b.children[i])
  }

  lemma {:induction false} TranslateKeepsMeasures(b: Box, dy: int)
    requires ScrollsMeasured(b)
    ensures ScrollsMeasured(Translate(b, dy))
  {
    forall i | 0 <= i < |b.children| ensures ScrollsMeasured(Translate(b, dy).children[i]) {
      TranslateKeepsMeasures(b.children[i], dy);
    }
  }

  lemma {:induction false} ReclipKeepsMeasures(b: Box, parentClip: Rect)
    requires ScrollsMeasured(b)
    ensures ScrollsMeasured(Reclip(b, parentClip))
  {
    var clip := Intersect(parentClip, b.rect);
    forall i | 0 <= i < |b.children| ensures ScrollsMeasured(Reclip(b, parentClip).children[i]) {
      ReclipKeepsMeasures(b.children[i], clip);
    }
  }

  /** The same tree after some of its views have scrolled. */
  predicate Rescrolled(before: Box, after: Box) {
    && after.rect == before.rect && after.clip == before.clip && |after.children| == |before.children|
    && (after.scroll.Some? <==> before.scroll.Some?)
    && (after.scroll.Some? ==>
          && after.scroll.value == before.scroll.value.(top := after.scroll.value.top)
          && 0 <= after.scroll.value.top
              <= Max(0, after.scroll.value.contentHeight - after.scroll.value.viewportHeight))
    && forall i :: 0 <= i < |after.children| ==> Rescrolled(before.children[i], after.children[i])
  }

  /** Scrolling leaves every clip and every measure right until the next layout. */
  lemma {:induction false} RescrollKeeps(before: Box, after: Box, parentClip: Rect)
    requires Rescrolled(before, after) && ClipsOk(before, parentClip) && ScrollsMeasured(before)
    ensures ClipsOk(after, parentClip) && ScrollsMeasured(after)
  {
    forall i | 0 <= i < |after.children|
      ensures ClipsOk(after.children[i], after.clip) && ScrollsMeasured(after.children[i])
    {
      RescrollKeeps(before.children[i], after.children[i], before.clip);
    }
  }

  /** Moving a tree moves views and their children together. */
  lemma {:induction false} TranslateKeepsScrolls(b: Box, dy: int)
    requires ScrollsPlaced(b)
    ensures ScrollsPlaced(Translate(b, dy))
  {
    forall i | 0 <= i < |b.children| ensures ScrollsPlaced(Translate(b, dy).children[i]) {
      TranslateKeepsScrolls(b.children[i], dy);
    }
  }

  lemma {:induction false} ReclipKeepsScrolls(b: Box, parentClip: Rect)
    requires ScrollsPlaced(b)
    ensures ScrollsPlaced(Reclip(b, parentClip))
  {
    var clip := Intersect(parentClip, b.rect);
    forall i | 0 <= i < |b.children| ensures ScrollsPlaced(Reclip(b, parentClip).children[i]) {
      ReclipKeepsScrolls(b.children[i], clip);
    }
  }

  // ------------------------------------------------------------------
  // Clips along a path
  // ------------------------------------------------------------------

  /** The indices of a path name a box of the tree. */
  predicate IsPath(b: Box, path: seq<nat>) {
    path == [] || (path[0] < |b.children| && IsPath(b.children[path[0]], path[1..]))
  }

  function BoxAt(b: Box, path: seq<nat>): Box
    requires IsPath(b, path)
  {
    if path == [] then b else BoxAt(b.children[path[0]], path[1..])
  }

  /** Moving a tree moves every box in it by the same rows and nothing else. */
  lemma {:induction false} TranslateMovesAll(b: Box, dy: int, path: seq<nat>)
    requires IsPath(b, path)
    ensures IsPath(Translate(b, dy), path)
    ensures var before, after := BoxAt(b, path), BoxAt(Translate(b, dy), path);
      && after.rect == Rect(before.rect.x, before.rect.y + dy, before.rect.width, before.rect.height)
      && after.clip == before.clip && after.scroll == before.scroll && |after.children| == |before.children|
  {
    if path != [] { TranslateMovesAll(b.children[path[0]], dy, path[1..]); }
  }

  /** Re-clipping moves no box. */
  lemma {:induction false} ReclipMovesNone(b: Box, parentClip: Rect, path: seq<nat>)
    requires IsPath(b, path)
    ensures IsPath(Reclip(b, parentClip), path)
    ensures var before, after := BoxAt(b, path), BoxAt(Reclip(b, parentClip), path);
      after.rect == before.rect && after.scroll == before.scroll && |after.children| == |before.children|
  {
    if path != [] { ReclipMovesNone(b.children[path[0]], Intersect(parentClip, b.rect), path[1..]); }
  }

  /** The point lies in every rectangle along the path. */
  predicate InAllRects(b: Box, path: seq<nat>, x: int, y: int)
    requires IsPath(b, path)
  {
    Contains(b.rect, x, y) && (path == [] || InAllRects(b.children[path[0]], path[1..], x, y))
  }

  /** Every clip is the screen cut by the rectangles of the box and all its ancestors. */
  lemma {:induction false} ClipIsScreenAndAncestors(b: Box, screen: Rect, path: seq<nat>, x: int, y: int)
    requires ClipsOk(b, screen) && IsPath(b, path)
    ensures Contains(BoxAt(b, path).clip, x, y) <==> Contains(screen, x, y) && InAllRects(b, path, x, y)
  {
    if path != [] {
      ClipIsScreenAndAncestors(b.children[path[0]], b.clip, path[1..], x, y);
    }
  }

  /** Every box of a measured tree is measured. */
  lemma {:induction false} BoxAtMeasured(b: Box, path: seq<nat>)
    requires ScrollsMeasured(b) && IsPath(b, path)
    ensures ScrollMeasured(BoxAt(b, path)) && ScrollsMeasured(BoxAt(b, path))
  {
    if path != [] { BoxAtMeasured(b.children[path[0]], path[1..]); }
  }

  // ------------------------------------------------------------------
  // Hit testing
  // ------------------------------------------------------------------

  datatype Hit = Hit(view: ScrollView, depth: nat)

  /** The pruned search, before sorting. */
  function Visit(b: Box, depth: nat, x: int, y: int): seq<Hit> {
    if !Contains(b.clip, x, y) then []
    else
      (if b.scroll.Some? && Contains(b.rect, x, y) then [Hit(b.scroll.value.view, depth)] else []) +
      VisitAll(b.children, depth + 1, x, y)
  }

  function VisitAll(boxes: seq<Box>, depth: nat, x: int, y: int): seq<Hit> {
    if boxes == [] then [] else VisitAll(boxes[..|boxes|-1], depth, x, y) + Visit(boxes[|boxes|-1], depth, x, y)
  }

  /** Reference: scan the whole tree for scroll boxes with the point in their clip. */
  function FullScan(b: Box, depth: nat, x: int, y: int): seq<Hit> {
    (if b.scroll.Some? && Contains(b.clip, x, y) then [Hit(b.scroll.value.view, depth)] else []) +
    FullScanAll(b.children, depth + 1, x, y)
  }

  function FullScanAll(boxes: seq<Box>, depth: nat, x: int, y: int): seq<Hit> {
    if boxes == [] then [] else FullScanAll(boxes[..|boxes|-1], depth, x, y) + FullScan(boxes[|boxes|-1], depth, x, y)
  }

  lemma {:induction false} OutsideIsEmpty(b: Box, parentClip: Rect, depth: nat, x: int, y: int)
    requires ClipsOk(b, parentClip) && !Contains(b.clip, x, y)
    ensures FullScan(b, depth, x, y) == []
  {
    OutsideAllEmpty(b.children, b.clip, depth + 1, x, y);
  }

  lemma {:induction false} OutsideAllEmpty(boxes: seq<Box>, parentClip: Rect, depth: nat, x: int, y: int)
    requires forall i :: 0 <= i < |boxes| ==> ClipsOk(boxes[i], parentClip)
    requires !Contains(parentClip, x, y)
    ensures FullScanAll(boxes, depth, x, y) == []
  {
    if boxes != [] {
      var last := |boxes| - 1;
      assert ClipsOk(boxes[last], parentClip);
      OutsideIsEmpty(boxes[last], parentClip, depth, x, y);
      OutsideAllEmpty(boxes[..last], parentClip, depth, x, y);
    }
  }

  /** Pruning by the clip loses nothing: both searches meet the same boxes in the same order. */
  lemma {:induction false} PrunedSearchIsComplete(b: Box, parentClip: Rect, depth: nat, x: int, y: int)
    requires ClipsOk(b, parentClip)
    ensures Visit(b, depth, x, y) == FullScan(b, depth, x, y)
  {
    if Contains(b.clip, x, y) {
      PrunedAllComplete(b.children, b.clip, depth + 1, x, y);
    } else {
      OutsideIsEmpty(b, parentClip, depth, x, y);
    }
  }

  lemma {:induction false} PrunedAllComplete(boxes: seq<Box>, parentClip: Rect, depth: nat, x: int, y: int)
    requires forall i :: 0 <= i < |boxes| ==> ClipsOk(boxes[i], parentClip)
    ensures VisitAll(boxes, depth, x, y) == FullScanAll(boxes, depth, x, y)
  {
    if boxes != [] {
      PrunedSearchIsComplete(boxes[|boxes|-1], parentClip, depth, x, y);
      PrunedAllComplete(boxes[..|boxes|-1], parentClip, depth, x, y);
    }
  }

  /** The sort key of the comparator that puts deeper hits first. */
  function DeepestFirst(h: Hit): int {
    0 - h.depth
  }

  /** The box at this path is a scroll box with the point in its clip, and `h` says so. */
  predicate IsHitAt(b: Box, path: seq<nat>, depth: nat, x: int, y: int, h: Hit)
    requires IsPath(b, path)
  {
    var box := BoxAt(b, path);
    box.scroll.Some? && Contains(box.clip, x, y) && h.view == box.scroll.value.view && h.depth == depth + |path|
  }

  /** Every hit is a scroll box of the tree, as deep as its path is long. */
  lemma {:induction false} HitHasPath(b: Box, depth: nat, x: int, y: int, h: Hit) returns (path: seq<nat>)
    requires h in FullScan(b, depth, x, y)
    ensures IsPath(b, path) && IsHitAt(b, path, depth, x, y, h)
    decreases b, 0
  {
    if b.scroll.Some? && Contains(b.clip, x, y) && h == Hit(b.scroll.value.view, depth) {
      path := [];
    } else {
      var i, rest := HitInAll(b.children, depth + 1, x, y, h);
      path := [i] + rest;
      assert path[1..] == rest;
    }
  }

  lemma {:induction false} HitInAll(boxes: seq<Box>, depth: nat, x: int, y: int, h: Hit)
    returns (i: nat, path: seq<nat>)
    requires h in FullScanAll(boxes, depth, x, y)
    ensures i < |boxes| && IsPath(boxes[i], path) && IsHitAt(boxes[i], path, depth, x, y, h)
    decreases boxes, 1
  {
    var last := |boxes| - 1;
    if h in FullScan(boxes[last], depth, x, y) {
      i := last;
      path := HitHasPath(boxes[last], depth, x, y, h);
    } else {
      i, path := HitInAll(boxes[..last], depth, x, y, h);
    }
  }

  /** Every scroll box of the tree with the point in its clip is hit. */
  lemma {:induction false} PathHasHit(b: Box, path: seq<nat>, depth: nat, x: int, y: int, h: Hit)
    requires IsPath(b, path) && IsHitAt(b, path, depth, x, y, h)
    ensures h in FullScan(b, depth, x, y)
    decreases b
  {
    if path != [] {
      PathHasHit(b.children[path[0]], path[1..], depth + 1, x, y, h);
      InOneInAll(b.children, path[0], depth + 1, x, y, h);
    }
  }

  lemma {:induction false} InOneInAll(boxes: seq<Box>, i: nat, depth: nat, x: int, y: int, h: Hit)
    requires i < |boxes| && h in FullScan(boxes[i], depth, x, y)
    ensures h in FullScanAll(boxes, depth, x, y)
  {
    if i < |boxes| - 1 { InOneInAll(boxes[..|boxes|-1], i, depth, x, y, h); }
  }
}
