/** The recursive layout of components into boxes (packages/tui/src/layout.ts). */
module Layout {
  import opened Base
  import opened ScrollViews
  import opened BoxTrees
  import opened StackSizes
  import opened LayoutBoxes

  datatype Align = Stretch | Start | Center | End

  /** A stack entry, with what rendering its component measures at a width. */
  datatype Entry = Entry(component: Component, visible: bool, size: SizeEntry, renderHeight: int -> nat,
      renderWidth: int -> nat)

  /** A component's layout node; a leaf renders a number of lines at a width. */
  datatype Component =
    | Leaf(lines: int -> nat)
    | Scroll(view: ScrollView, child: Component)
    | VStack(entries: seq<Entry>, gap: nat)
    | HStack(entries: seq<Entry>, gap: nat, align: Align)

  /** The scroll views of a component tree. */
  ghost function Views(c: Component): set<ScrollView> {
    match c
    case Leaf(_) => {}
    case Scroll(view, child) => {view} + Views(child)
    case VStack(entries, _) => ViewsAll(entries)
    case HStack(entries, _, _) => ViewsAll(entries)
  }

  ghost function EntryViews(e: Entry): set<ScrollView> {
    Views(e.component)
  }

  ghost function ViewsAll(entries: seq<Entry>): set<ScrollView> {
    if entries == [] then {} else EntryViews(entries[0]) + ViewsAll(entries[1..])
  }

  /** No scroll view occurs twice. */
  ghost predicate DistinctViews(c: Component) {
    match c
    case Leaf(_) => true
    case Scroll(view, child) => view !in Views(child) && DistinctViews(child)
    case VStack(entries, _) => DistinctAll(entries)
    case HStack(entries, _, _) => DistinctAll(entries)
  }

  ghost predicate EntryDistinct(e: Entry) {
    DistinctViews(e.component)
  }

  ghost predicate DistinctAll(entries: seq<Entry>) {
    entries == [] ||
    (EntryDistinct(entries[0]) && EntryViews(entries[0]) !! ViewsAll(entries[1..]) && DistinctAll(entries[1..]))
  }

  function VisibleEntries(entries: seq<Entry>): (r: seq<Entry>)
    ensures forall e :: e in r ==> e in entries && e.visible
  {
    if entries == [] then []
    else (if entries[0].visible then [entries[0]] else []) + VisibleEntries(entries[1..])
  }

  lemma VisibleStep(e: Entry, rest: seq<Entry>)
    ensures VisibleEntries([e] + rest) == (if e.visible then [e] else []) + VisibleEntries(rest)
    ensures VisibleEntries([]) == []
  {
    assert ([e] + rest)[1..] == rest;
  }

  /** Exactly the visible entries, in their order. */
  lemma {:induction false} VisibleOfParts(a: seq<Entry>, b: seq<Entry>, e: Entry)
    ensures VisibleEntries(a + b) == VisibleEntries(a) + VisibleEntries(b)
    ensures VisibleEntries([e]) == if e.visible then [e] else []
  {
    hide VisibleEntries;
    VisibleStep(e, []);
    assert [e] + [] == [e];
    if a == [] {
      assert a + b == b;
    } else {
      var rest := a[1..];
      VisibleOfParts(rest, b, e);
      VisibleStep(a[0], rest);
      VisibleStep(a[0], rest + b);
      assert a == [a[0]] + rest && a + b == [a[0]] + (rest + b);
      var first := if a[0].visible then [a[0]] else [];
      assert first + (VisibleEntries(rest) + VisibleEntries(b)) == first + VisibleEntries(rest) + VisibleEntries(b);
    }
  }

  lemma {:induction false} VisibleKeepsViews(entries: seq<Entry>)
    ensures ViewsAll(VisibleEntries(entries)) <= ViewsAll(entries)
    ensures DistinctAll(entries) ==> DistinctAll(VisibleEntries(entries))
  {
    if entries != [] {
      VisibleKeepsViews(entries[1..]);
      var rest := VisibleEntries(entries[1..]);
      if entries[0].visible {
        assert VisibleEntries(entries)[1..] == rest;
      } else {
        assert VisibleEntries(entries) == rest;
      }
    }
  }

  ghost predicate AllValid(views: set<ScrollView>)
    reads views
  {
    forall v :: v in views ==> v.Valid()
  }

  /** What every laid-out tree satisfies. */
  ghost predicate LaidOut(b: Box, clip: Rect) {
    ClipsOk(b, clip) && ScrollsPlaced(b) && ScrollsMeasured(b)
  }

  /** Children below each other, as wide as the stack, the gap apart. */
  predicate StackedDown(children: seq<Box>, rect: Rect, gap: int) {
    && (forall k :: 0 <= k < |children| ==> children[k].rect.x == rect.x && children[k].rect.width == rect.width)
    && (children != [] ==> children[0].rect.y == rect.y)
    && (forall k :: 0 < k < |children| ==>
          children[k].rect.y == children[k-1].rect.y + children[k-1].rect.height + gap)
  }

  /** Where an alignment puts a child among the rows of its stack. */
  predicate AlignedIn(child: Rect, rect: Rect, align: Align) {
    var above, below := child.y - rect.y, rect.y + rect.height - child.y - child.height;
    && above >= 0 && below >= 0
    && match align
      case Stretch => above == below == 0
      case Start => above == 0
      case End => below == 0
      case Center => above <= below <= above + 1
  }

  /** Children beside each other, aligned within the stack's rows, the gap apart. */
  predicate StackedAcross(children: seq<Box>, rect: Rect, gap: int, align: Align) {
    && (forall k :: 0 <= k < |children| ==> AlignedIn(children[k].rect, rect, align))
    && (children != [] ==> children[0].rect.x == rect.x)
    && (forall k :: 0 < k < |children| ==>
          children[k].rect.x == children[k-1].rect.x + children[k-1].rect.width + gap)
  }

  lemma TranslatedRects(b: Box, dy: int)
    ensures |Translate(b, dy).children| == |b.children|
    ensures forall k :: 0 <= k < |b.children| ==>
        Translate(b, dy).children[k].rect == b.children[k].rect.(y := b.children[k].rect.y + dy)
  {
  }

  lemma ReclippedRects(b: Box, parentClip: Rect)
    ensures |Reclip(b, parentClip).children| == |b.children|
    ensures forall k :: 0 <= k < |b.children| ==>
        Reclip(b, parentClip).children[k].rect == b.children[k].rect.(y := b.children[k].rect.y + 0)
  {
  }

  lemma MovedStacks(children: seq<Box>, moved: seq<Box>, rect: Rect, dy: int, gap: int, align: Align)
    requires |moved| == |children|
    requires forall k :: 0 <= k < |children| ==> moved[k].rect == children[k].rect.(y := children[k].rect.y + dy)
    ensures StackedDown(children, rect, gap) ==> StackedDown(moved, rect.(y := rect.y + dy), gap)
    ensures StackedAcross(children, rect, gap, align) ==> StackedAcross(moved, rect.(y := rect.y + dy), gap, align)
  {
  }

  /**
   * The tree of boxes has the shape of the component tree, and every stack in it its
   * children in a column or a row; a box without columns stands for its entry.
   */
  ghost predicate Mirrors(b: Box, c: Component)
    decreases b, 0
  {
    match c
    case Leaf(_) => b.children == [] && b.scroll.None?
    case Scroll(view, child) => b.scroll.Some? && b.scroll.value.view == view && |b.children| == 1
        && Mirrors(b.children[0], child)
    case VStack(entries, gap) =>
      b.scroll.None? && MirrorsAll(b.children, VisibleEntries(entries)) && StackedDown(b.children, b.rect, gap)
    case HStack(entries, gap, align) =>
      && b.scroll.None? && MirrorsAll(b.children, VisibleEntries(entries))
      && StackedAcross(b.children, b.rect, gap, align)
  }

  ghost predicate MirrorsEntry(b: Box, e: Entry)
    decreases b, 1
  {
    (b.rect.width == 0 && b.children == [] && b.scroll.None?) || Mirrors(b, e.component)
  }

  ghost predicate MirrorsAll(children: seq<Box>, entries: seq<Entry>)
    decreases children, 0
  {
    |children| == |entries| && forall k :: 0 <= k < |children| ==> MirrorsEntry(children[k], entries[k])
  }

  lemma {:induction false} TranslateKeepsShape(b: Box, c: Component, dy: int)
    requires Mirrors(b, c)
    ensures Mirrors(Translate(b, dy), c)
    decreases b
  {
    if c.Scroll? {
      TranslateKeepsShape(b.children[0], c.child, dy);
    } else if c.VStack? || c.HStack? {
      var entries := VisibleEntries(c.entries);
      forall k | 0 <= k < |entries| ensures MirrorsEntry(Translate(b, dy).children[k], entries[k]) {
        assert MirrorsEntry(b.children[k], entries[k]);
        if Mirrors(b.children[k],
            entries[k].component) { TranslateKeepsShape(b.children[k], entries[k].component, dy); }
      }
      TranslatedRects(b, dy);
      MovedStacks(b.children, Translate(b, dy).children, b.rect, dy, c.gap, if c.HStack? then c.align else Stretch);
    }
  }

  lemma {:induction false} ReclipKeepsShape(b: Box, c: Component, parentClip: Rect)
    requires Mirrors(b, c)
    ensures Mirrors(Reclip(b, parentClip), c)
    decreases b
  {
    var clip := Intersect(parentClip, b.rect);
    if c.Scroll? {
      ReclipKeepsShape(b.children[0], c.child, clip);
    } else if c.VStack? || c.HStack? {
      var entries := VisibleEntries(c.entries);
      forall k | 0 <= k < |entries| ensures MirrorsEntry(Reclip(b, parentClip).children[k], entries[k]) {
        assert MirrorsEntry(b.children[k], entries[k]);
        if Mirrors(b.children[k], entries[k].component) { ReclipKeepsShape(b.children[k], entries[k].component, clip); }
      }
      ReclippedRects(b, parentClip);
      MovedStacks(b.children, Reclip(b, parentClip).children, b.rect, 0, c.gap, if c.HStack? then c.align else Stretch);
    }
  }

  lemma MirrorsMore(children: seq<Box>, entries: seq<Entry>, child: Box)
    requires |children| < |entries| && MirrorsAll(children, entries[..|children|])
        && MirrorsEntry(child, entries[|children|])
    ensures MirrorsAll(children + [child], entries[..|children|+1])
  {
    hide MirrorsEntry;
  }

  /** The rectangle that was asked for; an open height is the component's own. */
  predicate Placed(b: Box, x: int, y: int, width: int, height: Option<int>) {
    && b.rect.x == x && b.rect.y == y && b.rect.width == Max(1, width)
    && b.rect.height >= 0 && (height.Some? ==> b.rect.height == Max(0, height.value))
  }

  /** Where the `k`th of a stack's children starts, from the stack's own start. */
  function Offset(sizes: seq<int>, gap: nat, k: nat): int
    requires k <= |sizes|
  {
    Sum(sizes[..k]) + k * gap
  }

  lemma OffsetStep(sizes: seq<int>, gap: nat, k: nat)
    requires k < |sizes|
    ensures Offset(sizes, gap, k + 1) == Offset(sizes, gap, k) + sizes[k] + gap
    ensures Offset(sizes, gap, 0) == 0
  {
    assert sizes[..k+1][..k] == sizes[..k];
  }

  /** A column of children, each of its size, one gap apart. */
  predicate Column(children: seq<Box>, x: int, y: int, width: int, sizes: seq<int>, gap: nat) {
    |children| <= |sizes| &&
    forall k :: 0 <= k < |children| ==> children[k].rect == Rect(x, y + Offset(sizes, gap, k), width, sizes[k])
  }

  /** A row of children, each of its width, one gap apart. */
  predicate Row(children: seq<Box>, x: int, widths: seq<int>, gap: nat) {
    |children| <= |widths| &&
    forall k :: 0 <= k < |children| ==>
        children[k].rect.x == x + Offset(widths, gap, k) && children[k].rect.width == widths[k]
  }

  /** What each alignment promises about a child of a row, given its natural height. */
  predicate Aligned(child: Rect, rect: Rect, align: Align, natural: int) {
    var above, below := child.y - rect.y, rect.y + rect.height - child.y - child.height;
    && child.height == (if align.Stretch? then rect.height else Min(rect.height, natural))
    && above >= 0 && below >= 0
    && match align
      case Stretch => above == below == 0
      case Start => above == 0
      case End => below == 0
      case Center => above <= below <= above + 1
  }

  predicate AllAligned(children: seq<Box>, rect: Rect, align: Align, naturals: seq<int>) {
    |children| <= |naturals| && forall k :: 0 <= k < |children| ==> Aligned(children[k].rect, rect, align, naturals[k])
  }

  lemma ColumnMore(before: seq<Box>, after: seq<Box>, x: int, y: int, width: int, sizes: seq<int>, gap: nat)
    requires Column(before, x, y, width, sizes, gap) && |before| < |sizes|
    requires |after| == |before| + 1 && after[..|before|] == before
    requires after[|before|].rect == Rect(x, y + Offset(sizes, gap, |before|), width, sizes[|before|])
    ensures Column(after, x, y, width, sizes, gap)
  {
    hide Offset;
    assert forall k :: 0 <= k < |before| ==> after[k] == before[k];
  }

  lemma RowMore(before: seq<Box>, after: seq<Box>, x: int, widths: seq<int>, gap: nat)
    requires Row(before, x, widths, gap) && |before| < |widths|
    requires |after| == |before| + 1 && after[..|before|] == before
    requires after[|before|].rect.x == x + Offset(widths, gap, |before|)
        && after[|before|].rect.width == widths[|before|]
    ensures Row(after, x, widths, gap)
  {
    hide Offset;
    assert forall k :: 0 <= k < |before| ==> after[k] == before[k];
  }

  lemma AllAlignedMore(before: seq<Box>, after: seq<Box>, rect: Rect, align: Align, naturals: seq<int>)
    requires AllAligned(before, rect, align, naturals) && |before| < |naturals|
    requires |after| == |before| + 1 && after[..|before|] == before
    requires Aligned(after[|before|].rect, rect, align, naturals[|before|])
    ensures AllAligned(after, rect, align, naturals)
  {
    hide Aligned;
    assert forall k :: 0 <= k < |before| ==> after[k] == before[k];
  }

  lemma NothingStacked(x: int, y: int, width: int, sizes: seq<int>, gap: nat, rect: Rect, align: Align,
      naturals: seq<int>)
    ensures Column([], x, y, width, sizes, gap) && Row([], x, sizes, gap) && AllAligned([], rect, align, naturals)
    ensures Offset(sizes, gap, 0) == 0
  {
  }

  /** Neighbours in a column are exactly the gap apart, so none overlap. */
  lemma ColumnNeighbours(children: seq<Box>, x: int, y: int, width: int, sizes: seq<int>, gap: nat, k: nat)
    requires Column(children, x, y, width, sizes, gap) && k + 1 < |children|
    ensures children[k+1].rect.y == children[k].rect.y + children[k].rect.height + gap
  {
    OffsetStep(sizes, gap, k);
    hide Offset;
  }

  lemma RowNeighbours(children: seq<Box>, x: int, widths: seq<int>, gap: nat, k: nat)
    requires Row(children, x, widths, gap) && k + 1 < |children|
    ensures children[k+1].rect.x == children[k].rect.x + children[k].rect.width + gap
  {
    OffsetStep(widths, gap, k);
    hide Offset;
  }

  lemma ColumnStacked(children: seq<Box>, rect: Rect, sizes: seq<int>, gap: nat)
    requires Column(children, rect.x, rect.y, rect.width, sizes, gap)
    ensures StackedDown(children, rect, gap)
  {
    NothingStacked(rect.x, rect.y, rect.width, sizes, gap, rect, Stretch, []);
    forall k | 0 < k < |children|
      ensures children[k].rect.y == children[k-1].rect.y + children[k-1].rect.height + gap
    {
      ColumnNeighbours(children, rect.x, rect.y, rect.width, sizes, gap, k - 1);
    }
    hide Offset;
  }

  lemma RowStacked(children: seq<Box>, rect: Rect, widths: seq<int>, gap: nat, align: Align, naturals: seq<int>)
    requires Row(children, rect.x, widths, gap) && AllAligned(children, rect, align, naturals)
    ensures StackedAcross(children, rect, gap, align)
  {
    NothingStacked(rect.x, rect.y, rect.width, widths, gap, rect, align, naturals);
    forall k | 0 < k < |children|
      ensures children[k].rect.x == children[k-1].rect.x + children[k-1].rect.width + gap
    {
      RowNeighbours(children, rect.x, widths, gap, k - 1);
    }
    hide Offset;
  }

  // ------------------------------------------------------------------
  // Value-level steps
  // ------------------------------------------------------------------

  lemma EmptyBoxLaidOut(b: Box, clip: Rect)
    requires b.clip == Intersect(clip, b.rect) && b.children == [] && b.scroll.None?
    ensures LaidOut(b, clip)
  {
    IntersectOk(clip, b.rect);
  }

  lemma AddChildLaidOut(b: Box, clip: Rect, child: Box)
    requires LaidOut(b, clip) && LaidOut(child, b.clip) && b.scroll.None?
    ensures LaidOut(b.(children := b.children + [child]), clip)
  {
    var b' := b.(children := b.children + [child]);
    forall i | 0 <= i < |b'.children|
      ensures ClipsOk(b'.children[i], b'.clip) && ScrollsPlaced(b'.children[i]) && ScrollsMeasured(b'.children[i])
    {
      if i < |b.children| { assert b'.children[i] == b.children[i]; }
    }
  }

  /** A child without cells is empty as a point set, and so is its clip. */
  lemma EmptyChildLaidOut(child: Box, clip: Rect)
    requires child.rect.width == 0 && child.clip == Rect(child.rect.x, child.rect.y, 0, 0)
    requires child.children == [] && child.scroll.None?
    ensures LaidOut(child, clip)
  {
  }

  /** The scroll case: move the child by the change of position, then re-clip it. */
  lemma ScrollLaidOut(b: Box, clip: Rect, child0: Box, anyClip: Rect, x: int, y: int, width: int, oldTop: int)
    requires b.scroll.Some? && b.clip == Intersect(clip, b.rect) && b.rect.x == x && b.rect.y == y
    requires LaidOut(child0, anyClip) && Placed(child0, x, y - oldTop, width, None)
    requires b.children == [Reclip(Translate(child0, oldTop - b.scroll.value.top), b.clip)]
    requires b.scroll.value.contentHeight == child0.rect.height && b.scroll.value.viewportHeight == b.rect.height
    requires 0 <= b.scroll.value.top <= Max(0, b.scroll.value.contentHeight - b.scroll.value.viewportHeight)
    ensures LaidOut(b, clip)
  {
    var moved := Translate(child0, oldTop - b.scroll.value.top);
    IntersectOk(clip, b.rect);
    TranslateKeepsScrolls(child0, oldTop - b.scroll.value.top);
    ReclipKeepsScrolls(moved, b.clip);
    TranslateKeepsMeasures(child0, oldTop - b.scroll.value.top);
    ReclipKeepsMeasures(moved, b.clip);
    ReclipEstablishesClips(moved, b.clip);
    assert b.children[0].rect == moved.rect;
  }

  // ------------------------------------------------------------------
  // The layout
  // ------------------------------------------------------------------

  /**
   * Lays a component out at a place, within a clip.  Whatever the component and however
   * deeply scroll views nest, every clip in the resulting tree is, as a point set, its
   * parent's clip within its own rectangle, and every scroll child sits at its view's y
   * minus the view's current scrollTop.
   */
  method LayoutComponent(c: Component, x: int, y: int, width: int, height: Option<int>, clip: Rect,
      ghost views: set<ScrollView>)
    returns (box: LayoutBox)
    requires views == Views(c) && DistinctViews(c) && AllValid(views)
    modifies views
    ensures AllValid(views) && box.Valid() && fresh(box.repr) && box.views <= views
    ensures LaidOut(box.Value(), clip) && Placed(box.Value(), x, y, width, height)
    ensures Mirrors(box.Value(), c)
    ensures c.Leaf? && height.None? ==> box.rect.height == c.lines(Max(1, width))
    decreases c, 2
  {
    hide LayoutBox.Valid, LayoutBox.Value, LaidOut;
    match c {
      case Leaf(lines) =>
        var allocatedHeight := if height.None? then lines(Max(1, width)) else Max(0, height.value);
        var rect := Rect(x, y, Max(1, width), allocatedHeight);
        box := new LayoutBox(rect, Intersect(clip, rect), null);
        EmptyBoxLaidOut(box.Value(), clip);
      case Scroll(view, child) =>
        box := LayoutScroll(c, view, child, x, y, width, height, clip, views);
      case VStack(entries, gap) =>
        VisibleKeepsViews(entries);
        var sizes;
        box, sizes := LayoutVStack(c, VisibleEntries(entries), gap, x, y, width, height, clip,
            ViewsAll(VisibleEntries(entries)));
      case HStack(entries, gap, align) =>
        VisibleKeepsViews(entries);
        var widths;
        box, widths := LayoutHStack(c, VisibleEntries(entries), gap, align, x, y, width, height, clip,
            ViewsAll(VisibleEntries(entries)));
    }
  }

  lemma Within(view: ScrollView)
    requires view.Valid()
    ensures 0 <= view.scrollTop <= view.MaxScrollTop()
  {
  }

  /** Lays a view's content out at the old position, updates the view, and moves the content. */
  method LayoutContent(ghost c: Component, view: ScrollView, child: Component, x: int, y: int, safeWidth: int,
      height: Option<int>, clip: Rect, ghost views: set<ScrollView>)
    returns (childBox: LayoutBox, viewportHeight: int, ghost child0: Box, ghost oldTop: int)
    requires c == Component.Scroll(view, child) && views == Views(c) && DistinctViews(c) && AllValid(views)
    modifies views
    ensures AllValid(views) && childBox.Valid() && fresh(childBox.repr) && childBox.views <= views
    ensures LaidOut(child0, clip) && Placed(child0, x, y - oldTop, view.ContentWidth(safeWidth), None)
    ensures Mirrors(child0, child) && childBox.Value() == Translate(child0, oldTop - view.scrollTop)
    ensures viewportHeight == (if height.None? then child0.rect.height else Max(0, height.value))
    ensures view.contentHeight == child0.rect.height && view.viewportHeight == viewportHeight
    ensures 0 <= view.scrollTop <= view.MaxScrollTop()
    decreases c, 0
  {
    hide LayoutBox.Valid, LayoutBox.Value, LaidOut, Translate, ScrollView.Valid;
    var previousScrollTop := view.scrollTop;
    childBox := LayoutComponent(child, x, y - previousScrollTop, view.ContentWidth(safeWidth), None, clip,
        Views(child));
    child0, oldTop := childBox.Value(), previousScrollTop;
    var contentHeight := childBox.rect.height;
    viewportHeight := if height.None? then contentHeight else Max(0, height.value);
    view.UpdateLayout(contentHeight, viewportHeight);
    Within(view);
    childBox.Translate(previousScrollTop - view.scrollTop);
  }

  /** A scroll node: its content, moved, within the view's own box, and re-clipped. */
  method LayoutScroll(ghost c: Component, view: ScrollView, child: Component, x: int, y: int, width: int,
      height: Option<int>, clip: Rect, ghost views: set<ScrollView>)
    returns (box: LayoutBox)
    requires c == Component.Scroll(view, child) && views == Views(c) && DistinctViews(c) && AllValid(views)
    modifies views
    ensures AllValid(views) && box.Valid() && fresh(box.repr) && box.views <= views
    ensures LaidOut(box.Value(), clip) && Placed(box.Value(), x, y, width, height)
    ensures Mirrors(box.Value(), c)
    ensures var b := box.Value();
      && b.scroll == Some(ScrollOf(view)) && |b.children| == 1
      && view.contentHeight == b.children[0].rect.height && view.viewportHeight == b.rect.height
      && (height.None? ==> b.rect.height == b.children[0].rect.height)
      && b.children[0].rect.width ==
         Max(1, if view.scrollbar.Always? && width > 1 then width - 1 else width)
    decreases c, 1
  {
    hide LayoutBox.Valid, LayoutBox.Value, LaidOut, Translate, Reclip, ScrollView.Valid, AllValid, DistinctViews;
    var childBox, viewportHeight;
    ghost var child0, oldTop;
    childBox, viewportHeight, child0, oldTop := LayoutContent(c, view, child, x, y, Max(1, width), height, clip, views);
    var rect := Rect(x, y, Max(1, width), viewportHeight);
    var childClip := Intersect(clip, rect);
    box := new LayoutBox(rect, childClip, view);
    childBox.UpdateClips(childClip);
    box.AddChild(childBox);
    MovedRect(child0, oldTop - view.scrollTop, childClip);
    ScrollShape(box.Value(), child0, c, oldTop - view.scrollTop);
    ScrollLaidOut(box.Value(), clip, child0, clip, x, y, view.ContentWidth(Max(1, width)), oldTop);
  }

  lemma ScrollShape(b: Box, child0: Box, c: Component, dy: int)
    requires c.Scroll? && Mirrors(child0, c.child) && b.scroll.Some? && b.scroll.value.view == c.view
    requires b.children == [Reclip(Translate(child0, dy), b.clip)]
    ensures Mirrors(b, c)
  {
    TranslateKeepsShape(child0, c.child, dy);
    ReclipKeepsShape(Translate(child0, dy), c.child, b.clip);
  }

  lemma MovedRect(b: Box, dy: int, clip: Rect)
    ensures Reclip(Translate(b, dy), clip).rect == b.rect.(y := b.rect.y + dy)
  {
  }

  lemma TailViews(entries: seq<Entry>, index: nat)
    requires index < |entries| && DistinctAll(entries[index..])
    ensures Views(entries[index].component) !! ViewsAll(entries[index+1..])
    ensures ViewsAll(entries[index..]) == Views(entries[index].component) + ViewsAll(entries[index+1..])
    ensures DistinctViews(entries[index].component) && DistinctAll(entries[index+1..])
  {
    assert entries[index..][1..] == entries[index+1..];
  }

  lemma {:induction false} TailWithin(entries: seq<Entry>, index: nat)
    requires index <= |entries|
    ensures ViewsAll(entries[index..]) <= ViewsAll(entries)
  {
    if index == 0 {
      assert entries[0..] == entries;
    } else {
      TailWithin(entries[1..], index - 1);
      assert entries[1..][index-1..] == entries[index..];
    }
  }

  /** The state of a stack's loop: a well laid-out box with the first entries' children. */
  ghost predicate Filling(box: LayoutBox, entries: seq<Entry>, index: nat, rect: Rect, clip: Rect,
      views: set<ScrollView>)
    reads box, box.repr, box.views, views
    requires index <= |entries|
    ensures Filling(box, entries, index, rect, clip, views) ==> box.Valid() && |box.Value().children| == index
  {
    && box.Valid() && box.scrollView == null && box.rect == rect && box.clip == Intersect(clip, rect)
    && views == ViewsAll(entries) && box.views <= views && box.views !! ViewsAll(entries[index..])
    && DistinctAll(entries[index..]) && AllValid(views)
    && LaidOut(box.Value(), clip) && |box.Value().children| == index
    && MirrorsAll(box.Value().children, entries[..index])
  }

  /** Lays out the next entry of a stack and appends it. */
  method LayoutNext(ghost c: Component, box: LayoutBox, entries: seq<Entry>, index: nat, x: int, y: int, width: int,
      height: int, ghost rect: Rect, ghost clip: Rect, ghost views: set<ScrollView>)
    requires index < |entries| && entries[index].component < c && Filling(box, entries, index, rect, clip, views)
    modifies box, views
    ensures Filling(box, entries, index + 1, rect, clip, views) && fresh(box.repr - old(box.repr))
    ensures box.Value().children[..index] == old(box.Value()).children
    ensures Placed(box.Value().children[index], x, y, width, Some(height))
    decreases c, 0, 0
  {
    hide LayoutBox.Valid, LayoutBox.Value, LaidOut, DistinctAll, DistinctViews, ViewsAll, Views, EntryViews;
    TailViews(entries, index);
    TailWithin(entries, index);
    TailWithin(entries, index + 1);
    ghost var before := box.Value();
    var child := LayoutComponent(entries[index].component, x, y, width, Some(height), box.clip,
        Views(entries[index].component));
    AddChildLaidOut(before, clip, child.Value());
    MirrorsMore(before.children, entries, child.Value());
    box.AddChild(child);
  }

  /** An entry without columns gets an empty box and is not laid out. */
  method AddEmpty(box: LayoutBox, entries: seq<Entry>, index: nat, childRect: Rect, ghost rect: Rect, ghost clip: Rect,
      ghost views: set<ScrollView>)
    requires index < |entries| && Filling(box, entries, index, rect, clip, views) && childRect.width == 0
    modifies box
    ensures Filling(box, entries, index + 1, rect, clip, views) && fresh(box.repr - old(box.repr))
    ensures box.Value().children[..index] == old(box.Value()).children
    ensures box.Value().children[index].rect == childRect
  {
    hide LayoutBox.Valid, LayoutBox.Value, LaidOut, DistinctAll, DistinctViews, ViewsAll, Views, EntryViews;
    TailViews(entries, index);
    ghost var before := box.Value();
    var child := new LayoutBox(childRect, Rect(childRect.x, childRect.y, 0, 0), null);
    EmptyChildLaidOut(child.Value(), before.clip);
    AddChildLaidOut(before, clip, child.Value());
    MirrorsMore(before.children, entries, child.Value());
    box.AddChild(child);
  }

  /** The box of a stack, before its children. */
  method EmptyStack(entries: seq<Entry>, rect: Rect, clip: Rect, ghost views: set<ScrollView>) returns (box: LayoutBox)
    requires views == ViewsAll(entries) && DistinctAll(entries) && AllValid(views)
    ensures Filling(box, entries, 0, rect, clip, views) && fresh(box.repr)
  {
    hide LayoutBox.Valid, LayoutBox.Value, LaidOut, DistinctAll, ViewsAll;
    box := new LayoutBox(rect, Intersect(clip, rect), null);
    EmptyBoxLaidOut(box.Value(), clip);
    assert entries[0..] == entries;
  }

  lemma Filled(box: LayoutBox, entries: seq<Entry>, rect: Rect, clip: Rect, views: set<ScrollView>)
    requires Filling(box, entries, |entries|, rect, clip, views)
    ensures AllValid(views) && box.views <= views && LaidOut(box.Value(), clip) && box.rect == rect
    ensures MirrorsAll(box.Value().children, entries) && box.Value().scroll.None?
  {
    hide LaidOut, LayoutBox.Value;
    assert entries[..|entries|] == entries;
  }

  function Sizes(entries: seq<Entry>): seq<SizeEntry> {
    seq(|entries|, i requires 0 <= i < |entries| => entries[i].size)
  }

  function IntrinsicHeights(entries: seq<Entry>, width: int): seq<int> {
    seq(|entries|, i requires 0 <= i < |entries| =>
      if entries[i].size.basis.Some? then entries[i].size.basis.value else entries[i].renderHeight(width))
  }

  function IntrinsicWidths(entries: seq<Entry>, width: int): seq<int> {
    seq(|entries|, i requires 0 <= i < |entries| =>
      if entries[i].size.basis.Some? then entries[i].size.basis.value else entries[i].renderWidth(width))
  }

  function HeightsAt(entries: seq<Entry>, widths: seq<int>): seq<int>
    requires |widths| == |entries|
  {
    seq(|entries|, i requires 0 <= i < |entries| => entries[i].renderHeight(Max(1, widths[i])))
  }

  lemma {:induction false} SizesSum(sizes: seq<int>, entries: seq<SizeEntry>)
    requires SizesOk(sizes, entries)
    ensures Sum(sizes) >= 0
  {
    if sizes != [] { SizesSum(sizes[..|sizes|-1], entries[..|sizes|-1]); }
  }

  /** What the heights of a vertical stack start from: an entry's basis, or else its rendered height. */
  lemma IntrinsicHeightIs(entries: seq<Entry>, width: int, k: nat)
    requires k < |entries|
    ensures |IntrinsicHeights(entries, width)| == |Sizes(entries)| == |entries| && Sizes(entries)[k] == entries[k].size
    ensures IntrinsicHeights(entries, width)[k] ==
            match entries[k].size.basis case Some(basis) => basis case None => entries[k].renderHeight(width)
  {
  }

  lemma IntrinsicWidthIs(entries: seq<Entry>, width: int, k: nat)
    requires k < |entries|
    ensures |IntrinsicWidths(entries, width)| == |Sizes(entries)| == |entries| && Sizes(entries)[k] == entries[k].size
    ensures IntrinsicWidths(entries, width)[k] ==
            match entries[k].size.basis case Some(basis) => basis case None => entries[k].renderWidth(width)
  {
  }

  /** A vertical stack: its visible entries in a column. */
  method LayoutVStack(ghost c: Component, entries: seq<Entry>, gap: nat, x: int, y: int, width: int,
      height: Option<int>, clip: Rect, ghost views: set<ScrollView>)
    returns (box: LayoutBox, sizes: seq<int>)
    requires forall e :: e in entries ==> e.component < c
    requires views == ViewsAll(entries) && DistinctAll(entries) && AllValid(views)
    modifies views
    ensures AllValid(views) && box.Valid() && fresh(box.repr) && box.views <= views
    ensures LaidOut(box.Value(), clip) && Placed(box.Value(), x, y, width, height)
    ensures Allocated(sizes, Sizes(entries), IntrinsicHeights(entries, Max(1, width)), height, gap)
    ensures MirrorsAll(box.Value().children, entries) && box.Value().scroll.None?
    ensures |box.Value().children| == |entries| && Column(box.Value().children, x, y, Max(1, width), sizes, gap)
    ensures StackedDown(box.Value().children, box.rect, gap)
    ensures height.None? ==> box.rect.height == Sum(sizes) + Max(0, |entries| - 1) * gap
    decreases c, 1
  {
    hide LayoutBox.Valid, LayoutBox.Value, LaidOut, DistinctAll, ViewsAll, Sum, StackSizes.Natural,
        StackSizes.Adjusted, Filling;
    hide Column, AllValid, Offset, MirrorsAll, StackedDown;
    var safeWidth := Max(1, width);
    var sizeArray := AllocateStackSizes(Sizes(entries), IntrinsicHeights(entries, safeWidth), height, gap);
    sizes := sizeArray[..];
    SizesSum(sizes, Sizes(entries));
    var naturalHeight := Sum(sizes) + Max(0, |entries| - 1) * gap;
    var allocatedHeight := if height.None? then naturalHeight else Max(0, height.value);
    ghost var rect := Rect(x, y, safeWidth, allocatedHeight);
    box := EmptyStack(entries, Rect(x, y, safeWidth, allocatedHeight), clip, views);
    NothingStacked(x, y, safeWidth, sizes, gap, rect, Stretch, []);
    var childY := y;
    for index := 0 to |entries|
      invariant Filling(box, entries, index, rect, clip, views) && fresh(box.repr)
      invariant |box.Value().children| == index && Column(box.Value().children, x, y, safeWidth, sizes, gap)
      invariant childY == y + Offset(sizes, gap, index)
    {
      ghost var before := box.Value().children;
      LayoutNext(c, box, entries, index, x, childY, safeWidth, sizes[index], rect, clip, views);
      ColumnMore(before, box.Value().children, x, y, safeWidth, sizes, gap);
      OffsetStep(sizes, gap, index);
      childY := childY + sizes[index] + gap;
    }
    Filled(box, entries, rect, clip, views);
    ColumnStacked(box.Value().children, rect, sizes, gap);
  }

  function Highest(heights: seq<int>): (r: int)
    ensures r >= 0 && forall i :: 0 <= i < |heights| ==> heights[i] <= r
  {
    if heights == [] then 0 else Max(heights[|heights|-1], Highest(heights[..|heights|-1]))
  }

  /** The highest of some heights, and nothing without any. */
  lemma {:induction false} HighestIs(heights: seq<int>)
    requires forall i :: 0 <= i < |heights| ==> heights[i] >= 0
    ensures forall i :: 0 <= i < |heights| ==> heights[i] <= Highest(heights)
    ensures if heights == [] then Highest(heights) == 0 else Highest(heights) in heights
  {
    if |heights| > 1 { HighestIs(heights[..|heights|-1]); }
  }

  lemma HeightsAre(entries: seq<Entry>, widths: seq<int>)
    requires |widths| == |entries|
    ensures |HeightsAt(entries, widths)| == |entries|
    ensures forall k :: 0 <= k < |entries| ==>
        HeightsAt(entries, widths)[k] == entries[k].renderHeight(Max(1, widths[k])) >= 0
  {
  }

  lemma EachAligned(children: seq<Box>, rect: Rect, align: Align, naturals: seq<int>)
    requires AllAligned(children, rect, align, naturals)
    ensures forall k :: 0 <= k < |children| ==> Aligned(children[k].rect, rect, align, naturals[k])
  {
    hide Aligned;
  }

  function ChildY(align: Align, y: int, height: int, childHeight: int): int {
    match align
    case Center => y + (height - childHeight) / 2
    case End => y + height - childHeight
    case Stretch => y
    case Start => y
  }

  /** One entry of a horizontal stack: aligned within the stack's rows. */
  method PlaceAcross(ghost c: Component, box: LayoutBox, entries: seq<Entry>, index: nat, align: Align, childX: int,
      y: int, width: int, allocatedHeight: int, naturalHeight: int, ghost rect: Rect, ghost clip: Rect,
      ghost views: set<ScrollView>)
    requires index < |entries| && entries[index].component < c && Filling(box, entries, index, rect, clip, views)
    requires width >= 0 && 0 <= naturalHeight && 0 <= allocatedHeight == rect.height && rect.y == y
    modifies box, views
    ensures Filling(box, entries, index + 1, rect, clip, views) && fresh(box.repr - old(box.repr))
    ensures box.Value().children[..index] == old(box.Value()).children
    ensures var child := box.Value().children[index].rect;
      child.x == childX && child.width == width && Aligned(child, rect, align, naturalHeight)
    decreases c, 0, 1
  {
    hide LayoutBox.Valid, LayoutBox.Value, LaidOut, DistinctAll, ViewsAll, Filling;
    var childHeight := if align.Stretch? then allocatedHeight else Min(allocatedHeight, naturalHeight);
    var childY := ChildY(align, y, allocatedHeight, childHeight);
    if width == 0 {
      AddEmpty(box, entries, index, Rect(childX, childY, 0, childHeight), rect, clip, views);
    } else {
      LayoutNext(c, box, entries, index, childX, childY, width, childHeight, rect, clip, views);
    }
  }

  /** A horizontal stack: its visible entries in a row, aligned within its height. */
  method LayoutHStack(ghost c: Component, entries: seq<Entry>, gap: nat, align: Align, x: int, y: int, width: int,
      height: Option<int>, clip: Rect, ghost views: set<ScrollView>)
    returns (box: LayoutBox, widths: seq<int>)
    requires forall e :: e in entries ==> e.component < c
    requires views == ViewsAll(entries) && DistinctAll(entries) && AllValid(views)
    modifies views
    ensures AllValid(views) && box.Valid() && fresh(box.repr) && box.views <= views
    ensures LaidOut(box.Value(), clip) && Placed(box.Value(), x, y, width, height)
    ensures Allocated(widths, Sizes(entries), IntrinsicWidths(entries, Max(1, width)), Some(Max(1, width)), gap)
    ensures MirrorsAll(box.Value().children, entries) && box.Value().scroll.None?
    ensures |box.Value().children| == |entries| && Row(box.Value().children, x, widths, gap)
    ensures StackedAcross(box.Value().children, box.rect, gap, align)
    ensures forall k :: 0 <= k < |entries| ==>
        Aligned(box.Value().children[k].rect, box.rect, align, entries[k].renderHeight(Max(1, widths[k])))
    ensures height.None? ==>
        && (forall k :: 0 <= k < |entries| ==> entries[k].renderHeight(Max(1, widths[k])) <= box.rect.height)
        && if entries == [] then box.rect.height == 0
           else exists k :: 0 <= k < |entries| && entries[k].renderHeight(Max(1, widths[k])) == box.rect.height
    decreases c, 1
  {
    hide LayoutBox.Valid, LayoutBox.Value, LaidOut, DistinctAll, ViewsAll, Sum, StackSizes.Natural,
        StackSizes.Adjusted, Filling;
    hide Row, AllAligned, Aligned, AllValid, Offset, MirrorsAll, StackedAcross, Highest, HeightsAt;
    var safeWidth := Max(1, width);
    var widthArray := AllocateStackSizes(Sizes(entries), IntrinsicWidths(entries, safeWidth), Some(safeWidth), gap);
    widths := widthArray[..];
    var heights := HeightsAt(entries, widths);
    HeightsAre(entries, widths);
    HighestIs(heights);
    var allocatedHeight := if height.None? then Highest(heights) else Max(0, height.value);
    ghost var rect := Rect(x, y, safeWidth, allocatedHeight);
    box := EmptyStack(entries, Rect(x, y, safeWidth, allocatedHeight), clip, views);
    NothingStacked(x, y, safeWidth, widths, gap, rect, align, heights);
    var childX := x;
    for index := 0 to |entries|
      invariant Filling(box, entries, index, rect, clip, views) && fresh(box.repr)
      invariant |box.Value().children| == index && Row(box.Value().children, x, widths, gap)
      invariant AllAligned(box.Value().children, rect, align, heights)
      invariant childX == x + Offset(widths, gap, index)
    {
      ghost var before := box.Value().children;
      PlaceAcross(c, box, entries, index, align, childX, y, widths[index], allocatedHeight, heights[index], rect, clip,
          views);
      RowMore(before, box.Value().children, x, widths, gap);
      AllAlignedMore(before, box.Value().children, rect, align, heights);
      OffsetStep(widths, gap, index);
      childX := childX + widths[index] + gap;
    }
    Filled(box, entries, rect, clip, views);
    RowStacked(box.Value().children, rect, widths, gap, align, heights);
    EachAligned(box.Value().children, rect, align, heights);
  }

  // ------------------------------------------------------------------
  // Frames
  // ------------------------------------------------------------------

  /** `renderLayoutFrame` up to painting: the root fills the screen. */
  method LayoutFrame(root: Component, width: int, height: int, ghost views: set<ScrollView>) returns (box: LayoutBox)
    requires views == Views(root) && DistinctViews(root) && AllValid(views)
    modifies views
    ensures AllValid(views) && box.Valid() && fresh(box.repr) && box.views <= views
    ensures var screen := Rect(0, 0, Max(1, width), Max(1, height)); LaidOut(box.Value(), screen) && box.rect == screen
    ensures Mirrors(box.Value(), root)
  {
    hide LayoutBox.Valid, LayoutBox.Value, LaidOut;
    var safeWidth, safeHeight := Max(1, width), Max(1, height);
    box := LayoutComponent(root, 0, 0, safeWidth, Some(safeHeight), Rect(0, 0, safeWidth, safeHeight), views);
  }
}
