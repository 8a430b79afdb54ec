/**
 * The scroll state of one view (packages/tui/src/components/scroll-view.ts), and the
 * geometry of its scrollbar (packages/tui/src/layout.ts).
 */
module ScrollViews {
  import opened Base

  datatype Scrollbar = Hidden | Auto | Always

  /** Whether lines a view cannot use go on to the next one. */
  datatype Overscroll = Chain | Contain

  class ScrollView {
    const followEnd: bool
    const scrollbar: Scrollbar
    const overscroll: Overscroll
    var scrollTop: int
    var contentHeight: int
    var viewportHeight: int
    var followingEnd: bool
    var transientScrollbarVisible: bool

    function MaxScrollTop(): int
      reads this
    {
      Max(0, contentHeight - viewportHeight)
    }

    /** The position is within the last layout, and a view following the end is at the end. */
    predicate Valid()
      reads this
    {
      0 <= scrollTop <= MaxScrollTop() && (followingEnd ==> followEnd && scrollTop == MaxScrollTop())
    }

    constructor (followEnd: bool, scrollbar: Scrollbar, overscroll: Overscroll)
      ensures Valid() && scrollTop == 0
    {
      this.followEnd, this.scrollbar, this.overscroll := followEnd, scrollbar, overscroll;
      scrollTop, contentHeight, viewportHeight := 0, 0, 0;
      followingEnd, transientScrollbarVisible := followEnd, false;
    }

    predicate IsScrollbarVisible()
      reads this
    {
      if scrollbar.Always? then viewportHeight > 0
      else scrollbar.Auto? && contentHeight > viewportHeight && transientScrollbarVisible
    }

    function ContentWidth(width: int): int {
      if scrollbar.Always? && width > 1 then width - 1 else width
    }

    /** A new layout: a view following the end stays there, any other keeps its position if it can. */
    method UpdateLayout(contentHeight: int, viewportHeight: int)
      requires Valid()
      modifies this
      ensures Valid() && this.contentHeight == Max(0, contentHeight) && this.viewportHeight == Max(0, viewportHeight)
      ensures scrollTop == if old(followingEnd) then MaxScrollTop() else Min(old(scrollTop), MaxScrollTop())
      ensures followingEnd <==> followEnd && (old(followingEnd) || scrollTop == MaxScrollTop())
      ensures transientScrollbarVisible <==>
          old(transientScrollbarVisible) && this.contentHeight > this.viewportHeight
    {
      this.contentHeight, this.viewportHeight := Max(0, contentHeight), Max(0, viewportHeight);
      var maxScrollTop := Max(0, this.contentHeight - this.viewportHeight);
      if followingEnd { scrollTop := maxScrollTop; } else { scrollTop := Max(0, Min(scrollTop, maxScrollTop)); }
      if followEnd && scrollTop == maxScrollTop { followingEnd := true; }
      if this.contentHeight <= this.viewportHeight { transientScrollbarVisible := false; }
    }

    /** Scrolls by whole lines and returns the lines that were left over. */
    method ScrollBy(requested: int) returns (rest: int)
      requires Valid()
      modifies this
      ensures Valid() && contentHeight == old(contentHeight) && viewportHeight == old(viewportHeight)
      ensures scrollTop == old(scrollTop) + requested - rest
      ensures rest > 0 ==> scrollTop == MaxScrollTop()
      ensures rest < 0 ==> scrollTop == 0
      ensures requested >= 0 ==> 0 <= rest <= requested
      ensures requested <= 0 ==> requested <= rest <= 0
      ensures followingEnd == if requested == 0 then old(followingEnd) else followEnd && scrollTop == MaxScrollTop()
      ensures transientScrollbarVisible ==
          (old(transientScrollbarVisible) || (rest != requested && scrollbar.Auto? && contentHeight > viewportHeight))
    {
      if requested == 0 { return 0; }
      var maxScrollTop := MaxScrollTop();
      var start := if followingEnd then maxScrollTop else scrollTop;
      var next := Max(0, Min(maxScrollTop, start + requested));
      var moved := next - start;
      scrollTop := next;
      followingEnd := followEnd && next == maxScrollTop;
      if moved != 0 { MarkScrollbarActivity(); }
      rest := requested - moved;
    }

    method ScrollTo(requested: int)
      requires Valid()
      modifies this
      ensures Valid() && contentHeight == old(contentHeight) && viewportHeight == old(viewportHeight)
      ensures scrollTop == Max(0, Min(MaxScrollTop(), requested))
      ensures followingEnd ==
          if scrollTop == old(scrollTop) then old(followingEnd) else followEnd && scrollTop == MaxScrollTop()
      ensures transientScrollbarVisible ==
          (old(transientScrollbarVisible) ||
           (scrollTop != old(scrollTop) && scrollbar.Auto? && contentHeight > viewportHeight))
    {
      var maxScrollTop := MaxScrollTop();
      var next := Max(0, Min(maxScrollTop, requested));
      if next == scrollTop { return; }
      scrollTop := next;
      followingEnd := followEnd && next == maxScrollTop;
      MarkScrollbarActivity();
    }

    method MarkScrollbarActivity()
      modifies this`transientScrollbarVisible
      ensures transientScrollbarVisible ==
          (old(transientScrollbarVisible) || (scrollbar.Auto? && contentHeight > viewportHeight))
    {
      if scrollbar.Auto? && contentHeight > viewportHeight { transientScrollbarVisible := true; }
    }
  }

  // ------------------------------------------------------------------
  // Scrollbar geometry
  // ------------------------------------------------------------------

  /** Rounds a quotient of non-negative integers to the nearest, halves up. */
  function RoundDiv(a: int, b: int): int
    requires a >= 0 && b > 0
  {
    (2 * a + b) / (2 * b)
  }

  /** The rounded quotient is within half of the exact one. */
  lemma RoundDivIsNearest(a: int, b: int)
    requires a >= 0 && b > 0
    ensures var q := RoundDiv(a, b); 2 * b * q - b <= 2 * a < 2 * b * q + b && q >= 0
  {
    var n, d := 2 * a + b, 2 * b;
    assert n == d * (n / d) + n % d;
  }

  lemma RoundDivMonotone(a: int, c: int, b: int)
    requires 0 <= a <= c && b > 0
    ensures RoundDiv(a, b) <= RoundDiv(c, b)
  {
    RoundDivIsNearest(a, b);
    RoundDivIsNearest(c, b);
    var p, q := RoundDiv(a, b), RoundDiv(c, b);
    if p > q {
      assert p >= q + 1;
      MulMonotone(2 * b, q + 1, p);
    }
  }

  lemma RoundDivExact(q: int, b: int)
    requires q >= 0 && b > 0
    ensures RoundDiv(q * b, b) == q
  {
    var d := 2 * b;
    assert 2 * (q * b) + b == d * q + b;
    assert (d * q + b) / d == q by {
      assert 0 <= b < d;
      DivUnique(d * q + b, d, q, b);
    }
  }

  lemma DivUnique(n: int, d: int, q: int, r: int)
    requires d > 0 && n == d * q + r && 0 <= r < d
    ensures n / d == q
  {
    var q', r' := n / d, n % d;
    assert n == d * q' + r';
    if q' < q { MulMonotone(d, q' + 1, q); assert false; }
    if q < q' { MulMonotone(d, q + 1, q'); assert false; }
  }

  /** The thumb of a track; an empty content would divide by zero, which rounds to the whole track. */
  function ThumbHeight(trackHeight: int, contentHeight: int): int
    requires trackHeight > 0 && contentHeight >= 0
  {
    var proportional := if contentHeight == 0 then trackHeight
        else Min(trackHeight, RoundDiv(trackHeight * trackHeight, contentHeight));
    Max(Min(2, trackHeight), proportional)
  }

  function ThumbOffset(trackHeight: int, contentHeight: int, scrollTop: int): int
    requires trackHeight > 0 && contentHeight >= 0 && scrollTop >= 0
  {
    var maxScrollTop := Max(0, contentHeight - trackHeight);
    var maxThumbTop := trackHeight - ThumbHeight(trackHeight, contentHeight);
    if maxScrollTop == 0 then 0 else
      ThumbHeightBounds(trackHeight, contentHeight);
      MulNonNegative(scrollTop, maxThumbTop);
      RoundDiv(scrollTop * maxThumbTop, maxScrollTop)
  }

  lemma MulNonNegative(a: int, b: int)
    requires a >= 0 && b >= 0
    ensures a * b >= 0
  {
  }

  lemma ThumbHeightBounds(trackHeight: int, contentHeight: int)
    requires trackHeight > 0 && contentHeight >= 0
    ensures 1 <= Min(2, trackHeight) <= ThumbHeight(trackHeight, contentHeight) <= trackHeight
    ensures contentHeight <= trackHeight ==> ThumbHeight(trackHeight, contentHeight) == trackHeight
  {
    MulNonNegative(trackHeight, trackHeight);
    if 0 < contentHeight <= trackHeight {
      RoundDivExact(trackHeight, contentHeight);
      MulMonotone(trackHeight, contentHeight, trackHeight);
      RoundDivMonotone(trackHeight * contentHeight, trackHeight * trackHeight, contentHeight);
    }
  }

  /** The thumb lies in its track, starts at the top and ends exactly at the bottom. */
  lemma ThumbInTrack(trackHeight: int, contentHeight: int, scrollTop: int)
    requires trackHeight > 0 && contentHeight >= 0 && 0 <= scrollTop <= Max(0, contentHeight - trackHeight)
    ensures var offset, height := ThumbOffset(trackHeight, contentHeight, scrollTop),
        ThumbHeight(trackHeight, contentHeight);
      && height >= 1 && 0 <= offset && offset + height <= trackHeight
      && (scrollTop == 0 ==> offset == 0)
      && (scrollTop == Max(0, contentHeight - trackHeight) ==> offset + height == trackHeight)
  {
    ThumbHeightBounds(trackHeight, contentHeight);
    var max, room := Max(0, contentHeight - trackHeight), trackHeight - ThumbHeight(trackHeight, contentHeight);
    if max > 0 {
      MulNonNegative(scrollTop, room);
      MulMonotone(room, scrollTop, max);
      RoundDivExact(0, max);
      RoundDivExact(room, max);
      RoundDivMonotone(0, scrollTop * room, max);
      RoundDivMonotone(scrollTop * room, room * max, max);
    }
  }

  lemma ThumbMonotone(trackHeight: int, contentHeight: int, lower: int, higher: int)
    requires trackHeight > 0 && contentHeight >= 0 && 0 <= lower <= higher
    ensures ThumbOffset(trackHeight, contentHeight, lower) <= ThumbOffset(trackHeight, contentHeight, higher)
  {
    ThumbHeightBounds(trackHeight, contentHeight);
    var max, room := Max(0, contentHeight - trackHeight), trackHeight - ThumbHeight(trackHeight, contentHeight);
    if max > 0 {
      MulNonNegative(lower, room);
      MulMonotone(room, lower, higher);
      RoundDivMonotone(lower * room, higher * room, max);
    }
  }

  /**
   * The thumb has the share of the track that the viewport has of the content, rounded to
   * whole cells, except that it keeps a minimum.
   */
  lemma ThumbIsProportional(trackHeight: int, contentHeight: int)
    requires 0 < trackHeight < contentHeight
    ensures var height := ThumbHeight(trackHeight, contentHeight);
      if height > Min(2, trackHeight) then
        2 * contentHeight * height - contentHeight <= 2 * (trackHeight * trackHeight)
            < 2 * contentHeight * height + contentHeight
      else 2 * (trackHeight * trackHeight) < 2 * contentHeight * height + contentHeight
  {
    MulNonNegative(trackHeight, trackHeight);
    RoundDivIsNearest(trackHeight * trackHeight, contentHeight);
    var exact, height := RoundDiv(trackHeight * trackHeight, contentHeight), ThumbHeight(trackHeight, contentHeight);
    RoundDivExact(trackHeight, contentHeight);
    MulMonotone(trackHeight, trackHeight, contentHeight);
    RoundDivMonotone(trackHeight * trackHeight, trackHeight * contentHeight, contentHeight);
    assert exact <= trackHeight;
    MulMonotone(2 * contentHeight, exact, height);
    hide RoundDiv;
  }

  /** The thumb has gone as much of its way as the view has of its own, rounded to whole cells. */
  lemma ThumbOffsetIsProportional(trackHeight: int, contentHeight: int, scrollTop: int)
    requires 0 < trackHeight < contentHeight && 0 <= scrollTop <= contentHeight - trackHeight
    ensures var offset := ThumbOffset(trackHeight, contentHeight, scrollTop);
      var max, room := contentHeight - trackHeight, trackHeight - ThumbHeight(trackHeight, contentHeight);
      2 * max * offset - max <= 2 * (scrollTop * room) < 2 * max * offset + max
  {
    ThumbHeightBounds(trackHeight, contentHeight);
    var max, room := contentHeight - trackHeight, trackHeight - ThumbHeight(trackHeight, contentHeight);
    MulNonNegative(scrollTop, room);
    RoundDivIsNearest(scrollTop * room, max);
    hide RoundDiv, ThumbHeight;
  }
}
