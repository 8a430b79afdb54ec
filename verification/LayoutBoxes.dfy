/**
 * Layout boxes as objects, and what is done to their trees in place: translating,
 * re-clipping and appending (packages/tui/src/layout.ts).
 */
module LayoutBoxes {
  import opened Base
  import opened ScrollViews
  import opened BoxTrees

  class LayoutBox {
    var rect: Rect
    var clip: Rect
    var children: seq<LayoutBox>
    var parent: LayoutBox?
    var scrollView: ScrollView?
    ghost var repr: set<LayoutBox>     // this box and everything below it
    ghost var views: set<ScrollView>   // the scroll views among them

    /** Boxes form a tree. */
    ghost predicate Valid()
      reads this, repr
      ensures Valid() ==> this in repr
      decreases repr
    {
      && this in repr
      && (scrollView != null ==> scrollView in views)
      && (forall i :: 0 <= i < |children| ==>
            && children[i] in repr && children[i].repr <= repr && this !in children[i].repr
            && children[i].views <= views && children[i].Valid())
      && (forall i, j :: 0 <= i < j < |children| ==> children[i].repr !! children[j].repr)
    }

    ghost function Value(): (b: Box)
      requires Valid()
      reads this, repr, views
      ensures b.rect == rect && b.clip == clip && |b.children| == |children|
      ensures b.scroll == if scrollView == null then None else Some(ScrollOf(scrollView))
      decreases repr
    {
      Box(rect, clip,
          seq(|children|, i requires 0 <= i < |children| && Valid() reads this, repr, views => children[i].Value()),
          if scrollView == null then None else Some(ScrollOf(scrollView)))
    }

    constructor (rect: Rect, clip: Rect, scrollView: ScrollView?)
      ensures Valid() && fresh(repr) && repr == {this}
      ensures this.rect == rect && this.clip == clip && children == [] && this.scrollView == scrollView
          && parent == null
      ensures views == if scrollView == null then {} else {scrollView}
    {
      this.rect, this.clip, this.scrollView, children, parent := rect, clip, scrollView, [], null;
      repr := {this};
      views := if scrollView == null then {} else {scrollView};
    }

    /** `translateBox`: moves the box and everything below it. */
    method Translate(dy: int)
      requires Valid()
      modifies repr
      ensures Valid() && repr == old(repr) && views == old(views)
      ensures Value() == BoxTrees.Translate(old(Value()), dy)
      decreases repr, 0
    {
      rect := rect.(y := rect.y + dy);
      TranslateEach(children, dy, repr - {this});
    }

    /** `updateClips`: cuts the box and everything below it to its parent's clip. */
    method UpdateClips(parentClip: Rect)
      requires Valid()
      modifies repr
      ensures Valid() && repr == old(repr) && views == old(views)
      ensures Value() == Reclip(old(Value()), parentClip)
      decreases repr, 0
    {
      clip := Intersect(parentClip, rect);
      ReclipEach(children, clip, repr - {this});
    }

    method SetParent(parent: LayoutBox)
      requires Valid()
      modifies this`parent
      ensures Valid() && Value() == old(Value()) && this.parent == parent
    {
      this.parent := parent;
    }

    /** Appends a child, `withParent`. */
    method AddChild(child: LayoutBox)
      requires Valid() && child.Valid() && repr !! child.repr
      modifies this, child`parent
      ensures Valid() && repr == old(repr) + old(child.repr) && views == old(views) + old(child.views)
          && child.parent == this
      ensures children == old(children) + [child] && clip == old(clip) && rect == old(rect)
          && scrollView == old(scrollView)
      ensures Value() == old(Value()).(children := old(Value()).children + [old(child.Value())])
    {
      child.SetParent(this);
      children := children + [child];
      repr, views := repr + child.repr, views + child.views;
    }
  }

  ghost predicate Separate(boxes: seq<LayoutBox>)
    reads boxes
  {
    forall i, j :: 0 <= i < j < |boxes| ==> boxes[i].repr !! boxes[j].repr
  }

  /** The loop over the children. */
  method TranslateEach(boxes: seq<LayoutBox>, dy: int, ghost all: set<LayoutBox>)
    requires Separate(boxes) && forall k :: 0 <= k < |boxes| ==>
        boxes[k] in boxes[k].repr && boxes[k].repr <= all && boxes[k].Valid()
    modifies all
    ensures forall k :: 0 <= k < |boxes| ==>
        boxes[k].repr == old(boxes[k].repr) && boxes[k].views == old(boxes[k].views)
    ensures forall k :: 0 <= k < |boxes| ==>
        boxes[k].Valid() && boxes[k].Value() == Translate(old(boxes[k].Value()), dy)
    decreases all, 1
  {
    hide LayoutBox.Valid, LayoutBox.Value;
    for i := 0 to |boxes|
      invariant forall k :: 0 <= k < |boxes| ==>
          boxes[k].repr == old(boxes[k].repr) && boxes[k].views == old(boxes[k].views)
      invariant forall k :: 0 <= k < |boxes| ==> boxes[k].Valid()
      invariant forall k :: 0 <= k < i ==> boxes[k].Value() == Translate(old(boxes[k].Value()), dy)
      invariant forall k :: i <= k < |boxes| ==> boxes[k].Value() == old(boxes[k].Value())
    {
      boxes[i].Translate(dy);
    }
  }

  method ReclipEach(boxes: seq<LayoutBox>, clip: Rect, ghost all: set<LayoutBox>)
    requires Separate(boxes) && forall k :: 0 <= k < |boxes| ==>
        boxes[k] in boxes[k].repr && boxes[k].repr <= all && boxes[k].Valid()
    modifies all
    ensures forall k :: 0 <= k < |boxes| ==>
        boxes[k].repr == old(boxes[k].repr) && boxes[k].views == old(boxes[k].views)
    ensures forall k :: 0 <= k < |boxes| ==> boxes[k].Valid() && boxes[k].Value() == Reclip(old(boxes[k].Value()), clip)
    decreases all, 1
  {
    hide LayoutBox.Valid, LayoutBox.Value;
    for i := 0 to |boxes|
      invariant forall k :: 0 <= k < |boxes| ==>
          boxes[k].repr == old(boxes[k].repr) && boxes[k].views == old(boxes[k].views)
      invariant forall k :: 0 <= k < |boxes| ==> boxes[k].Valid()
      invariant forall k :: 0 <= k < i ==> boxes[k].Value() == Reclip(old(boxes[k].Value()), clip)
      invariant forall k :: i <= k < |boxes| ==> boxes[k].Value() == old(boxes[k].Value())
    {
      boxes[i].UpdateClips(clip);
    }
  }
}
