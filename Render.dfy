/**
  The render-update gate: `computeRenderInformation` runs placement, then the alignment
  pass of the orientation, then clears the flag; `draw` runs it only when the flag is
  set, and then draws every child, which lets every nested container do the same.
 */
module Render {
  import opened Geometry
  import opened Enumerations
  import opened Tree
  import opened Placement
  import opened Alignment

  /**
    Every container of the tree that lays out along a line has a child: the alignment of a
    Horizontal or Vertical container reads its last child.
   */
  ghost predicate LayoutDefined(b: Box)
    decreases b
  {
    (IsLine(b.orientation) ==> |b.elements| > 0) &&
    forall i :: 0 <= i < |b.elements| && b.elements[i].Nested? ==> LayoutDefined(b.elements[i].box)
  }

  /** No container of the tree waits for a render update. */
  ghost predicate Clean(b: Box)
    decreases b
  {
    !b.dirty &&
    forall i :: 0 <= i < |b.elements| && b.elements[i].Nested? ==> Clean(b.elements[i].box)
  }

  /** The number of container levels in a tree; a measure for `Draw`. */
  function Depth(b: Box): nat
    decreases b, 1
  {
    1 + ElementsDepth(b.elements)
  }

  function ElementsDepth(es: seq<Element>): (d: nat)
    decreases es, 0
    ensures forall i :: 0 <= i < |es| ==> ElementDepth(es[i]) <= d
  {
    if es == [] then 0
    else
      var first := ElementDepth(es[0]);
      var rest := ElementsDepth(es[1..]);
      if first >= rest then first else rest
  }

  function ElementDepth(e: Element): nat
    decreases e, 2
  {
    match e
    case Nested(b) => Depth(b)
    case Component(_) => 0
  }

  /** Moving a child changes neither its depth nor whether its layout is defined. */
  lemma RelocatedKeepsStructure(e: Element, e2: Element)
    requires Relocated(e, e2)
    ensures ElementDepth(e2) == ElementDepth(e)
    ensures e.Nested? ==> e2.Nested? && (LayoutDefined(e2.box) <==> LayoutDefined(e.box))
  {
  }

  /** The render update keeps every child drawable: its layout stays defined and it stays below the container. */
  lemma UpdateKeepsStructure(b: Box)
    requires LayoutDefined(b)
    ensures var u := if b.dirty then ComputeRenderInformation(b) else b;
      |u.elements| == |b.elements| &&
      forall j :: 0 <= j < |u.elements| ==>
        (u.elements[j].Nested? ==> LayoutDefined(u.elements[j].box)) && ElementDepth(u.elements[j]) < Depth(b)
  {
    var u := if b.dirty then ComputeRenderInformation(b) else b;
    forall j | 0 <= j < |u.elements|
      ensures (u.elements[j].Nested? ==> LayoutDefined(u.elements[j].box)) && ElementDepth(u.elements[j]) < Depth(b)
    {
      if b.dirty {
        RelocatedKeepsStructure(b.elements[j], u.elements[j]);
      }
    }
  }

  /** The pass before alignment: handleLayoutOrientation from the container's own position. */
  function Placed(b: Box): (r: Box)
    ensures r == b.(elements := r.elements) && |r.elements| == |b.elements|
    ensures forall i :: 0 <= i < |b.elements| ==> SizeOf(r.elements[i]) == SizeOf(b.elements[i])
  {
    b.(elements := Place(b.elements, b.orientation, b.position, b.spacing))
  }

  /**
    `computeRenderInformation`: placement, then the orientation's alignment, then the flag
    is cleared. Only the children's positions (and their own flags) change.
   */
  function ComputeRenderInformation(b: Box): (r: Box)
    requires IsLine(b.orientation) ==> |b.elements| > 0
    ensures !r.dirty && r == b.(elements := r.elements, dirty := false)
    ensures |r.elements| == |b.elements|
    ensures forall i :: 0 <= i < |b.elements| ==> Relocated(b.elements[i], r.elements[i])
  {
    var placed := Placed(b);
    var aligned := Align(placed);
    forall i | 0 <= i < |b.elements|
      ensures Relocated(b.elements[i], aligned[i])
    {
      PlaceRelocates(b.elements, b.orientation, b.position, b.spacing, i);
      AlignRelocates(placed, i);
      RelocatedTwice(b.elements[i], placed.elements[i], aligned[i]);
    }
    b.(elements := aligned, dirty := false)
  }

  /**
    `draw`: recompute when the flag is set, then draw every child in order. Drawing a
    nested container is the same operation one level down; drawing a leaf is left to the
    concrete leaf and changes nothing here. The container's own fields are kept and its
    flag is cleared.
   */
  function Draw(b: Box): (r: Box)
    requires LayoutDefined(b)
    decreases Depth(b), 2
    ensures r == b.(elements := r.elements, dirty := false)
    ensures |r.elements| == |b.elements| && LayoutDefined(r)
  {
    var updated := if b.dirty then ComputeRenderInformation(b) else b;
    UpdateKeepsStructure(b);
    updated.(elements := DrawChildren(updated.elements, Depth(b)))
  }

  /**
    `draw` keeps every child's variant and name, and leaves each child where the layout put
    it: where it already was when the container was clean, else where a recomputation puts it.
   */
  lemma DrawKeepsChildren(b: Box)
    requires LayoutDefined(b)
    ensures forall i :: 0 <= i < |b.elements| ==>
      KindOf(Draw(b).elements[i]) == KindOf(b.elements[i]) && NameOf(Draw(b).elements[i]) == NameOf(b.elements[i])
    ensures !b.dirty ==> forall i :: 0 <= i < |b.elements| ==> PositionOf(Draw(b).elements[i]) == PositionOf(b.elements[i])
    ensures b.dirty ==> forall i :: 0 <= i < |b.elements| ==>
      PositionOf(Draw(b).elements[i]) == PositionOf(ComputeRenderInformation(b).elements[i])
  {
    var updated := if b.dirty then ComputeRenderInformation(b) else b;
    UpdateKeepsStructure(b);
    var r := Draw(b);
    assert r.elements == DrawChildren(updated.elements, Depth(b));
    forall i | 0 <= i < |b.elements|
      ensures KindOf(r.elements[i]) == KindOf(b.elements[i]) && NameOf(r.elements[i]) == NameOf(b.elements[i])
      ensures PositionOf(r.elements[i]) == PositionOf(updated.elements[i])
    {
      if b.dirty {
        assert Relocated(b.elements[i], updated.elements[i]);
      }
    }
  }

  /** The loop of `draw`: every child's own draw, in order, below a container of depth `depth`. */
  function DrawChildren(es: seq<Element>, ghost depth: nat): (r: seq<Element>)
    requires forall j :: 0 <= j < |es| ==>
      (es[j].Nested? ==> LayoutDefined(es[j].box)) && ElementDepth(es[j]) < depth
    decreases depth, 1
    ensures |r| == |es|
    ensures forall i :: 0 <= i < |es| ==> r[i] == DrawElement(es[i], depth)
    ensures forall i :: 0 <= i < |es| ==>
      KindOf(r[i]) == KindOf(es[i]) && NameOf(r[i]) == NameOf(es[i]) && PositionOf(r[i]) == PositionOf(es[i]) &&
      (r[i].Nested? ==> LayoutDefined(r[i].box))
  {
    seq(|es|, i requires 0 <= i < |es| => DrawElement(es[i], depth))
  }

  /** A child's own `draw`, called by a container of depth `parentDepth`. */
  function DrawElement(e: Element, ghost parentDepth: nat): (r: Element)
    requires e.Nested? ==> LayoutDefined(e.box)
    requires ElementDepth(e) < parentDepth
    decreases parentDepth, 0
    ensures KindOf(r) == KindOf(e) && NameOf(r) == NameOf(e) && PositionOf(r) == PositionOf(e)
    ensures r.Nested? ==> LayoutDefined(r.box)
  {
    match e
    case Nested(c) => Nested(Draw(c))
    case Component(_) => e
  }

  /** After a draw no container of the tree waits for a render update. */
  lemma {:induction false} DrawCleans(b: Box)
    requires LayoutDefined(b)
    decreases Depth(b)
    ensures Clean(Draw(b))
  {
    var updated := if b.dirty then ComputeRenderInformation(b) else b;
    var r := Draw(b);
    forall i | 0 <= i < |r.elements| && r.elements[i].Nested?
      ensures Clean(r.elements[i].box)
    {
      if b.dirty {
        RelocatedKeepsStructure(b.elements[i], updated.elements[i]);
      }
      var c := updated.elements[i].box;
      assert r.elements[i] == DrawElement(updated.elements[i], Depth(b)) == Nested(Draw(c));
      DrawCleans(c);
    }
  }

  /** Drawing a tree in which nothing waits for an update changes nothing. */
  lemma {:induction false} DrawOfCleanChangesNothing(b: Box)
    requires LayoutDefined(b) && Clean(b)
    decreases Depth(b)
    ensures Draw(b) == b
  {
    var r := Draw(b);
    forall i | 0 <= i < |b.elements|
      ensures r.elements[i] == b.elements[i]
    {
      assert r.elements[i] == DrawElement(b.elements[i], Depth(b));
      if b.elements[i].Nested? {
        DrawOfCleanChangesNothing(b.elements[i].box);
      }
    }
    assert r.elements == b.elements;
  }

  /**
    A second draw with no mutation in between recomputes nothing and moves nothing: the
    first draw leaves every container clean.
   */
  lemma DrawIdempotent(b: Box)
    requires LayoutDefined(b)
    ensures Draw(Draw(b)) == Draw(b)
  {
    DrawCleans(b);
    DrawOfCleanChangesNothing(Draw(b));
  }
}
