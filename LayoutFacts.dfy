/**
  Where one recomputation puts the children: placement followed by alignment, stated in
  closed form for line layouts and for stacked layouts.
 */
module LayoutFacts {
  import opened Geometry
  import opened Enumerations
  import opened Component
  import opened Tree
  import opened Placement
  import opened Alignment
  import opened Render

  /** The extent of all children is that of all but the last plus the last one's. */
  lemma {:induction false} ExtentOfAllButLast(es: seq<Element>, axis: Axis)
    requires |es| > 0
    ensures Extent(es, axis) == Extent(es[..|es| - 1], axis) + Get(SizeOf(es[|es| - 1]), axis)
  {
    if |es| > 1 {
      ExtentOfAllButLast(es[1..], axis);
      assert es[1..][..|es| - 2] == es[..|es| - 1][1..];
    } else {
      assert es[..0] == [];
    }
  }

  /** The largest extent depends only on the children's sizes. */
  lemma {:induction false} MaxExtentOfSameSizes(es: seq<Element>, es2: seq<Element>, axis: Axis)
    requires |es| == |es2| > 0
    requires forall i :: 0 <= i < |es| ==> SizeOf(es2[i]) == SizeOf(es[i])
    ensures MaxExtent(es2, axis) == MaxExtent(es, axis)
  {
    if |es| > 1 {
      MaxExtentOfSameSizes(es[1..], es2[1..], axis);
    }
  }

  /** The free space along the primary axis once the children, the spacing and the padding are taken. */
  function FreeAlong(b: Box, axis: Axis): real {
    Get(b.size, axis) - 2.0 * Get(b.padding, axis) - Extent(b.elements, axis)
      - Gaps(|b.elements| - 1, Get(b.spacing, axis))
  }

  /** Placement keeps the sizes, so the largest extent across the line is unchanged. */
  lemma PlacedMaxExtent(b: Box, axis: Axis)
    requires |b.elements| > 0
    ensures MaxExtent(Placed(b).elements, axis) == MaxExtent(b.elements, axis)
  {
    MaxExtentOfSameSizes(b.elements, Placed(b).elements, axis);
  }

  /** Where placement leaves child i of a line, read along and across the line. */
  lemma PlacedAt(b: Box, i: nat)
    requires IsLine(b.orientation) && i < |b.elements|
    ensures var axis := LineAxis(b.orientation);
      var placed := Place(b.elements, b.orientation, b.position, b.spacing)[i];
      Get(PositionOf(placed), axis) ==
        Get(b.position, axis) + Extent(b.elements[..i], axis) + Gaps(i, Get(b.spacing, axis)) &&
      Get(PositionOf(placed), Other(axis)) == Get(b.position, Other(axis)) &&
      SizeOf(placed) == SizeOf(b.elements[i])
  {
    var axis := LineAxis(b.orientation);
    var es := b.elements;
    PlacedOnLine(es, b.orientation, b.position, b.spacing, i);
    var run := Compose(axis, Extent(es[..i], axis) + Gaps(i, Get(b.spacing, axis)), 0.0);
    GetDistributes(b.position, run, axis);
    GetDistributes(b.position, run, Other(axis));
  }

  /** Where placement leaves the last child of a line. */
  lemma LastPlaced(b: Box)
    requires IsLine(b.orientation) && |b.elements| > 0
    ensures var axis := LineAxis(b.orientation);
      var n := |b.elements|;
      var last := Placed(b).elements[n - 1];
      Get(PositionOf(last), axis) ==
        Get(b.position, axis) + Extent(b.elements[..n - 1], axis) + Gaps(n - 1, Get(b.spacing, axis)) &&
      Get(PositionOf(last), Other(axis)) == Get(b.position, Other(axis)) &&
      SizeOf(last) == SizeOf(b.elements[n - 1])
  {
    PlacedAt(b, |b.elements| - 1);
  }

  /**
    Run right after placement along a line, the alignment buffer is the free space along
    the primary axis, and the padded interior minus the largest child across it.
   */
  lemma BufferAfterPlacement(b: Box)
    requires IsLine(b.orientation) && |b.elements| > 0
    ensures var axis := LineAxis(b.orientation);
      Get(LineBuffer(Placed(b), axis), axis) == FreeAlong(b, axis) &&
      Get(LineBuffer(Placed(b), axis), Other(axis)) ==
        Get(b.size, Other(axis)) - 2.0 * Get(b.padding, Other(axis)) - MaxExtent(b.elements, Other(axis))
  {
    LineBufferIsFreeSpace(Placed(b), LineAxis(b.orientation));
    LastPlaced(b);
    PlacedMaxExtent(b, Other(LineAxis(b.orientation)));
    ExtentOfAllButLast(b.elements, LineAxis(b.orientation));
  }

  /** One recomputation of a line layout: child i moves by its alignment offset from where placement put it. */
  lemma AlignedFromPlaced(b: Box, i: nat)
    requires IsLine(b.orientation) && i < |b.elements|
    ensures var axis := LineAxis(b.orientation);
      PositionOf(ComputeRenderInformation(b).elements[i]) ==
        Add(PositionOf(Placed(b).elements[i]), LineOffset(Placed(b), axis, i))
  {
  }

  /** Along the line, child i ends at its placed position plus the padding plus the primary scale of the free space. */
  lemma LinePositionAlong(b: Box, i: nat)
    requires IsLine(b.orientation) && i < |b.elements|
    ensures var axis := LineAxis(b.orientation);
      Get(PositionOf(ComputeRenderInformation(b).elements[i]), axis) ==
        Get(b.position, axis) + Extent(b.elements[..i], axis) + Gaps(i, Get(b.spacing, axis))
        + Get(b.padding, axis) + Scale(AxisScale(b.alignment, axis), FreeAlong(b, axis))
  {
    var axis := LineAxis(b.orientation);
    var placed := Placed(b);
    AlignedFromPlaced(b, i);
    PlacedAt(b, i);
    BufferAfterPlacement(b);
    LineOffsetAlong(placed, axis, i);
    GetDistributes(PositionOf(placed.elements[i]), LineOffset(placed, axis, i), axis);
  }

  /** Across the line, the alignment offset of child i splits its shortfall against the padded interior. */
  lemma OffsetAcross(b: Box, i: nat)
    requires IsLine(b.orientation) && i < |b.elements|
    ensures var axis := LineAxis(b.orientation);
      var o := Other(axis);
      Get(LineOffset(Placed(b), axis, i), o) ==
        Get(b.padding, o) + Scale(AxisScale(b.alignment, o), Get(b.size, o) - 2.0 * Get(b.padding, o) - Get(SizeOf(b.elements[i]), o))
  {
    var axis := LineAxis(b.orientation);
    var o := Other(axis);
    var offset := LineOffset(Placed(b), axis, i);
    LineOffsetAcross(Placed(b), axis, i);
    BufferAfterPlacement(b);
    PlacedMaxExtent(b, o);
    assert SizeOf(Placed(b).elements[i]) == SizeOf(b.elements[i]);
  }

  /** Across the line, child i sits at the padding plus the secondary scale of its shortfall against the padded interior. */
  lemma LinePositionAcross(b: Box, i: nat)
    requires IsLine(b.orientation) && i < |b.elements|
    ensures var o := Other(LineAxis(b.orientation));
      Get(PositionOf(ComputeRenderInformation(b).elements[i]), o) ==
        Get(b.position, o) + Get(b.padding, o)
        + Scale(AxisScale(b.alignment, o), Get(b.size, o) - 2.0 * Get(b.padding, o) - Get(SizeOf(b.elements[i]), o))
  {
    var axis := LineAxis(b.orientation);
    var placed := Placed(b);
    AlignedFromPlaced(b, i);
    PlacedAt(b, i);
    OffsetAcross(b, i);
    GetDistributes(PositionOf(placed.elements[i]), LineOffset(placed, axis, i), Other(axis));
  }

  /**
    Where one recomputation of a line layout puts child i: along the line, at its placed
    position plus the padding plus the primary scale of the free space; across, at the
    padding plus the secondary scale of the child's own shortfall against the padded interior.
   */
  lemma LinePosition(b: Box, i: nat)
    requires IsLine(b.orientation) && i < |b.elements|
    ensures var axis := LineAxis(b.orientation);
      var p := PositionOf(ComputeRenderInformation(b).elements[i]);
      Get(p, axis) ==
        Get(b.position, axis) + Extent(b.elements[..i], axis) + Gaps(i, Get(b.spacing, axis))
        + Get(b.padding, axis) + Scale(AxisScale(b.alignment, axis), FreeAlong(b, axis)) &&
      Get(p, Other(axis)) ==
        Get(b.position, Other(axis)) + Get(b.padding, Other(axis))
        + Scale(AxisScale(b.alignment, Other(axis)),
            Get(b.size, Other(axis)) - 2.0 * Get(b.padding, Other(axis)) - Get(SizeOf(b.elements[i]), Other(axis)))
  {
    LinePositionAlong(b, i);
    LinePositionAcross(b, i);
  }

  /** Trailing along the line: the last child ends exactly at the inner far edge. */
  lemma LineTrailingIsFlush(b: Box)
    requires IsLine(b.orientation) && |b.elements| > 0
    requires AxisScale(b.alignment, LineAxis(b.orientation)) == 1.0
    ensures var axis := LineAxis(b.orientation);
      var n := |b.elements|;
      Get(PositionOf(ComputeRenderInformation(b).elements[n - 1]), axis) + Get(SizeOf(b.elements[n - 1]), axis) ==
        Get(b.position, axis) + Get(b.size, axis) - Get(b.padding, axis)
  {
    LinePosition(b, |b.elements| - 1);
    ExtentOfAllButLast(b.elements, LineAxis(b.orientation));
  }

  /** Leading along the line: the first child starts exactly at the inner near edge. */
  lemma LineLeadingIsFlush(b: Box)
    requires IsLine(b.orientation) && |b.elements| > 0
    requires AxisScale(b.alignment, LineAxis(b.orientation)) == 0.0
    ensures var axis := LineAxis(b.orientation);
      Get(PositionOf(ComputeRenderInformation(b).elements[0]), axis) == Get(b.position, axis) + Get(b.padding, axis)
  {
    LinePosition(b, 0);
    assert b.elements[..0] == [];
  }

  /** Centred along the line: the gap before the first child equals the gap after the last. */
  lemma LineCenterIsSymmetric(b: Box)
    requires IsLine(b.orientation) && |b.elements| > 0
    requires AxisScale(b.alignment, LineAxis(b.orientation)) == 0.5
    ensures var axis := LineAxis(b.orientation);
      var r := ComputeRenderInformation(b);
      var n := |b.elements|;
      Get(PositionOf(r.elements[0]), axis) - (Get(b.position, axis) + Get(b.padding, axis)) ==
        (Get(b.position, axis) + Get(b.size, axis) - Get(b.padding, axis))
        - (Get(PositionOf(r.elements[n - 1]), axis) + Get(SizeOf(b.elements[n - 1]), axis))
  {
    LinePosition(b, 0);
    assert b.elements[..0] == [];
    LinePosition(b, |b.elements| - 1);
    ExtentOfAllButLast(b.elements, LineAxis(b.orientation));
  }

  /**
    Across the line every child is aligned on its own inside the padded interior: at the
    near edge (scale 0), centred (1/2), or ending at the far edge (1).
   */
  lemma LineAcrossAlignment(b: Box, i: nat)
    requires IsLine(b.orientation) && i < |b.elements|
    ensures var o := Other(LineAxis(b.orientation));
      var p := Get(PositionOf(ComputeRenderInformation(b).elements[i]), o);
      var s := Get(SizeOf(b.elements[i]), o);
      var near := Get(b.position, o) + Get(b.padding, o);
      var far := Get(b.position, o) + Get(b.size, o) - Get(b.padding, o);
      (AxisScale(b.alignment, o) == 0.0 ==> p == near) &&
      (AxisScale(b.alignment, o) == 0.5 ==> p - near == far - (p + s)) &&
      (AxisScale(b.alignment, o) == 1.0 ==> p + s == far)
  {
    LinePosition(b, i);
  }

  /** Where one recomputation of a stacked (or unset) layout puts child i. */
  lemma StackedPosition(b: Box, i: nat)
    requires !IsLine(b.orientation) && i < |b.elements|
    ensures PositionOf(ComputeRenderInformation(b).elements[i]) ==
      Add(Add(b.position, b.padding),
          Mul(Vec2(ColumnScale(b.alignment), RowScale(b.alignment)),
              Sub(StackedReducedSize(b), SizeOf(b.elements[i]))))
  {
    PlacedInPlace(b.elements, b.orientation, b.position, b.spacing, i);
    assert SizeOf(Placed(b).elements[i]) == SizeOf(b.elements[i]);
  }

  /**
    Because the reduced size starts from position + size, a trailing stacked child ends at
    the inner right edge shifted once more by the container's position.
   */
  lemma StackedTrailingCountsPositionTwice(b: Box, i: nat)
    requires !IsLine(b.orientation) && i < |b.elements|
    requires ColumnScale(b.alignment) == 1.0
    ensures PositionOf(ComputeRenderInformation(b).elements[i]).x + SizeOf(b.elements[i]).x ==
      b.position.x + (b.position.x + b.size.x - b.padding.x)
  {
    StackedPosition(b, i);
  }

  /** An unset orientation lays the children out exactly as Stacked does. */
  lemma NoneIsStacked(b: Box)
    ensures ComputeRenderInformation(b.(orientation := None)).elements ==
            ComputeRenderInformation(b.(orientation := Stacked)).elements
  {
    var none, stacked := b.(orientation := None), b.(orientation := Stacked);
    forall i | 0 <= i < |b.elements|
      ensures PositionOf(ComputeRenderInformation(none).elements[i]) ==
              PositionOf(ComputeRenderInformation(stacked).elements[i])
    {
      StackedPosition(none, i);
      StackedPosition(stacked, i);
    }
  }

  /** With no children, recomputation only clears the flag. */
  lemma EmptyLayoutIsNoOp(b: Box)
    requires b.elements == [] && !IsLine(b.orientation)
    ensures ComputeRenderInformation(b) == b.(dirty := false)
  {
  }

  /**
    A row of two leaves, 50 and 30 wide, in a 200 by 100 container at the origin with no
    padding, a horizontal spacing of 10 and Leading alignment: the leaves start at x = 0
    and x = 60, and Leading centres each of them vertically.
   */
  lemma LeadingRowExample(b: Box, first: Leaf, second: Leaf)
    requires b.position == Zero && b.padding == Zero && b.size == Vec2(200.0, 100.0)
    requires b.spacing == Vec2(10.0, 0.0) && b.orientation == Horizontal && b.alignment == Leading
    requires b.elements == [Component(first), Component(second)]
    requires first.size.x == 50.0 && second.size.x == 30.0
    ensures PositionOf(ComputeRenderInformation(b).elements[0]) == Vec2(0.0, (100.0 - first.size.y) / 2.0)
    ensures PositionOf(ComputeRenderInformation(b).elements[1]) == Vec2(60.0, (100.0 - second.size.y) / 2.0)
  {
    var r := ComputeRenderInformation(b);
    LinePosition(b, 0);
    LinePosition(b, 1);
    assert AxisScale(Leading, X) == 0.0 && AxisScale(Leading, Y) == 0.5;
    assert b.elements[..0] == [] && b.elements[..1] == [Component(first)];
    assert Extent([Component(first)], X) == 50.0 && Gaps(1, 10.0) == 10.0;
    assert Get(PositionOf(r.elements[0]), X) == 0.0 && Get(PositionOf(r.elements[1]), X) == 60.0;
  }
}
