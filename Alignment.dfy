/**
  The alignment pass that follows placement: every child is shifted by an offset
  (`updatePosition`), computed from the free space left in the container and the
  container's alignment.
 */
module Alignment {
  import opened Geometry
  import opened Enumerations
  import opened Tree

  /** The alignment table read along one axis: the column scale on X, the row scale on Y. */
  function AxisScale(a: Alignment, axis: Axis): real {
    if axis == X then ColumnScale(a) else RowScale(a)
  }

  /**
    The switch of handleHorizontalAlignment with its fall-through sums written out:
    (share of the free width added to the primary offset, scale of the secondary offsets).
   */
  function HorizontalFactors(a: Alignment): (r: (real, real))
    ensures r == (ColumnScale(a), RowScale(a))
  {
    match a
    case TopTrailing => (0.5 + 0.5, 0.0)
    case Top => (0.5, 0.0)
    case TopLeading => (0.0, 0.0)
    case Trailing => (0.5 + 0.5, 0.5)
    case Center => (0.5, 0.5)
    case Leading => (0.0, 0.5)
    case BottomTrailing => (0.5 + 0.5, 1.0)
    case Bottom => (0.5, 1.0)
    case BottomLeading => (0.0, 1.0)
  }

  /** The switch of handleVerticalAlignment: the primary axis is now y, the secondary x. */
  function VerticalFactors(a: Alignment): (r: (real, real))
    ensures r == (RowScale(a), ColumnScale(a))
  {
    match a
    case BottomLeading => (0.5 + 0.5, 0.0)
    case Leading => (0.5, 0.0)
    case TopLeading => (0.0, 0.0)
    case Bottom => (0.5 + 0.5, 0.5)
    case Center => (0.5, 0.5)
    case Top => (0.0, 0.5)
    case BottomTrailing => (0.5 + 0.5, 1.0)
    case Trailing => (0.5, 1.0)
    case TopTrailing => (0.0, 1.0)
  }

  /** The switch of handleStackedAlignment: the factor applied to each child's free space. */
  function StackedFactors(a: Alignment): (r: Vec2)
    ensures r == Vec2(ColumnScale(a), RowScale(a))
  {
    match a
    case TopTrailing => Vec2(0.5 + 0.5, 0.0)
    case Top => Vec2(0.5, 0.0)
    case TopLeading => Vec2(0.0, 0.0)
    case Trailing => Vec2(0.5 + 0.5, 0.5)
    case Center => Vec2(0.5, 0.5)
    case Leading => Vec2(0.0, 0.5)
    case BottomTrailing => Vec2(0.5 + 0.5, 1.0)
    case Bottom => Vec2(0.5, 1.0)
    case BottomLeading => Vec2(0.0, 1.0)
  }

  /** The largest child size along `axis` (std::max_element over the collected sizes). */
  function MaxExtent(es: seq<Element>, axis: Axis): (r: real)
    requires |es| > 0
    ensures forall i :: 0 <= i < |es| ==> Get(SizeOf(es[i]), axis) <= r
    ensures exists i :: 0 <= i < |es| && Get(SizeOf(es[i]), axis) == r
  {
    if |es| == 1 then Get(SizeOf(es[0]), axis)
    else
      var rest := MaxExtent(es[1..], axis);
      var own := Get(SizeOf(es[0]), axis);
      if own >= rest then own else rest
  }

  /**
    The alignment buffer of a Horizontal (axis X) or Vertical (axis Y) layout: the padded
    far corner, minus the last child's position, minus a "largest element" made of the
    last child's primary extent and the largest secondary extent, minus the padding again.
   */
  function LineBuffer(b: Box, axis: Axis): Vec2
    requires |b.elements| > 0
  {
    var last := b.elements[|b.elements| - 1];
    var largest := Compose(axis, Get(SizeOf(last), axis), MaxExtent(b.elements, Other(axis)));
    var corner := Sub(Add(b.position, b.size), b.padding);
    Sub(Sub(Sub(corner, PositionOf(last)), largest), b.padding)
  }

  /**
    The buffer is the free space of the padded interior: along the line, the last child's
    position and extent, the buffer and the padding reach the inner far edge; across, the
    same holds with the largest extent in place of the last child's.
   */
  lemma LineBufferIsFreeSpace(b: Box, axis: Axis)
    requires |b.elements| > 0
    ensures var last := b.elements[|b.elements| - 1];
      Get(PositionOf(last), axis) + Get(SizeOf(last), axis) + Get(LineBuffer(b, axis), axis) + Get(b.padding, axis) ==
        Get(b.position, axis) + Get(b.size, axis) - Get(b.padding, axis)
    ensures var last := b.elements[|b.elements| - 1];
      Get(PositionOf(last), Other(axis)) + MaxExtent(b.elements, Other(axis)) + Get(LineBuffer(b, axis), Other(axis)) +
        Get(b.padding, Other(axis)) ==
        Get(b.position, Other(axis)) + Get(b.size, Other(axis)) - Get(b.padding, Other(axis))
  {
  }

  /**
    The offset of child i in a line layout: one primary offset shared by all children (the
    padding plus the primary scale of the buffer) and, across, the padding plus the
    secondary scale of the buffer and of the child's shortfall against the largest child.
   */
  function LineOffset(b: Box, axis: Axis, i: nat): Vec2
    requires i < |b.elements|
  {
    var buffer := LineBuffer(b, axis);
    var ps := AxisScale(b.alignment, axis);
    var ss := AxisScale(b.alignment, Other(axis));
    var shortfall := MaxExtent(b.elements, Other(axis)) - Get(SizeOf(b.elements[i]), Other(axis));
    Compose(axis, Get(b.padding, axis) + Scale(ps, Get(buffer, axis)),
                  Get(b.padding, Other(axis)) + Scale(ss, Get(buffer, Other(axis))) + Scale(ss, shortfall))
  }

  /** Along the line, every child's offset is the padding plus the primary scale of the buffer. */
  lemma LineOffsetAlong(b: Box, axis: Axis, i: nat)
    requires i < |b.elements|
    ensures Get(LineOffset(b, axis, i), axis) ==
      Get(b.padding, axis) + Scale(AxisScale(b.alignment, axis), Get(LineBuffer(b, axis), axis))
  {
  }

  /**
    Across the line, child i's offset is the padding plus the secondary scale of the buffer
    together with the child's shortfall against the largest child.
   */
  lemma LineOffsetAcross(b: Box, axis: Axis, i: nat)
    requires i < |b.elements|
    ensures Get(LineOffset(b, axis, i), Other(axis)) == Get(b.padding, Other(axis)) +
      Scale(AxisScale(b.alignment, Other(axis)),
            Get(LineBuffer(b, axis), Other(axis)) + (MaxExtent(b.elements, Other(axis)) - Get(SizeOf(b.elements[i]), Other(axis))))
  {
    var buffer := LineBuffer(b, axis);
    var along := Get(b.padding, axis) + Scale(AxisScale(b.alignment, axis), Get(buffer, axis));
    var ss := AxisScale(b.alignment, Other(axis));
    var shortfall := MaxExtent(b.elements, Other(axis)) - Get(SizeOf(b.elements[i]), Other(axis));
    assert LineOffset(b, axis, i) ==
      Compose(axis, along, Get(b.padding, Other(axis)) + Scale(ss, Get(buffer, Other(axis))) + Scale(ss, shortfall));
    ScaledAcross(axis, along, Get(b.padding, Other(axis)), ss, Get(buffer, Other(axis)), shortfall);
  }

  /** A cross component built from two scaled parts is the scale of their sum. */
  lemma ScaledAcross(axis: Axis, along: real, base: real, k: real, a: real, c: real)
    ensures Get(Compose(axis, along, base + Scale(k, a) + Scale(k, c)), Other(axis)) == base + Scale(k, a + c)
  {
    ScaleAdds(k, a, c);
  }

  /** `LineOffset` from precomputed buffer, largest extent and factors, as the handlers hold them. */
  lemma LineOffsetFrom(b: Box, axis: Axis, i: nat, buffer: Vec2, largest: real, ps: real, ss: real)
    requires i < |b.elements|
    requires buffer == LineBuffer(b, axis) && largest == MaxExtent(b.elements, Other(axis))
    requires ps == AxisScale(b.alignment, axis) && ss == AxisScale(b.alignment, Other(axis))
    ensures LineOffset(b, axis, i) ==
      Compose(axis, Get(b.padding, axis) + Scale(ps, Get(buffer, axis)),
                    Get(b.padding, Other(axis)) + Scale(ss, Get(buffer, Other(axis))) +
                    Scale(ss, largest - Get(SizeOf(b.elements[i]), Other(axis))))
  {
  }

  /** The offsets of a line layout, child by child. */
  function LineOffsets(b: Box, axis: Axis): (r: seq<Vec2>)
    requires |b.elements| > 0
    ensures |r| == |b.elements|
    ensures forall i :: 0 <= i < |b.elements| ==> r[i] == LineOffset(b, axis, i)
  {
    seq(|b.elements|, i requires 0 <= i < |b.elements| => LineOffset(b, axis, i))
  }

  /**
    The "reduced size" of handleStackedAlignment. As written it starts from
    position + size, so the container's position is counted in.
   */
  function StackedReducedSize(b: Box): (r: Vec2)
    ensures Sub(r, b.position) == Sub(b.size, Add(b.padding, b.padding))
  {
    Sub(Sub(Add(b.position, b.size), b.padding), b.padding)
  }

  /** The offsets of a stacked layout: each child is aligned on its own in the reduced size. */
  function StackedOffsets(b: Box): (r: seq<Vec2>)
    ensures |r| == |b.elements|
  {
    var es := b.elements;
    var factor := Vec2(ColumnScale(b.alignment), RowScale(b.alignment));
    seq(|es|, i requires 0 <= i < |es| =>
      Add(b.padding, Mul(factor, Sub(StackedReducedSize(b), SizeOf(es[i])))))
  }

  /**
    The alignment handler chosen by the orientation; None falls through into the stacked
    handler. Horizontal and Vertical read the last child, so they need one.
   */
  function Align(b: Box): (r: seq<Element>)
    requires b.orientation == Horizontal || b.orientation == Vertical ==> |b.elements| > 0
    ensures |r| == |b.elements|
  {
    match b.orientation
    case Horizontal => Shift(b.elements, LineOffsets(b, X))
    case Vertical => Shift(b.elements, LineOffsets(b, Y))
    case None | Stacked => Shift(b.elements, StackedOffsets(b))
  }

  /** Alignment only moves the children. */
  lemma AlignRelocates(b: Box, i: nat)
    requires b.orientation == Horizontal || b.orientation == Vertical ==> |b.elements| > 0
    requires i < |b.elements|
    ensures Relocated(b.elements[i], Align(b)[i])
  {
    var offsets := match b.orientation
      case Horizontal => LineOffsets(b, X)
      case Vertical => LineOffsets(b, Y)
      case None | Stacked => StackedOffsets(b);
    assert Align(b) == Shift(b.elements, offsets);
    UpdatePositionRelocates(b.elements[i], offsets[i]);
  }
}
