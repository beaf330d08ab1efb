/**
  The placement pass (handleLayoutOrientation): a cursor starts at the container's
  position and walks the children in order; each child is put at the cursor, and the
  cursor then advances by the child's extent plus the spacing along the layout axis.
 */
module Placement {
  import opened Geometry
  import opened Enumerations
  import opened Tree

  /** The orientations that advance the cursor. */
  predicate IsLine(o: LayoutOrientation) {
    o == Horizontal || o == Vertical
  }

  /** The primary axis of a line orientation. */
  function LineAxis(o: LayoutOrientation): Axis
    requires IsLine(o)
  {
    if o == Horizontal then X else Y
  }

  /** How far the cursor moves past a child of the given size. */
  function Advance(o: LayoutOrientation, size: Vec2, spacing: Vec2): Vec2 {
    match o
    case Horizontal => Vec2(size.x + spacing.x, 0.0)
    case Vertical => Vec2(0.0, size.y + spacing.y)
    case None | Stacked => Zero
  }

  /** Along a line the cursor moves by the child's extent plus the spacing and not at all across; otherwise it stays. */
  lemma AdvanceAlongLine(o: LayoutOrientation, size: Vec2, spacing: Vec2)
    ensures IsLine(o) ==>
      Advance(o, size, spacing) == Compose(LineAxis(o), Get(size, LineAxis(o)) + Get(spacing, LineAxis(o)), 0.0)
    ensures !IsLine(o) ==> Advance(o, size, spacing) == Zero
  {
  }

  /** The total advance over a run of children. */
  function Run(es: seq<Element>, o: LayoutOrientation, spacing: Vec2): Vec2 {
    if es == [] then Zero else Add(Advance(o, SizeOf(es[0]), spacing), Run(es[1..], o, spacing))
  }

  /** The sum of the children's sizes along `axis`. */
  function Extent(es: seq<Element>, axis: Axis): real {
    if es == [] then 0.0 else Get(SizeOf(es[0]), axis) + Extent(es[1..], axis)
  }

  /** The room taken by `count` gaps of width `gap`. */
  function Gaps(count: int, gap: real): real {
    count as real * gap
  }

  /** The loop of handleLayoutOrientation, one child at a time from the cursor `cursor`. */
  function Place(es: seq<Element>, o: LayoutOrientation, cursor: Vec2, spacing: Vec2): (r: seq<Element>)
    ensures |r| == |es|
    ensures forall i :: 0 <= i < |es| ==>
      KindOf(r[i]) == KindOf(es[i]) && NameOf(r[i]) == NameOf(es[i]) && SizeOf(r[i]) == SizeOf(es[i])
  {
    if es == [] then []
    else
      var first := SetPositionOf(es[0], cursor);
      [first] + Place(es[1..], o, Add(cursor, Advance(o, SizeOf(first), spacing)), spacing)
  }

  /**
    One turn of the loop at position `i`: with the first `i` children already placed, the
    child there is put at the cursor, which then advances past it.
   */
  lemma PlaceStep(es: seq<Element>, o: LayoutOrientation, start: Vec2, spacing: Vec2,
                  done: seq<Element>, i: nat, cursor: Vec2)
    requires i < |es| && |done| == i
    requires done + Place(es[i..], o, cursor, spacing) == Place(es, o, start, spacing)
    ensures (done + [SetPositionOf(es[i], cursor)]) +
      Place(es[i + 1..], o, Add(cursor, Advance(o, SizeOf(es[i]), spacing)), spacing) == Place(es, o, start, spacing)
  {
    var rest := es[i..];
    assert rest[0] == es[i] && rest[1..] == es[i + 1..];
    PlaceFirst(rest, o, cursor, spacing);
    var first := SetPositionOf(es[i], cursor);
    var tail := Place(es[i + 1..], o, Add(cursor, Advance(o, SizeOf(es[i]), spacing)), spacing);
    assert done + ([first] + tail) == (done + [first]) + tail;
  }

  /** Child i lands at the start position plus the advance over the children before it. */
  lemma {:induction false} PlaceAt(es: seq<Element>, o: LayoutOrientation, cursor: Vec2, spacing: Vec2, i: nat)
    requires i < |es|
    ensures Place(es, o, cursor, spacing)[i] == SetPositionOf(es[i], Add(cursor, Run(es[..i], o, spacing)))
  {
    var next := Add(cursor, Advance(o, SizeOf(es[0]), spacing));
    PlaceFirst(es, o, cursor, spacing);
    if i == 0 {
      assert es[..0] == [];
    } else {
      PlaceAt(es[1..], o, next, spacing, i - 1);
      assert es[1..][i - 1] == es[i];
      RunFirst(es, o, spacing, i);
      AddAssociates(cursor, Advance(o, SizeOf(es[0]), spacing), Run(es[1..][..i - 1], o, spacing));
    }
  }

  /** Placement puts the first child at the cursor and goes on past it. */
  lemma PlaceFirst(es: seq<Element>, o: LayoutOrientation, cursor: Vec2, spacing: Vec2)
    requires |es| > 0
    ensures Place(es, o, cursor, spacing) ==
      [SetPositionOf(es[0], cursor)] + Place(es[1..], o, Add(cursor, Advance(o, SizeOf(es[0]), spacing)), spacing)
  {
  }

  /** The run over the first i children is the first child's advance plus the run over the next i - 1. */
  lemma RunFirst(es: seq<Element>, o: LayoutOrientation, spacing: Vec2, i: nat)
    requires 0 < i <= |es|
    ensures Run(es[..i], o, spacing) == Add(Advance(o, SizeOf(es[0]), spacing), Run(es[1..][..i - 1], o, spacing))
  {
    var before := es[..i];
    assert before[0] == es[0] && before[1..] == es[1..][..i - 1];
  }

  /** Vector addition is associative. */
  lemma AddAssociates(a: Vec2, b: Vec2, c: Vec2)
    ensures Add(Add(a, b), c) == Add(a, Add(b, c))
  {
  }

  /** Placement only moves the children. */
  lemma PlaceRelocates(es: seq<Element>, o: LayoutOrientation, cursor: Vec2, spacing: Vec2, i: nat)
    requires i < |es|
    ensures Relocated(es[i], Place(es, o, cursor, spacing)[i])
  {
    PlaceAt(es, o, cursor, spacing, i);
    SetPositionRelocates(es[i], Add(cursor, Run(es[..i], o, spacing)));
  }

  lemma PlacedAfterRun(es: seq<Element>, o: LayoutOrientation, cursor: Vec2, spacing: Vec2, i: nat)
    requires i < |es|
    ensures PositionOf(Place(es, o, cursor, spacing)[i]) == Add(cursor, Run(es[..i], o, spacing))
    ensures |es[..i]| == i
  {
    PlaceAt(es, o, cursor, spacing, i);
  }

  /** Along a line, the run is the children's extent plus one spacing per child, and nothing across. */
  lemma {:induction false} RunAlongLine(es: seq<Element>, o: LayoutOrientation, spacing: Vec2)
    requires IsLine(o)
    ensures Run(es, o, spacing) ==
      Compose(LineAxis(o), Extent(es, LineAxis(o)) + Gaps(|es|, Get(spacing, LineAxis(o))), 0.0)
  {
    if es != [] {
      RunAlongLine(es[1..], o, spacing);
      var axis := LineAxis(o);
      GapsStep(|es[1..]|, Get(spacing, axis));
      ComposeAdds(axis, Get(SizeOf(es[0]), axis) + Get(spacing, axis),
                  Extent(es[1..], axis) + Gaps(|es[1..]|, Get(spacing, axis)));
    }
  }

  /** One more gap is one gap's width more. */
  lemma GapsStep(count: nat, gap: real)
    ensures Gaps(count + 1, gap) == Gaps(count, gap) + gap
  {
  }

  /** Two moves along the same axis add up to one. */
  lemma ComposeAdds(axis: Axis, a: real, c: real)
    ensures Add(Compose(axis, a, 0.0), Compose(axis, c, 0.0)) == Compose(axis, a + c, 0.0)
  {
  }

  /** None and Stacked never move the cursor. */
  lemma {:induction false} RunStandsStill(es: seq<Element>, o: LayoutOrientation, spacing: Vec2)
    requires !IsLine(o)
    ensures Run(es, o, spacing) == Zero
  {
    if es != [] {
      RunStandsStill(es[1..], o, spacing);
    }
  }

  /**
    Where placement puts child i of a line: for a Horizontal layout at
    (x + sum over j < i of (width_j + spacing.x), y), and the same on y for Vertical.
   */
  lemma PlacedOnLine(es: seq<Element>, o: LayoutOrientation, cursor: Vec2, spacing: Vec2, i: nat)
    requires i < |es| && IsLine(o)
    ensures PositionOf(Place(es, o, cursor, spacing)[i]) ==
      Add(cursor, Compose(LineAxis(o), Extent(es[..i], LineAxis(o)) + Gaps(i, Get(spacing, LineAxis(o))), 0.0))
  {
    var before := es[..i];
    PlacedAfterRun(es, o, cursor, spacing, i);
    RunAlongLine(before, o, spacing);
    assert |before| == i;
  }

  /** None and Stacked put every child at the start point itself. */
  lemma PlacedInPlace(es: seq<Element>, o: LayoutOrientation, cursor: Vec2, spacing: Vec2, i: nat)
    requires i < |es| && !IsLine(o)
    ensures PositionOf(Place(es, o, cursor, spacing)[i]) == cursor
  {
    PlacedAfterRun(es, o, cursor, spacing, i);
    RunStandsStill(es[..i], o, spacing);
  }
}
