/**
  The proportional box model: a container's size is its size proportions times its
  parent's size, and every new size is pushed down to the children at once.
 */
module BoxModel {
  import opened Geometry
  import opened Component
  import opened Tree

  /**
    Every child's parent size is its container's size, and the same holds below every
    nested container: the state that the top-down cascade establishes.
   */
  ghost predicate Cascaded(b: Box)
    decreases b
  {
    forall i :: 0 <= i < |b.elements| ==>
      ParentSizeOf(b.elements[i]) == b.size &&
      (b.elements[i].Nested? ==> Cascaded(b.elements[i].box))
  }

  /**
    `size` is what `computeSize` makes it, the size proportions times the parent size, in
    this container and in every container below it. Leaves are left out: their size is
    computed by the concrete leaf.
   */
  ghost predicate Derived(b: Box)
    decreases b
  {
    b.size == Mul(b.sizeProportions, b.parentSize) &&
    forall i :: 0 <= i < |b.elements| ==> b.elements[i].Nested? ==> Derived(b.elements[i].box)
  }

  /** Every container in the child list has derived sizes. */
  ghost predicate ChildrenDerived(es: seq<Element>) {
    forall i :: 0 <= i < |es| ==> es[i].Nested? ==> Derived(es[i].box)
  }

  /** A new container has no parent size yet, and no size. */
  lemma NewBoxDerived(name: string, q: Vec2)
    ensures Derived(NewBox(name, q))
  {
  }

  /** Two child lists that differ only in parent sizes, sizes and render flags below them. */
  ghost predicate SameShape(es: seq<Element>, es': seq<Element>) {
    |es'| == |es| &&
    forall i :: 0 <= i < |es| ==>
      KindOf(es'[i]) == KindOf(es[i]) && NameOf(es'[i]) == NameOf(es[i]) &&
      PositionOf(es'[i]) == PositionOf(es[i])
  }

  /**
    `setParentSize`: stores the parent size, recomputes `size` (computeSize), pushes the
    new size to every child, and marks the container dirty. Padding and spacing are not
    recomputed.
   */
  function SetParentSize(b: Box, p: Vec2): (r: Box)
    decreases b, 1
    ensures r.parentSize == p && r.size == Mul(b.sizeProportions, p) && r.dirty
    ensures Cascaded(r) && Derived(r)
    ensures r == b.(parentSize := p, size := Mul(b.sizeProportions, p), elements := r.elements, dirty := true)
    ensures SameShape(b.elements, r.elements)
  {
    var s := Mul(b.sizeProportions, p);
    b.(parentSize := p, size := s, elements := PushParentSize(b.elements, s), dirty := true)
  }

  /** `setSizeProportions`: stores the proportions and recomputes the size as `setParentSize` does. */
  function SetSizeProportions(b: Box, q: Vec2): (r: Box)
    ensures r.sizeProportions == q && r.size == Mul(q, b.parentSize) && r.parentSize == b.parentSize && r.dirty
    ensures Cascaded(r) && Derived(r)
    ensures r == b.(sizeProportions := q, size := Mul(q, b.parentSize), elements := r.elements, dirty := true)
    ensures SameShape(b.elements, r.elements)
  {
    SetParentSize(b.(sizeProportions := q), b.parentSize)
  }

  /** The loop at the end of computeSize: `setParentSize(s)` on every child, in order. */
  function PushParentSize(es: seq<Element>, s: Vec2): (r: seq<Element>)
    decreases es
    ensures |r| == |es|
    ensures forall i :: 0 <= i < |es| ==> r[i] == SetParentSizeOf(es[i], s)
  {
    if es == [] then [] else [SetParentSizeOf(es[0], s)] + PushParentSize(es[1..], s)
  }

  /**
    A child's own `setParentSize`: a nested container cascades further, a leaf only stores
    it and keeps its size and every other field.
   */
  function SetParentSizeOf(e: Element, s: Vec2): (r: Element)
    decreases e
    ensures ParentSizeOf(r) == s
    ensures KindOf(r) == KindOf(e) && NameOf(r) == NameOf(e) && PositionOf(r) == PositionOf(e)
    ensures r.Nested? ==> Cascaded(r.box) && Derived(r.box)
    ensures e.Component? ==> r == Component(e.leaf.SetParentSize(s)) && SizeOf(r) == SizeOf(e)
    ensures e.Nested? ==>
      r.Nested? &&
      r.box == e.box.(parentSize := s, size := Mul(e.box.sizeProportions, s), elements := r.box.elements, dirty := true)
  {
    match e
    case Nested(b) => Nested(SetParentSize(b, s))
    case Component(l) => Component(l.SetParentSize(s))
  }

  /**
    Because `setParentSize` leaves padding and spacing alone, a later change of the parent
    size leaves them proportional to the old size: padding set from size `s` stays `q * s`.
   */
  lemma PaddingGoesStale(b: Box, q: Vec2, p: Vec2)
    ensures SetParentSize(b.SetPaddingProportions(q), p).padding == Mul(q, b.size)
    ensures SetParentSize(b.SetPaddingProportions(q), p).size == Mul(b.sizeProportions, p)
  {
  }
}
