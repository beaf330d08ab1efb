/**
  The container as a value, and its ordered list of owned children.

  Containers are move-only and own their children through unique pointers, so no
  subtree is ever shared: a child container is modelled as a value held by its parent.
 */
module Tree {
  import opened Geometry
  import opened Enumerations
  import opened Component

  /**
    The state of one container. `size`, `padding` and `spacing` are derived: no setter
    assigns them directly, they are computed from the proportions.
   */
  datatype Box = Box(
    name: string,
    parentSize: Vec2,
    sizeProportions: Vec2,
    paddingProportions: Vec2,
    spacingProportions: Vec2,
    position: Vec2,
    size: Vec2,
    padding: Vec2,
    spacing: Vec2,
    orientation: LayoutOrientation,
    alignment: Alignment,
    elements: seq<Element>,
    hasCallback: bool,
    callbackCount: nat,
    enabled: bool,
    visible: bool,
    hasBackground: bool,
    dirty: bool)
  {
    /** Padding is its proportions times the size current at the time of the call. */
    function SetPaddingProportions(q: Vec2): (r: Box)
      ensures r.paddingProportions == q && r.padding == Mul(q, size) && r.dirty
      ensures r.(paddingProportions := paddingProportions, padding := padding, dirty := dirty) == this
    {
      this.(paddingProportions := q, padding := Mul(q, size), dirty := true)
    }

    /** Spacing is its proportions times the size current at the time of the call. */
    function SetSpacingProportions(q: Vec2): (r: Box)
      ensures r.spacingProportions == q && r.spacing == Mul(q, size) && r.dirty
      ensures r.(spacingProportions := spacingProportions, spacing := spacing, dirty := dirty) == this
    {
      this.(spacingProportions := q, spacing := Mul(q, size), dirty := true)
    }

    function SetPosition(p: Vec2): (r: Box)
      ensures r.position == p && r.dirty
      ensures r.(position := position, dirty := dirty) == this
    {
      this.(position := p, dirty := true)
    }

    function UpdatePosition(offset: Vec2): (r: Box)
      ensures r.position == Add(position, offset) && r.dirty
      ensures r.(position := position, dirty := dirty) == this
    {
      this.(position := Add(position, offset), dirty := true)
    }

    function SetLayoutOrientation(o: LayoutOrientation): (r: Box)
      ensures r.orientation == o && r.dirty
      ensures r.(orientation := orientation, dirty := dirty) == this
    {
      this.(orientation := o, dirty := true)
    }

    function SetAlignment(a: Alignment): (r: Box)
      ensures r.alignment == a && r.dirty
      ensures r.(alignment := alignment, dirty := dirty) == this
    {
      this.(alignment := a, dirty := true)
    }

    /** Setting the callback does not ask for a render update. */
    function SetCallback(present: bool): (r: Box)
      ensures r.hasCallback == present
      ensures r.(hasCallback := hasCallback) == this
    {
      this.(hasCallback := present)
    }

    /** Visibility changes, and the container needs a render update, only when the value differs. */
    function SetVisible(v: bool): (r: Box)
      ensures r.visible == v && (r.dirty <==> dirty || visible != v)
      ensures r.(visible := visible, dirty := dirty) == this
    {
      if visible != v then this.(visible := v, dirty := true) else this
    }

    /** Enabling never asks for a render update. */
    function SetEnabled(v: bool): (r: Box)
      ensures r.enabled == v
      ensures r.(enabled := enabled) == this
    {
      if enabled != v then this.(enabled := v) else this
    }

    /** Setting a background colour or an outline creates the background shape if it is absent. */
    function SetBackground(): (r: Box)
      ensures r.hasBackground
      ensures r.(hasBackground := hasBackground) == this
    {
      this.(hasBackground := true)
    }

    /** The new container goes after every existing child, which all keep their index. */
    function AddContainer(c: Box): (r: Box)
      ensures |r.elements| == |elements| + 1 && r.elements[..|elements|] == elements
      ensures r.elements[|elements|] == Nested(c) && r.dirty
      ensures r.(elements := elements, dirty := dirty) == this
    {
      this.(elements := elements + [Nested(c)], dirty := true)
    }

    /** The new leaf goes after every existing child, which all keep their index. */
    function AddUIComponent(l: Leaf): (r: Box)
      ensures |r.elements| == |elements| + 1 && r.elements[..|elements|] == elements
      ensures r.elements[|elements|] == Component(l) && r.dirty
      ensures r.(elements := elements, dirty := dirty) == this
    {
      this.(elements := elements + [Component(l)], dirty := true)
    }
  }

  /** A child is either a nested container or a leaf component. */
  datatype Element = Nested(box: Box) | Component(leaf: Leaf)

  /** The two alternatives of the child variant. */
  datatype Kind = ContainerKind | ComponentKind

  /** The state right after construction: no layout, centred, visible, enabled, dirty. */
  function NewBox(name: string, sizeProportions: Vec2): Box {
    Box(name, Zero, sizeProportions, Zero, Zero, Zero, Zero, Zero, Zero,
        None, Center, [], false, 0, true, true, false, true)
  }

  function KindOf(e: Element): Kind {
    if e.Nested? then ContainerKind else ComponentKind
  }

  function NameOf(e: Element): string {
    match e
    case Nested(b) => b.name
    case Component(l) => l.name
  }

  function PositionOf(e: Element): Vec2 {
    match e
    case Nested(b) => b.position
    case Component(l) => l.position
  }

  function SizeOf(e: Element): Vec2 {
    match e
    case Nested(b) => b.size
    case Component(l) => l.size
  }

  function ParentSizeOf(e: Element): Vec2 {
    match e
    case Nested(b) => b.parentSize
    case Component(l) => l.parentSize
  }

  /**
    `e2` is `e` moved to another position and marked for a render update: nothing else of
    the child, and nothing below it, differs.
   */
  predicate Relocated(e: Element, e2: Element) {
    match e
    case Nested(b) => e2.Nested? && e2.box == b.(position := e2.box.position, dirty := true)
    case Component(l) => e2.Component? && e2.leaf == l.(position := e2.leaf.position, dirty := true)
  }

  /** The child's own `setPosition`. */
  function SetPositionOf(e: Element, p: Vec2): (r: Element)
    ensures PositionOf(r) == p
    ensures KindOf(r) == KindOf(e) && NameOf(r) == NameOf(e) && SizeOf(r) == SizeOf(e)
  {
    match e
    case Nested(b) => Nested(b.SetPosition(p))
    case Component(l) => Component(l.SetPosition(p))
  }

  /** The child's own `updatePosition`: the offset is added to the current position. */
  function UpdatePositionOf(e: Element, offset: Vec2): (r: Element)
    ensures PositionOf(r) == Add(PositionOf(e), offset)
    ensures KindOf(r) == KindOf(e) && NameOf(r) == NameOf(e) && SizeOf(r) == SizeOf(e)
  {
    match e
    case Nested(b) => Nested(b.UpdatePosition(offset))
    case Component(l) => Component(l.UpdatePosition(offset))
  }

  /** Applies `updatePosition(offsets[i])` to child i, for every child. */
  function Shift(es: seq<Element>, offsets: seq<Vec2>): (r: seq<Element>)
    requires |offsets| == |es|
    ensures |r| == |es|
    ensures forall i :: 0 <= i < |es| ==> r[i] == UpdatePositionOf(es[i], offsets[i])
  {
    seq(|es|, i requires 0 <= i < |es| => UpdatePositionOf(es[i], offsets[i]))
  }

  /** `setPosition` only moves the child. */
  lemma SetPositionRelocates(e: Element, p: Vec2)
    ensures Relocated(e, SetPositionOf(e, p))
  {
  }

  /** `updatePosition` only moves the child. */
  lemma UpdatePositionRelocates(e: Element, offset: Vec2)
    ensures Relocated(e, UpdatePositionOf(e, offset))
  {
  }

  /** Moving a child twice is still only moving it. */
  lemma RelocatedTwice(e: Element, e2: Element, e3: Element)
    requires Relocated(e, e2) && Relocated(e2, e3)
    ensures Relocated(e, e3)
  {
  }
}
