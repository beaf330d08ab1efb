/**
  The leaf base class UIComponent (UIComponent.cpp): its state, the effect of each
  setter on that state, and an object that updates the state in place.

  The leaf's drawing, its event handling and the update of its render information are
  pure virtual in the source. The base class never assigns the size: a concrete leaf
  sets it, for example in its `updateRenderInformation`, so here it is a field that no
  setter changes. The answer of the leaf's event handling is the set of events it consumes.
 */
module Component {
  import opened Geometry

  /** A platform event, as received by `handleEvent`. */
  type Event = int

  /** The state of a leaf component as a value (a leaf owned by a container is such a value). */
  datatype Leaf = Leaf(
    name: string,
    parentSize: Vec2,
    sizeProportions: Vec2,
    position: Vec2,
    size: Vec2,
    visible: bool,
    enabled: bool,
    dirty: bool,
    hasCallback: bool,
    consumes: set<Event>)
  {
    /** Visibility changes, and the leaf needs a render update, only when the value differs. */
    function SetVisible(v: bool): (r: Leaf)
      ensures r.visible == v && (r.dirty <==> dirty || visible != v)
      ensures r.(visible := visible, dirty := dirty) == this
    {
      if visible != v then this.(visible := v, dirty := true) else this
    }

    /** Enabling never asks for a render update. */
    function SetEnabled(v: bool): (r: Leaf)
      ensures r.enabled == v
      ensures r.(enabled := enabled) == this
    {
      if enabled != v then this.(enabled := v) else this
    }

    function SetCallback(present: bool): (r: Leaf)
      ensures r.hasCallback == present
      ensures r.(hasCallback := hasCallback) == this
    {
      this.(hasCallback := present)
    }

    /** Stores the parent size; the base class does not recompute `size` from it. */
    function SetParentSize(p: Vec2): (r: Leaf)
      ensures r.parentSize == p && r.dirty
      ensures r.(parentSize := parentSize, dirty := dirty) == this
    {
      this.(parentSize := p, dirty := true)
    }

    function SetSizeProportions(q: Vec2): (r: Leaf)
      ensures r.sizeProportions == q && r.dirty
      ensures r.(sizeProportions := sizeProportions, dirty := dirty) == this
    {
      this.(sizeProportions := q, dirty := true)
    }

    function SetPosition(p: Vec2): (r: Leaf)
      ensures r.position == p && r.dirty
      ensures r.(position := position, dirty := dirty) == this
    {
      this.(position := p, dirty := true)
    }

    function UpdatePosition(offset: Vec2): (r: Leaf)
      ensures r.position == Add(position, offset) && r.dirty
      ensures r.(position := position, dirty := dirty) == this
    {
      this.(position := Add(position, offset), dirty := true)
    }

    /** What the concrete leaf's `handleEvent` answers for `e`. */
    predicate Handles(e: Event) {
      e in consumes
    }
  }

  /** The state right after construction. */
  function NewLeaf(name: string, sizeProportions: Vec2, consumes: set<Event>): Leaf {
    Leaf(name, Zero, sizeProportions, Zero, Zero, true, true, true, false, consumes)
  }

  /** Setting the same visibility twice is the same as setting it once. */
  lemma SetVisibleIdempotent(l: Leaf, v: bool)
    ensures l.SetVisible(v).SetVisible(v) == l.SetVisible(v)
    ensures l.SetVisible(v).dirty <==> l.dirty || l.visible != v
  {
  }

  /** Of the leaf setters, only enabling and the callback leave the render-update flag alone. */
  lemma DirtyFlagOfSetters(l: Leaf, v: bool, p: Vec2)
    ensures l.SetEnabled(v).dirty == l.dirty && l.SetCallback(v).dirty == l.dirty
    ensures l.SetParentSize(p).dirty && l.SetSizeProportions(p).dirty
    ensures l.SetPosition(p).dirty && l.UpdatePosition(p).dirty
    ensures l.SetParentSize(p).size == l.size && l.SetSizeProportions(p).size == l.size
  {
  }

  /** A leaf component object whose setters update its fields in place. */
  class UIComponent {
    var name: string
    var parentSize: Vec2
    var sizeProportions: Vec2
    var position: Vec2
    var size: Vec2
    var visible: bool
    var enabled: bool
    var dirty: bool
    var hasCallback: bool
    var consumes: set<Event>

    /** The object's state as a value. */
    function State(): Leaf
      reads this
    {
      Leaf(name, parentSize, sizeProportions, position, size, visible, enabled, dirty, hasCallback, consumes)
    }

    /** `consumes` stands for the concrete subclass's event handling. */
    constructor (name: string, sizeProportions: Vec2, consumes: set<Event>)
      ensures State() == NewLeaf(name, sizeProportions, consumes)
      ensures dirty && visible && enabled && !hasCallback
    {
      this.name := name;
      this.sizeProportions := sizeProportions;
      this.consumes := consumes;
      parentSize, position, size := Zero, Zero, Zero;
      dirty := true;
      visible := true;
      enabled := true;
      hasCallback := false;
    }

    method SetVisible(v: bool)
      modifies this
      ensures State() == old(State()).SetVisible(v)
      ensures visible == v && (dirty <==> old(dirty) || old(visible) != v)
    {
      if visible != v {
        visible := v;
        dirty := true;
      }
    }

    method SetEnabled(v: bool)
      modifies this
      ensures State() == old(State()).SetEnabled(v)
      ensures enabled == v && dirty == old(dirty)
    {
      if enabled != v {
        enabled := v;
      }
    }

    method SetCallback(present: bool)
      modifies this
      ensures State() == old(State()).SetCallback(present)
      ensures dirty == old(dirty)
    {
      hasCallback := present;
    }

    method SetParentSize(p: Vec2)
      modifies this
      ensures State() == old(State()).SetParentSize(p)
      ensures parentSize == p && size == old(size) && dirty
    {
      parentSize := p;
      dirty := true;
    }

    method SetSizeProportions(q: Vec2)
      modifies this
      ensures State() == old(State()).SetSizeProportions(q)
      ensures sizeProportions == q && size == old(size) && dirty
    {
      sizeProportions := q;
      dirty := true;
    }

    method SetPosition(p: Vec2)
      modifies this
      ensures State() == old(State()).SetPosition(p)
      ensures position == p && dirty
    {
      position := p;
      dirty := true;
    }

    method UpdatePosition(offset: Vec2)
      modifies this
      ensures State() == old(State()).UpdatePosition(offset)
      ensures position == Add(old(position), offset) && dirty
    {
      position := Add(position, offset);
      dirty := true;
    }
  }
}
