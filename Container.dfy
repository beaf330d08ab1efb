/**
  The Container class (Container.cpp): an object whose setters, child management, event
  handling and layout passes update its fields in place. Every method is specified by the
  value-level operation it performs on `Model()`, the object's state as a `Box`.

  The children are held by value: a nested container is move-only and owned by exactly
  one parent, so no child is reachable from anywhere else.
 */
module Container {
  import opened Geometry
  import opened Enumerations
  import opened Component
  import opened Tree
  import BoxModel
  import opened Lookup
  import opened Placement
  import opened Alignment
  import Render
  import Events

  class Container {
    var name: string
    var parentSize: Vec2
    var sizeProportions: Vec2
    var paddingProportions: Vec2
    var spacingProportions: Vec2
    var position: Vec2
    var size: Vec2
    var padding: Vec2
    var spacing: Vec2
    var orientation: LayoutOrientation
    var alignment: Enumerations.Alignment
    var elements: seq<Element>
    var hasCallback: bool
    var callbackCount: nat
    var enabled: bool
    var visible: bool
    var hasBackground: bool
    var dirty: bool

    /** The object's state as a value. */
    function Model(): Box
      reads this
    {
      Box(name, parentSize, sizeProportions, paddingProportions, spacingProportions, position,
          size, padding, spacing, orientation, alignment, elements, hasCallback, callbackCount,
          enabled, visible, hasBackground, dirty)
    }

    constructor (name: string, sizeProportions: Vec2)
      ensures Model() == NewBox(name, sizeProportions)
      ensures orientation == None && alignment == Center && dirty && visible && enabled
      ensures BoxModel.Derived(Model())
    {
      this.name := name;
      this.sizeProportions := sizeProportions;
      parentSize, paddingProportions, spacingProportions := Zero, Zero, Zero;
      position, size, padding, spacing := Zero, Zero, Zero, Zero;
      orientation := None;
      alignment := Center;
      elements := [];
      hasCallback := false;
      callbackCount := 0;
      dirty := true;
      visible := true;
      enabled := true;
      hasBackground := false;
      BoxModel.NewBoxDerived(name, sizeProportions);
    }

    method SetParentSize(p: Vec2)
      modifies this
      ensures Model() == BoxModel.SetParentSize(old(Model()), p)
      ensures BoxModel.Cascaded(Model()) && BoxModel.Derived(Model())
    {
      parentSize := p;
      ComputeSize();
      dirty := true;
    }

    method SetSizeProportions(q: Vec2)
      modifies this
      ensures Model() == BoxModel.SetSizeProportions(old(Model()), q)
      ensures BoxModel.Cascaded(Model()) && BoxModel.Derived(Model())
    {
      sizeProportions := q;
      ComputeSize();
      dirty := true;
    }

    /** The size from the proportions, then `setParentSize` on every child in order. */
    method ComputeSize()
      modifies this
      ensures Model() == old(Model()).(size := Mul(sizeProportions, parentSize),
                                      elements := BoxModel.PushParentSize(old(elements), size))
    {
      size := Mul(sizeProportions, parentSize);
      elements := PushParentSizes(elements, size);
    }

    /** The loop of `computeSize`: every child receives the new size as its parent size. */
    static method PushParentSizes(original: seq<Element>, s: Vec2) returns (es: seq<Element>)
      ensures es == BoxModel.PushParentSize(original, s)
    {
      es := [];
      var i := 0;
      while i < |original|
        invariant 0 <= i <= |original| && |es| == i
        invariant forall j :: 0 <= j < i ==> es[j] == BoxModel.SetParentSizeOf(original[j], s)
      {
        es := es + [BoxModel.SetParentSizeOf(original[i], s)];
        i := i + 1;
      }
    }

    method SetPaddingProportions(q: Vec2)
      modifies this
      ensures Model() == old(Model()).SetPaddingProportions(q)
    {
      paddingProportions := q;
      padding := Vec2(paddingProportions.x * size.x, paddingProportions.y * size.y);
      dirty := true;
    }

    method SetSpacingProportions(q: Vec2)
      modifies this
      ensures Model() == old(Model()).SetSpacingProportions(q)
    {
      spacingProportions := q;
      spacing := Vec2(spacingProportions.x * size.x, spacingProportions.y * size.y);
      dirty := true;
    }

    method SetPosition(p: Vec2)
      modifies this
      ensures Model() == old(Model()).SetPosition(p)
    {
      position := p;
      dirty := true;
    }

    method UpdatePosition(offset: Vec2)
      modifies this
      ensures Model() == old(Model()).UpdatePosition(offset)
    {
      position := Add(position, offset);
      dirty := true;
    }

    method SetLayoutOrientation(o: LayoutOrientation)
      modifies this
      ensures Model() == old(Model()).SetLayoutOrientation(o)
    {
      orientation := o;
      dirty := true;
    }

    method SetAlignment(a: Enumerations.Alignment)
      modifies this
      ensures Model() == old(Model()).SetAlignment(a)
    {
      alignment := a;
      dirty := true;
    }

    method SetCallback(present: bool)
      modifies this
      ensures Model() == old(Model()).SetCallback(present)
    {
      hasCallback := present;
    }

    method SetVisible(v: bool)
      modifies this
      ensures Model() == old(Model()).SetVisible(v)
      ensures visible == v && (dirty <==> old(dirty) || old(visible) != v)
    {
      if visible != v {
        visible := v;
        dirty := true;
      }
    }

    method SetEnabled(v: bool)
      modifies this
      ensures Model() == old(Model()).SetEnabled(v)
      ensures enabled == v && dirty == old(dirty)
    {
      if enabled != v {
        enabled := v;
      }
    }

    /** The outline's colour and thickness belong to the drawing library; only the shape's presence is kept. */
    method SetOutline()
      modifies this
      ensures Model() == old(Model()).SetBackground()
    {
      if !hasBackground {
        hasBackground := true;
      }
    }

    /** The fill colour belongs to the drawing library; only the shape's presence is kept. */
    method SetBackground()
      modifies this
      ensures Model() == old(Model()).SetBackground()
    {
      if !hasBackground {
        hasBackground := true;
      }
    }

    /** The scan shared by `getContainer` and `getUIComponent`, counting name matches of the wrong variant. */
    method GetElement(name: string, kind: Kind) returns (r: Result<nat>)
      ensures r == Find(elements, name, kind)
    {
      var wrongTypeFits := 0;
      var i := 0;
      while i < |elements|
        invariant 0 <= i <= |elements|
        invariant forall j :: 0 <= j < i ==> !Matches(elements[j], name, kind)
        invariant wrongTypeFits > 0 <==> exists j :: 0 <= j < i && NameOf(elements[j]) == name
      {
        if NameOf(elements[i]) == name {
          if KindOf(elements[i]) == kind {
            var found := Find(elements, name, kind);
            assert Matches(elements[i], name, kind);
            assert found.Ok? && found.value == i;
            return Ok(i);
          } else {
            wrongTypeFits := wrongTypeFits + 1;
          }
        }
        i := i + 1;
      }
      var found := Find(elements, name, kind);
      assert found.Err?;
      if wrongTypeFits > 0 {
        var j :| 0 <= j < i && NameOf(elements[j]) == name;
        assert found != Err(NotFound);
        assert found.error == TypeMismatch;
        r := Err(TypeMismatch);
      } else {
        assert forall j :: 0 <= j < |elements| ==> NameOf(elements[j]) != name;
        assert found == Err(NotFound);
        r := Err(NotFound);
      }
    }

    /** `getContainer`: the index of the child container that the returned reference designates. */
    method GetContainer(name: string) returns (r: Result<nat>)
      ensures r == Find(elements, name, ContainerKind)
      ensures r.Ok? ==> r.value < |elements| && elements[r.value].Nested? && elements[r.value].box.name == name
    {
      r := GetElement(name, ContainerKind);
    }

    /** `getUIComponent`: the index of the child leaf that the returned reference designates. */
    method GetUIComponent(name: string) returns (r: Result<nat>)
      ensures r == Find(elements, name, ComponentKind)
      ensures r.Ok? ==> r.value < |elements| && elements[r.value].Component? && elements[r.value].leaf.name == name
    {
      r := GetElement(name, ComponentKind);
    }

    /** `addContainer`: the new child is moved in as it is; its parent size is not set. */
    method AddContainer(c: Container)
      requires c != this
      modifies this
      ensures Model() == old(Model()).AddContainer(c.Model())
    {
      elements := elements + [Nested(c.Model())];
      dirty := true;
    }

    method AddUIComponent(u: UIComponent)
      modifies this
      ensures Model() == old(Model()).AddUIComponent(u.State())
    {
      elements := elements + [Component(u.State())];
      dirty := true;
    }

    /**
      The scan shared by `removeContainer` and `removeUIComponent`: the first child with the
      name decides; it is erased if its variant matches, and the call fails otherwise.
     */
    method RemoveElement(name: string, kind: Kind) returns (r: Result<nat>)
      modifies this
      ensures r.Ok? <==> Remove(old(elements), name, kind).Ok?
      ensures r.Ok? ==> r == FirstNamed(old(elements), name)
      ensures r.Ok? ==> Model() == old(Model()).(elements := Remove(old(elements), name, kind).value, dirty := true)
      ensures r.Err? ==> r.error == Remove(old(elements), name, kind).error && Model() == old(Model())
    {
      var i := 0;
      while i < |elements|
        invariant 0 <= i <= |elements|
        invariant forall j :: 0 <= j < i ==> NameOf(elements[j]) != name
      {
        if NameOf(elements[i]) == name {
          if KindOf(elements[i]) == kind {
            elements := elements[..i] + elements[i + 1..];
            dirty := true;
            return Ok(i);
          } else {
            return Err(TypeMismatch);
          }
        }
        i := i + 1;
      }
      r := Err(NotFound);
    }

    method RemoveContainer(name: string) returns (r: Result<nat>)
      modifies this
      ensures r.Ok? <==> Remove(old(elements), name, ContainerKind).Ok?
      ensures r.Ok? ==> r == FirstNamed(old(elements), name)
      ensures r.Ok? ==> Model() == old(Model()).(elements := Remove(old(elements), name, ContainerKind).value, dirty := true)
      ensures r.Err? ==> r.error == Remove(old(elements), name, ContainerKind).error && Model() == old(Model())
    {
      r := RemoveElement(name, ContainerKind);
    }

    method RemoveUIComponent(name: string) returns (r: Result<nat>)
      modifies this
      ensures r.Ok? <==> Remove(old(elements), name, ComponentKind).Ok?
      ensures r.Ok? ==> r == FirstNamed(old(elements), name)
      ensures r.Ok? ==> Model() == old(Model()).(elements := Remove(old(elements), name, ComponentKind).value, dirty := true)
      ensures r.Err? ==> r.error == Remove(old(elements), name, ComponentKind).error && Model() == old(Model())
    {
      r := RemoveElement(name, ComponentKind);
    }

    /**
      `handleEvent`: the children in order until one reports the event handled; the own
      callback runs only when none did.
     */
    method HandleEvent(ev: Event) returns (handled: bool)
      modifies this
      ensures (handled, Model()) == Events.HandleEvent(old(Model()), ev)
    {
      handled, elements := OfferInOrder(elements, ev);
      if !handled && hasCallback {
        callbackCount := callbackCount + 1;
      }
    }

    /** The loop of `handleEvent`: it is left at the first child that handled the event. */
    static method OfferInOrder(original: seq<Element>, ev: Event) returns (handled: bool, es: seq<Element>)
      ensures (handled, es) == Events.HandleEach(original, ev)
    {
      es := [];
      var i := 0;
      while i < |original|
        invariant 0 <= i <= |original| && |es| == i
        invariant Events.HandleEach(original, ev).0 == Events.HandleEach(original[i..], ev).0
        invariant Events.HandleEach(original, ev).1 == es + Events.HandleEach(original[i..], ev).1
      {
        Events.EachStep(original, i, ev);
        var (h, e) := Events.HandleOne(original[i], ev);
        if h {
          assert es + ([e] + original[i + 1..]) == es + [e] + original[i + 1..];
          return true, es + [e] + original[i + 1..];
        }
        assert es + ([e] + Events.HandleEach(original[i + 1..], ev).1) ==
               es + [e] + Events.HandleEach(original[i + 1..], ev).1;
        es := es + [e];
        i := i + 1;
      }
      assert original[i..] == [];
      assert es + [] == es;
      handled := false;
    }

    /**
      `handleLayoutOrientation`: a cursor starts at the container's position; each child is
      put at the cursor, which then advances along the layout axis.
     */
    method HandleLayoutOrientation()
      modifies this
      ensures Model() == old(Model()).(elements := Place(old(elements), orientation, position, spacing))
    {
      elements := PlaceFrom(elements, orientation, position, spacing);
    }

    /** The cursor step of `handleLayoutOrientation`: past the child and the spacing along a line, nowhere otherwise. */
    static method MoveCursor(cursor: Vec2, orientation: LayoutOrientation, elementSize: Vec2, spacing: Vec2)
      returns (next: Vec2)
      ensures next == Add(cursor, Advance(orientation, elementSize, spacing))
    {
      next := cursor;
      match orientation {
        case Horizontal =>
          next := next.(x := next.x + elementSize.x);
          next := next.(x := next.x + spacing.x);
        case Vertical =>
          next := next.(y := next.y + elementSize.y);
          next := next.(y := next.y + spacing.y);
        case None =>
        case Stacked =>
      }
    }

    /** The cursor loop of `handleLayoutOrientation`, over the children in order. */
    static method PlaceFrom(original: seq<Element>, orientation: LayoutOrientation, position: Vec2, spacing: Vec2)
      returns (placedElements: seq<Element>)
      ensures placedElements == Place(original, orientation, position, spacing)
    {
      placedElements := [];
      var cursor := position;
      var i := 0;
      while i < |original|
        invariant 0 <= i <= |original| && |placedElements| == i
        invariant placedElements + Place(original[i..], orientation, cursor, spacing) ==
                  Place(original, orientation, position, spacing)
      {
        PlaceStep(original, orientation, position, spacing, placedElements, i, cursor);
        var placed := SetPositionOf(original[i], cursor);
        placedElements := placedElements + [placed];
        cursor := MoveCursor(cursor, orientation, SizeOf(placed), spacing);
        i := i + 1;
      }
      assert original[i..] == [];
      assert placedElements + [] == placedElements;
    }

    /** The sizes of the children along `axis`, in order (the `secondarySizes` vector). */
    method CollectSizes(axis: Axis) returns (sizes: seq<real>)
      ensures |sizes| == |elements|
      ensures forall j :: 0 <= j < |elements| ==> sizes[j] == Get(SizeOf(elements[j]), axis)
    {
      sizes := [];
      var i := 0;
      while i < |elements|
        invariant 0 <= i <= |elements| && |sizes| == i
        invariant forall j :: 0 <= j < i ==> sizes[j] == Get(SizeOf(elements[j]), axis)
      {
        sizes := sizes + [Get(SizeOf(elements[i]), axis)];
        i := i + 1;
      }
    }

    /** The sizes of the children, in order (the `elementSizes` vector). */
    method CollectVectors() returns (sizes: seq<Vec2>)
      ensures |sizes| == |elements|
      ensures forall j :: 0 <= j < |elements| ==> sizes[j] == SizeOf(elements[j])
    {
      sizes := [];
      var i := 0;
      while i < |elements|
        invariant 0 <= i <= |elements| && |sizes| == i
        invariant forall j :: 0 <= j < i ==> sizes[j] == SizeOf(elements[j])
      {
        sizes := sizes + [SizeOf(elements[i])];
        i := i + 1;
      }
    }

    /** `std::max_element` over the collected sizes. */
    static method Largest(sizes: seq<real>) returns (m: real)
      requires |sizes| > 0
      ensures forall j :: 0 <= j < |sizes| ==> sizes[j] <= m
      ensures exists j :: 0 <= j < |sizes| && sizes[j] == m
    {
      m := sizes[0];
      var i := 1;
      while i < |sizes|
        invariant 1 <= i <= |sizes|
        invariant forall j :: 0 <= j < i ==> sizes[j] <= m
        invariant exists j :: 0 <= j < i && sizes[j] == m
      {
        if sizes[i] > m {
          m := sizes[i];
        }
        i := i + 1;
      }
    }

    /** The largest size along `axis` among the children: the one `MaxExtent` names. */
    method LargestExtent(axis: Axis) returns (sizes: seq<real>, m: real)
      requires |elements| > 0
      ensures |sizes| == |elements|
      ensures forall j :: 0 <= j < |elements| ==> sizes[j] == Get(SizeOf(elements[j]), axis)
      ensures m == MaxExtent(elements, axis)
    {
      sizes := CollectSizes(axis);
      m := Largest(sizes);
      var k :| 0 <= k < |sizes| && sizes[k] == m;
      var k' :| 0 <= k' < |elements| && Get(SizeOf(elements[k']), axis) == MaxExtent(elements, axis);
      assert sizes[k'] <= m;
    }

    /**
      The `std::transform` of the line handlers: each collected size becomes the child's
      secondary shift, its shortfall against the largest scaled by `factor`.
     */
    static method ToShifts(sizes: seq<real>, largest: real, factor: real) returns (shifts: seq<real>)
      ensures |shifts| == |sizes|
      ensures forall j :: 0 <= j < |sizes| ==> shifts[j] == Scale(factor, largest - sizes[j])
    {
      shifts := sizes;
      var i := 0;
      while i < |shifts|
        invariant 0 <= i <= |shifts| == |sizes|
        invariant forall j :: 0 <= j < i ==> shifts[j] == Scale(factor, largest - sizes[j])
        invariant forall j :: i <= j < |shifts| ==> shifts[j] == sizes[j]
      {
        shifts := shifts[i := Scale(factor, largest - shifts[i])];
        i := i + 1;
      }
    }

    /**
      Applies `updatePosition(offsets[j])` to every child; the alignment handlers end with
      this loop.
     */
    static method ApplyOffsets(original: seq<Element>, offsets: seq<Vec2>) returns (es: seq<Element>)
      requires |offsets| == |original|
      ensures es == Shift(original, offsets)
    {
      es := [];
      var i := 0;
      while i < |original|
        invariant 0 <= i <= |original| && |es| == i
        invariant forall j :: 0 <= j < i ==> es[j] == UpdatePositionOf(original[j], offsets[j])
      {
        es := es + [UpdatePositionOf(original[i], offsets[i])];
        i := i + 1;
      }
    }

    /**
      The offsets of `handleHorizontalAlignment`: the buffer left by the last child and the
      largest child height, split by the alignment's factors; one horizontal offset for all
      children and a vertical offset per child.
     */
    method HorizontalOffsets() returns (offsets: seq<Vec2>)
      requires |elements| > 0
      ensures offsets == LineOffsets(Model(), X)
    {
      var corner := Sub(Add(position, size), padding);
      var last := elements[|elements| - 1];
      var secondarySizes, largest := LargestExtent(Y);
      var largestElement := Vec2(SizeOf(last).x, largest);
      var buffer := Sub(Sub(Sub(corner, PositionOf(last)), largestElement), padding);
      ghost var m := Model();
      assert buffer == LineBuffer(m, X);
      var (ps, ss) := HorizontalFactors(alignment);
      var primaryOffset := padding.x + Scale(ps, buffer.x);
      var secondaryBaseOffset := padding.y + Scale(ss, buffer.y);
      secondarySizes := ToShifts(secondarySizes, largest, ss);
      offsets := seq(|secondarySizes|, j requires 0 <= j < |secondarySizes| =>
        Vec2(primaryOffset, secondaryBaseOffset + secondarySizes[j]));
      forall j | 0 <= j < |elements|
        ensures offsets[j] == LineOffset(m, X, j)
      {
        LineOffsetFrom(m, X, j, buffer, largest, ps, ss);
      }
    }

    method HandleHorizontalAlignment()
      requires |elements| > 0
      modifies this
      ensures Model() == old(Model()).(elements := Shift(old(elements), LineOffsets(old(Model()), X)))
    {
      var offsets := HorizontalOffsets();
      elements := ApplyOffsets(elements, offsets);
    }

    /** The offsets of `handleVerticalAlignment`: the same with the axes exchanged. */
    method VerticalOffsets() returns (offsets: seq<Vec2>)
      requires |elements| > 0
      ensures offsets == LineOffsets(Model(), Y)
    {
      var corner := Sub(Add(position, size), padding);
      var last := elements[|elements| - 1];
      var secondarySizes, largest := LargestExtent(X);
      var largestElement := Vec2(largest, SizeOf(last).y);
      var buffer := Sub(Sub(Sub(corner, PositionOf(last)), largestElement), padding);
      ghost var m := Model();
      assert buffer == LineBuffer(m, Y);
      var (ps, ss) := VerticalFactors(alignment);
      var primaryOffset := padding.y + Scale(ps, buffer.y);
      var secondaryBaseOffset := padding.x + Scale(ss, buffer.x);
      secondarySizes := ToShifts(secondarySizes, largest, ss);
      offsets := seq(|secondarySizes|, j requires 0 <= j < |secondarySizes| =>
        Vec2(secondaryBaseOffset + secondarySizes[j], primaryOffset));
      forall j | 0 <= j < |elements|
        ensures offsets[j] == LineOffset(m, Y, j)
      {
        LineOffsetFrom(m, Y, j, buffer, largest, ps, ss);
      }
    }

    method HandleVerticalAlignment()
      requires |elements| > 0
      modifies this
      ensures Model() == old(Model()).(elements := Shift(old(elements), LineOffsets(old(Model()), Y)))
    {
      var offsets := VerticalOffsets();
      elements := ApplyOffsets(elements, offsets);
    }

    /**
      `handleStackedAlignment`: each child is aligned on its own within the reduced size by
      the alignment's factor pair.
     */
    method HandleStackedAlignment()
      modifies this
      ensures Model() == old(Model()).(elements := Shift(old(elements), StackedOffsets(old(Model()))))
    {
      var offsets := StackedOffsetsOf();
      elements := ApplyOffsets(elements, offsets);
    }

    /** The offsets of `handleStackedAlignment`, one per child. */
    method StackedOffsetsOf() returns (offsets: seq<Vec2>)
      ensures offsets == StackedOffsets(Model())
    {
      var reducedSize := Sub(Sub(Add(position, size), padding), padding);
      var elementSizes := CollectVectors();
      var buffers := seq(|elementSizes|, j requires 0 <= j < |elementSizes| => Sub(reducedSize, elementSizes[j]));
      var factor := StackedFactors(alignment);
      var pad := padding;
      offsets := seq(|buffers|, j requires 0 <= j < |buffers| => Add(pad, Mul(factor, buffers[j])));
    }

    /** `computeRenderInformation`: placement, the orientation's alignment, then the flag is cleared. */
    method ComputeRenderInformation()
      requires IsLine(orientation) ==> |elements| > 0
      modifies this
      ensures Model() == Render.ComputeRenderInformation(old(Model()))
    {
      HandleLayoutOrientation();
      AlignByOrientation();
      dirty := false;
    }

    /** The switch of `computeRenderInformation` over the orientation; None shares the stacked handler. */
    method AlignByOrientation()
      requires IsLine(orientation) ==> |elements| > 0
      modifies this
      ensures Model() == old(Model()).(elements := Align(old(Model())))
    {
      match orientation {
        case Horizontal => HandleHorizontalAlignment();
        case Vertical => HandleVerticalAlignment();
        case None => HandleStackedAlignment();
        case Stacked => HandleStackedAlignment();
      }
    }

    /** `draw`: recompute when the flag is set, then every child's own draw, in order. */
    method Draw()
      requires Render.LayoutDefined(Model())
      modifies this
      ensures Model() == Render.Draw(old(Model()))
    {
      ghost var start := Model();
      if dirty {
        ComputeRenderInformation();
      }
      Render.UpdateKeepsStructure(start);
      elements := DrawEach(elements, Render.Depth(start));
    }

    /** The loop of `draw`: each child draws itself, below a container of depth `depth`. */
    static method DrawEach(original: seq<Element>, ghost depth: nat) returns (es: seq<Element>)
      requires forall j :: 0 <= j < |original| ==>
        (original[j].Nested? ==> Render.LayoutDefined(original[j].box)) && Render.ElementDepth(original[j]) < depth
      ensures es == Render.DrawChildren(original, depth)
    {
      es := [];
      var i := 0;
      while i < |original|
        invariant 0 <= i <= |original| && |es| == i
        invariant forall j :: 0 <= j < i ==> es[j] == Render.DrawElement(original[j], depth)
      {
        es := es + [Render.DrawElement(original[i], depth)];
        i := i + 1;
      }
    }
  }
}
