/**
  The derived sizes stay derived: every operation on a container either recomputes `size`
  from the proportions and the parent size (`setParentSize`, `setSizeProportions`) or
  leaves the size, both of its inputs and the children's sizes alone.
 */
module SizeInvariant {
  import opened Geometry
  import opened Enumerations
  import opened Component
  import opened Tree
  import opened BoxModel
  import opened Lookup
  import opened Placement
  import opened Render
  import opened Events

  /** A container that differs only outside its size and its inputs keeps its sizes derived. */
  lemma SameSizesKeepDerived(b: Box, b2: Box)
    requires Derived(b)
    requires b2.size == b.size && b2.sizeProportions == b.sizeProportions && b2.parentSize == b.parentSize
    requires b2.elements == b.elements
    ensures Derived(b2)
  {
  }

  /** The setters that leave the child list alone keep the sizes derived. */
  lemma SettersKeepDerived(b: Box, v: Vec2, o: LayoutOrientation, a: Enumerations.Alignment, flag: bool)
    requires Derived(b)
    ensures Derived(b.SetPaddingProportions(v)) && Derived(b.SetSpacingProportions(v))
    ensures Derived(b.SetPosition(v)) && Derived(b.UpdatePosition(v))
    ensures Derived(b.SetLayoutOrientation(o)) && Derived(b.SetAlignment(a))
    ensures Derived(b.SetCallback(flag)) && Derived(b.SetVisible(flag)) && Derived(b.SetEnabled(flag))
    ensures Derived(b.SetBackground())
  {
    SameSizesKeepDerived(b, b.SetPaddingProportions(v));
    SameSizesKeepDerived(b, b.SetSpacingProportions(v));
    SameSizesKeepDerived(b, b.SetPosition(v));
    SameSizesKeepDerived(b, b.UpdatePosition(v));
    SameSizesKeepDerived(b, b.SetLayoutOrientation(o));
    SameSizesKeepDerived(b, b.SetAlignment(a));
    SameSizesKeepDerived(b, b.SetCallback(flag));
    SameSizesKeepDerived(b, b.SetVisible(flag));
    SameSizesKeepDerived(b, b.SetEnabled(flag));
    SameSizesKeepDerived(b, b.SetBackground());
  }

  /**
    Adding a child keeps the sizes derived when the added container's sizes are; neither
    `addContainer` nor `addUIComponent` pushes the parent size to the new child.
   */
  lemma AddingKeepsDerived(b: Box, c: Box, l: Leaf)
    requires Derived(b) && Derived(c)
    ensures Derived(b.AddContainer(c)) && Derived(b.AddUIComponent(l))
  {
    var withBox := b.AddContainer(c);
    forall i | 0 <= i < |withBox.elements| && withBox.elements[i].Nested?
      ensures Derived(withBox.elements[i].box)
    {
      if i < |b.elements| {
        assert withBox.elements[i] == withBox.elements[..|b.elements|][i] == b.elements[i];
      }
    }
    var withLeaf := b.AddUIComponent(l);
    forall i | 0 <= i < |withLeaf.elements| && withLeaf.elements[i].Nested?
      ensures Derived(withLeaf.elements[i].box)
    {
      assert withLeaf.elements[i] == withLeaf.elements[..|b.elements|][i] == b.elements[i];
    }
  }

  /** A successful removal keeps the sizes derived: the remaining children are untouched. */
  lemma RemovalKeepsDerived(b: Box, name: string, kind: Kind)
    requires Derived(b) && Remove(b.elements, name, kind).Ok?
    ensures Derived(b.(elements := Remove(b.elements, name, kind).value, dirty := true))
  {
    RemoveErasesOne(b.elements, name, kind);
    var rest := Remove(b.elements, name, kind).value;
    var k := FirstNamed(b.elements, name).value;
    forall i | 0 <= i < |rest| && rest[i].Nested?
      ensures Derived(rest[i].box)
    {
      if i < k {
        assert rest[i] == b.elements[i];
      } else {
        assert rest[i] == b.elements[i + 1];
      }
    }
  }

  /** A relocated child container keeps its sizes derived. */
  lemma RelocationKeepsDerived(e: Element, e2: Element)
    requires Relocated(e, e2) && e.Nested? && Derived(e.box)
    ensures e2.Nested? && Derived(e2.box)
  {
    SameSizesKeepDerived(e.box, e2.box);
  }

  /** The layout pass only moves children, so it keeps the sizes derived. */
  lemma LayoutKeepsDerived(b: Box)
    requires IsLine(b.orientation) ==> |b.elements| > 0
    requires Derived(b)
    ensures Derived(ComputeRenderInformation(b))
  {
    var r := ComputeRenderInformation(b);
    forall i | 0 <= i < |r.elements| && r.elements[i].Nested?
      ensures Derived(r.elements[i].box)
    {
      assert Relocated(b.elements[i], r.elements[i]);
      RelocationKeepsDerived(b.elements[i], r.elements[i]);
    }
  }

  /** A draw of the whole tree keeps the sizes derived at every level. */
  lemma {:induction false} DrawKeepsDerived(b: Box)
    requires LayoutDefined(b) && Derived(b)
    decreases Depth(b)
    ensures Derived(Draw(b))
  {
    var updated := if b.dirty then ComputeRenderInformation(b) else b;
    if b.dirty {
      LayoutKeepsDerived(b);
    }
    UpdateKeepsStructure(b);
    var r := Draw(b);
    assert r.elements == DrawChildren(updated.elements, Depth(b));
    forall i | 0 <= i < |r.elements| && r.elements[i].Nested?
      ensures Derived(r.elements[i].box)
    {
      var c := updated.elements[i].box;
      assert r.elements[i] == DrawElement(updated.elements[i], Depth(b)) == Nested(Draw(c));
      DrawKeepsDerived(c);
    }
  }

  /** Handling an event only counts callbacks, so it keeps the sizes derived. */
  lemma {:induction false} HandlingKeepsDerived(b: Box, ev: Event)
    requires Derived(b)
    decreases b, 1
    ensures Derived(HandleEvent(b, ev).1)
  {
    EachKeepsDerived(b.elements, ev);
  }

  lemma {:induction false} EachKeepsDerived(es: seq<Element>, ev: Event)
    requires ChildrenDerived(es)
    decreases es, 0
    ensures ChildrenDerived(HandleEach(es, ev).1)
  {
    if es != [] {
      OneKeepsDerived(es[0], ev);
      var (handled, first) := HandleOne(es[0], ev);
      if handled {
        var r := [first] + es[1..];
        assert forall i :: 1 <= i < |r| ==> r[i] == es[i];
      } else {
        assert ChildrenDerived(es[1..]) by {
          assert forall i :: 0 <= i < |es[1..]| ==> es[1..][i] == es[i + 1];
        }
        EachKeepsDerived(es[1..], ev);
        var (rest, others) := HandleEach(es[1..], ev);
        var r := [first] + others;
        assert forall i :: 1 <= i < |r| ==> r[i] == others[i - 1];
      }
    }
  }

  lemma {:induction false} OneKeepsDerived(e: Element, ev: Event)
    requires e.Nested? ==> Derived(e.box)
    decreases e, 2
    ensures HandleOne(e, ev).1.Nested? ==> Derived(HandleOne(e, ev).1.box)
  {
    if e.Nested? {
      HandlingKeepsDerived(e.box, ev);
    }
  }
}
