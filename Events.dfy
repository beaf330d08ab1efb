/**
  Event propagation (`handleEvent`): a container offers the event to its children in
  order and stops at the first one that reports it handled; only when no child handled
  it does the container run its own callback, and it reports the children's answer.
  A leaf's answer is decided by the concrete leaf and is modelled by its `consumes` set.

  Running a callback is modelled by incrementing the container's `callbackCount`.
 */
module Events {
  import opened Component
  import opened Tree

  /** `handleEvent` on a container: the children's answer and the container afterwards. */
  function HandleEvent(b: Box, ev: Event): (r: (bool, Box))
    decreases b, 1
    ensures r.1 == b.(elements := r.1.elements, callbackCount := r.1.callbackCount)
    ensures |r.1.elements| == |b.elements|
    ensures r.1.callbackCount == if !r.0 && b.hasCallback then b.callbackCount + 1 else b.callbackCount
  {
    var (handled, elements) := HandleEach(b.elements, ev);
    var count := if !handled && b.hasCallback then b.callbackCount + 1 else b.callbackCount;
    (handled, b.(elements := elements, callbackCount := count))
  }

  /** The loop of `handleEvent`: children in order, leaving the loop at the first that handled the event. */
  function HandleEach(es: seq<Element>, ev: Event): (r: (bool, seq<Element>))
    decreases es, 0
    ensures |r.1| == |es|
  {
    if es == [] then (false, [])
    else
      var (handled, first) := HandleOne(es[0], ev);
      if handled then (true, [first] + es[1..])
      else
        var (rest, others) := HandleEach(es[1..], ev);
        (rest, [first] + others)
  }

  /** One turn of the loop at position `i`: the child there is offered the event, and the loop goes on only if it did not handle it. */
  lemma EachStep(es: seq<Element>, i: nat, ev: Event)
    requires i < |es|
    ensures var (handled, first) := HandleOne(es[i], ev);
      HandleEach(es[i..], ev) ==
        if handled then (true, [first] + es[i + 1..])
        else (HandleEach(es[i + 1..], ev).0, [first] + HandleEach(es[i + 1..], ev).1)
  {
    assert es[i..][0] == es[i];
    assert es[i..][1..] == es[i + 1..];
  }

  /** One child's own `handleEvent`. */
  function HandleOne(e: Element, ev: Event): (r: (bool, Element))
    decreases e, 2
    ensures KindOf(r.1) == KindOf(e)
  {
    match e
    case Nested(c) =>
      var (handled, c2) := HandleEvent(c, ev);
      (handled, Nested(c2))
    case Component(l) => (l.Handles(ev), e)
  }

  /** Some leaf of the tree consumes the event. */
  ghost predicate Consumes(b: Box, ev: Event)
    decreases b, 1
  {
    exists i :: 0 <= i < |b.elements| && ElementConsumes(b.elements[i], ev)
  }

  ghost predicate ElementConsumes(e: Element, ev: Event)
    decreases e, 0
  {
    match e
    case Nested(c) => Consumes(c, ev)
    case Component(l) => l.Handles(ev)
  }

  /** A container reports an event handled exactly when some leaf below it consumes the event. */
  lemma {:induction false} HandledIffConsumed(b: Box, ev: Event)
    decreases b, 1
    ensures HandleEvent(b, ev).0 <==> Consumes(b, ev)
  {
    EachHandledIffSomeConsumes(b.elements, ev);
  }

  lemma {:induction false} EachHandledIffSomeConsumes(es: seq<Element>, ev: Event)
    decreases es, 0
    ensures HandleEach(es, ev).0 <==> exists i :: 0 <= i < |es| && ElementConsumes(es[i], ev)
  {
    if es != [] {
      OneHandledIffConsumes(es[0], ev);
      EachHandledIffSomeConsumes(es[1..], ev);
      if exists i :: 0 <= i < |es| && ElementConsumes(es[i], ev) {
        var i :| 0 <= i < |es| && ElementConsumes(es[i], ev);
        if i > 0 {
          assert ElementConsumes(es[1..][i - 1], ev);
        }
      }
      if exists i :: 0 <= i < |es[1..]| && ElementConsumes(es[1..][i], ev) {
        var i :| 0 <= i < |es[1..]| && ElementConsumes(es[1..][i], ev);
        assert ElementConsumes(es[i + 1], ev);
      }
    }
  }

  lemma {:induction false} OneHandledIffConsumes(e: Element, ev: Event)
    decreases e, 2
    ensures HandleOne(e, ev).0 <==> ElementConsumes(e, ev)
  {
    if e.Nested? {
      HandledIffConsumed(e.box, ev);
    }
  }

  /**
    The first consuming child ends the loop: it and the children before it have been
    offered the event, the children after it are left exactly as they were.
   */
  lemma {:induction false} StopsAtFirstHandler(es: seq<Element>, ev: Event, k: nat)
    requires k < |es| && ElementConsumes(es[k], ev)
    requires forall j :: 0 <= j < k ==> !ElementConsumes(es[j], ev)
    ensures HandleEach(es, ev).0
    ensures forall j :: 0 <= j <= k ==> HandleEach(es, ev).1[j] == HandleOne(es[j], ev).1
    ensures forall j :: k < j < |es| ==> HandleEach(es, ev).1[j] == es[j]
  {
    OneHandledIffConsumes(es[0], ev);
    if k > 0 {
      StopsAtFirstHandler(es[1..], ev, k - 1);
    }
  }

  /** When no child consumes the event, every child has been offered it. */
  lemma {:induction false} OffersToAll(es: seq<Element>, ev: Event)
    requires forall j :: 0 <= j < |es| ==> !ElementConsumes(es[j], ev)
    ensures !HandleEach(es, ev).0
    ensures forall j :: 0 <= j < |es| ==> HandleEach(es, ev).1[j] == HandleOne(es[j], ev).1
  {
    if es != [] {
      OneHandledIffConsumes(es[0], ev);
      OffersToAll(es[1..], ev);
    }
  }

  /** The container's own callback runs exactly once when nothing below consumed the event, and never otherwise. */
  lemma CallbackFiresOnlyWhenUnhandled(b: Box, ev: Event)
    ensures HandleEvent(b, ev).1.callbackCount ==
      if !Consumes(b, ev) && b.hasCallback then b.callbackCount + 1 else b.callbackCount
  {
    HandledIffConsumed(b, ev);
  }

  /** The tree with every callback counter reset: what handling an event must not change. */
  function Quiet(b: Box): (r: Box)
    decreases b, 1
    ensures |r.elements| == |b.elements|
  {
    b.(callbackCount := 0, elements := QuietEach(b.elements))
  }

  function QuietEach(es: seq<Element>): (r: seq<Element>)
    decreases es, 0
    ensures |r| == |es|
  {
    if es == [] then [] else [QuietOne(es[0])] + QuietEach(es[1..])
  }

  function QuietOne(e: Element): Element
    decreases e, 2
  {
    match e
    case Nested(c) => Nested(Quiet(c))
    case Component(_) => e
  }

  /** Handling an event changes no geometry, flag or child: only callback counters move. */
  lemma {:induction false} HandlingOnlyCounts(b: Box, ev: Event)
    decreases b, 1
    ensures Quiet(HandleEvent(b, ev).1) == Quiet(b)
  {
    EachOnlyCounts(b.elements, ev);
  }

  lemma {:induction false} EachOnlyCounts(es: seq<Element>, ev: Event)
    decreases es, 0
    ensures QuietEach(HandleEach(es, ev).1) == QuietEach(es)
  {
    if es != [] {
      OneOnlyCounts(es[0], ev);
      var (handled, first) := HandleOne(es[0], ev);
      if handled {
        assert ([first] + es[1..])[1..] == es[1..];
      } else {
        EachOnlyCounts(es[1..], ev);
        var (rest, others) := HandleEach(es[1..], ev);
        assert ([first] + others)[1..] == others;
      }
    }
  }

  lemma {:induction false} OneOnlyCounts(e: Element, ev: Event)
    decreases e, 2
    ensures QuietOne(HandleOne(e, ev).1) == QuietOne(e)
  {
    if e.Nested? {
      HandlingOnlyCounts(e.box, ev);
    }
  }
}
