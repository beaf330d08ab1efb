/**
  Looking children up and removing them by name. Both fail in two distinct ways, but
  they treat a name match of the wrong variant differently: a lookup goes on scanning,
  a removal gives up at the first name match.
 */
module Lookup {
  import opened Tree

  /** The two failures: no child has the name, or only children of the other variant have it. */
  datatype LookupError = NotFound | TypeMismatch

  datatype Result<T> = Ok(value: T) | Err(error: LookupError)

  predicate Matches(e: Element, name: string, kind: Kind) {
    NameOf(e) == name && KindOf(e) == kind
  }

  /**
    `getContainer` / `getUIComponent`: the index of the first child whose name and variant
    both match; otherwise TypeMismatch if some child had the name, else NotFound.
   */
  function Find(es: seq<Element>, name: string, kind: Kind): (r: Result<nat>)
    decreases es
    ensures r.Ok? ==> r.value < |es| && Matches(es[r.value], name, kind)
    ensures r.Ok? ==> forall j :: 0 <= j < r.value ==> !Matches(es[j], name, kind)
    ensures r.Err? <==> forall j :: 0 <= j < |es| ==> !Matches(es[j], name, kind)
    ensures r == Err(NotFound) <==> forall j :: 0 <= j < |es| ==> NameOf(es[j]) != name
  {
    if es == [] then Err(NotFound)
    else if Matches(es[0], name, kind) then Ok(0)
    else
      match Find(es[1..], name, kind)
      case Ok(i) => Ok(i + 1)
      case Err(e) => if NameOf(es[0]) == name then Err(TypeMismatch) else Err(e)
  }

  /** The index of the first child with the given name, whatever its variant. */
  function FirstNamed(es: seq<Element>, name: string): (r: Result<nat>)
    decreases es
    ensures r.Ok? ==> r.value < |es| && NameOf(es[r.value]) == name
    ensures r.Ok? ==> forall j :: 0 <= j < r.value ==> NameOf(es[j]) != name
    ensures r.Err? ==> r.error == NotFound && forall j :: 0 <= j < |es| ==> NameOf(es[j]) != name
  {
    if es == [] then Err(NotFound)
    else if NameOf(es[0]) == name then Ok(0)
    else
      match FirstNamed(es[1..], name)
      case Ok(i) => Ok(i + 1)
      case Err(e) => Err(e)
  }

  /**
    `removeContainer` / `removeUIComponent`: decided by the first name match alone. The
    result is the new child list.
   */
  function Remove(es: seq<Element>, name: string, kind: Kind): (r: Result<seq<Element>>)
    ensures r.Ok? <==> FirstNamed(es, name).Ok? && KindOf(es[FirstNamed(es, name).value]) == kind
    ensures r.Ok? ==> var i := FirstNamed(es, name).value; r.value == es[..i] + es[i + 1..]
    ensures r == Err(NotFound) <==> forall j :: 0 <= j < |es| ==> NameOf(es[j]) != name
  {
    match FirstNamed(es, name)
    case Err(e) => Err(e)
    case Ok(i) => if KindOf(es[i]) == kind then Ok(es[..i] + es[i + 1..]) else Err(TypeMismatch)
  }

  /** A successful removal erases exactly the first child with the name; the others keep their order. */
  lemma RemoveErasesOne(es: seq<Element>, name: string, kind: Kind)
    requires Remove(es, name, kind).Ok?
    ensures var r := Remove(es, name, kind).value; var i := FirstNamed(es, name).value;
      |r| == |es| - 1 &&
      Matches(es[i], name, kind) &&
      (forall j :: 0 <= j < i ==> r[j] == es[j]) &&
      (forall j :: i <= j < |r| ==> r[j] == es[j + 1]) &&
      multiset(r) + multiset{es[i]} == multiset(es)
  {
    var i := FirstNamed(es, name).value;
    assert es == es[..i] + [es[i]] + es[i + 1..];
  }

  /**
    A lookup finds a child that a removal refuses: when an earlier child has the same
    name but the other variant, `get*` skips past it and `remove*` stops at it.
   */
  lemma LookupAndRemovalDisagree(es: seq<Element>, name: string, kind: Kind, i: nat)
    requires i < |es| && NameOf(es[i]) == name && KindOf(es[i]) != kind
    requires forall j :: 0 <= j < i ==> NameOf(es[j]) != name
    requires exists k :: i < k < |es| && Matches(es[k], name, kind)
    ensures Find(es, name, kind).Ok? && Find(es, name, kind).value > i
    ensures Remove(es, name, kind) == Err(TypeMismatch)
  {
  }
}
