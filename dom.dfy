/** The part of the browser DOM the page's clean-up code touches: the attributes of elements. */
module Dom {

  /** Identity of an element in the document. */
  type ElementId = nat

  /** An element's attributes, name to value. */
  type Attributes = map<string, string>

  /** The attributes `a` with every name in `names` removed. */
  function Without(a: Attributes, names: seq<string>): (r: Attributes)
    ensures forall n :: n in r <==> n in a && n !in names
    ensures forall n :: n in r ==> r[n] == a[n]
  {
    a - set n | n in names
  }

  /** Removing the same names twice is removing them once. */
  lemma WithoutIdempotent(a: Attributes, names: seq<string>)
    ensures Without(Without(a, names), names) == Without(a, names)
  {
  }

  /** The document: every element with its attributes. */
  class Document {
    var elements: map<ElementId, Attributes>

    constructor (elements: map<ElementId, Attributes>)
      ensures this.elements == elements
    {
      this.elements := elements;
    }

    /** `element.hasAttribute(name)`; an element that is not in the document has none. */
    predicate HasAttribute(e: ElementId, name: string)
      reads this
    {
      e in elements && name in elements[e]
    }

    /** `element.removeAttribute(name)`: the element loses that one attribute, nothing else changes. */
    method RemoveAttribute(e: ElementId, name: string)
      modifies this
      ensures elements.Keys == old(elements).Keys
      ensures e in elements ==> elements[e] == old(elements)[e] - {name}
      ensures forall d :: d in elements && d != e ==> elements[d] == old(elements)[d]
    {
      if e in elements {
        elements := elements[e := elements[e] - {name}];
      }
    }
  }
}
