/** Client-side helpers (lib/client-utils.ts): guarded access to `window`/`document`, and the
    one-shot removal of attributes injected by browser extensions. */
module ClientUtils {
  import opened Js
  import opened Dom
  import ErrorSuppression

  /** How a callback ended: it returned a value, or it threw `error`. */
  datatype Outcome<T> = Returns(value: T) | Throws(error: string)

  /** What a guarded access gives back: the value, and the `console.warn` it printed, if any
      (its label and the caught error). */
  datatype Access<T> = Access(value: T, warning: Option<(string, string)>)

  /** `safeWindowAccess(callback, fallback)`. Off the client the callback is not run (its
      outcome is irrelevant); on the client its value is returned, and a throw gives the fallback
      and a warning. */
  function SafeWindowAccess<T>(isClient: bool, callback: Outcome<T>, fallback: T): (r: Access<T>)
    ensures !isClient ==> r == Access(fallback, None)
    ensures isClient && callback.Returns? ==> r == Access(callback.value, None)
    ensures isClient && callback.Throws? ==> r == Access(fallback, Some(("Window access failed:", callback.error)))
  {
    if !isClient then Access(fallback, None)
    else match callback
      case Returns(v) => Access(v, None)
      case Throws(e) => Access(fallback, Some(("Window access failed:", e)))
  }

  /** `safeDocumentAccess(callback, fallback)`: the same guard, with its own warning label. */
  function SafeDocumentAccess<T>(isClient: bool, callback: Outcome<T>, fallback: T): (r: Access<T>)
    ensures !isClient ==> r == Access(fallback, None)
    ensures isClient && callback.Returns? ==> r == Access(callback.value, None)
    ensures isClient && callback.Throws? ==> r == Access(fallback, Some(("Document access failed:", callback.error)))
  {
    if !isClient then Access(fallback, None)
    else match callback
      case Returns(v) => Access(v, None)
      case Throws(e) => Access(fallback, Some(("Document access failed:", e)))
  }

  /** Off the client neither guard depends on what the callback would have done. */
  lemma NotClientIgnoresCallback<T>(c1: Outcome<T>, c2: Outcome<T>, fallback: T)
    ensures SafeWindowAccess(false, c1, fallback) == SafeWindowAccess(false, c2, fallback)
    ensures SafeDocumentAccess(false, c1, fallback) == SafeDocumentAccess(false, c2, fallback)
  {
  }

  /** The two guards return the same value in every case, and warn in the same cases. */
  lemma DocumentAccessLikeWindowAccess<T>(isClient: bool, callback: Outcome<T>, fallback: T)
    ensures SafeDocumentAccess(isClient, callback, fallback).value == SafeWindowAccess(isClient, callback, fallback).value
    ensures SafeDocumentAccess(isClient, callback, fallback).warning.Some?
        <==> SafeWindowAccess(isClient, callback, fallback).warning.Some?
  {
  }

  /** The guarded value is the callback's value exactly when the callback can run and returns. */
  lemma SafeAccessValue<T>(isClient: bool, callback: Outcome<T>, fallback: T)
    ensures SafeWindowAccess(isClient, callback, fallback).value
         == if isClient && callback.Returns? then callback.value else fallback
  {
  }

  /** Attribute names `cleanBrowserExtensionAttributes` removes. */
  const CleanedAttributes: seq<string> := [
    "bis_skin_checked",
    "bis_register",
    "__processed_c56d2dc9-9b3f-475c-ac8e-26999fcb1776__"
  ]

  /** Every element of the document with the listed attributes removed. */
  function CleanAll(elements: map<ElementId, Attributes>): map<ElementId, Attributes>
  {
    map e | e in elements :: Without(elements[e], CleanedAttributes)
  }

  /** `cleanBrowserExtensionAttributes()`: for each listed name, every element matching the
      selector `[name]` loses that attribute. Off the client it returns at once. */
  method CleanBrowserExtensionAttributes(doc: Document, isClient: bool)
    modifies doc
    ensures doc.elements == if isClient then CleanAll(old(doc.elements)) else old(doc.elements)
  {
    if !isClient {
      return;
    }
    ghost var original := doc.elements;
    for j := 0 to |CleanedAttributes|
      invariant doc.elements.Keys == original.Keys
      invariant forall e :: e in original ==> doc.elements[e] == original[e] - set n | n in CleanedAttributes[..j]
    {
      RemoveEverywhere(doc, CleanedAttributes[j]);
      assert CleanedAttributes[..j + 1] == CleanedAttributes[..j] + [CleanedAttributes[j]];
    }
    assert CleanedAttributes[..|CleanedAttributes|] == CleanedAttributes;
  }

  /** One `querySelectorAll('[name]').forEach(el => el.removeAttribute(name))`: every element
      carrying the attribute loses it, in whatever order the selector yields them. */
  method RemoveEverywhere(doc: Document, attr: string)
    modifies doc
    ensures doc.elements.Keys == old(doc.elements).Keys
    ensures forall e :: e in old(doc.elements) ==> doc.elements[e] == old(doc.elements)[e] - {attr}
  {
    var matched := set e | e in doc.elements && attr in doc.elements[e];
    var todo := matched;
    ghost var before := doc.elements;
    while todo != {}
      invariant todo <= matched
      invariant doc.elements.Keys == before.Keys
      invariant forall e :: e in before ==> doc.elements[e] == if e in matched - todo then before[e] - {attr} else before[e]
      decreases todo
    {
      var element :| element in todo;
      doc.RemoveAttribute(element, attr);
      todo := todo - {element};
    }
  }

  /** After cleaning, no element carries a listed attribute, every other attribute is unchanged,
      and no element is added or removed. */
  lemma CleanAllEffect(elements: map<ElementId, Attributes>, e: ElementId, n: string)
    requires e in elements
    ensures CleanAll(elements).Keys == elements.Keys
    ensures n in CleanedAttributes ==> n !in CleanAll(elements)[e]
    ensures n !in CleanedAttributes ==> (n in CleanAll(elements)[e] <==> n in elements[e])
    ensures n !in CleanedAttributes && n in elements[e] ==> CleanAll(elements)[e][n] == elements[e][n]
  {
  }

  /** Cleaning twice is cleaning once. */
  lemma CleanAllIdempotent(elements: map<ElementId, Attributes>)
    ensures CleanAll(CleanAll(elements)) == CleanAll(elements)
  {
    forall e | e in elements ensures Without(Without(elements[e], CleanedAttributes), CleanedAttributes)
                                  == Without(elements[e], CleanedAttributes) {
      WithoutIdempotent(elements[e], CleanedAttributes);
    }
  }

  /** The helper and the observer callback remove the same three names, so cleaning the whole
      document is what the callback does when every element is the target of an attribute record. */
  lemma CleanAllIsObserverOnEveryElement(elements: map<ElementId, Attributes>)
    ensures CleanedAttributes == ErrorSuppression.ObservedAttributes
    ensures CleanAll(elements) == ErrorSuppression.StripTargets(elements, elements.Keys)
  {
  }
}
