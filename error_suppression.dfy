/** The page-wide filter for noise from browser extensions (lib/error-suppression.ts): a wrapper
    around `console.error`, an `unhandledrejection` listener and a MutationObserver callback that
    strips attributes injected by extensions. */
module ErrorSuppression {
  import opened Text
  import opened Dom

  /** A JavaScript value as far as the filter sees it: nullish, or something whose
      `toString()` gives `text`. */
  datatype JsValue = Nullish | Value(text: string)

  /** The arguments of one `console.error(...)` call. */
  type Args = seq<JsValue>

  /** Substrings that make the `console.error` wrapper drop a call, in source order. */
  const ConsolePatterns: seq<string> := [
    "Copy to clipboard is not supported",
    "clipboard",
    "bis_skin_checked",
    "bis_register",
    "__processed_",
    "browser extension",
    "extension"
  ]

  /** The five patterns of `ConsolePatterns` that the other two contain. */
  const CorePatterns: seq<string> := ["clipboard", "bis_skin_checked", "bis_register", "__processed_", "extension"]

  /** Substrings that make the rejection listener call `preventDefault()`, in source order. */
  const RejectionPatterns: seq<string> := [
    "clipboard",
    "Copy to clipboard is not supported",
    "browser extension"
  ]

  /** Attribute names the observer callback removes from a mutated element. */
  const ObservedAttributes: seq<string> := [
    "bis_skin_checked",
    "bis_register",
    "__processed_c56d2dc9-9b3f-475c-ac8e-26999fcb1776__"
  ]

  /** A chain of `message.includes(p) || ...` over `patterns`. */
  predicate MatchesAny(message: string, patterns: seq<string>)
  {
    exists p :: p in patterns && Includes(message, p)
  }

  /** `value?.toString() || ''`: the text of a value, the empty string for a nullish one. */
  function TextOf(v: JsValue): (t: string)
    ensures v.Nullish? ==> t == ""
    ensures v.Value? ==> t == v.text
  {
    match v
    case Nullish => ""
    case Value(s) => s
  }

  /** The message the wrapper tests: the text of the first argument, or `''` without one. */
  function Message(args: Args): (m: string)
    ensures |args| == 0 ==> m == ""
    ensures |args| > 0 ==> m == TextOf(args[0])
  {
    if |args| == 0 then "" else TextOf(args[0])
  }

  /** The wrapper returns without forwarding the call. */
  predicate Dropped(args: Args)
  {
    MatchesAny(Message(args), ConsolePatterns)
  }

  /** The calls that reach the original `console.error`, in order, each with its own arguments. */
  function Forwarded(calls: seq<Args>): (r: seq<Args>)
    ensures |r| <= |calls|
    ensures forall a :: a in r ==> a in calls && !Dropped(a)
  {
    if calls == [] then []
    else if Dropped(calls[|calls| - 1]) then Forwarded(calls[..|calls| - 1])
    else Forwarded(calls[..|calls| - 1]) + [calls[|calls| - 1]]
  }

  /** The listener calls `event.preventDefault()` for this rejection reason. */
  predicate RejectionSuppressed(reason: JsValue)
  {
    MatchesAny(TextOf(reason), RejectionPatterns)
  }

  /** A call is forwarded exactly when it is not dropped, and unchanged. */
  lemma ForwardedSingle(args: Args)
    ensures Forwarded([args]) == if Dropped(args) then [] else [args]
  {
    assert [args][..0] == [];
  }

  /** Filtering a log split in two filters each part: forwarded calls keep their order. */
  lemma {:induction false} ForwardedAppend(a: seq<Args>, b: seq<Args>)
    ensures Forwarded(a + b) == Forwarded(a) + Forwarded(b)
    decreases |b|
  {
    if b == [] {
      assert a + b == a;
    } else {
      var b' := b[..|b| - 1];
      assert (a + b)[..|a + b| - 1] == a + b';
      assert (a + b)[|a + b| - 1] == b[|b| - 1];
      ForwardedAppend(a, b');
    }
  }

  /** Every call that is not dropped reaches the original `console.error`. */
  lemma {:induction false} ForwardedComplete(calls: seq<Args>, a: Args)
    requires a in calls && !Dropped(a)
    ensures a in Forwarded(calls)
    decreases |calls|
  {
    var last := calls[|calls| - 1];
    if a != last {
      assert calls == calls[..|calls| - 1] + [last];
      ForwardedComplete(calls[..|calls| - 1], a);
    }
  }

  /** A missing or nullish first argument gives the empty message, which is never dropped. */
  lemma EmptyMessageKept(args: Args)
    requires |args| == 0 || args[0].Nullish?
    ensures Message(args) == ""
    ensures !Dropped(args)
  {
    forall p | p in ConsolePatterns ensures !Includes("", p) {
      EmptyIncludesNothing(p);
    }
  }

  /** Two of the seven patterns are redundant: the test equals one on the five patterns
      'clipboard', 'bis_skin_checked', 'bis_register', '__processed_' and 'extension'. */
  lemma ConsoleFiveCore(m: string)
    ensures MatchesAny(m, ConsolePatterns) <==> MatchesAny(m, CorePatterns)
  {
    if MatchesAny(m, ConsolePatterns) {
      var p :| p in ConsolePatterns && Includes(m, p);
      if p == "Copy to clipboard is not supported" {
        ClipboardMessageIncludesClipboard();
        IncludesTransitive(m, p, "clipboard");
        assert "clipboard" in CorePatterns;
      } else if p == "browser extension" {
        BrowserExtensionIncludesExtension();
        IncludesTransitive(m, p, "extension");
        assert "extension" in CorePatterns;
      } else {
        assert p in CorePatterns;
      }
    }
    if MatchesAny(m, CorePatterns) {
      var p :| p in CorePatterns && Includes(m, p);
      assert p in ConsolePatterns;
    }
  }

  /** The rejection test reduces to 'clipboard' or 'browser extension'. */
  lemma RejectionTwoCore(reason: JsValue)
    ensures RejectionSuppressed(reason)
        <==> Includes(TextOf(reason), "clipboard") || Includes(TextOf(reason), "browser extension")
  {
    if Includes(TextOf(reason), "Copy to clipboard is not supported") {
      ClipboardMessageIncludesClipboard();
      IncludesTransitive(TextOf(reason), "Copy to clipboard is not supported", "clipboard");
    }
  }

  /** Every rejection reason the listener suppresses would also be dropped by the
      `console.error` wrapper, were it logged as the first argument. */
  lemma RejectionImpliesConsoleDrop(reason: JsValue)
    requires RejectionSuppressed(reason)
    ensures Dropped([reason])
  {
    RejectionTwoCore(reason);
    assert Message([reason]) == TextOf(reason);
  }

  /** The converse fails: the wrapper drops 'bis_register', the listener lets it through. */
  lemma RejectionNarrowerThanConsole()
    ensures Dropped([Value("bis_register")])
    ensures !RejectionSuppressed(Value("bis_register"))
  {
    var s := "bis_register";
    IncludesSelf(s);
    assert Message([Value(s)]) == s;
    assert s in ConsolePatterns;
    assert TextOf(Value(s)) == s;
    forall p | p in RejectionPatterns ensures !Includes(s, p) {
      assert p[0] !in s || |p| > |s|;
      if p[0] !in s {
        FirstCharAbsent(s, p);
      }
    }
  }

  lemma ClipboardMessageIncludesClipboard()
    ensures Includes("Copy to clipboard is not supported", "clipboard")
  {
    IncludesMiddle("Copy to ", "clipboard", " is not supported");
    assert "Copy to " + "clipboard" + " is not supported" == "Copy to clipboard is not supported";
  }

  lemma BrowserExtensionIncludesExtension()
    ensures Includes("browser extension", "extension")
  {
    IncludesMiddle("browser ", "extension", "");
    assert "browser " + "extension" + "" == "browser extension";
  }

  // ---------------------------------------------------------------------------------------
  // The MutationObserver callback

  datatype MutationKind = AttributesChanged | ChildListChanged | CharacterDataChanged

  /** A `MutationRecord`: its `type` and its `target`. */
  datatype Mutation = Mutation(kind: MutationKind, target: ElementId)

  /** The effect of the callback on the document for one record. */
  function AfterMutation(elements: map<ElementId, Attributes>, m: Mutation): map<ElementId, Attributes>
  {
    if m.kind == AttributesChanged && m.target in elements
    then elements[m.target := Without(elements[m.target], ObservedAttributes)]
    else elements
  }

  /** The effect of the callback for a batch of records, taken in order. */
  function AfterMutations(elements: map<ElementId, Attributes>, ms: seq<Mutation>): map<ElementId, Attributes>
    decreases |ms|
  {
    if ms == [] then elements
    else AfterMutation(AfterMutations(elements, ms[..|ms| - 1]), ms[|ms| - 1])
  }

  /** The elements that some attribute record of the batch targets. */
  function AttributeTargets(ms: seq<Mutation>): (t: set<ElementId>)
    ensures forall e :: e in t <==> exists i :: 0 <= i < |ms| && ms[i].kind == AttributesChanged && ms[i].target == e
  {
    set i | 0 <= i < |ms| && ms[i].kind == AttributesChanged :: ms[i].target
  }

  /** The document with the observed attributes stripped from the elements in `targets`. */
  function StripTargets(elements: map<ElementId, Attributes>, targets: set<ElementId>): map<ElementId, Attributes>
  {
    map e | e in elements :: if e in targets then Without(elements[e], ObservedAttributes) else elements[e]
  }

  /** The callback, record by record and attribute by attribute, as the nested `forEach` runs it. */
  method ObserverCallback(doc: Document, mutations: seq<Mutation>)
    modifies doc
    ensures doc.elements == AfterMutations(old(doc.elements), mutations)
  {
    for i := 0 to |mutations|
      invariant doc.elements == AfterMutations(old(doc.elements), mutations[..i])
    {
      assert mutations[..i + 1][..i] == mutations[..i];
      var mutation := mutations[i];
      if mutation.kind == AttributesChanged {
        var target := mutation.target;
        ghost var before := doc.elements;
        for j := 0 to |ObservedAttributes|
          invariant doc.elements.Keys == before.Keys
          invariant forall d :: d in before && d != target ==> doc.elements[d] == before[d]
          invariant target in before ==> doc.elements[target] == before[target] - set n | n in ObservedAttributes[..j]
        {
          var attr := ObservedAttributes[j];
          if doc.HasAttribute(target, attr) {
            doc.RemoveAttribute(target, attr);
          }
          assert ObservedAttributes[..j + 1] == ObservedAttributes[..j] + [attr];
        }
        assert ObservedAttributes[..|ObservedAttributes|] == ObservedAttributes;
      }
    }
    assert mutations[..|mutations|] == mutations;
  }

  /** The callback strips exactly the targets of attribute records: closed form of a batch. */
  lemma {:induction false} AfterMutationsClosed(elements: map<ElementId, Attributes>, ms: seq<Mutation>)
    ensures AfterMutations(elements, ms) == StripTargets(elements, AttributeTargets(ms))
    decreases |ms|
  {
    if ms != [] {
      var init := ms[..|ms| - 1];
      var m := ms[|ms| - 1];
      AfterMutationsClosed(elements, init);
      assert AttributeTargets(ms) == AttributeTargets(init) + (if m.kind == AttributesChanged then {m.target} else {}) by {
        forall e ensures e in AttributeTargets(ms) <==> e in AttributeTargets(init) || (m.kind == AttributesChanged && e == m.target) {
          if e in AttributeTargets(ms) {
            var i :| 0 <= i < |ms| && ms[i].kind == AttributesChanged && ms[i].target == e;
            if i < |ms| - 1 { assert init[i] == ms[i]; }
          }
          if e in AttributeTargets(init) {
            var i :| 0 <= i < |init| && init[i].kind == AttributesChanged && init[i].target == e;
            assert ms[i] == init[i];
          }
        }
      }
      if m.kind == AttributesChanged && m.target in elements {
        WithoutIdempotent(elements[m.target], ObservedAttributes);
      }
    }
  }

  /** After the callback, a targeted element carries none of the observed attributes and keeps
      all its other attributes; an element no attribute record targets is unchanged. */
  lemma ObserverEffect(elements: map<ElementId, Attributes>, ms: seq<Mutation>, e: ElementId)
    requires e in elements
    ensures var after := AfterMutations(elements, ms);
      && e in after
      && (e in AttributeTargets(ms) ==>
            (forall n :: n in ObservedAttributes ==> n !in after[e])
            && (forall n :: n !in ObservedAttributes ==>
                  (n in after[e] <==> n in elements[e]) && (n in after[e] ==> after[e][n] == elements[e][n])))
      && (e !in AttributeTargets(ms) ==> after[e] == elements[e])
  {
    AfterMutationsClosed(elements, ms);
  }

  /** The callback neither adds nor removes elements. */
  lemma ObserverKeepsElements(elements: map<ElementId, Attributes>, ms: seq<Mutation>)
    ensures AfterMutations(elements, ms).Keys == elements.Keys
  {
    AfterMutationsClosed(elements, ms);
  }

  /** A record that is not an attribute change leaves the document as it is. */
  lemma NonAttributeMutationNoop(elements: map<ElementId, Attributes>, m: Mutation)
    requires m.kind != AttributesChanged
    ensures AfterMutations(elements, [m]) == elements
  {
    assert [m][..0] == [];
  }

  /** Running the callback again on records for elements it already cleaned (the removals it
      makes are themselves observed attribute mutations) changes nothing: in particular
      running it twice on the same batch is running it once. */
  lemma ObserverIdempotent(elements: map<ElementId, Attributes>, ms: seq<Mutation>, again: seq<Mutation>)
    requires AttributeTargets(again) <= AttributeTargets(ms)
    ensures AfterMutations(AfterMutations(elements, ms), again) == AfterMutations(elements, ms)
  {
    var once := AfterMutations(elements, ms);
    AfterMutationsClosed(elements, ms);
    AfterMutationsClosed(once, again);
    forall e | e in once && e in AttributeTargets(again)
      ensures Without(once[e], ObservedAttributes) == once[e]
    {
      WithoutIdempotent(elements[e], ObservedAttributes);
    }
  }
}
