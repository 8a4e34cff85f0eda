/** The portfolio carousel of the home page (app/page.tsx): the slide index, the autoplay flag,
    the 5000 ms autoplay interval held in a ref, and the 3000 ms "resume autoplay" timeouts.
    Timers are not clocks here: a live interval is a handle in `live`, a pending timeout is a
    count, and the timer runtime firing one is a method call. */
module HomePage {
  import opened Js

  /** `totalSlides`. */
  const TotalSlides: int := 17

  /** `thumbnails`: the slide images, one per pagination dot. */
  const Thumbnails: seq<string> := [
    "/t1.png", "/t2.png", "/t3.png", "/t4.png", "/t5.jpeg", "/t6.jpeg", "/t7.jpeg", "/t8.jpeg",
    "/t9.jpeg", "/t10.jpeg", "/t11.jpeg", "/t12.jpeg", "/t13.jpeg", "/t14.jpeg", "/t15.jpeg",
    "/t16.jpg", "/17.png"
  ]

  /** Autoplay period and quiet period, in milliseconds. */
  const AutoplayIntervalMs: int := 5000
  const ResumeDelayMs: int := 3000

  predicate InRange(s: int)
  {
    0 <= s < TotalSlides
  }

  /** The 'next' arrow: `prev === totalSlides - 1 ? 0 : prev + 1`. */
  function Next(s: int): (r: int)
    ensures InRange(s) ==> InRange(r) && r == (s + 1) % TotalSlides
  {
    if s == TotalSlides - 1 then 0 else s + 1
  }

  /** The 'prev' arrow: `prev === 0 ? totalSlides - 1 : prev - 1`. */
  function Prev(s: int): (r: int)
    ensures InRange(s) ==> InRange(r) && r == (s - 1) % TotalSlides
  {
    if s == 0 then TotalSlides - 1 else s - 1
  }

  /** The autoplay tick: `(prev + 1) % totalSlides` with JavaScript's `%`. */
  function Advance(s: int): (r: int)
    ensures InRange(s) ==> r == Next(s)
    ensures s >= -1 ==> InRange(r)
    ensures s < -1 ==> -TotalSlides < r <= 0 && (s + 1 - r) % TotalSlides == 0
  {
    JsRem(s + 1, TotalSlides)
  }

  /** The two arrows wrap at the ends. */
  lemma WrapAtEnds()
    ensures Next(TotalSlides - 1) == 0 && Prev(0) == TotalSlides - 1
    ensures forall s :: 0 <= s < TotalSlides - 1 ==> Next(s) == s + 1
    ensures forall s :: 0 < s < TotalSlides ==> Prev(s) == s - 1
  {
  }

  /** On a slide index, 'prev' undoes 'next' and 'next' undoes 'prev'. */
  lemma NextPrevInverse(s: int)
    requires InRange(s)
    ensures Prev(Next(s)) == s && Next(Prev(s)) == s
  {
  }

  /** Off the slide range they do not: index 17, which an unclamped `goToSlide` can set,
      goes to 16 and back to 0. */
  lemma NextPrevNotInverseOffRange()
    ensures Next(Prev(TotalSlides)) == 0 != TotalSlides
  {
  }

  /** `k` consecutive 'next' presses. */
  function NextTimes(s: int, k: nat): int
  {
    if k == 0 then s else Next(NextTimes(s, k - 1))
  }

  /** `k` consecutive autoplay ticks. */
  function AdvanceTimes(s: int, k: nat): int
  {
    if k == 0 then s else Advance(AdvanceTimes(s, k - 1))
  }

  lemma {:induction false} NextTimesIsModular(s: int, k: nat)
    requires InRange(s)
    ensures NextTimes(s, k) == (s + k) % TotalSlides
  {
    if k > 0 {
      NextTimesIsModular(s, k - 1);
    }
  }

  lemma {:induction false} AdvanceTimesIsNextTimes(s: int, k: nat)
    requires InRange(s)
    ensures AdvanceTimes(s, k) == NextTimes(s, k)
  {
    if k > 0 {
      AdvanceTimesIsNextTimes(s, k - 1);
      NextTimesIsModular(s, k - 1);
    }
  }

  /** Seventeen 'next' presses, or seventeen ticks, come back to the starting slide. */
  lemma FullCycle(s: int)
    requires InRange(s)
    ensures NextTimes(s, TotalSlides) == s
    ensures AdvanceTimes(s, TotalSlides) == s
  {
    NextTimesIsModular(s, TotalSlides);
    assert (s + TotalSlides) % TotalSlides == s;
    AdvanceTimesIsNextTimes(s, TotalSlides);
  }

  /** What can move the index: the arrows, a pagination dot, the autoplay interval. */
  datatype Input = PrevArrow | NextArrow | Dot(index: int) | AutoTick

  function Step(s: int, input: Input): int
  {
    match input
    case PrevArrow => Prev(s)
    case NextArrow => Next(s)
    case Dot(i) => i
    case AutoTick => Advance(s)
  }

  function Run(s: int, inputs: seq<Input>): int
    decreases |inputs|
  {
    if inputs == [] then s else Run(Step(s, inputs[0]), inputs[1..])
  }

  /** The dots are rendered from `thumbnails.map((_, index) => ...)`, so a dot passes an index of
      `thumbnails`. */
  predicate FromPage(input: Input)
  {
    input.Dot? ==> 0 <= input.index < |Thumbnails|
  }

  /** Starting on a slide, the index stays a slide index under any sequence of arrow presses,
      dot clicks and autoplay ticks the page can produce. */
  lemma {:induction false} RunStaysInRange(s: int, inputs: seq<Input>)
    requires InRange(s)
    requires forall i :: 0 <= i < |inputs| ==> FromPage(inputs[i])
    ensures InRange(Run(s, inputs))
    decreases |inputs|
  {
    if inputs != [] {
      assert FromPage(inputs[0]);
      assert |Thumbnails| == TotalSlides;
      RunStaysInRange(Step(s, inputs[0]), inputs[1..]);
    }
  }

  /** `goToSlide` does not clamp: a dot index of 17 leaves the slide range, and 'next' then
      keeps counting up. */
  lemma UnclampedDotEscapes()
    ensures Run(0, [Dot(TotalSlides), NextArrow]) == TotalSlides + 1
    ensures !InRange(Run(0, [Dot(TotalSlides), NextArrow]))
  {
    assert [Dot(TotalSlides), NextArrow][1..] == [NextArrow];
    assert Run(0, [Dot(TotalSlides), NextArrow]) == Run(TotalSlides, [NextArrow]);
    assert [NextArrow][1..] == [];
    assert Run(TotalSlides, [NextArrow]) == Run(TotalSlides + 1, []);
  }

  /** Slides shown side by side at a window width: the breakpoints 768 and 1024. */
  function Columns(width: int): int
  {
    if width >= 1024 then 3 else if width >= 768 then 2 else 1
  }

  /** `slidesVisible`, computed as the source does, by successive assignments. */
  method SlidesVisible(width: int) returns (slidesVisible: int)
    ensures slidesVisible == Columns(width)
    ensures 1 <= slidesVisible <= 3
  {
    slidesVisible := 1;
    if width >= 768 {
      slidesVisible := 2;
    }
    if width >= 1024 {
      slidesVisible := 3;
    }
  }

  /** A wider window never shows fewer slides. */
  lemma ColumnsMonotone(w1: int, w2: int)
    requires w1 <= w2
    ensures Columns(w1) <= Columns(w2)
  {
  }

  /** The carousel state of `HomePage`. */
  class Carousel {
    /** `currentSlide` and `isAutoScrolling`. */
    var currentSlide: int
    var isAutoScrolling: bool
    /** `autoScrollInterval.current`: the handle it holds, `None` for `null`. */
    var intervalRef: Option<nat>
    /** Intervals registered with the timer runtime and not cleared. */
    var live: set<nat>
    /** The handle the next `setInterval` returns. */
    var nextHandle: nat
    /** 3000 ms timeouts scheduled and not yet fired. */
    var pendingResumes: nat
    /** The `isAutoScrolling` the autoplay effect last ran with (its dependency list). */
    var effectDeps: bool
    var mounted: bool

    function RefSet(): set<nat>
      reads this
    {
      if intervalRef.Some? then {intervalRef.value} else {}
    }

    /** Every live interval is the one the ref holds; while mounted, one runs exactly when the
        effect last saw autoplay on; after unmount none runs. */
    ghost predicate Valid()
      reads this
    {
      && live <= RefSet()
      && (forall h :: h in live ==> h < nextHandle)
      && (intervalRef.Some? ==> intervalRef.value < nextHandle)
      && (mounted ==> (live != {} <==> effectDeps))
      && (!mounted ==> live == {})
    }

    /** Mount: the initial state, then the effects in order. The autoplay effect starts the
        interval; the mount effect sets `isAutoScrolling` to the value it already has. */
    constructor ()
      ensures Valid()
      ensures currentSlide == 0 && isAutoScrolling && mounted && effectDeps
      ensures intervalRef == Some(0) && live == {0} && nextHandle == 1
      ensures pendingResumes == 0
    {
      currentSlide, isAutoScrolling := 0, true;
      intervalRef, live, nextHandle := None, {}, 0;
      pendingResumes := 0;
      mounted, effectDeps := true, true;
      new;
      // first run of the autoplay effect: there is no cleanup yet
      StartAutoScroll();
      effectDeps := isAutoScrolling;
    }

    /** `startAutoScroll`: clear the interval the ref holds, if any, then register a new one. */
    method StartAutoScroll()
      modifies this
      ensures intervalRef == Some(old(nextHandle)) && nextHandle == old(nextHandle) + 1
      ensures live == old(live) - old(RefSet()) + {old(nextHandle)}
      ensures currentSlide == old(currentSlide) && isAutoScrolling == old(isAutoScrolling)
      ensures pendingResumes == old(pendingResumes) && effectDeps == old(effectDeps) && mounted == old(mounted)
    {
      if intervalRef.Some? {
        live := live - {intervalRef.value};
      }
      intervalRef := Some(nextHandle);
      live := live + {nextHandle};
      nextHandle := nextHandle + 1;
    }

    /** `stopAutoScroll`: clear the interval the ref holds and null the ref. */
    method StopAutoScroll()
      modifies this
      ensures intervalRef == None && live == old(live) - old(RefSet())
      ensures nextHandle == old(nextHandle)
      ensures currentSlide == old(currentSlide) && isAutoScrolling == old(isAutoScrolling)
      ensures pendingResumes == old(pendingResumes) && effectDeps == old(effectDeps) && mounted == old(mounted)
    {
      if intervalRef.Some? {
        live := live - {intervalRef.value};
        intervalRef := None;
      }
    }

    /** The autoplay effect's cleanup: clear the interval the ref holds, but leave the ref set. */
    method Cleanup()
      modifies this`live
      ensures live == old(live) - RefSet()
    {
      if intervalRef.Some? {
        live := live - {intervalRef.value};
      }
    }

    /** A commit after a render: when `isAutoScrolling` differs from what the autoplay effect last
        ran with, its cleanup runs, then its body starts or stops autoplay. */
    method Effect()
      requires Valid()
      modifies this
      ensures Valid()
      ensures mounted == old(mounted) && currentSlide == old(currentSlide)
      ensures isAutoScrolling == old(isAutoScrolling) && pendingResumes == old(pendingResumes)
      ensures mounted ==> effectDeps == isAutoScrolling && (live != {} <==> isAutoScrolling)
      ensures !mounted || old(effectDeps) == isAutoScrolling ==> live == old(live) && intervalRef == old(intervalRef)
    {
      if mounted && isAutoScrolling != effectDeps {
        Cleanup();
        if isAutoScrolling {
          StartAutoScroll();
        } else {
          StopAutoScroll();
        }
        effectDeps := isAutoScrolling;
      }
    }

    /** The arrows: autoplay off, move by one with wrap-around, one more resume timeout.
        Earlier timeouts are not cancelled. */
    method Navigate(forward: bool)
      requires Valid() && mounted
      modifies this`currentSlide, this`isAutoScrolling, this`pendingResumes
      ensures Valid()
      ensures currentSlide == if forward then Next(old(currentSlide)) else Prev(old(currentSlide))
      ensures !isAutoScrolling && pendingResumes == old(pendingResumes) + 1
    {
      isAutoScrolling := false;
      if !forward {
        currentSlide := Prev(currentSlide);
      } else {
        currentSlide := Next(currentSlide);
      }
      pendingResumes := pendingResumes + 1;
    }

    /** `goToSlide(index)`: like an arrow, but the index is taken as given, without clamping. */
    method GoTo(index: int)
      requires Valid() && mounted
      modifies this`currentSlide, this`isAutoScrolling, this`pendingResumes
      ensures Valid()
      ensures currentSlide == index
      ensures !isAutoScrolling && pendingResumes == old(pendingResumes) + 1
    {
      isAutoScrolling := false;
      currentSlide := index;
      pendingResumes := pendingResumes + 1;
    }

    /** The live interval `h` fires: the index advances, autoplay state is untouched. */
    method Tick(h: nat)
      requires Valid() && h in live
      modifies this`currentSlide
      ensures Valid()
      ensures currentSlide == Advance(old(currentSlide))
    {
      currentSlide := Advance(currentSlide);
    }

    /** One pending resume timeout fires and sets `isAutoScrolling` to true (a state update on an
        unmounted component does nothing). */
    method ResumeFires()
      requires Valid() && pendingResumes > 0
      modifies this`isAutoScrolling, this`pendingResumes
      ensures Valid()
      ensures pendingResumes == old(pendingResumes) - 1
      ensures isAutoScrolling == (old(isAutoScrolling) || mounted)
    {
      pendingResumes := pendingResumes - 1;
      if mounted {
        isAutoScrolling := true;
      }
    }

    /** Unmount: the autoplay effect's cleanup runs for the last time; no interval is left. */
    method Unmount()
      requires Valid() && mounted
      modifies this
      ensures Valid()
      ensures !mounted && live == {}
      ensures currentSlide == old(currentSlide) && pendingResumes == old(pendingResumes)
    {
      Cleanup();
      mounted := false;
    }
  }

  /** At most one autoplay interval is ever live. */
  lemma AtMostOneInterval(c: Carousel)
    requires c.Valid()
    ensures |c.live| <= 1
  {
    if h :| h in c.live {
      assert c.live == {h};
    }
  }

  /** A scenario: go to the last slide, press 'next', and the first slide shows;
      autoplay is off until the effect and the resume timeouts run. */
  method GoToLastThenNext() returns (slide: int, resumes: nat)
    ensures slide == 0 && resumes == 2
  {
    var c := new Carousel();
    c.GoTo(TotalSlides - 1);
    c.Effect();
    c.Navigate(true);
    c.Effect();
    assert c.live == {};
    slide, resumes := c.currentSlide, c.pendingResumes;
  }

  /** Two quick arrow presses leave two resume timeouts: the first to fire turns autoplay back
      on, and the effect restarts the interval, while the second is still pending. */
  method ResumesStack() returns (autoplay: bool, running: nat, stillPending: nat)
    ensures autoplay && running == 1 && stillPending == 1
  {
    var c := new Carousel();
    c.Navigate(true);
    c.Effect();
    c.Navigate(true);
    c.ResumeFires();
    c.Effect();
    AtMostOneInterval(c);
    autoplay, running, stillPending := c.isAutoScrolling, |c.live|, c.pendingResumes;
  }
}
