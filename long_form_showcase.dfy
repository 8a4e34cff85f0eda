/** The long-form section (components/LongFormShowcase.tsx): the scroll handler that schedules a
    staggered reveal of the header and the video cards, the reveal itself, and the creator line
    under each card. Timeouts are a list of (delay, element) pairs waiting to fire; styles are a
    map from element to its opacity, transform and transition delay. */
module LongFormShowcase {
  import opened Js
  import opened Dom
  import ClientUtils

  /** The effective style of an element, as far as the reveal is concerned. */
  datatype Style = Style(opacity: string, transform: string, transitionDelayMs: nat)

  /** What the reveal timeouts write: `opacity = '1'`, `transform = 'translateY(0)'`. */
  function Reveal(s: Style): (r: Style)
    ensures r.opacity == "1" && r.transform == "translateY(0)"
    ensures r.transitionDelayMs == s.transitionDelayMs
  {
    s.(opacity := "1", transform := "translateY(0)")
  }

  predicate IsRevealed(s: Style)
  {
    s.opacity == "1" && s.transform == "translateY(0)"
  }

  /** The rendered styles: the header hidden 30px down, card `i` hidden 50px down with a
      transition delay of 200·i ms (`opacity-0` comes from the class list). */
  const HiddenHeader: Style := Style("0", "translateY(30px)", 0)

  function HiddenCard(i: nat): Style
  {
    Style("0", "translateY(50px)", i * 200)
  }

  /** The bounding box of `#longform`, in viewport coordinates. */
  datatype Rect = Rect(top: real, bottom: real)

  /** What the handler finds: the section's box and the elements its `querySelector` calls
      return (`null` for a header element that is absent). */
  datatype Section = Section(rect: Rect, badge: Option<ElementId>, title: Option<ElementId>,
                             subtitle: Option<ElementId>, cards: seq<ElementId>)

  /** A pending `setTimeout`: after `delayMs`, reveal `element`. */
  datatype Timeout = Timeout(delayMs: nat, element: ElementId)

  /** `sectionTop < windowHeight * 0.8 && sectionBottom > 0`. */
  predicate InView(rect: Rect, windowHeight: real)
  {
    rect.top < windowHeight * 0.8 && rect.bottom > 0.0
  }

  /** The same test without a fraction. */
  lemma InViewScaled(rect: Rect, windowHeight: real)
    ensures InView(rect, windowHeight) <==> 5.0 * rect.top < 4.0 * windowHeight && rect.bottom > 0.0
  {
  }

  /** Off the client the height falls back to 0: then the section is in view only while it
      straddles the top edge of the viewport. */
  lemma InViewAtFallbackHeight(rect: Rect)
    ensures InView(rect, 0.0) <==> rect.top < 0.0 < rect.bottom
  {
  }

  function Optional(e: Option<ElementId>, delayMs: nat): seq<Timeout>
  {
    if e.Some? then [Timeout(delayMs, e.value)] else []
  }

  /** Badge at 100 ms, title at 180 ms, subtitle at 260 ms; a missing one is skipped. */
  function HeaderSchedule(sec: Section): seq<Timeout>
  {
    Optional(sec.badge, 100) + Optional(sec.title, 180) + Optional(sec.subtitle, 260)
  }

  /** Card `i` at 800 + 200·i ms. */
  function CardSchedule(cards: seq<ElementId>): (r: seq<Timeout>)
    ensures |r| == |cards|
    ensures forall i :: 0 <= i < |cards| ==> r[i] == Timeout(800 + i * 200, cards[i])
    decreases |cards|
  {
    if cards == [] then []
    else CardSchedule(cards[..|cards| - 1]) + [Timeout(800 + (|cards| - 1) * 200, cards[|cards| - 1])]
  }

  lemma CardScheduleExtend(cards: seq<ElementId>, i: nat)
    requires i < |cards|
    ensures CardSchedule(cards[..i + 1]) == CardSchedule(cards[..i]) + [Timeout(800 + i * 200, cards[i])]
  {
    assert cards[..i + 1][..i] == cards[..i];
  }

  lemma AppendAssoc(a: seq<Timeout>, b: seq<Timeout>, c: seq<Timeout>)
    ensures a + b + c == a + (b + c)
  {
  }

  /** Everything one in-view run of the handler schedules, in the order it schedules it. */
  function RevealSchedule(sec: Section): seq<Timeout>
  {
    HeaderSchedule(sec) + CardSchedule(sec.cards)
  }

  /** Delays rise strictly through the schedule: header before cards, cards in declared order. */
  lemma ScheduleStrictlyIncreasing(sec: Section)
    ensures var s := RevealSchedule(sec);
      forall i, j :: 0 <= i < j < |s| ==> s[i].delayMs < s[j].delayMs
  {
    var h := HeaderSchedule(sec);
    var c := CardSchedule(sec.cards);
    assert forall i :: 0 <= i < |h| ==> h[i].delayMs <= 260;
    assert forall i, j :: 0 <= i < j < |h| ==> h[i].delayMs < h[j].delayMs;
    assert forall i :: 0 <= i < |c| ==> c[i].delayMs == 800 + i * 200;
  }

  /** Each present header element is scheduled at its own delay, each card at 800 + 200·i,
      and nothing else is scheduled. */
  lemma ScheduleContents(sec: Section)
    ensures var s := RevealSchedule(sec);
      && (sec.badge.Some? ==> Timeout(100, sec.badge.value) in s)
      && (sec.title.Some? ==> Timeout(180, sec.title.value) in s)
      && (sec.subtitle.Some? ==> Timeout(260, sec.subtitle.value) in s)
      && (sec.badge.None? ==> forall t :: t in s ==> t.delayMs != 100)
      && (sec.title.None? ==> forall t :: t in s ==> t.delayMs != 180)
      && (sec.subtitle.None? ==> forall t :: t in s ==> t.delayMs != 260)
      && |s| == |HeaderSchedule(sec)| + |sec.cards|
      && |HeaderSchedule(sec)| <= 3
      && (forall i :: 0 <= i < |sec.cards| ==> s[|HeaderSchedule(sec)| + i] == Timeout(800 + i * 200, sec.cards[i]))
  {
    var s := RevealSchedule(sec);
    var h := HeaderSchedule(sec);
    var c := CardSchedule(sec.cards);
    assert forall i :: 0 <= i < |c| ==> c[i].delayMs >= 800;
    assert forall t :: t in s ==> t in h || t in c;
  }

  /** The styles after the timeout for `e` has fired. */
  function RevealElement(styles: map<ElementId, Style>, e: ElementId): map<ElementId, Style>
  {
    if e in styles then styles[e := Reveal(styles[e])] else styles
  }

  /** The styles after the timeouts `ts` have fired, in that order. */
  function FireAll(styles: map<ElementId, Style>, ts: seq<Timeout>): map<ElementId, Style>
    decreases |ts|
  {
    if ts == [] then styles else FireAll(RevealElement(styles, ts[0].element), ts[1..])
  }

  function Targets(ts: seq<Timeout>): set<ElementId>
  {
    set t | t in ts :: t.element
  }

  /** Reveal every element of `es`, leave every other style alone. */
  function RevealSet(styles: map<ElementId, Style>, es: set<ElementId>): map<ElementId, Style>
  {
    map e | e in styles :: if e in es then Reveal(styles[e]) else styles[e]
  }

  /** Firing timeouts reveals exactly their elements, whatever the order and multiplicity. */
  lemma {:induction false} FireAllIsRevealSet(styles: map<ElementId, Style>, ts: seq<Timeout>)
    ensures FireAll(styles, ts) == RevealSet(styles, Targets(ts))
    decreases |ts|
  {
    if ts == [] {
      assert RevealSet(styles, {}) == styles;
    } else {
      var e := ts[0].element;
      FireAllIsRevealSet(RevealElement(styles, e), ts[1..]);
      assert Targets(ts) == {e} + Targets(ts[1..]) by {
        assert forall t :: t in ts <==> t == ts[0] || t in ts[1..];
      }
    }
  }

  /** Two runs whose timeouts name the same elements end in the same styles, in any order. */
  lemma FiringOrderIrrelevant(styles: map<ElementId, Style>, ts1: seq<Timeout>, ts2: seq<Timeout>)
    requires Targets(ts1) == Targets(ts2)
    ensures FireAll(styles, ts1) == FireAll(styles, ts2)
  {
    FireAllIsRevealSet(styles, ts1);
    FireAllIsRevealSet(styles, ts2);
  }

  /** There is no "already revealed" guard: a second in-view run schedules everything again,
      but the styles end up as after one run. */
  lemma RerunIdempotent(styles: map<ElementId, Style>, sec: Section)
    ensures FireAll(FireAll(styles, RevealSchedule(sec)), RevealSchedule(sec)) == FireAll(styles, RevealSchedule(sec))
    ensures FireAll(styles, RevealSchedule(sec) + RevealSchedule(sec)) == FireAll(styles, RevealSchedule(sec))
  {
    var s := RevealSchedule(sec);
    FireAllIsRevealSet(styles, s);
    FireAllIsRevealSet(FireAll(styles, s), s);
    FireAllIsRevealSet(styles, s + s);
    assert Targets(s + s) == Targets(s) by {
      assert forall t :: t in s + s <==> t in s;
    }
  }

  /** Firing never hides an element again, changes only opacity and transform, and only of
      the elements it names. */
  lemma FireAllEffect(styles: map<ElementId, Style>, ts: seq<Timeout>, e: ElementId)
    requires e in styles
    ensures var after := FireAll(styles, ts);
      && after.Keys == styles.Keys
      && (IsRevealed(styles[e]) ==> IsRevealed(after[e]))
      && (e in Targets(ts) ==> after[e] == Reveal(styles[e]))
      && (e !in Targets(ts) ==> after[e] == styles[e])
  {
    FireAllIsRevealSet(styles, ts);
  }

  /** A hidden element that a reveal timeout names goes from opacity 0 to 1 and from its offset
      to `translateY(0)`, keeping its transition delay. */
  lemma HiddenToRevealed(i: nat)
    ensures Reveal(HiddenHeader) == Style("1", "translateY(0)", 0)
    ensures Reveal(HiddenCard(i)) == Style("1", "translateY(0)", i * 200)
  {
  }

  /** The section's state on the page: element styles and the timeouts not yet fired. */
  class Showcase {
    var styles: map<ElementId, Style>
    var timers: seq<Timeout>

    constructor (styles: map<ElementId, Style>)
      ensures this.styles == styles && timers == []
    {
      this.styles := styles;
      timers := [];
    }

    /** `handleScroll`: find `#longform` through `safeDocumentAccess`, read the window height
        through `safeWindowAccess` (0 on failure), and if the section is in view schedule the
        reveals. Styles are not touched here. */
    method HandleScroll(isClient: bool, lookup: ClientUtils.Outcome<Option<Section>>,
                        innerHeight: ClientUtils.Outcome<real>)
      modifies this`timers
      ensures var found := ClientUtils.SafeDocumentAccess(isClient, lookup, None).value;
              var height := ClientUtils.SafeWindowAccess(isClient, innerHeight, 0.0).value;
        timers == old(timers) + (if found.Some? && InView(found.value.rect, height)
                                 then RevealSchedule(found.value) else [])
    {
      var longformSection := ClientUtils.SafeDocumentAccess(isClient, lookup, None).value;
      if longformSection.None? {
        return;
      }
      var section := longformSection.value;
      var windowHeight := ClientUtils.SafeWindowAccess(isClient, innerHeight, 0.0).value;
      if InView(section.rect, windowHeight) {
        if section.badge.Some? {
          timers := timers + [Timeout(100, section.badge.value)];
        }
        if section.title.Some? {
          timers := timers + [Timeout(180, section.title.value)];
        }
        if section.subtitle.Some? {
          timers := timers + [Timeout(260, section.subtitle.value)];
        }
        assert timers == old(timers) + HeaderSchedule(section);
        ScheduleCards(section.cards);
        AppendAssoc(old(timers), HeaderSchedule(section), CardSchedule(section.cards));
      }
    }

    /** The `forEach` over `.video-card`: card `index` at 800 + 200·index ms. */
    method ScheduleCards(cards: seq<ElementId>)
      modifies this`timers
      ensures timers == old(timers) + CardSchedule(cards)
    {
      for index := 0 to |cards|
        invariant timers == old(timers) + CardSchedule(cards[..index])
      {
        CardScheduleExtend(cards, index);
        timers := timers + [Timeout(800 + index * 200, cards[index])];
      }
      assert cards[..|cards|] == cards;
    }

    /** The pending timeout at `k` fires: its element is revealed and the timeout is gone. */
    method FireTimeout(k: nat)
      requires k < |timers|
      modifies this
      ensures styles == RevealElement(old(styles), old(timers)[k].element)
      ensures timers == old(timers)[..k] + old(timers)[k + 1..]
    {
      var t := timers[k];
      if t.element in styles {
        styles := styles[t.element := Reveal(styles[t.element])];
      }
      timers := timers[..k] + timers[k + 1..];
    }
  }

  // ---------------------------------------------------------------------------------------
  // The creator line under a card

  datatype Video = Video(wistiaId: string, title: Option<string>, thumb: Option<string>,
                         creator: Option<string>, creatorPhoto: Option<string>, job: Option<string>)

  /** What the creator line shows: the name, the photo path and the job line. */
  datatype CreatorLine = CreatorLine(name: string, photo: string, job: string)

  const PlaceholderPhoto: string := "/placeholder-user.jpg"
  const DefaultJob: string := "Creator"

  /** `{v.creator && ...}` with `v.creatorPhoto || "/placeholder-user.jpg"` and
      `v.job || "Creator"`. */
  function CreatorInfo(v: Video): (r: Option<CreatorLine>)
    ensures r.Some? <==> Truthy(v.creator)
    ensures r.Some? ==> r.value.name == v.creator.value
    ensures r.Some? ==> r.value.photo == (if Truthy(v.creatorPhoto) then v.creatorPhoto.value else PlaceholderPhoto)
    ensures r.Some? ==> r.value.job == (if Truthy(v.job) then v.job.value else DefaultJob)
  {
    if Truthy(v.creator)
    then Some(CreatorLine(v.creator.value, OrElse(v.creatorPhoto, PlaceholderPhoto), OrElse(v.job, DefaultJob)))
    else None
  }

  /** The line never shows an empty photo path or job. */
  lemma CreatorLineNonEmpty(v: Video)
    requires Truthy(v.creator)
    ensures CreatorInfo(v).value.photo != "" && CreatorInfo(v).value.job != ""
  {
  }

  /** The four long-form videos of the page. */
  const Videos: seq<Video> := [
    Video("1kqkfbf2rd", Some("Finance"), Some("/v1.png"), Some("A. Chowdhary"), Some("/A%20chowdhary.jpg"), Some("Youtuber")),
    Video("k1lbncd739", Some("Community"), Some("/v2.png"), Some("Ro-connect"), Some("/discord.jpg"), Some("Discord Server")),
    Video("8914b1xoti", Some("SEO"), Some("/v3.png"), Some("Kevin Durov"), Some("/kevin.jpg"), Some("VSL")),
    Video("7jcncibxqi", Some("Productivity"), Some("/v4.png"), Some("Wang Wei"), Some("/zhang.jpg"), Some("Youtuber"))
  ]

  /** Every video of the page names its creator, photo and job, so no fallback is shown. */
  lemma PageVideosShowOwnCreator()
    ensures forall i :: 0 <= i < |Videos| ==>
      CreatorInfo(Videos[i]) == Some(CreatorLine(Videos[i].creator.value, Videos[i].creatorPhoto.value, Videos[i].job.value))
  {
  }
}
