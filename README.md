# Adios Studios home page logic, modelled in Dafny

The site is a Next.js marketing page. Most of it is markup. This project models and proves the page's five pieces of real logic.

- **Portfolio carousel** (`app/page.tsx`). This is the `HomePage` state:
  - `currentSlide` over the 17 thumbnails and the `isAutoScrolling` flag;
  - the 5000 ms autoplay interval held in a ref;
  - the 3000 ms "resume autoplay" timeouts queued by every manual move;
  - the autoplay effect;
  - the `slidesVisible` breakpoint choice.

  Module `HomePage`, file `home_page.dfy`. Timers are abstract: interval handles are numbers and pending resumes are a counter.
- **Browser-extension noise filter** (`lib/error-suppression.ts`). Module `ErrorSuppression`. It has three parts:
  - the `console.error` wrapper, as a filter over a log of calls;
  - the `unhandledrejection` test;
  - the `MutationObserver` callback that strips three extension attributes. It runs as nested loops over a `Document` object.
- **Client helpers** (`lib/client-utils.ts`). Module `ClientUtils`.
  - `safeWindowAccess` and `safeDocumentAccess` are pure functions. The callback's outcome (it returns or it throws) is a parameter.
  - `cleanBrowserExtensionAttributes` is a method that loops over the document.
- **Reel cards** (`components/ReelShowcase.tsx`). Module `ReelShowcase`. It covers:
  - the Vimeo thumbnail rewrite `/_[0-9]+x[0-9]+\.(jpg|png)$/i → _1280.$1`. It is written as a backward scan and proved equal to a declarative reading of the pattern;
  - the thumbnail choice;
  - the `ReelCard` class with its play, mute and pause state and the log of messages posted to the player;
  - the iframe URL.
- **Long-form reveal** (`components/LongFormShowcase.tsx`). Module `LongFormShowcase`. It covers:
  - `handleScroll`'s in-view test;
  - the reveal schedule as a list of (delay, element) timeouts;
  - the style update those timeouts perform, with styles as a map from element to style;
  - the creator-line fallbacks.

Shared modules:
- `Js`: JavaScript's `Option`, truthiness, `||` fallback and truncating `%`.
- `Text`: a case-sensitive `String.prototype.includes`.
- `Dom`: elements as attribute maps, and a `Document` class whose `removeAttribute` updates them in place.

Inputs of the outside world are parameters:
- whether the code runs on the client;
- the outcome of a callback or a fetch;
- the window size and the section's bounding box;
- whether an iframe has a content window.

## Model

| member | source | states |
|---|---|---|
| Js.OrElse | components/LongFormShowcase.tsx:185 | `a \|\| b` on an optional string gives `a` when it is a non-empty string, else `b` |
| Js.JsRem | app/page.tsx:48 | JavaScript `%`: the mathematical remainder for a non-negative dividend, a value in (-b, 0] for a negative one |
| Js.JsRemOdd | app/page.tsx:48 | negating the dividend negates the remainder, which with the non-negative case fixes the truncated remainder of every dividend |
| Text.IncludesIff | lib/error-suppression.ts:15-21 | `includes` holds exactly when the pattern occurs at some index of the text |
| Text.IncludesSelf | lib/error-suppression.ts:18 | every string contains itself |
| Text.EmptyIncludesNothing | lib/error-suppression.ts:11 | the empty string contains only the empty pattern |
| Text.IncludesTransitive | lib/error-suppression.ts:15-16 | if m contains p and p contains q, m contains q |
| Text.IncludesMiddle | lib/error-suppression.ts:15 | a + p + b contains p |
| Text.FirstCharAbsent | lib/error-suppression.ts:35-37 | a non-empty pattern whose first character does not occur in the text is not contained in it |
| Text.IncludesExtend | lib/error-suppression.ts:15-21 | containment survives adding text on either side |
| Dom.Without | lib/client-utils.ts:60-64 | an attribute map minus a list of names keeps exactly the other names, with their values |
| Dom.WithoutIdempotent | lib/error-suppression.ts:55-59 | removing the same names twice is removing them once |
| Dom.Document.RemoveAttribute | lib/client-utils.ts:69 | the element loses that one attribute; its other attributes, every other element and the set of elements are unchanged |
| ErrorSuppression.TextOf | lib/error-suppression.ts:32 | `value?.toString() \|\| ''`: the empty string for a nullish value, its text otherwise |
| ErrorSuppression.Message | lib/error-suppression.ts:11 | the message is the text of the first argument, `''` when there is none |
| ErrorSuppression.Forwarded | lib/error-suppression.ts:10-28 | no more calls are forwarded than were made, and each forwarded call was made and is not dropped |
| ErrorSuppression.ForwardedSingle | lib/error-suppression.ts:14-27 | one call is forwarded, with exactly its own arguments, if and only if it is not dropped |
| ErrorSuppression.ForwardedAppend | lib/error-suppression.ts:27 | the filter works call by call: forwarded calls keep their order |
| ErrorSuppression.ForwardedComplete | lib/error-suppression.ts:27 | every call that is not dropped reaches the original `console.error` |
| ErrorSuppression.EmptyMessageKept | lib/error-suppression.ts:11 | a missing or nullish first argument gives `''`, which no pattern matches, so the call is forwarded |
| ErrorSuppression.ConsoleFiveCore | lib/error-suppression.ts:14-22 | the seven-pattern test is equivalent, in both directions, to the five patterns clipboard, bis_skin_checked, bis_register, `__processed_` and extension |
| ErrorSuppression.ClipboardMessageIncludesClipboard | lib/error-suppression.ts:15-16 | 'Copy to clipboard is not supported' contains 'clipboard' |
| ErrorSuppression.BrowserExtensionIncludesExtension | lib/error-suppression.ts:20-21 | 'browser extension' contains 'extension' |
| ErrorSuppression.RejectionTwoCore | lib/error-suppression.ts:32-41 | a rejection is suppressed exactly when its reason contains 'clipboard' or 'browser extension' |
| ErrorSuppression.RejectionImpliesConsoleDrop | lib/error-suppression.ts:14-22 | every reason the rejection listener suppresses would be dropped by the console wrapper |
| ErrorSuppression.RejectionNarrowerThanConsole | lib/error-suppression.ts:18 | the converse fails: 'bis_register' is dropped by the wrapper and not suppressed by the listener |
| ErrorSuppression.AttributeTargets | lib/error-suppression.ts:47-48 | an element is a target exactly when some record of the batch is an attribute record for it |
| ErrorSuppression.ObserverCallback | lib/error-suppression.ts:45-62 | the nested loops leave the document as the record-by-record effect of the batch |
| ErrorSuppression.AfterMutationsClosed | lib/error-suppression.ts:45-62 | a batch strips the three attributes from exactly the targets of its attribute records |
| ErrorSuppression.ObserverEffect | lib/error-suppression.ts:47-59 | a targeted element has none of the three attributes and keeps all others with their values; an element no attribute record targets is unchanged |
| ErrorSuppression.ObserverKeepsElements | lib/error-suppression.ts:45-62 | the callback neither adds nor removes elements |
| ErrorSuppression.NonAttributeMutationNoop | lib/error-suppression.ts:47 | a record of another type changes nothing |
| ErrorSuppression.ObserverIdempotent | lib/error-suppression.ts:55-59 | running the callback again on records for already-cleaned elements changes nothing; in particular twice is once |
| ClientUtils.SafeWindowAccess | lib/client-utils.ts:77-85 | off the client: the fallback, without a warning, whatever the callback would do; on the client: the callback's value, or the fallback with a 'Window access failed:' warning when it throws |
| ClientUtils.SafeDocumentAccess | lib/client-utils.ts:90-98 | the same three cases, with the 'Document access failed:' label |
| ClientUtils.NotClientIgnoresCallback | lib/client-utils.ts:78 | off the client the result does not depend on the callback |
| ClientUtils.DocumentAccessLikeWindowAccess | lib/client-utils.ts:90-97 | both guards give the same value, and warn in the same cases |
| ClientUtils.SafeAccessValue | lib/client-utils.ts:78-84 | the value is the callback's exactly when on the client and the callback returns, the fallback otherwise |
| ClientUtils.CleanBrowserExtensionAttributes | lib/client-utils.ts:56-72 | after the loops the document is the cleaned document on the client, and unchanged off it |
| ClientUtils.RemoveEverywhere | lib/client-utils.ts:67-70 | every element loses that attribute and nothing else; no element is added or removed |
| ClientUtils.CleanAllEffect | lib/client-utils.ts:60-71 | after cleaning, no element has a listed attribute; other attributes keep their values; the elements are the same |
| ClientUtils.CleanAllIdempotent | lib/client-utils.ts:66-71 | cleaning twice is cleaning once |
| ClientUtils.CleanAllIsObserverOnEveryElement | lib/client-utils.ts:60-64 | the helper removes the same three names as the observer callback, and cleaning is the callback applied to every element |
| HomePage.Next | app/page.tsx:28 | on a slide index the result is a slide index, and it is the index plus one modulo 17 |
| HomePage.Prev | app/page.tsx:26 | on a slide index the result is a slide index, and it is the index minus one modulo 17 |
| HomePage.Advance | app/page.tsx:48 | an autoplay tick on a slide index gives the same index as 'next'; from -1 upward it lands in range; below -1 it gives the remainder in (-17, 0] that is congruent to index + 1 modulo 17 |
| HomePage.WrapAtEnds | app/page.tsx:26-28 | 'next' at 16 gives 0, 'prev' at 0 gives 16, and otherwise they move by one |
| HomePage.NextPrevInverse | app/page.tsx:26-28 | on a slide index, 'prev' undoes 'next' and 'next' undoes 'prev' |
| HomePage.NextPrevNotInverseOffRange | app/page.tsx:28 | off the range they do not: at 17, 'prev' then 'next' gives 0 |
| HomePage.NextTimesIsModular | app/page.tsx:26-28 | k presses of 'next' from slide s give (s + k) mod 17 |
| HomePage.AdvanceTimesIsNextTimes | app/page.tsx:48 | k autoplay ticks give the same slide as k presses of 'next' |
| HomePage.FullCycle | app/page.tsx:21 | 17 presses of 'next', or 17 ticks, return to the starting slide |
| HomePage.RunStaysInRange | app/page.tsx:16-48 | from a slide index, any sequence of arrows, ticks and dots the page renders keeps the index in [0, 17) |
| HomePage.UnclampedDotEscapes | app/page.tsx:34-36 | `goToSlide` does not clamp: index 17 followed by 'next' gives 18, outside the range |
| HomePage.SlidesVisible | app/page.tsx:145-147 | the successive assignments give 3 from 1024 px, 2 from 768 px, 1 below, always between 1 and 3 |
| HomePage.ColumnsMonotone | app/page.tsx:145-147 | a wider window never shows fewer slides |
| HomePage.Carousel.constructor | app/page.tsx:16-19 | mount starts at slide 0 with autoplay on and exactly one interval registered |
| HomePage.Carousel.StartAutoScroll | app/page.tsx:41-50 | the interval the ref held is cleared before a new one is registered and stored in the ref |
| HomePage.Carousel.StopAutoScroll | app/page.tsx:52-57 | the ref's interval is cleared and the ref nulled |
| HomePage.Carousel.Cleanup | app/page.tsx:66-70 | the ref's interval is cleared, and the ref keeps its value |
| HomePage.Carousel.Effect | app/page.tsx:59-71 | when `isAutoScrolling` changed, cleanup, then start or stop; afterwards one interval runs exactly when autoplay is on, and the carousel stays valid (at most one interval) |
| HomePage.Carousel.Navigate | app/page.tsx:23-32 | autoplay off, the index moves to next or prev, and exactly one more resume is pending |
| HomePage.Carousel.GoTo | app/page.tsx:34-39 | autoplay off, the index is exactly the argument, and exactly one more resume is pending |
| HomePage.Carousel.Tick | app/page.tsx:46-49 | a live interval moves the index as an autoplay tick does, and nothing else |
| HomePage.Carousel.ResumeFires | app/page.tsx:31 | one pending resume is consumed and turns autoplay on while mounted |
| HomePage.Carousel.Unmount | app/page.tsx:66-70 | after unmount no interval is live |
| HomePage.AtMostOneInterval | app/page.tsx:43-46 | a valid carousel has at most one live interval |
| HomePage.GoToLastThenNext | app/page.tsx:34-38 | slide 16 then 'next' shows slide 0, with two resumes pending |
| HomePage.ResumesStack | app/page.tsx:31 | after two presses, the first resume restarts one interval and the second is still pending |
| ReelShowcase.DigitRunStart | components/ReelShowcase.tsx:19 | the start of the maximal run of digits ending at a position |
| ReelShowcase.DigitRunStartExact | components/ReelShowcase.tsx:19 | any run of digits that cannot be extended to the left is the one found |
| ReelShowcase.SizeSuffixStartSound | components/ReelShowcase.tsx:19 | a match reported by the scan is a match of `_digits x digits . (jpg\|png)` at the end, case-insensitively |
| ReelShowcase.SizeSuffixStartComplete | components/ReelShowcase.tsx:19 | every match of the pattern is the one the scan reports, so the match is unique |
| ReelShowcase.SizeSuffixStartCorrect | components/ReelShowcase.tsx:19 | the scan reports i if and only if the pattern matches from i to the end |
| ReelShowcase.UpscaleMatched | components/ReelShowcase.tsx:19 | a matching URL has its suffix replaced by `_1280.` and the extension as written |
| ReelShowcase.UpscaleUnmatched | components/ReelShowcase.tsx:19 | a URL without the suffix is unchanged |
| ReelShowcase.UpscaleIdempotent | components/ReelShowcase.tsx:19 | upscaling twice is upscaling once |
| ReelShowcase.PlayerSrcMutedFlag | components/ReelShowcase.tsx:89 | the iframe URL carries `muted=1` when muted and `muted=0` when not |
| ReelShowcase.MuteChangesSrc | components/ReelShowcase.tsx:89 | the muted and unmuted iframe URLs differ, so a mute toggle changes the `src` |
| ReelShowcase.SrcAroundFlag | components/ReelShowcase.tsx:89 | the iframe URL is the fixed prefix, the mute flag '1' or '0', then the same remaining parameters and start offset for both states |
| ReelShowcase.PlayerQueryShape | components/ReelShowcase.tsx:89 | the `muted` parameter is '1' exactly when muted, and it follows `autoplay=1&` |
| ReelShowcase.ReelCard.constructor | components/ReelShowcase.tsx:35-40 | no thumb, not playing, muted, not paused, nothing posted or fetched |
| ReelShowcase.ReelCard.LoadThumb | components/ReelShowcase.tsx:42-48 | a custom thumb is used as given with no fetch; otherwise one oEmbed request, and the upscaled URL or null when the request failed or was not ok |
| ReelShowcase.ReelCard.ThumbError | components/ReelShowcase.tsx:58-69 | an image error nulls the thumb and the gradient placeholder shows |
| ReelShowcase.ReelCard.ClickPoster | components/ReelShowcase.tsx:52-55 | the poster, shown only while not playing, starts playback unmuted and the iframe starts loading |
| ReelShowcase.ReelCard.IframeLoad | components/ReelShowcase.tsx:96-107 | the iframe is ready and its load done; with a window, seek, the mute state and play are posted in that order |
| ReelShowcase.ReelCard.ToggleMute | components/ReelShowcase.tsx:116-125 | `muted` flips and `setMuted` with the new value is posted; the iframe `src` changes for every start offset, so a reload of the player is due |
| ReelShowcase.ReelCard.TogglePause | components/ReelShowcase.tsx:153-162 | `paused` flips; 'pause' is posted when now paused, 'play' otherwise |
| ReelShowcase.Session | components/ReelShowcase.tsx:52-162 | poster, pause, then mute: the reload's `onLoad` seeks to the start offset, posts the mute state and then 'play' while `paused` is still true |
| LongFormShowcase.Reveal | components/LongFormShowcase.tsx:67-68 | a reveal sets opacity '1' and transform `translateY(0)` and keeps the transition delay |
| LongFormShowcase.InViewScaled | components/LongFormShowcase.tsx:59 | the in-view test is 5·top < 4·height and bottom > 0 |
| LongFormShowcase.InViewAtFallbackHeight | components/LongFormShowcase.tsx:56-59 | with the fallback height 0 the section is in view only while it straddles the viewport's top edge |
| LongFormShowcase.CardSchedule | components/LongFormShowcase.tsx:87-93 | one timeout per card, card i at 800 + 200·i ms |
| LongFormShowcase.ScheduleStrictlyIncreasing | components/LongFormShowcase.tsx:61-93 | scheduled delays rise strictly: header elements before cards, cards in declared order |
| LongFormShowcase.ScheduleContents | components/LongFormShowcase.tsx:61-93 | badge at 100, title at 180, subtitle at 260 ms when present, and no timeout at that delay when absent; the cards follow at 800 + 200·i; nothing else is scheduled |
| LongFormShowcase.FireAllIsRevealSet | components/LongFormShowcase.tsx:66-92 | firing timeouts reveals exactly their elements, in any order and multiplicity |
| LongFormShowcase.FiringOrderIrrelevant | components/LongFormShowcase.tsx:66-92 | two runs naming the same elements end in the same styles |
| LongFormShowcase.RerunIdempotent | components/LongFormShowcase.tsx:98-102 | re-running the handler reschedules everything, but the final styles are as after one run |
| LongFormShowcase.FireAllEffect | components/LongFormShowcase.tsx:66-92 | firing only reveals the named elements, never hides one, and keeps the set of elements |
| LongFormShowcase.HiddenToRevealed | components/LongFormShowcase.tsx:161-174 | the hidden header and card styles become opacity 1 at `translateY(0)`, keeping the card's 200·i ms transition delay |
| LongFormShowcase.Showcase.HandleScroll | components/LongFormShowcase.tsx:49-95 | with no section nothing is scheduled; otherwise, exactly when the section is in view at the guarded window height (0 on failure), the whole reveal schedule is appended |
| LongFormShowcase.Showcase.ScheduleCards | components/LongFormShowcase.tsx:87-93 | the `forEach` appends exactly the card schedule |
| LongFormShowcase.Showcase.FireTimeout | components/LongFormShowcase.tsx:66-69 | a firing timeout reveals its element and leaves the queue |
| LongFormShowcase.CreatorInfo | components/LongFormShowcase.tsx:181-200 | a creator line renders if and only if `creator` is a non-empty string; the photo falls back to '/placeholder-user.jpg' and the job to 'Creator' |
| LongFormShowcase.CreatorLineNonEmpty | components/LongFormShowcase.tsx:185-199 | a rendered line never has an empty photo path or job |
| LongFormShowcase.PageVideosShowOwnCreator | components/LongFormShowcase.tsx:112-117 | all four videos of the page show their own creator, photo and job |

## Left out

- The 3D service-card tilt (app/page.tsx:79-139): floating-point rotations written straight into DOM styles.
- The carousel's pixel offset (app/page.tsx:149-152): a float division of the container width and a DOM write. Only the integer `slidesVisible` choice is modelled.
- The `index === currentSlide` dot highlight (app/page.tsx:667-669): presentation only.
- The image `onLoad`/`onError` show/hide of siblings and the thumbnail preload loop on the home page: DOM manipulation.
- `console.log` calls in the carousel: logging only.
- Real time: the 5000 ms and 3000 ms delays are named constants. Firing is an explicit method call (`Tick`, `ResumeFires`, `FireTimeout`), so the model does not capture the order that the delays would impose.
- React scheduling: a state update and the effect run are separate steps. The mount-time `setIsAutoScrolling(true)` effect sets the value the state already has, so it is folded into the constructor.
- HomePage.Carousel.GoTo: takes an integer index. A fractional JavaScript number is not modelled.
- The oEmbed `fetch` (components/ReelShowcase.tsx:11-17): the network. Its result is an input of `LoadThumb`, and the asynchronous resolution is taken as one step.
- iframe `postMessage` delivery and the JSON encoding of messages: only the log of posted messages is modelled. A throwing `postMessage` is not modelled, because the `try` around it swallows the throw after the state update.
- Geometry in the long-form section is exact: the section's box and the window height are `real`s and 0.8 is exact, while JavaScript computes `windowHeight * 0.8` in doubles. Rounding could flip the in-view test for a top edge within a rounding error of the threshold.
- Js.JsRem: for a negative dividend its contract gives the range (-b, 0]. The exact value follows from `JsRemOdd`. The congruence `(a - r) % b == 0` is stated only for the divisor 17, in `HomePage.Advance`, because for a symbolic divisor it needs nonlinear arithmetic the solver does not finish.
- The per-reel start offsets `t` (components/ReelShowcase.tsx:214): floating point. `IframeLoad` takes the offset as a real, and `Src` takes it as the text JavaScript prints.
- The `<link rel="preconnect">` injection (components/ReelShowcase.tsx:23-32) and the Wistia script and style loading in LongFormShowcase.tsx: DOM and network.
- The scroll listener's registration and removal (components/LongFormShowcase.tsx:97-109): each scroll event is a call of `HandleScroll`.
- The creator photo's `onError` swap to the placeholder: a DOM write on an image.
- `copyToClipboard` (lib/client-utils.ts): clipboard and `execCommand` I/O.
- The import-time replacement of `console.error`, the listener registration and the `document.readyState` wiring (lib/error-suppression.ts:7-10, 64-79). The wrapper is modelled as a filter over a log of calls.
- The observer's `attributeFilter`: the model takes whatever batch of records it is given.
- `toString()` of a first argument or rejection reason: a value is modelled by its string form. A `toString` that throws is not modelled.
- The ASCII-only case folding of the regular expression's `i` flag is modelled. Unicode case folding is not, since the pattern has no letter outside ASCII.

### Behaviour kept as the code has it

- Resume timeouts stack and are never cancelled (app/page.tsx:31, 38). `pendingResumes` counts them, and `ResumesStack` shows one still pending after autoplay has resumed.
- `goToSlide` does not clamp (app/page.tsx:36). `UnclampedDotEscapes` shows the index leaving the range if an out-of-range dot were passed. The page renders one dot per thumbnail, so `RunStaysInRange` holds for every input the page can produce.
- The autoplay effect's cleanup clears the interval but leaves the ref set (app/page.tsx:66-70). The following `startAutoScroll` clears that handle again, which is harmless.
- A mute toggle reloads the player (components/ReelShowcase.tsx:89, 96-107). `muted` is part of the iframe `src`, so changing it navigates the iframe, and its `onLoad` posts seek, mute and 'play' again. After pause then mute, the video restarts at its offset and plays while the card shows itself paused; `Session` proves this trace. `loadPending` records that a load is due; the browser firing it is the call to `IframeLoad`.
- `handleScroll` has no "already revealed" guard (components/LongFormShowcase.tsx:59). Every in-view scroll schedules the reveals again. `RerunIdempotent` shows the styles end up the same.
