/** The short-form reel cards (components/ReelShowcase.tsx): the Vimeo thumbnail URL upscale,
    the choice of thumbnail, and the play/mute/pause state with the messages it posts to the
    embedded player. */
module ReelShowcase {
  import opened Js
  import opened Text

  // ---------------------------------------------------------------------------------------
  // The thumbnail URL rewrite: url.replace(/_[0-9]+x[0-9]+\.(jpg|png)$/i, '_1280.$1')

  predicate IsDigit(c: char)
  {
    '0' <= c <= '9'
  }

  predicate AllDigits(s: string)
  {
    forall i :: 0 <= i < |s| ==> IsDigit(s[i])
  }

  /** ASCII lower case; the `i` flag of a non-Unicode regular expression folds only ASCII
      letters onto the letters of this pattern. */
  function Lower(c: char): char
  {
    if 'A' <= c <= 'Z' then (c as int + 32) as char else c
  }

  /** The pattern's `x`, matched case-insensitively. */
  predicate IsX(c: char)
  {
    Lower(c) == 'x'
  }

  /** `(jpg|png)`, case-insensitively. */
  predicate IsImageExtension(e: string)
  {
    |e| == 3 &&
    ((Lower(e[0]) == 'j' && Lower(e[1]) == 'p' && Lower(e[2]) == 'g') ||
     (Lower(e[0]) == 'p' && Lower(e[1]) == 'n' && Lower(e[2]) == 'g'))
  }

  /** The pattern matches `url` from index `i` to its end: `_`, digits, `x`, digits, `.`, and an
      image extension. */
  ghost predicate SizeSuffixAt(url: string, i: int)
  {
    0 <= i &&
    exists k :: i + 1 < k && k + 1 < |url| - 4 && url[i] == '_' &&
      AllDigits(url[i + 1..k]) && IsX(url[k]) && AllDigits(url[k + 1..|url| - 4]) &&
      url[|url| - 4] == '.' && IsImageExtension(url[|url| - 3..])
  }

  /** The start of the longest run of digits that ends just before `end`. */
  function DigitRunStart(s: string, end: nat): (r: nat)
    requires end <= |s|
    ensures r <= end && AllDigits(s[r..end])
    ensures r == 0 || !IsDigit(s[r - 1])
    decreases end
  {
    if end > 0 && IsDigit(s[end - 1]) then
      var r := DigitRunStart(s, end - 1);
      assert s[r..end] == s[r..end - 1] + [s[end - 1]];
      r
    else end
  }

  /** A run of digits that cannot be extended to the left is the one `DigitRunStart` finds. */
  lemma {:induction false} DigitRunStartExact(s: string, a: nat, end: nat)
    requires a <= end <= |s| && AllDigits(s[a..end]) && (a == 0 || !IsDigit(s[a - 1]))
    ensures DigitRunStart(s, end) == a
    decreases end
  {
    if end > a {
      assert s[a..end][end - 1 - a] == s[end - 1];
      assert s[a..end - 1] == s[a..end][..end - 1 - a];
      DigitRunStartExact(s, a, end - 1);
    }
  }

  /** Where the match starts, if the pattern matches: scanning back from the extension. */
  function SizeSuffixStart(url: string): Option<nat>
  {
    var n := |url|;
    if n < 4 || url[n - 4] != '.' || !IsImageExtension(url[n - 3..]) then None
    else
      var j := DigitRunStart(url, n - 4);
      if j == n - 4 || j == 0 || !IsX(url[j - 1]) then None
      else
        var i := DigitRunStart(url, j - 1);
        if i == j - 1 || i == 0 || url[i - 1] != '_' then None
        else Some(i - 1)
  }

  /** A match the scan reports is a match of the pattern. */
  lemma SizeSuffixStartSound(url: string, i: nat)
    requires SizeSuffixStart(url) == Some(i)
    ensures SizeSuffixAt(url, i)
  {
    var n := |url|;
    var j := DigitRunStart(url, n - 4);
    var k := j - 1;
    assert i + 1 < k && k + 1 < n - 4 && url[i] == '_';
    assert AllDigits(url[i + 1..k]) && IsX(url[k]) && AllDigits(url[k + 1..n - 4]);
  }

  /** Wherever the pattern matches, the scan finds that match; so a match is unique. */
  lemma SizeSuffixStartComplete(url: string, i: nat)
    requires SizeSuffixAt(url, i)
    ensures SizeSuffixStart(url) == Some(i)
  {
    var n := |url|;
    var k :| i + 1 < k && k + 1 < n - 4 && url[i] == '_' &&
      AllDigits(url[i + 1..k]) && IsX(url[k]) && AllDigits(url[k + 1..n - 4]) &&
      url[n - 4] == '.' && IsImageExtension(url[n - 3..]);
    assert !IsDigit(url[k]);
    DigitRunStartExact(url, k + 1, n - 4);
    DigitRunStartExact(url, i + 1, k);
    ScanFinds(url, i, k);
  }

  /** The scan's steps, taken at a match whose `x` is at `k`. */
  lemma ScanFinds(url: string, i: nat, k: nat)
    requires 4 <= |url| && i + 1 < k && k + 1 < |url| - 4
    requires url[|url| - 4] == '.' && IsImageExtension(url[|url| - 3..])
    requires DigitRunStart(url, |url| - 4) == k + 1 && IsX(url[k])
    requires DigitRunStart(url, k) == i + 1 && url[i] == '_'
    ensures SizeSuffixStart(url) == Some(i)
  {
  }

  lemma SizeSuffixStartCorrect(url: string, i: nat)
    ensures SizeSuffixStart(url) == Some(i) <==> SizeSuffixAt(url, i)
  {
    if SizeSuffixStart(url) == Some(i) {
      SizeSuffixStartSound(url, i);
    }
    if SizeSuffixAt(url, i) {
      SizeSuffixStartComplete(url, i);
    }
  }

  /** `fetchVimeoThumb`'s rewrite of the oEmbed `thumbnail_url`. */
  function UpscaleThumbUrl(url: string): string
  {
    match SizeSuffixStart(url)
    case None => url
    case Some(i) => url[..i] + "_1280." + url[|url| - 3..]
  }

  /** A URL ending in `_<digits>x<digits>.jpg` or `.png` gets that suffix replaced by `_1280.`
      and the extension as it was written. */
  lemma UpscaleMatched(url: string, i: nat)
    requires SizeSuffixAt(url, i)
    ensures UpscaleThumbUrl(url) == url[..i] + "_1280." + url[|url| - 3..]
  {
    SizeSuffixStartCorrect(url, i);
  }

  /** A URL with no such suffix is returned as it is. */
  lemma UpscaleUnmatched(url: string)
    requires forall i: nat :: !SizeSuffixAt(url, i)
    ensures UpscaleThumbUrl(url) == url
  {
    if SizeSuffixStart(url).Some? {
      SizeSuffixStartCorrect(url, SizeSuffixStart(url).value);
    }
  }

  /** Upscaling an upscaled URL changes nothing: `_1280.` has no `x` before its dot. */
  lemma UpscaleIdempotent(url: string)
    ensures UpscaleThumbUrl(UpscaleThumbUrl(url)) == UpscaleThumbUrl(url)
  {
    match SizeSuffixStart(url)
    case None =>
    case Some(i) =>
      var r := url[..i] + "_1280." + url[|url| - 3..];
      var n := |r|;
      assert n == i + 9;
      assert r[n - 3..] == url[|url| - 3..];
      assert r[n - 4] == '.';
      assert AllDigits(r[i + 1..n - 4]) by {
        assert r[i + 1..n - 4] == "1280";
      }
      DigitRunStartExact(r, i + 1, n - 4);
      assert r[i] == '_';
      assert SizeSuffixStart(r) == None;
  }

  // ---------------------------------------------------------------------------------------
  // A reel card

  /** A reel: its Vimeo id, optional title and optional custom thumbnail path. */
  datatype Reel = Reel(id: string, title: Option<string>, thumb: Option<string>)

  /** How the oEmbed request ended: a rejected promise (network failure, bad JSON, a missing
      `thumbnail_url`), a response that is not ok, or the `thumbnail_url` of an ok one. */
  datatype FetchOutcome = Rejected | NotOk | Thumbnail(url: string)

  /** What the card posts to the player's window, as `{ method, value }` JSON. */
  datatype PlayerMessage = SetCurrentTime(seconds: real) | SetMuted(value: bool) | Play | Pause

  /** The oEmbed endpoint asked for a reel's thumbnail. */
  function OembedUrl(id: string): string
  {
    "https://vimeo.com/api/oembed.json?url=https://vimeo.com/" + id
  }

  /** The embed's query parameters, in order, for a mute state. */
  function PlayerParams(muted: bool): seq<(string, string)>
  {
    [("autoplay", "1"), ("muted", if muted then "1" else "0"), ("loop", "1"), ("autopause", "0"),
     ("byline", "0"), ("title", "0"), ("portrait", "0")]
  }

  function Lookup(params: seq<(string, string)>, key: string): Option<string>
    decreases |params|
  {
    if params == [] then None
    else if params[0].0 == key then Some(params[0].1)
    else Lookup(params[1..], key)
  }

  function QueryString(params: seq<(string, string)>): string
    decreases |params|
  {
    if params == [] then ""
    else params[0].0 + "=" + params[0].1 + (if |params| == 1 then "" else "&" + QueryString(params[1..]))
  }

  /** The iframe `src`; `startText` is how JavaScript prints the reel's start offset. */
  function PlayerSrc(id: string, muted: bool, startText: string): string
  {
    "https://player.vimeo.com/video/" + id + "?" + QueryString(PlayerParams(muted)) + "#t=" + startText + "s"
  }

  /** The `muted` parameter of the iframe URL is '1' exactly when the card is muted, and the
      URL text carries `muted=1` or `muted=0` accordingly. */
  lemma PlayerSrcMutedFlag(id: string, muted: bool, startText: string)
    ensures muted ==> Includes(PlayerSrc(id, muted, startText), "muted=1")
    ensures !muted ==> Includes(PlayerSrc(id, muted, startText), "muted=0")
  {
    var flag := if muted then "1" else "0";
    var pattern := "muted=" + flag;
    var query := QueryString(PlayerParams(muted));
    PlayerQueryShape(muted);
    IncludesMiddle("autoplay=1&", pattern, "&" + QueryString(PlayerParams(muted)[2..]));
    IncludesAround("https://player.vimeo.com/video/" + id + "?", query, "#t=", startText, pattern);
    assert PlayerSrc(id, muted, startText)
        == "https://player.vimeo.com/video/" + id + "?" + query + "#t=" + startText + "s";
    if muted {
      assert pattern == "muted=1";
    } else {
      assert pattern == "muted=0";
    }
  }

  /** The two mute states give different iframe URLs: they differ at the `muted` flag. */
  lemma MuteChangesSrc(id: string, startText: string)
    ensures PlayerSrc(id, true, startText) != PlayerSrc(id, false, startText)
  {
    var base := "https://player.vimeo.com/video/" + id + "?" + "autoplay=1&" + "muted=";
    var rest := "&" + QueryString(PlayerParams(false)[2..]) + "#t=" + startText + "s";
    SrcAroundFlag(id, true, startText);
    SrcAroundFlag(id, false, startText);
    assert (base + "1" + rest)[|base|] == '1';
    assert (base + "0" + rest)[|base|] == '0';
  }

  /** The iframe URL split around its mute flag. */
  lemma SrcAroundFlag(id: string, muted: bool, startText: string)
    ensures PlayerSrc(id, muted, startText)
         == "https://player.vimeo.com/video/" + id + "?" + "autoplay=1&" + "muted="
            + (if muted then "1" else "0")
            + ("&" + QueryString(PlayerParams(false)[2..]) + "#t=" + startText + "s")
  {
    var flag := if muted then "1" else "0";
    var query := QueryString(PlayerParams(muted));
    var rest := "&" + QueryString(PlayerParams(false)[2..]);
    assert PlayerParams(muted)[2..] == PlayerParams(false)[2..];
    PlayerQueryShape(muted);
    assert query == "autoplay=1&" + ("muted=" + flag) + rest;
    assert PlayerSrc(id, muted, startText)
        == "https://player.vimeo.com/video/" + id + "?" + query + "#t=" + startText + "s";
    Regroup("https://player.vimeo.com/video/" + id + "?", "autoplay=1&", "muted=", flag, rest,
            "#t=", startText, "s");
  }

  lemma Regroup(p: string, x: string, y: string, f: string, z: string, t: string, u: string, s: string)
    ensures p + (x + (y + f) + z) + t + u + s == p + x + y + f + (z + t + u + s)
  {
  }

  lemma IncludesAround(base: string, query: string, sep: string, startText: string, pattern: string)
    requires Includes(query, pattern)
    ensures Includes(base + query + sep + startText + "s", pattern)
  {
    IncludesExtend(base, query, sep, pattern);
    IncludesExtend(base, query + sep, sep, pattern);
    assert base + (query + sep) == base + query + sep;
    IncludesExtend(base, base + query + sep, startText, pattern);
    IncludesExtend(base, base + query + sep + startText, "s", pattern);
  }

  lemma PlayerQueryShape(muted: bool)
    ensures Lookup(PlayerParams(muted), "muted") == Some(if muted then "1" else "0")
    ensures QueryString(PlayerParams(muted))
         == "autoplay=1&" + ("muted=" + (if muted then "1" else "0")) + ("&" + QueryString(PlayerParams(muted)[2..]))
  {
    var params := PlayerParams(muted);
    var flag := if muted then "1" else "0";
    var rest := QueryString(params[2..]);
    assert params[1..][0] == params[1];
    assert params[1..][1..] == params[2..];
    QueryStringCons(params);
    QueryStringCons(params[1..]);
    assert QueryString(params) == "autoplay=1&" + ("muted=" + flag + "&" + rest);
    ConcatAssoc("autoplay=1&", "muted=" + flag, "&", rest);
  }

  lemma ConcatAssoc(a: string, b: string, c: string, d: string)
    ensures a + (b + c + d) == a + b + (c + d)
  {
  }

  lemma QueryStringCons(params: seq<(string, string)>)
    requires |params| >= 2
    ensures QueryString(params) == params[0].0 + "=" + params[0].1 + "&" + QueryString(params[1..])
  {
  }

  /** One `ReelCard`. `messages` is the log of what was posted to the player, `fetches` the log
      of oEmbed requests. */
  class ReelCard {
    const reel: Reel
    var thumb: Option<string>
    var isPlaying: bool
    var muted: bool
    var paused: bool
    var iframeReady: bool
    /** The iframe's current `src` has not finished loading: set when the iframe is first
        rendered and whenever `muted`, and with it the `src`, changes. */
    var loadPending: bool
    var messages: seq<PlayerMessage>
    var fetches: seq<string>

    /** Until the poster is clicked the card is muted, not paused, and has posted nothing. */
    ghost predicate Valid()
      reads this
    {
      !isPlaying ==> muted && !paused && !iframeReady && !loadPending && messages == []
    }

    constructor (reel: Reel)
      ensures Valid()
      ensures this.reel == reel && thumb == None && !isPlaying && muted && !paused && !iframeReady
      ensures !loadPending && messages == [] && fetches == []
    {
      this.reel := reel;
      thumb, isPlaying, muted, paused, iframeReady, loadPending := None, false, true, false, false, false;
      messages, fetches := [], [];
    }

    /** The thumbnail effect: a custom thumbnail is used as given and nothing is fetched;
        otherwise the oEmbed result, upscaled, or `null` when the request failed. */
    method LoadThumb(outcome: FetchOutcome)
      requires Valid()
      modifies this`thumb, this`fetches
      ensures Valid()
      ensures Truthy(reel.thumb) ==> thumb == reel.thumb && fetches == old(fetches)
      ensures !Truthy(reel.thumb) ==> fetches == old(fetches) + [OembedUrl(reel.id)]
      ensures !Truthy(reel.thumb) && outcome.Thumbnail? ==> thumb == Some(UpscaleThumbUrl(outcome.url))
      ensures !Truthy(reel.thumb) && !outcome.Thumbnail? ==> thumb == None
    {
      if Truthy(reel.thumb) {
        thumb := reel.thumb;
        return;
      }
      fetches := fetches + [OembedUrl(reel.id)];
      match outcome {
        case Thumbnail(url) => thumb := Some(UpscaleThumbUrl(url));
        case _ => thumb := None;
      }
    }

    /** The poster shows the thumbnail image when there is a (non-empty) thumb. */
    predicate ShowsImage()
      reads this
    {
      !isPlaying && Truthy(thumb)
    }

    /** ... and the gradient placeholder otherwise. */
    predicate ShowsPlaceholder()
      reads this
    {
      !isPlaying && !Truthy(thumb)
    }

    /** The thumbnail image failed to load: the gradient placeholder takes its place. */
    method ThumbError()
      requires Valid() && ShowsImage()
      modifies this`thumb
      ensures Valid() && thumb == None && ShowsPlaceholder()
    {
      thumb := None;
    }

    /** The poster (rendered only while not playing) is clicked: play, unmuted; the iframe is
        rendered and starts loading. */
    method ClickPoster()
      requires Valid() && !isPlaying
      modifies this`isPlaying, this`muted, this`loadPending
      ensures Valid() && isPlaying && !muted && loadPending
    {
      isPlaying := true;
      muted := false;
      loadPending := true;
    }

    /** The iframe has loaded: it is ready; if it has a window, seek, set the mute state, play. */
    method IframeLoad(start: real, hasWindow: bool)
      requires Valid() && isPlaying
      modifies this`iframeReady, this`loadPending, this`messages
      ensures Valid() && iframeReady && !loadPending
      ensures messages == old(messages) + if hasWindow then [SetCurrentTime(start), SetMuted(muted), Play] else []
    {
      iframeReady := true;
      loadPending := false;
      if hasWindow {
        messages := messages + [SetCurrentTime(start), SetMuted(muted), Play];
      }
    }

    /** The mute button: flip `muted` and post the new value. The iframe's `src` carries the
        mute state, so it changes and the player reloads: its `onLoad` runs again. */
    method ToggleMute(hasWindow: bool)
      requires Valid() && isPlaying
      modifies this`muted, this`loadPending, this`messages
      ensures Valid() && isPlaying
      ensures muted == !old(muted) && loadPending
      ensures forall startText :: Src(startText) != old(Src(startText))
      ensures messages == old(messages) + if hasWindow then [SetMuted(muted)] else []
    {
      var next := !muted;
      forall startText ensures PlayerSrc(reel.id, next, startText) != PlayerSrc(reel.id, muted, startText) {
        MuteChangesSrc(reel.id, startText);
      }
      muted := next;
      loadPending := true;
      if hasWindow {
        messages := messages + [SetMuted(next)];
      }
    }

    /** The play/pause button: flip `paused`; post 'pause' when now paused, 'play' otherwise. */
    method TogglePause(hasWindow: bool)
      requires Valid() && isPlaying
      modifies this`paused, this`messages
      ensures Valid() && isPlaying
      ensures paused == !old(paused)
      ensures messages == old(messages) + if hasWindow then [if paused then Pause else Play] else []
    {
      var next := !paused;
      paused := next;
      if hasWindow {
        messages := messages + [if next then Pause else Play];
      }
    }

    /** The iframe's `src` for the current mute state. */
    function Src(startText: string): string
      reads this
    {
      PlayerSrc(reel.id, muted, startText)
    }
  }

  /** A user session on one card: the poster, pause, then mute. The mute toggle changes the
      iframe's `src`, the player reloads, and its `onLoad` seeks to the start offset and posts
      'play' while the card still shows itself paused. */
  method Session(reel: Reel) returns (playing: bool, pausedNow: bool, mutedNow: bool, tail: seq<PlayerMessage>)
    ensures playing && pausedNow && mutedNow
    ensures tail == [SetMuted(true), SetCurrentTime(1.0), SetMuted(true), Play]
  {
    var card := new ReelCard(reel);
    card.LoadThumb(Rejected);
    card.ClickPoster();
    card.IframeLoad(1.0, true);
    card.TogglePause(true);
    card.ToggleMute(true);
    card.IframeLoad(1.0, true);
    assert card.messages == [SetCurrentTime(1.0), SetMuted(false), Play, Pause,
                             SetMuted(true), SetCurrentTime(1.0), SetMuted(true), Play];
    playing, pausedNow, mutedNow := card.isPlaying, card.paused, card.muted;
    tail := card.messages[4..];
  }
}
