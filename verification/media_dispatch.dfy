/** The `display(from:)` dispatch of the three display subclasses and the
    utilities they share: `utilityDisplayStaticImage`,
    `utilityDisplayAnimatedImage`, `utilityDisplayVideo` and the chain of
    `utilityDisplayPrepareForReuse` overrides. Each returns the effects it
    has, in order; the loader's outcome for a url is an input, and the
    completion of a load is placed after the load itself. */
module MediaDispatch {
  import opened Values
  import opened Foreign
  import opened MediaDisplay

  /** What the image loader delivers for a url: the image on success, and
      the raw response data, if any. */
  datatype Response = Response(image: Option<Image>, data: Option<GifData>)

  /** Position of a class below `DNSMediaDisplay`. */
  function Depth(k: Kind): nat {
    match k
    case Plain => 0
    case StaticImage => 1
    case AnimatedImage => 2
    case Video => 2
  }

  /** An effect list made only of reuse cleanups. */
  predicate CleanupOnly(es: seq<Effect>) {
    forall i :: 0 <= i < |es| ==> es[i].Cleanup? || es[i].ResetGif?
  }

  /** A cleanup list loads nothing and at most stops the GIF animation. */
  lemma {:induction false} CleanupOnlyEffects(s: Screen, es: seq<Effect>)
    requires CleanupOnly(es)
    ensures StaticLoads(es) == [] && AnimatedLoads(es) == []
    ensures Run(s, es) == if ResetGif in es then s.(animation := Stopped) else s
    decreases |es|
  {
    if |es| > 0 {
      assert CleanupOnly(es[1..]);
      CleanupOnlyEffects(Apply(s, es[0]), es[1..]);
      CleanupOnlyEffects(s, es[1..]);
      assert ResetGif in es <==> es[0] == ResetGif || ResetGif in es[1..];
    }
  }

  /** `utilityDisplayPrepareForReuse(videoOnly:)` of an object of class
      `k`, with each override's call to its parent made explicit:
      the static-image class only calls the base class's (empty) cleanup;
      the animated-image class always calls its parent's and then resets a
      GIF view when `videoOnly` is set; the video class calls its parent's
      only when `videoOnly` is not set. */
  function PrepareForReuse(k: Kind, videoOnly: bool, view: ImageView): (r: seq<Effect>)
    ensures |r| > 0 && r[0] == Cleanup(k)
    ensures CleanupOnly(r)
    ensures ResetGif in r <==> k == AnimatedImage && videoOnly && view.isGif
    ensures Cleanup(Plain) in r <==> !(k == Video && videoOnly)
    ensures k == AnimatedImage ==> Cleanup(StaticImage) in r
    ensures k == Video ==> (Cleanup(StaticImage) in r <==> !videoOnly)
    decreases Depth(k)
  {
    match k
    case Plain => [Cleanup(Plain)]
    case StaticImage => [Cleanup(StaticImage)] + PrepareForReuse(Plain, videoOnly, view)
    case AnimatedImage =>
      [Cleanup(AnimatedImage)] + PrepareForReuse(StaticImage, videoOnly, view)
        + (if videoOnly && view.isGif then [ResetGif] else [])
    case Video =>
      [Cleanup(Video)] + (if videoOnly then [] else PrepareForReuse(StaticImage, videoOnly, view))
  }

  /** The base class's cleanup, and every cleanup run without `videoOnly`,
      changes nothing that can be seen. */
  lemma PrepareForReuseIsInvisible(k: Kind, videoOnly: bool, view: ImageView, s: Screen)
    requires k != AnimatedImage || !videoOnly || !view.isGif
    ensures Run(s, PrepareForReuse(k, videoOnly, view)) == s
  {
    CleanupOnlyEffects(s, PrepareForReuse(k, videoOnly, view));
  }

  /** What a static load does after its cleanup: issue the load keyed by
      the url's absolute string, then, in its completion, hide the progress
      view, on success show the image in every secondary view, and call the
      completion block (if one was passed) with the outcome. */
  function StaticTail(url: Url, result: Option<Image>, completion: bool): seq<Effect> {
    [LoadStatic(url, url.absoluteString, result)] + [HideProgress]
      + (if result.Some? then [SetSecondaries(result.value)] else [])
      + (if completion then [Completion(result.Some?)] else [])
  }

  /** A static load's tail issues one load, of its url. */
  lemma StaticTailLoads(url: Url, result: Option<Image>, completion: bool)
    ensures StaticLoads(StaticTail(url, result, completion)) == [url]
    ensures AnimatedLoads(StaticTail(url, result, completion)) == []
  {
    var a := [LoadStatic(url, url.absoluteString, result)];
    var b := [HideProgress];
    var c: seq<Effect> := if result.Some? then [SetSecondaries(result.value)] else [];
    var e: seq<Effect> := if completion then [Completion(result.Some?)] else [];
    assert StaticTail(url, result, completion) == a + b + c + e;
    LoadsOne(a[0]);
    LoadsOne(b[0]);
    if result.Some? { LoadsOne(c[0]); }
    if completion { LoadsOne(e[0]); }
    LoadsAppend(a, b);
    LoadsAppend(a + b, c);
    LoadsAppend(a + b + c, e);
  }

  /** On screen, a static load's tail shows the loaded image in the main
      view and in every secondary view, or leaves both as they were on a
      failure, and hides the progress view. */
  lemma StaticTailScreen(url: Url, result: Option<Image>, completion: bool, s: Screen)
    ensures Run(s, StaticTail(url, result, completion)) ==
      Screen(if result.Some? then result else s.image,
             if result.Some? then Fill(|s.secondaries|, result) else s.secondaries,
             true,
             s.animation)
  {
    var a := [LoadStatic(url, url.absoluteString, result), HideProgress];
    var c: seq<Effect> := if result.Some? then [SetSecondaries(result.value)] else [];
    var e: seq<Effect> := if completion then [Completion(result.Some?)] else [];
    assert StaticTail(url, result, completion) == a + c + e;
    var s2 := Run(s, a);
    assert s2 == s.(image := if result.Some? then result else s.image, progressHidden := true) by {
      assert a == [a[0]] + [a[1]];
      RunAppend(s, [a[0]], [a[1]]);
      RunOne(s, a[0]);
      RunOne(Apply(s, a[0]), a[1]);
    }
    var s3 := Run(s2, c);
    assert s3 == if result.Some? then s2.(secondaries := Fill(|s.secondaries|, result)) else s2 by {
      if result.Some? { RunOne(s2, c[0]); }
    }
    assert Run(s3, e) == s3 by {
      if completion { RunOne(s3, e[0]); }
    }
    RunAppend(s, a, c);
    RunAppend(s, a + c, e);
  }

  /** `utilityDisplayStaticImage(url:completion:)` on an object of class
      `d.kind` whose load of `url` delivered `result`; `completion` is
      whether a completion block was passed. The cleanup it starts with is
      the object's own override, run without `videoOnly`. */
  function StaticLoad(d: Display, url: Url, result: Option<Image>, completion: bool): (r: seq<Effect>)
    requires d.kind != Plain
    ensures |r| > 0 && r[0] == Cleanup(d.kind)
  {
    PrepareForReuse(d.kind, false, d.imageView) + StaticTail(url, result, completion)
  }

  /** The steps of a static load: no GIF reset, one load keyed by the url's
      absolute string, the completion block called with the load's
      outcome when one was passed, and on failure the secondary views left
      alone. */
  lemma StaticLoadSteps(d: Display, url: Url, result: Option<Image>, completion: bool)
    requires d.kind != Plain
    ensures ResetGif !in StaticLoad(d, url, result, completion)
    ensures LoadStatic(url, url.absoluteString, result) in StaticLoad(d, url, result, completion)
    ensures Completion(true) in StaticLoad(d, url, result, completion) <==> completion && result.Some?
    ensures Completion(false) in StaticLoad(d, url, result, completion) <==> completion && result.None?
    ensures result.None? ==> forall e :: e in StaticLoad(d, url, result, completion) ==> !e.SetSecondaries?
  {
    var cleanup := PrepareForReuse(d.kind, false, d.imageView);
    var tail := StaticTail(url, result, completion);
    assert StaticLoad(d, url, result, completion) == cleanup + tail;
    assert forall e :: e in cleanup ==> e.Cleanup? || e.ResetGif?;
    StaticTailSteps(url, result, completion);
  }

  /** The steps of a static load's tail, case by case. */
  lemma StaticTailSteps(url: Url, result: Option<Image>, completion: bool)
    ensures ResetGif !in StaticTail(url, result, completion)
    ensures LoadStatic(url, url.absoluteString, result) in StaticTail(url, result, completion)
    ensures Completion(true) in StaticTail(url, result, completion) <==> completion && result.Some?
    ensures Completion(false) in StaticTail(url, result, completion) <==> completion && result.None?
    ensures result.None? ==> forall e :: e in StaticTail(url, result, completion) ==> !e.SetSecondaries?
  {
    var load := LoadStatic(url, url.absoluteString, result);
    if result.Some? {
      if completion {
        assert StaticTail(url, result, completion) == [load, HideProgress, SetSecondaries(result.value), Completion(true)];
      } else {
        assert StaticTail(url, result, completion) == [load, HideProgress, SetSecondaries(result.value)];
      }
    } else {
      if completion {
        assert StaticTail(url, result, completion) == [load, HideProgress, Completion(false)];
      } else {
        assert StaticTail(url, result, completion) == [load, HideProgress];
      }
    }
  }

  /** A static load issues exactly one load, of its url, and leaves on
      screen the progress view hidden and, on success, the image in the
      main view and in every secondary view; on failure everything else as
      it was. */
  lemma StaticLoadEffects(d: Display, url: Url, result: Option<Image>, completion: bool, s: Screen)
    requires d.kind != Plain
    ensures StaticLoads(StaticLoad(d, url, result, completion)) == [url]
    ensures AnimatedLoads(StaticLoad(d, url, result, completion)) == []
    ensures Run(s, StaticLoad(d, url, result, completion)).progressHidden
    ensures result.Some? ==> Run(s, StaticLoad(d, url, result, completion)).image == result
    ensures result.Some? ==> Run(s, StaticLoad(d, url, result, completion)).secondaries == Fill(|s.secondaries|, result)
    ensures result.None? ==> Run(s, StaticLoad(d, url, result, completion)).image == s.image
    ensures result.None? ==> Run(s, StaticLoad(d, url, result, completion)).secondaries == s.secondaries
    ensures Run(s, StaticLoad(d, url, result, completion)).animation == s.animation
  {
    var cleanup := PrepareForReuse(d.kind, false, d.imageView);
    var tail := StaticTail(url, result, completion);
    CleanupOnlyEffects(s, cleanup);
    LoadsAppend(cleanup, tail);
    RunAppend(s, cleanup, tail);
    StaticTailLoads(url, result, completion);
    StaticTailScreen(url, result, completion, s);
  }

  /** What a GIF load does after its cleanup: load with the captured
      placeholder, then hide the progress view, clear the secondary views
      twice (at once, and again after a delay) and animate the response
      data, or restart the view's GIF when there is none. */
  function GifTail(url: Url, placeholder: Option<Image>, response: Response): seq<Effect> {
    [LoadAnimated(url, placeholder, response.image)] + [HideProgress] + [ClearSecondaries] + [ClearSecondaries]
      + (if response.data.Some? then [AnimateData(response.data.value)] else [StartAnimating])
  }

  lemma GifTailLoads(url: Url, placeholder: Option<Image>, response: Response)
    ensures StaticLoads(GifTail(url, placeholder, response)) == []
    ensures AnimatedLoads(GifTail(url, placeholder, response)) == [url]
  {
    var a, b, c := [LoadAnimated(url, placeholder, response.image)], [HideProgress], [ClearSecondaries];
    var e := if response.data.Some? then [AnimateData(response.data.value)] else [StartAnimating];
    LoadsOne(a[0]);
    LoadsOne(b[0]);
    LoadsOne(c[0]);
    LoadsOne(e[0]);
    LoadsAppend(a, b);
    LoadsAppend(a + b, c);
    LoadsAppend(a + b + c, c);
    LoadsAppend(a + b + c + c, e);
  }

  lemma GifTailScreen(url: Url, placeholder: Option<Image>, response: Response, s: Screen)
    ensures Run(s, GifTail(url, placeholder, response)) ==
      Screen(if response.image.Some? then response.image else placeholder,
             Fill(|s.secondaries|, None),
             true,
             if response.data.Some? then Playing(response.data.value) else Restarted)
  {
    var a, b, c := [LoadAnimated(url, placeholder, response.image)], [HideProgress], [ClearSecondaries];
    var e := if response.data.Some? then [AnimateData(response.data.value)] else [StartAnimating];
    var s1 := Run(s, a);
    assert s1 == Apply(s, a[0]) by { RunOne(s, a[0]); }
    var s2 := Run(s1, b);
    assert s2 == Apply(s1, b[0]) by { RunOne(s1, b[0]); }
    var s3 := Run(s2, c);
    assert s3 == Apply(s2, c[0]) by { RunOne(s2, c[0]); }
    var s4 := Run(s3, c);
    assert s4 == Apply(s3, c[0]) by { RunOne(s3, c[0]); }
    var s5 := Run(s4, e);
    assert s5 == Apply(s4, e[0]) by { RunOne(s4, e[0]); }
    RunAppend(s, a, b);
    RunAppend(s, a + b, c);
    RunAppend(s, a + b + c, c);
    RunAppend(s, a + b + c + c, e);
  }

  /** `utilityDisplayAnimatedImage(url:)` on an animated-image display
      whose screen is `s` when it starts: a non-GIF view falls back to a
      static load of the same url; a GIF view captures its current image as
      the placeholder, resets itself (`videoOnly`) and loads the GIF. */
  function AnimatedLoad(d: Display, s: Screen, url: Url, response: Response): (r: seq<Effect>)
    requires d.kind == AnimatedImage
    ensures |r| > 0 && r[0] == Cleanup(AnimatedImage)
    ensures !d.imageView.isGif ==> r == StaticLoad(d, url, response.image, false)
  {
    if !d.imageView.isGif then StaticLoad(d, url, response.image, false)
    else PrepareForReuse(d.kind, true, d.imageView) + GifTail(url, s.image, response)
  }

  /** The steps of a GIF load: the view is reset, the load uses the
      image on screen as its placeholder, and the loaded data is animated,
      or the GIF restarted when no data came back. */
  lemma AnimatedLoadSteps(d: Display, s: Screen, url: Url, response: Response)
    requires d.kind == AnimatedImage && d.imageView.isGif
    ensures ResetGif in AnimatedLoad(d, s, url, response)
    ensures LoadAnimated(url, s.image, response.image) in AnimatedLoad(d, s, url, response)
    ensures response.data.Some? ==> AnimateData(response.data.value) in AnimatedLoad(d, s, url, response)
    ensures StartAnimating in AnimatedLoad(d, s, url, response) <==> response.data.None?
  {
  }

  /** A GIF load issues one GIF load of its url and leaves the loaded image
      (or the placeholder) in the main view, the progress view hidden,
      every secondary view empty and the animation running. */
  lemma AnimatedLoadEffects(d: Display, s: Screen, url: Url, response: Response)
    requires d.kind == AnimatedImage && d.imageView.isGif
    ensures StaticLoads(AnimatedLoad(d, s, url, response)) == []
    ensures AnimatedLoads(AnimatedLoad(d, s, url, response)) == [url]
    ensures Run(s, AnimatedLoad(d, s, url, response)).image ==
      if response.image.Some? then response.image else s.image
    ensures Run(s, AnimatedLoad(d, s, url, response)).progressHidden
    ensures Run(s, AnimatedLoad(d, s, url, response)).secondaries == Fill(|s.secondaries|, None)
    ensures Run(s, AnimatedLoad(d, s, url, response)).animation ==
      if response.data.Some? then Playing(response.data.value) else Restarted
  {
    var cleanup := PrepareForReuse(d.kind, true, d.imageView);
    var tail := GifTail(url, s.image, response);
    CleanupOnlyEffects(s, cleanup);
    LoadsAppend(cleanup, tail);
    RunAppend(s, cleanup, tail);
    GifTailLoads(url, s.image, response);
    GifTailScreen(url, s.image, response, Run(s, cleanup));
  }

  /** `utilityDisplayVideo(url:)`: the cleanup without `videoOnly`, then
      every secondary view cleared; the player itself is not part of the
      class. */
  function VideoDisplay(d: Display): (r: seq<Effect>)
    requires d.kind == Video
    ensures r == PrepareForReuse(Video, false, d.imageView) + [ClearSecondaries]
    ensures Cleanup(StaticImage) in r
    ensures StaticLoads(r) == [] && AnimatedLoads(r) == []
  {
    var cleanup := PrepareForReuse(Video, false, d.imageView);
    CleanupOnlyEffects(Screen(None, [], false, Stopped), cleanup);
    LoadsAppend(cleanup, [ClearSecondaries]);
    cleanup + [ClearSecondaries]
  }

  /** A video display empties every secondary view and keeps their
      number. */
  lemma VideoDisplayScreen(d: Display, s: Screen)
    requires d.kind == Video
    ensures Run(s, VideoDisplay(d)).secondaries == Fill(|s.secondaries|, None)
    ensures Run(s, VideoDisplay(d)).image == s.image
  {
    var cleanup := PrepareForReuse(Video, false, d.imageView);
    PrepareForReuseIsInvisible(Video, false, d.imageView, s);
    RunAppend(s, cleanup, [ClearSecondaries]);
  }

  /** `display(from:)` of a display of class `d.kind` whose screen is `s`:
      the base class does nothing; every subclass shows the placeholder for
      a missing media or a media whose url does not convert; otherwise the
      static-image class loads the url, and the animated-image and video
      classes show the url directly, or after a static load of the preload
      url whatever its outcome. */
  function Display(fw: Framework, d: Display, s: Screen, media: Option<Media>, net: Url -> Response): (r: seq<Effect>)
  {
    if d.kind == Plain then []
    else if media.None? || fw.asUrl(media.value.url).None? then [ShowPlaceholder(d.placeholderImage)]
    else
      var url := fw.asUrl(media.value.url).value;
      var preload := fw.asUrl(media.value.preloadUrl);
      match d.kind
      case StaticImage => StaticLoad(d, url, net(url).image, false)
      case AnimatedImage =>
        if preload.None? then AnimatedLoad(d, s, url, net(url))
        else
          var first := StaticLoad(d, preload.value, net(preload.value).image, true);
          first + AnimatedLoad(d, Run(s, first), url, net(url))
      case Video =>
        if preload.None? then VideoDisplay(d)
        else StaticLoad(d, preload.value, net(preload.value).image, true) + VideoDisplay(d)
  }

  /** Whether the media has a url the frameworks convert. */
  predicate HasUrl(fw: Framework, media: Option<Media>) {
    media.Some? && fw.asUrl(media.value.url).Some?
  }

  /** The base class's `display(from:)` changes nothing. */
  lemma PlainDisplayDoesNothing(fw: Framework, d: Display, s: Screen, media: Option<Media>, net: Url -> Response)
    requires d.kind == Plain
    ensures Display(fw, d, s, media, net) == []
    ensures Run(s, Display(fw, d, s, media, net)) == s
  {
  }

  /** Without media, or without a url that converts, every subclass shows
      the placeholder and loads nothing. */
  lemma NoUrlShowsPlaceholder(fw: Framework, d: Display, s: Screen, media: Option<Media>, net: Url -> Response)
    requires d.kind != Plain && !HasUrl(fw, media)
    ensures Display(fw, d, s, media, net) == [ShowPlaceholder(d.placeholderImage)]
    ensures StaticLoads(Display(fw, d, s, media, net)) == []
    ensures AnimatedLoads(Display(fw, d, s, media, net)) == []
    ensures Run(s, Display(fw, d, s, media, net)).image == d.placeholderImage
  {
  }

  /** The static-image class issues exactly one load, of the media's
      url. */
  lemma StaticDisplayLoadsUrl(fw: Framework, d: Display, s: Screen, media: Option<Media>, net: Url -> Response)
    requires d.kind == StaticImage && HasUrl(fw, media)
    ensures StaticLoads(Display(fw, d, s, media, net)) == [fw.asUrl(media.value.url).value]
    ensures AnimatedLoads(Display(fw, d, s, media, net)) == []
  {
    var url := fw.asUrl(media.value.url).value;
    StaticLoadEffects(d, url, net(url).image, false, s);
  }

  /** The animated-image class without a preload url: one GIF load of the
      url, which a non-GIF view turns into a static load of the same url. */
  lemma AnimatedDisplayLoadsUrl(fw: Framework, d: Display, s: Screen, media: Option<Media>, net: Url -> Response)
    requires d.kind == AnimatedImage && HasUrl(fw, media)
    requires fw.asUrl(media.value.preloadUrl).None?
    ensures d.imageView.isGif ==> StaticLoads(Display(fw, d, s, media, net)) == []
    ensures d.imageView.isGif ==> AnimatedLoads(Display(fw, d, s, media, net)) == [fw.asUrl(media.value.url).value]
    ensures !d.imageView.isGif ==> StaticLoads(Display(fw, d, s, media, net)) == [fw.asUrl(media.value.url).value]
    ensures !d.imageView.isGif ==> AnimatedLoads(Display(fw, d, s, media, net)) == []
  {
    var url := fw.asUrl(media.value.url).value;
    if d.imageView.isGif {
      AnimatedLoadEffects(d, s, url, net(url));
    } else {
      StaticLoadEffects(d, url, net(url).image, false, s);
    }
  }

  /** The animated-image class with a preload url: a static load of the
      preload url, then the GIF load of the url whatever the preload's
      outcome (a static load on a non-GIF view). */
  lemma AnimatedDisplayPreloads(fw: Framework, d: Display, s: Screen, media: Option<Media>, net: Url -> Response)
    requires d.kind == AnimatedImage && HasUrl(fw, media)
    requires fw.asUrl(media.value.preloadUrl).Some?
    ensures d.imageView.isGif ==>
      StaticLoads(Display(fw, d, s, media, net)) == [fw.asUrl(media.value.preloadUrl).value]
    ensures d.imageView.isGif ==>
      AnimatedLoads(Display(fw, d, s, media, net)) == [fw.asUrl(media.value.url).value]
    ensures !d.imageView.isGif ==>
      StaticLoads(Display(fw, d, s, media, net)) == [fw.asUrl(media.value.preloadUrl).value, fw.asUrl(media.value.url).value]
    ensures !d.imageView.isGif ==> AnimatedLoads(Display(fw, d, s, media, net)) == []
  {
    var url := fw.asUrl(media.value.url).value;
    var pre := fw.asUrl(media.value.preloadUrl).value;
    var first := StaticLoad(d, pre, net(pre).image, true);
    var second := AnimatedLoad(d, Run(s, first), url, net(url));
    assert Display(fw, d, s, media, net) == first + second;
    assert StaticLoads(first) == [pre] && AnimatedLoads(first) == [] by {
      StaticLoadEffects(d, pre, net(pre).image, true, s);
    }
    assert d.imageView.isGif ==> StaticLoads(second) == [] && AnimatedLoads(second) == [url] by {
      if d.imageView.isGif { AnimatedLoadEffects(d, Run(s, first), url, net(url)); }
    }
    assert !d.imageView.isGif ==> StaticLoads(second) == [url] && AnimatedLoads(second) == [] by {
      if !d.imageView.isGif { StaticLoadEffects(d, url, net(url).image, false, Run(s, first)); }
    }
    LoadsAppend(first, second);
  }

  /** A preloaded image stays visible: the GIF load that follows a
      successful preload uses the preloaded image as its placeholder. */
  lemma PreloadBecomesPlaceholder(fw: Framework, d: Display, s: Screen, media: Option<Media>, net: Url -> Response)
    requires d.kind == AnimatedImage && d.imageView.isGif && HasUrl(fw, media)
    requires fw.asUrl(media.value.preloadUrl).Some?
    requires net(fw.asUrl(media.value.preloadUrl).value).image.Some?
    ensures LoadAnimated(fw.asUrl(media.value.url).value,
                         net(fw.asUrl(media.value.preloadUrl).value).image,
                         net(fw.asUrl(media.value.url).value).image) in Display(fw, d, s, media, net)
  {
    var pre := fw.asUrl(media.value.preloadUrl).value;
    StaticLoadEffects(d, pre, net(pre).image, true, s);
  }

  /** The video class: without a preload url no load at all; with one, a
      single static load of the preload url. Either way every secondary
      view ends up empty and their number is unchanged. */
  lemma VideoDisplayOutcome(fw: Framework, d: Display, s: Screen, media: Option<Media>, net: Url -> Response)
    requires d.kind == Video && HasUrl(fw, media)
    ensures AnimatedLoads(Display(fw, d, s, media, net)) == []
    ensures fw.asUrl(media.value.preloadUrl).None? ==> StaticLoads(Display(fw, d, s, media, net)) == []
    ensures fw.asUrl(media.value.preloadUrl).Some? ==>
      StaticLoads(Display(fw, d, s, media, net)) == [fw.asUrl(media.value.preloadUrl).value]
    ensures Run(s, Display(fw, d, s, media, net)).secondaries == Fill(|s.secondaries|, None)
  {
    var preload := fw.asUrl(media.value.preloadUrl);
    if preload.Some? {
      var first := StaticLoad(d, preload.value, net(preload.value).image, true);
      assert Display(fw, d, s, media, net) == first + VideoDisplay(d);
      StaticLoadEffects(d, preload.value, net(preload.value).image, true, s);
      LoadsAppend(first, VideoDisplay(d));
      RunAppend(s, first, VideoDisplay(d));
      VideoDisplayScreen(d, Run(s, first));
    } else {
      assert Display(fw, d, s, media, net) == VideoDisplay(d);
      VideoDisplayScreen(d, s);
    }
  }
}
