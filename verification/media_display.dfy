/** `DNSMediaDisplay`: a helper that shows a `DAOMedia` in an image view,
    with an optional placeholder image, progress view and secondary image
    views. Views and images are opaque references compared by identity;
    what a display does to them is an effect list (`MediaDispatch`) whose
    meaning on the views is given here by `Apply`. */
module MediaDisplay {
  import opened Values

  /** A `UIImage`. */
  datatype Image = Image(id: nat)

  /** Animated-image data returned by a load. */
  datatype GifData = GifData(id: nat)

  /** A `UIImageView`; `isGif` is whether it is a `GIFImageView`. */
  datatype ImageView = ImageView(id: nat, isGif: bool)

  /** A `UIProgressView`. */
  datatype ProgressView = ProgressView(id: nat)

  /** The class of the display object: `DNSMediaDisplay` itself or one of
      its three subclasses. */
  datatype Kind = Plain | StaticImage | AnimatedImage | Video

  datatype Display = Display(
    kind: Kind,
    imageView: ImageView,
    placeholderImage: Option<Image>,
    progressView: Option<ProgressView>,
    secondaryImageViews: seq<ImageView>)

  /** `init(imageView:placeholderImage:progressView:secondaryImageViews:)`
      for an object of class `kind`; `contentInit` does nothing. */
  function New(kind: Kind, imageView: ImageView, placeholderImage: Option<Image>,
               progressView: Option<ProgressView>, secondaryImageViews: seq<ImageView>): (r: Display)
    ensures r.kind == kind && r.imageView == imageView
    ensures r.placeholderImage == placeholderImage && r.progressView == progressView
    ensures r.secondaryImageViews == secondaryImageViews
  {
    Display(kind, imageView, placeholderImage, progressView, secondaryImageViews)
  }

  /** `init(imageView:)` with every other argument left at its default. */
  function NewWithDefaults(kind: Kind, imageView: ImageView): (r: Display)
    ensures r.kind == kind && r.imageView == imageView
    ensures r.placeholderImage.None? && r.progressView.None? && |r.secondaryImageViews| == 0
  {
    New(kind, imageView, None, None, [])
  }

  /** `copy(with:)`: always a plain `DNSMediaDisplay`, sharing the image
      view, progress view and secondary views but not the placeholder. */
  function Copy(d: Display): (r: Display)
    ensures r.kind == Plain
    ensures r.imageView == d.imageView && r.progressView == d.progressView
    ensures r.secondaryImageViews == d.secondaryImageViews
    ensures r.placeholderImage.None?
  {
    Display(Plain, d.imageView, None, d.progressView, d.secondaryImageViews)
  }

  /** `isDiffFrom(_:)`: anything but a display differs; displays are
      compared by their image view, progress view and secondary views
      only. */
  function IsDiffFrom(d: Display, rhs: Peer<Display>): (r: bool)
    ensures rhs.Nil? || rhs.OtherKind? ==> r
    ensures rhs.Same? ==> !r
    ensures rhs.Instance? ==> (r <==>
      || d.imageView != rhs.value.imageView
      || d.progressView != rhs.value.progressView
      || |d.secondaryImageViews| != |rhs.value.secondaryImageViews|
      || exists i :: 0 <= i < |d.secondaryImageViews| && d.secondaryImageViews[i] != rhs.value.secondaryImageViews[i])
  {
    match rhs
    case Nil => true
    case OtherKind => true
    case Same => false
    case Instance(y) =>
      || d.imageView != y.imageView
      || d.progressView != y.progressView
      || d.secondaryImageViews != y.secondaryImageViews
  }

  /** `==` on displays. */
  function Equal(d: Display, e: Display): (r: bool)
    ensures r <==> !IsDiffFrom(d, Instance(e))
  {
    !IsDiffFrom(d, Instance(e))
  }

  /** `!=` on displays. */
  function NotEqual(d: Display, e: Display): (r: bool)
    ensures r <==> IsDiffFrom(d, Instance(e))
  {
    IsDiffFrom(d, Instance(e))
  }

  /** A copy never differs from its original, in either direction. */
  lemma CopyEqualsOriginal(d: Display)
    ensures Equal(Copy(d), d) && Equal(d, Copy(d))
  {
  }

  /** The comparison ignores the class and the placeholder image. */
  lemma EqualIgnoresPlaceholder(d: Display, k: Kind, p: Option<Image>)
    ensures Equal(d, d.(kind := k, placeholderImage := p))
  {
  }

  /** `==` is an equivalence on displays. */
  lemma EqualIsEquivalence(a: Display, b: Display, c: Display)
    ensures Equal(a, a)
    ensures Equal(a, b) ==> Equal(b, a)
    ensures Equal(a, b) && Equal(b, c) ==> Equal(a, c)
    ensures NotEqual(a, b) == !Equal(a, b)
  {
  }

  // ---- effects and their meaning ----

  /** What a display operation does, in order. A load carries the
      outcome the image loader delivered for it (`None` for a failure). */
  datatype Effect =
    | ShowPlaceholder(placeholder: Option<Image>)  // imageView.image = placeholderImage
    | Cleanup(level: Kind)                         // the reuse cleanup of one class ran
    | ResetGif                                     // GIFImageView.prepareForReuse()
    | LoadStatic(url: Url, cacheKey: string, result: Option<Image>)
    | LoadAnimated(url: Url, placeholder: Option<Image>, result: Option<Image>)
    | HideProgress                                 // progressView?.isHidden = true
    | SetSecondaries(image: Image)                 // every secondary view shows image
    | ClearSecondaries                             // every secondary view shows nothing
    | AnimateData(data: GifData)                   // animate(withGIFData:)
    | StartAnimating                               // startAnimatingGIF()
    | Completion(success: bool)                    // the load's completion block ran

  datatype Animation = Stopped | Restarted | Playing(data: GifData)

  /** What can be seen of the views: the main image, each secondary view's
      image, whether the progress view is hidden, and the GIF animation. */
  datatype Screen = Screen(
    image: Option<Image>,
    secondaries: seq<Option<Image>>,
    progressHidden: bool,
    animation: Animation)

  /** Every secondary view showing `img`. */
  function Fill(n: nat, img: Option<Image>): (r: seq<Option<Image>>)
    ensures |r| == n
    ensures forall i :: 0 <= i < n ==> r[i] == img
  {
    seq(n, _ => img)
  }

  /** The effect of one step on the screen. A load shows its result, and a
      GIF load first shows its placeholder. */
  function Apply(s: Screen, e: Effect): (r: Screen)
    ensures |r.secondaries| == |s.secondaries|
  {
    match e
    case ShowPlaceholder(p) => s.(image := p)
    case Cleanup(_) => s
    case ResetGif => s.(animation := Stopped)
    case LoadStatic(_, _, res) => if res.Some? then s.(image := res) else s
    case LoadAnimated(_, p, res) => s.(image := if res.Some? then res else p)
    case HideProgress => s.(progressHidden := true)
    case SetSecondaries(img) => s.(secondaries := Fill(|s.secondaries|, Some(img)))
    case ClearSecondaries => s.(secondaries := Fill(|s.secondaries|, None))
    case AnimateData(data) => s.(animation := Playing(data))
    case StartAnimating => s.(animation := Restarted)
    case Completion(_) => s
  }

  /** The screen after a whole effect list. */
  function Run(s: Screen, es: seq<Effect>): (r: Screen)
    ensures |r.secondaries| == |s.secondaries|
    decreases |es|
  {
    if |es| == 0 then s else Run(Apply(s, es[0]), es[1..])
  }

  /** Running two lists one after the other is running their
      concatenation. */
  lemma {:induction false} RunAppend(s: Screen, a: seq<Effect>, b: seq<Effect>)
    ensures Run(s, a + b) == Run(Run(s, a), b)
    decreases |a|
  {
    if |a| > 0 {
      assert (a + b)[0] == a[0];
      assert (a + b)[1..] == a[1..] + b;
      RunAppend(Apply(s, a[0]), a[1..], b);
    } else {
      assert a + b == b;
    }
  }

  lemma RunOne(s: Screen, e: Effect)
    ensures Run(s, [e]) == Apply(s, e)
  {
    assert [e][1..] == [];
  }

  /** The urls of the static loads of an effect list, in order. */
  function StaticLoads(es: seq<Effect>): seq<Url> {
    if |es| == 0 then []
    else (if es[0].LoadStatic? then [es[0].url] else []) + StaticLoads(es[1..])
  }

  /** The urls of the GIF loads of an effect list, in order. */
  function AnimatedLoads(es: seq<Effect>): seq<Url> {
    if |es| == 0 then []
    else (if es[0].LoadAnimated? then [es[0].url] else []) + AnimatedLoads(es[1..])
  }

  lemma {:induction false} LoadsAppend(a: seq<Effect>, b: seq<Effect>)
    ensures StaticLoads(a + b) == StaticLoads(a) + StaticLoads(b)
    ensures AnimatedLoads(a + b) == AnimatedLoads(a) + AnimatedLoads(b)
    decreases |a|
  {
    if |a| > 0 {
      assert (a + b)[0] == a[0];
      assert (a + b)[1..] == a[1..] + b;
      LoadsAppend(a[1..], b);
    } else {
      assert a + b == b;
    }
  }

  lemma LoadsOne(e: Effect)
    ensures StaticLoads([e]) == if e.LoadStatic? then [e.url] else []
    ensures AnimatedLoads([e]) == if e.LoadAnimated? then [e.url] else []
  {
    assert [e][1..] == [];
  }
}
