/** The image component with a fallback (src/components/OptimizedImage.tsx): its three state
    fields, reset when the `src` prop changes and moved by the image's load and error events. The
    `onLoad` and `onError` callbacks are counted rather than run. Each event handler sees the
    state of the render it belongs to, so events are applied one at a time. */
module OptimizedImage {
  import opened Common

  const DEFAULT_FALLBACK := "/placeholder-image.jpg"

  /** What the component renders: the "Image unavailable" placeholder, or the image with the
      loading spinner and the red error badge each shown or not. */
  datatype View = Unavailable | Picture(src: string, spinner: bool, errorBadge: bool)

  class ImageState {
    var src: string
    var fallbackSrc: string
    var isLoading: bool
    var hasError: bool
    var imageSrc: string
    var loadCalls: nat
    var errorCalls: nat

    /** An error is only ever left standing on the fallback image, and then nothing is loading. */
    ghost predicate Valid()
      reads this
    {
      hasError ==> imageSrc == fallbackSrc && !isLoading
    }

    /** The first render: `src` loading, no error. `fallbackSrc` is the prop, or its default. */
    constructor (src: string, fallback: Option<string>)
      ensures Valid()
      ensures this.src == src && imageSrc == src && isLoading && !hasError
      ensures fallbackSrc == (if fallback.Some? then fallback.value else DEFAULT_FALLBACK)
      ensures loadCalls == 0 && errorCalls == 0
    {
      this.src := src;
      fallbackSrc := if fallback.Some? then fallback.value else DEFAULT_FALLBACK;
      isLoading := true;
      hasError := false;
      imageSrc := src;
      loadCalls := 0;
      errorCalls := 0;
    }

    /** The render. */
    function Render(): (v: View)
      reads this
      ensures v == Unavailable <==> hasError && imageSrc == fallbackSrc
      ensures v.Picture? ==> v.src == imageSrc && (v.spinner <==> isLoading)
                             && (v.errorBadge <==> hasError && imageSrc != fallbackSrc)
    {
      if hasError && imageSrc == fallbackSrc then Unavailable
      else Picture(imageSrc, isLoading, hasError && imageSrc != fallbackSrc)
    }

    /** The effect on a new `src` prop: that image, loading, with no error. */
    method SrcChanged(newSrc: string)
      requires Valid()
      modifies this
      ensures Valid()
      ensures src == newSrc && imageSrc == newSrc && !hasError && isLoading
      ensures fallbackSrc == old(fallbackSrc) && loadCalls == old(loadCalls) && errorCalls == old(errorCalls)
    {
      src := newSrc;
      imageSrc := newSrc;
      hasError := false;
      isLoading := true;
    }

    /** `handleLoad`: loading is over and `onLoad` is called once; the event comes from the
        rendered image. */
    method HandleLoad()
      requires Valid() && Render().Picture?
      modifies this
      ensures Valid()
      ensures !isLoading && loadCalls == old(loadCalls) + 1
      ensures imageSrc == old(imageSrc) && hasError == old(hasError) && src == old(src)
      ensures fallbackSrc == old(fallbackSrc) && errorCalls == old(errorCalls)
    {
      isLoading := false;
      loadCalls := loadCalls + 1;
    }

    /** `handleError`: off the fallback it switches to the fallback, loading, without an error and
        without calling `onError`; on the fallback it leaves the error standing, stops loading and
        calls `onError` once. */
    method HandleError()
      requires Valid() && Render().Picture?
      modifies this
      ensures Valid()
      ensures old(imageSrc) != fallbackSrc ==>
                imageSrc == fallbackSrc && !hasError && isLoading && errorCalls == old(errorCalls)
      ensures old(imageSrc) == fallbackSrc ==>
                imageSrc == fallbackSrc && hasError && !isLoading && errorCalls == old(errorCalls) + 1
      ensures src == old(src) && fallbackSrc == old(fallbackSrc) && loadCalls == old(loadCalls)
    {
      hasError := true;
      isLoading := false;
      if imageSrc != fallbackSrc {
        imageSrc := fallbackSrc;
        hasError := false;
        isLoading := true;
      } else {
        errorCalls := errorCalls + 1;
      }
    }
  }

  /** The placeholder shows exactly after an error on the fallback image, and the error badge
      never shows: an error is only left standing on the fallback. */
  lemma ErrorBadgeNeverShown(img: ImageState)
    requires img.Valid()
    ensures img.Render().Picture? ==> !img.Render().errorBadge
  {
  }

  /** The fallback is tried at most once: whatever image is showing, two errors in a row end on
      the placeholder, with `onError` called exactly once. */
  method TwoErrors(img: ImageState)
    requires img.Valid() && img.Render().Picture?
    modifies img
    ensures img.Render() == Unavailable
    ensures img.errorCalls == old(img.errorCalls) + 1
  {
    var onFallback := img.imageSrc == img.fallbackSrc;
    img.HandleError();
    if !onFallback {
      img.HandleError();
    }
  }
}
