/**
 * The lazily loaded image (src/components/LazyImage.jsx): once the
 * intersection hook reports it visible, a preload starts unless the image
 * has already loaded or failed; `loaded` and `error` are only ever set, so
 * a failed image is never tried again.
 */
module LazyImage {
  import Visibility

  /** The component's flags and the number of preload `Image`s it has started. */
  datatype Flags = Flags(loaded: bool, error: bool, preloads: nat)

  const Fresh := Flags(false, false, 0)

  /** The effect's guard: visible, a non-empty `src`, neither loaded nor failed. */
  predicate ShouldPreload(isVisible: bool, src: string, f: Flags) {
    isVisible && src != "" && !f.loaded && !f.error
  }

  /** What can happen to the component: the effect runs, or a load or error event arrives (from the preload or the `<img>`). */
  datatype Event = Effect(isVisible: bool, src: string) | Loaded | Failed

  function Step(f: Flags, e: Event): (r: Flags)
    ensures f.loaded ==> r.loaded
    ensures f.error ==> r.error
    ensures r.preloads == f.preloads + (if e.Effect? && ShouldPreload(e.isVisible, e.src, f) then 1 else 0)
    ensures e.Loaded? ==> r.loaded && r.error == f.error
    ensures e.Failed? ==> r.error && r.loaded == f.loaded
    ensures e.Effect? ==> r.loaded == f.loaded && r.error == f.error
  {
    match e
    case Effect(v, src) => if ShouldPreload(v, src, f) then f.(preloads := f.preloads + 1) else f
    case Loaded => f.(loaded := true)
    case Failed => f.(error := true)
  }

  function Run(f: Flags, events: seq<Event>): Flags
    decreases |events|
  {
    if events == [] then f else Step(Run(f, events[..|events| - 1]), events[|events| - 1])
  }

  /** Both flags only ever go from false to true. */
  lemma {:induction false} FlagsOnlySet(f: Flags, events: seq<Event>)
    ensures f.loaded ==> Run(f, events).loaded
    ensures f.error ==> Run(f, events).error
    ensures Run(f, events).preloads >= f.preloads
    decreases |events|
  {
    if events != [] {
      FlagsOnlySet(f, events[..|events| - 1]);
    }
  }

  /** No retry: once the image has failed (or loaded), no further preload is ever started. */
  lemma {:induction false} NoPreloadAfterSettled(f: Flags, events: seq<Event>)
    requires f.loaded || f.error
    ensures Run(f, events).preloads == f.preloads
    decreases |events|
  {
    if events != [] {
      NoPreloadAfterSettled(f, events[..|events| - 1]);
      FlagsOnlySet(f, events[..|events| - 1]);
    }
  }

  /** The spinner placeholder is shown iff neither loaded nor failed. */
  predicate PlaceholderShown(f: Flags) {
    !f.loaded && !f.error
  }

  /** The error panel is shown iff the image failed. */
  predicate ErrorShown(f: Flags) {
    f.error
  }

  /** The `<img>` is rendered iff visible with a non-empty `src`, whatever the flags. */
  predicate ImageRendered(isVisible: bool, src: string) {
    isVisible && src != ""
  }

  /** The `<img>` is at full opacity iff loaded. */
  predicate FullOpacity(f: Flags) {
    f.loaded
  }

  /** At most one of placeholder and error panel is shown, and a preload is due only while the placeholder shows. */
  lemma ViewRules(isVisible: bool, src: string, f: Flags)
    ensures !(PlaceholderShown(f) && ErrorShown(f))
    ensures ShouldPreload(isVisible, src, f) <==> PlaceholderShown(f) && ImageRendered(isVisible, src)
  {
  }

  /** The component as an object over its intersection hook. */
  class LazyImageView {
    const src: string
    const observer: Visibility.IntersectionHook
    var loaded: bool
    var error: bool
    var preloads: nat

    function State(): Flags
      reads this
    {
      Flags(loaded, error, preloads)
    }

    constructor (src: string)
      ensures this.src == src && State() == Fresh && fresh(observer)
      ensures !observer.isVisible && !observer.hasBeenVisible
    {
      this.src := src;
      observer := new Visibility.IntersectionHook();
      loaded, error, preloads := false, false, 0;
    }

    /** The preload effect, with the visibility the hook reports now. */
    method RunEffect()
      modifies this
      ensures State() == Step(old(State()), Effect(observer.isVisible, src))
    {
      if observer.isVisible && src != "" && !loaded && !error {
        preloads := preloads + 1;
      }
    }

    /** `img.onload` of the preload, or `handleImageLoad` of the `<img>`. */
    method HandleLoad()
      modifies this
      ensures State() == Step(old(State()), Loaded)
    {
      loaded := true;
    }

    /** `img.onerror` of the preload, or `handleImageError` of the `<img>`. */
    method HandleError()
      modifies this
      ensures State() == Step(old(State()), Failed)
    {
      error := true;
    }
  }
}
