/**
 * The intersection-observer hook (src/hooks/useIntersectionObserver.js):
 * `isVisible` follows the latest entry, `hasBeenVisible` latches on the
 * first intersecting one, and the effect observes the element it found
 * and unobserves that same element on cleanup.
 *
 * The observer delivers entries as events; of each batch the callback
 * reads the first entry only, so an event here is that entry's
 * `isIntersecting`. Elements are identified by number.
 */
module Visibility {
  import opened Common

  const DefaultThreshold := 0.1
  const DefaultRootMargin := "50px 0px"

  /** The options passed to the observer. */
  datatype ObserverOptions = ObserverOptions(threshold: real, rootMargin: string)

  /** The caller's `options`; an absent field keeps the default. */
  datatype CallerOptions = CallerOptions(threshold: Option<real>, rootMargin: Option<string>)

  /** `{ threshold: 0.1, rootMargin: '50px 0px', ...options }` */
  function Effective(options: CallerOptions): (r: ObserverOptions)
    ensures options.threshold.None? ==> r.threshold == DefaultThreshold
    ensures options.rootMargin.None? ==> r.rootMargin == DefaultRootMargin
    ensures options.threshold.Some? ==> r.threshold == options.threshold.value
    ensures options.rootMargin.Some? ==> r.rootMargin == options.rootMargin.value
  {
    ObserverOptions(options.threshold.GetOr(DefaultThreshold), options.rootMargin.GetOr(DefaultRootMargin))
  }

  /** The hook's two state flags. */
  datatype Seen = Seen(isVisible: bool, hasBeenVisible: bool)

  const NeverSeen := Seen(false, false)

  /** The observer callback on one entry. */
  function OnEntry(s: Seen, isIntersecting: bool): (r: Seen)
    ensures r.isVisible == isIntersecting
    ensures r.hasBeenVisible == (s.hasBeenVisible || isIntersecting)
  {
    Seen(isIntersecting, if isIntersecting && !s.hasBeenVisible then true else s.hasBeenVisible)
  }

  /** The flags after a run of entries, oldest first. */
  function AfterEntries(s: Seen, entries: seq<bool>): Seen
    decreases |entries|
  {
    if entries == [] then s else OnEntry(AfterEntries(s, entries[..|entries| - 1]), entries[|entries| - 1])
  }

  /**
   * After any run of entries from the start: `isVisible` is the latest
   * entry's value (false before any), and `hasBeenVisible` holds exactly
   * when some entry was intersecting.
   */
  lemma {:induction false} AfterEntriesMeaning(entries: seq<bool>)
    ensures AfterEntries(NeverSeen, entries).isVisible == (entries != [] && entries[|entries| - 1])
    ensures AfterEntries(NeverSeen, entries).hasBeenVisible <==> true in entries
    decreases |entries|
  {
    if entries != [] {
      var init := entries[..|entries| - 1];
      AfterEntriesMeaning(init);
      assert entries == init + [entries[|entries| - 1]];
    }
  }

  /** `hasBeenVisible` is never reset, whatever entries follow. */
  lemma {:induction false} HasBeenVisibleLatches(s: Seen, entries: seq<bool>)
    requires s.hasBeenVisible
    ensures AfterEntries(s, entries).hasBeenVisible
    decreases |entries|
  {
    if entries != [] {
      HasBeenVisibleLatches(s, entries[..|entries| - 1]);
    }
  }

  /** The hook as an object: the flags, the element in `elementRef`, and the element the observer watches. */
  class IntersectionHook {
    var isVisible: bool
    var hasBeenVisible: bool
    var element: Option<nat>
    var observed: Option<nat>
    var options: ObserverOptions

    function State(): Seen
      reads this
    {
      Seen(isVisible, hasBeenVisible)
    }

    /** Both flags start false, and nothing is observed before the effect runs. */
    constructor ()
      ensures State() == NeverSeen && element == None && observed == None
    {
      isVisible, hasBeenVisible := false, false;
      element, observed := None, None;
      options := Effective(CallerOptions(None, None));
    }

    /** The effect: a new observer with the merged options watches the element, if there is one. */
    method Subscribe(caller: CallerOptions)
      modifies this`observed, this`options
      ensures options == Effective(caller)
      ensures observed == element
    {
      options := Effective(caller);
      observed := element;
    }

    /** The cleanup: unobserves the element the effect captured, not whatever `elementRef` holds now. */
    method Cleanup() returns (unobserved: Option<nat>)
      modifies this`observed
      ensures unobserved == old(observed) && observed == None
    {
      unobserved := observed;
      observed := None;
    }

    /** The observer's callback with the first entry of a batch. */
    method OnIntersection(isIntersecting: bool)
      modifies this`isVisible, this`hasBeenVisible
      ensures State() == OnEntry(old(State()), isIntersecting)
    {
      isVisible := isIntersecting;
      if isIntersecting && !hasBeenVisible {
        hasBeenVisible := true;
      }
    }

    /** `[elementRef, isVisible, hasBeenVisible]`, in that order. */
    function Returned(): (r: (Option<nat>, bool, bool))
      reads this
      ensures r.0 == element && r.1 == isVisible && r.2 == hasBeenVisible
    {
      (element, isVisible, hasBeenVisible)
    }
  }
}
