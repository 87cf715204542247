/**
 * The shared helpers (src/utils/index.js): the WebP rewrite of image URLs,
 * the Enter/Space activation rule, the image observer's callback, and the
 * debounce and throttle wrappers.
 *
 * Timers are events: a wrapper is called at a time, and time advances to
 * a given instant, firing a due timer. The wrapped function's invocations
 * are recorded, in order, with their arguments.
 */
module Utils {
  import opened Common
  import Visibility

  predicate EndsWith(s: string, suffix: string) {
    |suffix| <= |s| && s[|s| - |suffix|..] == suffix
  }

  /** The guard of `getWebPUrl`: a lower-case `.jpg` or `.jpeg` suffix. */
  predicate HasJpegSuffix(url: string) {
    EndsWith(url, ".jpg") || EndsWith(url, ".jpeg")
  }

  /** `url` without the suffix the regular expression matches (there is only one candidate, as the suffix must end the string). */
  function Stem(url: string): string
    requires HasJpegSuffix(url)
  {
    if EndsWith(url, ".jpg") then url[..|url| - 4] else url[..|url| - 5]
  }

  /**
   * `getWebPUrl`: a JPEG URL with a lower-case suffix gets `.webp` in its
   * place and keeps everything before the suffix; every other URL is
   * returned as it is, and no result carries a JPEG suffix again.
   */
  function GetWebPUrl(url: string): (r: string)
    ensures HasJpegSuffix(url) ==> IsPrefix(Stem(url), r) && EndsWith(r, ".webp") && |r| == |Stem(url)| + 5
    ensures !HasJpegSuffix(url) ==> r == url
    ensures HasJpegSuffix(url) ==> !HasJpegSuffix(r)
  {
    if HasJpegSuffix(url) then
      var r := Stem(url) + ".webp";
      assert r[|r| - 5..] == ".webp";
      assert r[|r| - 4..] == "webp";
      r
    else url
  }

  /** Rewriting twice is rewriting once. */
  lemma GetWebPUrlIdempotent(url: string)
    ensures GetWebPUrl(GetWebPUrl(url)) == GetWebPUrl(url)
  {
    if HasJpegSuffix(url) {
      assert !HasJpegSuffix(GetWebPUrl(url));
    }
  }

  /** The guard is case-sensitive: an upper-case `.JPG` is left alone, although the regular expression itself ignores case. */
  lemma UpperCaseSuffixKept(stem: string)
    ensures GetWebPUrl(stem + ".JPG") == stem + ".JPG"
  {
    var u := stem + ".JPG";
    assert u[|u| - 4..] == ".JPG";
    assert u[|u| - 4..][1] != ".jpg"[1];
    if |u| >= 5 {
      assert u[|u| - 5..][4] == 'G';
    }
  }

  /** Rewriting a `.jpg` or `.jpeg` name gives the same `.webp` name. */
  lemma JpgAndJpegAgree(stem: string)
    ensures GetWebPUrl(stem + ".jpg") == stem + ".webp"
    ensures GetWebPUrl(stem + ".jpeg") == stem + ".webp"
  {
    var a := stem + ".jpg";
    var b := stem + ".jpeg";
    assert a[|a| - 4..] == ".jpg";
    assert a[..|a| - 4] == stem;
    assert b[|b| - 5..] == ".jpeg";
    assert b[..|b| - 5] == stem;
    assert b[|b| - 4..][0] == 'j';
  }

  /** What `handleKeyboardNavigation` does to the event and the callback. */
  datatype KeyEffects = KeyEffects(prevented: bool, callbackCalls: nat)

  /** Enter and the space bar both activate: the default is prevented and the callback runs once; any other key does nothing. */
  function HandleKeyboardNavigation(key: string): (r: KeyEffects)
    ensures r.prevented <==> key == "Enter" || key == " "
    ensures r.callbackCalls == (if r.prevented then 1 else 0)
  {
    if key == "Enter" || key == " " then KeyEffects(true, 1) else KeyEffects(false, 0)
  }

  // ---------------------------------------------------------------------
  // createImageObserver

  /** An observed entry: its target element (by number) and whether it intersects. */
  datatype Entry = Entry(target: nat, isIntersecting: bool)

  /** `createImageObserver`: no observer without browser support, otherwise one with the fixed options. */
  function CreateImageObserver(supported: bool): (r: Option<Visibility.ObserverOptions>)
    ensures r.None? <==> !supported
    ensures r.Some? ==> r.value.threshold == 0.1 && r.value.rootMargin == "50px 0px"
  {
    if !supported then None
    else Some(Visibility.ObserverOptions(Visibility.DefaultThreshold, Visibility.DefaultRootMargin))
  }

  /** The targets the callback receives for a batch, in order. */
  function IntersectingTargets(entries: seq<Entry>): seq<nat>
    decreases |entries|
  {
    if entries == [] then []
    else
      var last := entries[|entries| - 1];
      IntersectingTargets(entries[..|entries| - 1]) + (if last.isIntersecting then [last.target] else [])
  }

  /** Splitting a batch splits the callbacks: they follow the entries' order. */
  lemma {:induction false} IntersectingTargetsAppend(a: seq<Entry>, b: seq<Entry>)
    ensures IntersectingTargets(a + b) == IntersectingTargets(a) + IntersectingTargets(b)
    decreases |b|
  {
    if b == [] {
      assert a + b == a;
    } else {
      var init := b[..|b| - 1];
      assert (a + b)[..|a + b| - 1] == a + init;
      assert (a + b)[|a + b| - 1] == b[|b| - 1];
      IntersectingTargetsAppend(a, init);
    }
  }

  /** Only intersecting entries call back, and every one of them does. */
  lemma {:induction false} IntersectingTargetsMembers(entries: seq<Entry>)
    ensures forall t :: t in IntersectingTargets(entries) <==> Entry(t, true) in entries
    ensures |IntersectingTargets(entries)| <= |entries|
    decreases |entries|
  {
    if entries != [] {
      var init := entries[..|entries| - 1];
      IntersectingTargetsMembers(init);
      assert entries == init + [entries[|entries| - 1]];
      forall t
        ensures t in IntersectingTargets(entries) <==> Entry(t, true) in entries
      {
        if Entry(t, true) in entries && Entry(t, true) !in init {
          assert entries[|entries| - 1] == Entry(t, true);
        }
      }
    }
  }

  /** The observer's callback: `entries.forEach`, calling back for each intersecting entry. */
  method ObserverCallback(entries: seq<Entry>) returns (calls: seq<nat>)
    ensures calls == IntersectingTargets(entries)
  {
    calls := [];
    var i := 0;
    while i < |entries|
      invariant 0 <= i <= |entries|
      invariant calls == IntersectingTargets(entries[..i])
    {
      assert entries[..i + 1][..i] == entries[..i];
      if entries[i].isIntersecting {
        calls := calls + [entries[i].target];
      }
      i := i + 1;
    }
    assert entries[..i] == entries;
  }

  // ---------------------------------------------------------------------
  // debounce

  /** A call of the wrapper at time `at` with arguments `args`. */
  datatype TimedCall<A> = TimedCall(at: int, args: A)

  /** The debounced wrapper: the pending timer (arguments and due time), and what `func` has received. */
  datatype Debounce<A> = Debounce(pending: Option<(A, int)>, invoked: seq<A>)

  /** A call clears the pending timer and sets a new one for `wait` later with these arguments; it never invokes `func` itself. */
  function DebounceCall<A>(d: Debounce<A>, wait: int, c: TimedCall<A>): (r: Debounce<A>)
    ensures r.pending == Some((c.args, c.at + wait))
    ensures r.invoked == d.invoked
  {
    Debounce(Some((c.args, c.at + wait)), d.invoked)
  }

  /** Time reaches `now`: a due timer runs `func` with its arguments and is gone. */
  function DebounceAdvance<A>(d: Debounce<A>, now: int): (r: Debounce<A>)
    ensures d.pending.Some? && now >= d.pending.value.1 ==> r.invoked == d.invoked + [d.pending.value.0] && r.pending.None?
    ensures !(d.pending.Some? && now >= d.pending.value.1) ==> r == d
  {
    match d.pending
    case Some((args, due)) => if now >= due then Debounce(None, d.invoked + [args]) else d
    case None => d
  }

  /** A burst of calls with no timer firing in between. */
  function DebounceBurst<A>(d: Debounce<A>, wait: int, calls: seq<TimedCall<A>>): Debounce<A>
    decreases |calls|
  {
    if calls == [] then d else DebounceCall(DebounceBurst(d, wait, calls[..|calls| - 1]), wait, calls[|calls| - 1])
  }

  /** After a burst only the last call's timer is pending, and `func` has not run. */
  lemma {:induction false} DebounceBurstKeepsLast<A>(d: Debounce<A>, wait: int, calls: seq<TimedCall<A>>)
    requires calls != []
    ensures DebounceBurst(d, wait, calls).pending == Some((calls[|calls| - 1].args, calls[|calls| - 1].at + wait))
    ensures DebounceBurst(d, wait, calls).invoked == d.invoked
    decreases |calls|
  {
    if |calls| > 1 {
      DebounceBurstKeepsLast(d, wait, calls[..|calls| - 1]);
    }
  }

  /**
   * A burst followed by `wait` of quiet runs `func` exactly once, with the
   * last call's arguments; any earlier instant runs nothing.
   */
  lemma DebounceRunsOnceWithLast<A>(d: Debounce<A>, wait: int, calls: seq<TimedCall<A>>, now: int)
    requires calls != []
    ensures var last := calls[|calls| - 1];
      DebounceAdvance(DebounceBurst(d, wait, calls), now).invoked
        == if now >= last.at + wait then d.invoked + [last.args] else d.invoked
  {
    DebounceBurstKeepsLast(d, wait, calls);
  }

  /** The wrapper returned by `debounce(func, wait)`. */
  class Debouncer<A> {
    const wait: int
    var pending: Option<(A, int)>
    var invoked: seq<A>

    function State(): Debounce<A>
      reads this
    {
      Debounce(pending, invoked)
    }

    constructor (wait: int)
      ensures this.wait == wait && State() == Debounce(None, [])
    {
      this.wait := wait;
      pending, invoked := None, [];
    }

    /** `executedFunction(...args)` at time `now`. */
    method Call(now: int, args: A)
      modifies this
      ensures State() == DebounceCall(old(State()), wait, TimedCall(now, args))
    {
      // clearTimeout(timeout), then a new timer: the pending call is replaced
      pending := Some((args, now + wait));
    }

    /** Time reaches `now`. */
    method Advance(now: int)
      modifies this
      ensures State() == DebounceAdvance(old(State()), now)
    {
      if pending.Some? && now >= pending.value.1 {
        var args := pending.value.0;
        pending := None;
        invoked := invoked + [args];
      }
    }
  }

  // ---------------------------------------------------------------------
  // throttle

  /** The throttled wrapper: whether the window is open and when it closes, and what `func` has received. */
  datatype Throttle<A> = Throttle(inThrottle: bool, reopensAt: int, forwarded: seq<A>)

  /** Outside the window a call is forwarded and opens the window for `limit`; inside it the call is dropped. */
  function ThrottleCall<A>(t: Throttle<A>, limit: int, c: TimedCall<A>): (r: Throttle<A>)
    ensures !t.inThrottle ==> r == Throttle(true, c.at + limit, t.forwarded + [c.args])
    ensures t.inThrottle ==> r == t
  {
    if !t.inThrottle then Throttle(true, c.at + limit, t.forwarded + [c.args]) else t
  }

  /** Time reaches `now`: the window closes when due, and nothing dropped is replayed. */
  function ThrottleAdvance<A>(t: Throttle<A>, now: int): (r: Throttle<A>)
    ensures r.forwarded == t.forwarded
    ensures r.inThrottle <==> t.inThrottle && now < t.reopensAt
  {
    if t.inThrottle && now >= t.reopensAt then t.(inThrottle := false) else t
  }

  function ThrottleBurst<A>(t: Throttle<A>, limit: int, calls: seq<TimedCall<A>>): Throttle<A>
    decreases |calls|
  {
    if calls == [] then t else ThrottleCall(ThrottleBurst(t, limit, calls[..|calls| - 1]), limit, calls[|calls| - 1])
  }

  /**
   * A burst of calls inside one window: starting outside a window, only
   * the first call is forwarded and the window lasts `limit` from it;
   * starting inside one, nothing is.
   */
  lemma {:induction false} ThrottleForwardsFirstOnly<A>(t: Throttle<A>, limit: int, calls: seq<TimedCall<A>>)
    requires calls != []
    ensures !t.inThrottle ==> ThrottleBurst(t, limit, calls) == Throttle(true, calls[0].at + limit, t.forwarded + [calls[0].args])
    ensures t.inThrottle ==> ThrottleBurst(t, limit, calls) == t
    decreases |calls|
  {
    if |calls| > 1 {
      var init := calls[..|calls| - 1];
      ThrottleForwardsFirstOnly(t, limit, init);
      assert init[0] == calls[0];
    }
  }

  /** The wrapper returned by `throttle(func, limit)`. */
  class Throttler<A> {
    const limit: int
    var inThrottle: bool
    var reopensAt: int
    var forwarded: seq<A>

    function State(): Throttle<A>
      reads this
    {
      Throttle(inThrottle, reopensAt, forwarded)
    }

    constructor (limit: int)
      ensures this.limit == limit && !inThrottle && forwarded == []
    {
      this.limit := limit;
      inThrottle, reopensAt, forwarded := false, 0, [];
    }

    /** The wrapper called at time `now`. */
    method Call(now: int, args: A)
      modifies this
      ensures State() == ThrottleCall(old(State()), limit, TimedCall(now, args))
    {
      if !inThrottle {
        forwarded := forwarded + [args];
        inThrottle := true;
        reopensAt := now + limit;
      }
    }

    /** Time reaches `now`. */
    method Advance(now: int)
      modifies this
      ensures State() == ThrottleAdvance(old(State()), now)
    {
      if inThrottle && now >= reopensAt {
        inThrottle := false;
      }
    }
  }
}
