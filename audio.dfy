/**
 * The audio hook (src/hooks/useAudio.js): one `Audio` element per non-empty
 * `src`, the `isPlaying`/`isLoaded`/`error` flags driven by the element's
 * events and by `play`, `pause`, `toggle` and `setVolume`.
 *
 * The element is a value: its source, the three properties the hook sets,
 * whether it is paused and whether the hook's listeners are still attached.
 * `play()`'s promise is the parameter `outcome`; the guard is read when
 * `play` is called and the outcome applied when it settles.
 */
module Audio {
  import opened Common

  const DefaultVolume := 0.3
  const LoadError := "音频加载失败"
  const PlayError := "播放失败，可能需要用户交互"

  /** An `Audio` element as far as the hook touches it. */
  datatype Element = Element(src: string, loop: bool, volume: real, preload: string, paused: bool, listening: bool)

  /** How the promise returned by `element.play()` settles. */
  datatype Outcome = Resolved | Rejected

  /**
   * The hook's state: `audioRef.current`, the elements whose effect has been
   * cleaned up (in order), and the three state flags.
   */
  datatype Player = Player(
    handle: Option<Element>,
    released: seq<Element>,
    isPlaying: bool,
    isLoaded: bool,
    error: Option<string>)

  /** An element after the effect's cleanup: listeners removed, paused, `src` cleared. */
  ghost predicate IsTornDown(h: Element) {
    !h.listening && h.paused && h.src == ""
  }

  /**
   * What holds in every reachable state: only the current element can still
   * have listeners, a listening element has a source, every released element
   * is torn down, and playing or loaded needs an element.
   */
  ghost predicate Inv(a: Player) {
    && (a.handle.Some? && a.handle.value.listening ==> a.handle.value.src != "")
    && (forall i :: 0 <= i < |a.released| ==> IsTornDown(a.released[i]))
    && (a.isPlaying ==> a.handle.Some?)
    && (a.isLoaded ==> a.handle.Some?)
  }

  /** `Math.max(0, Math.min(1, volume))` (NaN is not modelled). */
  function Clamp(v: real): (r: real)
    ensures 0.0 <= r <= 1.0
    ensures 0.0 <= v <= 1.0 ==> r == v
    ensures v < 0.0 ==> r == 0.0
    ensures v > 1.0 ==> r == 1.0
  {
    var m := if 1.0 < v then 1.0 else v;
    if 0.0 > m then 0.0 else m
  }

  /** Nothing loaded, nothing playing, no element. */
  const Initial := Player(None, [], false, false, None)

  /** `new Audio(src)` with loop on, volume 0.3 and preload 'metadata', listeners attached. */
  function NewElement(src: string): (h: Element)
    ensures h.src == src && h.loop && h.volume == DefaultVolume && h.preload == "metadata"
    ensures h.paused && h.listening
  {
    Element(src, true, DefaultVolume, "metadata", true, true)
  }

  /** The effect's cleanup on an element. */
  function TornDown(h: Element): (r: Element)
    ensures IsTornDown(r)
    ensures r.loop == h.loop && r.volume == h.volume && r.preload == h.preload
  {
    h.(listening := false, paused := true, src := "")
  }

  /** Runs the cleanup of the previous effect, if that effect created an element. */
  function CleanedUp(a: Player): (r: Player)
    requires Inv(a)
    ensures Inv(r)
    ensures a.handle.Some? && a.handle.value.listening ==>
      && r.handle == Some(TornDown(a.handle.value))
      && r.released == a.released + [TornDown(a.handle.value)]
    ensures !(a.handle.Some? && a.handle.value.listening) ==> r == a
    ensures r.isPlaying == a.isPlaying && r.isLoaded == a.isLoaded && r.error == a.error
  {
    if a.handle.Some? && a.handle.value.listening then
      var h := TornDown(a.handle.value);
      a.(handle := Some(h), released := a.released + [h])
    else a
  }

  /**
   * The effect on a new `src`: the previous element is torn down first; an
   * empty `src` creates nothing (and `audioRef` keeps the old element). The
   * flags are left as they were.
   */
  function SourceSet(a: Player, src: string): (r: Player)
    requires Inv(a)
    ensures Inv(r)
    ensures src != "" ==> r.handle == Some(NewElement(src))
    ensures src == "" ==> r.handle == CleanedUp(a).handle
    ensures r.released == CleanedUp(a).released
    ensures r.isPlaying == a.isPlaying && r.isLoaded == a.isLoaded && r.error == a.error
  {
    var c := CleanedUp(a);
    if src == "" then c else c.(handle := Some(NewElement(src)))
  }

  /** The current element's listeners still attached: its events reach the hook. */
  predicate Listening(a: Player) {
    a.handle.Some? && a.handle.value.listening
  }

  /** `canplaythrough`: loaded, error cleared. */
  function CanPlay(a: Player): (r: Player)
    requires Inv(a)
    ensures Inv(r)
    ensures Listening(a) ==> r == a.(isLoaded := true, error := None)
    ensures !Listening(a) ==> r == a
  {
    if Listening(a) then a.(isLoaded := true, error := None) else a
  }

  /** `error`: the load-failure message, not loaded, not playing. */
  function Failed(a: Player): (r: Player)
    requires Inv(a)
    ensures Inv(r)
    ensures Listening(a) ==> r == a.(error := Some(LoadError), isLoaded := false, isPlaying := false)
    ensures !Listening(a) ==> r == a
  {
    if Listening(a) then a.(error := Some(LoadError), isLoaded := false, isPlaying := false) else a
  }

  /** `ended`: not playing. */
  function Ended(a: Player): (r: Player)
    requires Inv(a)
    ensures Inv(r)
    ensures Listening(a) ==> r == a.(isPlaying := false)
    ensures !Listening(a) ==> r == a
  {
    if Listening(a) then a.(isPlaying := false) else a
  }

  /**
   * `play()`: nothing without an element or before loading; a resolved play
   * sets `isPlaying`, a rejected one records the message and clears it.
   */
  function Played(a: Player, outcome: Outcome): (r: Player)
    requires Inv(a)
    ensures Inv(r)
    ensures a.handle.None? || !a.isLoaded ==> r == a
    ensures a.handle.Some? && a.isLoaded && outcome == Resolved ==>
      r == a.(handle := Some(a.handle.value.(paused := false)), isPlaying := true)
    ensures a.handle.Some? && a.isLoaded && outcome == Rejected ==>
      r == a.(error := Some(PlayError), isPlaying := false)
  {
    if a.handle.None? || !a.isLoaded then a
    else if outcome == Resolved then a.(handle := Some(a.handle.value.(paused := false)), isPlaying := true)
    else a.(error := Some(PlayError), isPlaying := false)
  }

  /** `pause()`: with an element, pauses it and clears `isPlaying`; without one, nothing. */
  function PausedPlayer(a: Player): (r: Player)
    requires Inv(a)
    ensures Inv(r)
    ensures a.handle.Some? ==> !r.isPlaying && r.handle == Some(a.handle.value.(paused := true))
    ensures a.handle.None? ==> r == a
    ensures r.isLoaded == a.isLoaded && r.error == a.error && r.released == a.released
  {
    if a.handle.Some? then a.(handle := Some(a.handle.value.(paused := true)), isPlaying := false) else a
  }

  /** `toggle()`: pause when playing, play otherwise. */
  function Toggled(a: Player, outcome: Outcome): (r: Player)
    requires Inv(a)
    ensures Inv(r)
  {
    if a.isPlaying then PausedPlayer(a) else Played(a, outcome)
  }

  /** `setVolume(v)`: the clamped volume on the element; dropped without one. */
  function VolumeSet(a: Player, v: real): (r: Player)
    requires Inv(a)
    ensures Inv(r)
    ensures a.handle.Some? ==> r.handle.Some? && r.handle.value.volume == Clamp(v)
    ensures a.handle.None? ==> r == a
    ensures r.isPlaying == a.isPlaying && r.isLoaded == a.isLoaded && r.error == a.error
  {
    if a.handle.Some? then a.(handle := Some(a.handle.value.(volume := Clamp(v)))) else a
  }

  /** `pause` is idempotent. */
  lemma PauseIdempotent(a: Player)
    requires Inv(a)
    ensures PausedPlayer(PausedPlayer(a)) == PausedPlayer(a)
  {
  }

  /** `toggle` while playing ends paused; while not playing it is exactly `play`. */
  lemma ToggleCases(a: Player, outcome: Outcome)
    requires Inv(a)
    ensures a.isPlaying ==> !Toggled(a, outcome).isPlaying && Toggled(a, outcome).handle.value.paused
    ensures !a.isPlaying ==> Toggled(a, outcome) == Played(a, outcome)
    ensures !a.isPlaying && a.isLoaded && outcome == Resolved ==> Toggled(a, outcome).isPlaying
  {
  }

  /** Setting the volume twice is setting it once with the second value, and the result is within [0, 1]. */
  lemma VolumeLastWins(a: Player, v: real, w: real)
    requires Inv(a)
    ensures VolumeSet(VolumeSet(a, v), w) == VolumeSet(a, w)
  {
  }

  /**
   * Changing the source releases the element the previous effect created,
   * torn down, before the new one is installed; an empty source creates none.
   */
  lemma SourceChangeReleasesOld(a: Player, src: string)
    requires Inv(a) && Listening(a)
    ensures var r := SourceSet(a, src);
      |r.released| == |a.released| + 1 && r.released[|a.released|] == TornDown(a.handle.value)
      && IsTornDown(r.released[|a.released|])
      && (src == "" ==> !Listening(r))
      && (src != "" ==> Listening(r) && r.handle.value.src == src)
  {
  }

  /** Events from an element whose listeners were removed change nothing. */
  lemma ReleasedElementIsInert(a: Player, outcome: Outcome)
    requires Inv(a) && !Listening(a)
    ensures CanPlay(a) == a && Failed(a) == a && Ended(a) == a
  {
  }

  /**
   * `useAudio` as an object: `audioRef.current`, the released elements and
   * the flags; each handler and control is a method.
   */
  class AudioPlayer {
    var handle: Option<Element>
    var released: seq<Element>
    var isPlaying: bool
    var isLoaded: bool
    var error: Option<string>

    function State(): Player
      reads this
    {
      Player(handle, released, isPlaying, isLoaded, error)
    }

    ghost predicate Valid()
      reads this
    {
      Inv(State())
    }

    /** Mounting with `src`: the effect runs once. */
    constructor (src: string)
      ensures Valid() && State() == SourceSet(Initial, src)
    {
      handle, released, isPlaying, isLoaded, error := None, [], false, false, None;
      if src != "" {
        handle := Some(NewElement(src));
      }
    }

    /** The effect's cleanup: on a `src` change (before the next run) and on unmount. */
    method CleanUp()
      requires Valid()
      modifies this
      ensures Valid() && State() == CleanedUp(old(State()))
    {
      if handle.Some? && handle.value.listening {
        var h := TornDown(handle.value);
        handle := Some(h);
        released := released + [h];
      }
    }

    /** A new `src`: cleanup of the previous run, then the effect with the new source. */
    method SetSource(src: string)
      requires Valid()
      modifies this
      ensures Valid() && State() == SourceSet(old(State()), src)
    {
      CleanUp();
      if src != "" {
        handle := Some(NewElement(src));
      }
    }

    method OnCanPlayThrough()
      requires Valid()
      modifies this
      ensures Valid() && State() == CanPlay(old(State()))
    {
      if handle.Some? && handle.value.listening {
        isLoaded := true;
        error := None;
      }
    }

    method OnError()
      requires Valid()
      modifies this
      ensures Valid() && State() == Failed(old(State()))
    {
      if handle.Some? && handle.value.listening {
        error := Some(LoadError);
        isLoaded := false;
        isPlaying := false;
      }
    }

    method OnEnded()
      requires Valid()
      modifies this
      ensures Valid() && State() == Ended(old(State()))
    {
      if handle.Some? && handle.value.listening {
        isPlaying := false;
      }
    }

    method Play(outcome: Outcome)
      requires Valid()
      modifies this
      ensures Valid() && State() == Played(old(State()), outcome)
    {
      if handle.None? || !isLoaded {
        return;
      }
      match outcome {
        case Resolved =>
          handle := Some(handle.value.(paused := false));
          isPlaying := true;
        case Rejected =>
          error := Some(PlayError);
          isPlaying := false;
      }
    }

    method Pause()
      requires Valid()
      modifies this
      ensures Valid() && State() == PausedPlayer(old(State()))
    {
      if handle.Some? {
        handle := Some(handle.value.(paused := true));
        isPlaying := false;
      }
    }

    method Toggle(outcome: Outcome)
      requires Valid()
      modifies this
      ensures Valid() && State() == Toggled(old(State()), outcome)
    {
      if isPlaying {
        Pause();
      } else {
        Play(outcome);
      }
    }

    method SetVolume(v: real)
      requires Valid()
      modifies this
      ensures Valid() && State() == VolumeSet(old(State()), v)
    {
      if handle.Some? {
        handle := Some(handle.value.(volume := Clamp(v)));
      }
    }
  }
}
