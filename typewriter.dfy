/**
 * The typewriter hook (src/hooks/useTypewriter.js): reveals `text` one
 * character per timer tick, with start, pause, reset and complete controls
 * and a cursor that stays on while typing and blinks once typing is done.
 *
 * Timers are explicit: `timer` is the callback `timeoutRef` currently holds
 * and `Fired` runs it. The speed, the initial delay and the 2000 ms loop
 * pause only decide WHEN a timer fires, so they are not part of the state.
 */
module Typewriter {
  import opened Common

  /** The callback held in `timeoutRef`. */
  datatype Timer = NoTimer | NextChar | LoopRestart

  /** The hook options that change behaviour (`loop`, `cursor`, whether an `onComplete` is given). */
  datatype Options = Options(loop: bool, cursor: bool, hasOnComplete: bool)

  /**
   * The hook's state: the three React state flags and `showCursor`, the refs
   * `indexRef`, `isRunningRef` and `timeoutRef`, how many loop-restart timers
   * were left behind by a `start()` that overwrote `timeoutRef` (they can no
   * longer be cleared), and how many times `onComplete` has been called.
   */
  datatype Engine = Engine(
    displayText: string,
    isTyping: bool,
    isComplete: bool,
    showCursor: bool,
    index: nat,
    running: bool,
    timer: Timer,
    orphans: nat,
    completions: nat)

  /** What holds in every reachable state of the hook. */
  ghost predicate Inv(text: string, opts: Options, e: Engine) {
    && e.index <= |text|
    && IsPrefix(e.displayText, text)
    && (e.displayText == text[..e.index] || e.displayText == text)
    && e.isTyping == e.running
    && (e.running <==> e.timer == NextChar)
    && (e.running ==> text != "" && e.displayText == text[..e.index])
    && (e.timer == LoopRestart ==> opts.loop && e.isComplete)
    && (e.orphans > 0 ==> opts.loop)
    && (e.isComplete ==> e.displayText == text && !e.isTyping)
    && (opts.cursor && (e.isTyping || !e.isComplete) ==> e.showCursor)
    && (!opts.cursor ==> !e.showCursor)
    && (!opts.hasOnComplete ==> e.completions == 0)
  }

  /** The state on mount: nothing shown, nothing running, `showCursor` = `cursor`. */
  function Initial(text: string, opts: Options): (e: Engine)
    ensures Inv(text, opts, e)
    ensures e.displayText == "" && !e.isTyping && !e.isComplete && !e.running
    ensures e.showCursor == opts.cursor && e.index == 0 && e.timer == NoTimer
  {
    Engine("", false, false, opts.cursor, 0, false, NoTimer, 0, 0)
  }

  /** The cursor effect that runs after each render: steady on while typing or not complete. */
  function CursorEffect(opts: Options, e: Engine): Engine {
    if opts.cursor && (e.isTyping || !e.isComplete) then e.(showCursor := true) else e
  }

  /**
   * `start()`: does nothing while running or for an empty text; otherwise
   * always restarts from the first character, even after `pause()`, and
   * schedules the first tick (after `delay`).
   */
  function Started(text: string, opts: Options, e: Engine): (r: Engine)
    requires Inv(text, opts, e)
    ensures Inv(text, opts, r)
    ensures e.running || text == "" ==> r == e
    ensures !e.running && text != "" ==>
      && r.index == 0 && r.displayText == "" && r.isTyping && !r.isComplete
      && r.running && r.timer == NextChar && r.completions == e.completions
      && r.orphans == e.orphans + (if e.timer == LoopRestart then 1 else 0)
  {
    if e.running || text == "" then e
    else
      // timeoutRef is overwritten without clearTimeout: a held loop-restart timer is left behind
      var orphans := if e.timer == LoopRestart then e.orphans + 1 else e.orphans;
      CursorEffect(opts, e.(running := true, isTyping := true, isComplete := false, index := 0,
                            displayText := "", timer := NextChar, orphans := orphans))
  }

  /**
   * `typeNextChar`: reveals the next character and reschedules itself, or,
   * past the last character, finishes: typing stops, the text is complete,
   * `onComplete` runs once and, with `loop`, a restart is scheduled.
   */
  function CharTyped(text: string, opts: Options, e: Engine): (r: Engine)
    requires Inv(text, opts, e) && e.running
    ensures Inv(text, opts, r)
    ensures e.index < |text| ==>
      r.index == e.index + 1 && r.displayText == text[..e.index + 1] && r.isTyping == e.isTyping
      && r.timer == NextChar && r.completions == e.completions
    ensures e.index == |text| ==>
      && !r.isTyping && r.isComplete && !r.running && r.displayText == text
      && r.timer == (if opts.loop then LoopRestart else NoTimer)
      && r.completions == e.completions + (if opts.hasOnComplete then 1 else 0)
  {
    if e.index < |text| then
      e.(displayText := text[..e.index + 1], index := e.index + 1, timer := NextChar)
    else
      CursorEffect(opts, e.(isTyping := false, isComplete := true, running := false,
                            completions := if opts.hasOnComplete then e.completions + 1 else e.completions,
                            timer := if opts.loop then LoopRestart else NoTimer))
  }

  /** `pause()`: cancels the pending tick and stops typing; the revealed text stays. */
  function Paused(text: string, opts: Options, e: Engine): (r: Engine)
    requires Inv(text, opts, e)
    ensures Inv(text, opts, r)
    ensures r.displayText == e.displayText && r.index == e.index && r.isComplete == e.isComplete
    ensures !r.isTyping && !r.running && r.timer == NoTimer
  {
    CursorEffect(opts, e.(timer := NoTimer, isTyping := false, running := false))
  }

  /** `reset()`: back to the state on mount, apart from the cursor and the counters. */
  function Cleared(text: string, opts: Options, e: Engine): (r: Engine)
    requires Inv(text, opts, e)
    ensures Inv(text, opts, r)
    ensures r.displayText == "" && !r.isTyping && !r.isComplete && r.index == 0 && !r.running
    ensures r.timer == NoTimer && r.completions == e.completions && r.orphans == e.orphans
  {
    CursorEffect(opts, e.(timer := NoTimer, displayText := "", isTyping := false, isComplete := false,
                          index := 0, running := false))
  }

  /**
   * `complete()`: shows the whole text at once and calls `onComplete`, on
   * every call. `indexRef` is left where it was.
   */
  function Completed(text: string, opts: Options, e: Engine): (r: Engine)
    requires Inv(text, opts, e)
    ensures Inv(text, opts, r)
    ensures r.displayText == text && r.isComplete && !r.isTyping && !r.running && r.timer == NoTimer
    ensures r.completions == e.completions + (if opts.hasOnComplete then 1 else 0)
    ensures r.index == e.index
  {
    e.(timer := NoTimer, displayText := text, isTyping := false, isComplete := true, running := false,
       completions := if opts.hasOnComplete then e.completions + 1 else e.completions)
  }

  /** The callback in `timeoutRef` fires: a tick, or the loop restart (`reset()` then `start()`). */
  function Fired(text: string, opts: Options, e: Engine): (r: Engine)
    requires Inv(text, opts, e)
    ensures Inv(text, opts, r)
    ensures e.timer == NoTimer ==> r == e
    ensures e.timer == LoopRestart && text != "" ==>
      && r.running && r.index == 0 && r.displayText == "" && !r.isComplete
      && r.orphans == e.orphans && r.completions == e.completions
  {
    match e.timer
    case NoTimer => e
    case NextChar => CharTyped(text, opts, e)
    case LoopRestart => Started(text, opts, Cleared(text, opts, e))
  }

  /** A loop-restart timer that `timeoutRef` no longer holds fires: it too resets and restarts. */
  function OrphanFired(text: string, opts: Options, e: Engine): (r: Engine)
    requires Inv(text, opts, e)
    ensures Inv(text, opts, r)
    ensures e.orphans == 0 ==> r == e
    ensures e.orphans > 0 && text != "" ==> r.running && r.index == 0 && r.displayText == ""
  {
    if e.orphans == 0 then e
    else Started(text, opts, Cleared(text, opts, e.(orphans := e.orphans - 1)))
  }

  /** The 500 ms cursor interval, which only exists once typing is complete and idle. */
  function Blinked(text: string, opts: Options, e: Engine): (r: Engine)
    requires Inv(text, opts, e)
    ensures Inv(text, opts, r)
    ensures opts.cursor && !e.isTyping && e.isComplete ==> r.showCursor == !e.showCursor
    ensures !(opts.cursor && !e.isTyping && e.isComplete) ==> r == e
  {
    if opts.cursor && !e.isTyping && e.isComplete then e.(showCursor := !e.showCursor) else e
  }

  /** `n` firings of the pending timer. */
  function Ticks(text: string, opts: Options, e: Engine, n: nat): (r: Engine)
    requires Inv(text, opts, e)
    ensures Inv(text, opts, r)
  {
    if n == 0 then e else Fired(text, opts, Ticks(text, opts, e, n - 1))
  }

  /**
   * After `start()`, the k-th tick (k up to the text length) shows exactly the
   * first k characters: one more character per tick, still typing.
   */
  lemma {:induction false} TicksRevealPrefix(text: string, opts: Options, e: Engine, k: nat)
    requires Inv(text, opts, e) && !e.running && text != ""
    requires k <= |text|
    ensures var r := Ticks(text, opts, Started(text, opts, e), k);
      r.index == k && r.displayText == text[..k] && r.isTyping && r.running && !r.isComplete
      && r.completions == e.completions
  {
    if k > 0 {
      TicksRevealPrefix(text, opts, e, k - 1);
    }
  }

  /**
   * Left alone after `start()`, the engine finishes on tick |text| + 1: the
   * whole text is shown, typing has stopped, and `onComplete` ran exactly once.
   */
  lemma RunsToCompletion(text: string, opts: Options, e: Engine)
    requires Inv(text, opts, e) && !e.running && text != ""
    ensures var r := Ticks(text, opts, Started(text, opts, e), |text| + 1);
      r.displayText == text && r.isComplete && !r.isTyping && !r.running
      && r.completions == e.completions + (if opts.hasOnComplete then 1 else 0)
  {
    TicksRevealPrefix(text, opts, e, |text|);
    assert text[..|text|] == text;
  }

  /** `start()` after `pause()` does not resume: it restarts from the first character. */
  lemma StartAfterPauseRestarts(text: string, opts: Options, e: Engine)
    requires Inv(text, opts, e) && text != "" && e.index > 0
    ensures var r := Started(text, opts, Paused(text, opts, e));
      r.index == 0 && r.displayText == "" && r.index != e.index
  {
  }

  /** While typing, the cursor is on; without the `cursor` option it is never on. */
  lemma CursorRule(text: string, opts: Options, e: Engine)
    requires Inv(text, opts, e)
    ensures opts.cursor && e.isTyping ==> e.showCursor
    ensures opts.cursor && !e.isComplete ==> e.showCursor
    ensures !opts.cursor ==> !e.showCursor && !Blinked(text, opts, e).showCursor
  {
  }

  /**
   * The hook as an object: the fields are the hook's state and refs, each
   * control is a method, and `Tick` is the pending timer firing.
   */
  class TypewriterEngine {
    const text: string
    const opts: Options
    var displayText: string
    var isTyping: bool
    var isComplete: bool
    var showCursor: bool
    var index: nat
    var running: bool
    var timer: Timer
    var orphans: nat
    var completions: nat

    function State(): Engine
      reads this
    {
      Engine(displayText, isTyping, isComplete, showCursor, index, running, timer, orphans, completions)
    }

    ghost predicate Valid()
      reads this
    {
      Inv(text, opts, State())
    }

    constructor (text: string, opts: Options)
      ensures this.text == text && this.opts == opts
      ensures State() == Initial(text, opts) && Valid()
    {
      this.text := text;
      this.opts := opts;
      displayText, isTyping, isComplete, showCursor := "", false, false, opts.cursor;
      index, running, timer, orphans, completions := 0, false, NoTimer, 0, 0;
    }

    /** Runs the cursor effect: steady on while typing or not complete. */
    method SyncCursor()
      modifies this`showCursor
      ensures State() == CursorEffect(opts, old(State()))
    {
      if opts.cursor && (isTyping || !isComplete) {
        showCursor := true;
      }
    }

    method Start()
      requires Valid()
      modifies this
      ensures Valid() && State() == Started(text, opts, old(State()))
    {
      if running || text == "" {
        return;
      }
      running := true;
      isTyping := true;
      isComplete := false;
      index := 0;
      displayText := "";
      if timer == LoopRestart {
        orphans := orphans + 1;
      }
      timer := NextChar;
      SyncCursor();
    }

    /** `typeNextChar`, run only by its own timer, hence only while running. */
    method TypeNextChar()
      requires Valid() && running
      modifies this
      ensures Valid() && State() == CharTyped(text, opts, old(State()))
    {
      if index < |text| {
        displayText := text[..index + 1];
        index := index + 1;
        timer := NextChar;
      } else {
        isTyping := false;
        isComplete := true;
        running := false;
        if opts.hasOnComplete {
          completions := completions + 1;
        }
        timer := if opts.loop then LoopRestart else NoTimer;
        SyncCursor();
      }
    }

    method Pause()
      requires Valid()
      modifies this
      ensures Valid() && State() == Paused(text, opts, old(State()))
    {
      timer := NoTimer;
      isTyping := false;
      running := false;
      SyncCursor();
    }

    method Reset()
      requires Valid()
      modifies this
      ensures Valid() && State() == Cleared(text, opts, old(State()))
    {
      timer := NoTimer;
      displayText := "";
      isTyping := false;
      isComplete := false;
      index := 0;
      running := false;
      SyncCursor();
    }

    method Complete()
      requires Valid()
      modifies this
      ensures Valid() && State() == Completed(text, opts, old(State()))
    {
      timer := NoTimer;
      displayText := text;
      isTyping := false;
      isComplete := true;
      running := false;
      if opts.hasOnComplete {
        completions := completions + 1;
      }
    }

    /** The timer held in `timeoutRef` fires. */
    method Tick()
      requires Valid()
      modifies this
      ensures Valid() && State() == Fired(text, opts, old(State()))
    {
      match timer {
        case NoTimer =>
        case NextChar =>
          TypeNextChar();
        case LoopRestart =>
          Reset();
          Start();
      }
    }

    /** A loop-restart timer that `timeoutRef` no longer holds fires. */
    method OrphanTick()
      requires Valid()
      modifies this
      ensures Valid() && State() == OrphanFired(text, opts, old(State()))
    {
      if orphans > 0 {
        orphans := orphans - 1;
        Reset();
        Start();
      }
    }

    /** The cursor interval fires. */
    method BlinkTick()
      requires Valid()
      modifies this
      ensures Valid() && State() == Blinked(text, opts, old(State()))
    {
      if opts.cursor && !isTyping && isComplete {
        showCursor := !showCursor;
      }
    }
  }
}
