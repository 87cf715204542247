/**
 * The accessibility panel (src/components/AccessibilityControls.jsx): four
 * boolean flags, resolved at startup from the browser store, written back
 * on every change, toggled by Alt-key shortcuts and buttons; mute-all is
 * applied to every audio and video element of the page.
 *
 * `localStorage` is a map from keys to strings; the `matchMedia` answers
 * are parameters. The class names toggled on the document root are a set.
 */
module Accessibility {
  import opened Common

  const ReduceMotionKey := "reduce-motion"
  const HighContrastKey := "high-contrast"
  const MuteAllKey := "mute-all"

  /** The panel's four flags. */
  datatype Prefs = Prefs(isOpen: bool, reduceMotion: bool, highContrast: bool, muteAll: bool)

  const AllOff := Prefs(false, false, false, false)

  /** `localStorage.getItem(key) === 'true'`: never null, and false for an absent key. */
  predicate StoredFlag(store: map<string, string>, key: string) {
    key in store && store[key] == "true"
  }

  /** `b.toString()` */
  function Encode(b: bool): (s: string)
    ensures s == "true" || s == "false"
  {
    if b then "true" else "false"
  }

  /** What is written is read back as the same flag. */
  lemma StoredFlagOfEncode(store: map<string, string>, key: string, b: bool)
    ensures StoredFlag(store[key := Encode(b)], key) == b
  {
  }

  /**
   * The startup effect: the media queries seed reduce-motion and
   * high-contrast, but the stored comparison is a boolean, never null, so
   * it always overwrites them.
   */
  function Startup(store: map<string, string>, prefersReducedMotion: bool, prefersHighContrast: bool): (p: Prefs)
    ensures p.reduceMotion == StoredFlag(store, ReduceMotionKey)
    ensures p.highContrast == StoredFlag(store, HighContrastKey)
    ensures p.muteAll == StoredFlag(store, MuteAllKey)
    ensures !p.isOpen
  {
    var seeded := Prefs(false, prefersReducedMotion, prefersHighContrast, false);
    var savedReduceMotion := StoredFlag(store, ReduceMotionKey);
    var savedHighContrast := StoredFlag(store, HighContrastKey);
    var savedMuteAll := StoredFlag(store, MuteAllKey);
    seeded.(reduceMotion := savedReduceMotion, highContrast := savedHighContrast, muteAll := savedMuteAll)
  }

  /** The media-query answers never matter: a user who prefers reduced motion but has no stored key gets false. */
  lemma MediaQueriesIgnored(store: map<string, string>, a: bool, b: bool, c: bool, d: bool)
    ensures Startup(store, a, b) == Startup(store, c, d)
    ensures ReduceMotionKey !in store ==> !Startup(store, true, true).reduceMotion
  {
  }

  /** The store after the three persistence effects have written `p`. */
  function Persisted(store: map<string, string>, p: Prefs): (r: map<string, string>)
    ensures StoredFlag(r, ReduceMotionKey) == p.reduceMotion
    ensures StoredFlag(r, HighContrastKey) == p.highContrast
    ensures StoredFlag(r, MuteAllKey) == p.muteAll
    ensures forall k :: k in store && k != ReduceMotionKey && k != HighContrastKey && k != MuteAllKey ==> k in r && r[k] == store[k]
  {
    store[ReduceMotionKey := Encode(p.reduceMotion)][HighContrastKey := Encode(p.highContrast)][MuteAllKey := Encode(p.muteAll)]
  }

  /** Startup then write-back keeps every stored preference: reloading the page restores the same flags. */
  lemma StartupRoundTrip(store: map<string, string>, a: bool, b: bool, c: bool, d: bool)
    ensures var p := Startup(store, a, b);
      Startup(Persisted(store, p), c, d) == p
  {
  }

  /** Which flag an Alt-key shortcut negates: lower-case 'a', 'm', 'c', 's' only. */
  datatype Flag = Open | Motion | Contrast | Mute

  function ShortcutTarget(altKey: bool, key: string): (f: Option<Flag>)
    ensures f.Some? <==> altKey && (key == "a" || key == "m" || key == "c" || key == "s")
    ensures key == "A" || key == "M" || key == "C" || key == "S" ==> f.None?
  {
    if !altKey then None
    else if key == "a" then Some(Open)
    else if key == "m" then Some(Motion)
    else if key == "c" then Some(Contrast)
    else if key == "s" then Some(Mute)
    else None
  }

  function Negated(p: Prefs, f: Flag): (r: Prefs)
    ensures f == Open <==> r.isOpen != p.isOpen
    ensures f == Motion <==> r.reduceMotion != p.reduceMotion
    ensures f == Contrast <==> r.highContrast != p.highContrast
    ensures f == Mute <==> r.muteAll != p.muteAll
  {
    match f
    case Open => p.(isOpen := !p.isOpen)
    case Motion => p.(reduceMotion := !p.reduceMotion)
    case Contrast => p.(highContrast := !p.highContrast)
    case Mute => p.(muteAll := !p.muteAll)
  }

  /** The keydown handler: the flags after the key, and whether `preventDefault` was called. */
  function Shortcut(p: Prefs, altKey: bool, key: string): (r: (Prefs, bool))
    ensures r.1 <==> ShortcutTarget(altKey, key).Some?
    ensures !r.1 ==> r.0 == p
  {
    match ShortcutTarget(altKey, key)
    case Some(f) => (Negated(p, f), true)
    case None => (p, false)
  }

  /** Each shortcut is a negation: pressing it twice restores every flag. */
  lemma ShortcutInvolution(p: Prefs, altKey: bool, key: string)
    ensures Shortcut(Shortcut(p, altKey, key).0, altKey, key).0 == p
  {
  }

  /** Elements with a `muted` property: every `audio` and `video` of the page. */
  class MediaElement {
    var muted: bool

    constructor (muted: bool)
      ensures this.muted == muted
    {
      this.muted := muted;
    }
  }

  /** The panel as an object: its flags, the store, the root's class list. */
  class Panel {
    var isOpen: bool
    var reduceMotion: bool
    var highContrast: bool
    var muteAll: bool
    var store: map<string, string>
    var rootClasses: set<string>

    function State(): Prefs
      reads this
    {
      Prefs(isOpen, reduceMotion, highContrast, muteAll)
    }

    /** All four flags start false. */
    constructor (store: map<string, string>, rootClasses: set<string>)
      ensures State() == AllOff && this.store == store && this.rootClasses == rootClasses
    {
      isOpen, reduceMotion, highContrast, muteAll := false, false, false, false;
      this.store := store;
      this.rootClasses := rootClasses;
    }

    method ResolveStartup(prefersReducedMotion: bool, prefersHighContrast: bool)
      modifies this`reduceMotion, this`highContrast, this`muteAll
      ensures State() == Startup(store, prefersReducedMotion, prefersHighContrast).(isOpen := isOpen)
    {
      reduceMotion := prefersReducedMotion;
      highContrast := prefersHighContrast;
      var savedReduceMotion := StoredFlag(store, ReduceMotionKey);
      var savedHighContrast := StoredFlag(store, HighContrastKey);
      var savedMuteAll := StoredFlag(store, MuteAllKey);
      reduceMotion := savedReduceMotion;
      highContrast := savedHighContrast;
      muteAll := savedMuteAll;
    }

    /** The reduce-motion effect: the root class follows the flag and the flag is stored. */
    method ApplyReduceMotion()
      modifies this`rootClasses, this`store
      ensures rootClasses == if reduceMotion then old(rootClasses) + {ReduceMotionKey} else old(rootClasses) - {ReduceMotionKey}
      ensures store == old(store)[ReduceMotionKey := Encode(reduceMotion)]
    {
      rootClasses := if reduceMotion then rootClasses + {ReduceMotionKey} else rootClasses - {ReduceMotionKey};
      store := store[ReduceMotionKey := Encode(reduceMotion)];
    }

    /** The high-contrast effect. */
    method ApplyHighContrast()
      modifies this`rootClasses, this`store
      ensures rootClasses == if highContrast then old(rootClasses) + {HighContrastKey} else old(rootClasses) - {HighContrastKey}
      ensures store == old(store)[HighContrastKey := Encode(highContrast)]
    {
      rootClasses := if highContrast then rootClasses + {HighContrastKey} else rootClasses - {HighContrastKey};
      store := store[HighContrastKey := Encode(highContrast)];
    }

    /** The mute-all effect: every audio and video element gets `muted` = the flag, then the flag is stored. */
    method ApplyMuteAll(media: seq<MediaElement>)
      modifies set m | m in media
      modifies this`store
      ensures forall m :: m in media ==> m.muted == muteAll
      ensures store == old(store)[MuteAllKey := Encode(muteAll)]
      ensures State() == old(State())
    {
      var i := 0;
      while i < |media|
        invariant 0 <= i <= |media|
        invariant forall j :: 0 <= j < i ==> media[j].muted == muteAll
        invariant store == old(store)
      {
        if muteAll {
          media[i].muted := true;
        } else {
          media[i].muted := false;
        }
        i := i + 1;
      }
      store := store[MuteAllKey := Encode(muteAll)];
    }

    /** The document keydown listener; `prevented` is whether `preventDefault` was called. */
    method KeyDown(altKey: bool, key: string) returns (prevented: bool)
      modifies this`isOpen, this`reduceMotion, this`highContrast, this`muteAll
      ensures (State(), prevented) == Shortcut(old(State()), altKey, key)
    {
      prevented := false;
      if altKey && key == "a" {
        prevented := true;
        isOpen := !isOpen;
      }
      if altKey && key == "m" {
        prevented := true;
        reduceMotion := !reduceMotion;
      }
      if altKey && key == "c" {
        prevented := true;
        highContrast := !highContrast;
      }
      if altKey && key == "s" {
        prevented := true;
        muteAll := !muteAll;
      }
    }

    /** The settings button toggles the panel. */
    method ToggleOpen()
      modifies this`isOpen
      ensures isOpen == !old(isOpen)
    {
      isOpen := !isOpen;
    }

    /** The close button and the overlay close the panel. */
    method Close()
      modifies this`isOpen
      ensures !isOpen
    {
      isOpen := false;
    }

    /** The three switches in the panel. */
    method ToggleFlag(f: Flag)
      requires f != Open
      modifies this`reduceMotion, this`highContrast, this`muteAll
      ensures State() == Negated(old(State()), f)
    {
      match f
      case Motion => reduceMotion := !reduceMotion;
      case Contrast => highContrast := !highContrast;
      case Mute => muteAll := !muteAll;
    }
  }
}
