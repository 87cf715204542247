/**
 * The first screen (src/components/Hero.jsx): the music buttons over the
 * audio hook, the mute toggle, and the content that appears 500 ms after
 * mounting.
 */
module Hero {
  import opened Common
  import Audio

  const MutedVolume := 0.0

  /** The hero's own state beside the audio hook: the mute flag, the content flag and its timer. */
  datatype View = View(player: Audio.Player, isMuted: bool, showContent: bool, contentTimer: bool, imageLoaded: bool)

  /**
   * `handleMuteToggle`: muting sets the volume to 0; unmuting always sets
   * 0.3, whatever the volume was before muting.
   */
  function MuteToggled(v: View): (r: View)
    requires Audio.Inv(v.player)
    ensures Audio.Inv(r.player)
    ensures r.isMuted == !v.isMuted
    ensures r.player == Audio.VolumeSet(v.player, if v.isMuted then Audio.DefaultVolume else MutedVolume)
    ensures r.showContent == v.showContent && r.contentTimer == v.contentTimer && r.imageLoaded == v.imageLoaded
  {
    if v.isMuted then v.(player := Audio.VolumeSet(v.player, Audio.DefaultVolume), isMuted := false)
    else v.(player := Audio.VolumeSet(v.player, MutedVolume), isMuted := true)
  }

  /** Muting gives volume 0; unmuting gives 0.3 (with an element to set it on). */
  lemma MuteVolumes(v: View)
    requires Audio.Inv(v.player) && v.player.handle.Some?
    ensures var r := MuteToggled(v);
      r.player.handle.Some?
      && (!v.isMuted ==> r.isMuted && r.player.handle.value.volume == 0.0)
      && (v.isMuted ==> !r.isMuted && r.player.handle.value.volume == 0.3)
  {
  }

  /**
   * Two toggles from the unmuted state end unmuted at volume 0.3, whatever
   * the volume was before: the pre-mute volume is not restored.
   */
  lemma DoubleToggle(v: View)
    requires Audio.Inv(v.player) && !v.isMuted && v.player.handle.Some?
    ensures var r := MuteToggled(MuteToggled(v));
      !r.isMuted && r.player.handle.Some? && r.player.handle.value.volume == Audio.DefaultVolume
      && (v.player.handle.value.volume != Audio.DefaultVolume ==> r.player != v.player)
  {
    var m := MuteToggled(v);
    assert m.player.handle.Some?;
  }

  /** Mounting: not muted, content hidden, the 500 ms content timer pending. */
  function Mounted(src: string): (v: View)
    ensures Audio.Inv(v.player) && !v.isMuted && !v.showContent && v.contentTimer && !v.imageLoaded
  {
    View(Audio.SourceSet(Audio.Initial, src), false, false, true, false)
  }

  /** The play and mute buttons are disabled until the audio has loaded. */
  predicate ControlsDisabled(v: View) {
    !v.player.isLoaded
  }

  /**
   * The buttons follow the audio's loading: disabled on mount, enabled by
   * `canplaythrough` on a non-empty source, disabled again by a load error,
   * and never changed by the mute toggle.
   */
  lemma ControlsFollowLoading(src: string, v: View)
    requires Audio.Inv(v.player)
    ensures ControlsDisabled(Mounted(src))
    ensures src != "" ==> !ControlsDisabled(Mounted(src).(player := Audio.CanPlay(Mounted(src).player)))
    ensures Audio.Listening(v.player) ==> ControlsDisabled(v.(player := Audio.Failed(v.player)))
    ensures ControlsDisabled(MuteToggled(v)) == ControlsDisabled(v)
  {
    var m := Mounted(src);
    if src != "" {
      assert m.player.handle == Some(Audio.NewElement(src));
      assert Audio.Listening(m.player);
    }
  }

  /** The hero as an object: the audio hook it owns and its own flags. */
  class HeroView {
    const audio: Audio.AudioPlayer
    var isMuted: bool
    var showContent: bool
    var contentTimer: bool
    var imageLoaded: bool

    function State(): View
      reads this, audio
    {
      View(audio.State(), isMuted, showContent, contentTimer, imageLoaded)
    }

    ghost predicate Valid()
      reads this, audio
    {
      audio.Valid()
    }

    constructor (musicSrc: string)
      ensures Valid() && fresh(audio) && State() == Mounted(musicSrc)
    {
      audio := new Audio.AudioPlayer(musicSrc);
      isMuted, showContent, contentTimer, imageLoaded := false, false, true, false;
    }

    /** The 500 ms timer fires: the content is shown, once. */
    method ContentTimerFires()
      requires contentTimer
      modifies this
      ensures showContent && !contentTimer
      ensures isMuted == old(isMuted) && imageLoaded == old(imageLoaded)
    {
      showContent := true;
      contentTimer := false;
    }

    /** Unmounting clears the content timer (and the audio hook cleans up). */
    method Unmount()
      requires Valid()
      modifies this, audio
      ensures Valid() && !contentTimer && showContent == old(showContent)
      ensures audio.State() == Audio.CleanedUp(old(audio.State()))
    {
      contentTimer := false;
      audio.CleanUp();
    }

    method HandleImageLoad()
      modifies this`imageLoaded
      ensures imageLoaded
    {
      imageLoaded := true;
    }

    method HandleMuteToggle()
      requires Valid()
      modifies this, audio
      ensures Valid() && State() == MuteToggled(old(State()))
    {
      if isMuted {
        audio.SetVolume(Audio.DefaultVolume);
        isMuted := false;
      } else {
        audio.SetVolume(MutedVolume);
        isMuted := true;
      }
    }

    /** The play button: `toggle` of the audio hook. */
    method HandlePlayToggle(outcome: Audio.Outcome)
      requires Valid()
      modifies audio
      ensures Valid() && audio.State() == Audio.Toggled(old(audio.State()), outcome)
    {
      audio.Toggle(outcome);
    }
  }
}
