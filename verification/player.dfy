/** The custom video controls. The media element is outside the model:
    only whether the component holds a reference to it (`hasElement`)
    matters, because every handler that touches the element first checks
    that reference. Volume is counted in twentieths (the slider's step of
    0.05), so 20 is full volume and 10 is one half. Two copies of the
    controls exist: the stand-alone `VideoHub` component and the one
    inlined in the page. They differ in the mute and volume handlers and
    in the volume icon; besides, only `VideoHub` listens to the element's
    own play and pause events and highlights the current rate in the
    speed menu. `HubStep` is the `VideoHub` copy's event set. */
module Player {

  const MaxVolume: int := 20
  /** Volume 0.5 in twentieths: the icon threshold. */
  const HalfVolume: int := 10

  type Volume = v: int | 0 <= v <= MaxVolume

  /** The four rates the speed menu offers. */
  datatype Speed = Half | Normal | OneAndHalf | Double

  const SpeedOptions: seq<Speed> := [Half, Normal, OneAndHalf, Double]

  /** The playback rate in hundredths. */
  function RateHundredths(sp: Speed): (rate: nat)
  {
    match sp
    case Half => 50
    case Normal => 100
    case OneAndHalf => 150
    case Double => 200
  }

  /** The button label `{speed}x`, as JavaScript prints the number. */
  function SpeedLabel(sp: Speed): (text: string)
  {
    match sp
    case Half => "0.5x"
    case Normal => "1x"
    case OneAndHalf => "1.5x"
    case Double => "2x"
  }

  datatype PlayerState = PlayerState(
    hasElement: bool,
    isPlaying: bool,
    volume: Volume,
    isMuted: bool,
    speed: Speed,
    showSpeedMenu: bool)

  /** The state right after mounting: paused, full volume, unmuted, 1x. */
  function InitialPlayer(hasElement: bool): (p: PlayerState)
  {
    PlayerState(hasElement, false, MaxVolume, false, Normal, false)
  }

  // ----- Handlers shared by both copies -----

  /** Play/pause: flips `isPlaying` when the element exists, else nothing. */
  function TogglePlay(p: PlayerState): (q: PlayerState)
    ensures p.hasElement ==> q == p.(isPlaying := !p.isPlaying)
    ensures !p.hasElement ==> q == p
  {
    if p.hasElement then p.(isPlaying := !p.isPlaying) else p
  }

  /** Choosing a rate stores it and closes the menu, element or not. */
  function SpeedChange(p: PlayerState, sp: Speed): (q: PlayerState)
    ensures q.speed == sp && !q.showSpeedMenu
    ensures q.(speed := p.speed, showSpeedMenu := p.showSpeedMenu) == p
  {
    p.(speed := sp, showSpeedMenu := false)
  }

  /** The rate button opens or closes the menu. */
  function ToggleSpeedMenu(p: PlayerState): (q: PlayerState)
    ensures q.showSpeedMenu != p.showSpeedMenu
    ensures q.(showSpeedMenu := p.showSpeedMenu) == p
  {
    p.(showSpeedMenu := !p.showSpeedMenu)
  }

  // ----- VideoHub copy -----

  /** The element's own `play` event. */
  function MediaPlayed(p: PlayerState): (q: PlayerState)
    ensures q.isPlaying && q.(isPlaying := p.isPlaying) == p
  {
    p.(isPlaying := true)
  }

  /** The element's own `pause` event. */
  function MediaPaused(p: PlayerState): (q: PlayerState)
    ensures !q.isPlaying && q.(isPlaying := p.isPlaying) == p
  {
    p.(isPlaying := false)
  }

  /** Volume slider: the value is always stored; the mute flag follows
      "value is zero" only when the element exists. */
  function HubVolumeChange(p: PlayerState, v: Volume): (q: PlayerState)
    ensures q.volume == v
    ensures p.hasElement ==> (q.isMuted <==> v == 0)
    ensures !p.hasElement ==> q.isMuted == p.isMuted
    ensures q.(volume := p.volume, isMuted := p.isMuted) == p
  {
    if p.hasElement then p.(volume := v, isMuted := v == 0) else p.(volume := v)
  }

  /** Mute button: flips the flag, keeps the volume; nothing without the
      element. */
  function HubToggleMute(p: PlayerState): (q: PlayerState)
    ensures p.hasElement ==> q.isMuted != p.isMuted
    ensures q.volume == p.volume
    ensures q.(isMuted := p.isMuted) == p
    ensures !p.hasElement ==> q == p
  {
    if p.hasElement then p.(isMuted := !p.isMuted) else p
  }

  // ----- Page copy -----

  /** Volume slider of the page's copy: stores the value and sets the mute
      flag to "value is zero", whether or not the element exists. */
  function PageVolumeChange(p: PlayerState, v: Volume): (q: PlayerState)
    ensures q.volume == v && (q.isMuted <==> v == 0)
    ensures q.(volume := p.volume, isMuted := p.isMuted) == p
  {
    p.(volume := v, isMuted := v == 0)
  }

  /** Mute button of the page's copy: flips the flag unconditionally. */
  function PageToggleMute(p: PlayerState): (q: PlayerState)
    ensures q.isMuted != p.isMuted
    ensures q.(isMuted := p.isMuted) == p
  {
    p.(isMuted := !p.isMuted)
  }

  // ----- What the controls display -----

  datatype VolumeIcon = VolumeOff | VolumeDown | VolumeUp

  /** VideoHub's icon: off when muted or silent, down below one half, up
      otherwise. */
  function HubVolumeIcon(p: PlayerState): (icon: VolumeIcon)
    ensures icon == VolumeOff <==> p.isMuted || p.volume == 0
    ensures icon == VolumeDown <==> !p.isMuted && 0 < p.volume < HalfVolume
    ensures icon == VolumeUp <==> !p.isMuted && p.volume >= HalfVolume
  {
    if p.isMuted || p.volume == 0 then VolumeOff
    else if p.volume < HalfVolume then VolumeDown
    else VolumeUp
  }

  /** The page copy's icon depends on the mute flag alone. */
  function PageVolumeIcon(p: PlayerState): (icon: VolumeIcon)
    ensures icon == VolumeOff <==> p.isMuted
    ensures icon != VolumeDown
  {
    if p.isMuted then VolumeOff else VolumeUp
  }

  /** The slider shows zero while muted and the stored volume otherwise. */
  function SliderValue(p: PlayerState): (v: Volume)
    ensures p.isMuted ==> v == 0
    ensures !p.isMuted ==> v == p.volume
  {
    if p.isMuted then 0 else p.volume
  }

  /** The menu entry drawn in the accent colour. */
  predicate Highlighted(p: PlayerState, option: Speed)
  {
    RateHundredths(p.speed) == RateHundredths(option)
  }

  // ----- Properties -----

  /** On mount the player is paused, unmuted at full volume, at 1x with
      the menu closed, and shows the "up" icon and a full slider. */
  lemma InitialPlayerShowsFullVolume(hasElement: bool)
    ensures !InitialPlayer(hasElement).isPlaying && !InitialPlayer(hasElement).isMuted
    ensures InitialPlayer(hasElement).speed == Normal && !InitialPlayer(hasElement).showSpeedMenu
    ensures HubVolumeIcon(InitialPlayer(hasElement)) == VolumeUp
    ensures PageVolumeIcon(InitialPlayer(hasElement)) == VolumeUp
    ensures SliderValue(InitialPlayer(hasElement)) == MaxVolume
  {
  }

  /** Toggling play twice restores the state. */
  lemma TogglePlayInvolution(p: PlayerState)
    ensures TogglePlay(TogglePlay(p)) == p
  {
  }

  lemma HubToggleMuteInvolution(p: PlayerState)
    ensures HubToggleMute(HubToggleMute(p)) == p
  {
  }

  lemma PageToggleMuteInvolution(p: PlayerState)
    ensures PageToggleMute(PageToggleMute(p)) == p
  {
  }

  /** Only the last slider position matters. */
  lemma VolumeChangeLastWins(p: PlayerState, a: Volume, b: Volume)
    ensures HubVolumeChange(HubVolumeChange(p, a), b) == HubVolumeChange(p, b)
    ensures PageVolumeChange(PageVolumeChange(p, a), b) == PageVolumeChange(p, b)
  {
  }

  lemma SpeedChangeLastWins(p: PlayerState, a: Speed, b: Speed)
    ensures SpeedChange(SpeedChange(p, a), b) == SpeedChange(p, b)
  {
  }

  /** The menu lists four distinct rates, 0.5x to 2x, and exactly one of
      them, the current rate, is highlighted. */
  lemma SpeedMenuHighlightsCurrent(p: PlayerState)
    ensures |SpeedOptions| == 4
    ensures forall i, j :: 0 <= i < j < |SpeedOptions| ==>
      RateHundredths(SpeedOptions[i]) < RateHundredths(SpeedOptions[j])
    ensures forall sp: Speed :: sp in SpeedOptions
    ensures forall i :: 0 <= i < |SpeedOptions| ==>
      (Highlighted(p, SpeedOptions[i]) <==> SpeedOptions[i] == p.speed)
  {
    forall sp: Speed
      ensures sp in SpeedOptions
    {
      match sp
      case Half => assert SpeedOptions[0] == sp;
      case Normal => assert SpeedOptions[1] == sp;
      case OneAndHalf => assert SpeedOptions[2] == sp;
      case Double => assert SpeedOptions[3] == sp;
    }
  }

  /** Labels name rates one to one. */
  lemma SpeedLabelInjective(a: Speed, b: Speed)
    requires SpeedLabel(a) == SpeedLabel(b)
    ensures a == b
  {
  }

  /** The VideoHub icon is "off" exactly when the slider shows zero. */
  lemma HubIconAgreesWithSlider(p: PlayerState)
    ensures HubVolumeIcon(p) == VolumeOff <==> SliderValue(p) == 0
    ensures HubVolumeIcon(p) == VolumeUp <==> SliderValue(p) >= HalfVolume
  {
  }

  /** Moving the VideoHub slider with the element present leaves the icon
      showing "off" exactly when the new volume is zero. */
  lemma HubSliderDrivesIcon(p: PlayerState, v: Volume)
    requires p.hasElement
    ensures HubVolumeIcon(HubVolumeChange(p, v)) == VolumeOff <==> v == 0
  {
  }

  // ----- Event traces -----

  datatype PlayerEvent =
    | ClickPlay
    | MoveVolume(v: Volume)
    | ClickMute
    | ClickSpeedButton
    | ChooseSpeed(sp: Speed)
    | ElementPlay
    | ElementPause

  /** One event on the VideoHub copy. The element's own play and pause
      events can only fire when an element exists, and a rate can only be
      chosen while the speed menu is shown. */
  function HubStep(p: PlayerState, e: PlayerEvent): (q: PlayerState)
    ensures q.hasElement == p.hasElement
  {
    match e
    case ClickPlay => TogglePlay(p)
    case MoveVolume(v) => HubVolumeChange(p, v)
    case ClickMute => HubToggleMute(p)
    case ClickSpeedButton => ToggleSpeedMenu(p)
    case ChooseSpeed(sp) => if p.showSpeedMenu then SpeedChange(p, sp) else p
    case ElementPlay => if p.hasElement then MediaPlayed(p) else p
    case ElementPause => if p.hasElement then MediaPaused(p) else p
  }

  function HubRun(p: PlayerState, es: seq<PlayerEvent>): (q: PlayerState)
    decreases |es|
  {
    if es == [] then p else HubRun(HubStep(p, es[0]), es[1..])
  }

  /** Without an element, no sequence of events ever plays the video or
      mutes it; volume, rate and menu still follow the controls. */
  lemma {:induction false} HubWithoutElementNeverPlaysOrMutes(p: PlayerState, es: seq<PlayerEvent>)
    requires !p.hasElement
    ensures HubRun(p, es).isPlaying == p.isPlaying
    ensures HubRun(p, es).isMuted == p.isMuted
    ensures !HubRun(p, es).hasElement
    decreases |es|
  {
    if es != [] {
      HubWithoutElementNeverPlaysOrMutes(HubStep(p, es[0]), es[1..]);
    }
  }

  /** With the element present, a slider move to zero leaves the video
      muted, with the "off" icon, until the next mute click or slider
      move. */
  lemma {:induction false} HubSliderToZeroMutes(p: PlayerState, es: seq<PlayerEvent>)
    requires p.hasElement
    requires |es| >= 1 && es[0] == MoveVolume(0)
    requires forall i :: 1 <= i < |es| ==> es[i] != ClickMute && !es[i].MoveVolume?
    ensures HubRun(p, es).isMuted
    ensures HubVolumeIcon(HubRun(p, es)) == VolumeOff
  {
    MuteStaysWithoutMuteControls(HubStep(p, es[0]), es[1..]);
  }

  lemma {:induction false} MuteStaysWithoutMuteControls(p: PlayerState, es: seq<PlayerEvent>)
    requires forall i :: 0 <= i < |es| ==> es[i] != ClickMute && !es[i].MoveVolume?
    ensures HubRun(p, es).isMuted == p.isMuted
    decreases |es|
  {
    if es != [] {
      MuteStaysWithoutMuteControls(HubStep(p, es[0]), es[1..]);
    }
  }
}
