/**
 * Runs of the sketch: any interleaving of audio-task passes, UI-task cycles
 * and metadata callbacks, each taken as one atomic step, and what holds of
 * every such run.
 */
module Schedule {
  import opened RadioState
  import opened AudioTask
  import opened UiTask

  datatype Event =
    | AudioTick(audio: AudioInput)
    | UiTick(ui: UiInput)
    | StationName(info: string)
    | StreamTitle(info: string)

  /** The effect of one event on the globals. */
  function Apply(s: Globals, e: Event, screenWidth: nat): (r: Globals)
    requires s.stationIndex < NumStations
    ensures r.stationIndex < NumStations
  {
    match e
    case AudioTick(input) => AudioStep(s, input).next
    case UiTick(input) => UiStep(s, input, screenWidth).next
    case StationName(info) => OnShowStation(s, info)
    case StreamTitle(info) => OnShowStreamTitle(s, info)
  }

  /** The globals after the events, in order; the station index stays in the catalog. */
  function Run(s: Globals, events: seq<Event>, screenWidth: nat): (r: Globals)
    requires s.stationIndex < NumStations
    ensures r.stationIndex < NumStations
    decreases |events|
  {
    if events == [] then s else Run(Apply(s, events[0], screenWidth), events[1..], screenWidth)
  }

  predicate PressesB(e: Event)
  {
    e.UiTick? && e.ui.btnBPressed
  }

  predicate PressesA(e: Event)
  {
    e.UiTick? && e.ui.btnAPressed
  }

  /** How many UI cycles of the run saw button A; none exactly when no event presses A. */
  function CountPressesA(events: seq<Event>): (r: nat)
    ensures r == 0 <==> forall i :: 0 <= i < |events| ==> !PressesA(events[i])
  {
    if events == [] then 0 else (if PressesA(events[0]) then 1 else 0) + CountPressesA(events[1..])
  }

  /**
   * Every event keeps the invariant and the normal volume, and only a press
   * of button A lowers the volume.
   */
  lemma ApplyKeepsInv(s: Globals, e: Event, screenWidth: nat)
    requires Inv(s, screenWidth)
    ensures Inv(Apply(s, e, screenWidth), screenWidth)
    ensures Apply(s, e, screenWidth).volumeNormal == s.volumeNormal
    ensures !PressesA(e) ==> s.volumeCurrent <= Apply(s, e, screenWidth).volumeCurrent
  {
  }

  /** Every run from a state satisfying the invariant keeps it. */
  lemma {:induction false} RunKeepsInv(s: Globals, events: seq<Event>, screenWidth: nat)
    requires Inv(s, screenWidth)
    ensures Inv(Run(s, events, screenWidth), screenWidth)
    ensures Run(s, events, screenWidth).volumeNormal == s.volumeNormal
    decreases |events|
  {
    if events != [] {
      ApplyKeepsInv(s, events[0], screenWidth);
      RunKeepsInv(Apply(s, events[0], screenWidth), events[1..], screenWidth);
    }
  }

  /**
   * Every state reachable from boot satisfies the invariant, so in particular
   * the volume handed to the decoder never exceeds the library's maximum.
   */
  lemma ReachableStatesKeepInv(bootWidth: nat, screenWidth: nat, events: seq<Event>)
    requires bootWidth <= screenWidth
    ensures Inv(Run(Init(bootWidth), events, screenWidth), screenWidth)
    ensures Run(Init(bootWidth), events, screenWidth).volumeCurrent <= VolumeMax
  {
    RunKeepsInv(Init(bootWidth), events, screenWidth);
  }

  /** Once in Bluetooth mode, no run returns to radio mode. */
  lemma {:induction false} BluetoothIsFinal(s: Globals, events: seq<Event>, screenWidth: nat)
    requires s.stationIndex < NumStations && s.deviceMode == A2dp
    ensures Run(s, events, screenWidth).deviceMode == A2dp
    decreases |events|
  {
    if events != [] {
      BluetoothIsFinal(Apply(s, events[0], screenWidth), events[1..], screenWidth);
    }
  }

  /** In Bluetooth mode neither task changes any state. */
  lemma {:induction false} BluetoothTasksIdle(s: Globals, events: seq<Event>, screenWidth: nat)
    requires s.stationIndex < NumStations && s.deviceMode == A2dp
    requires forall i :: 0 <= i < |events| ==> events[i].AudioTick? || events[i].UiTick?
    ensures Run(s, events, screenWidth) == s
    decreases |events|
  {
    if events != [] {
      assert Apply(s, events[0], screenWidth) == s;
      BluetoothTasksIdle(s, events[1..], screenWidth);
    }
  }

  /**
   * Nothing but an audio pass in radio mode lifts the mute, and only on a
   * primed buffer: the one just measured after connecting when a station
   * change was pending, the stored one otherwise.
   */
  lemma UnmuteNeedsPrimedBuffer(s: Globals, e: Event, screenWidth: nat)
    requires s.stationIndex < NumStations && s.stationChangedMute
    requires !Apply(s, e, screenWidth).stationChangedMute
    ensures e.AudioTick? && s.deviceMode == Radio
    ensures s.stationChanged ==>
      Primed(e.audio.filledAfterConnect, e.audio.freeAfterConnect + e.audio.filledAfterConnect)
    ensures !s.stationChanged ==> Primed(s.audioBufferFilled, s.audioBufferSize)
  {
  }

  /** The station index after `n` presses of button A, one press at a time. */
  function Advanced(i: nat, n: nat): (r: nat)
    ensures i < NumStations ==> r < NumStations
    decreases n
  {
    if n == 0 then i else Advanced((i + 1) % NumStations, n - 1)
  }

  /** Pressing `n` times advances the index by `n` modulo the catalog size. */
  lemma {:induction false} AdvancedIsModular(i: nat, n: nat)
    requires i < NumStations
    ensures Advanced(i, n) == (i + n) % NumStations
    decreases n
  {
    if n > 0 {
      AdvancedIsModular((i + 1) % NumStations, n - 1);
      ModAddRight(i + 1, n - 1);
      assert Advanced(i, n) == Advanced((i + 1) % NumStations, n - 1);
    }
  }

  /** Reducing modulo the catalog size before adding further presses changes nothing. */
  lemma ModAddRight(a: nat, k: nat)
    ensures ((a % NumStations) + k) % NumStations == (a + k) % NumStations
  {
  }

  /** One event without button B keeps radio mode and advances the station only on button A. */
  lemma StationStep(s: Globals, e: Event, screenWidth: nat)
    requires s.stationIndex < NumStations && s.deviceMode == Radio && !PressesB(e)
    ensures Apply(s, e, screenWidth).deviceMode == Radio
    ensures Apply(s, e, screenWidth).stationIndex == if PressesA(e) then (s.stationIndex + 1) % NumStations else s.stationIndex
  {
  }

  /** Without button B the run stays in radio mode and each press of A selects the next station. */
  lemma {:induction false} StationFollowsPresses(s: Globals, events: seq<Event>, screenWidth: nat)
    requires s.stationIndex < NumStations && s.deviceMode == Radio
    requires forall i :: 0 <= i < |events| ==> !PressesB(events[i])
    ensures Run(s, events, screenWidth).deviceMode == Radio
    ensures Run(s, events, screenWidth).stationIndex == Advanced(s.stationIndex, CountPressesA(events))
    decreases |events|
  {
    if events != [] {
      var t := Apply(s, events[0], screenWidth);
      StationStep(s, events[0], screenWidth);
      StationFollowsPresses(t, events[1..], screenWidth);
      assert Run(s, events, screenWidth) == Run(t, events[1..], screenWidth);
    }
  }

  /**
   * Without button B the device stays in radio mode, and the selected
   * station has advanced by one, modulo the catalog size, per press of A.
   */
  lemma StationAdvancesPerPress(s: Globals, events: seq<Event>, screenWidth: nat)
    requires s.stationIndex < NumStations && s.deviceMode == Radio
    requires forall i :: 0 <= i < |events| ==> !PressesB(events[i])
    ensures Run(s, events, screenWidth).deviceMode == Radio
    ensures Run(s, events, screenWidth).stationIndex == (s.stationIndex + CountPressesA(events)) % NumStations
  {
    StationFollowsPresses(s, events, screenWidth);
    AdvancedIsModular(s.stationIndex, CountPressesA(events));
  }

  /** Without a press of A or B the station stays the one selected. */
  lemma StationKeptWithoutPresses(s: Globals, events: seq<Event>, screenWidth: nat)
    requires s.stationIndex < NumStations && s.deviceMode == Radio
    requires forall i :: 0 <= i < |events| ==> !PressesA(events[i]) && !PressesB(events[i])
    ensures Run(s, events, screenWidth).stationIndex == s.stationIndex
  {
    StationAdvancesPerPress(s, events, screenWidth);
  }

  /**
   * Between presses of button A the volume never decreases, through any
   * interleaving of the two tasks and the callbacks.
   */
  lemma {:induction false} VolumeMonotoneBetweenPresses(s: Globals, events: seq<Event>, screenWidth: nat)
    requires Inv(s, screenWidth)
    requires forall i :: 0 <= i < |events| ==> !PressesA(events[i])
    ensures s.volumeCurrent <= Run(s, events, screenWidth).volumeCurrent <= s.volumeNormal
    ensures Run(s, events, screenWidth).volumeNormal == s.volumeNormal
    decreases |events|
  {
    if events != [] {
      ApplyKeepsInv(s, events[0], screenWidth);
      VolumeMonotoneBetweenPresses(Apply(s, events[0], screenWidth), events[1..], screenWidth);
    }
  }

  predicate QuietUiTick(e: Event)
  {
    e.UiTick? && !e.ui.btnAPressed && !e.ui.btnBPressed
  }

  /**
   * The fade-in, once unmuted: each UI cycle adds a quarter step until the
   * accumulator reaches four times the normal volume, where it stops; the
   * volume handed to the decoder is the truncated quarter count, so it
   * arrives at the normal volume exactly and never overshoots.
   */
  lemma {:induction false} FadeInReachesNormal(s: Globals, events: seq<Event>, screenWidth: nat)
    requires Inv(s, screenWidth) && s.deviceMode == Radio && !s.stationChangedMute
    requires forall i :: 0 <= i < |events| ==> QuietUiTick(events[i])
    ensures Run(s, events, screenWidth).volumeQuarters == Min(s.volumeQuarters + |events|, 4 * s.volumeNormal)
    ensures Run(s, events, screenWidth).volumeCurrent == Min(s.volumeQuarters + |events|, 4 * s.volumeNormal) / 4
    decreases |events|
  {
    if events != [] {
      var t := Apply(s, events[0], screenWidth);
      assert Ramping(s) <==> s.volumeQuarters < 4 * s.volumeNormal;
      assert t.volumeQuarters == Min(s.volumeQuarters + 1, 4 * s.volumeNormal);
      assert Inv(t, screenWidth) && t.deviceMode == Radio && !t.stationChangedMute;
      FadeInReachesNormal(t, events[1..], screenWidth);
    }
  }
}
