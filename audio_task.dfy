/**
 * One pass of the audio task's endless loop (`audioProcessing`): apply a
 * pending volume, handle a pending station change, gate the amplifier on the
 * buffer fill level, let the decoder run, refresh the fill count.
 */
module AudioTask {
  import opened RadioState

  /**
   * What the decoder library and the clock report during one pass: whether
   * connecting succeeded, the buffer counts right after connecting, the clock
   * right after connecting and at the buffer check, and the fill count after
   * the decoder ran.
   */
  datatype AudioInput = AudioInput(
    connectOk: bool,
    filledAfterConnect: nat,
    freeAfterConnect: nat,
    millisAtConnect: nat,
    millisAtCheck: nat,
    filledAfterLoop: nat)

  /**
   * A raised volume flag is handed to the decoder and cleared; without it
   * nothing happens. No other field changes.
   */
  function ApplyVolume(s: Globals): (r: Step)
    ensures r.next == s.(volumeCurrentChangedFlag := false)
    ensures r.calls == (if s.volumeCurrentChangedFlag then [SetVolume(s.volumeCurrent)] else [])
  {
    if s.volumeCurrentChangedFlag then
      Step(s.(volumeCurrentChangedFlag := false), [SetVolume(s.volumeCurrent)])
    else
      Step(s, [])
  }

  /**
   * A pending station change stops playback, mutes the amplifier and
   * connects to the selected station; the flag is consumed whatever the
   * outcome, the error flag records a failed connect, and only a successful
   * connect moves the connect time.
   */
  function ChangeStation(s: Globals, input: AudioInput): (r: Step)
    requires s.stationIndex < NumStations
    ensures !r.next.stationChanged
    ensures !s.stationChanged ==> r == Step(s, [])
    ensures s.stationChanged ==>
      && r.calls == [StopSong, AudioShutdown(true), ConnectToHost(StationUrls[s.stationIndex])]
      && r.next.stationChangedMute
      && (r.next.connectionError <==> !input.connectOk)
      && r.next.timeConnect == (if input.connectOk then input.millisAtConnect else s.timeConnect)
      && r.next.audioBufferFilled == input.filledAfterConnect
      && r.next.audioBufferSize == input.freeAfterConnect + input.filledAfterConnect
    ensures UiFieldsEqual(s, r.next) && TextFieldsEqual(s, r.next)
    ensures r.next.volumeCurrentChangedFlag == s.volumeCurrentChangedFlag
  {
    if !s.stationChanged then
      Step(s, [])
    else
      var url := StationUrls[s.stationIndex];
      var t := s.(stationChanged := false,
                  stationChangedMute := true,
                  connectionError := !input.connectOk,
                  timeConnect := if input.connectOk then input.millisAtConnect else s.timeConnect,
                  audioBufferFilled := input.filledAfterConnect,
                  audioBufferSize := input.freeAfterConnect + input.filledAfterConnect);
      Step(t, [StopSong, AudioShutdown(true), ConnectToHost(url)])
  }

  /**
   * While muted: a primed buffer unmutes and clears the error; otherwise a
   * stall beyond the grace period raises the error, logging only when the
   * flag goes from false to true. Unmuted, nothing happens.
   */
  function PrimingGate(s: Globals, now: nat): (r: Step)
    ensures !s.stationChangedMute ==> r == Step(s, [])
    ensures s.stationChangedMute ==> (r.next.stationChangedMute <==> !Primed(s.audioBufferFilled, s.audioBufferSize))
    ensures s.stationChangedMute && Primed(s.audioBufferFilled, s.audioBufferSize) ==>
      !r.next.connectionError && r.calls == [AudioShutdown(false)]
    ensures s.stationChangedMute && !Primed(s.audioBufferFilled, s.audioBufferSize) ==>
      (r.next.connectionError <==> s.connectionError || ElapsedMs(now, s.timeConnect) > StreamTimeoutMs)
    ensures (exists f, z :: LogBufferLow(f, z) in r.calls) <==> !s.connectionError && r.next.connectionError
    ensures AudioShutdown(false) in r.calls <==> s.stationChangedMute && !r.next.stationChangedMute
    ensures r.next == s.(stationChangedMute := r.next.stationChangedMute, connectionError := r.next.connectionError)
  {
    if !s.stationChangedMute then
      Step(s, [])
    else if Primed(s.audioBufferFilled, s.audioBufferSize) then
      Step(s.(stationChangedMute := false, connectionError := false), [AudioShutdown(false)])
    else if ElapsedMs(now, s.timeConnect) > StreamTimeoutMs && !s.connectionError then
      Step(s.(connectionError := true), [LogBufferLow(s.audioBufferFilled, s.audioBufferSize)])
    else
      Step(s, [])
  }

  /**
   * One pass of the audio task. In Bluetooth mode it only idles. In radio
   * mode it consumes the volume and station flags, the amplifier is muted
   * exactly while the buffer is unprimed since the last connect, the decoder
   * runs last, and no field that the UI task owns changes.
   */
  function AudioStep(s: Globals, input: AudioInput): (r: Step)
    requires s.stationIndex < NumStations
    ensures s.deviceMode == A2dp ==> r == Step(s, [])
    ensures UiFieldsEqual(s, r.next) && TextFieldsEqual(s, r.next)
    ensures s.deviceMode == Radio ==>
      && !r.next.volumeCurrentChangedFlag
      && !r.next.stationChanged
      && r.next.audioBufferFilled == input.filledAfterLoop
      && (s.volumeCurrentChangedFlag <==> SetVolume(s.volumeCurrent) in r.calls)
      && (s.stationChanged <==> ConnectToHost(StationUrls[s.stationIndex]) in r.calls)
      && r.calls != [] && r.calls[|r.calls| - 1] == DecoderLoop
    ensures s.deviceMode == Radio && s.stationChanged ==>
      && (r.next.stationChangedMute <==>
            !Primed(input.filledAfterConnect, input.freeAfterConnect + input.filledAfterConnect))
      && r.next.audioBufferSize == input.freeAfterConnect + input.filledAfterConnect
    ensures s.deviceMode == Radio && !s.stationChanged ==>
      && (r.next.stationChangedMute <==>
            s.stationChangedMute && !Primed(s.audioBufferFilled, s.audioBufferSize))
      && r.next.audioBufferSize == s.audioBufferSize
    ensures s.deviceMode == Radio && s.stationChanged
            && !Primed(input.filledAfterConnect, input.freeAfterConnect + input.filledAfterConnect) ==>
      (r.next.connectionError <==>
         !input.connectOk || ElapsedMs(input.millisAtCheck, r.next.timeConnect) > StreamTimeoutMs)
  {
    if s.deviceMode != Radio then
      Step(s, [])
    else
      var v := ApplyVolume(s);
      var c := ChangeStation(v.next, input);
      var g := PrimingGate(c.next, input.millisAtCheck);
      assert ConnectToHost(StationUrls[s.stationIndex]) in c.calls <==> s.stationChanged;
      Step(g.next.(audioBufferFilled := input.filledAfterLoop), v.calls + c.calls + g.calls + [DecoderLoop])
  }

  /**
   * The audio task on its own for one pass per input. Running alone it never
   * touches a field that the UI task owns nor the displayed texts.
   */
  function AudioRun(s: Globals, inputs: seq<AudioInput>): (r: Globals)
    requires s.stationIndex < NumStations
    ensures UiFieldsEqual(s, r) && TextFieldsEqual(s, r)
    decreases |inputs|
  {
    if inputs == [] then s else AudioRun(AudioStep(s, inputs[0]).next, inputs[1..])
  }

  /** After no pass of the inputs is a buffer of the given size primed. */
  predicate Stalled(size: nat, inputs: seq<AudioInput>)
  {
    forall i :: 0 <= i < |inputs| ==> !Primed(inputs[i].filledAfterLoop, size)
  }

  /**
   * A raised stream error persists, and the amplifier stays muted, for as
   * long as no station change is requested and the buffer never primes.
   */
  lemma {:induction false} StreamErrorPersists(s: Globals, inputs: seq<AudioInput>)
    requires s.stationIndex < NumStations && s.deviceMode == Radio
    requires !s.stationChanged && s.stationChangedMute && s.connectionError
    requires !Primed(s.audioBufferFilled, s.audioBufferSize) && Stalled(s.audioBufferSize, inputs)
    ensures AudioRun(s, inputs).connectionError && AudioRun(s, inputs).stationChangedMute
    ensures AudioRun(s, inputs).audioBufferSize == s.audioBufferSize
    decreases |inputs|
  {
    if inputs != [] {
      var t := AudioStep(s, inputs[0]).next;
      assert t.connectionError && t.stationChangedMute && !t.stationChanged;
      assert t.audioBufferSize == s.audioBufferSize && t.deviceMode == Radio;
      StreamErrorPersists(t, inputs[1..]);
    }
  }
}
