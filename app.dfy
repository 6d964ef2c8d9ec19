/**
 * The sketch's globals as one object whose fields the two tasks and the
 * decoder callbacks update in place. Each method is one cycle of the source,
 * written step by step, and is proved to produce the state (and the library
 * calls) that the corresponding step function describes.
 */
module App {
  import opened RadioState
  import opened AudioTask
  import opened UiTask

  class WebRadio {
    var audioBufferFilled: nat
    var audioBufferSize: nat
    var stationIndex: nat
    var stationChanged: bool
    var stationChangedMute: bool
    var stationStr: string
    var stationUpdatedFlag: bool
    var connectionError: bool
    var titleStr: string
    var titleUpdatedFlag: bool
    var titleTextWidth: int
    var titlePosX: int
    var volumeCurrent: nat
    var volumeQuarters: nat
    var volumeCurrentChangedFlag: bool
    var volumeNormal: nat
    var timeConnect: nat
    var deviceMode: DeviceMode

    /** The current values of all globals. */
    function Snapshot(): Globals
      reads this
    {
      Globals(audioBufferFilled, audioBufferSize, stationIndex, stationChanged, stationChangedMute,
              stationStr, stationUpdatedFlag, connectionError, titleStr, titleUpdatedFlag,
              titleTextWidth, titlePosX, volumeCurrent, volumeQuarters, volumeCurrentChangedFlag,
              volumeNormal, timeConnect, deviceMode)
    }

    /** The globals as declared; the title starts at the display width read at boot. */
    constructor (bootWidth: nat)
      ensures Snapshot() == Init(bootWidth)
      ensures forall w: nat :: bootWidth <= w ==> Inv(Snapshot(), w)
    {
      audioBufferFilled := 0;
      audioBufferSize := 0;
      stationIndex := 0;
      stationChanged := true;
      stationChangedMute := true;
      stationStr := "";
      stationUpdatedFlag := false;
      connectionError := false;
      titleStr := "";
      titleUpdatedFlag := false;
      titleTextWidth := 0;
      titlePosX := bootWidth;
      volumeCurrent := 0;
      volumeQuarters := 0;
      volumeCurrentChangedFlag := true;
      volumeNormal := VolumeMax;
      timeConnect := 0;
      deviceMode := Radio;
    }

    /** One pass of the audio task's loop; `calls` are the library calls it made, in order. */
    method AudioCycle(input: AudioInput) returns (calls: seq<Call>)
      requires stationIndex < NumStations
      modifies this
      ensures Step(Snapshot(), calls) == AudioStep(old(Snapshot()), input)
      ensures old(deviceMode) == Radio ==> !volumeCurrentChangedFlag && !stationChanged
    {
      calls := [];
      if deviceMode != Radio {
        return;
      }
      var volumeCalls := ApplyPendingVolume();
      var stationCalls := ProcessStationChange(input);
      var gateCalls := GateOnBuffer(input.millisAtCheck);
      calls := volumeCalls + stationCalls + gateCalls + [DecoderLoop];
      audioBufferFilled := input.filledAfterLoop;
    }

    /** Hands a requested volume to the decoder and clears the request. */
    method ApplyPendingVolume() returns (calls: seq<Call>)
      modifies this
      ensures Step(Snapshot(), calls) == ApplyVolume(old(Snapshot()))
    {
      calls := [];
      if volumeCurrentChangedFlag {
        calls := [SetVolume(volumeCurrent)];
        volumeCurrentChangedFlag := false;
      }
    }

    /** Stops, mutes and reconnects when the UI asked for another station. */
    method ProcessStationChange(input: AudioInput) returns (calls: seq<Call>)
      requires stationIndex < NumStations
      modifies this
      ensures Step(Snapshot(), calls) == ChangeStation(old(Snapshot()), input)
    {
      calls := [];
      if stationChanged {
        calls := calls + [StopSong, AudioShutdown(true)];
        stationChangedMute := true;
        var url := StationUrls[stationIndex];
        calls := calls + [ConnectToHost(url)];
        RecordConnectResult(input.connectOk, input.millisAtConnect);
        RecordBufferState(input.filledAfterConnect, input.freeAfterConnect);
      }
    }

    /** Consumes the station request and records whether connecting worked, and when. */
    method RecordConnectResult(success: bool, now: nat)
      modifies this
      ensures Snapshot() == old(Snapshot()).(stationChanged := false, connectionError := !success,
                                             timeConnect := if success then now else old(timeConnect))
    {
      if success {
        stationChanged := false;
        connectionError := false;
        timeConnect := now;
      } else {
        stationChanged := false;
        connectionError := true;
      }
    }

    /** Takes over the decoder's buffer counts; the size is what is free plus what is filled. */
    method RecordBufferState(filled: nat, free: nat)
      modifies this
      ensures Snapshot() == old(Snapshot()).(audioBufferFilled := filled, audioBufferSize := free + filled)
    {
      audioBufferFilled := filled;
      audioBufferSize := free + audioBufferFilled;
    }

    /** Unmutes once the buffer is primed, or flags a stalled stream after the grace period. */
    method GateOnBuffer(now: nat) returns (calls: seq<Call>)
      modifies this
      ensures Step(Snapshot(), calls) == PrimingGate(old(Snapshot()), now)
    {
      calls := [];
      if stationChangedMute {
        if Primed(audioBufferFilled, audioBufferSize) {
          calls := [AudioShutdown(false)];
          stationChangedMute := false;
          connectionError := false;
        } else if ElapsedMs(now, timeConnect) > StreamTimeoutMs {
          if !connectionError {
            calls := [LogBufferLow(audioBufferFilled, audioBufferSize)];
            connectionError := true;
          }
        }
      }
    }

    /**
     * The audio task's endless loop, run for one pass per element of
     * `inputs`; it ends in the state the passes produce one after another.
     */
    method RunAudioTask(inputs: seq<AudioInput>)
      requires stationIndex < NumStations
      modifies this
      ensures stationIndex == old(stationIndex)
      ensures Snapshot() == AudioRun(old(Snapshot()), inputs)
    {
      var i := 0;
      while i < |inputs|
        invariant 0 <= i <= |inputs|
        invariant stationIndex == old(stationIndex)
        invariant AudioRun(Snapshot(), inputs[i..]) == AudioRun(old(Snapshot()), inputs)
      {
        ghost var before := Snapshot();
        var _ := AudioCycle(inputs[i]);
        assert inputs[i..][1..] == inputs[i + 1..];
        assert AudioRun(before, inputs[i..]) == AudioRun(Snapshot(), inputs[i + 1..]);
        i := i + 1;
      }
    }

    /** One call of `loop()`; `calls` are the library calls it made. */
    method UiCycle(input: UiInput, screenWidth: nat) returns (calls: seq<Call>)
      modifies this
      ensures Step(Snapshot(), calls) == UiStep(old(Snapshot()), input, screenWidth)
      ensures Inv(old(Snapshot()), screenWidth) ==> Inv(Snapshot(), screenWidth)
    {
      calls := [];
      if input.btnBPressed {
        if deviceMode == Radio {
          deviceMode := A2dp;
          calls := [StopSong, A2dpSetPinConfig(PinI2sBclk, PinI2sLrck, PinI2sSd), A2dpStart(DeviceName)];
        }
      }

      if deviceMode == Radio {
        if input.btnAPressed {
          NextStation();
        } else {
          FadeInStep();
        }
        UpdateDisplay(input.textWidth, screenWidth);
      }
    }

    /** Button A: silence, advance the station, blank the texts, raise the flags. */
    method NextStation()
      modifies this
      ensures Snapshot() == PressButtonA(old(Snapshot()))
    {
      TurnDownVolume();
      AdvanceStation();
      EraseTexts();
    }

    /** Turns the volume down to silence and asks the audio task to apply it. */
    method TurnDownVolume()
      modifies this
      ensures Snapshot() == old(Snapshot()).(volumeCurrent := 0, volumeQuarters := 0, volumeCurrentChangedFlag := true)
    {
      volumeCurrent := 0;
      volumeQuarters := 0;
      volumeCurrentChangedFlag := true;
    }

    /** Selects the next station of the catalog and asks the audio task to tune to it. */
    method AdvanceStation()
      modifies this
      ensures Snapshot() == old(Snapshot()).(stationIndex := (old(stationIndex) + 1) % NumStations, stationChanged := true)
    {
      stationIndex := (stationIndex + 1) % NumStations;
      stationChanged := true;
    }

    /** Blanks the station name and the stream title and marks both for redrawing. */
    method EraseTexts()
      modifies this
      ensures Snapshot() == old(Snapshot()).(stationStr := "", stationUpdatedFlag := true, titleStr := "", titleUpdatedFlag := true)
    {
      stationStr := "";
      stationUpdatedFlag := true;
      titleStr := "";
      titleUpdatedFlag := true;
    }

    /** One quarter step of the fade-in while unmuted and below normal volume. */
    method FadeInStep()
      modifies this
      ensures Snapshot() == RampVolume(old(Snapshot()))
    {
      if !stationChangedMute && volumeCurrent < volumeNormal {
        volumeQuarters := volumeQuarters + 1;
        volumeCurrent := volumeQuarters / 4;
        volumeCurrentChangedFlag := true;
      }
    }

    /** Consumes the dirty flags and scrolls the title, unless the error banner is up. */
    method UpdateDisplay(textWidth: nat, screenWidth: nat)
      modifies this
      ensures Snapshot() == RefreshDisplay(old(Snapshot()), textWidth, screenWidth)
    {
      if !connectionError {
        if stationUpdatedFlag {
          stationUpdatedFlag := false;
        }

        if titleUpdatedFlag {
          titlePosX := screenWidth;
          titleTextWidth := Min(textWidth, TitleSpriteWidth);
          titleUpdatedFlag := false;
        } else {
          titlePosX := titlePosX - 1;
          if titlePosX < -titleTextWidth {
            titlePosX := screenWidth;
          }
        }
      }
    }

    /** Callback: the stream header named the station. */
    method ShowStation(info: string)
      modifies this
      ensures Snapshot() == OnShowStation(old(Snapshot()), info)
    {
      stationStr := info;
      stationUpdatedFlag := true;
    }

    /** Callback: the stream metadata carried a new title. */
    method ShowStreamTitle(info: string)
      modifies this
      ensures Snapshot() == OnShowStreamTitle(old(Snapshot()), info)
    {
      titleStr := info;
      titleUpdatedFlag := true;
    }
  }
}
