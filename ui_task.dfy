/**
 * One call of the UI task's `loop()`, without the drawing: the one-way switch
 * to Bluetooth on button B, the station advance on button A or else the
 * volume fade-in, and the consumption of the display dirty flags with the
 * title scroll. Also the two metadata callbacks of the decoder library.
 */
module UiTask {
  import opened RadioState

  /**
   * Button edges seen in this cycle, and the pixel width of the current
   * title text as the title sprite measures it.
   */
  datatype UiInput = UiInput(btnAPressed: bool, btnBPressed: bool, textWidth: nat)

  /** The smaller of `a` and `b`. */
  function Min(a: int, b: int): (r: int)
    ensures r <= a && r <= b && (r == a || r == b)
  {
    if a <= b then a else b
  }

  /**
   * Button A: silence the output at once, select the next station of the
   * catalog, blank both texts and raise every flag the other side consumes.
   */
  function PressButtonA(s: Globals): (r: Globals)
    ensures r.stationIndex == (s.stationIndex + 1) % NumStations < NumStations
    ensures r.volumeCurrent == 0 && r.volumeQuarters == 0 && r.volumeCurrentChangedFlag
    ensures r.stationChanged
    ensures r.stationStr == "" && r.stationUpdatedFlag
    ensures r.titleStr == "" && r.titleUpdatedFlag
    ensures AudioFieldsEqual(s, r) && r.deviceMode == s.deviceMode && r.volumeNormal == s.volumeNormal
    ensures r.titlePosX == s.titlePosX && r.titleTextWidth == s.titleTextWidth
  {
    s.(volumeCurrent := 0,
       volumeQuarters := 0,
       volumeCurrentChangedFlag := true,
       stationIndex := (s.stationIndex + 1) % NumStations,
       stationChanged := true,
       stationStr := "",
       stationUpdatedFlag := true,
       titleStr := "",
       titleUpdatedFlag := true)
  }

  /** The fade-in runs while the amplifier is unmuted and below normal volume. */
  predicate Ramping(s: Globals)
  {
    !s.stationChangedMute && s.volumeCurrent < s.volumeNormal
  }

  /**
   * One fade-in step: the accumulator grows by a quarter and the volume
   * handed to the decoder is its truncation. The volume never decreases and
   * never passes the normal volume.
   */
  function RampVolume(s: Globals): (r: Globals)
    ensures !Ramping(s) ==> r == s
    ensures Ramping(s) ==> r.volumeQuarters == s.volumeQuarters + 1 && r.volumeCurrentChangedFlag
    ensures s.volumeCurrent == s.volumeQuarters / 4 ==>
      && r.volumeCurrent == r.volumeQuarters / 4
      && s.volumeCurrent <= r.volumeCurrent
      && (s.volumeCurrent <= s.volumeNormal ==> r.volumeCurrent <= s.volumeNormal)
    ensures r == s.(volumeQuarters := r.volumeQuarters, volumeCurrent := r.volumeCurrent,
                    volumeCurrentChangedFlag := r.volumeCurrentChangedFlag)
  {
    if Ramping(s) then
      var q := s.volumeQuarters + 1;
      s.(volumeQuarters := q, volumeCurrent := q / 4, volumeCurrentChangedFlag := true)
    else
      s
  }

  /**
   * The display part of a radio-mode cycle. While the connection error is
   * raised only the error banner is drawn and nothing is consumed. Otherwise
   * both dirty flags are consumed; a new title restarts the scroll at the
   * right edge with its width capped at the sprite width, and an old one
   * moves one pixel left, wrapping to the right edge once it is fully off
   * the left edge.
   */
  function RefreshDisplay(s: Globals, textWidth: nat, screenWidth: nat): (r: Globals)
    ensures s.connectionError ==> r == s
    ensures !s.connectionError ==> !r.stationUpdatedFlag && !r.titleUpdatedFlag
    ensures !s.connectionError && s.titleUpdatedFlag ==>
      r.titlePosX == screenWidth && r.titleTextWidth == Min(textWidth, TitleSpriteWidth)
    ensures !s.connectionError && !s.titleUpdatedFlag ==>
      && r.titleTextWidth == s.titleTextWidth
      && (s.titlePosX - 1 >= -s.titleTextWidth ==> r.titlePosX == s.titlePosX - 1)
      && (s.titlePosX - 1 < -s.titleTextWidth ==> r.titlePosX == screenWidth)
    ensures 0 <= s.titleTextWidth <= TitleSpriteWidth && -s.titleTextWidth <= s.titlePosX <= screenWidth ==>
      0 <= r.titleTextWidth <= TitleSpriteWidth && -r.titleTextWidth <= r.titlePosX <= screenWidth
    ensures r == s.(stationUpdatedFlag := r.stationUpdatedFlag, titleUpdatedFlag := r.titleUpdatedFlag,
                    titlePosX := r.titlePosX, titleTextWidth := r.titleTextWidth)
  {
    if s.connectionError then
      s
    else
      var t := s.(stationUpdatedFlag := false);
      if t.titleUpdatedFlag then
        t.(titlePosX := screenWidth,
           titleTextWidth := Min(textWidth, TitleSpriteWidth),
           titleUpdatedFlag := false)
      else
        var x := t.titlePosX - 1;
        t.(titlePosX := if x < -t.titleTextWidth then screenWidth else x)
  }

  /**
   * One call of `loop()`. Button B in radio mode switches to Bluetooth and
   * stops the decoder; nothing ever switches back, and in Bluetooth mode the
   * cycle changes nothing. In radio mode button A advances the station and
   * suppresses the fade-in for that cycle. The UI task never writes the
   * fields the audio task owns, and it keeps the state invariant.
   */
  function UiStep(s: Globals, input: UiInput, screenWidth: nat): (r: Step)
    ensures s.deviceMode == A2dp ==> r == Step(s, [])
    ensures s.deviceMode == Radio && input.btnBPressed ==>
      && r.next == s.(deviceMode := A2dp)
      && r.calls == [StopSong, A2dpSetPinConfig(PinI2sBclk, PinI2sLrck, PinI2sSd), A2dpStart(DeviceName)]
    ensures s.deviceMode == Radio && !input.btnBPressed ==> r.next.deviceMode == Radio && r.calls == []
    ensures AudioFieldsEqual(s, r.next) && r.next.volumeNormal == s.volumeNormal
    ensures s.deviceMode == Radio && !input.btnBPressed && input.btnAPressed ==>
      && r.next.stationIndex == (s.stationIndex + 1) % NumStations
      && r.next.stationChanged
      && r.next.volumeCurrent == 0 && r.next.volumeQuarters == 0 && r.next.volumeCurrentChangedFlag
      && r.next.stationStr == "" && r.next.titleStr == ""
      && (s.connectionError ==> r.next.stationUpdatedFlag && r.next.titleUpdatedFlag)
    ensures s.deviceMode == Radio && !input.btnBPressed && !input.btnAPressed ==>
      && r.next.stationIndex == s.stationIndex
      && r.next.stationChanged == s.stationChanged
      && r.next.stationStr == s.stationStr && r.next.titleStr == s.titleStr
      && r.next.volumeQuarters == s.volumeQuarters + (if Ramping(s) then 1 else 0)
    ensures Inv(s, screenWidth) ==> Inv(r.next, screenWidth)
    ensures Inv(s, screenWidth) && !input.btnAPressed ==>
      s.volumeCurrent <= r.next.volumeCurrent && s.volumeQuarters <= r.next.volumeQuarters
  {
    if s.deviceMode == Radio && input.btnBPressed then
      Step(s.(deviceMode := A2dp),
           [StopSong, A2dpSetPinConfig(PinI2sBclk, PinI2sLrck, PinI2sSd), A2dpStart(DeviceName)])
    else if s.deviceMode != Radio then
      Step(s, [])
    else
      var t := if input.btnAPressed then PressButtonA(s) else RampVolume(s);
      Step(RefreshDisplay(t, input.textWidth, screenWidth), [])
  }

  /** Decoder callback with the station name from the stream header. */
  function OnShowStation(s: Globals, info: string): (r: Globals)
    ensures r.stationStr == info && r.stationUpdatedFlag
    ensures r == s.(stationStr := r.stationStr, stationUpdatedFlag := r.stationUpdatedFlag)
  {
    s.(stationStr := info, stationUpdatedFlag := true)
  }

  /** Decoder callback with the stream title from the stream metadata. */
  function OnShowStreamTitle(s: Globals, info: string): (r: Globals)
    ensures r.titleStr == info && r.titleUpdatedFlag
    ensures r == s.(titleStr := r.titleStr, titleUpdatedFlag := r.titleUpdatedFlag)
  {
    s.(titleStr := info, titleUpdatedFlag := true)
  }
}
