/**
 * The shared state of the M5StickC web radio: the global variables that the
 * audio task and the UI task read and write, the constants they use, and the
 * calls the two tasks make into the decoder, amplifier and Bluetooth libraries.
 */
module RadioState {

  /** Highest volume the audio decoder library accepts (volumes are 0..21). */
  const VolumeMax: nat := 21

  /** Width of the stream-title sprite in pixels; bounds the scrolled text width. */
  const TitleSpriteWidth: nat := 1000

  /** Grace period after connecting within which the buffer has to be primed. */
  const StreamTimeoutMs: nat := 3000

  /** Host name announced on WiFi and used as the Bluetooth sink name. */
  const DeviceName: string := "ESP32-Webradio"

  /** I2S pins shared by the external DAC and the Bluetooth sink. */
  const PinI2sBclk: nat := 0
  const PinI2sLrck: nat := 26
  const PinI2sSd: nat := 25

  /** The station catalog, in the order button A cycles through it. */
  const StationUrls: seq<string> := [
    "http://streams.radiobob.de/bob-national/mp3-192/streams.radiobob.de/",
    "http://stream.rockantenne.de/rockantenne/stream/mp3",
    "http://wdr-wdr2-ruhrgebiet.icecast.wdr.de/wdr/wdr2/ruhrgebiet/mp3/128/stream.mp3",
    "http://streams.br.de/bayern3_2.m3u",
    "http://play.antenne.de/antenne.m3u",
    "http://funkhaus-ingolstadt.stream24.net/radio-in.mp3"
  ]

  /** Number of stations: the size of the catalog (see `CatalogSize`). */
  const NumStations: nat := 6

  /** The station count is exactly the number of catalog entries. */
  lemma CatalogSize()
    ensures |StationUrls| == NumStations
  {
  }

  /** 2^64: the connect time is a 64-bit unsigned value, so time differences wrap. */
  const Uint64Modulus: nat := 0x1_0000_0000_0000_0000

  datatype DeviceMode = Radio | A2dp

  /**
   * One snapshot of the sketch's globals. `volumeQuarters` is the float fade
   * accumulator counted in steps of 0.25 (every value it takes is k * 0.25).
   */
  datatype Globals = Globals(
    audioBufferFilled: nat,
    audioBufferSize: nat,
    stationIndex: nat,
    stationChanged: bool,
    stationChangedMute: bool,
    stationStr: string,
    stationUpdatedFlag: bool,
    connectionError: bool,
    titleStr: string,
    titleUpdatedFlag: bool,
    titleTextWidth: int,
    titlePosX: int,
    volumeCurrent: nat,
    volumeQuarters: nat,
    volumeCurrentChangedFlag: bool,
    volumeNormal: nat,
    timeConnect: nat,
    deviceMode: DeviceMode)

  /** A call into a library or the hardware, in the order a cycle makes it. */
  datatype Call =
    | SetVolume(volume: nat)
    | StopSong
    | AudioShutdown(on: bool)
    | ConnectToHost(url: string)
    | LogBufferLow(filled: nat, size: nat)
    | DecoderLoop
    | A2dpSetPinConfig(bck: nat, ws: nat, dataOut: nat)
    | A2dpStart(name: string)

  /** The state after one cycle together with the calls the cycle made. */
  datatype Step = Step(next: Globals, calls: seq<Call>)

  /**
   * The globals as declared. `bootWidth` is the display width read when the
   * globals are initialised, before the display is rotated.
   */
  function Init(bootWidth: nat): (s: Globals)
    ensures s.deviceMode == Radio && s.stationIndex == 0
    ensures s.stationChanged && s.stationChangedMute && s.volumeCurrentChangedFlag
    ensures !s.connectionError && s.volumeCurrent == 0 && s.volumeNormal == VolumeMax
    ensures forall w: nat :: bootWidth <= w ==> Inv(s, w)
  {
    Globals(
      audioBufferFilled := 0,
      audioBufferSize := 0,
      stationIndex := 0,
      stationChanged := true,
      stationChangedMute := true,
      stationStr := "",
      stationUpdatedFlag := false,
      connectionError := false,
      titleStr := "",
      titleUpdatedFlag := false,
      titleTextWidth := 0,
      titlePosX := bootWidth,
      volumeCurrent := 0,
      volumeQuarters := 0,
      volumeCurrentChangedFlag := true,
      volumeNormal := VolumeMax,
      timeConnect := 0,
      deviceMode := Radio)
  }

  /** The buffer is primed once it is more than 90 percent full. */
  predicate Primed(filled: nat, size: nat)
  {
    10 * filled > 9 * size
  }

  /**
   * Milliseconds since `since` as the sketch computes them: an unsigned 64-bit
   * subtraction, so a clock that went backwards reads as a very long delay.
   */
  function ElapsedMs(now: nat, since: nat): (d: nat)
    ensures since <= now < since + Uint64Modulus ==> d == now - since
    ensures now < since < now + Uint64Modulus - StreamTimeoutMs ==> d > StreamTimeoutMs
  {
    (now - since) % Uint64Modulus
  }

  /**
   * What holds of every reachable state for a display of width `screenWidth`:
   * the station index is in the catalog, the integer volume is the truncated
   * fade accumulator and never above normal, and the scrolled title stays
   * between fully off the left edge and the right edge.
   */
  ghost predicate Inv(s: Globals, screenWidth: nat)
  {
    && s.stationIndex < NumStations
    && s.volumeQuarters <= 4 * s.volumeNormal
    && s.volumeCurrent == s.volumeQuarters / 4
    && 0 <= s.titleTextWidth <= TitleSpriteWidth
    && -s.titleTextWidth <= s.titlePosX <= screenWidth
  }

  /** The fields only the audio task writes agree in `s` and `t`. */
  predicate AudioFieldsEqual(s: Globals, t: Globals)
  {
    && s.audioBufferFilled == t.audioBufferFilled
    && s.audioBufferSize == t.audioBufferSize
    && s.stationChangedMute == t.stationChangedMute
    && s.connectionError == t.connectionError
    && s.timeConnect == t.timeConnect
  }

  /** The fields only the UI task writes agree in `s` and `t`. */
  predicate UiFieldsEqual(s: Globals, t: Globals)
  {
    && s.stationIndex == t.stationIndex
    && s.volumeCurrent == t.volumeCurrent
    && s.volumeQuarters == t.volumeQuarters
    && s.volumeNormal == t.volumeNormal
    && s.titlePosX == t.titlePosX
    && s.titleTextWidth == t.titleTextWidth
    && s.deviceMode == t.deviceMode
  }

  /** The displayed texts and their dirty flags agree in `s` and `t`. */
  predicate TextFieldsEqual(s: Globals, t: Globals)
  {
    && s.stationStr == t.stationStr
    && s.stationUpdatedFlag == t.stationUpdatedFlag
    && s.titleStr == t.titleStr
    && s.titleUpdatedFlag == t.titleUpdatedFlag
  }
}
