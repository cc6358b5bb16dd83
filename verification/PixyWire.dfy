/**
  The reports the daemon exchanges with the camera: the config/commit dialect,
  the V2 command heads, and the parsers of the answers.
*/
module PixyWire {
  import opened Base
  import opened Float32

  // ---------------------------------------------------------------------
  // Modes and their wire bytes
  // ---------------------------------------------------------------------

  datatype CameraState = Idle | Tracking | Privacy | Offline
  datatype AudioMode = NC | Live | Original

  const PREFIX: Byte := 0x09
  const MARKER: Byte := 0x01
  const IF_TRACKING: Byte := 0x01
  const IF_AUDIO: Byte := 0x05
  const IF_GESTURE: Byte := 0x04
  const GESTURE_ON: Byte := 0x01
  const MIN_LEN: nat := 9
  const SEND_LEN: nat := 32
  const RESPONSE_LEN: nat := 64

  function CameraByte(c: CameraState): Byte {
    match c
    case Tracking => 1
    case Privacy => 2
    case Idle => 0
    case Offline => 0
  }

  function AudioByte(m: AudioMode): Byte {
    match m
    case NC => 1
    case Live => 2
    case Original => 3
  }

  function CameraOfByte(b: Byte): CameraState {
    if b == 1 then Tracking else if b == 2 then Privacy else Idle
  }

  function AudioOfByte(b: Byte): AudioMode {
    if b == 2 then Live else if b == 3 then Original else NC
  }

  predicate ValidInterface(iface: Byte) {
    iface == IF_TRACKING || iface == IF_AUDIO || iface == IF_GESTURE
  }

  predicate ValidMode(iface: Byte, mode: Byte) {
    || (iface == IF_TRACKING && mode <= 2)
    || (iface == IF_AUDIO && 1 <= mode <= 3)
    || (iface == IF_GESTURE && mode <= 1)
  }

  function Zeros(n: nat): seq<Byte> {
    seq(n, _ => 0 as Byte)
  }

  function Config(iface: Byte, mode: Byte): seq<Byte> {
    [PREFIX, iface, MARKER, 0, 0, MARKER, 0, MARKER, mode]
  }

  function Commit(iface: Byte): seq<Byte> {
    [PREFIX, iface, MARKER, iface]
  }

  /** What reaches the node: a 32-byte buffer with the report copied into it. */
  function Sent(report: seq<Byte>): (buf: seq<Byte>)
    ensures |buf| == SEND_LEN
  {
    if |report| <= SEND_LEN then report + Zeros(SEND_LEN - |report|) else report[..SEND_LEN]
  }

  // ---------------------------------------------------------------------
  // Answers of the config/commit dialect
  // ---------------------------------------------------------------------

  datatype HidResponse = HidResponse(tracking: CameraState, audio: AudioMode, gesture: bool, got: bool)

  function ParseHidResponse(data: seq<Byte>): HidResponse {
    var blank := HidResponse(Idle, NC, false, true);
    if |data| < MIN_LEN then blank.(got := false)
    else if data[0] == PREFIX && data[1] == IF_TRACKING then
      blank.(tracking := CameraOfByte(data[8]), got := data[8] <= 2)
    else if data[0] == PREFIX && data[1] == IF_AUDIO then
      blank.(audio := AudioOfByte(data[8]), got := 1 <= data[8] <= 3)
    else if data[0] == PREFIX && data[1] == IF_GESTURE then
      blank.(gesture := data[|data| - 1] == GESTURE_ON)
    else blank.(got := false)
  }

  /**
    What counts as an answer: at least nine bytes under the prefix, with a known mode
    of camera or audio in the ninth, or of the gesture interface, where the last byte
    tells on from off.
  */
  lemma AnswerMeans(data: seq<Byte>)
    ensures var r := ParseHidResponse(data);
            var framed := |data| >= 9 && data[0] == 0x09;
            && (r.got <==> framed && ((data[1] == 0x01 && data[8] <= 2) || (data[1] == 0x05 && 1 <= data[8] <= 3)
                                      || data[1] == 0x04))
            && r.tracking == (if framed && data[1] == 0x01 && data[8] == 1 then Tracking
                              else if framed && data[1] == 0x01 && data[8] == 2 then Privacy else Idle)
            && r.audio == (if framed && data[1] == 0x05 && data[8] == 2 then Live
                           else if framed && data[1] == 0x05 && data[8] == 3 then Original else NC)
            && (r.gesture <==> framed && data[1] == 0x04 && data[|data| - 1] == 1)
  {
  }

  const QUERY_TRACKING: seq<Byte> := [PREFIX, IF_TRACKING, 1, 1]
  const QUERY_AUDIO: seq<Byte> := [PREFIX, IF_AUDIO, 0, 4]
  const QUERY_GESTURE: seq<Byte> := [PREFIX, IF_GESTURE, 2, 1, 0, MARKER, 0, MARKER, 2]

  // ---------------------------------------------------------------------
  // V2 commands
  // ---------------------------------------------------------------------

  datatype Head = Head(report: Byte, dev: Byte, cat: Byte, id: Byte) {
    function Bytes(): seq<Byte> {
      [report, dev, cat, id]
    }

    function WithIface(iface: Byte): Head {
      this.(dev := iface)
    }
  }

  const DEV_MOTOR: Byte := 0x03
  const MOTOR_MCU: Byte := 0x63
  const SET_MOTOR_SPEED := Head(PREFIX, DEV_MOTOR, 0x01, 0x03)
  const GET_MOTOR_SPEED := Head(PREFIX, DEV_MOTOR, 0x01, 0x13)
  const SET_MOTOR_POS := Head(PREFIX, DEV_MOTOR, 0x01, 0x01)
  const GET_MOTOR_POS := Head(PREFIX, DEV_MOTOR, 0x01, 0x02)
  const SET_PRESET_POS := Head(PREFIX, DEV_MOTOR, 0x01, 0x19)
  const SET_PRESET_POS_MODE := Head(PREFIX, DEV_MOTOR, 0x01, 0x16)
  const GET_PRESET_POS_MODE := Head(PREFIX, DEV_MOTOR, 0x01, 0x17)
  const SET_TARGET_TRACK := Head(PREFIX, 0x04, 0x01, 0x01)
  const GET_TARGET_TRACK := Head(PREFIX, 0x04, 0x01, 0x02)
  const GET_BATTERY_LEVEL := Head(PREFIX, 0x00, 0x00, 0x02)
  const GET_CHARGE_STA := Head(PREFIX, 0x00, 0x00, 0x06)
  const GET_FUNC_STA := Head(PREFIX, 0x01, 0x00, 0x0d)
  const GET_SN := Head(PREFIX, 0x01, 0x00, 0x04)
  const GET_VER := Head(PREFIX, 0x01, 0x00, 0x05)
  const GET_DEVICE_VER := Head(PREFIX, 0x01, 0x00, 0x0f)
  const GET_DEVICE_MODE := Head(PREFIX, 0x02, 0x01, 0x00)

  const PAN: Byte := 0
  const TILT: Byte := 1
  const ZOOM: Byte := 2

  function MotorPayload(motor: Byte, value: U32): seq<Byte> {
    [motor] + Le32(value)
  }

  function MotorSpeedReport(motor: Byte, speed: U32): seq<Byte> {
    SET_MOTOR_SPEED.WithIface(MOTOR_MCU).Bytes() + MotorPayload(motor, speed)
  }

  function MotorPosReport(motor: Byte, pos: U32): seq<Byte> {
    SET_MOTOR_POS.WithIface(MOTOR_MCU).Bytes() + MotorPayload(motor, pos)
  }

  function PresetPosReport(slot: Byte): seq<Byte> {
    SET_PRESET_POS.WithIface(MOTOR_MCU).Bytes() + [slot]
  }

  function TargetTrackReport(mode: Byte): seq<Byte> {
    SET_TARGET_TRACK.Bytes() + [mode] + Zeros(12)
  }

  const PRESET_HEAD := GET_PRESET_POS_MODE.WithIface(MOTOR_MCU)

  function PresetQuery(slot: Byte): seq<Byte> {
    PRESET_HEAD.Bytes() + [slot]
  }

  // ---------------------------------------------------------------------
  // The bytes on the wire
  // ---------------------------------------------------------------------

  /** The two reports of a mode write and the three mode queries, byte by byte. */
  lemma ModeBytesSent(mode: Byte)
    ensures Config(IF_TRACKING, mode) == [0x09, 0x01, 0x01, 0x00, 0x00, 0x01, 0x00, 0x01, mode]
    ensures Config(IF_AUDIO, mode) == [0x09, 0x05, 0x01, 0x00, 0x00, 0x01, 0x00, 0x01, mode]
    ensures Config(IF_GESTURE, mode) == [0x09, 0x04, 0x01, 0x00, 0x00, 0x01, 0x00, 0x01, mode]
    ensures Commit(IF_TRACKING) == [0x09, 0x01, 0x01, 0x01] && Commit(IF_AUDIO) == [0x09, 0x05, 0x01, 0x05]
    ensures Commit(IF_GESTURE) == [0x09, 0x04, 0x01, 0x04]
    ensures CameraByte(Idle) == 0 && CameraByte(Tracking) == 1 && CameraByte(Privacy) == 2 && CameraByte(Offline) == 0
    ensures GESTURE_ON == 1
    ensures AudioByte(NC) == 1 && AudioByte(Live) == 2 && AudioByte(Original) == 3
    ensures QUERY_TRACKING == [0x09, 0x01, 0x01, 0x01] && QUERY_AUDIO == [0x09, 0x05, 0x00, 0x04]
    ensures QUERY_GESTURE == [0x09, 0x04, 0x02, 0x01, 0x00, 0x01, 0x00, 0x01, 0x02]
  {
  }

  /** A 32-bit word, lowest byte first. */
  function LowestFirst(v: U32): seq<Byte> {
    [(v % 256) as Byte, (v / 256 % 256) as Byte, (v / 65536 % 256) as Byte, (v / 16777216) as Byte]
  }

  /** The motor, preset and target reports, byte by byte; motors 0, 1 and 2 are pan, tilt and zoom. */
  lemma MotorBytesSent(v: U32, slot: Byte, mode: Byte)
    ensures MotorSpeedReport(PAN, v) == [0x09, 0x63, 0x01, 0x03, 0] + LowestFirst(v)
    ensures MotorSpeedReport(TILT, v) == [0x09, 0x63, 0x01, 0x03, 1] + LowestFirst(v)
    ensures MotorSpeedReport(ZOOM, v) == [0x09, 0x63, 0x01, 0x03, 2] + LowestFirst(v)
    ensures MotorPosReport(PAN, v) == [0x09, 0x63, 0x01, 0x01, 0] + LowestFirst(v)
    ensures MotorPosReport(TILT, v) == [0x09, 0x63, 0x01, 0x01, 1] + LowestFirst(v)
    ensures MotorPosReport(ZOOM, v) == [0x09, 0x63, 0x01, 0x01, 2] + LowestFirst(v)
    ensures PresetPosReport(slot) == [0x09, 0x63, 0x01, 0x19, slot]
    ensures PresetQuery(slot) == [0x09, 0x63, 0x01, 0x17, slot]
    ensures TargetTrackReport(mode) == [0x09, 0x04, 0x01, 0x01, mode, 0, 0, 0, 0, 0, 0, 0, 0, 0, 0, 0, 0]
  {
  }

  datatype V2Error = ResponseShort | HeadMismatch

  const PAYLOAD_OFFSET: nat := 8

  /** The head as sent is echoed; only the low five bits of the device byte are compared. */
  predicate EchoMatches(echo: Head, want: Head) {
    echo.report == want.report && echo.dev % 0x20 == want.dev % 0x20 && echo.cat == want.cat && echo.id == want.id
  }

  function V2Payload(want: Head, resp: seq<Byte>, need: nat): (r: Result<seq<Byte>, V2Error>)
    ensures r.Ok? ==> |r.value| >= need && |resp| == PAYLOAD_OFFSET + |r.value|
  {
    if |resp| < 4 then Err(ResponseShort)
    else if !EchoMatches(Head(resp[0], resp[1], resp[2], resp[3]), want) then Err(HeadMismatch)
    else if |resp| < PAYLOAD_OFFSET + need then Err(ResponseShort)
    else Ok(resp[PAYLOAD_OFFSET..])
  }

  /**
    An answer made of an echoed head, four reserved bytes and a body parses to the
    body exactly when the echo matches, in either routing, and the body suffices.
  */
  lemma FramedPayload(want: Head, echo: Head, reserved: seq<Byte>, body: seq<Byte>, need: nat)
    requires |reserved| == 4
    ensures V2Payload(want, echo.Bytes() + reserved + body, need) ==
            if !EchoMatches(echo, want) then Err(HeadMismatch)
            else if |body| < need then Err(ResponseShort)
            else Ok(body)
    ensures EchoMatches(want.WithIface(DEV_MOTOR), want.WithIface(MOTOR_MCU))
  {
    var a := echo.Bytes() + reserved + body;
    assert a[0] == echo.report && a[1] == echo.dev && a[2] == echo.cat && a[3] == echo.id;
    assert a[PAYLOAD_OFFSET..] == body;
  }

  /** Answers of any length: four bytes suffice to see a wrong echo, eight and the body wanted to be taken. */
  lemma AnswerLengths(want: Head, resp: seq<Byte>, need: nat)
    ensures V2Payload(want, resp, need).Ok?
            <==> && |resp| >= 8 + need && resp[0] == want.report && resp[1] % 32 == want.dev % 32
                 && resp[2] == want.cat && resp[3] == want.id
    ensures V2Payload(want, resp, need) == Err(HeadMismatch)
            <==> && |resp| >= 4
                 && (resp[0] != want.report || resp[1] % 32 != want.dev % 32 || resp[2] != want.cat
                     || resp[3] != want.id)
  {
  }

  const POSITIONED: Byte := 1
  const FULL_LEN: nat := 14

  /** A slot as read back; the three positions are bit patterns. */
  datatype Reading = Reading(slot: Byte, mode: Byte, pan: U32, tilt: U32, zoom: U32, hasPos: bool) {
    predicate Occupied() {
      mode == POSITIONED
    }
  }

  function ParsePresetPos(head: Head, resp: seq<Byte>): Result<Reading, V2Error> {
    match V2Payload(head, resp, 1)
    case Err(e) => Err(e)
    case Ok(p) =>
      if |p| < 2 then Ok(Reading(0, p[0], 0, 0, 0, false))
      else if p[1] == POSITIONED && |p| >= FULL_LEN then
        Ok(Reading(p[0], p[1], U32Of(p[2..6]), U32Of(p[6..10]), U32Of(p[10..14]), true))
      else Ok(Reading(p[0], p[1], 0, 0, 0, false))
  }

  // ---------------------------------------------------------------------
  // Positions
  // ---------------------------------------------------------------------

  datatype Ptz = Ptz(pan: int, tilt: int, zoom: int)

  datatype Range = Range(min: int, max: int) {
    function Clamp(v: int): int {
      var low := if v < max then v else max;
      if low > min then low else min
    }
  }

  const PAN_RANGE := Range(-150, 150)
  const TILT_RANGE := Range(-90, 90)
  const ZOOM_RANGE := Range(100, 150)

  function ClampPtz(p: Ptz): Ptz {
    Ptz(PAN_RANGE.Clamp(p.pan), TILT_RANGE.Clamp(p.tilt), ZOOM_RANGE.Clamp(p.zoom))
  }

  predicate InRange(p: Ptz) {
    -150 <= p.pan <= 150 && -90 <= p.tilt <= 90 && 100 <= p.zoom <= 150
  }

  const INT_MAX: int := 0x7FFF_FFFF_FFFF_FFFF

  /**
    The rounded value as a machine integer. Go leaves the conversion of values
    that are not finite or do not fit to the platform: `other` is what it gives.
  */
  function Rounded(bits: U32, other: U32 -> int): int {
    match Decode(bits)
    case Finite(v) => if -INT_MAX - 1 <= Round(v) <= INT_MAX then Round(v) else other(bits)
    case _ => other(bits)
  }

  /** A number that rounds to one of 64 bits is that integer; of every other the platform decides. */
  lemma RoundedMeans(bits: U32, other: U32 -> int)
    ensures var fits := Decode(bits).Finite? && -0x8000_0000_0000_0000 <= Round(Decode(bits).v)
                        < 0x8000_0000_0000_0000;
            Rounded(bits, other) == if fits then Round(Decode(bits).v) else other(bits)
  {
    hide Decode, Round;
  }

  function PtzValues(r: Reading, other: U32 -> int): (p: Ptz)
    ensures InRange(p)
  {
    ClampPtz(Ptz(Rounded(r.pan, other), Rounded(r.tilt, other), Rounded(r.zoom, other)))
  }

  /** Clamping keeps exactly the values in range and is the nearest value in range. */
  lemma ClampIsNearest(r: Range, v: int, w: int)
    requires r.min <= w <= r.max
    ensures r.min <= r.Clamp(v) <= r.max
    ensures Abs(v - r.Clamp(v)) <= Abs(v - w)
    ensures r.Clamp(v) == v <==> r.min <= v <= r.max
  {
  }

  lemma ClampKeepsInRange(p: Ptz)
    ensures InRange(ClampPtz(p))
    ensures ClampPtz(p) == p <==> InRange(p)
  {
    ClampIsNearest(PAN_RANGE, p.pan, 0);
    ClampIsNearest(TILT_RANGE, p.tilt, 0);
    ClampIsNearest(ZOOM_RANGE, p.zoom, 100);
  }

  /** A small integer survives encoding as binary32, rounding and conversion. */
  lemma RoundedInteger(n: int, other: U32 -> int)
    requires -(EXACT as int) < n < EXACT
    ensures Rounded(OfInt(n), other) == n
  {
    OfIntExact(n);
    RoundInteger(n);
    hide Decode, OfInt, Round;
  }
}
