/**
  The camera's side of the protocol: config reports wait for their commit, V2
  SETs are single reports, queries are answered from the committed state.
*/
module PixyDevice {
  import opened Base
  import opened PixyWire
  import Float32

  // ---------------------------------------------------------------------
  // The device as a value
  // ---------------------------------------------------------------------

  /** One number per motor. */
  datatype Axes = Axes(pan: U32, tilt: U32, zoom: U32) {
    function Get(motor: Byte): U32 {
      if motor == PAN then pan else if motor == TILT then tilt else zoom
    }

    function With(motor: Byte, v: U32): Axes {
      if motor == PAN then this.(pan := v) else if motor == TILT then this.(tilt := v) else this.(zoom := v)
    }

    /** All three are the number zero, with either sign. */
    predicate IsZero() {
      pan % Float32.SIGN == 0 && tilt % Float32.SIGN == 0 && zoom % Float32.SIGN == 0
    }
  }

  datatype Preset = Preset(mode: Byte, pos: Axes)

  const NO_PRESET := Preset(0, Axes(0, 0, 0))

  datatype Target = Target(mode: Byte, args: Axes)

  /** `pending` holds the configured, not yet committed mode byte of an interface. */
  datatype Device = Device(
    tracking: CameraState,
    audio: AudioMode,
    gesture: bool,
    pending: map<Byte, Byte>,
    motorSpeed: Axes,
    motorPos: Axes,
    motorLimit: U32,
    presets: map<Byte, Preset>,
    full: bool,
    target: Target,
    fixed: map<Head, seq<Byte>>
  )

  datatype Rejection =
    | TooShort | BadPrefix | UnknownInterface | BadMarker | BadMode | InterfaceMismatch | NothingPending
    | PayloadShort | BadMotor | SlotZero | TrackRange

  datatype Outcome = Outcome(device: Device, error: Option<Rejection>)

  function HandleConfig(d: Device, report: seq<Byte>): Outcome {
    if |report| < MIN_LEN then Outcome(d, Some(TooShort))
    else if report[0] != PREFIX then Outcome(d, Some(BadPrefix))
    else if !ValidInterface(report[1]) then Outcome(d, Some(UnknownInterface))
    else if report[2] != MARKER then Outcome(d, Some(BadMarker))
    else if !ValidMode(report[1], report[8]) then Outcome(d, Some(BadMode))
    else Outcome(d.(pending := d.pending[report[1] := report[8]]), None)
  }

  function Applied(d: Device, iface: Byte, mode: Byte): Device {
    if iface == IF_TRACKING then d.(tracking := CameraOfByte(mode))
    else if iface == IF_AUDIO then d.(audio := AudioOfByte(mode))
    else if iface == IF_GESTURE then d.(gesture := mode == GESTURE_ON)
    else d
  }

  function HandleCommit(d: Device, report: seq<Byte>): Outcome {
    if |report| < 4 then Outcome(d, Some(TooShort))
    else if report[0] != PREFIX then Outcome(d, Some(BadPrefix))
    else if !ValidInterface(report[1]) then Outcome(d, Some(UnknownInterface))
    else if report[2] != MARKER then Outcome(d, Some(BadMarker))
    else if report[3] != report[1] then Outcome(d, Some(InterfaceMismatch))
    else if report[1] !in d.pending then Outcome(d, Some(NothingPending))
    else Outcome(Applied(d, report[1], d.pending[report[1]]).(pending := d.pending - {report[1]}), None)
  }

  datatype Command = SetMotorSpeed | SetMotorPos | SetPresetPos | SetPresetPosMode | SetTargetTrack {
    function PayloadLen(): nat {
      match this
      case SetMotorSpeed => 5
      case SetMotorPos => 5
      case SetPresetPos => 1
      case SetPresetPosMode => 2
      case SetTargetTrack => 13
    }
  }

  /** Motor heads are known under both routings, the target head only under its own. */
  function CommandOf(report: seq<Byte>): Option<Command> {
    if |report| < 4 || report[0] != PREFIX then None
    else
      var logical := if report[1] == MOTOR_MCU then DEV_MOTOR else report[1];
      var head := Head(PREFIX, logical, report[2], report[3]);
      if head == SET_MOTOR_SPEED then Some(SetMotorSpeed)
      else if head == SET_MOTOR_POS then Some(SetMotorPos)
      else if head == SET_PRESET_POS then Some(SetPresetPos)
      else if head == SET_PRESET_POS_MODE then Some(SetPresetPosMode)
      else if head == SET_TARGET_TRACK then Some(SetTargetTrack)
      else None
  }

  predicate IsCommitReport(report: seq<Byte>) {
    |report| >= 4 && report[0] == PREFIX && report[2] == MARKER && report[3] == report[1]
  }

  function PresetAt(d: Device, slot: Byte): Preset {
    if slot in d.presets then d.presets[slot] else NO_PRESET
  }

  function HandleV2Set(d: Device, c: Command, report: seq<Byte>): Outcome
    requires |report| >= 4
  {
    if |report| < 4 + c.PayloadLen() then Outcome(d, Some(PayloadShort))
    else
      var p := report[4..];
      match c
      case SetMotorSpeed =>
        if p[0] > ZOOM then Outcome(d, Some(BadMotor))
        else Outcome(d.(motorSpeed := d.motorSpeed.With(p[0], U32Of(p[1..5]))), None)
      case SetMotorPos =>
        if p[0] > ZOOM then Outcome(d, Some(BadMotor))
        else Outcome(d.(motorPos := d.motorPos.With(p[0], U32Of(p[1..5]))), None)
      case SetPresetPos =>
        if p[0] == 0 then Outcome(d, Some(SlotZero))
        else Outcome(d.(presets := d.presets[p[0] := Preset(POSITIONED, d.motorPos)]), None)
      case SetPresetPosMode =>
        if p[0] == 0 then Outcome(d, Some(SlotZero))
        else
          var was := PresetAt(d, p[0]).pos;
          var pos := if p[1] == POSITIONED && was.IsZero() then d.motorPos else was;
          Outcome(d.(presets := d.presets[p[0] := Preset(p[1], pos)]), None)
      case SetTargetTrack =>
        if p[0] > 3 then Outcome(d, Some(TrackRange))
        else Outcome(d.(target := Target(p[0], Axes(U32Of(p[1..5]), U32Of(p[5..9]), U32Of(p[9..13])))), None)
  }

  /** What one written report does: V2 SETs are recognised before the commit shape. */
  function Receive(d: Device, report: seq<Byte>): Outcome {
    match CommandOf(report)
    case Some(c) => HandleV2Set(d, c, report)
    case None => if IsCommitReport(report) then HandleCommit(d, report) else HandleConfig(d, report)
  }

  // ---------------------------------------------------------------------
  // Answers
  // ---------------------------------------------------------------------

  function BuildResponse(d: Device, query: seq<Byte>): Result<seq<Byte>, Rejection> {
    if |query| < 2 then Err(TooShort)
    else if query[0] != PREFIX then Err(BadPrefix)
    else if !ValidInterface(query[1]) then Err(UnknownInterface)
    else
      var iface := query[1];
      var mode := if iface == IF_TRACKING then CameraByte(d.tracking)
                  else if iface == IF_AUDIO then AudioByte(d.audio) else 0;
      var last := if iface == IF_GESTURE && d.gesture then GESTURE_ON else 0;
      Ok(Config(iface, mode) + Zeros(RESPONSE_LEN - MIN_LEN - 1) + [last])
  }

  function HeadOf(query: seq<Byte>): Head
    requires |query| >= 4
  {
    Head(query[0], query[1], query[2], query[3])
  }

  /** The motor GETs under either routing, and the speed query that rides on the SET head. */
  predicate IsV2Get(d: Device, query: seq<Byte>) {
    |query| >= 4 && query[0] == PREFIX &&
    var head := HeadOf(query);
    var logical := if head.dev == MOTOR_MCU then head.WithIface(DEV_MOTOR) else head;
    || logical in {GET_MOTOR_SPEED, GET_MOTOR_POS, GET_PRESET_POS_MODE}
    || head == SET_MOTOR_SPEED.WithIface(MOTOR_MCU)
    || head in {GET_TARGET_TRACK, GET_DEVICE_MODE}
    || head in {GET_BATTERY_LEVEL, GET_CHARGE_STA, GET_FUNC_STA, GET_SN, GET_VER, GET_DEVICE_VER}
  }

  /**
    Which queries are GETs, by device, category and id: the motor ones with their
    device byte as it is or as 0x63, the speed query that rides on the SET head, the
    target, mode, power and device ones.
  */
  lemma V2GetBytes(d: Device, query: seq<Byte>)
    ensures IsV2Get(d, query)
            <==> && |query| >= 4 && query[0] == 0x09
                 && var dev, cat, id := query[1], query[2], query[3];
                    || (dev in {0x03, 0x63} && cat == 1 && id in {0x13, 0x02, 0x17})
                    || (dev == 0x63 && cat == 1 && id == 0x03)
                    || (dev == 0x04 && cat == 1 && id == 0x02) || (dev == 0x02 && cat == 1 && id == 0x00)
                    || (dev == 0x00 && cat == 0 && id in {0x02, 0x06})
                    || (dev == 0x01 && cat == 0 && id in {0x0d, 0x04, 0x05, 0x0f})
  {
  }

  function QueriedMotor(query: seq<Byte>): Byte {
    if |query| < 5 || query[4] > ZOOM then PAN else query[4]
  }

  function AxesBytes(a: Axes): seq<Byte> {
    Le32(a.pan) + Le32(a.tilt) + Le32(a.zoom)
  }

  function PresetBody(d: Device, slot: Byte): seq<Byte> {
    var entry := PresetAt(d, slot);
    if d.full then [slot, entry.mode] + (if entry.mode == POSITIONED then AxesBytes(entry.pos) else [])
    else [entry.mode]
  }

  function V2Body(d: Device, query: seq<Byte>): seq<Byte>
    requires |query| >= 4
  {
    var head := HeadOf(query);
    var logical := if head.dev == MOTOR_MCU then head.WithIface(DEV_MOTOR) else head;
    var motor := QueriedMotor(query);
    if logical == GET_MOTOR_SPEED || head == SET_MOTOR_SPEED.WithIface(MOTOR_MCU) then
      [motor] + Le32(d.motorSpeed.Get(motor)) + Le32(d.motorLimit)
    else if logical == GET_MOTOR_POS then [motor] + Le32(d.motorPos.Get(motor))
    else if logical == GET_PRESET_POS_MODE then PresetBody(d, if |query| > 4 then query[4] else 0)
    else if head == GET_TARGET_TRACK then [d.target.mode] + AxesBytes(d.target.args)
    else if head == GET_DEVICE_MODE then [CameraByte(d.tracking)]
    else if head in d.fixed then d.fixed[head]
    else []
  }

  function Answer(d: Device, query: seq<Byte>): Result<seq<Byte>, Rejection> {
    if IsV2Get(d, query) then Ok(HeadOf(query).Bytes() + Zeros(4) + V2Body(d, query))
    else BuildResponse(d, query)
  }

  // ---------------------------------------------------------------------
  // The machine that updates its fields
  // ---------------------------------------------------------------------

  class Simulator {
    var tracking: CameraState
    var audio: AudioMode
    var gesture: bool
    var pending: map<Byte, Byte>
    var motorSpeed: Axes
    var motorPos: Axes
    var motorLimit: U32
    var presets: map<Byte, Preset>
    var full: bool
    var target: Target
    var fixed: map<Head, seq<Byte>>

    constructor (full: bool, motorLimit: U32, fixed: map<Head, seq<Byte>>)
      ensures State() == Device(Idle, NC, false, map[], Axes(0, 0, 0), Axes(0, 0, 0), motorLimit, map[], full,
                                Target(0, Axes(0, 0, 0)), fixed)
    {
      tracking, audio, gesture, pending := Idle, NC, false, map[];
      motorSpeed, motorPos := Axes(0, 0, 0), Axes(0, 0, 0);
      presets, target := map[], Target(0, Axes(0, 0, 0));
      this.full, this.motorLimit, this.fixed := full, motorLimit, fixed;
    }

    function State(): Device
      reads this
    {
      Device(tracking, audio, gesture, pending, motorSpeed, motorPos, motorLimit, presets, full, target, fixed)
    }

    method Configure(report: seq<Byte>) returns (error: Option<Rejection>)
      modifies this`pending
      ensures Outcome(State(), error) == HandleConfig(old(State()), report)
    {
      if |report| < MIN_LEN { return Some(TooShort); }
      if report[0] != PREFIX { return Some(BadPrefix); }
      var iface := report[1];
      if !ValidInterface(iface) { return Some(UnknownInterface); }
      if report[2] != MARKER { return Some(BadMarker); }
      if !ValidMode(iface, report[8]) { return Some(BadMode); }
      pending := pending[iface := report[8]];
      return None;
    }

    method ApplyConfig(iface: Byte, mode: Byte)
      modifies this`tracking, this`audio, this`gesture
      ensures State() == Applied(old(State()), iface, mode)
    {
      if iface == IF_TRACKING {
        tracking := CameraOfByte(mode);
      } else if iface == IF_AUDIO {
        audio := AudioOfByte(mode);
      } else if iface == IF_GESTURE {
        gesture := mode == GESTURE_ON;
      }
    }

    method CommitPending(report: seq<Byte>) returns (error: Option<Rejection>)
      modifies this`tracking, this`audio, this`gesture, this`pending
      ensures Outcome(State(), error) == HandleCommit(old(State()), report)
    {
      if |report| < 4 { return Some(TooShort); }
      if report[0] != PREFIX { return Some(BadPrefix); }
      var iface := report[1];
      if !ValidInterface(iface) { return Some(UnknownInterface); }
      if report[2] != MARKER { return Some(BadMarker); }
      if report[3] != iface { return Some(InterfaceMismatch); }
      if iface !in pending { return Some(NothingPending); }
      ApplyConfig(iface, pending[iface]);
      pending := pending - {iface};
      return None;
    }

    method SetV2(c: Command, report: seq<Byte>) returns (error: Option<Rejection>)
      requires |report| >= 4
      modifies this`motorSpeed, this`motorPos, this`presets, this`target
      ensures Outcome(State(), error) == HandleV2Set(old(State()), c, report)
    {
      if |report| < 4 + c.PayloadLen() { return Some(PayloadShort); }
      var p := report[4..];
      match c {
        case SetMotorSpeed =>
          if p[0] > ZOOM { return Some(BadMotor); }
          motorSpeed := motorSpeed.With(p[0], U32Of(p[1..5]));
        case SetMotorPos =>
          if p[0] > ZOOM { return Some(BadMotor); }
          motorPos := motorPos.With(p[0], U32Of(p[1..5]));
        case SetPresetPos =>
          if p[0] == 0 { return Some(SlotZero); }
          presets := presets[p[0] := Preset(POSITIONED, motorPos)];
        case SetPresetPosMode =>
          if p[0] == 0 { return Some(SlotZero); }
          var pos := PresetAt(State(), p[0]).pos;
          if p[1] == POSITIONED && pos.IsZero() {
            pos := motorPos;
          }
          presets := presets[p[0] := Preset(p[1], pos)];
        case SetTargetTrack =>
          if p[0] > 3 { return Some(TrackRange); }
          target := Target(p[0], Axes(U32Of(p[1..5]), U32Of(p[5..9]), U32Of(p[9..13])));
      }
      return None;
    }

    method Send(report: seq<Byte>) returns (error: Option<Rejection>)
      modifies this
      ensures Outcome(State(), error) == Receive(old(State()), report)
    {
      var command := CommandOf(report);
      if command.Some? {
        error := SetV2(command.value, report);
      } else if IsCommitReport(report) {
        error := CommitPending(report);
      } else {
        error := Configure(report);
      }
    }
  }

  // ---------------------------------------------------------------------
  // Properties of every report
  // ---------------------------------------------------------------------

  /** The committed modes of the three config/commit interfaces. */
  function ModeByte(d: Device, iface: Byte): Byte {
    if iface == IF_TRACKING then CameraByte(d.tracking)
    else if iface == IF_AUDIO then AudioByte(d.audio)
    else if d.gesture then 1 else 0
  }

  predicate Stable(d: Device) {
    d.tracking != Offline && (forall i <- d.pending :: ValidInterface(i) && ValidMode(i, d.pending[i]))
  }

  /** What an accepted report may have done. */
  ghost predicate Effect(d: Device, e: Device, report: seq<Byte>) {
    || (CommandOf(report).Some? && Legacy(e) == Legacy(d))
    || (CommandOf(report).None? && !IsCommitReport(report) && |report| >= 9 && ValidInterface(report[1])
        && ValidMode(report[1], report[8]) && e == d.(pending := d.pending[report[1] := report[8]]))
    || (CommandOf(report).None? && IsCommitReport(report) && ValidInterface(report[1]) && report[1] in d.pending
        && e.pending == d.pending - {report[1]} && ModeByte(e, report[1]) == d.pending[report[1]]
        && (forall j :: ValidInterface(j) && j != report[1] ==> ModeByte(e, j) == ModeByte(d, j)))
  }

  /** The part of the state that the config/commit dialect owns. */
  function Legacy(d: Device): (CameraState, AudioMode, bool, map<Byte, Byte>) {
    (d.tracking, d.audio, d.gesture, d.pending)
  }

  /**
    For every report whatsoever: a rejected one changes nothing; an accepted one
    is a V2 SET that leaves the modes and the pending configs alone, or a config
    that only becomes pending, or a commit that moves one interface to exactly
    its pending byte and uses that up.
  */
  lemma ReportEffect(d: Device, report: seq<Byte>)
    requires Stable(d)
    ensures var o := Receive(d, report);
            && Stable(o.device)
            && (o.error.Some? ==> o.device == d)
            && (o.error.None? ==> Effect(d, o.device, report))
  {
    var o := Receive(d, report);
    if CommandOf(report).Some? {
      V2KeepsLegacy(d, report);
    } else if IsCommitReport(report) && o.error.None? {
      CommitMoves(d, report);
    }
  }

  lemma V2KeepsLegacy(d: Device, report: seq<Byte>)
    requires CommandOf(report).Some?
    ensures var o := HandleV2Set(d, CommandOf(report).value, report);
            Legacy(o.device) == Legacy(d) && (o.error.Some? ==> o.device == d)
  {
    hide U32Of;
  }

  lemma CommitMoves(d: Device, report: seq<Byte>)
    requires Stable(d) && HandleCommit(d, report).error.None?
    ensures var e := HandleCommit(d, report).device;
            && Stable(e)
            && ModeByte(e, report[1]) == d.pending[report[1]]
            && (forall j :: ValidInterface(j) && j != report[1] ==> ModeByte(e, j) == ModeByte(d, j))
  {
    var i := report[1];
    assert ValidMode(i, d.pending[i]);
  }

  // ---------------------------------------------------------------------
  // Reports and answers byte by byte
  // ---------------------------------------------------------------------

  /** The 32-bit word that starts at byte k, lowest byte first. */
  function WordAt(s: seq<Byte>, k: nat): U32
    requires k + 4 <= |s|
  {
    s[k] as nat + 256 * s[k + 1] as nat + 65536 * s[k + 2] as nat + 16777216 * s[k + 3] as nat
  }

  lemma WordIs(s: seq<Byte>, k: nat)
    requires k + 4 <= |s|
    ensures U32Of(s[k..k + 4]) == WordAt(s, k)
  {
    var b := s[k..k + 4];
    assert b[0] == s[k] && b[1] == s[k + 1] && b[2] == s[k + 2] && b[3] == s[k + 3];
  }

  /** One motor's number replaced: 0 is pan, 1 tilt, 2 zoom. */
  function MotorSet(a: Axes, motor: Byte, v: U32): Axes {
    if motor == 0 then Axes(v, a.tilt, a.zoom)
    else if motor == 1 then Axes(a.pan, v, a.zoom)
    else Axes(a.pan, a.tilt, v)
  }

  /** A report with the prefix and these three bytes after it. */
  predicate Headed(report: seq<Byte>, devs: set<Byte>, cat: Byte, id: Byte) {
    |report| >= 4 && report[0] == 0x09 && report[1] in devs && report[2] == cat && report[3] == id
  }

  lemma TailOf(report: seq<Byte>, n: nat)
    requires 4 + n <= |report|
    ensures |report[4..]| >= n && forall k | 0 <= k < n :: report[4..][k] == report[4 + k]
    ensures n >= 5 ==> report[4..][1..5] == report[5..9]
    ensures n >= 13 ==> report[4..][5..9] == report[9..13] && report[4..][9..13] == report[13..17]
  {
  }

  /** The two motor SETs: the fifth byte names the motor, the next four are its number. */
  lemma MotorSetMeans(d: Device, report: seq<Byte>)
    ensures Headed(report, {0x03, 0x63}, 0x01, 0x03) ==>
              Receive(d, report) == if |report| < 9 then Outcome(d, Some(PayloadShort))
                                    else if report[4] > 2 then Outcome(d, Some(BadMotor))
                                    else Outcome(d.(motorSpeed := MotorSet(d.motorSpeed, report[4], WordAt(report, 5))),
                                                 None)
    ensures Headed(report, {0x03, 0x63}, 0x01, 0x01) ==>
              Receive(d, report) == if |report| < 9 then Outcome(d, Some(PayloadShort))
                                    else if report[4] > 2 then Outcome(d, Some(BadMotor))
                                    else Outcome(d.(motorPos := MotorSet(d.motorPos, report[4], WordAt(report, 5))),
                                                 None)
  {
    if |report| >= 9 {
      TailOf(report, 5);
      WordIs(report, 5);
    }
    hide U32Of, WordAt;
  }

  /**
    The two preset SETs: the fifth byte names the slot, zero being none; one saves
    the position, the other sets the mode in the sixth byte, and gives a slot without
    a position the current one.
  */
  lemma PresetSetMeans(d: Device, report: seq<Byte>)
    ensures Headed(report, {0x03, 0x63}, 0x01, 0x19) ==>
              Receive(d, report) == if |report| < 5 then Outcome(d, Some(PayloadShort))
                                    else if report[4] == 0 then Outcome(d, Some(SlotZero))
                                    else Outcome(d.(presets := d.presets[report[4] := Preset(1, d.motorPos)]), None)
    ensures Headed(report, {0x03, 0x63}, 0x01, 0x16) ==>
              Receive(d, report) == if |report| < 6 then Outcome(d, Some(PayloadShort))
                                    else if report[4] == 0 then Outcome(d, Some(SlotZero))
                                    else
                                      var was := if report[4] in d.presets then d.presets[report[4]].pos
                                                 else Axes(0, 0, 0);
                                      var none := was.pan % 0x8000_0000 == 0 && was.tilt % 0x8000_0000 == 0
                                                  && was.zoom % 0x8000_0000 == 0;
                                      var pos := if report[5] == 1 && none then d.motorPos else was;
                                      Outcome(d.(presets := d.presets[report[4] := Preset(report[5], pos)]), None)
  {
    if |report| >= 5 {
      TailOf(report, if |report| >= 6 then 2 else 1);
    }
    hide U32Of;
  }

  /** The target SET: the variant and three numbers. */
  lemma TargetSetMeans(d: Device, report: seq<Byte>)
    ensures Headed(report, {0x04}, 0x01, 0x01) ==>
              Receive(d, report) == if |report| < 17 then Outcome(d, Some(PayloadShort))
                                    else if report[4] > 3 then Outcome(d, Some(TrackRange))
                                    else
                                      var args := Axes(WordAt(report, 5), WordAt(report, 9), WordAt(report, 13));
                                      Outcome(d.(target := Target(report[4], args)), None)
  {
    if |report| >= 17 {
      TailOf(report, 13);
      WordIs(report, 5);
      WordIs(report, 9);
      WordIs(report, 13);
    }
    hide U32Of, WordAt;
  }

  /** Nothing else is a V2 SET. */
  lemma SetHeads(report: seq<Byte>)
    ensures CommandOf(report).Some?
            <==> || Headed(report, {0x03, 0x63}, 0x01, 0x03) || Headed(report, {0x03, 0x63}, 0x01, 0x01)
                 || Headed(report, {0x03, 0x63}, 0x01, 0x19) || Headed(report, {0x03, 0x63}, 0x01, 0x16)
                 || Headed(report, {0x04}, 0x01, 0x01)
  {
  }

  /**
    What is accepted of the other reports, and how the rest is rejected. A commit repeats its interface and needs a
    config pending there; a config has nine bytes, one of the three interfaces, the
    marker, and a mode of its interface in its last byte.
  */
  lemma LegacyAccepts(d: Device, report: seq<Byte>)
    requires CommandOf(report) == None
    ensures var commit := |report| >= 4 && report[0] == 0x09 && report[2] == 0x01 && report[3] == report[1];
            Receive(d, report).error ==
            if commit then
              if report[1] !in {0x01, 0x04, 0x05} then Some(UnknownInterface)
              else if report[1] !in d.pending then Some(NothingPending) else None
            else if |report| < 9 then Some(TooShort)
            else if report[0] != 0x09 then Some(BadPrefix)
            else if report[1] !in {0x01, 0x04, 0x05} then Some(UnknownInterface)
            else if report[2] != 0x01 then Some(BadMarker)
            else if report[8] > (if report[1] == 0x01 then 2 else if report[1] == 0x05 then 3 else 1) then Some(BadMode)
            else if report[1] == 0x05 && report[8] == 0 then Some(BadMode) else None
    ensures var commit := |report| >= 4 && report[0] == 0x09 && report[2] == 0x01 && report[3] == report[1];
            Receive(d, report).error == None
            <==> if commit then report[1] in {0x01, 0x04, 0x05} && report[1] in d.pending
                 else && |report| >= 9 && report[0] == 0x09 && report[2] == 0x01
                      && ((report[1] == 0x01 && report[8] <= 2) || (report[1] == 0x05 && 1 <= report[8] <= 3)
                          || (report[1] == 0x04 && report[8] <= 1))
  {
    hide Applied, CommandOf;
  }

  /**
    The number of a motor is answered under the head as it was asked, after four
    reserved bytes, with the motor, lowest byte first; a speed also with the limit.
    A query that names no motor asks for pan.
  */
  lemma MotorAnswers(d: Device, query: seq<Byte>)
    requires |query| >= 4
    ensures var m := if |query| < 5 || query[4] > 2 then 0 else query[4];
            var speed := if m == 0 then d.motorSpeed.pan else if m == 1 then d.motorSpeed.tilt else d.motorSpeed.zoom;
            var pos := if m == 0 then d.motorPos.pan else if m == 1 then d.motorPos.tilt else d.motorPos.zoom;
            && (Headed(query, {0x03, 0x63}, 0x01, 0x13) || Headed(query, {0x63}, 0x01, 0x03) ==>
                  Answer(d, query)
                  == Ok(query[..4] + [0, 0, 0, 0] + ([m] + LowestFirst(speed) + LowestFirst(d.motorLimit))))
            && (Headed(query, {0x03, 0x63}, 0x01, 0x02) ==>
                  Answer(d, query) == Ok(query[..4] + [0, 0, 0, 0] + ([m] + LowestFirst(pos))))
  {
    assert HeadOf(query).Bytes() == query[..4] && Zeros(4) == [0, 0, 0, 0];
    V2GetBytes(d, query);
    hide PresetBody, IsV2Get;
  }

  /** A slot whose query names none is slot zero; the target and the device mode are answered under their own heads. */
  lemma OtherAnswers(d: Device, query: seq<Byte>)
    requires |query| >= 4
    ensures Headed(query, {0x03, 0x63}, 0x01, 0x17) ==>
              Answer(d, query) == Ok(query[..4] + [0, 0, 0, 0] + PresetBody(d, if |query| < 5 then 0 else query[4]))
    ensures forall slot :: slot !in d.presets ==> PresetBody(d, slot) == if d.full then [slot, 0] else [0]
    ensures Headed(query, {0x04}, 0x01, 0x02) ==>
              Answer(d, query) == Ok(query[..4] + [0, 0, 0, 0] + ([d.target.mode] + LowestFirst(d.target.args.pan)
                                     + LowestFirst(d.target.args.tilt) + LowestFirst(d.target.args.zoom)))
    ensures Headed(query, {0x02}, 0x01, 0x00) ==>
              Answer(d, query) == Ok(query[..4] + [0, 0, 0, 0] + [match d.tracking case Tracking => 1 case Privacy => 2
                                                                   case _ => 0])
  {
    assert HeadOf(query).Bytes() == query[..4] && Zeros(4) == [0, 0, 0, 0];
    V2GetBytes(d, query);
    var a := d.target.args;
    assert [d.target.mode] + AxesBytes(a)
           == [d.target.mode] + LowestFirst(a.pan) + LowestFirst(a.tilt) + LowestFirst(a.zoom);
    assert forall slot :: slot !in d.presets ==> PresetBody(d, slot) == if d.full then [slot, 0] else [0];
    hide PresetBody, IsV2Get;
  }

  // ---------------------------------------------------------------------
  // The daemon's reports, bare or zero-padded
  // ---------------------------------------------------------------------

  /** Config reports are only ever taken as configs, commits only as commits. */
  lemma LegacyRouted(iface: Byte, mode: Byte, pad: nat)
    requires ValidInterface(iface)
    ensures CommandOf(Config(iface, mode) + Zeros(pad)) == None && !IsCommitReport(Config(iface, mode) + Zeros(pad))
    ensures CommandOf(Commit(iface) + Zeros(pad)) == None && IsCommitReport(Commit(iface) + Zeros(pad))
  {
    var c, m := Config(iface, mode) + Zeros(pad), Commit(iface) + Zeros(pad);
    assert c[..9] == Config(iface, mode) && m[..4] == Commit(iface);
    assert c[0] == PREFIX && c[1] == iface && c[2] == MARKER && c[3] == 0;
    assert m[0] == PREFIX && m[1] == iface && m[2] == MARKER && m[3] == iface;
  }

  lemma ConfigPends(d: Device, iface: Byte, mode: Byte, pad: nat)
    requires ValidInterface(iface) && ValidMode(iface, mode)
    ensures Receive(d, Config(iface, mode) + Zeros(pad)) == Outcome(d.(pending := d.pending[iface := mode]), None)
  {
    LegacyRouted(iface, mode, pad);
    var c := Config(iface, mode) + Zeros(pad);
    assert c[0] == PREFIX && c[1] == iface && c[2] == MARKER && c[8] == mode;
  }

  lemma CommitApplies(d: Device, iface: Byte, pad: nat)
    requires ValidInterface(iface)
    ensures Receive(d, Commit(iface) + Zeros(pad)) ==
            if iface in d.pending then
              Outcome(Applied(d, iface, d.pending[iface]).(pending := d.pending - {iface}), None)
            else Outcome(d, Some(NothingPending))
  {
    LegacyRouted(iface, 0, pad);
    var m := Commit(iface) + Zeros(pad);
    assert m[0] == PREFIX && m[1] == iface && m[2] == MARKER && m[3] == iface;
  }

  /** A config and its commit move that interface to that mode, and leave every other mode as it was. */
  lemma ConfigThenCommit(d: Device, iface: Byte, mode: Byte, pad: nat)
    requires Stable(d) && ValidInterface(iface) && ValidMode(iface, mode)
    ensures var o1 := Receive(d, Config(iface, mode) + Zeros(pad));
            var o2 := Receive(o1.device, Commit(iface) + Zeros(pad));
            && o1.error.None? && o2.error.None? && Stable(o2.device)
            && (forall j :: ValidInterface(j) ==> ModeByte(o1.device, j) == ModeByte(d, j))
            && ModeByte(o2.device, iface) == mode
            && (forall j :: ValidInterface(j) && j != iface ==> ModeByte(o2.device, j) == ModeByte(d, j))
            && o2.device.pending == d.pending - {iface}
  {
    ConfigPends(d, iface, mode, pad);
    CommitApplies(d.(pending := d.pending[iface := mode]), iface, pad);
    assert d.pending[iface := mode] - {iface} == d.pending - {iface};
  }

  lemma PadKeeps(report: seq<Byte>, pad: nat, k: nat)
    requires k < |report|
    ensures (report + Zeros(pad))[k] == report[k]
  {
  }

  /** Every V2 SET the daemon emits is taken as that SET, never as a config or a commit. */
  lemma V2Routed(motor: Byte, value: U32, slot: Byte, mode: Byte, pad: nat)
    ensures CommandOf(MotorSpeedReport(motor, value) + Zeros(pad)) == Some(SetMotorSpeed)
    ensures CommandOf(MotorPosReport(motor, value) + Zeros(pad)) == Some(SetMotorPos)
    ensures CommandOf(PresetPosReport(slot) + Zeros(pad)) == Some(SetPresetPos)
    ensures CommandOf(TargetTrackReport(mode) + Zeros(pad)) == Some(SetTargetTrack)
  {
    hide Le32;
    var a, b := MotorSpeedReport(motor, value), MotorPosReport(motor, value);
    var c, e := PresetPosReport(slot), TargetTrackReport(mode);
    forall k: nat | k < 4
      ensures (a + Zeros(pad))[k] == a[k] && (b + Zeros(pad))[k] == b[k]
              && (c + Zeros(pad))[k] == c[k] && (e + Zeros(pad))[k] == e[k]
    {
      PadKeeps(a, pad, k);
      PadKeeps(b, pad, k);
      PadKeeps(c, pad, k);
      PadKeeps(e, pad, k);
    }
    assert a[..4] == SET_MOTOR_SPEED.WithIface(MOTOR_MCU).Bytes();
    assert b[..4] == SET_MOTOR_POS.WithIface(MOTOR_MCU).Bytes();
    assert c[..4] == SET_PRESET_POS.WithIface(MOTOR_MCU).Bytes();
    assert e[..4] == SET_TARGET_TRACK.Bytes();
  }

  lemma PayloadAt(head: seq<Byte>, payload: seq<Byte>, pad: nat)
    requires |head| == 4
    ensures (head + payload + Zeros(pad))[4..] == payload + Zeros(pad)
  {
  }

  lemma MotorValueAt(motor: Byte, value: U32, pad: nat)
    ensures var p := MotorPayload(motor, value) + Zeros(pad);
            |p| >= 5 && p[0] == motor && U32Of(p[1..5]) == value
  {
    U32OfLe32(value);
    hide U32Of, Le32;
    var p := MotorPayload(motor, value) + Zeros(pad);
    assert p[1..5] == Le32(value);
  }

  /** A position report stores that number for that motor and touches nothing else. */
  lemma PosStored(d: Device, motor: Byte, value: U32, pad: nat)
    requires motor <= ZOOM
    ensures Receive(d, MotorPosReport(motor, value) + Zeros(pad))
            == Outcome(d.(motorPos := d.motorPos.With(motor, value)), None)
  {
    V2Routed(motor, value, 0, 0, pad);
    PayloadAt(SET_MOTOR_POS.WithIface(MOTOR_MCU).Bytes(), MotorPayload(motor, value), pad);
    MotorValueAt(motor, value, pad);
    hide U32Of, MotorPayload, CommandOf;
  }

  lemma PresetStored(d: Device, slot: Byte, pad: nat)
    requires slot != 0
    ensures Receive(d, PresetPosReport(slot) + Zeros(pad)) ==
            Outcome(d.(presets := d.presets[slot := Preset(POSITIONED, d.motorPos)]), None)
  {
    V2Routed(0, 0, slot, 0, pad);
    PadKeeps(PresetPosReport(slot), pad, 4);
    hide CommandOf;
  }

  /** A speed report stores that speed for that motor and touches nothing else. */
  lemma SpeedStored(d: Device, motor: Byte, value: U32, pad: nat)
    requires motor <= ZOOM
    ensures Receive(d, MotorSpeedReport(motor, value) + Zeros(pad))
            == Outcome(d.(motorSpeed := d.motorSpeed.With(motor, value)), None)
  {
    V2Routed(motor, value, 0, 0, pad);
    PayloadAt(SET_MOTOR_SPEED.WithIface(MOTOR_MCU).Bytes(), MotorPayload(motor, value), pad);
    MotorValueAt(motor, value, pad);
    hide U32Of, MotorPayload, CommandOf;
  }

  /** A target report stores the variant with zero arguments; variants above 3 are rejected. */
  lemma TargetStored(d: Device, mode: Byte, pad: nat)
    ensures Receive(d, TargetTrackReport(mode) + Zeros(pad)) ==
            if mode <= 3 then Outcome(d.(target := Target(mode, Axes(0, 0, 0))), None) else Outcome(d, Some(TrackRange))
  {
    V2Routed(0, 0, 0, mode, pad);
    var head, payload := SET_TARGET_TRACK.Bytes(), [mode] + Zeros(12);
    assert TargetTrackReport(mode) == head + payload;
    PayloadAt(head, payload, pad);
    var p := payload + Zeros(pad);
    assert p[0] == mode && p[1..5] == Zeros(4) && p[5..9] == Zeros(4) && p[9..13] == Zeros(4);
    assert U32Of(Zeros(4)) == 0;
    hide U32Of, CommandOf;
  }

  /**
    Changing a slot's mode byte keeps its position, except that a slot becoming
    occupied with no position yet takes the current one; no other slot changes.
  */
  lemma PresetModeStored(d: Device, report: seq<Byte>, slot: Byte, mode: Byte)
    requires CommandOf(report) == Some(SetPresetPosMode) && |report| >= 6 && report[4] == slot != 0 && report[5] == mode
    ensures var o := Receive(d, report);
            && o.error.None?
            && PresetAt(o.device, slot).mode == mode
            && PresetAt(o.device, slot).pos ==
               (if mode == POSITIONED && PresetAt(d, slot).pos.IsZero() then d.motorPos else PresetAt(d, slot).pos)
            && (forall other :: other != slot ==> PresetAt(o.device, other) == PresetAt(d, other))
            && o.device.(presets := d.presets) == d
  {
    hide CommandOf;
    assert report[4..][0] == slot && report[4..][1] == mode;
  }

  // ---------------------------------------------------------------------
  // Queries read the committed state
  // ---------------------------------------------------------------------

  lemma LegacyAnswer(d: Device, query: seq<Byte>)
    requires |query| >= 4 && query[0] == PREFIX && ValidInterface(query[1])
    requires !IsV2Get(d, query)
    ensures Answer(d, query).Ok?
    ensures var r := Answer(d, query).value;
            |r| == 64 && r[0] == PREFIX && r[1] == query[1]
            && r[8] == (if query[1] == IF_GESTURE then 0 else ModeByte(d, query[1]))
            && r[63] == (if query[1] == IF_GESTURE then ModeByte(d, IF_GESTURE) else 0)
  {
  }

  /** The three state queries come back as the committed modes, whatever is pending. */
  lemma QueriesReadCommitted(d: Device, pad: nat)
    requires d.tracking != Offline
    ensures var t := Answer(d, QUERY_TRACKING + Zeros(pad));
            t.Ok? && ParseHidResponse(t.value).got && ParseHidResponse(t.value).tracking == d.tracking
    ensures var a := Answer(d, QUERY_AUDIO + Zeros(pad));
            a.Ok? && ParseHidResponse(a.value).got && ParseHidResponse(a.value).audio == d.audio
    ensures var g := Answer(d, QUERY_GESTURE + Zeros(pad));
            g.Ok? && ParseHidResponse(g.value).got && ParseHidResponse(g.value).gesture == d.gesture
  {
    var t, a, g := QUERY_TRACKING + Zeros(pad), QUERY_AUDIO + Zeros(pad), QUERY_GESTURE + Zeros(pad);
    forall k: nat | k < 4 ensures t[k] == QUERY_TRACKING[k] && a[k] == QUERY_AUDIO[k] && g[k] == QUERY_GESTURE[k] {
      PadKeeps(QUERY_TRACKING, pad, k);
      PadKeeps(QUERY_AUDIO, pad, k);
      PadKeeps(QUERY_GESTURE, pad, k);
    }
    LegacyAnswer(d, t);
    LegacyAnswer(d, a);
    LegacyAnswer(d, g);
    hide Answer;
  }

  /** A slot is read back with its mode; with the full answer an occupied slot also with its position. */
  lemma SlotReadBack(d: Device, slot: Byte, pad: nat)
    ensures var a := Answer(d, PresetQuery(slot) + Zeros(pad));
            var e := PresetAt(d, slot);
            && a.Ok?
            && ParsePresetPos(PRESET_HEAD, a.value) ==
               if !d.full then Ok(Reading(0, e.mode, 0, 0, 0, false))
               else if e.mode != POSITIONED then Ok(Reading(slot, e.mode, 0, 0, 0, false))
               else Ok(Reading(slot, e.mode, e.pos.pan, e.pos.tilt, e.pos.zoom, true))
  {
    var q := PresetQuery(slot) + Zeros(pad);
    assert q[..5] == PresetQuery(slot);
    assert q[0] == PRESET_HEAD.report && q[1] == PRESET_HEAD.dev && q[2] == PRESET_HEAD.cat && q[3] == PRESET_HEAD.id;
    assert q[4] == slot;
    assert HeadOf(q) == PRESET_HEAD && HeadOf(q).WithIface(DEV_MOTOR) == GET_PRESET_POS_MODE;
    var body := PresetBody(d, slot);
    var a := PRESET_HEAD.Bytes() + Zeros(4) + body;
    assert Answer(d, q) == Ok(a);
    FramedPayload(PRESET_HEAD, PRESET_HEAD, Zeros(4), body, 1);
    var e := PresetAt(d, slot);
    if d.full && e.mode == POSITIONED {
      FullBody(slot, e);
    }
    hide Answer, Le32, U32Of;
  }

  lemma FullBody(slot: Byte, e: Preset)
    ensures var p := [slot, e.mode] + AxesBytes(e.pos);
            |p| == 14 && p[0] == slot && p[1] == e.mode
            && U32Of(p[2..6]) == e.pos.pan && U32Of(p[6..10]) == e.pos.tilt && U32Of(p[10..14]) == e.pos.zoom
  {
    var p := [slot, e.mode] + AxesBytes(e.pos);
    hide U32Of, Le32;
    assert p[2..6] == Le32(e.pos.pan) && p[6..10] == Le32(e.pos.tilt) && p[10..14] == Le32(e.pos.zoom);
    U32OfLe32(e.pos.pan);
    U32OfLe32(e.pos.tilt);
    U32OfLe32(e.pos.zoom);
  }
}
