/** The behaviour of main.c as values: the globals and function statics the
    main loop and the command handler change, together with the state of every
    peripheral they drive, and one function per step of an iteration of the
    `while (1)` body. The class in firmware.dfy performs the same steps on the
    driver objects and is proved to agree with these functions. */
module Control {
  import opened Ticks
  import opened Wrappers
  import opened RobotStates
  import opened Decimal
  import Motor
  import RgbLed
  import Tones
  import Servo
  import Eyes
  import Anim
  import Ui

  /** DIST_SAFE of robot_config.h, in centimetres. */
  const DistSafe: nat := 40
  /** The sweep's limits and step, in degrees. */
  const SweepLow: nat := 30
  const SweepHigh: nat := 150
  const SweepStep: nat := 10
  /** The loop's periods, in milliseconds. */
  const ScanPeriodMs: nat := 40
  const UiPeriodMs: nat := 50
  const AvoidTurnMs: nat := 120
  const BlinkOnMs: nat := 500
  const BlinkOffMs: nat := 250
  /** The "nothing seen yet" distance min_dist starts from and is reset to. */
  const NoObstacle: u16 := 999

  /** The globals of main.c and the statics of its loop body. `edgeBlinkTick`
      and `reverseBlinkTick` are the two distinct `reverse_blink_tick`
      variables, one in the entry-edge switch and one in the behaviour switch;
      `avoiding` is the uint8_t flag of the ALERT case. */
  datatype Vars = Vars(
    prevState: RobotState,
    scanDir: i8,
    scanAngle: u8,
    lastScanTick: u32,
    startFlag: u8,
    manualMode: u8,
    minDist: u16,
    minAngle: u8,
    manualCommand: u8,
    uiTick: u32,
    edgeBlinkTick: u32,
    reverseBlinkTick: u32,
    avoidStart: u32,
    avoiding: u8)

  /** The static initialisers of main.c. */
  const Initial: Vars := Vars(Idle, 1, 30, 0, 0, 0, 999, 90, 0, 0, 0, 0, 0, 0)

  /** Everything one iteration or one command can change: main.c's variables,
      the robot state of robot_state.c, the eight motor pins, the RGB pins, the
      buzzer sequencer, the servo compare value, the face and blink animator,
      ui_fsm.c's `prev_state`, the bytes sent to the character display and the
      bytes sent on the UART. */
  datatype World = World(
    v: Vars,
    state: RobotState,
    pins: Motor.Pins,
    rgb: RgbLed.Rgb,
    player: Tones.Player,
    servo: nat,
    face: Eyes.Face,
    blinker: Anim.Blinker,
    uiPrev: RobotState,
    bus: seq<bv8>,
    console: string)

  // ---------------------------------------------------------------- console

  /** The number of line feeds in a text. */
  function LineFeeds(s: string): nat {
    if |s| == 0 then 0 else LineFeeds(s[..|s| - 1]) + (if s[|s| - 1] == '\n' then 1 else 0)
  }

  /** The characters __io_putchar puts on the UART for a printf'd text: a
      carriage return goes out before every line feed. */
  function Wire(s: string): (w: string)
    ensures |w| == |s| + LineFeeds(s)
    ensures forall i :: 0 <= i < |w| && w[i] == '\n' ==> 0 < i && w[i - 1] == '\r'
  {
    if |s| == 0 then []
    else Wire(s[..|s| - 1]) + (if s[|s| - 1] == '\n' then "\r\n" else [s[|s| - 1]])
  }

  lemma {:induction false} WireConcat(a: string, b: string)
    ensures Wire(a + b) == Wire(a) + Wire(b)
    decreases |b|
  {
    if |b| == 0 {
      assert a + b == a;
    } else {
      assert (a + b)[..|a + b| - 1] == a + b[..|b| - 1];
      WireConcat(a, b[..|b| - 1]);
    }
  }

  /** Text without line feeds goes out unchanged. */
  lemma {:induction false} WireNoNewline(s: string)
    requires forall i :: 0 <= i < |s| ==> s[i] != '\n'
    ensures Wire(s) == s
    decreases |s|
  {
    if |s| > 0 {
      WireNoNewline(s[..|s| - 1]);
    }
  }

  /** Every firmware line, printed with "\r\n", reaches the UART ending in
      "\r\r\n". */
  lemma WireLine(s: string)
    requires forall i :: 0 <= i < |s| ==> s[i] != '\n'
    ensures Wire(s + "\r\n") == s + "\r\r\n"
  {
    WireCrlf();
    WireConcat(s, "\r\n");
    WireNoNewline(s);
  }

  lemma WireCrlf()
    ensures Wire("\r\n") == "\r\r\n"
  {
    var crlf := "\r\n";
    assert crlf[..1] == "\r";
    WireNoNewline("\r");
  }

  /** The SCAN report: `"STATE:%s | angle=%3d | dist=%3d cm\r\n"`. */
  function ScanLine(state: RobotState, angle: u8, dist: u16): string {
    "STATE:" + StateToStr(state) + " | angle=" + Padded(angle, 3) + " | dist=" + Padded(dist, 3) + " cm\r\n"
  }

  /** The DECIDE report: `"STATE:%s | min_angle=%d | min_dist=%d cm\r\n"`. */
  function DecideLine(state: RobotState, minAngle: u8, minDist: u16): string {
    "STATE:" + StateToStr(state) + " | min_angle=" + Digits(minAngle) + " | min_dist=" + Digits(minDist) + " cm\r\n"
  }

  /** The MOVE report: `"STATE:%s | FORWARD\r\n"`. */
  function MoveLine(state: RobotState): string {
    "STATE:" + StateToStr(state) + " | FORWARD\r\n"
  }

  /** Appends a printf'd text to the UART. */
  function Print(w: World, s: string): World {
    w.(console := w.console + Wire(s))
  }

  /** printf of a text ending in "\r\n". */
  function PrintLine(w: World, text: string): World {
    Print(w, text + "\r\n")
  }

  // ---------------------------------------------------------------- commands

  /** Whether a received byte is the given lower-case letter or its capital. */
  predicate Key(cmd: u8, lower: char)
    requires 'a' <= lower <= 'z'
  {
    cmd as int == lower as int || cmd as int == lower as int - 32
  }

  /** 't': automatic mode from SCAN, tune off. */
  function AutoStart(w: World): World {
    PrintLine(w.(v := w.v.(startFlag := 1, manualMode := 0), player := Tones.Stopped(w.player), state := Scan),
              "AUTO MODE START")
  }

  /** 'x': both modes off, motors and tune stopped, IDLE. */
  function Halt(w: World): World {
    PrintLine(w.(v := w.v.(startFlag := 0, manualMode := 0, manualCommand := 0),
                 pins := Motor.Outputs(Motor.StopAll), player := Tones.Stopped(w.player), state := Idle),
              "STOP")
  }

  /** 'w': manual forward, in MOVE. */
  function ManualForward(w: World): World {
    PrintLine(w.(v := w.v.(manualMode := 1, startFlag := 0, manualCommand := 1), player := Tones.Stopped(w.player),
                 pins := Motor.Outputs(Motor.Ahead), state := Move),
              "MANUAL: FORWARD")
  }

  /** 's': manual backward, in REVERSE, with the short Mario tune started at `now`. */
  function ManualBackward(w: World, now: u32): World {
    PrintLine(w.(v := w.v.(manualMode := 1, startFlag := 0, manualCommand := 2), pins := Motor.Outputs(Motor.Back),
                 player := Tones.Play(w.player, Some(Tones.MarioShort), 29, now), state := Reverse),
              "MANUAL: BACKWARD")
  }

  /** 'a': manual left turn; the state is not changed. */
  function ManualLeft(w: World): World {
    PrintLine(w.(v := w.v.(manualMode := 1, startFlag := 0, manualCommand := 3), player := Tones.Stopped(w.player),
                 pins := Motor.Outputs(Motor.TurnLeft)),
              "MANUAL: LEFT")
  }

  /** 'd': manual right turn; the state is not changed. */
  function ManualRight(w: World): World {
    PrintLine(w.(v := w.v.(manualMode := 1, startFlag := 0, manualCommand := 4), player := Tones.Stopped(w.player),
                 pins := Motor.Outputs(Motor.TurnRight)),
              "MANUAL: RIGHT")
  }

  /** 'r': servo back to 90 degrees; nothing else but the last command. */
  function ServoReset(w: World): World {
    PrintLine(w.(v := w.v.(manualCommand := 5), servo := Servo.Pulse(90)), "SERVO RESET (90 deg)")
  }

  /** Handle_Command: one received byte, with HAL_GetTick() as `now` for the
      tune 's' starts. */
  function Command(w: World, cmd: u8, now: u32): World
    requires Tones.Inv(w.player)
  {
    if Key(cmd, 't') then AutoStart(w)
    else if Key(cmd, 'x') then Halt(w)
    else if Key(cmd, 'w') then ManualForward(w)
    else if Key(cmd, 's') then ManualBackward(w, now)
    else if Key(cmd, 'a') then ManualLeft(w)
    else if Key(cmd, 'd') then ManualRight(w)
    else if Key(cmd, 'r') then ServoReset(w)
    else w
  }

  // ---------------------------------------------------------------- the loop

  /** Set_LED_By_State: green while scanning or moving, red in ALERT, orange in
      DECIDE, dark when idle; REVERSE leaves the pins as they are. */
  function LedAfter(rgb: RgbLed.Rgb, s: RobotState): RgbLed.Rgb {
    match s
    case Scan => RgbLed.LedFor(RgbLed.ColorGreen)
    case Move => RgbLed.LedFor(RgbLed.ColorGreen)
    case Reverse => rgb
    case Alert => RgbLed.LedFor(RgbLed.ColorRed)
    case Decide => RgbLed.LedFor(RgbLed.ColorOrange)
    case Idle => RgbLed.Dark
  }

  /** The orange blink of REVERSE: orange and a new period after 500 ms, dark
      after 250 ms, otherwise unchanged. Returns the new tick and pins. */
  function ReverseBlink(tick: u32, rgb: RgbLed.Rgb, now: u32): (u32, RgbLed.Rgb) {
    if Elapsed(now, tick) >= BlinkOnMs then (now, RgbLed.LedFor(RgbLed.ColorOrange))
    else if Elapsed(now, tick) >= BlinkOffMs then (tick, RgbLed.Dark)
    else (tick, rgb)
  }

  /** The 50 ms UI tick: UI_Update (with `uiDist` as its distance reading)
      and then Anim_Update. */
  function Refresh(w: World, now: u32, uiDist: u16): World {
    if Elapsed(now, w.v.uiTick) >= UiPeriodMs then
      var line1 := Ui.Line1(w.state, w.v.startFlag, w.v.manualMode, w.v.manualCommand);
      var line2 := Ui.Line2(uiDist, w.v.scanAngle);
      var ba := Anim.AnimStep(w.blinker, Ui.FaceAfter(w.uiPrev, w.state, w.face), now);
      w.(v := w.v.(uiTick := now), uiPrev := w.state, face := ba.1, blinker := ba.0,
         bus := w.bus + Ui.LcdBytes(line1, line2))
    else w
  }

  /** The entry-edge switch: REVERSE drives backward and blinks on its own
      tick, ALERT starts the alert tone; then `prevState` follows the state. */
  function OnEdge(w: World, now: u32): World {
    if w.state == w.v.prevState then w
    else if w.state == Reverse then
      var blink := ReverseBlink(w.v.edgeBlinkTick, w.rgb, now);
      w.(pins := Motor.Outputs(Motor.Back), rgb := blink.1,
         v := w.v.(edgeBlinkTick := blink.0, prevState := w.state))
    else if w.state == Alert then
      w.(player := Tones.Play(w.player, Some(Tones.MelodyAlert), 4, now), v := w.v.(prevState := w.state))
    else
      w.(v := w.v.(prevState := w.state))
  }

  /** `scan_angle += scan_dir * 10` on a uint8_t, then the clamp at either end
      of the sweep. Returns the new angle, the new direction and whether an end
      was reached (which moves the robot to DECIDE). */
  function Sweep(angle: u8, dir: i8): (u8, i8, bool) {
    var raw := (angle + dir * SweepStep) % 256;
    if raw >= SweepHigh then (SweepHigh, -1, true)
    else if raw <= SweepLow then (SweepLow, 1, true)
    else (raw, dir, false)
  }

  /** The minimum tracking of SCAN: a reading replaces the minimum only when
      it is nonzero and strictly smaller. Returns the new distance and angle. */
  function Track(minDist: u16, minAngle: u8, dist: u16, angle: u8): (u16, u8) {
    if dist > 0 && dist < minDist then (dist, angle) else (minDist, minAngle)
  }

  /** SCAN: at most once per 40 ms, point the servo, report the reading, track
      the minimum and step the sweep. */
  function ScanStep(w: World, now: u32, dist: u16): World {
    if Elapsed(now, w.v.lastScanTick) < ScanPeriodMs then w
    else
      var m := Track(w.v.minDist, w.v.minAngle, dist, w.v.scanAngle);
      var s := Sweep(w.v.scanAngle, w.v.scanDir);
      Print(w, ScanLine(w.state, w.v.scanAngle, dist)).(
        servo := Servo.Pulse(w.v.scanAngle),
        v := w.v.(lastScanTick := now, minDist := m.0, minAngle := m.1, scanAngle := s.0, scanDir := s.1),
        state := if s.2 then Decide else w.state)
  }

  /** DECIDE: report the minimum, then MOVE when it is farther than DIST_SAFE
      and ALERT otherwise. */
  function DecideStep(w: World): World {
    Print(w, DecideLine(w.state, w.v.minAngle, w.v.minDist)).(
      state := if w.v.minDist > DistSafe then Move else Alert)
  }

  /** MOVE: report, drive forward and go back to SCAN. */
  function MoveStep(w: World): World {
    Print(w, MoveLine(w.state)).(pins := Motor.Outputs(Motor.Ahead), state := Scan)
  }

  /** REVERSE: drive backward and blink on the behaviour switch's tick. */
  function ReverseStep(w: World, now: u32): World {
    var blink := ReverseBlink(w.v.reverseBlinkTick, w.rgb, now);
    w.(pins := Motor.Outputs(Motor.Back), rgb := blink.1, v := w.v.(reverseBlinkTick := blink.0))
  }

  /** The turn ALERT starts: away from the side of the nearest obstacle. */
  function AvoidTurn(minAngle: u8): Motor.Maneuver {
    if minAngle < 90 then Motor.TurnRight else Motor.TurnLeft
  }

  /** ALERT: start a turn unless one is under way, and once it has lasted more
      than 120 ms stop, forget the minimum and go back to SCAN. */
  function AlertStep(w: World, now: u32): World {
    var w1 := if w.v.avoiding == 0 then
                w.(pins := Motor.Outputs(AvoidTurn(w.v.minAngle)), v := w.v.(avoidStart := now, avoiding := 1))
              else w;
    if w1.v.avoiding != 0 && Elapsed(now, w1.v.avoidStart) > AvoidTurnMs then
      w1.(pins := Motor.Outputs(Motor.StopAll), v := w1.v.(avoiding := 0, minDist := NoObstacle), state := Scan)
    else w1
  }

  /** The behaviour switch, for the state read at the top of the iteration. */
  function Behave(w: World, now: u32, dist: u16): World {
    match w.state
    case Idle => w
    case Scan => ScanStep(w, now, dist)
    case Decide => DecideStep(w)
    case Move => MoveStep(w)
    case Reverse => ReverseStep(w, now)
    case Alert => AlertStep(w, now)
  }

  /** The part of an iteration that runs whatever start_flag is: the LED,
      the buzzer, the 50 ms UI tick and the entry-edge switch. */
  function Prelude(w: World, now: u32, uiDist: u16): World
    requires Tones.Inv(w.player)
  {
    var w1 := w.(rgb := LedAfter(w.rgb, w.state), player := Tones.Updated(w.player, now));
    OnEdge(Refresh(w1, now, uiDist), now)
  }

  /** One iteration of the main loop at tick `now`. `scanDist` is what
      Ultrasonic_GetDistance returns in SCAN and `uiDist` what it returns
      inside UI_Update. */
  function Iteration(w: World, now: u32, scanDist: u16, uiDist: u16): World
    requires Tones.Inv(w.player)
  {
    var p := Prelude(w, now, uiDist);
    if p.v.startFlag == 0 then p else Behave(p, now, scanDist)
  }

  // ---------------------------------------------------------------- commands: properties

  /** Handle_Command does not tell a letter from its capital. */
  lemma CommandCaseInsensitive(w: World, c: u8, now: u32)
    requires Tones.Inv(w.player)
    requires 'a' as int <= c as int <= 'z' as int
    ensures Command(w, c, now) == Command(w, (c as int - 32) as u8, now)
  {
  }

  /** The seven command letters, in either case. */
  predicate IsCommand(c: u8) {
    Key(c, 't') || Key(c, 'x') || Key(c, 'w') || Key(c, 's') || Key(c, 'a') || Key(c, 'd') || Key(c, 'r')
  }

  /** Any other byte changes nothing at all. */
  lemma CommandIgnoresOthers(w: World, c: u8, now: u32)
    requires Tones.Inv(w.player)
    requires !IsCommand(c)
    ensures Command(w, c, now) == w
  {
  }

  /** What each command sets: the robot state, the two mode flags and
      manual_command, as its case lists them; 'a', 'd' and 'r' keep the state
      and 'r' keeps both flags. No command touches the sweep, the minimum,
      the timers or the ALERT statics. */
  lemma CommandEffects(w: World, c: u8, now: u32)
    requires Tones.Inv(w.player)
    ensures var r := Command(w, c, now);
      && r.state == (if Key(c, 't') then Scan else if Key(c, 'x') then Idle else if Key(c, 'w') then Move
                     else if Key(c, 's') then Reverse else w.state)
      && (Key(c, 't') ==> r.v.startFlag == 1 && r.v.manualMode == 0 && r.v.manualCommand == w.v.manualCommand)
      && (Key(c, 'x') ==> r.v.startFlag == 0 && r.v.manualMode == 0 && r.v.manualCommand == 0)
      && (Key(c, 'w') ==> r.v.startFlag == 0 && r.v.manualMode == 1 && r.v.manualCommand == 1)
      && (Key(c, 's') ==> r.v.startFlag == 0 && r.v.manualMode == 1 && r.v.manualCommand == 2)
      && (Key(c, 'a') ==> r.v.startFlag == 0 && r.v.manualMode == 1 && r.v.manualCommand == 3)
      && (Key(c, 'd') ==> r.v.startFlag == 0 && r.v.manualMode == 1 && r.v.manualCommand == 4)
      && (Key(c, 'r') ==> r.v.startFlag == w.v.startFlag && r.v.manualMode == w.v.manualMode && r.v.manualCommand == 5)
      && r.v.(startFlag := w.v.startFlag, manualMode := w.v.manualMode, manualCommand := w.v.manualCommand) == w.v
      && r.face == w.face && r.blinker == w.blinker && r.uiPrev == w.uiPrev && r.bus == w.bus && r.rgb == w.rgb
  {
  }

  /** The tune each command leaves: silenced by every command except 's',
      which restarts the Mario tune, and 'r', which leaves it playing. */
  lemma CommandTune(w: World, c: u8, now: u32)
    requires Tones.Inv(w.player)
    ensures var r := Command(w, c, now);
      && (Key(c, 't') || Key(c, 'x') || Key(c, 'w') || Key(c, 'a') || Key(c, 'd') ==>
            r.player == Tones.Stopped(w.player) && !Tones.IsPlaying(r.player))
      && (Key(c, 's') ==> r.player == Tones.Play(w.player, Some(Tones.MarioShort), 29, now) && Tones.IsPlaying(r.player))
      && (Key(c, 'r') ==> r.player == w.player)
      && Tones.Inv(r.player)
  {
  }

  /** The wheels each command drives, and the servo 'r' centres. */
  lemma CommandWheels(w: World, c: u8, now: u32, wh: Motor.Wheel)
    requires Tones.Inv(w.player)
    ensures var r := Command(w, c, now);
      && (Key(c, 'x') ==> Motor.DirOf(r.pins, wh) == Motor.Halt)
      && (Key(c, 'w') ==> Motor.DirOf(r.pins, wh) == Motor.Forward)
      && (Key(c, 's') ==> Motor.DirOf(r.pins, wh) == Motor.Backward)
      && (Key(c, 'a') ==> Motor.DirOf(r.pins, wh) == Motor.Intended(Motor.TurnLeft, wh))
      && (Key(c, 'd') ==> Motor.DirOf(r.pins, wh) == Motor.Intended(Motor.TurnRight, wh))
      && (Key(c, 't') || Key(c, 'r') || !IsCommand(c) ==> r.pins == w.pins)
      && (Key(c, 'r') ==> r.servo == Servo.ServoCenter)
      && (!Key(c, 'r') ==> r.servo == w.servo)
  {
    var r := Command(w, c, now);
    if Key(c, 'x') {
      Motor.OutputsMeetIntent(Motor.StopAll, wh);
    } else if Key(c, 'w') {
      Motor.OutputsMeetIntent(Motor.Ahead, wh);
    } else if Key(c, 's') {
      Motor.OutputsMeetIntent(Motor.Back, wh);
    } else if Key(c, 'a') {
      Motor.OutputsMeetIntent(Motor.TurnLeft, wh);
    } else if Key(c, 'd') {
      Motor.OutputsMeetIntent(Motor.TurnRight, wh);
    } else if Key(c, 'r') {
      Servo.PulseLandmarks();
    }
  }

  /** The text each command prints, without its "\r\n". */
  function Reply(c: u8): string {
    if Key(c, 't') then "AUTO MODE START"
    else if Key(c, 'x') then "STOP"
    else if Key(c, 'w') then "MANUAL: FORWARD"
    else if Key(c, 's') then "MANUAL: BACKWARD"
    else if Key(c, 'a') then "MANUAL: LEFT"
    else if Key(c, 'd') then "MANUAL: RIGHT"
    else if Key(c, 'r') then "SERVO RESET (90 deg)"
    else ""
  }

  /** Every command prints exactly one line, its reply followed by the
      "\r\r\n" the UART carries; any other byte prints nothing. */
  lemma CommandReports(w: World, c: u8, now: u32)
    requires Tones.Inv(w.player)
    ensures IsCommand(c) ==> Command(w, c, now).console == w.console + Reply(c) + "\r\r\n"
    ensures !IsCommand(c) ==> Command(w, c, now).console == w.console
  {
    if IsCommand(c) {
      CommandPrints(w, c, now);
      ReplyOneLine(c);
      WireLine(Reply(c));
    }
  }

  lemma CommandPrints(w: World, c: u8, now: u32)
    requires Tones.Inv(w.player)
    requires IsCommand(c)
    ensures Command(w, c, now).console == w.console + Wire(Reply(c) + "\r\n")
  {
  }

  lemma ReplyOneLine(c: u8)
    ensures forall i :: 0 <= i < |Reply(c)| ==> Reply(c)[i] != '\n'
  {
  }


  // ---------------------------------------------------------------- the loop: properties

  /** The first half of an iteration changes neither the robot state nor any
      variable of the behaviour switch, prints nothing and leaves the servo;
      afterwards `prevState` is the state. */
  lemma PreludeFrame(w: World, now: u32, uiDist: u16)
    requires Tones.Inv(w.player)
    ensures var p := Prelude(w, now, uiDist);
      && p.state == w.state
      && p.v.prevState == w.state
      && p.v.(prevState := w.v.prevState, uiTick := w.v.uiTick, edgeBlinkTick := w.v.edgeBlinkTick) == w.v
      && p.console == w.console && p.servo == w.servo
      && (w.state != Reverse || w.state == w.v.prevState ==> p.pins == w.pins)
      && Tones.Inv(p.player)
  {
  }

  /** The UI runs at most once per 50 ms. When it runs, the face follows a
      state change and then the blink animator, ui_fsm.c's `prev_state`
      catches up with the state and both text lines reach the character
      display; otherwise none of that changes. */
  lemma UiCadence(w: World, now: u32, uiDist: u16)
    ensures var r := Refresh(w, now, uiDist);
      && r.state == w.state && r.console == w.console && r.player == w.player && r.pins == w.pins
      && (Elapsed(now, w.v.uiTick) < UiPeriodMs ==> r == w)
      && (Elapsed(now, w.v.uiTick) >= UiPeriodMs ==>
            && Ui.Printable(Ui.Line1(w.state, w.v.startFlag, w.v.manualMode, w.v.manualCommand))
            && Ui.Printable(Ui.Line2(uiDist, w.v.scanAngle))
            && r.v == w.v.(uiTick := now) && r.uiPrev == w.state
            && (r.blinker, r.face) == Anim.AnimStep(w.blinker, Ui.FaceAfter(w.uiPrev, w.state, w.face), now)
            && r.bus == w.bus + Ui.LcdBytes(Ui.Line1(w.state, w.v.startFlag, w.v.manualMode, w.v.manualCommand),
                                            Ui.Line2(uiDist, w.v.scanAngle)))
  {
    Ui.Line1Fits(w.state, w.v.startFlag, w.v.manualMode, w.v.manualCommand);
    Ui.Line2Printable(uiDist, w.v.scanAngle);
  }

  /** Set_LED_By_State never lights blue; apart from REVERSE, the pins it
      leaves depend on the state alone: green for SCAN and MOVE, red for
      ALERT, red and green (orange) for DECIDE, dark for IDLE. */
  lemma LedShowsState(rgb: RgbLed.Rgb, s: RobotState)
    ensures !rgb.blue ==> !LedAfter(rgb, s).blue
    ensures s != Reverse ==> !LedAfter(rgb, s).blue && LedAfter(rgb, s) == LedAfter(RgbLed.Dark, s)
    ensures s == Reverse ==> LedAfter(rgb, s) == rgb
    ensures LedAfter(rgb, s).green <==> (s == Scan || s == Move || s == Decide || (s == Reverse && rgb.green))
    ensures LedAfter(rgb, s).red <==> (s == Alert || s == Decide || (s == Reverse && rgb.red))
  {
  }

  /** The REVERSE blink: orange at most once per 500 ms, and whenever its
      tick moves it moves to `now`; between 250 ms and 500 ms the LED goes
      dark. */
  lemma ReverseBlinkPeriod(tick: u32, rgb: RgbLed.Rgb, now: u32)
    ensures var (t, c) := ReverseBlink(tick, rgb, now);
      && (t != tick ==> t == now)
      && (t == now && now != tick <==> Elapsed(now, tick) >= BlinkOnMs)
      && (Elapsed(now, tick) >= BlinkOnMs ==> c == RgbLed.LedFor(RgbLed.ColorOrange))
      && (BlinkOffMs <= Elapsed(now, tick) < BlinkOnMs ==> c == RgbLed.Dark && t == tick)
      && (Elapsed(now, tick) < BlinkOffMs ==> c == rgb && t == tick)
  {
    ElapsedZero(now, tick);
  }

  /** With start_flag clear an iteration is only its first half: the state,
      the sweep, the minimum and the ALERT statics stay as they are and
      nothing is printed. */
  lemma GateHolds(w: World, now: u32, scanDist: u16, uiDist: u16)
    requires Tones.Inv(w.player)
    requires w.v.startFlag == 0
    ensures Iteration(w, now, scanDist, uiDist) == Prelude(w, now, uiDist)
    ensures var r := Iteration(w, now, scanDist, uiDist);
      && r.state == w.state && r.console == w.console && r.servo == w.servo
      && r.v.scanAngle == w.v.scanAngle && r.v.scanDir == w.v.scanDir && r.v.lastScanTick == w.v.lastScanTick
      && r.v.minDist == w.v.minDist && r.v.minAngle == w.v.minAngle
      && r.v.avoiding == w.v.avoiding && r.v.avoidStart == w.v.avoidStart
  {
    PreludeFrame(w, now, uiDist);
  }

  /** The sweep: within [30, 150] the angle moves one step of 10 in its
      direction; a step that reaches or passes an end is clamped to that end,
      turns the direction inward and reports the end. The uint8_t wrap never
      comes into play. */
  lemma SweepBounces(angle: u8, dir: i8)
    requires SweepLow <= angle <= SweepHigh && (dir == 1 || dir == -1)
    ensures var (a, d, edge) := Sweep(angle, dir);
      && SweepLow <= a <= SweepHigh && (d == 1 || d == -1)
      && (edge <==> angle + dir * SweepStep >= SweepHigh || angle + dir * SweepStep <= SweepLow)
      && (!edge ==> a == angle + dir * SweepStep && d == dir)
      && (edge && dir == 1 ==> a == SweepHigh && d == -1)
      && (edge && dir == -1 ==> a == SweepLow && d == 1)
  {
  }

  /** The minimum only ever decreases; a zero reading (no echo) and a reading
      no smaller than the minimum leave minimum and angle alone. */
  lemma TrackKeepsMinimum(minDist: u16, minAngle: u8, dist: u16, angle: u8)
    ensures var (d, a) := Track(minDist, minAngle, dist, angle);
      && d <= minDist
      && (dist > 0 ==> d <= dist)
      && ((d == minDist && a == minAngle) || (d == dist && a == angle && dist > 0))
      && (dist == 0 || dist >= minDist ==> d == minDist && a == minAngle)
  {
  }

  /** Track applied to a run of readings, each with the angle it was taken
      at, oldest first. */
  function TrackAll(minDist: u16, minAngle: u8, rs: seq<(u16, u8)>): (u16, u8) {
    if |rs| == 0 then (minDist, minAngle)
    else
      var m := TrackAll(minDist, minAngle, rs[..|rs| - 1]);
      Track(m.0, m.1, rs[|rs| - 1].0, rs[|rs| - 1].1)
  }

  /** After a run of readings the minimum is the nearest nonzero one (or the
      starting minimum, if none is nearer), and the angle recorded with it is
      an angle at which that distance was read. */
  lemma {:induction false} TrackAllIsNearest(minDist: u16, minAngle: u8, rs: seq<(u16, u8)>)
    ensures var (d, a) := TrackAll(minDist, minAngle, rs);
      && d <= minDist
      && (forall i :: 0 <= i < |rs| && rs[i].0 > 0 ==> d <= rs[i].0)
      && ((d == minDist && a == minAngle) || (exists i :: 0 <= i < |rs| && rs[i] == (d, a) && d > 0))
  {
    if |rs| > 0 {
      var init := rs[..|rs| - 1];
      TrackAllIsNearest(minDist, minAngle, init);
      var m := TrackAll(minDist, minAngle, init);
      var last := rs[|rs| - 1];
      TrackKeepsMinimum(m.0, m.1, last.0, last.1);
      var (d, a) := TrackAll(minDist, minAngle, rs);
      forall i | 0 <= i < |rs| && rs[i].0 > 0
        ensures d <= rs[i].0
      {
        if i < |rs| - 1 {
          assert rs[i] == init[i];
        }
      }
      if !(d == minDist && a == minAngle) {
        if (d, a) == m {
          var j :| 0 <= j < |init| && init[j] == (d, a) && d > 0;
          assert rs[j] == init[j];
        } else {
          assert rs[|rs| - 1] == (d, a) && d > 0;
        }
      }
    }
  }

  /** SCAN acts at most once per 40 ms: before that an iteration leaves the
      SCAN variables, the servo and the UART alone; after it, the servo points
      at the old angle, the reading is reported, the minimum is tracked and
      the sweep steps, moving to DECIDE at either end. */
  lemma ScanCadence(w: World, now: u32, scanDist: u16, uiDist: u16)
    requires Tones.Inv(w.player)
    requires w.state == Scan && w.v.startFlag != 0
    ensures var r := Iteration(w, now, scanDist, uiDist);
      && (Elapsed(now, w.v.lastScanTick) < ScanPeriodMs ==>
            && r.state == Scan && r.console == w.console && r.servo == w.servo
            && r.v.lastScanTick == w.v.lastScanTick && r.v.scanAngle == w.v.scanAngle && r.v.scanDir == w.v.scanDir
            && r.v.minDist == w.v.minDist && r.v.minAngle == w.v.minAngle)
      && (Elapsed(now, w.v.lastScanTick) >= ScanPeriodMs ==>
            && r.v.lastScanTick == now
            && r.servo == Servo.Pulse(w.v.scanAngle)
            && r.console == w.console + Wire(ScanLine(Scan, w.v.scanAngle, scanDist))
            && (r.v.minDist, r.v.minAngle) == Track(w.v.minDist, w.v.minAngle, scanDist, w.v.scanAngle)
            && (r.v.scanAngle, r.v.scanDir, r.state == Decide) == Sweep(w.v.scanAngle, w.v.scanDir)
            && (r.state == Scan || r.state == Decide))
  {
    PreludeFrame(w, now, uiDist);
  }

  /** DECIDE reports the minimum and moves to MOVE exactly when it is farther
      than DIST_SAFE, otherwise to ALERT. */
  lemma DecideChooses(w: World, now: u32, scanDist: u16, uiDist: u16)
    requires Tones.Inv(w.player)
    requires w.state == Decide && w.v.startFlag != 0
    ensures var r := Iteration(w, now, scanDist, uiDist);
      && (r.state == Move <==> w.v.minDist > DistSafe)
      && (r.state == Alert <==> w.v.minDist <= DistSafe)
      && r.console == w.console + Wire(DecideLine(Decide, w.v.minAngle, w.v.minDist))
      && r.v.minDist == w.v.minDist && r.v.minAngle == w.v.minAngle
  {
    PreludeFrame(w, now, uiDist);
  }

  /** MOVE drives all four wheels forward and goes straight back to SCAN in
      the same iteration, keeping the minimum. */
  lemma MovePassesThrough(w: World, now: u32, scanDist: u16, uiDist: u16, wh: Motor.Wheel)
    requires Tones.Inv(w.player)
    requires w.state == Move && w.v.startFlag != 0
    ensures var r := Iteration(w, now, scanDist, uiDist);
      && r.state == Scan
      && Motor.DirOf(r.pins, wh) == Motor.Forward
      && r.v.minDist == w.v.minDist && r.v.minAngle == w.v.minAngle
      && r.console == w.console + Wire(MoveLine(Move))
  {
    PreludeFrame(w, now, uiDist);
    var p := Prelude(w, now, uiDist);
    Motor.OutputsMeetIntent(Motor.Ahead, wh);
  }

  /** The alert tone starts on the iteration that enters ALERT and on no
      other: later ALERT iterations only advance the tune. */
  lemma AlertToneOnEntry(w: World, now: u32, scanDist: u16, uiDist: u16)
    requires Tones.Inv(w.player)
    requires w.state == Alert
    ensures var r := Iteration(w, now, scanDist, uiDist);
      && (w.v.prevState != Alert ==>
            r.player == Tones.Play(Tones.Updated(w.player, now), Some(Tones.MelodyAlert), 4, now)
            && Tones.IsPlaying(r.player))
      && (w.v.prevState == Alert ==> r.player == Tones.Updated(w.player, now))
  {
    PreludeFrame(w, now, uiDist);
  }

  /** Entering the ALERT behaviour with no turn under way starts one, away
      from the side of the nearest obstacle (right when it lies below 90
      degrees, left otherwise; Motor.OutputsMeetIntent gives each wheel's
      direction), and stays in ALERT. */
  lemma AlertTurns(w: World, now: u32, scanDist: u16, uiDist: u16)
    requires Tones.Inv(w.player)
    requires w.state == Alert && w.v.startFlag != 0 && w.v.avoiding == 0
    ensures var r := Iteration(w, now, scanDist, uiDist);
      && r.state == Alert && r.v.avoiding == 1 && r.v.avoidStart == now
      && r.pins == Motor.Outputs(AvoidTurn(w.v.minAngle))
      && (AvoidTurn(w.v.minAngle) == Motor.TurnRight <==> w.v.minAngle < 90)
      && (AvoidTurn(w.v.minAngle) == Motor.TurnLeft <==> w.v.minAngle >= 90)
  {
    PreludeFrame(w, now, uiDist);
    var p := Prelude(w, now, uiDist);
    assert Iteration(w, now, scanDist, uiDist) == AlertStep(p, now);
    AlertStepStarts(p, now);
  }

  lemma AlertStepStarts(w: World, now: u32)
    requires w.v.avoiding == 0
    ensures var r := AlertStep(w, now);
      && r == w.(pins := Motor.Outputs(AvoidTurn(w.v.minAngle)), v := w.v.(avoidStart := now, avoiding := 1))
  {
    ElapsedZero(now, now);
  }

  /** With a turn under way, ALERT is left exactly when the turn has lasted
      more than 120 ms; leaving always stops every wheel, resets the minimum
      to 999 and returns to SCAN. */
  lemma AlertExits(w: World, now: u32, scanDist: u16, uiDist: u16, wh: Motor.Wheel)
    requires Tones.Inv(w.player)
    requires w.state == Alert && w.v.startFlag != 0 && w.v.avoiding != 0
    ensures var r := Iteration(w, now, scanDist, uiDist);
      && (r.state != Alert <==> Elapsed(now, w.v.avoidStart) > AvoidTurnMs)
      && (r.state != Alert ==>
            r.state == Scan && r.v.minDist == NoObstacle && r.v.avoiding == 0 && Motor.DirOf(r.pins, wh) == Motor.Halt)
      && (r.state == Alert ==> r.v.avoiding == w.v.avoiding && r.v.avoidStart == w.v.avoidStart)
  {
    PreludeFrame(w, now, uiDist);
    var p := Prelude(w, now, uiDist);
    Motor.OutputsMeetIntent(Motor.StopAll, wh);
  }

  /** A turn interrupted by a command stays "under way": the commands never
      clear `avoiding`, so it keeps the start tick of the interrupted turn. */
  lemma InterruptedTurnPersists(w: World, t: u32, scanDist: u16, uiDist: u16, c: u8, now: u32)
    requires Tones.Inv(w.player)
    requires w.state == Alert && w.v.startFlag != 0 && w.v.avoiding == 0
    ensures Tones.Inv(Iteration(w, t, scanDist, uiDist).player)
    ensures var w2 := Command(Iteration(w, t, scanDist, uiDist), c, now);
      w2.v.avoiding == 1 && w2.v.avoidStart == t
  {
    AlertTurns(w, t, scanDist, uiDist);
    PreludeFrame(w, t, uiDist);
    var w1 := Iteration(w, t, scanDist, uiDist);
    CommandEffects(w1, c, now);
  }

  /** The consequence: when ALERT is entered again with that stale flag, no
      new turn starts, and once the old start tick is more than 120 ms past
      the very first ALERT iteration stops the wheels and returns to SCAN. */
  lemma StaleTurnSkipsAvoidance(w: World, now: u32, scanDist: u16, uiDist: u16)
    requires Tones.Inv(w.player)
    requires w.state == Alert && w.v.startFlag != 0 && w.v.avoiding != 0
    requires Elapsed(now, w.v.avoidStart) > AvoidTurnMs
    ensures var r := Iteration(w, now, scanDist, uiDist);
      && r.state == Scan
      && r.pins == Motor.Outputs(Motor.StopAll)
      && r.v.minDist == NoObstacle
  {
    PreludeFrame(w, now, uiDist);
  }

  // ---------------------------------------------------------------- reachable states

  /** Power-on: the static initialisers of every file. */
  const PowerOn: World := World(Initial, Idle, Motor.AllLow, RgbLed.Dark, Tones.Silent, 0,
                                Eyes.Boot, Anim.Start, Idle, [], "")

  /** The start-up part of main() that the model covers, at tick `now`:
      Motor_Init, Buzzer_Off, RobotState_Init and RobotState_Set(IDLE),
      Servo_SetAngle(90), Anim_Init and UI_Init's expression and `prev_state`. */
  function Booted(now: u32): World {
    var w := PowerOn.(pins := Motor.Outputs(Motor.StopAll),
                      player := PowerOn.player.(pinOn := false), state := Idle,
                      servo := Servo.Pulse(90));
    var ba := Anim.AnimInit(w.blinker, w.face, now);
    w.(blinker := ba.0, face := Eyes.SetExpr(ba.1, Eyes.Sleepy), uiPrev := w.state)
  }

  /** What every reachable world satisfies: the buzzer invariant, the sweep
      within its limits with a unit direction, the two mode flags 0 or 1 and
      never both set, REVERSE only in manual mode, and a 0/1 `avoiding`. */
  predicate Consistent(w: World) {
    && Tones.Inv(w.player)
    && SweepLow <= w.v.scanAngle <= SweepHigh && (w.v.scanDir == 1 || w.v.scanDir == -1)
    && w.v.startFlag <= 1 && w.v.manualMode <= 1
    && !(w.v.startFlag == 1 && w.v.manualMode == 1)
    && (w.state == Reverse ==> w.v.startFlag == 0)
    && w.v.avoiding <= 1
  }

  lemma BootConsistent(now: u32)
    ensures Consistent(Booted(now))
    ensures Booted(now).state == Idle && Booted(now).v.startFlag == 0
    ensures Booted(now).face.current == Eyes.Sleepy && Booted(now).servo == Servo.ServoCenter
  {
    Servo.PulseLandmarks();
  }

  lemma CommandConsistent(w: World, c: u8, now: u32)
    requires Consistent(w)
    ensures Consistent(Command(w, c, now))
  {
    CommandEffects(w, c, now);
    CommandTune(w, c, now);
  }

  lemma IterationConsistent(w: World, now: u32, scanDist: u16, uiDist: u16)
    requires Consistent(w)
    ensures Consistent(Iteration(w, now, scanDist, uiDist))
  {
    PreludeFrame(w, now, uiDist);
    var p := Prelude(w, now, uiDist);
    assert Consistent(p);
    if p.v.startFlag != 0 {
      BehaveConsistent(p, now, scanDist);
    }
  }

  lemma BehaveConsistent(w: World, now: u32, dist: u16)
    requires Consistent(w) && w.v.startFlag != 0
    ensures Consistent(Behave(w, now, dist))
  {
    match w.state
    case Scan =>
      SweepBounces(w.v.scanAngle, w.v.scanDir);
      assert Consistent(ScanStep(w, now, dist));
    case Alert =>
      assert Consistent(AlertStep(w, now));
    case _ =>
  }

  /** The REVERSE case of the behaviour switch never runs: REVERSE is entered
      only by 's', which clears start_flag, and nothing but 't' sets it again,
      leaving REVERSE for SCAN. */
  lemma ReverseBehaviourUnreachable(w: World, now: u32, scanDist: u16, uiDist: u16)
    requires Consistent(w) && w.state == Reverse
    ensures Iteration(w, now, scanDist, uiDist) == Prelude(w, now, uiDist)
  {
    PreludeFrame(w, now, uiDist);
  }
}
