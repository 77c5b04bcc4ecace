/** main.c as a program: its globals and loop statics as one record held by
    an object that owns the driver objects, Handle_Command, Set_LED_By_State, the
    retargeted putchar, and one iteration of the main loop. Every method is
    proved to produce the World the functions of module Control describe. */
module Firmware {
  import opened Ticks
  import opened Wrappers
  import opened RobotStates
  import opened Control
  import Motor
  import RgbLed
  import Tones
  import Servo
  import Eyes
  import Anim
  import Ui
  import CharLcd

  class Robot {
    const store: StateStore
    const motors: Motor.MotorDriver
    const led: RgbLed.Led
    const buzzer: Tones.Buzzer
    const servo: Servo.ServoDriver
    const eyes: Eyes.Renderer
    const anim: Anim.Animator
    const ui: Ui.Coordinator
    const lcd: CharLcd.I2cLcd

    /** The file-scope globals and loop statics, as one record. */
    var v: Vars
    /** Every character put on the UART. */
    var console: string

    function Snapshot(): World
      reads this, store, motors, led, buzzer, servo, eyes, anim, ui, lcd
    {
      World(v, store.current, motors.pins, led.Model(), buzzer.Model(), servo.compare,
            eyes.Model(), anim.Model(), ui.prevState, lcd.bus, console)
    }

    predicate Valid()
      reads this, buzzer
    {
      Tones.Inv(buzzer.Model())
    }

    /** The program at power-on: every static initialiser. */
    constructor ()
      ensures Valid() && Snapshot() == PowerOn
    {
      store := new StateStore();
      motors := new Motor.MotorDriver();
      led := new RgbLed.Led();
      buzzer := new Tones.Buzzer();
      servo := new Servo.ServoDriver();
      eyes := new Eyes.Renderer();
      anim := new Anim.Animator();
      ui := new Ui.Coordinator();
      lcd := new CharLcd.I2cLcd();
      v := Initial;
      console := "";
    }

    /** __io_putchar: a carriage return before every line feed. */
    method Putchar(ch: char)
      modifies this
      ensures Snapshot() == Print(old(Snapshot()), [ch])
    {
      if ch == '\n' {
        console := console + "\r";
      }
      console := console + [ch];
      assert [ch][..|[ch]| - 1] == [];
      assert Wire([ch]) == Wire([]) + (if ch == '\n' then "\r\n" else [ch]);
    }

    /** printf of an already formatted text, one character at a time. */
    method Printf(s: string)
      modifies this
      ensures Snapshot() == Print(old(Snapshot()), s)
    {
      var i := 0;
      while i < |s|
        invariant 0 <= i <= |s|
        invariant Snapshot() == Print(old(Snapshot()), s[..i])
      {
        Putchar(s[i]);
        assert s[..i + 1] == s[..i] + [s[i]];
        WireConcat(s[..i], [s[i]]);
        i := i + 1;
      }
      assert s[..i] == s;
    }

    /** printf of a constant text ending in "\r\n". */
    method PrintfLine(text: string)
      modifies this
      ensures Snapshot() == PrintLine(old(Snapshot()), text)
    {
      Printf(text + "\r\n");
    }

    /** Set_LED_By_State. */
    method SetLedByState(state: RobotState)
      modifies led
      ensures led.Model() == LedAfter(old(led.Model()), state)
    {
      match state {
        case Scan => led.Set(RgbLed.ColorGreen);
        case Move => led.Set(RgbLed.ColorGreen);
        case Reverse =>
        case Alert => led.Set(RgbLed.ColorRed);
        case Decide => led.Set(RgbLed.ColorOrange);
        case Idle => led.Off();
      }
    }

    /** The 't' arm of Handle_Command. */
    method AutoStart()
      modifies this, buzzer, store
      ensures Snapshot() == Control.AutoStart(old(Snapshot()))
    {
      v := v.(startFlag := 1, manualMode := 0);
      buzzer.Stop();
      PrintfLine("AUTO MODE START");
      store.Set(Scan);
    }

    /** The 'x' arm. */
    method Halt()
      modifies this, motors, buzzer, store
      ensures Snapshot() == Control.Halt(old(Snapshot()))
    {
      v := v.(startFlag := 0, manualMode := 0);
      motors.Stop();
      buzzer.Stop();
      PrintfLine("STOP");
      store.Set(Idle);
      v := v.(manualCommand := 0);
    }

    /** The 'w' arm. */
    method ManualForward()
      modifies this, buzzer, motors, store
      ensures Snapshot() == Control.ManualForward(old(Snapshot()))
    {
      v := v.(manualMode := 1, startFlag := 0);
      buzzer.Stop();
      motors.Forward();
      PrintfLine("MANUAL: FORWARD");
      store.Set(Move);
      v := v.(manualCommand := 1);
    }

    /** The 's' arm. */
    method ManualBackward(now: u32)
      requires Valid()
      modifies this, motors, buzzer, store
      ensures Valid()
      ensures Snapshot() == Control.ManualBackward(old(Snapshot()), now)
    {
      v := v.(manualMode := 1, startFlag := 0);
      motors.Backward();
      buzzer.PlayMario(now);
      store.Set(Reverse);
      PrintfLine("MANUAL: BACKWARD");
      v := v.(manualCommand := 2);
    }

    /** The 'a' arm. */
    method ManualLeft()
      modifies this, buzzer, motors
      ensures Snapshot() == Control.ManualLeft(old(Snapshot()))
    {
      v := v.(manualMode := 1, startFlag := 0);
      buzzer.Stop();
      motors.Left();
      PrintfLine("MANUAL: LEFT");
      v := v.(manualCommand := 3);
    }

    /** The 'd' arm. */
    method ManualRight()
      modifies this, buzzer, motors
      ensures Snapshot() == Control.ManualRight(old(Snapshot()))
    {
      v := v.(manualMode := 1, startFlag := 0);
      buzzer.Stop();
      motors.Right();
      PrintfLine("MANUAL: RIGHT");
      v := v.(manualCommand := 4);
    }

    /** The 'r' arm. */
    method ServoReset()
      modifies this, servo
      ensures Snapshot() == Control.ServoReset(old(Snapshot()))
    {
      servo.SetAngle(90);
      PrintfLine("SERVO RESET (90 deg)");
      v := v.(manualCommand := 5);
    }

    /** Handle_Command, with HAL_GetTick() passed in as `now`: upper and lower
        case letters select the same arm, any other byte is ignored. */
    method HandleCommand(cmd: u8, now: u32)
      requires Valid()
      modifies this, store, motors, buzzer, servo
      ensures Valid()
      ensures Snapshot() == Command(old(Snapshot()), cmd, now)
    {
      if Key(cmd, 't') {
        AutoStart();
      } else if Key(cmd, 'x') {
        Halt();
      } else if Key(cmd, 'w') {
        ManualForward();
      } else if Key(cmd, 's') {
        ManualBackward(now);
      } else if Key(cmd, 'a') {
        ManualLeft();
      } else if Key(cmd, 'd') {
        ManualRight();
      } else if Key(cmd, 'r') {
        ServoReset();
      }
    }

    /** The REVERSE blink on one of the two `reverse_blink_tick` statics:
        returns its new value. */
    method BlinkReverse(tick: u32, now: u32) returns (t: u32)
      modifies led
      ensures (t, led.Model()) == ReverseBlink(tick, old(led.Model()), now)
    {
      t := tick;
      if Elapsed(now, tick) >= BlinkOnMs {
        t := now;
        led.Set(RgbLed.ColorOrange);
      } else if Elapsed(now, tick) >= BlinkOffMs {
        led.Off();
      }
    }

    /** The 50 ms UI tick of the loop: UI_Update, then Anim_Update. */
    method UiTick(now: u32, uiDist: u16)
      modifies this, eyes, anim, ui, lcd
      ensures Snapshot() == Refresh(old(Snapshot()), now, uiDist)
    {
      if Elapsed(now, v.uiTick) >= UiPeriodMs {
        v := v.(uiTick := now);
        ui.Update(store, eyes, lcd, uiDist, v.startFlag, v.manualMode, v.manualCommand, v.scanAngle);
        anim.Update(eyes, now);
      }
    }

    /** The entry-edge switch of the loop for the state read at its top. */
    method EdgeTick(now: u32)
      requires Valid()
      modifies this, motors, led, buzzer
      ensures Valid()
      ensures Snapshot() == OnEdge(old(Snapshot()), now)
    {
      var currentState := store.Get();
      if currentState != v.prevState {
        if currentState == Reverse {
          motors.Backward();
          var t := BlinkReverse(v.edgeBlinkTick, now);
          v := v.(edgeBlinkTick := t);
        } else if currentState == Alert {
          buzzer.PlayAlert(now);
        }
        v := v.(prevState := currentState);
      }
    }

    /** Everything before the start_flag gate. */
    method RunPrelude(now: u32, uiDist: u16)
      requires Valid()
      modifies this, motors, led, buzzer, eyes, anim, ui, lcd
      ensures Valid()
      ensures Snapshot() == Prelude(old(Snapshot()), now, uiDist)
    {
      var currentState := store.Get();
      SetLedByState(currentState);
      buzzer.Update(now);
      UiTick(now, uiDist);
      EdgeTick(now);
    }

    /** The minimum tracking of the SCAN case. */
    method TrackMinimum(dist: u16)
      modifies this
      ensures var m := Track(old(v.minDist), old(v.minAngle), dist, old(v.scanAngle));
        Snapshot() == old(Snapshot()).(v := old(v).(minDist := m.0, minAngle := m.1))
    {
      if dist > 0 && dist < v.minDist {
        v := v.(minDist := dist, minAngle := v.scanAngle);
      }
    }

    /** The sweep step of the SCAN case: an end of the sweep moves to DECIDE. */
    method StepSweep()
      modifies this, store
      ensures var s := Sweep(old(v.scanAngle), old(v.scanDir));
        Snapshot() == old(Snapshot()).(v := old(v).(scanAngle := s.0, scanDir := s.1),
                                       state := if s.2 then Decide else old(store.current))
    {
      v := v.(scanAngle := (v.scanAngle + v.scanDir * SweepStep) % 256);
      if v.scanAngle >= SweepHigh {
        v := v.(scanAngle := SweepHigh, scanDir := -1);
        store.Set(Decide);
      } else if v.scanAngle <= SweepLow {
        v := v.(scanAngle := SweepLow, scanDir := 1);
        store.Set(Decide);
      }
    }

    /** The SCAN case. The ghost worlds record the state after each step. */
    method ScanCase(now: u32, dist: u16)
      modifies this, store, servo
      ensures Snapshot() == ScanStep(old(Snapshot()), now, dist)
    {
      if Elapsed(now, v.lastScanTick) < ScanPeriodMs {
        return;
      }
      ghost var w0 := Snapshot();
      ghost var line := ScanLine(store.current, v.scanAngle, dist);
      v := v.(lastScanTick := now);
      servo.SetAngle(v.scanAngle);
      var currentState := store.Get();
      Printf(ScanLine(currentState, v.scanAngle, dist));
      ghost var w2 := w0.(v := w0.v.(lastScanTick := now), servo := Servo.Pulse(w0.v.scanAngle),
                          console := w0.console + Wire(line));
      assert Snapshot() == w2;
      TrackMinimum(dist);
      StepSweep();
      ghost var m := Track(w0.v.minDist, w0.v.minAngle, dist, w0.v.scanAngle);
      ghost var sw := Sweep(w0.v.scanAngle, w0.v.scanDir);
      ghost var w4 := w2.(v := w2.v.(minDist := m.0, minAngle := m.1, scanAngle := sw.0, scanDir := sw.1),
                          state := if sw.2 then Decide else w0.state);
      assert Snapshot() == w4;
    }

    /** The DECIDE case. */
    method DecideCase()
      modifies this, store
      ensures Snapshot() == DecideStep(old(Snapshot()))
    {
      var currentState := store.Get();
      Printf(DecideLine(currentState, v.minAngle, v.minDist));
      if v.minDist > DistSafe {
        store.Set(Move);
      } else {
        store.Set(Alert);
      }
    }

    /** The MOVE case. */
    method MoveCase()
      modifies this, store, motors
      ensures Snapshot() == MoveStep(old(Snapshot()))
    {
      var currentState := store.Get();
      Printf(MoveLine(currentState));
      motors.Forward();
      store.Set(Scan);
    }

    /** The REVERSE case. */
    method ReverseCase(now: u32)
      modifies this, motors, led
      ensures Snapshot() == ReverseStep(old(Snapshot()), now)
    {
      motors.Backward();
      var t := BlinkReverse(v.reverseBlinkTick, now);
      v := v.(reverseBlinkTick := t);
    }

    /** The ALERT case. */
    method AlertCase(now: u32)
      modifies this, store, motors
      ensures Snapshot() == AlertStep(old(Snapshot()), now)
    {
      if v.avoiding == 0 {
        if v.minAngle < 90 {
          motors.Right();
        } else {
          motors.Left();
        }
        v := v.(avoidStart := now, avoiding := 1);
      }
      if v.avoiding != 0 && Elapsed(now, v.avoidStart) > AvoidTurnMs {
        motors.Stop();
        v := v.(avoiding := 0, minDist := NoObstacle);
        store.Set(Scan);
      }
    }

    /** One iteration of the `while (1)` body at tick `now`, with the two
        ultrasonic readings it takes as inputs. */
    method Iterate(now: u32, scanDist: u16, uiDist: u16)
      requires Valid()
      modifies this, store, motors, led, buzzer, servo, eyes, anim, ui, lcd
      ensures Valid()
      ensures Snapshot() == Iteration(old(Snapshot()), now, scanDist, uiDist)
    {
      var currentState := store.Get();
      RunPrelude(now, uiDist);
      if v.startFlag == 0 {
        return;
      }
      match currentState {
        case Idle =>
        case Scan => ScanCase(now, scanDist);
        case Decide => DecideCase();
        case Move => MoveCase();
        case Reverse => ReverseCase(now);
        case Alert => AlertCase(now);
      }
    }
  }
}
