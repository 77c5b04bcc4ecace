/** The four-wheel H-bridge of motor.c: each wheel has a forward pin and a
    backward pin; the model keeps the level of all eight. */
module Motor {

  datatype Wheel = RightFront | RightBack | LeftFront | LeftBack

  /** MotorDir_t. */
  datatype MotorDir = Halt | Forward | Backward

  /** The drive commands of motor.c's public API. */
  datatype Maneuver = StopAll | Ahead | Back | TurnLeft | TurnRight

  /** The output level (true for GPIO_PIN_SET) of the eight H-bridge pins
      MOTOR_RFF ... MOTOR_LBB. */
  datatype Pins = Pins(rff: bool, rfb: bool, rbf: bool, rbb: bool, lff: bool, lfb: bool, lbf: bool, lbb: bool)

  /** A wheel's forward and backward pin levels. */
  function Levels(p: Pins, w: Wheel): (bool, bool) {
    match w
    case RightFront => (p.rff, p.rfb)
    case RightBack => (p.rbf, p.rbb)
    case LeftFront => (p.lff, p.lfb)
    case LeftBack => (p.lbf, p.lbb)
  }

  /** Every pin low: the GPIO reset state. */
  const AllLow: Pins := Pins(false, false, false, false, false, false, false, false)

  /** A wheel's two pins are never both high. */
  predicate WheelSafe(p: Pins, w: Wheel) {
    !(Levels(p, w).0 && Levels(p, w).1)
  }

  /** No wheel has its forward and backward pins set at once. */
  predicate NoShootThrough(p: Pins) {
    WheelSafe(p, RightFront) && WheelSafe(p, RightBack) && WheelSafe(p, LeftFront) && WheelSafe(p, LeftBack)
  }

  /** The direction a wheel's two pins encode. */
  function DirOf(p: Pins, w: Wheel): MotorDir {
    var (f, b) := Levels(p, w);
    if f && !b then Forward else if !f && b then Backward else Halt
  }

  /** The RF/RB/LF/LB helpers: a wheel's forward pin is set exactly for
      MOTOR_FORWARD and its backward pin exactly for MOTOR_BACKWARD. */
  function Drive(p: Pins, w: Wheel, d: MotorDir): Pins {
    var f, b := d == Forward, d == Backward;
    match w
    case RightFront => p.(rff := f, rfb := b)
    case RightBack => p.(rbf := f, rbb := b)
    case LeftFront => p.(lff := f, lfb := b)
    case LeftBack => p.(lbf := f, lbb := b)
  }

  /** Driving a wheel gives it the requested direction, never with both pins
      high, and leaves the other wheels' pins as they were. */
  lemma DriveSets(p: Pins, w: Wheel, d: MotorDir)
    ensures var q := Drive(p, w, d);
      && WheelSafe(q, w) && DirOf(q, w) == d
      && (forall v :: v != w ==> Levels(q, v) == Levels(p, v))
  {
  }

  /** Motor_Stop, Motor_Forward, Motor_Backward, Motor_Left and Motor_Right as
      the sequence of pin-pair writes each performs, in the source's order. */
  function Apply(p: Pins, m: Maneuver): Pins {
    match m
    case StopAll => Drive(Drive(Drive(Drive(p, RightFront, Halt), RightBack, Halt), LeftFront, Halt), LeftBack, Halt)
    case Ahead => Drive(Drive(Drive(Drive(p, RightFront, Forward), RightBack, Forward), LeftFront, Forward), LeftBack, Forward)
    case Back => Drive(Drive(Drive(Drive(p, RightFront, Backward), RightBack, Backward), LeftFront, Backward), LeftBack, Backward)
    case TurnRight => Drive(Drive(Drive(Drive(p, LeftFront, Backward), LeftBack, Backward), RightFront, Forward), RightBack, Forward)
    case TurnLeft => Drive(Drive(Drive(Drive(p, LeftFront, Forward), LeftBack, Forward), RightFront, Backward), RightBack, Backward)
  }

  /** The direction a maneuver gives each wheel. */
  function Intended(m: Maneuver, w: Wheel): MotorDir {
    match m
    case StopAll => Halt
    case Ahead => Forward
    case Back => Backward
    case TurnRight => if w == LeftFront || w == LeftBack then Backward else Forward
    case TurnLeft => if w == LeftFront || w == LeftBack then Forward else Backward
  }

  /** What a maneuver leaves on the pins: each wheel's forward pin high
      exactly when it is meant to go forward, its backward pin exactly when it
      is meant to go backward. */
  function Outputs(m: Maneuver): Pins {
    var rf, rb, lf, lb := Intended(m, RightFront), Intended(m, RightBack), Intended(m, LeftFront), Intended(m, LeftBack);
    Pins(rf == Forward, rf == Backward, rb == Forward, rb == Backward,
         lf == Forward, lf == Backward, lb == Forward, lb == Backward)
  }

  /** Swaps the left and right sides. */
  function Mirror(w: Wheel): Wheel {
    match w
    case RightFront => LeftFront
    case RightBack => LeftBack
    case LeftFront => RightFront
    case LeftBack => RightBack
  }

  /** The pins of motor.c as an object. */
  class MotorDriver {
    var pins: Pins

    constructor ()
      ensures pins == AllLow
    {
      pins := AllLow;
    }

    /** One of the RF/RB/LF/LB helpers. */
    method DriveWheel(w: Wheel, d: MotorDir)
      modifies this
      ensures pins == Drive(old(pins), w, d)
    {
      var f, b := d == MotorDir.Forward, d == MotorDir.Backward;
      match w {
        case RightFront => pins := pins.(rff := f, rfb := b);
        case RightBack => pins := pins.(rbf := f, rbb := b);
        case LeftFront => pins := pins.(lff := f, lfb := b);
        case LeftBack => pins := pins.(lbf := f, lbb := b);
      }
    }

    /** Motor_Init: the same as Motor_Stop. */
    method Init()
      modifies this
      ensures pins == Outputs(StopAll)
    {
      Stop();
    }

    /** Motor_Stop. */
    method Stop()
      modifies this
      ensures pins == Outputs(StopAll)
    {
      DriveWheel(RightFront, Halt);
      DriveWheel(RightBack, Halt);
      DriveWheel(LeftFront, Halt);
      DriveWheel(LeftBack, Halt);
    }

    /** Motor_Forward. */
    method Forward()
      modifies this
      ensures pins == Outputs(Ahead)
    {
      DriveWheel(RightFront, MotorDir.Forward);
      DriveWheel(RightBack, MotorDir.Forward);
      DriveWheel(LeftFront, MotorDir.Forward);
      DriveWheel(LeftBack, MotorDir.Forward);
    }

    /** Motor_Backward. */
    method Backward()
      modifies this
      ensures pins == Outputs(Back)
    {
      DriveWheel(RightFront, MotorDir.Backward);
      DriveWheel(RightBack, MotorDir.Backward);
      DriveWheel(LeftFront, MotorDir.Backward);
      DriveWheel(LeftBack, MotorDir.Backward);
    }

    /** Motor_Right: left wheels backward, right wheels forward. */
    method Right()
      modifies this
      ensures pins == Outputs(TurnRight)
    {
      DriveWheel(LeftFront, MotorDir.Backward);
      DriveWheel(LeftBack, MotorDir.Backward);
      DriveWheel(RightFront, MotorDir.Forward);
      DriveWheel(RightBack, MotorDir.Forward);
    }

    /** Motor_Left: left wheels forward, right wheels backward. */
    method Left()
      modifies this
      ensures pins == Outputs(TurnLeft)
    {
      DriveWheel(LeftFront, MotorDir.Forward);
      DriveWheel(LeftBack, MotorDir.Forward);
      DriveWheel(RightFront, MotorDir.Backward);
      DriveWheel(RightBack, MotorDir.Backward);
    }

    /** Issues one of the five maneuvers. */
    method Run(m: Maneuver)
      modifies this
      ensures pins == Outputs(m)
    {
      match m
      case StopAll => Stop();
      case Ahead => Forward();
      case Back => Backward();
      case TurnLeft => Left();
      case TurnRight => Right();
    }
  }

  /** Every maneuver sets each wheel to the intended direction, never with both
      of its pins high, and leaves all eight pins written. */
  lemma ApplyMeetsIntent(p: Pins, m: Maneuver, w: Wheel)
    ensures NoShootThrough(Apply(p, m))
    ensures DirOf(Apply(p, m), w) == Intended(m, w)
  {
    var a := Apply(p, m);
    match m
    case StopAll =>
      var p1 := Drive(p, RightFront, Halt);
      var p2 := Drive(p1, RightBack, Halt);
      var p3 := Drive(p2, LeftFront, Halt);
      DriveSets(p, RightFront, Halt);
      DriveSets(p1, RightBack, Halt);
      DriveSets(p2, LeftFront, Halt);
      DriveSets(p3, LeftBack, Halt);
      assert a == Drive(p3, LeftBack, Halt);
    case Ahead =>
      var p1 := Drive(p, RightFront, Forward);
      var p2 := Drive(p1, RightBack, Forward);
      var p3 := Drive(p2, LeftFront, Forward);
      DriveSets(p, RightFront, Forward);
      DriveSets(p1, RightBack, Forward);
      DriveSets(p2, LeftFront, Forward);
      DriveSets(p3, LeftBack, Forward);
      assert a == Drive(p3, LeftBack, Forward);
    case Back =>
      var p1 := Drive(p, RightFront, Backward);
      var p2 := Drive(p1, RightBack, Backward);
      var p3 := Drive(p2, LeftFront, Backward);
      DriveSets(p, RightFront, Backward);
      DriveSets(p1, RightBack, Backward);
      DriveSets(p2, LeftFront, Backward);
      DriveSets(p3, LeftBack, Backward);
      assert a == Drive(p3, LeftBack, Backward);
    case TurnRight =>
      var p1 := Drive(p, LeftFront, Backward);
      var p2 := Drive(p1, LeftBack, Backward);
      var p3 := Drive(p2, RightFront, Forward);
      DriveSets(p, LeftFront, Backward);
      DriveSets(p1, LeftBack, Backward);
      DriveSets(p2, RightFront, Forward);
      DriveSets(p3, RightBack, Forward);
      assert a == Drive(p3, RightBack, Forward);
    case TurnLeft =>
      var p1 := Drive(p, LeftFront, Forward);
      var p2 := Drive(p1, LeftBack, Forward);
      var p3 := Drive(p2, RightFront, Backward);
      DriveSets(p, LeftFront, Forward);
      DriveSets(p1, LeftBack, Forward);
      DriveSets(p2, RightFront, Backward);
      DriveSets(p3, RightBack, Backward);
      assert a == Drive(p3, RightBack, Backward);
  }

  /** Motor_Left is the mirror image of Motor_Right: each wheel turns the way
      its opposite-side wheel turns under Motor_Right. */
  lemma LeftMirrorsRight(p: Pins, w: Wheel)
    ensures DirOf(Apply(p, TurnLeft), w) == DirOf(Apply(p, TurnRight), Mirror(w))
  {
    ApplyMeetsIntent(p, TurnLeft, w);
    ApplyMeetsIntent(p, TurnRight, Mirror(w));
  }

  /** Each maneuver writes all eight pins, so what it leaves does not depend
      on the pins before it. */
  lemma ApplyOverwrites(p: Pins, m: Maneuver)
    ensures Apply(p, m) == Outputs(m)
  {
  }

  /** What a maneuver leaves on the pins drives each wheel the intended way,
      never with both of its pins high. */
  lemma OutputsMeetIntent(m: Maneuver, w: Wheel)
    ensures NoShootThrough(Outputs(m)) && DirOf(Outputs(m), w) == Intended(m, w)
  {
    ApplyOverwrites(AllLow, m);
    ApplyMeetsIntent(AllLow, m, w);
  }

  /** Motor_Stop resets all eight pins, from any previous pin state. */
  lemma StopResetsAll(p: Pins)
    ensures Apply(p, StopAll) == AllLow
  {
    ApplyOverwrites(p, StopAll);
  }
}
