/** The pan servo of servo.c: an angle in degrees becomes a PWM compare value
    between SERVO_MIN (0.5 ms) and SERVO_MAX (2.5 ms). */
module Servo {
  import opened Ticks

  const ServoMin: nat := 25
  const ServoMax: nat := 125
  const ServoCenter: nat := 75

  /** Servo_SetAngle's compare value: the angle is clamped to 180, then mapped
      linearly with integer division. */
  function Pulse(angle: u8): (p: nat)
    ensures ServoMin <= p <= ServoMax
    ensures angle >= 180 ==> p == ServoMax
  {
    var a := if angle > 180 then 180 else angle;
    ServoMin + (a * (ServoMax - ServoMin)) / 180
  }

  /** The compare register of the servo channel. The timer handle and channel
      that Servo_Init stores are not modelled. */
  class ServoDriver {
    var compare: nat

    constructor ()
      ensures compare == 0
    {
      compare := 0;
    }

    /** Servo_Init: starts PWM with the compare value at the centre. */
    method Init()
      modifies this
      ensures compare == ServoCenter
    {
      compare := ServoCenter;
    }

    /** Servo_SetAngle. */
    method SetAngle(angle: u8)
      modifies this
      ensures compare == Pulse(angle)
    {
      var a := angle;
      if a > 180 {
        a := 180;
      }
      compare := ServoMin + (a * (ServoMax - ServoMin)) / 180;
    }
  }

  /** Angle 0 gives the minimum pulse, 90 the centre and 180 the maximum. */
  lemma PulseLandmarks()
    ensures Pulse(0) == ServoMin && Pulse(90) == ServoCenter && Pulse(180) == ServoMax
  {
  }

  /** A larger angle never gives a shorter pulse. */
  lemma PulseMonotone(a: u8, b: u8)
    requires a <= b
    ensures Pulse(a) <= Pulse(b)
  {
    var x := if a > 180 then 180 else a;
    var y := if b > 180 then 180 else b;
    assert x <= y;
    DivMonotone(x * 100, y * 100, 180);
  }
}
