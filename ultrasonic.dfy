/** The HC-SR04 style ranging of ultrasonic.c. The echo pin is polled against
    TIM1, a 16-bit counter ticking once per microsecond; an echo is described
    by when it rises (microseconds after the measurement starts) and how long
    it stays high. */
module Ultrasonic {
  import opened Ticks

  /** Both wait loops give up after 30000 us. */
  const TimeoutUs: nat := 30000
  /** The accepted echo window: 240 us (about 4 cm) to 23000 us (about 391 cm). */
  const MinEchoUs: nat := 240
  const MaxEchoUs: nat := 23000

  /** TIM1's counter register, `t` microseconds after it read `start`; it
      wraps at 2^16. */
  function Counter(start: u16, t: nat): (c: u16)
    ensures start + t < 65536 ==> c == start + t
    ensures start + t == 65536 ==> c == 0
  {
    (start + t) % 65536
  }

  /** Ultrasonic_GetDistance's conversion of an echo width to centimetres. The
      source multiplies by the double 0.017 and truncates; here that is the
      exact quotient echo * 17 / 1000, rounded down. */
  function EchoToCm(echoUs: u32): (cm: u16)
    ensures echoUs < MinEchoUs || echoUs > MaxEchoUs ==> cm == 0
    ensures MinEchoUs <= echoUs <= MaxEchoUs ==> cm * 1000 <= echoUs * 17 < cm * 1000 + 1000
    ensures MinEchoUs <= echoUs <= MaxEchoUs ==> 4 <= cm <= 391
  {
    if echoUs < MinEchoUs || echoUs > MaxEchoUs then 0
    else echoUs * 17 / 1000
  }

  /** What echo_time_us returns for an echo that rises `riseAfter` us after the
      counter read `start` and stays high `highFor` us: 0 when the rising edge
      does not come within the 30000 us timeout, when the counter wraps past
      65535 before the rising edge (the uint32_t difference is then huge, a
      spurious timeout), or when the pulse outlasts the timeout; otherwise the
      width of the pulse. */
  function EchoWidth(start: u16, riseAfter: nat, highFor: nat): (us: u32)
    ensures us == 0 || us == highFor
  {
    if riseAfter > TimeoutUs + 1 || start + riseAfter > 65536 || highFor > TimeoutUs + 1 then 0
    else highFor
  }

  /** echo_time_us, polling the pin once per counter tick. Before the echo
      rises the check is the uint32_t difference `counter - start`; after it
      the counter is reset to 0 and compared with the timeout directly. */
  method EchoTimeUs(start: u16, riseAfter: nat, highFor: nat) returns (us: u32)
    ensures us == EchoWidth(start, riseAfter, highFor)
  {
    // wait for the echo to go high
    var t := 0;
    while t < riseAfter
      invariant 0 <= t <= riseAfter
      invariant t <= TimeoutUs + 1 && start + t <= 65536
    {
      if Elapsed(Counter(start, t), start) > TimeoutUs {
        return 0;
      }
      t := t + 1;
    }
    // the counter is reset when the echo rises; wait for it to fall
    var c: u16 := 0;
    while c < highFor
      invariant 0 <= c <= highFor
      invariant c <= TimeoutUs + 1
    {
      if c > TimeoutUs {
        return 0;
      }
      c := c + 1;
    }
    us := c;
  }

  /** The trigger pulse is held for 10 us on TIM1 before the echo is timed. */
  const TrigUs: u16 := 10

  /** delay_us: resets TIM1 to 0 and polls it, once per tick, until it reaches
      `us`; returns the counter value at which the wait ends. */
  method DelayUs(us: u16) returns (counter: u16)
    ensures counter == us
  {
    counter := 0;
    while counter < us
      invariant counter <= us
    {
      counter := Counter(counter, 1);
    }
  }

  /** trig_pulse: the trigger pin goes high, stays high for delay_us(10) and
      goes low again. Returns the levels written to the pin, in order, and the
      counter value at the falling edge, which is where echo_time_us starts. */
  method TrigPulse() returns (trig: seq<bool>, counter: u16)
    ensures trig == [true, false]
    ensures counter == TrigUs
  {
    trig := [true];
    counter := DelayUs(TrigUs);
    trig := trig + [false];
  }

  /** The reading Ultrasonic_GetDistance gives for an echo rising `riseAfter`
      us after the trigger pulse and staying high `highFor` us. */
  function Reading(riseAfter: nat, highFor: nat): (cm: u16)
  {
    EchoToCm(EchoWidth(TrigUs, riseAfter, highFor))
  }

  /** Ultrasonic_GetDistance: trigger, measure from the counter value the
      trigger leaves, discard widths outside the window, convert. */
  method GetDistance(riseAfter: nat, highFor: nat) returns (trig: seq<bool>, cm: u16)
    ensures trig == [true, false]
    ensures cm == Reading(riseAfter, highFor)
  {
    var start;
    trig, start := TrigPulse();
    var echo := EchoTimeUs(start, riseAfter, highFor);
    cm := EchoToCm(echo);
  }

  /** Because the trigger pulse leaves TIM1 at 10, the counter cannot wrap
      before a rising edge that comes within the timeout: echo_time_us returns
      the width of every echo that rises within 30001 us and lasts at most
      30001 us, and 0 for any other. */
  lemma {:induction false} NoWrapAfterTrigger(riseAfter: nat, highFor: nat)
    ensures EchoWidth(TrigUs, riseAfter, highFor) ==
              (if riseAfter <= TimeoutUs + 1 && highFor <= TimeoutUs + 1 then highFor else 0)
  {
  }

  /** A reading is either 0 ("no echo") or between 4 and 391 cm. It is nonzero
      exactly when the echo rose within the timeout and its width lies in the
      window, and then it is the width's conversion. */
  lemma DistanceCharacterised(riseAfter: nat, highFor: nat)
    ensures var cm := Reading(riseAfter, highFor);
      && (cm == 0 || 4 <= cm <= 391)
      && (cm != 0 <==> riseAfter <= TimeoutUs + 1 && MinEchoUs <= highFor <= MaxEchoUs)
      && (riseAfter <= TimeoutUs + 1 && highFor <= TimeoutUs + 1 ==> cm == EchoToCm(highFor))
      && (cm != 0 ==> cm * 1000 <= highFor * 17 < cm * 1000 + 1000)
  {
    NoWrapAfterTrigger(riseAfter, highFor);
  }

  /** Within the accepted window a longer echo never gives a shorter distance. */
  lemma EchoToCmMonotone(a: u32, b: u32)
    requires MinEchoUs <= a <= b <= MaxEchoUs
    ensures EchoToCm(a) <= EchoToCm(b)
  {
    DivMonotone(a * 17, b * 17, 1000);
  }
}
