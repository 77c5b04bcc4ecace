/** The periodic blink of anim.c: every BLINK_INTERVAL_MS the face is replaced
    by Blink for BLINK_DURATION_MS, then the expression saved at blink start is
    put back. */
module Anim {
  import opened Ticks
  import opened Eyes

  const BlinkIntervalMs: nat := 3000
  const BlinkDurationMs: nat := 150

  /** The file-static variables of anim.c. */
  datatype Blinker = Blinker(lastBlink: u32, blinking: bool, saved: Expression)

  /** Static initialisation of anim.c. */
  const Start: Blinker := Blinker(0, false, Neutral)

  /** Whether Blink_Update at `now` starts a blink. */
  predicate StartsBlink(b: Blinker, f: Face, now: u32) {
    !b.blinking && Elapsed(now, b.lastBlink) >= BlinkIntervalMs && f.current != Blink && f.current != Sleepy
  }

  /** Whether Blink_Update at `now` ends a blink. */
  predicate EndsBlink(b: Blinker, now: u32) {
    b.blinking && Elapsed(now, b.lastBlink) >= BlinkDurationMs
  }

  /** Blink_Update at `now`, acting on the blinker and the renderer. */
  function BlinkStep(b: Blinker, f: Face, now: u32): (r: (Blinker, Face))
    ensures StartsBlink(b, f, now) ==>
              r.0 == Blinker(now, true, f.current) && r.1 == Refreshed(SetExpr(f, Blink))
    ensures EndsBlink(b, now) ==>
              r.0 == Blinker(now, false, b.saved) && r.1 == Refreshed(SetExpr(f, b.saved))
    ensures !StartsBlink(b, f, now) && !EndsBlink(b, now) ==> r == (b, f)
  {
    if !b.blinking then
      if Elapsed(now, b.lastBlink) >= BlinkIntervalMs && f.current != Blink && f.current != Sleepy then
        (Blinker(now, true, f.current), Refreshed(SetExpr(f, Blink)))
      else (b, f)
    else
      if Elapsed(now, b.lastBlink) >= BlinkDurationMs then
        (Blinker(now, false, b.saved), Refreshed(SetExpr(f, b.saved)))
      else (b, f)
  }

  /** Anim_Update: Blink_Update followed by Eyes_Update. */
  function AnimStep(b: Blinker, f: Face, now: u32): (r: (Blinker, Face))
    ensures r.0 == BlinkStep(b, f, now).0 && r.1 == Refreshed(BlinkStep(b, f, now).1)
  {
    var (b1, f1) := BlinkStep(b, f, now);
    (b1, Refreshed(f1))
  }

  /** Anim_Init: Neutral expression, drawn, and the blink timer restarted. */
  function AnimInit(b: Blinker, f: Face, now: u32): (r: (Blinker, Face))
    ensures r.0 == b.(lastBlink := now)
    ensures r.1.current == Neutral && !r.1.dirty
    ensures Shown(f) ==> Shown(r.1)
  {
    (b.(lastBlink := now), Refreshed(SetExpr(f, Neutral)))
  }

  /** While not blinking and Sleepy, Blink_Update changes nothing: no blink
      starts and the blink timer does not advance. */
  lemma NoBlinkWhileSleepy(b: Blinker, f: Face, now: u32)
    requires !b.blinking && f.current == Sleepy
    ensures BlinkStep(b, f, now) == (b, f)
  {
  }

  /** The blink timer: Blink_Update changes the blinker only by starting or
      ending a blink, and each change restarts the timer at `now`. A blink
      starts only 3000 ms after the previous one ended (or after Anim_Init),
      and ends only 150 ms after it started. */
  lemma BlinkTimer(b: Blinker, f: Face, now: u32)
    ensures var b1 := BlinkStep(b, f, now).0;
      && (b1.blinking == b.blinking ==> b1 == b)
      && (b1.blinking != b.blinking ==> b1.lastBlink == now)
      && (!b.blinking && b1.blinking ==> Elapsed(now, b.lastBlink) >= BlinkIntervalMs)
      && (b.blinking && !b1.blinking ==> Elapsed(now, b.lastBlink) >= BlinkDurationMs)
  {
  }

  /** A blink that starts and then ends draws Blink and then the expression
      that was current at its start, and leaves that expression current. */
  lemma BlinkRestores(b: Blinker, f: Face, now: u32, later: u32)
    requires StartsBlink(b, f, now) && Elapsed(later, now) >= BlinkDurationMs
    ensures var (b1, f1) := BlinkStep(b, f, now);
      var (b2, f2) := BlinkStep(b1, f1, later);
      && f2.current == f.current && !f2.dirty
      && f2.draws == f.draws + [Blink, f.current]
      && b2 == Blinker(later, false, f.current)
  {
  }

  /** The end of a blink restores the snapshot taken at its start, even when
      the expression was changed to `e` while the eyes were closed. */
  lemma StaleRestore(b: Blinker, f: Face, e: Expression, now: u32)
    requires EndsBlink(b, now)
    ensures BlinkStep(b, SetExpr(f, e), now).1.current == b.saved
  {
  }

  /** The blink animator of anim.c as an object. */
  class Animator {
    var lastBlink: u32
    var blinking: bool
    var saved: Expression

    function Model(): Blinker
      reads this
    {
      Blinker(lastBlink, blinking, saved)
    }

    constructor ()
      ensures Model() == Start
    {
      lastBlink, blinking, saved := 0, false, Neutral;
    }

    /** Anim_Init, with HAL_GetTick() passed in as `now`. */
    method Init(eyes: Renderer, now: u32)
      modifies this, eyes
      ensures (Model(), eyes.Model()) == AnimInit(old(Model()), old(eyes.Model()), now)
    {
      eyes.SetExpression(Neutral);
      eyes.Update();
      lastBlink := now;
    }

    /** Anim_Set: only the lazy expression change. */
    method Set(eyes: Renderer, e: Expression)
      modifies eyes
      ensures eyes.Model() == SetExpr(old(eyes.Model()), e)
    {
      eyes.SetExpression(e);
    }

    /** Blink_Update, with HAL_GetTick() passed in as `now`. */
    method BlinkUpdate(eyes: Renderer, now: u32)
      modifies this, eyes
      ensures (Model(), eyes.Model()) == BlinkStep(old(Model()), old(eyes.Model()), now)
    {
      var current := eyes.GetExpression();
      if !blinking {
        if Elapsed(now, lastBlink) >= BlinkIntervalMs && current != Blink && current != Sleepy {
          saved := current;
          eyes.SetExpression(Blink);
          eyes.Update();
          blinking := true;
          lastBlink := now;
        }
      } else {
        if Elapsed(now, lastBlink) >= BlinkDurationMs {
          eyes.SetExpression(saved);
          eyes.Update();
          blinking := false;
          lastBlink := now;
        }
      }
    }

    /** Anim_Update. */
    method Update(eyes: Renderer, now: u32)
      modifies this, eyes
      ensures (Model(), eyes.Model()) == AnimStep(old(Model()), old(eyes.Model()), now)
    {
      BlinkUpdate(eyes, now);
      eyes.Update();
    }
  }
}
