/** The non-blocking tone sequencer of buzzer.c: a phase machine over a melody
    table, driven only by the millisecond tick. Phase 0 is idle, phase 1 sounds
    the current note for its on-time, phase 2 keeps silent for its off-time. */
module Tones {
  import opened Ticks
  import opened Wrappers

  /** BuzzerNote_t: on-time and off-time in milliseconds. */
  datatype Note = Note(onMs: u16, offMs: u16)

  /** mario_short, 29 entries (MARIO_LENGTH). */
  const MarioShort: seq<Note> := [
    Note(150, 100), Note(150, 100), Note(150, 100), Note(0, 50), Note(100, 100),
    Note(150, 100), Note(0, 50), Note(50, 200), Note(0, 100), Note(0, 100),
    Note(42, 100), Note(0, 50), Note(42, 100), Note(0, 50), Note(42, 100),
    Note(0, 50), Note(42, 100), Note(0, 50), Note(47, 100), Note(0, 50),
    Note(50, 100), Note(0, 50), Note(47, 100), Note(0, 50), Note(45, 100),
    Note(0, 50), Note(42, 150), Note(0, 100),
    Note(0, 0)
  ]

  /** melody_alert, 4 entries (ALERT_LENGTH). */
  const MelodyAlert: seq<Note> := [Note(150, 100), Note(0, 100), Note(150, 100), Note(0, 0)]

  /** The five file-static variables of buzzer.c plus the level of the buzzer
      pin. `melody` is `None` where the C pointer is NULL. */
  datatype Player = Player(melody: Option<seq<Note>>, length: u8, index: u8, phase: u8, tick: u32, pinOn: bool)

  /** Static initialisation of buzzer.c, with the pin low. */
  const Silent: Player := Player(None, 0, 0, 0, 0, false)

  /** The first index j >= from at which playback stops: j reaches `len`, or the
      note at j has a zero on-time. */
  function StopIndexFrom(m: seq<Note>, len: nat, from: nat): (k: nat)
    requires len <= |m|
    ensures from <= len ==> from <= k <= len
    ensures from > len ==> k == from
    ensures forall i :: from <= i < k ==> m[i].onMs != 0
    ensures k < len ==> m[k].onMs == 0
    decreases len - from
  {
    if from >= len then from
    else if m[from].onMs == 0 then from
    else StopIndexFrom(m, len, from + 1)
  }

  /** Number of notes a melody of `len` entries actually sounds when played:
      note 0 always starts; every later note sounds until the first index that
      is past the end or has a zero on-time. */
  function PlayLimit(m: seq<Note>, len: nat): (k: nat)
    requires len <= |m|
    ensures len == 0 ==> k == 0
    ensures len > 0 ==> 1 <= k <= len
    ensures forall i :: 1 <= i < k ==> m[i].onMs != 0
    ensures k < len ==> m[k].onMs == 0
  {
    if len == 0 then 0 else StopIndexFrom(m, len, 1)
  }

  /** The invariant buzzer.c keeps: the pin is high exactly in phase 1, and
      while a melody is active its index designates a note that sounds. */
  predicate Inv(p: Player) {
    && p.phase <= 2
    && (p.melody.Some? ==> p.length <= |p.melody.value|)
    && (p.pinOn <==> p.phase == 1)
    && (p.phase != 0 ==> p.melody.Some? && p.index < PlayLimit(p.melody.value, p.length))
  }

  /** Buzzer_IsPlaying. */
  predicate IsPlaying(p: Player) {
    p.phase != 0
  }

  /** Buzzer_PlayMelody: a NULL melody or a zero length is ignored; otherwise
      playback restarts unconditionally at note 0 with the pin high. */
  function Play(p: Player, melody: Option<seq<Note>>, length: u8, now: u32): (q: Player)
    requires melody.Some? ==> length <= |melody.value|
    ensures melody.None? || length == 0 ==> q == p
    ensures melody.Some? && length > 0 ==>
              q.melody == melody && q.length == length && q.index == 0 && q.phase == 1 && q.tick == now && q.pinOn
    ensures Inv(p) ==> Inv(q)
    ensures melody.Some? && length > 0 ==> IsPlaying(q)
  {
    if melody.None? || length == 0 then p
    else Player(melody, length, 0, 1, now, true)
  }

  /** Buzzer_Stop: pin low, NULL melody, zero length, index and phase; the
      phase tick is left as it was. */
  function Stopped(p: Player): (q: Player)
    ensures Inv(q) && !IsPlaying(q) && !q.pinOn
    ensures q.melody.None? && q.length == 0 && q.index == 0 && q.tick == p.tick
  {
    Player(None, 0, 0, 0, p.tick, false)
  }

  /** Buzzer_Update at tick `now`. */
  function Updated(p: Player, now: u32): (q: Player)
    requires Inv(p)
    ensures Inv(q)
  {
    if p.phase == 0 || p.melody.None? then p
    else
      var m := p.melody.value;
      var elapsed := Elapsed(now, p.tick);
      if p.phase == 1 then
        if elapsed >= m[p.index].onMs then p.(pinOn := false, phase := 2, tick := now)
        else p
      else
        if elapsed >= m[p.index].offMs then
          var next := p.index + 1;
          if next >= p.length || m[next].onMs == 0 then Stopped(p)
          else p.(pinOn := true, phase := 1, tick := now, index := next)
        else p
  }

  /** Buzzer_Update does nothing while idle. */
  lemma UpdateIdle(p: Player, now: u32)
    requires Inv(p) && !IsPlaying(p)
    ensures Updated(p, now) == p
  {
  }

  /** Phase 1 never changes the melody, its length or the index. The note
      keeps sounding, with nothing changed, until its on-time has elapsed.
      From then on the pin is low, the player rests in phase 2 and the rest is
      timed from `now`. */
  lemma UpdateSounding(p: Player, now: u32)
    requires Inv(p) && p.phase == 1
    ensures var q := Updated(p, now);
      && q.melody == p.melody && q.length == p.length && q.index == p.index
      && (q.phase == 2 <==> Elapsed(now, p.tick) >= p.melody.value[p.index].onMs)
      && (q.phase == 1 ==> q == p)
      && (q.phase == 2 ==> !q.pinOn && q.tick == now)
      && IsPlaying(q)
  {
  }

  /** Phase 2 never goes back to an earlier note and never skips one. Nothing
      changes until the note's off-time has elapsed. Then playback either
      stops, exactly when the next entry is past the length or has a zero
      on-time, or sounds the next entry of the same melody from `now`. */
  lemma UpdateResting(p: Player, now: u32)
    requires Inv(p) && p.phase == 2
    ensures var q := Updated(p, now);
      var m := p.melody.value;
      var stops := p.index as int + 1 >= p.length as int || m[p.index + 1].onMs == 0;
      && (Elapsed(now, p.tick) < m[p.index].offMs ==> q == p)
      && (Elapsed(now, p.tick) >= m[p.index].offMs ==>
            && (!IsPlaying(q) <==> stops)
            && (!IsPlaying(q) ==> q == Stopped(p))
            && (IsPlaying(q) ==>
                  q.melody == p.melody && q.length == p.length && q.index as int == p.index as int + 1
                  && q.phase == 1 && q.pinOn && q.tick == now))
  {
  }

  /** Only the first three entries of mario_short sound: entry 3 has a zero
      on-time. */
  lemma MarioPlaysThree()
    ensures PlayLimit(MarioShort, 29) == 3
  {
    assert MarioShort[1].onMs != 0 && MarioShort[2].onMs != 0 && MarioShort[3].onMs == 0;
    assert StopIndexFrom(MarioShort, 29, 3) == 3;
    assert StopIndexFrom(MarioShort, 29, 2) == 3;
  }

  /** Only the first entry of melody_alert sounds: entry 1 has a zero on-time. */
  lemma AlertPlaysOne()
    ensures PlayLimit(MelodyAlert, 4) == 1
  {
    assert MelodyAlert[1].onMs == 0;
  }

  /** While mario_short plays, the index never passes 2; while melody_alert
      plays it stays at 0. */
  lemma PlayingIndexBound(p: Player)
    requires Inv(p) && IsPlaying(p)
    ensures p.melody == Some(MarioShort) && p.length == 29 ==> p.index < 3
    ensures p.melody == Some(MelodyAlert) && p.length == 4 ==> p.index == 0
  {
    MarioPlaysThree();
    AlertPlaysOne();
  }

  /** The end of the rest after mario_short's third note ends playback: the
      sequencer goes idle with the pin low. */
  lemma MarioThirdRestStops(p: Player, now: u32)
    requires Inv(p) && p.melody == Some(MarioShort) && p.length == 29 && p.phase == 2 && p.index == 2
    requires Elapsed(now, p.tick) >= MarioShort[2].offMs
    ensures Updated(p, now) == Stopped(p)
  {
  }

  /** The sequencer state of buzzer.c as an object, with the buzzer pin. */
  class Buzzer {
    var melody: Option<seq<Note>>
    var length: u8
    var index: u8
    var phase: u8
    var tick: u32
    var pinOn: bool

    function Model(): Player
      reads this
    {
      Player(melody, length, index, phase, tick, pinOn)
    }

    constructor ()
      ensures Model() == Silent
    {
      melody, length, index, phase, tick, pinOn := None, 0, 0, 0, 0, false;
    }

    /** Buzzer_On. */
    method On()
      modifies this
      ensures Model() == old(Model()).(pinOn := true)
    {
      pinOn := true;
    }

    /** Buzzer_Off. */
    method Off()
      modifies this
      ensures Model() == old(Model()).(pinOn := false)
    {
      pinOn := false;
    }

    /** Buzzer_PlayMelody, with HAL_GetTick() passed in as `now`. */
    method PlayMelody(m: Option<seq<Note>>, len: u8, now: u32)
      requires m.Some? ==> len <= |m.value|
      modifies this
      ensures Model() == Play(old(Model()), m, len, now)
    {
      if m.None? || len == 0 {
        return;
      }
      melody := m;
      length := len;
      index := 0;
      phase := 1;
      tick := now;
      On();
    }

    /** Buzzer_PlayAlert. */
    method PlayAlert(now: u32)
      modifies this
      ensures Model() == Play(old(Model()), Some(MelodyAlert), 4, now)
    {
      PlayMelody(Some(MelodyAlert), 4, now);
    }

    /** Buzzer_PlayMario. */
    method PlayMario(now: u32)
      modifies this
      ensures Model() == Play(old(Model()), Some(MarioShort), 29, now)
    {
      PlayMelody(Some(MarioShort), 29, now);
    }

    /** Buzzer_Stop. */
    method Stop()
      modifies this
      ensures Model() == Stopped(old(Model()))
    {
      Off();
      melody := None;
      length := 0;
      index := 0;
      phase := 0;
    }

    /** Buzzer_IsPlaying: true exactly when the phase is not 0. */
    method IsPlaying() returns (playing: bool)
      ensures playing <==> phase != 0
    {
      playing := phase != 0;
    }

    /** Buzzer_Update, with HAL_GetTick() passed in as `now`. */
    method Update(now: u32)
      requires Inv(Model())
      modifies this
      ensures Model() == Updated(old(Model()), now)
    {
      if phase == 0 || melody.None? {
        return;
      }
      var m := melody.value;
      var elapsed := Elapsed(now, tick);
      if phase == 1 {
        if elapsed >= m[index].onMs {
          Off();
          phase := 2;
          tick := now;
        }
      } else if phase == 2 {
        if elapsed >= m[index].offMs {
          index := index + 1;
          if index >= length || m[index].onMs == 0 {
            Stop();
          } else {
            On();
            phase := 1;
            tick := now;
          }
        }
      }
    }
  }
}
