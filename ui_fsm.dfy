/** The UI coordinator of ui_fsm.c: on a change of robot state it picks a facial
    expression, and every call it writes a status line and a distance/angle
    line to the character display. */
module Ui {
  import opened Ticks
  import opened Wrappers
  import opened RobotStates
  import opened Eyes
  import opened Decimal
  import CharLcd
  import St7735

  /** The expression a newly entered state selects; DECIDE selects none. */
  function ExpressionFor(s: RobotState): Option<Expression> {
    match s
    case Idle => Some(Sleepy)
    case Scan => Some(LookLeft)
    case Move => Some(Happy)
    case Alert => Some(Angry)
    case Reverse => Some(Sad)
    case Decide => None
  }

  /** The face after UI_Update's edge handling: only a state different from
      `prev` can change the expression. */
  function FaceAfter(prev: RobotState, state: RobotState, f: Face): Face {
    if state != prev && ExpressionFor(state).Some? then SetExpr(f, ExpressionFor(state).value) else f
  }

  /** Line 1 with start_flag == 1: the state, in a 14-column field. */
  function AutoLine(s: RobotState): string {
    match s
    case Idle => "AUTO : IDLE   "
    case Scan => "AUTO : SCAN   "
    case Decide => "AUTO : DECIDE "
    case Move => "AUTO : MOVE   "
    case Alert => "AUTO : ALERT  "
    case Reverse => "AUTO : REVERSE"
  }

  /** Line 1 in manual mode, chosen by manual_command. */
  function ManualLine(command: u8): string {
    if command == 1 then "Manual : MOVE "
    else if command == 2 then "Manual :REVERSE"
    else if command == 3 then "Manual : LEFT "
    else if command == 4 then "Manual : RIGHT"
    else if command == 5 then "Manual : RESET"
    else "Manual : STOP "
  }

  /** UI_Update's line 1: automatic mode first, then manual mode, else idle. */
  function Line1(s: RobotState, startFlag: u8, manualMode: u8, manualCommand: u8): string {
    if startFlag == 1 then AutoLine(s)
    else if manualMode == 1 then ManualLine(manualCommand)
    else "STATE: IDLE   "
  }

  /** The HD44780 ROM's degree sign. */
  const Degree: char := 'ß'

  /** UI_Update's line 2, `"D:%3dcm A:%3d%c"` with the degree sign. */
  function Line2(distance: u16, angle: u8): string {
    "D:" + Padded(distance, 3) + "cm A:" + Padded(angle, 3) + [Degree]
  }

  /** A character as a C `char`: its low eight bits. */
  function LowByte(c: char): bv8 {
    (c as int % 256) as bv8
  }

  /** A character the display can show is its own code, and never NUL. */
  lemma LowBytePrintable(c: char)
    requires 0 < c as int < 256
    ensures LowByte(c) == c as int as bv8 && LowByte(c) != 0
  {
  }

  /** A string as the bytes LCD_PUTS sends. */
  function Bytes(s: string): (b: seq<bv8>)
    ensures |b| == |s| && forall i :: 0 <= i < |s| ==> b[i] == LowByte(s[i])
  {
    seq(|s|, i requires 0 <= i < |s| => LowByte(s[i]))
  }

  predicate Printable(s: string) {
    forall i :: 0 <= i < |s| ==> 0 < s[i] as int < 256
  }

  /** What UI_Update writes to the character display: cursor to row 0, line 1,
      cursor to row 1, line 2. */
  function LcdBytes(line1: string, line2: string): seq<bv8> {
    CharLcd.XyBytes(0, 0) + CharLcd.PutsBytes(Bytes(line1))
    + CharLcd.XyBytes(0, 1) + CharLcd.PutsBytes(Bytes(line2))
  }

  /** Line 1 with start_flag == 1 is "AUTO : " and the name StateToStr prints,
      left-aligned in 7 columns. */
  lemma AutoLineNamesState(s: RobotState)
    ensures AutoLine(s) == "AUTO : " + StateToStr(s) + seq(7 - |StateToStr(s)|, _ => ' ')
  {
    match s
    case Idle => assert seq(3, _ => ' ') == "   ";
    case Scan => assert seq(3, _ => ' ') == "   ";
    case Decide => assert seq(1, _ => ' ') == " ";
    case Move => assert seq(3, _ => ' ') == "   ";
    case Alert => assert seq(2, _ => ' ') == "  ";
    case Reverse => assert seq(0, _ => ' ') == "";
  }

  /** Line 2 of any distance and any angle fits the 16-column display (and the
      17-byte buffer with its NUL), so snprintf never truncates it; for
      distances below 1000 it is exactly 14 characters. */
  lemma Line2Fits(distance: u16, angle: u8)
    ensures |Line2(distance, angle)| <= 16
    ensures distance < 1000 ==> |Line2(distance, angle)| == 14
  {
    var d, a := Padded(distance, 3), Padded(angle, 3);
    Padded3(angle);
    Padded3Short(distance);
    if distance < 1000 {
      Padded3(distance);
    }
    assert |Line2(distance, angle)| == 8 + |d| + |a|;
  }

  /** Every character of line 2 is a single byte other than NUL. */
  lemma Line2Printable(distance: u16, angle: u8)
    ensures Printable(Line2(distance, angle))
  {
    PaddedPrintable(distance, 3);
    PaddedPrintable(angle, 3);
    Line2Shape(Padded(distance, 3), Padded(angle, 3));
  }

  lemma Line2Shape(d: string, a: string)
    requires Printable(d) && Printable(a)
    ensures Printable("D:" + d + "cm A:" + a + [Degree])
  {
    PrintableConcat("D:", d);
    PrintableConcat("D:" + d, "cm A:");
    PrintableConcat("D:" + d + "cm A:", a);
    PrintableConcat("D:" + d + "cm A:" + a, [Degree]);
  }

  lemma PrintableConcat(a: string, b: string)
    requires Printable(a) && Printable(b)
    ensures Printable(a + b)
  {
    forall i | 0 <= i < |a + b|
      ensures 0 < (a + b)[i] as int < 256
    {
      if i >= |a| {
        assert (a + b)[i] == b[i - |a|];
      }
    }
  }

  lemma PaddedPrintable(n: nat, width: nat)
    ensures Printable(Padded(n, width))
  {
    var p := Padded(n, width);
    var d := Digits(n);
    forall i | 0 <= i < |p|
      ensures 0 < p[i] as int < 256
    {
      if i >= |p| - |d| {
        assert p[i] == p[|p| - |d|..][i - (|p| - |d|)];
      }
    }
  }

  /** Line 1 is always 14 or 15 printable characters. */
  lemma Line1Fits(s: RobotState, startFlag: u8, manualMode: u8, manualCommand: u8)
    ensures 14 <= |Line1(s, startFlag, manualMode, manualCommand)| <= 15
    ensures Printable(Line1(s, startFlag, manualMode, manualCommand))
  {
    AutoLineFits(s);
    ManualLineFits(manualCommand);
  }

  lemma AutoLineFits(s: RobotState)
    ensures |AutoLine(s)| == 14 && Printable(AutoLine(s))
  {
  }

  lemma ManualLineFits(command: u8)
    ensures 14 <= |ManualLine(command)| <= 15 && Printable(ManualLine(command))
  {
  }

  /** The controller receives exactly: set DDRAM address 0x80, line 1 as
      data, set DDRAM address 0xC0, line 2 as data. */
  lemma LcdShowsLines(line1: string, line2: string)
    requires Printable(line1) && Printable(line2)
    ensures var q := LcdBytes(line1, line2);
      |q| == 8 + 4 * |line1| + 4 * |line2| &&
      CharLcd.DecodeAll(q) == [(false, 0x80 as bv8)] + Data(line1) + [(false, 0xC0 as bv8)] + Data(line2)
  {
    var x0, p1, x1, p2 := CharLcd.XyBytes(0, 0), CharLcd.PutsBytes(Bytes(line1)),
      CharLcd.XyBytes(0, 1), CharLcd.PutsBytes(Bytes(line2));
    PutsData(line1);
    PutsData(line2);
    XyDecoded(0);
    XyDecoded(1);
    CharLcd.DecodeAllConcat(x0, p1, |line1|);
    CharLcd.DecodeAllConcat(x0 + p1, x1, 1);
    CharLcd.DecodeAllConcat(x0 + p1 + x1, p2, |line2|);
  }

  /** LCD_PUTS of a printable line delivers every character as data. */
  lemma PutsData(s: string)
    requires Printable(s)
    ensures |CharLcd.PutsBytes(Bytes(s))| == 4 * |s|
    ensures CharLcd.DecodeAll(CharLcd.PutsBytes(Bytes(s))) == Data(s)
  {
    NoNul(s);
    CharLcd.PutsRoundTrip(Bytes(s));
  }

  /** LCD_XY(0, row) for the two rows of a 16x2 display. */
  lemma XyDecoded(y: int)
    requires 0 <= y <= 1
    ensures |CharLcd.XyBytes(0, y)| == 4
    ensures CharLcd.DecodeAll(CharLcd.XyBytes(0, y)) == [(false, if y == 0 then 0x80 as bv8 else 0xC0)]
  {
    var x := CharLcd.XyBytes(0, y);
    CharLcd.XyCommand(0, y);
    assert x[..0] == [] && x[0..] == x;
  }

  /** The controller bytes of a line sent as data. */
  function Data(s: string): seq<(bool, bv8)>
    requires Printable(s)
  {
    seq(|s|, i requires 0 <= i < |s| => (true, s[i] as int as bv8))
  }

  /** A printable line reaches LCD_PUTS as its own character codes, with no
      NUL to stop it early. */
  lemma NoNul(s: string)
    requires Printable(s)
    ensures forall i :: 0 <= i < |s| ==> Bytes(s)[i] == s[i] as int as bv8
    ensures CharLcd.TextLength(Bytes(s)) == |s|
    ensures Bytes(s)[..|s|] == Bytes(s)
  {
    forall i | 0 <= i < |s|
      ensures Bytes(s)[i] != 0 && Bytes(s)[i] == s[i] as int as bv8
    {
      LowBytePrintable(s[i]);
    }
  }

  /** The `prev_state` of ui_fsm.c. */
  class Coordinator {
    var prevState: RobotState

    constructor ()
      ensures prevState == Idle
    {
      prevState := Idle;
    }

    /** UI_Init: clears the colour display to black, selects Sleepy and
        records the current state. */
    method Init(store: StateStore, eyes: Renderer, tft: St7735.Display)
      requires tft.Valid()
      modifies this, eyes, tft, tft.txBuf
      ensures tft.Valid()
      ensures tft.log == old(tft.log) + St7735.WindowEvents(0, 0, St7735.Width - 1, St7735.Height - 1)
                        + St7735.ColorEvents(0x0000, St7735.Width * St7735.Height)
      ensures eyes.Model() == SetExpr(old(eyes.Model()), Sleepy)
      ensures prevState == store.current
    {
      tft.Clear(0x0000);
      eyes.SetExpression(Sleepy);
      prevState := store.Get();
    }

    /** The state-change part of UI_Update. */
    method React(state: RobotState, eyes: Renderer)
      modifies this, eyes
      ensures prevState == state
      ensures eyes.Model() == FaceAfter(old(prevState), state, old(eyes.Model()))
    {
      if state != prevState {
        match state {
          case Idle => eyes.SetExpression(Sleepy);
          case Scan => eyes.SetExpression(LookLeft);
          case Move => eyes.SetExpression(Happy);
          case Alert => eyes.SetExpression(Angry);
          case Reverse => eyes.SetExpression(Sad);
          case Decide =>
        }
        prevState := state;
      }
    }

    /** UI_Update. The distance reading and the globals it reads from main.c
        are parameters. */
    method Update(store: StateStore, eyes: Renderer, lcd: CharLcd.I2cLcd, distance: u16,
                  startFlag: u8, manualMode: u8, manualCommand: u8, scanAngle: u8)
      modifies this, eyes, lcd
      ensures prevState == store.current
      ensures eyes.Model() == FaceAfter(old(prevState), store.current, old(eyes.Model()))
      ensures lcd.bus == old(lcd.bus) + LcdBytes(Line1(store.current, startFlag, manualMode, manualCommand),
                                                 Line2(distance, scanAngle))
    {
      var state := store.Get();
      React(state, eyes);
      var line1 := Line1(state, startFlag, manualMode, manualCommand);
      var line2 := Line2(distance, scanAngle);
      ShowLines(lcd, line1, line2);
    }
  }

  /** UI_Update's four display calls: each line at the start of its row. */
  method ShowLines(lcd: CharLcd.I2cLcd, line1: string, line2: string)
    modifies lcd
    ensures lcd.bus == old(lcd.bus) + LcdBytes(line1, line2)
  {
    ghost var start := lcd.bus;
    lcd.Xy(0, 0);
    lcd.Puts(Bytes(line1));
    lcd.Xy(0, 1);
    lcd.Puts(Bytes(line2));
    assert lcd.bus == start + CharLcd.XyBytes(0, 0) + CharLcd.PutsBytes(Bytes(line1))
                     + CharLcd.XyBytes(0, 1) + CharLcd.PutsBytes(Bytes(line2));
  }

  /** The expression changes only on an edge, to the state's expression, and
      DECIDE keeps whatever was shown. */
  lemma FaceOnEdges(prev: RobotState, state: RobotState, f: Face)
    ensures state == prev ==> FaceAfter(prev, state, f) == f
    ensures state != prev && state != Decide ==> FaceAfter(prev, state, f).current == ExpressionFor(state).value
    ensures state == Decide ==> FaceAfter(prev, state, f) == f
    ensures Shown(f) ==> Shown(FaceAfter(prev, state, f))
    ensures FaceAfter(prev, state, f).draws == f.draws
  {
  }
}
