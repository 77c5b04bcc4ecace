/** The 16x2 HD44780 character display of main.c, driven in 4-bit mode through
    a PCF8574 I2C backpack at address 0x27. Every byte for the controller is
    sent as two nibbles; each nibble goes out twice, with the enable line high
    and then low. Each I2C write carries one expander byte: bits 7..4 are the
    nibble, bit 3 the backlight, bit 2 EN and bit 0 RS. */
module CharLcd {

  /** ADDRESS: the 7-bit address 0x27 in the HAL's 8-bit form. */
  const Address: int := 0x27 * 2

  const Rs1En1: bv8 := 0x05
  const Rs1En0: bv8 := 0x01
  const Rs0En1: bv8 := 0x04
  const Rs0En0: bv8 := 0x00
  const BackLight: bv8 := 0x08

  /** The RS/EN bits for a register select and an enable level. */
  function Control(rs: bool, en: bool): bv8 {
    if rs then (if en then Rs1En1 else Rs1En0) else (if en then Rs0En1 else Rs0En0)
  }

  /** One nibble (already in bits 7..4) latched by an EN high-low pulse. */
  function Strobe(nibble: bv8, rs: bool): seq<bv8> {
    [nibble | Control(rs, true) | BackLight, nibble | Control(rs, false) | BackLight]
  }

  /** The four expander bytes of one controller byte: high nibble first.
      LCD_DATA is the `rs` case, LCD_CMD the other. */
  function Transfer(b: bv8, rs: bool): seq<bv8> {
    Strobe(b & 0xF0, rs) + Strobe((b << 4) & 0xF0, rs)
  }

  /** LCD_CMD_4bit: only the low nibble of `cmd`, as a command. */
  function Cmd4Bytes(cmd: bv8): seq<bv8> {
    Strobe((cmd << 4) & 0xF0, false)
  }

  /** The DDRAM address command LCD_XY sends for column `x` of row `y`;
      rows 0 to 3 start at 0x80, 0xC0, 0x94 and 0xD4, and the 8-bit sum wraps.
      Rows above 3 send nothing. */
  function XyBytes(x: bv8, y: int): seq<bv8> {
    if y == 0 then Transfer(0x80 + x, false)
    else if y == 1 then Transfer(0xC0 + x, false)
    else if y == 2 then Transfer(0x94 + x, false)
    else if y == 3 then Transfer(0xD4 + x, false)
    else []
  }

  /** The index of a C string's terminating NUL, or its length if none. */
  function TextLength(s: seq<bv8>): (n: nat)
    ensures n <= |s| && (forall k :: 0 <= k < n ==> s[k] != 0) && (n < |s| ==> s[n] == 0)
  {
    if |s| == 0 then 0 else if s[0] == 0 then 0 else 1 + TextLength(s[1..])
  }

  /** The data transfers of a run of characters, in order. */
  function Encoded(t: seq<bv8>): (q: seq<bv8>)
    ensures |q| == 4 * |t|
  {
    if |t| == 0 then [] else Encoded(t[..|t| - 1]) + Transfer(t[|t| - 1], true)
  }

  /** LCD_PUTS: every character before the NUL, as data. */
  function PutsBytes(s: seq<bv8>): seq<bv8> {
    Encoded(s[..TextLength(s)])
  }

  /** What the controller receives from four expander bytes: the register
      (RS of the first byte) and the byte rebuilt from the two nibbles. */
  function Decode(q: seq<bv8>): (bool, bv8)
    requires |q| == 4
  {
    (q[0] & 0x01 == 0x01, (q[0] & 0xF0) | (q[2] >> 4))
  }

  /** Splits a stream of expander bytes into controller bytes. */
  function DecodeAll(q: seq<bv8>): seq<(bool, bv8)> {
    if |q| < 4 then [] else DecodeAll(q[..|q| - 4]) + [Decode(q[|q| - 4..])]
  }

  /** Decoding works piecewise when the second part is `k` whole transfers. */
  lemma {:induction false} DecodeAllConcat(a: seq<bv8>, b: seq<bv8>, k: nat)
    requires |b| == 4 * k
    ensures DecodeAll(a + b) == DecodeAll(a) + DecodeAll(b)
    decreases k
  {
    if k == 0 {
      assert a + b == a;
    } else {
      var ab := a + b;
      assert ab[..|ab| - 4] == a + b[..|b| - 4];
      assert ab[|ab| - 4..] == b[|b| - 4..];
      DecodeAllConcat(a, b[..|b| - 4], k - 1);
    }
  }

  /** A controller byte goes out as the high nibble twice (EN high, then low)
      and the low nibble twice (EN high, then low), always with the backlight
      on and RS as requested; the controller rebuilds exactly the byte. */
  lemma TransferShape(b: bv8, rs: bool)
    ensures var q := Transfer(b, rs);
      && |q| == 4
      && (forall i :: 0 <= i < 4 ==> q[i] & BackLight == BackLight)
      && (forall i :: 0 <= i < 4 ==> (q[i] & 0x01 == 0x01) == rs)
      && q[0] & 0x04 == 0x04 && q[1] & 0x04 == 0 && q[2] & 0x04 == 0x04 && q[3] & 0x04 == 0
      && q[0] & 0xF0 == b & 0xF0 && q[1] & 0xF0 == b & 0xF0
      && q[2] & 0xF0 == (b << 4) & 0xF0 && q[3] & 0xF0 == (b << 4) & 0xF0
      && Decode(q) == (rs, b)
  {
  }

  lemma TransferDecodes(b: bv8, rs: bool)
    ensures |Transfer(b, rs)| == 4 && Decode(Transfer(b, rs)) == (rs, b)
  {
    TransferShape(b, rs);
  }

  /** One more transfer decodes to one more controller byte. */
  lemma DecodeAllSnoc(p: seq<bv8>, x: seq<bv8>)
    requires |x| == 4
    ensures DecodeAll(p + x) == DecodeAll(p) + [Decode(x)]
  {
    DecodeAllConcat(p, x, 1);
    assert x[..0] == [] && x[0..] == x;
  }

  lemma {:induction false} DecodeEncoded(t: seq<bv8>)
    ensures var d := DecodeAll(Encoded(t));
      |d| == |t| && forall i :: 0 <= i < |t| ==> d[i] == (true, t[i])
    decreases |t|
  {
    if |t| > 0 {
      var n := |t| - 1;
      TransferDecodes(t[n], true);
      DecodeAllSnoc(Encoded(t[..n]), Transfer(t[n], true));
      DecodeEncoded(t[..n]);
      assert t == t[..n] + [t[n]];
      ExtendDecoded(t[..n], t[n], DecodeAll(Encoded(t[..n])), DecodeAll(Encoded(t)));
    }
  }

  lemma ExtendDecoded(u: seq<bv8>, b: bv8, d0: seq<(bool, bv8)>, d: seq<(bool, bv8)>)
    requires |d0| == |u| && (forall i :: 0 <= i < |u| ==> d0[i] == (true, u[i]))
    requires d == d0 + [(true, b)]
    ensures var t := u + [b];
      |d| == |t| && forall i :: 0 <= i < |t| ==> d[i] == (true, t[i])
  {
  }

  /** The controller receives LCD_PUTS's string, up to the NUL, as data
      bytes, one per character and in order. */
  lemma PutsRoundTrip(s: seq<bv8>)
    ensures |PutsBytes(s)| == 4 * TextLength(s)
    ensures var d := DecodeAll(PutsBytes(s));
      |d| == TextLength(s) && forall i :: 0 <= i < |d| ==> d[i] == (true, s[i])
  {
    DecodeEncoded(s[..TextLength(s)]);
  }

  /** LCD_XY positions the cursor with a single command byte. */
  lemma XyCommand(x: bv8, y: int)
    requires 0 <= y <= 3
    ensures |XyBytes(x, y)| == 4
    ensures Decode(XyBytes(x, y)) ==
              (false, (if y == 0 then 0x80 else if y == 1 then 0xC0 else if y == 2 then 0x94 else 0xD4) + x)
  {
    TransferShape(0x80 + x, false);
    TransferShape(0xC0 + x, false);
    TransferShape(0x94 + x, false);
    TransferShape(0xD4 + x, false);
  }

  /** The expander bytes written to the I2C bus, in order. Each write is
      assumed to succeed the first time. */
  class I2cLcd {
    var bus: seq<bv8>

    constructor ()
      ensures bus == []
    {
      bus := [];
    }

    /** One HAL_I2C_Master_Transmit of one byte. */
    method Send(b: bv8)
      modifies this
      ensures bus == old(bus) + [b]
    {
      bus := bus + [b];
    }

    /** The body shared by LCD_DATA and LCD_CMD. */
    method Write(b: bv8, rs: bool)
      modifies this
      ensures bus == old(bus) + Transfer(b, rs)
    {
      Send((b & 0xF0) | Control(rs, true) | BackLight);
      Send((b & 0xF0) | Control(rs, false) | BackLight);
      assert bus == old(bus) + Strobe(b & 0xF0, rs);
      Send(((b << 4) & 0xF0) | Control(rs, true) | BackLight);
      Send(((b << 4) & 0xF0) | Control(rs, false) | BackLight);
    }

    /** LCD_DATA. */
    method Data(d: bv8)
      modifies this
      ensures bus == old(bus) + Transfer(d, true)
    {
      Write(d, true);
    }

    /** LCD_CMD. */
    method Cmd(c: bv8)
      modifies this
      ensures bus == old(bus) + Transfer(c, false)
    {
      Write(c, false);
    }

    /** LCD_CMD_4bit. */
    method Cmd4bit(c: bv8)
      modifies this
      ensures bus == old(bus) + Cmd4Bytes(c)
    {
      Send(((c << 4) & 0xF0) | Rs0En1 | BackLight);
      Send(((c << 4) & 0xF0) | Rs0En0 | BackLight);
    }

    /** LCD_XY. */
    method Xy(x: bv8, y: int)
      modifies this
      ensures bus == old(bus) + XyBytes(x, y)
    {
      if y == 0 {
        Cmd(0x80 + x);
      } else if y == 1 {
        Cmd(0xC0 + x);
      } else if y == 2 {
        Cmd(0x94 + x);
      } else if y == 3 {
        Cmd(0xD4 + x);
      }
    }

    /** LCD_PUTS: sends characters until the NUL (or the end of `s`). */
    method Puts(s: seq<bv8>)
      modifies this
      ensures bus == old(bus) + PutsBytes(s)
    {
      var i := 0;
      while i < |s| && s[i] != 0
        invariant 0 <= i <= |s| && forall k :: 0 <= k < i ==> s[k] != 0
        invariant bus == old(bus) + Encoded(s[..i])
      {
        Data(s[i]);
        assert s[..i + 1][..i] == s[..i];
        i := i + 1;
      }
      assert i == TextLength(s);
    }
  }
}
