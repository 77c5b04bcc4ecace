/** The ST7735 colour display of lcd_st7735.c, seen as the sequence of events
    on its SPI link: chip-select and data/command edges and transmitted byte
    blocks. Pixels are RGB565 words sent high byte first through a 128-byte
    static transmit buffer. */
module St7735 {
  import opened Ticks
  import opened Wrappers

  const Width: nat := 160
  const Height: nat := 80
  /** TX_BUF_SIZE, and the 64 pixels it holds. */
  const TxBufSize: nat := 128
  const PixelsPerBuf: nat := 64
  const YOffset: nat := 26

  const Caset: u8 := 0x2A
  const Raset: u8 := 0x2B
  const Ramwr: u8 := 0x2C

  /** One action on the SPI link; `Tx` is one HAL_SPI_Transmit call. */
  datatype SpiEvent = CsLow | CsHigh | DcLow | DcHigh | Tx(bytes: seq<u8>)

  /** An RGB565 word on the wire: `color >> 8`, then `color & 0xFF`. */
  function Pixel(color: u16): (b: seq<u8>)
    ensures |b| == 2 && b[0] as int * 256 + b[1] as int == color
  {
    [color / 256, color % 256]
  }

  /** The bytes of a run of pixels, in order. */
  function PixelBytes(s: seq<u16>): (b: seq<u8>)
    ensures |b| == 2 * |s|
  {
    if |s| == 0 then [] else PixelBytes(s[..|s| - 1]) + Pixel(s[|s| - 1])
  }

  /** `n` pixels of one colour. */
  function Repeat(color: u16, n: nat): (s: seq<u16>)
    ensures |s| == n && forall i :: 0 <= i < n ==> s[i] == color
  {
    seq(n, _ => color)
  }

  /** The bytes that all Tx events of a log carry, in order. */
  function Payload(e: seq<SpiEvent>): seq<u8> {
    if |e| == 0 then []
    else Payload(e[..|e| - 1]) + (if e[|e| - 1].Tx? then e[|e| - 1].bytes else [])
  }

  /** LCD_Cmd: a one-byte command with DC low, inside its own CS frame. */
  function CmdEvents(cmd: u8): seq<SpiEvent> {
    [DcLow, CsLow, Tx([cmd]), CsHigh]
  }

  /** A parameter block with DC high, inside its own CS frame. */
  function DataEvents(bytes: seq<u8>): seq<SpiEvent> {
    [DcHigh, CsLow, Tx(bytes), CsHigh]
  }

  /** LCD_SetWindow: CASET with the columns, RASET with the rows shifted by
      Y_OFFSET, both truncated to 8 bits, then RAMWR. */
  function WindowEvents(x0: u16, y0: u16, x1: u16, y1: u16): seq<SpiEvent> {
    CmdEvents(Caset) + DataEvents([0, x0 % 256, 0, x1 % 256])
    + CmdEvents(Raset) + DataEvents([0, (y0 + YOffset) % 256, 0, (y1 + YOffset) % 256])
    + CmdEvents(Ramwr)
  }

  /** `k` transmissions of the full 128-byte buffer of one colour. */
  function FullChunks(color: u16, k: nat): (e: seq<SpiEvent>)
    ensures |e| == k
    ensures forall i :: 0 <= i < k ==> e[i] == Tx(PixelBytes(Repeat(color, PixelsPerBuf)))
  {
    if k == 0 then [] else FullChunks(color, k - 1) + [Tx(PixelBytes(Repeat(color, PixelsPerBuf)))]
  }

  /** The transmissions of LCD_WriteColorFast: count / 64 full buffers, then
      the rest of the buffer's prefix if any pixels remain. */
  function ColorChunks(color: u16, count: nat): seq<SpiEvent> {
    FullChunks(color, count / PixelsPerBuf)
    + (if count % PixelsPerBuf > 0 then [Tx(PixelBytes(Repeat(color, count % PixelsPerBuf)))] else [])
  }

  /** LCD_WriteColorFast's events: one CS frame around all the chunks. */
  function ColorEvents(color: u16, count: nat): seq<SpiEvent> {
    [DcHigh, CsLow] + ColorChunks(color, count) + [CsHigh]
  }

  /** The transmissions of LCD_WriteBuffer: the pixels in chunks of at most 64,
      taken from the front. */
  function BufferChunks(s: seq<u16>): seq<SpiEvent>
    decreases |s|
  {
    if |s| == 0 then []
    else if |s| <= PixelsPerBuf then [Tx(PixelBytes(s))]
    else [Tx(PixelBytes(s[..PixelsPerBuf]))] + BufferChunks(s[PixelsPerBuf..])
  }

  /** LCD_WriteBuffer's events: one CS frame around all the chunks. */
  function BufferEvents(s: seq<u16>): seq<SpiEvent> {
    [DcHigh, CsLow] + BufferChunks(s) + [CsHigh]
  }

  /** Walks a log from the chip-select level `selected`: `None` if a byte is
      sent while CS is high, or CS is lowered twice or raised twice. */
  function Walk(e: seq<SpiEvent>, selected: bool): Option<bool>
    decreases |e|
  {
    if |e| == 0 then Some(selected)
    else match e[0]
      case CsLow => if selected then None else Walk(e[1..], true)
      case CsHigh => if !selected then None else Walk(e[1..], false)
      case Tx(_) => if !selected then None else Walk(e[1..], selected)
      case _ => Walk(e[1..], selected)
  }

  /** Every transmission happens between a CS low and the following CS high,
      and the log ends with CS released. */
  predicate Framed(e: seq<SpiEvent>) {
    Walk(e, false) == Some(false)
  }

  predicate AllTx(e: seq<SpiEvent>) {
    forall i :: 0 <= i < |e| ==> e[i].Tx?
  }

  /** The display's SPI log and the driver's static transmit buffer. */
  class Display {
    var log: seq<SpiEvent>
    const txBuf: array<u8>

    predicate Valid()
      reads this
    {
      txBuf.Length == TxBufSize && Framed(log)
    }

    constructor ()
      ensures Valid() && log == [] && fresh(txBuf)
    {
      log := [];
      txBuf := new u8[TxBufSize];
    }

    /** LCD_Cmd. */
    method Cmd(cmd: u8)
      modifies this
      ensures log == old(log) + CmdEvents(cmd)
    {
      log := log + [DcLow];
      log := log + [CsLow];
      log := log + [Tx([cmd])];
      log := log + [CsHigh];
    }

    /** A CS frame of parameter bytes, as LCD_SetWindow sends them. */
    method Data(bytes: seq<u8>)
      modifies this
      ensures log == old(log) + DataEvents(bytes)
    {
      log := log + [DcHigh];
      log := log + [CsLow];
      log := log + [Tx(bytes)];
      log := log + [CsHigh];
    }

    /** LCD_SetWindow: frames the rectangle (x0, y0)-(x1, y1). */
    method SetWindow(x0: u16, y0: u16, x1: u16, y1: u16)
      requires Valid()
      modifies this
      ensures Valid()
      ensures log == old(log) + WindowEvents(x0, y0, x1, y1)
    {
      Cmd(Caset);
      Data([0, x0 % 256, 0, x1 % 256]);
      Cmd(Raset);
      Data([0, (y0 + YOffset) % 256, 0, (y1 + YOffset) % 256]);
      Cmd(Ramwr);
      assert log == old(log) + WindowEvents(x0, y0, x1, y1);
      WindowFramed(x0, y0, x1, y1);
      FramedConcat(old(log), WindowEvents(x0, y0, x1, y1));
    }

    /** The first loop of LCD_WriteColorFast: the colour, high byte first, in
        every pixel slot of the transmit buffer. */
    method Fill(color: u16)
      requires txBuf.Length == TxBufSize
      modifies txBuf
      ensures txBuf[..] == PixelBytes(Repeat(color, PixelsPerBuf))
    {
      var hi, lo := color / 256, color % 256;
      var i := 0;
      while i < TxBufSize
        invariant 0 <= i <= TxBufSize && i % 2 == 0
        invariant txBuf[..i] == PixelBytes(Repeat(color, i / 2))
      {
        txBuf[i] := hi;
        txBuf[i + 1] := lo;
        assert Repeat(color, i / 2 + 1)[..i / 2] == Repeat(color, i / 2);
        assert txBuf[..i + 2] == txBuf[..i] + Pixel(color);
        i := i + 2;
      }
    }

    /** LCD_WriteColorFast: fills the buffer with the colour, then sends it as
      often as it fits in `count` pixels and a prefix for the remainder. */
    method WriteColorFast(color: u16, count: u32)
      requires Valid()
      modifies this, txBuf
      ensures Valid()
      ensures log == old(log) + ColorEvents(color, count)
    {
      Fill(color);
      log := log + [DcHigh];
      log := log + [CsLow];
      var start := log;
      var left: nat := count;
      ghost var sent: nat := 0;
      while left >= PixelsPerBuf
        modifies this
        invariant txBuf[..] == PixelBytes(Repeat(color, PixelsPerBuf))
        invariant left <= count && count == PixelsPerBuf * sent + left
        invariant log == start + FullChunks(color, sent)
      {
        assert start + FullChunks(color, sent + 1) == log + [Tx(txBuf[..])];
        log := log + [Tx(txBuf[..])];
        left := left - PixelsPerBuf;
        sent := sent + 1;
      }
      assert count / PixelsPerBuf == sent && count % PixelsPerBuf == left;
      ghost var head := old(log) + [DcHigh, CsLow];
      assert start == head;
      if left > 0 {
        PixelBytesPrefix(Repeat(color, PixelsPerBuf), left);
        assert Repeat(color, PixelsPerBuf)[..left] == Repeat(color, left);
        log := log + [Tx(txBuf[..left * 2])];
      }
      assert log == head + ColorChunks(color, count);
      log := log + [CsHigh];
      AppendFramed(old(log), ColorChunks(color, count));
      ColorEventsFramed(color, count);
      FramedConcat(old(log), ColorEvents(color, count));
    }

    /** One pass of LCD_WriteBuffer's loop: the chunk copied, then sent. */
    method SendChunk(buf: array<u16>, off: nat, chunk: nat)
      requires txBuf.Length == TxBufSize && chunk <= PixelsPerBuf && off + chunk <= buf.Length
      modifies this, txBuf
      ensures log == old(log) + [Tx(PixelBytes(buf[off..off + chunk]))]
    {
      LoadChunk(buf, off, chunk);
      log := log + [Tx(txBuf[..chunk * 2])];
    }

    /** The byte-swapping copy of LCD_WriteBuffer: buf[off .. off + chunk) into
      the first 2 * chunk bytes of the transmit buffer. */
    method LoadChunk(buf: array<u16>, off: nat, chunk: nat)
      requires txBuf.Length == TxBufSize && chunk <= PixelsPerBuf && off + chunk <= buf.Length
      modifies txBuf
      ensures txBuf[..2 * chunk] == PixelBytes(buf[off..off + chunk])
    {
      var i := 0;
      while i < chunk
        invariant 0 <= i <= chunk
        invariant txBuf[..2 * i] == PixelBytes(buf[off..off + i])
      {
        txBuf[i * 2] := buf[off + i] / 256;
        txBuf[i * 2 + 1] := buf[off + i] % 256;
        assert buf[off..off + i + 1][..i] == buf[off..off + i];
        assert txBuf[..2 * i + 2] == txBuf[..2 * i] + Pixel(buf[off + i]);
        i := i + 1;
      }
    }

    /** LCD_WriteBuffer: sends buf[0 .. count) converted to bytes, at most 64
      pixels per transmission. */
    method WriteBuffer(buf: array<u16>, count: u32)
      requires Valid() && count <= buf.Length
      modifies this, txBuf
      ensures Valid()
      ensures log == old(log) + BufferEvents(buf[..count])
    {
      log := log + [DcHigh];
      log := log + [CsLow];
      assert log == old(log) + [DcHigh, CsLow];
      SendPixels(buf, count);
      log := log + [CsHigh];
      AppendFramed(old(log), BufferChunks(buf[..count]));
      BufferEventsFramed(buf[..count]);
      FramedConcat(old(log), BufferEvents(buf[..count]));
    }

    /** The loop of LCD_WriteBuffer: the first `count` pixels, at most 64 at
        a time. */
    method SendPixels(buf: array<u16>, count: u32)
      requires txBuf.Length == TxBufSize && count <= buf.Length
      modifies this, txBuf
      ensures log == old(log) + BufferChunks(buf[..count])
    {
      ghost var s := buf[..count];
      var off := 0;
      while off < count
        invariant 0 <= off <= count && txBuf.Length == TxBufSize && buf[..count] == s
        invariant log + BufferChunks(s[off..]) == old(log) + BufferChunks(s)
      {
        var chunk := if count - off > PixelsPerBuf then PixelsPerBuf else count - off;
        var before := log;
        SendChunk(buf, off, chunk);
        assert buf[off..off + chunk] == s[off..off + chunk];
        BufferChunksAt(s, off, chunk);
        assert log + BufferChunks(s[off + chunk..]) == before + BufferChunks(s[off..]);
        off := off + chunk;
      }
      assert s[off..] == [];
    }

    /** LCD_Clear: frames the full panel and streams 160 x 80 pixels. */
    method Clear(color: u16)
      requires Valid()
      modifies this, txBuf
      ensures Valid()
      ensures log == old(log) + WindowEvents(0, 0, Width - 1, Height - 1) + ColorEvents(color, Width * Height)
    {
      SetWindow(0, 0, Width - 1, Height - 1);
      WriteColorFast(color, Width * Height);
    }
  }

  /** One step of BufferChunks: the first chunk is min(64, |s|) pixels. */
  lemma BufferChunksStep(s: seq<u16>, chunk: nat)
    requires |s| > 0 && chunk == (if |s| > PixelsPerBuf then PixelsPerBuf else |s|)
    ensures BufferChunks(s) == [Tx(PixelBytes(s[..chunk]))] + BufferChunks(s[chunk..])
  {
    if |s| <= PixelsPerBuf {
      assert s[..chunk] == s && s[chunk..] == [];
    }
  }

  /** The chunk LCD_WriteBuffer sends at pixel offset `off`. */
  lemma BufferChunksAt(s: seq<u16>, off: nat, chunk: nat)
    requires off < |s| && chunk == (if |s| - off > PixelsPerBuf then PixelsPerBuf else |s| - off)
    ensures BufferChunks(s[off..]) == [Tx(PixelBytes(s[off..off + chunk]))] + BufferChunks(s[off + chunk..])
  {
    BufferChunksStep(s[off..], chunk);
    assert s[off..][..chunk] == s[off..off + chunk];
    assert s[off..][chunk..] == s[off + chunk..];
  }

  /** Byte k of a pixel run: even bytes are high bytes, odd bytes low bytes. */
  lemma {:induction false} PixelBytesIndex(s: seq<u16>, k: nat)
    requires k < |s|
    ensures PixelBytes(s)[2 * k] == s[k] / 256 && PixelBytes(s)[2 * k + 1] == s[k] % 256
    decreases |s|
  {
    if k < |s| - 1 {
      PixelBytesIndex(s[..|s| - 1], k);
    }
  }

  /** Pixel runs convert piecewise. */
  lemma {:induction false} PixelBytesConcat(a: seq<u16>, b: seq<u16>)
    ensures PixelBytes(a + b) == PixelBytes(a) + PixelBytes(b)
    decreases |b|
  {
    if |b| > 0 {
      assert (a + b)[..|a + b| - 1] == a + b[..|b| - 1];
      PixelBytesConcat(a, b[..|b| - 1]);
    } else {
      assert a + b == a;
    }
  }

  /** The first 2k bytes of a pixel run are the bytes of its first k pixels. */
  lemma PixelBytesPrefix(s: seq<u16>, k: nat)
    requires k <= |s|
    ensures PixelBytes(s)[..2 * k] == PixelBytes(s[..k])
  {
    assert s == s[..k] + s[k..];
    PixelBytesConcat(s[..k], s[k..]);
  }

  lemma {:induction false} PayloadConcat(a: seq<SpiEvent>, b: seq<SpiEvent>)
    ensures Payload(a + b) == Payload(a) + Payload(b)
    decreases |b|
  {
    if |b| > 0 {
      assert (a + b)[..|a + b| - 1] == a + b[..|b| - 1];
      PayloadConcat(a, b[..|b| - 1]);
    } else {
      assert a + b == a;
    }
  }

  lemma {:induction false} FullChunksPayload(color: u16, k: nat)
    ensures Payload(FullChunks(color, k)) == PixelBytes(Repeat(color, PixelsPerBuf * k))
  {
    if k > 0 {
      var e := FullChunks(color, k);
      assert e[..|e| - 1] == FullChunks(color, k - 1);
      FullChunksPayload(color, k - 1);
      assert Repeat(color, PixelsPerBuf * k) == Repeat(color, PixelsPerBuf * (k - 1)) + Repeat(color, PixelsPerBuf);
      PixelBytesConcat(Repeat(color, PixelsPerBuf * (k - 1)), Repeat(color, PixelsPerBuf));
    }
  }

  /** LCD_WriteColorFast sends exactly 2 * count bytes, the colour's pixel
      bytes repeated count times. */
  lemma ColorFastPayload(color: u16, count: nat)
    ensures Payload(ColorChunks(color, count)) == PixelBytes(Repeat(color, count))
    ensures |Payload(ColorChunks(color, count))| == 2 * count
  {
    var q, r := count / PixelsPerBuf, count % PixelsPerBuf;
    var tail: seq<SpiEvent> := if r > 0 then [Tx(PixelBytes(Repeat(color, r)))] else [];
    PayloadConcat(FullChunks(color, q), tail);
    FullChunksPayload(color, q);
    if r > 0 {
      assert tail[..0] == [];
      assert Payload(tail) == PixelBytes(Repeat(color, r));
    } else {
      assert Payload(tail) == [] == PixelBytes(Repeat(color, r));
    }
    assert count == PixelsPerBuf * q + r;
    RepeatSplit(color, PixelsPerBuf * q, r);
    PixelBytesConcat(Repeat(color, PixelsPerBuf * q), Repeat(color, r));
  }

  lemma RepeatSplit(color: u16, a: nat, b: nat)
    ensures Repeat(color, a + b) == Repeat(color, a) + Repeat(color, b)
  {
  }

  /** Every byte pair LCD_WriteColorFast sends is (color >> 8, color & 0xFF). */
  lemma ColorFastPairs(color: u16, count: nat, k: nat)
    requires k < count
    ensures var p := Payload(ColorChunks(color, count)); |p| == 2 * count && p[2 * k..2 * k + 2] == Pixel(color)
  {
    ColorFastPayload(color, count);
    PixelBytesIndex(Repeat(color, count), k);
  }

  /** LCD_WriteColorFast uses count / 64 full 128-byte transmissions, then one
      shorter one exactly when count % 64 > 0. */
  lemma ColorFastChunking(color: u16, count: nat)
    ensures AllTx(ColorChunks(color, count))
    ensures |ColorChunks(color, count)| == count / PixelsPerBuf + (if count % PixelsPerBuf > 0 then 1 else 0)
    ensures forall i :: 0 <= i < count / PixelsPerBuf ==> |ColorChunks(color, count)[i].bytes| == TxBufSize
    ensures count % PixelsPerBuf > 0 ==>
              ColorChunks(color, count)[count / PixelsPerBuf].bytes == PixelBytes(Repeat(color, count % PixelsPerBuf))
  {
  }

  /** LCD_WriteBuffer sends the pixels' bytes in order. */
  lemma {:induction false} BufferContents(s: seq<u16>)
    ensures Payload(BufferChunks(s)) == PixelBytes(s)
    decreases |s|
  {
    if |s| > PixelsPerBuf {
      var head := [Tx(PixelBytes(s[..PixelsPerBuf]))];
      BufferContents(s[PixelsPerBuf..]);
      PayloadConcat(head, BufferChunks(s[PixelsPerBuf..]));
      assert Payload(head) == Payload([]) + PixelBytes(s[..PixelsPerBuf]);
      assert s == s[..PixelsPerBuf] + s[PixelsPerBuf..];
      PixelBytesConcat(s[..PixelsPerBuf], s[PixelsPerBuf..]);
    } else if |s| > 0 {
      assert Payload(BufferChunks(s)) == Payload([]) + PixelBytes(s);
    }
  }

  /** Every transmission of LCD_WriteBuffer is 1 to 128 bytes long. */
  lemma {:induction false} BufferChunkSizes(s: seq<u16>)
    ensures AllTx(BufferChunks(s))
    ensures forall i :: 0 <= i < |BufferChunks(s)| ==> 0 < |BufferChunks(s)[i].bytes| <= TxBufSize
    decreases |s|
  {
    if |s| > PixelsPerBuf {
      BufferChunkSizes(s[PixelsPerBuf..]);
    }
  }

  /** Walking a concatenation is walking one part, then the other. */
  lemma {:induction false} WalkConcat(a: seq<SpiEvent>, b: seq<SpiEvent>, selected: bool)
    ensures Walk(a + b, selected) == (match Walk(a, selected) case None => None case Some(t) => Walk(b, t))
    decreases |a|
  {
    if |a| == 0 {
      assert a + b == b;
    } else {
      assert (a + b)[1..] == a[1..] + b;
      match a[0]
      case CsLow => if !selected { WalkConcat(a[1..], b, true); }
      case CsHigh => if selected { WalkConcat(a[1..], b, false); }
      case Tx(_) => if selected { WalkConcat(a[1..], b, selected); }
      case _ => WalkConcat(a[1..], b, selected);
    }
  }

  /** Framed logs are closed under concatenation, so the driver keeps its log
      framed call after call. */
  lemma FramedConcat(a: seq<SpiEvent>, b: seq<SpiEvent>)
    requires Framed(a) && Framed(b)
    ensures Framed(a + b)
  {
    WalkConcat(a, b, false);
  }

  /** Transmissions alone keep the chip selected. */
  lemma {:induction false} WalkAllTx(e: seq<SpiEvent>)
    requires AllTx(e)
    ensures Walk(e, true) == Some(true)
    decreases |e|
  {
    if |e| > 0 {
      assert AllTx(e[1..]);
      WalkAllTx(e[1..]);
    }
  }

  /** Appending the data-mode prefix, a payload and the CS release one after
      the other appends one framed call. */
  lemma AppendFramed(pre: seq<SpiEvent>, c: seq<SpiEvent>)
    ensures pre + [DcHigh, CsLow] + c + [CsHigh] == pre + ([DcHigh, CsLow] + c + [CsHigh])
  {
  }

  /** LCD_WriteColorFast drives CS low before its transmissions and high after. */
  lemma ColorEventsFramed(color: u16, count: nat)
    ensures Framed(ColorEvents(color, count))
  {
    var c := ColorChunks(color, count);
    ColorFastChunking(color, count);
    WalkAllTx(c);
    WalkConcat([DcHigh, CsLow], c + [CsHigh], false);
    WalkConcat(c, [CsHigh], true);
    assert ColorEvents(color, count) == [DcHigh, CsLow] + (c + [CsHigh]);
  }

  /** LCD_WriteBuffer drives CS low before its transmissions and high after. */
  lemma BufferEventsFramed(s: seq<u16>)
    ensures Framed(BufferEvents(s))
  {
    var c := BufferChunks(s);
    BufferChunkSizes(s);
    WalkAllTx(c);
    WalkConcat([DcHigh, CsLow], c + [CsHigh], false);
    WalkConcat(c, [CsHigh], true);
    assert BufferEvents(s) == [DcHigh, CsLow] + (c + [CsHigh]);
  }

  /** One CS frame around one transmission is framed. */
  lemma FrameFramed(dc: SpiEvent, bytes: seq<u8>)
    requires dc == DcLow || dc == DcHigh
    ensures Framed([dc, CsLow, Tx(bytes), CsHigh])
  {
    var e3: seq<SpiEvent> := [CsHigh];
    var e2 := [Tx(bytes)] + e3;
    var e1 := [CsLow] + e2;
    var e := [dc] + e1;
    assert e3[1..] == [] && e2[1..] == e3 && e1[1..] == e2 && e[1..] == e1;
    assert Walk(e3, true) == Some(false);
    assert Walk(e2, true) == Some(false);
    assert Walk(e1, false) == Some(false);
    assert Walk(e, false) == Some(false);
    assert e == [dc, CsLow, Tx(bytes), CsHigh];
  }

  /** One CS frame around one transmission carries exactly its bytes. */
  lemma FramePayload(dc: SpiEvent, bytes: seq<u8>)
    requires dc == DcLow || dc == DcHigh
    ensures Payload([dc, CsLow, Tx(bytes), CsHigh]) == bytes
  {
    var e := [dc, CsLow, Tx(bytes), CsHigh];
    var p1: seq<SpiEvent> := [dc];
    var p2 := p1 + [CsLow];
    var p3 := p2 + [Tx(bytes)];
    assert p1[..0] == [] && p2[..1] == p1 && p3[..2] == p2 && e[..3] == p3;
    assert Payload(p1) == [];
    assert Payload(p2) == [];
    assert Payload(p3) == bytes;
  }

  /** LCD_SetWindow drives CS low before each of its five transmissions and
      high after it. */
  lemma WindowFramed(x0: u16, y0: u16, x1: u16, y1: u16)
    ensures Framed(WindowEvents(x0, y0, x1, y1))
  {
    var cols: seq<u8> := [0, x0 % 256, 0, x1 % 256];
    var rows: seq<u8> := [0, (y0 + YOffset) % 256, 0, (y1 + YOffset) % 256];
    var c1, d1, c2, d2, c3 := CmdEvents(Caset), DataEvents(cols), CmdEvents(Raset), DataEvents(rows), CmdEvents(Ramwr);
    FrameFramed(DcLow, [Caset]);
    FrameFramed(DcHigh, cols);
    FrameFramed(DcLow, [Raset]);
    FrameFramed(DcHigh, rows);
    FrameFramed(DcLow, [Ramwr]);
    FramedConcat(c1, d1);
    FramedConcat(c1 + d1, c2);
    FramedConcat(c1 + d1 + c2, d2);
    FramedConcat(c1 + d1 + c2 + d2, c3);
  }

  /** LCD_SetWindow sends CASET [0, x0, 0, x1], RASET [0, y0 + 26, 0, y1 + 26]
      (each byte truncated to 8 bits), then RAMWR. */
  lemma WindowPayload(x0: u16, y0: u16, x1: u16, y1: u16)
    ensures Payload(WindowEvents(x0, y0, x1, y1))
            == [Caset] + [0, x0 % 256, 0, x1 % 256] + [Raset] + [0, (y0 + YOffset) % 256, 0, (y1 + YOffset) % 256] + [Ramwr]
  {
    var cols: seq<u8> := [0, x0 % 256, 0, x1 % 256];
    var rows: seq<u8> := [0, (y0 + YOffset) % 256, 0, (y1 + YOffset) % 256];
    var c1, d1, c2, d2, c3 := CmdEvents(Caset), DataEvents(cols), CmdEvents(Raset), DataEvents(rows), CmdEvents(Ramwr);
    FramePayload(DcLow, [Caset]);
    FramePayload(DcHigh, cols);
    FramePayload(DcLow, [Raset]);
    FramePayload(DcHigh, rows);
    FramePayload(DcLow, [Ramwr]);
    PayloadConcat(c1, d1);
    assert Payload(c1 + d1) == [Caset] + cols;
    PayloadConcat(c1 + d1, c2);
    assert Payload(c1 + d1 + c2) == [Caset] + cols + [Raset];
    PayloadConcat(c1 + d1 + c2, d2);
    assert Payload(c1 + d1 + c2 + d2) == [Caset] + cols + [Raset] + rows;
    PayloadConcat(c1 + d1 + c2 + d2, c3);
    assert Payload(c1 + d1 + c2 + d2 + c3) == [Caset] + cols + [Raset] + rows + [Ramwr];
  }

  /** LCD_Clear writes the whole 160 x 80 panel: the window (0,0)-(159,79)
      and 12800 pixels, in 200 full buffers and no remainder. */
  lemma ClearCoversPanel(color: u16)
    ensures |Payload(ColorChunks(color, Width * Height))| == 2 * 12800
    ensures |ColorChunks(color, Width * Height)| == 200
    ensures Payload(WindowEvents(0, 0, Width - 1, Height - 1))
            == [Caset, 0, 0, 0, 159, Raset, 0, 26, 0, 105, Ramwr]
  {
    ColorFastPayload(color, Width * Height);
    ColorFastChunking(color, Width * Height);
    WindowPayload(0, 0, Width - 1, Height - 1);
  }
}
