/**
 * The `AS289R2_m` object. Its only state is the UART, modelled as the log of
 * bytes written so far. A `Command` is one method call; `Send` appends that
 * call's bytes, and `Run` performs a sequence of calls in order.
 */
module Driver {
  import opened Bytes
  import opened Text
  import E = Encoder
  import P = Protocol
  import opened Wrappers

  datatype Command =
    | Initialize
    | PutLineFeed(lines: int)
    | ClearBuffer
    | SetDoubleSizeHeight
    | ClearDoubleSizeHeight
    | SetDoubleSizeWidth
    | ClearDoubleSizeWidth
    | SetLargeFont
    | ClearLargeFont
    | SetAnkFont(font: byte)
    | SetKanjiFont(font: byte)
    | PrintQrCode(level: byte, text: string)
    | SetEnlargedQrCode
    | ClearEnlargedQrCode
    | PrintBarCode(kind: byte, text: string)
    | PrintBitmapImage(mode: byte, lines: int, image: seq<byte>)
    | SetLineSpacing(space: byte)
    | DefaultLineSpacing
    | SetPrintDirection(direction: byte)
    | PutPaperFeed(space: byte)
    | SetInterCharacterSpace(space: byte)
    | DefaultInterCharacterSpace
    | PutPrintPosition(position: byte)
    | SetScript(mode: byte)
    | ClearScript
    | SetQuadrupleSize
    | ClearQuadrupleSize
    | SetEnlargement(width: byte, height: byte)
    | ClearEnlargement
    | SetBarCodeHeight(height: byte)
    | DefaultBarCodeHeight
    | SetBarCodeBarSize(narrow: byte, wide: byte)
    | DefaultBarCodeBarSize
    | Putc(value: byte)
    | Printf(text: string)

  /**
   * What a method needs beyond byte-valued arguments: QR text short enough
   * for its length byte, and an image long enough for the bitmap loop.
   */
  predicate Valid(c: Command) {
    match c
    case PrintQrCode(_, text) => |text| < 0x100
    case PrintBitmapImage(mode, lines, image) => mode == P.PrintBufferMode || P.LineBytes * lines <= |image|
    case _ => true
  }

  /** The bytes one method call writes. */
  function Encoding(c: Command): seq<byte>
    requires Valid(c)
  {
    match c
    case Initialize => E.Initialize()
    case PutLineFeed(lines) => E.PutLineFeed(lines)
    case ClearBuffer => E.ClearBuffer()
    case SetDoubleSizeHeight => E.SetDoubleSizeHeight()
    case ClearDoubleSizeHeight => E.ClearDoubleSizeHeight()
    case SetDoubleSizeWidth => E.SetDoubleSizeWidth()
    case ClearDoubleSizeWidth => E.ClearDoubleSizeWidth()
    case SetLargeFont => E.SetLargeFont()
    case ClearLargeFont => E.ClearLargeFont()
    case SetAnkFont(font) => E.SetAnkFont(font)
    case SetKanjiFont(font) => E.SetKanjiFont(font)
    case PrintQrCode(level, text) => E.PrintQrCode(level, text)
    case SetEnlargedQrCode => E.SetEnlargedQrCode()
    case ClearEnlargedQrCode => E.ClearEnlargedQrCode()
    case PrintBarCode(kind, text) => E.PrintBarCode(kind, text)
    case PrintBitmapImage(mode, lines, image) => E.PrintBitmapImage(mode, lines, image)
    case SetLineSpacing(space) => E.SetLineSpacing(space)
    case DefaultLineSpacing => E.DefaultLineSpacing()
    case SetPrintDirection(direction) => E.SetPrintDirection(direction)
    case PutPaperFeed(space) => E.PutPaperFeed(space)
    case SetInterCharacterSpace(space) => E.SetInterCharacterSpace(space)
    case DefaultInterCharacterSpace => E.DefaultInterCharacterSpace()
    case PutPrintPosition(position) => E.PutPrintPosition(position)
    case SetScript(mode) => E.SetScript(mode)
    case ClearScript => E.ClearScript()
    case SetQuadrupleSize => E.SetQuadrupleSize()
    case ClearQuadrupleSize => E.ClearQuadrupleSize()
    case SetEnlargement(width, height) => E.SetEnlargement(width, height)
    case ClearEnlargement => E.ClearEnlargement()
    case SetBarCodeHeight(height) => E.SetBarCodeHeight(height)
    case DefaultBarCodeHeight => E.DefaultBarCodeHeight()
    case SetBarCodeBarSize(narrow, wide) => E.SetBarCodeBarSize(narrow, wide)
    case DefaultBarCodeBarSize => E.DefaultBarCodeBarSize()
    case Putc(value) => E.Putc(value)
    case Printf(text) => E.Printf(text)
  }

  // ---- The printer object ----

  /** The driver object: the bytes its UART has been given, oldest first. */
  datatype Printer = Printer(log: seq<byte>)

  /** One method call: the log grows by exactly that call's bytes and keeps everything before. */
  function Send(p: Printer, c: Command): (q: Printer)
    requires Valid(c)
    ensures |q.log| == |p.log| + |Encoding(c)|
    ensures q.log[..|p.log|] == p.log && q.log[|p.log|..] == Encoding(c)
  {
    Printer(p.log + Encoding(c))
  }

  /** `__init__`: a fresh UART, then `initialize`. */
  function Open(): (p: Printer)
    ensures p.log == [P.ESC, 0x40]
    ensures p.log == P.Wire(P.Reset)
  {
    Send(Printer([]), Initialize)
  }

  /** The bytes of a sequence of calls, in call order. */
  function Transcript(cmds: seq<Command>): seq<byte>
    requires forall i :: 0 <= i < |cmds| ==> Valid(cmds[i])
  {
    if |cmds| == 0 then [] else Encoding(cmds[0]) + Transcript(cmds[1..])
  }

  /** Perform the calls one after another. */
  function Run(p: Printer, cmds: seq<Command>): (q: Printer)
    requires forall i :: 0 <= i < |cmds| ==> Valid(cmds[i])
    ensures |p.log| <= |q.log| && q.log[..|p.log|] == p.log
    decreases |cmds|
  {
    if |cmds| == 0 then p else Run(Send(p, cmds[0]), cmds[1..])
  }

  lemma {:induction false} TranscriptAppend(a: seq<Command>, b: seq<Command>)
    requires forall i :: 0 <= i < |a| ==> Valid(a[i])
    requires forall i :: 0 <= i < |b| ==> Valid(b[i])
    ensures Transcript(a + b) == Transcript(a) + Transcript(b)
  {
    if |a| == 0 {
      assert a + b == b;
    } else {
      assert (a + b)[1..] == a[1..] + b;
      TranscriptAppend(a[1..], b);
    }
  }

  lemma ConcatAssociates(a: seq<byte>, b: seq<byte>, c: seq<byte>)
    ensures (a + b) + c == a + (b + c)
  {
  }

  /** Running calls appends their transcript to the log and nothing else. */
  lemma {:induction false} RunAppendsTranscript(p: Printer, cmds: seq<Command>)
    requires forall i :: 0 <= i < |cmds| ==> Valid(cmds[i])
    ensures Run(p, cmds).log == p.log + Transcript(cmds)
    decreases |cmds|
  {
    if |cmds| > 0 {
      var q, e := Send(p, cmds[0]), Encoding(cmds[0]);
      assert q.log == p.log + e;
      assert forall i :: 0 <= i < |cmds[1..]| ==> Valid(cmds[1..][i]);
      RunAppendsTranscript(q, cmds[1..]);
      assert Run(p, cmds) == Run(q, cmds[1..]);
      assert Transcript(cmds) == e + Transcript(cmds[1..]);
      ConcatAssociates(p.log, e, Transcript(cmds[1..]));
    }
  }

  /**
   * Calls are never reordered or merged: running `a` then `b` is running
   * `a + b`, so every byte of `a` precedes every byte of `b`.
   */
  lemma RunInOrder(p: Printer, a: seq<Command>, b: seq<Command>)
    requires forall i :: 0 <= i < |a| ==> Valid(a[i])
    requires forall i :: 0 <= i < |b| ==> Valid(b[i])
    ensures forall i :: 0 <= i < |a + b| ==> Valid((a + b)[i])
    ensures Run(p, a + b) == Run(Run(p, a), b)
    ensures Run(p, a + b).log == p.log + Transcript(a) + Transcript(b)
  {
    ConcatValid(a, b);
    var q := Run(p, a);
    RunAppendsTranscript(p, a + b);
    RunAppendsTranscript(p, a);
    RunAppendsTranscript(q, b);
    TranscriptAppend(a, b);
    ConcatAssociates(p.log, Transcript(a), Transcript(b));
    assert Run(p, a + b).log == Run(q, b).log;
  }

  lemma ConcatValid(a: seq<Command>, b: seq<Command>)
    requires forall i :: 0 <= i < |a| ==> Valid(a[i])
    requires forall i :: 0 <= i < |b| ==> Valid(b[i])
    ensures forall i :: 0 <= i < |a + b| ==> Valid((a + b)[i])
  {
    forall i | 0 <= i < |a + b| ensures Valid((a + b)[i]) {
      if i >= |a| { assert (a + b)[i] == b[i - |a|]; }
    }
  }

  // ---- What the printer reads ----

  /**
   * Calls whose bytes form printer commands the reader can delimit: not raw
   * `putc`/`printf` output, QR text whose character count is its byte count,
   * barcode text without NUL, and a bitmap line count that fits in 16 bits.
   */
  predicate Framed(c: Command) {
    && Valid(c)
    && match c
       case Putc(_) => false
       case Printf(_) => false
       case PrintQrCode(_, text) => IsAscii(text)
       case PrintBarCode(_, text) => '\0' !in text
       case PrintBitmapImage(_, lines, _) => 0 <= lines < 0x1_0000
       case _ => true
  }

  function LineFeeds(n: int): (r: seq<P.Frame>)
    ensures |r| == if n > 0 then n else 0
    ensures forall i :: 0 <= i < |r| ==> r[i] == P.LineFeed
    decreases n
  {
    if n <= 0 then [] else LineFeeds(n - 1) + [P.LineFeed]
  }

  /** The printer commands a framed call stands for. */
  function Frames(c: Command): seq<P.Frame>
    requires Framed(c)
  {
    match c
    case Initialize => [P.Reset]
    case PutLineFeed(lines) => LineFeeds(lines)
    case ClearBuffer => [P.ClearBuffer]
    case SetDoubleSizeHeight => [P.DoubleHeight(true)]
    case ClearDoubleSizeHeight => [P.DoubleHeight(false)]
    case SetDoubleSizeWidth => [P.DoubleWidth(true)]
    case ClearDoubleSizeWidth => [P.DoubleWidth(false)]
    case SetLargeFont => [P.LargeFont(true)]
    case ClearLargeFont => [P.LargeFont(false)]
    case SetAnkFont(font) => [P.AnkFont(font)]
    case SetKanjiFont(font) => [P.KanjiFont(font)]
    case PrintQrCode(level, text) => [P.QrCode(level, Encode(text))]
    case SetEnlargedQrCode => [P.EnlargedQr(true)]
    case ClearEnlargedQrCode => [P.EnlargedQr(false)]
    case PrintBarCode(kind, text) => [P.BarCode(kind, Encode(text))]
    case PrintBitmapImage(mode, lines, image) =>
      [P.Bitmap(mode, lines, if mode == P.PrintBufferMode then [] else image[..P.LineBytes * lines])]
    case SetLineSpacing(space) => [P.LineSpacing(space)]
    case DefaultLineSpacing => [P.LineSpacing(4)]
    case SetPrintDirection(direction) => [P.PrintDirection(direction)]
    case PutPaperFeed(space) => [P.PaperFeed(space)]
    case SetInterCharacterSpace(space) => [P.InterCharacterSpace(space)]
    case DefaultInterCharacterSpace => [P.InterCharacterSpace(1)]
    case PutPrintPosition(position) => [P.PrintPosition(position)]
    case SetScript(mode) => [P.Script(mode)]
    case ClearScript => [P.Script(0x30)]
    case SetQuadrupleSize => [P.QuadrupleSize(true)]
    case ClearQuadrupleSize => [P.QuadrupleSize(false)]
    case SetEnlargement(width, height) => [P.Enlargement(width, height)]
    case ClearEnlargement => [P.Enlargement(0x31, 0x31)]
    case SetBarCodeHeight(height) => [P.BarCodeHeight(height)]
    case DefaultBarCodeHeight => [P.BarCodeHeight(0x50)]
    case SetBarCodeBarSize(narrow, wide) => [P.BarCodeBarSize(narrow, wide)]
    case DefaultBarCodeBarSize => [P.BarCodeBarSize(2, 5)]
  }

  predicate AllFramed(cmds: seq<Command>)
    ensures AllFramed(cmds) ==> forall i :: 0 <= i < |cmds| ==> Valid(cmds[i])
  {
    forall i :: 0 <= i < |cmds| ==> Framed(cmds[i])
  }

  lemma WireAllSingle(f: P.Frame)
    requires P.WellFormed(f)
    ensures P.WireAll([f]) == P.Wire(f)
  {
    assert [f][1..] == [];
  }

  lemma {:induction false} LineFeedsAreCarriageReturns(n: int)
    ensures P.AllWellFormed(LineFeeds(n))
    ensures P.WireAll(LineFeeds(n)) == E.PutLineFeed(n)
    decreases n
  {
    if n > 0 {
      LineFeedsAreCarriageReturns(n - 1);
      P.WireAllAppend(LineFeeds(n - 1), [P.LineFeed]);
      WireAllSingle(P.LineFeed);
    }
  }

  /** A framed call writes exactly the wire form of its printer commands. */
  lemma EncodingIsWire(c: Command)
    requires Framed(c)
    ensures P.AllWellFormed(Frames(c))
    ensures Encoding(c) == P.WireAll(Frames(c))
  {
    if c.PutLineFeed? {
      LineFeedsAreCarriageReturns(c.lines);
    } else {
      IsOneFrame(c);
      var f := Frames(c)[0];
      assert Frames(c) == [f];
      WireAllSingle(f);
    }
  }

  /** Every framed call other than a line feed stands for exactly one printer command. */
  lemma IsOneFrame(c: Command)
    requires Framed(c) && !c.PutLineFeed?
    ensures |Frames(c)| == 1 && P.WellFormed(Frames(c)[0]) && Encoding(c) == P.Wire(Frames(c)[0])
  {
    if c.PrintQrCode? {
      QrIsOneFrame(c);
    } else if c.PrintBarCode? {
      BarCodeIsOneFrame(c);
    } else if c.PrintBitmapImage? {
      BitmapIsOneFrame(c);
    } else if IsSetter(c) {
      SetterIsOneFrame(c);
    } else if IsDefault(c) {
      DefaultIsOneFrame(c);
    } else {
      FixedIsOneFrame(c);
    }
  }

  lemma QrIsOneFrame(c: Command)
    requires Framed(c) && c.PrintQrCode?
    ensures |Frames(c)| == 1 && P.WellFormed(Frames(c)[0]) && Encoding(c) == P.Wire(Frames(c)[0])
  {
    EncodeLengthIsCharCount(c.text);
  }

  lemma BarCodeIsOneFrame(c: Command)
    requires Framed(c) && c.PrintBarCode?
    ensures |Frames(c)| == 1 && P.WellFormed(Frames(c)[0]) && Encoding(c) == P.Wire(Frames(c)[0])
  {
    EncodeNulFree(c.text);
  }

  lemma BitmapIsOneFrame(c: Command)
    requires Framed(c) && c.PrintBitmapImage?
    ensures |Frames(c)| == 1 && P.WellFormed(Frames(c)[0]) && Encoding(c) == P.Wire(Frames(c)[0])
  {
    if c.mode != P.PrintBufferMode {
      var data := c.image[..P.LineBytes * c.lines];
      assert |data| == P.LineBytes * c.lines;
    }
  }

  /** The calls that take byte arguments and send them as one fixed-length command. */
  predicate IsSetter(c: Command) {
    c.SetAnkFont? || c.SetKanjiFont? || c.SetLineSpacing? || c.SetPrintDirection? || c.PutPaperFeed? || c.SetInterCharacterSpace? || c.PutPrintPosition? || c.SetScript? || c.SetEnlargement? || c.SetBarCodeHeight? || c.SetBarCodeBarSize?
  }

  lemma SetterIsOneFrame(c: Command)
    requires Framed(c) && IsSetter(c)
    ensures |Frames(c)| == 1 && P.WellFormed(Frames(c)[0]) && Encoding(c) == P.Wire(Frames(c)[0])
  {
  }

  /** The calls that send a setter's command with the driver's default argument. */
  predicate IsDefault(c: Command) {
    c.DefaultLineSpacing? || c.DefaultInterCharacterSpace? || c.ClearScript? || c.ClearEnlargement? || c.DefaultBarCodeHeight? || c.DefaultBarCodeBarSize?
  }

  lemma DefaultIsOneFrame(c: Command)
    requires Framed(c) && IsDefault(c)
    ensures |Frames(c)| == 1 && P.WellFormed(Frames(c)[0]) && Encoding(c) == P.Wire(Frames(c)[0])
  {
  }

  lemma FixedIsOneFrame(c: Command)
    requires Framed(c) && !IsSetter(c) && !IsDefault(c)
    requires !c.PutLineFeed? && !c.PrintQrCode? && !c.PrintBarCode? && !c.PrintBitmapImage?
    ensures |Frames(c)| == 1 && P.WellFormed(Frames(c)[0]) && Encoding(c) == P.Wire(Frames(c)[0])
  {
  }

  /** The printer commands of a sequence of framed calls, in call order. */
  function FramesOf(cmds: seq<Command>): seq<P.Frame>
    requires AllFramed(cmds)
  {
    if |cmds| == 0 then [] else Frames(cmds[0]) + FramesOf(cmds[1..])
  }

  lemma {:induction false} TranscriptIsWire(cmds: seq<Command>)
    requires AllFramed(cmds)
    ensures P.AllWellFormed(FramesOf(cmds))
    ensures Transcript(cmds) == P.WireAll(FramesOf(cmds))
  {
    if |cmds| > 0 {
      EncodingIsWire(cmds[0]);
      TranscriptIsWire(cmds[1..]);
      P.WireAllAppend(Frames(cmds[0]), FramesOf(cmds[1..]));
      var a, b := Frames(cmds[0]), FramesOf(cmds[1..]);
      assert forall i :: 0 <= i < |a + b| ==> P.WellFormed((a + b)[i]) by {
        forall i | 0 <= i < |a + b| ensures P.WellFormed((a + b)[i]) {
          if i >= |a| { assert (a + b)[i] == b[i - |a|]; }
        }
      }
    }
  }

  /**
   * The printer reads the bytes of any sequence of framed calls back as
   * exactly their commands, in order, with nothing left over.
   */
  lemma DeviceReadsTranscript(cmds: seq<Command>)
    requires AllFramed(cmds)
    ensures P.ParseAll(Transcript(cmds)) == Some(FramesOf(cmds))
  {
    TranscriptIsWire(cmds);
    P.ParseWireAll(FramesOf(cmds));
  }

  /** A whole session: the reset from construction, then the calls. */
  lemma DeviceReadsSession(cmds: seq<Command>)
    requires AllFramed(cmds)
    ensures P.ParseAll(Run(Open(), cmds).log) == Some([P.Reset] + FramesOf(cmds))
  {
    RunAppendsTranscript(Open(), cmds);
    var all := [Initialize] + cmds;
    assert all[1..] == cmds;
    assert forall i :: 0 <= i < |all| ==> Framed(all[i]);
    assert Transcript(all) == Encoding(Initialize) + Transcript(cmds);
    assert FramesOf(all) == [P.Reset] + FramesOf(cmds);
    DeviceReadsTranscript(all);
  }

  /**
   * For non-ASCII QR text the length byte counts characters but fewer than
   * the payload bytes: the reader stops inside the payload and the remaining
   * bytes reach the printer as something other than QR data.
   */
  lemma QrLengthFallsShort(level: byte, s: string, rest: seq<byte>)
    requires |s| < 0x100 && !IsAscii(s)
    ensures var b := E.PrintQrCode(level, s) + rest;
      P.ParseFrame(b).Some? && P.ParseFrame(b).value.1 < |E.PrintQrCode(level, s)|
  {
    EncodeLengthIsCharCount(s);
    var r := E.PrintQrCode(level, s);
    var b := r + rest;
    assert b[..4] == r[..4];
  }

  /** A concrete case: "\U{E9}" (one character, two UTF-8 bytes) leaves a stray 0xA9. */
  lemma QrLengthCounterexample()
    ensures E.PrintQrCode(0x4D, "\U{E9}") == [0x1D, 0x78, 0x4D, 1, 0xC3, 0xA9]
    ensures P.ParseFrame(E.PrintQrCode(0x4D, "\U{E9}")) == Some((P.QrCode(0x4D, [0xC3]), 5))
    ensures P.ParseAll(E.PrintQrCode(0x4D, "\U{E9}")) == None
  {
    var r := E.PrintQrCode(0x4D, "\U{E9}");
    assert Encode("\U{E9}") == [0xC3, 0xA9];
    assert r[4..5] == [0xC3];
    assert P.ReadGs(r) == Some((P.QrCode(0x4D, [0xC3]), 5));
    assert r[5..] == [0xA9];
  }
}
