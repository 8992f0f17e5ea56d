/**
 * The AS-289R2 command framing, as the printer reads the byte stream: one
 * `Frame` per device command, its wire form `Wire`, and a sequential reader
 * `ParseFrame`/`ParseAll` that splits a byte stream back into frames. The
 * driver's encoders are stated against `Wire`, and the reader is proved to be
 * its inverse, so every command the driver sends is read back unambiguously.
 */
module Protocol {
  import opened Bytes
  import opened Wrappers

  const CR := 0x0D
  const DC2 := 0x12
  const CAN := 0x18
  const ESC := 0x1B
  const FS := 0x1C
  const GS := 0x1D
  const NUL := 0x00
  /** The argument byte of an on/off switch. */
  const ON := 0x31
  const OFF := 0x30
  /** Bitmap mode that prints the image buffer and carries no image data. */
  const PrintBufferMode := 0x61
  /** A raster line is 384 dots, eight to a byte. */
  const LineBytes := 48

  datatype Frame =
    | Reset                                       // ESC @
    | LineFeed                                    // CR
    | ClearBuffer                                 // CAN
    | DoubleHeight(on: bool)                      // ESC N n
    | DoubleWidth(on: bool)                       // ESC W n
    | LargeFont(on: bool)                         // ESC L n
    | AnkFont(font: byte)                         // ESC h n
    | KanjiFont(font: byte)                       // DC2 S n
    | QrCode(level: byte, data: seq<byte>)        // GS x level length data
    | EnlargedQr(on: bool)                        // GS y n
    | BarCode(kind: byte, data: seq<byte>)        // GS k kind data NUL
    | Bitmap(mode: byte, lines: int, data: seq<byte>) // FS * mode high low data
    | LineSpacing(dots: byte)                     // ESC 3 n
    | PrintDirection(direction: byte)             // ESC I n
    | PaperFeed(dots: byte)                       // ESC J n
    | InterCharacterSpace(dots: byte)             // ESC SP n
    | PrintPosition(position: byte)               // ESC l n
    | Script(mode: byte)                          // ESC s n
    | QuadrupleSize(on: bool)                     // FS W n
    | Enlargement(width: byte, height: byte)      // FS e w h
    | BarCodeHeight(dots: byte)                   // GS h n
    | BarCodeBarSize(narrow: byte, wide: byte)    // GS w n w

  function Switch(on: bool): byte {
    if on then ON else OFF
  }

  function SwitchOf(n: int): (r: Option<bool>)
    ensures r.Some? ==> Switch(r.value) == n
    ensures forall on :: Switch(on) == n ==> r == Some(on)
  {
    if n == ON then Some(true) else if n == OFF then Some(false) else None
  }

  /** Number of image bytes that follow a bitmap header. */
  function BitmapDataLength(mode: int, lines: int): int {
    if mode == PrintBufferMode then 0 else LineBytes * lines
  }

  /** Frames whose payload fits its framing: a one-byte length, a NUL terminator, a 16-bit line count. */
  predicate WellFormed(f: Frame) {
    match f
    case QrCode(_, data) => |data| < 0x100
    case BarCode(_, data) => NUL !in data
    case Bitmap(mode, lines, data) => 0 <= lines < 0x1_0000 && |data| == BitmapDataLength(mode, lines)
    case _ => true
  }

  /** The bytes of one frame on the wire. */
  function Wire(f: Frame): (r: seq<byte>)
    requires WellFormed(f)
    ensures |r| > 0
  {
    match f
    case Reset => [ESC, 0x40]
    case LineFeed => [CR]
    case ClearBuffer => [CAN]
    case DoubleHeight(on) => [ESC, 0x4E, Switch(on)]
    case DoubleWidth(on) => [ESC, 0x57, Switch(on)]
    case LargeFont(on) => [ESC, 0x4C, Switch(on)]
    case AnkFont(n) => [ESC, 0x68, n]
    case KanjiFont(n) => [DC2, 0x53, n]
    case QrCode(level, data) => [GS, 0x78, level, |data|] + data
    case EnlargedQr(on) => [GS, 0x79, Switch(on)]
    case BarCode(kind, data) => [GS, 0x6B, kind] + data + [NUL]
    case Bitmap(mode, lines, data) => [FS, 0x2A, mode, HighByte(lines), LowByte(lines)] + data
    case LineSpacing(n) => [ESC, 0x33, n]
    case PrintDirection(n) => [ESC, 0x49, n]
    case PaperFeed(n) => [ESC, 0x4A, n]
    case InterCharacterSpace(n) => [ESC, 0x20, n]
    case PrintPosition(n) => [ESC, 0x6C, n]
    case Script(n) => [ESC, 0x73, n]
    case QuadrupleSize(on) => [FS, 0x57, Switch(on)]
    case Enlargement(w, h) => [FS, 0x65, w, h]
    case BarCodeHeight(n) => [GS, 0x68, n]
    case BarCodeBarSize(n, w) => [GS, 0x77, n, w]
  }

  predicate AllWellFormed(fs: seq<Frame>) {
    forall i :: 0 <= i < |fs| ==> WellFormed(fs[i])
  }

  /** The bytes of a sequence of frames, in order. */
  function WireAll(fs: seq<Frame>): (r: seq<byte>)
    requires AllWellFormed(fs)
    ensures |r| >= |fs|
  {
    if |fs| == 0 then [] else Wire(fs[0]) + WireAll(fs[1..])
  }

  lemma {:induction false} WireAllAppend(a: seq<Frame>, b: seq<Frame>)
    requires AllWellFormed(a) && AllWellFormed(b)
    ensures AllWellFormed(a + b)
    ensures WireAll(a + b) == WireAll(a) + WireAll(b)
  {
    if |a| == 0 {
      assert a + b == b;
    } else {
      assert (a + b)[1..] == a[1..] + b;
      WireAllAppend(a[1..], b);
      assert (a + b)[0] == a[0];
    }
  }

  // ---- The reader ----

  /**
   * What every reader promises: a result consumes a non-empty prefix of the
   * input that is exactly the wire form of the well-formed frame it returns.
   */
  predicate ReadsPrefix(b: seq<byte>, r: Option<(Frame, nat)>) {
    r.Some? ==> 0 < r.value.1 <= |b| && WellFormed(r.value.0) && Wire(r.value.0) == b[..r.value.1]
  }

  /** Index of the first zero byte, if any. */
  function FindNul(s: seq<byte>): (r: Option<nat>)
    ensures r.Some? ==> r.value < |s| && s[r.value] == NUL && NUL !in s[..r.value]
    ensures r.None? ==> NUL !in s
  {
    if |s| == 0 then None
    else if s[0] == NUL then Some(0)
    else match FindNul(s[1..])
      case None => None
      case Some(k) => assert s[..k + 1] == [s[0]] + s[1..][..k]; Some(k + 1)
  }

  /** Commands introduced by ESC. */
  function ReadEsc(b: seq<byte>): (r: Option<(Frame, nat)>)
    requires 2 <= |b| && b[0] == ESC
    ensures ReadsPrefix(b, r)
  {
    if b[1] == 0x40 then Some((Reset, 2))
    else if |b| < 3 then None
    else
      var op, n := b[1], b[2];
      if op == 0x4E || op == 0x57 || op == 0x4C then
        match SwitchOf(n)
        case None => None
        case Some(on) =>
          Some((if op == 0x4E then DoubleHeight(on) else if op == 0x57 then DoubleWidth(on) else LargeFont(on), 3))
      else if op == 0x68 then Some((AnkFont(n), 3))
      else if op == 0x33 then Some((LineSpacing(n), 3))
      else if op == 0x49 then Some((PrintDirection(n), 3))
      else if op == 0x4A then Some((PaperFeed(n), 3))
      else if op == 0x20 then Some((InterCharacterSpace(n), 3))
      else if op == 0x6C then Some((PrintPosition(n), 3))
      else if op == 0x73 then Some((Script(n), 3))
      else None
  }

  /** Commands introduced by FS. */
  function ReadFs(b: seq<byte>): (r: Option<(Frame, nat)>)
    requires 2 <= |b| && b[0] == FS
    ensures ReadsPrefix(b, r)
  {
    if |b| < 3 then None
    else if b[1] == 0x57 then
      match SwitchOf(b[2])
      case None => None
      case Some(on) => Some((QuadrupleSize(on), 3))
    else if |b| < 4 then None
    else if b[1] == 0x65 then Some((Enlargement(b[2], b[3]), 4))
    else if b[1] == 0x2A && |b| >= 5 then
      var mode, lines := b[2], b[3] as int * 0x100 + b[4] as int;
      var count := BitmapDataLength(mode, lines);
      WordJoin(b[3], b[4]);
      if |b| < 5 + count then None
      else Some((Bitmap(mode, lines, b[5..5 + count]), 5 + count))
    else None
  }

  /** Commands introduced by GS. */
  function ReadGs(b: seq<byte>): (r: Option<(Frame, nat)>)
    requires 2 <= |b| && b[0] == GS
    ensures ReadsPrefix(b, r)
  {
    if |b| < 3 then None
    else if b[1] == 0x79 then
      match SwitchOf(b[2])
      case None => None
      case Some(on) => Some((EnlargedQr(on), 3))
    else if b[1] == 0x68 then Some((BarCodeHeight(b[2]), 3))
    else if b[1] == 0x6B then ReadBarCode(b)
    else if |b| < 4 then None
    else if b[1] == 0x77 then Some((BarCodeBarSize(b[2], b[3]), 4))
    else if b[1] == 0x78 then ReadQr(b)
    else None
  }

  /** A barcode: kind byte, then data up to and including the first NUL. */
  function ReadBarCode(b: seq<byte>): (r: Option<(Frame, nat)>)
    requires 3 <= |b| && b[0] == GS && b[1] == 0x6B
    ensures ReadsPrefix(b, r)
  {
    match FindNul(b[3..])
    case None => None
    case Some(k) => Some((BarCode(b[2], b[3..3 + k]), 3 + k + 1))
  }

  /** A QR code: level byte, length byte, then that many data bytes. */
  function ReadQr(b: seq<byte>): (r: Option<(Frame, nat)>)
    requires 4 <= |b| && b[0] == GS && b[1] == 0x78
    ensures ReadsPrefix(b, r)
  {
    var length: int := b[3];
    if |b| < 4 + length then None
    else Some((QrCode(b[2], b[4..4 + length]), 4 + length))
  }

  /** Read one command from the front of the stream; `None` on text or an incomplete command. */
  function ParseFrame(b: seq<byte>): (r: Option<(Frame, nat)>)
    ensures ReadsPrefix(b, r)
  {
    if |b| == 0 then None
    else if b[0] == CR then Some((LineFeed, 1))
    else if b[0] == CAN then Some((ClearBuffer, 1))
    else if |b| < 2 then None
    else if b[0] == ESC then ReadEsc(b)
    else if b[0] == DC2 then
      if b[1] == 0x53 && |b| >= 3 then Some((KanjiFont(b[2]), 3)) else None
    else if b[0] == FS then ReadFs(b)
    else if b[0] == GS then ReadGs(b)
    else None
  }

  /** Read a whole stream as a sequence of commands, or fail. */
  function ParseAll(b: seq<byte>): (r: Option<seq<Frame>>)
    ensures r.Some? ==> AllWellFormed(r.value) && WireAll(r.value) == b
    decreases |b|
  {
    if |b| == 0 then Some([])
    else match ParseFrame(b)
      case None => None
      case Some((f, n)) =>
        match ParseAll(b[n..])
        case None => None
        case Some(fs) =>
          assert b == b[..n] + b[n..];
          WireAllCons(f, fs);
          Some([f] + fs)
  }

  lemma WireAllCons(f: Frame, fs: seq<Frame>)
    requires WellFormed(f) && AllWellFormed(fs)
    ensures AllWellFormed([f] + fs)
    ensures WireAll([f] + fs) == Wire(f) + WireAll(fs)
  {
    assert ([f] + fs)[1..] == fs;
  }

  // ---- The reader inverts the wire form ----

  lemma {:induction false} FindNulAfter(data: seq<byte>, rest: seq<byte>)
    requires NUL !in data
    ensures FindNul(data + [NUL] + rest) == Some(|data|)
  {
    if |data| > 0 {
      assert (data + [NUL] + rest)[1..] == data[1..] + [NUL] + rest;
      FindNulAfter(data[1..], rest);
    }
  }

  /** A well-formed frame followed by anything is read back as itself. */
  lemma ParseWire(f: Frame, rest: seq<byte>)
    requires WellFormed(f) 
    ensures ParseFrame(Wire(f) + rest) == Some((f, |Wire(f)|))
  {
    var b := Wire(f) + rest;
    match f
    case QrCode(level, data) => ParseWireQr(level, data, rest);
    case BarCode(kind, data) => ParseWireBarCode(kind, data, rest);
    case Bitmap(mode, lines, data) => ParseWireBitmap(mode, lines, data, rest);
    case Reset =>
    case LineFeed =>
    case ClearBuffer =>
    case KanjiFont(_) =>
    case DoubleHeight(_) => ParseWireEsc(f, rest);
    case DoubleWidth(_) => ParseWireEsc(f, rest);
    case LargeFont(_) => ParseWireEsc(f, rest);
    case AnkFont(_) => ParseWireEsc(f, rest);
    case LineSpacing(_) => ParseWireEsc(f, rest);
    case PrintDirection(_) => ParseWireEsc(f, rest);
    case PaperFeed(_) => ParseWireEsc(f, rest);
    case InterCharacterSpace(_) => ParseWireEsc(f, rest);
    case PrintPosition(_) => ParseWireEsc(f, rest);
    case Script(_) => ParseWireEsc(f, rest);
    case QuadrupleSize(_) =>
    case Enlargement(_, _) =>
    case EnlargedQr(_) =>
    case BarCodeHeight(_) =>
    case BarCodeBarSize(_, _) =>
  }

  /** The three-byte ESC commands. */
  lemma ParseWireEsc(f: Frame, rest: seq<byte>)
    requires WellFormed(f) 
    requires f.DoubleHeight? || f.DoubleWidth? || f.LargeFont? || f.AnkFont? || f.LineSpacing?
      || f.PrintDirection? || f.PaperFeed? || f.InterCharacterSpace? || f.PrintPosition? || f.Script?
    ensures ReadEsc(Wire(f) + rest) == Some((f, 3))
  {
    var b := Wire(f) + rest;
    assert b[..3] == Wire(f);
  }

  lemma ParseWireQr(level: byte, data: seq<byte>, rest: seq<byte>)
    requires WellFormed(QrCode(level, data)) 
    ensures ReadGs(Wire(QrCode(level, data)) + rest) == Some((QrCode(level, data), 4 + |data|))
  {
    var b := Wire(QrCode(level, data)) + rest;
    assert b[4..4 + |data|] == data;
  }

  lemma ParseWireBarCode(kind: byte, data: seq<byte>, rest: seq<byte>)
    requires WellFormed(BarCode(kind, data)) 
    ensures ReadGs(Wire(BarCode(kind, data)) + rest) == Some((BarCode(kind, data), 4 + |data|))
  {
    var b := Wire(BarCode(kind, data)) + rest;
    assert b[3..] == data + [NUL] + rest;
    FindNulAfter(data, rest);
    assert b[3..3 + |data|] == data;
  }

  lemma ParseWireBitmap(mode: byte, lines: int, data: seq<byte>, rest: seq<byte>)
    requires WellFormed(Bitmap(mode, lines, data)) 
    ensures ReadFs(Wire(Bitmap(mode, lines, data)) + rest) == Some((Bitmap(mode, lines, data), 5 + |data|))
  {
    var b := Wire(Bitmap(mode, lines, data)) + rest;
    WordSplitExact(lines);
    assert b[3] as int * 0x100 + b[4] as int == lines;
    assert b[5..5 + |data|] == data;
  }

  /** A sequence of well-formed frames is read back as exactly that sequence. */
  lemma {:induction false} ParseWireAll(fs: seq<Frame>)
    requires AllWellFormed(fs)
    ensures ParseAll(WireAll(fs)) == Some(fs)
  {
    if |fs| > 0 {
      var b := WireAll(fs);
      ParseWire(fs[0], WireAll(fs[1..]));
      assert b[|Wire(fs[0])|..] == WireAll(fs[1..]);
      ParseWireAll(fs[1..]);
      assert [fs[0]] + fs[1..] == fs;
    }
  }
}
