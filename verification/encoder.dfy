/**
 * The command encoder of class `AS289R2_m`: one function per method, giving
 * the bytes that method writes to the UART. Methods the driver writes with
 * `putc` are built from `Putc`; methods that write a byte literal return the
 * literal. Each contract places the bytes in the printer's command framing
 * (`Protocol.Wire`) or relates them to the method they abbreviate.
 */
module Encoder {
  import opened Bytes
  import opened Text
  import opened Protocol
  import Codes
  import Wrappers

  /** `putc`: the one byte `value`, which `to_bytes(1, "big")` needs in 0..255. */
  function Putc(value: byte): (r: seq<byte>)
    ensures |r| == 1 && r[0] == value
  {
    [value]
  }

  /** `printf`: the encoded text, sent verbatim without any framing. */
  function Printf(s: string): (r: seq<byte>)
    ensures IsAscii(s) ==> |r| == |s| && forall i :: 0 <= i < |s| ==> r[i] == s[i] as int
  {
    if IsAscii(s) then EncodeAscii(s); Encode(s) else Encode(s)
  }

  /** `initialize`: ESC @, the printer reset. */
  function Initialize(): (r: seq<byte>)
    ensures r == Wire(Reset)
  {
    Putc(ESC) + Putc(0x40)
  }

  /** `putLineFeed`: one carriage return per requested line, none for a count below one. */
  function PutLineFeed(lines: int): (r: seq<byte>)
    ensures |r| == if lines > 0 then lines else 0
    ensures forall i :: 0 <= i < |r| ==> r[i] == CR
    decreases lines
  {
    if lines <= 0 then [] else PutLineFeed(lines - 1) + [CR]
  }

  /** `clearBuffer`: CAN. */
  function ClearBuffer(): (r: seq<byte>)
    ensures r == Wire(Frame.ClearBuffer)
  {
    Putc(CAN)
  }

  function SetDoubleSizeHeight(): (r: seq<byte>)
    ensures r == Wire(DoubleHeight(true))
  {
    [0x1B, 0x4E, 0x31]
  }

  function ClearDoubleSizeHeight(): (r: seq<byte>)
    ensures r == Wire(DoubleHeight(false))
  {
    [0x1B, 0x4E, 0x30]
  }

  function SetDoubleSizeWidth(): (r: seq<byte>)
    ensures r == Wire(DoubleWidth(true))
  {
    [0x1B, 0x57, 0x31]
  }

  function ClearDoubleSizeWidth(): (r: seq<byte>)
    ensures r == Wire(DoubleWidth(false))
  {
    [0x1B, 0x57, 0x30]
  }

  function SetLargeFont(): (r: seq<byte>)
    ensures r == Wire(LargeFont(true))
  {
    [0x1B, 0x4C, 0x31]
  }

  function ClearLargeFont(): (r: seq<byte>)
    ensures r == Wire(LargeFont(false))
  {
    [0x1B, 0x4C, 0x30]
  }

  /** `setANKFont`: the font byte is sent as given; membership in the ANK set is the caller's affair. */
  function SetAnkFont(font: byte): (r: seq<byte>)
    ensures r == Wire(AnkFont(font))
  {
    Putc(ESC) + Putc(0x68) + Putc(font)
  }

  /** `setKanjiFont`: the font byte is sent as given. */
  function SetKanjiFont(font: byte): (r: seq<byte>)
    ensures r == Wire(KanjiFont(font))
  {
    Putc(DC2) + Putc(0x53) + Putc(font)
  }

  /**
   * `printQRCode`: the length byte is `len(param)`, a count of CHARACTERS,
   * while the payload is the encoded BYTES. The frame is the one the printer
   * reads only for ASCII text; otherwise the length byte falls short.
   */
  function PrintQrCode(level: byte, s: string): (r: seq<byte>)
    requires |s| < 0x100
    ensures |r| == 4 + |Encode(s)|
    ensures r[..4] == [GS, 0x78, level, |s|] && r[4..] == Encode(s)
    ensures r[3] == |r| - 4 <==> IsAscii(s)
    ensures IsAscii(s) ==> WellFormed(QrCode(level, Encode(s))) && r == Wire(QrCode(level, Encode(s)))
  {
    EncodeLengthIsCharCount(s);
    Putc(GS) + Putc(0x78) + Putc(level) + Putc(|s|) + Encode(s)
  }

  /**
   * `printQRCode` as the command format intends it: the length byte is the
   * payload's byte count, so the call is always exactly one QR frame.
   */
  function PrintQrCodeByByteCount(level: byte, s: string): (r: seq<byte>)
    requires |Encode(s)| < 0x100
    ensures WellFormed(QrCode(level, Encode(s))) && r == Wire(QrCode(level, Encode(s)))
  {
    Putc(GS) + Putc(0x78) + Putc(level) + Putc(|Encode(s)|) + Encode(s)
  }

  /** On ASCII text the call as written and the byte-count form send the same bytes. */
  lemma ByteCountAgreesOnAscii(level: byte, s: string)
    requires |s| < 0x100
    ensures |Encode(s)| < 0x100 ==> (PrintQrCode(level, s) == PrintQrCodeByByteCount(level, s) <==> IsAscii(s))
  {
    EncodeLengthIsCharCount(s);
    if |Encode(s)| < 0x100 && PrintQrCode(level, s) == PrintQrCodeByByteCount(level, s) {
      assert PrintQrCode(level, s)[3] == PrintQrCodeByByteCount(level, s)[3];
    }
  }

  /** The byte-count form is read back as its QR frame, whatever follows it. */
  lemma ByteCountQrReadsBack(level: byte, s: string, rest: seq<byte>)
    requires |Encode(s)| < 0x100
    ensures var r := PrintQrCodeByByteCount(level, s);
      ParseFrame(r + rest) == Wrappers.Some((QrCode(level, Encode(s)), |r|))
  {
    ParseWire(QrCode(level, Encode(s)), rest);
  }

  function SetEnlargedQrCode(): (r: seq<byte>)
    ensures r == Wire(EnlargedQr(true))
  {
    Putc(GS) + Putc(0x79) + Putc(0x31)
  }

  function ClearEnlargedQrCode(): (r: seq<byte>)
    ensures r == Wire(EnlargedQr(false))
  {
    Putc(GS) + Putc(0x79) + Putc(0x30)
  }

  /**
   * `printBarCode`: GS k, the symbology byte, the encoded text and a NUL
   * terminator. The printer finds the end at the first zero byte, so the frame
   * is well formed exactly when the text holds no NUL character.
   */
  function PrintBarCode(kind: byte, s: string): (r: seq<byte>)
    ensures |r| == 4 + |Encode(s)| && r[|r| - 1] == NUL
    ensures r[..3] == [GS, 0x6B, kind] && r[3..|r| - 1] == Encode(s)
    ensures WellFormed(BarCode(kind, Encode(s))) <==> '\0' !in s
    ensures '\0' !in s ==> r == Wire(BarCode(kind, Encode(s)))
  {
    EncodeNulFree(s);
    Putc(GS) + Putc(0x6B) + Putc(kind) + Encode(s) + Putc(NUL)
  }

  /** `for i in range(count): putc(image[i])`: the first `count` image bytes. */
  function ImageBytes(image: seq<byte>, count: int): (r: seq<byte>)
    requires count <= |image|
    ensures r == image[..if count > 0 then count else 0]
    decreases count
  {
    if count <= 0 then [] else ImageBytes(image, count - 1) + Putc(image[count - 1])
  }

  /**
   * `printBitmapImage`: FS *, the mode, then the line count as two bytes
   * `(lines >> 8) & 0xFF`, `lines & 0xFF`. Mode 0x61 stops there and never
   * touches `image`; any other mode sends the first `48 * lines` image bytes
   * and ignores the rest of a longer buffer.
   */
  function PrintBitmapImage(mode: byte, lines: int, image: seq<byte>): (r: seq<byte>)
    requires mode == PrintBufferMode || LineBytes * lines <= |image|
    ensures |r| == 5 + if mode == PrintBufferMode || lines <= 0 then 0 else LineBytes * lines
    ensures r[..5] == [FS, 0x2A, mode, HighByte(lines), LowByte(lines)]
    ensures mode == PrintBufferMode ==> |r| == 5
    ensures mode != PrintBufferMode ==> r[5..] == image[..if lines > 0 then LineBytes * lines else 0]
    ensures 0 <= lines < 0x1_0000 ==> HighByte(lines) * 0x100 + LowByte(lines) == lines
    ensures 0 <= lines < 0x1_0000 ==>
      var f := Bitmap(mode, lines, r[5..]);
      WellFormed(f) && r == Wire(f)
  {
    WordSplitExact(lines);
    var header := Putc(FS) + Putc(0x2A) + Putc(mode) + Putc(HighByte(lines)) + Putc(LowByte(lines));
    if mode == PrintBufferMode then header else header + ImageBytes(image, LineBytes * lines)
  }

  /** `setLineSpaceing`. */
  function SetLineSpacing(space: byte): (r: seq<byte>)
    ensures r == Wire(LineSpacing(space))
  {
    Putc(ESC) + Putc(0x33) + Putc(space)
  }

  /** `defaultLineSpaceing`: the literal ESC 3 4, which is line spacing 4. */
  function DefaultLineSpacing(): (r: seq<byte>)
    ensures r == SetLineSpacing(4)
  {
    [0x1B, 0x33, 0x04]
  }

  function SetPrintDirection(direction: byte): (r: seq<byte>)
    ensures r == Wire(PrintDirection(direction))
  {
    Putc(ESC) + Putc(0x49) + Putc(direction)
  }

  function PutPaperFeed(space: byte): (r: seq<byte>)
    ensures r == Wire(PaperFeed(space))
  {
    Putc(ESC) + Putc(0x4A) + Putc(space)
  }

  function SetInterCharacterSpace(space: byte): (r: seq<byte>)
    ensures r == Wire(InterCharacterSpace(space))
  {
    Putc(ESC) + Putc(0x20) + Putc(space)
  }

  /** `defaultInterCharacterSpace`: the literal ESC SP 1. */
  function DefaultInterCharacterSpace(): (r: seq<byte>)
    ensures r == SetInterCharacterSpace(1)
  {
    [0x1B, 0x20, 0x01]
  }

  function PutPrintPosition(position: byte): (r: seq<byte>)
    ensures r == Wire(PrintPosition(position))
  {
    Putc(ESC) + Putc(0x6C) + Putc(position)
  }

  function SetScript(mode: byte): (r: seq<byte>)
    ensures r == Wire(Script(mode))
  {
    Putc(ESC) + Putc(0x73) + Putc(mode)
  }

  /** `clearScript`: the literal ESC s '0' (0x30, not the cancel code 0). */
  function ClearScript(): (r: seq<byte>)
    ensures r == SetScript(0x30)
  {
    [0x1B, 0x73, 0x30]
  }

  function SetQuadrupleSize(): (r: seq<byte>)
    ensures r == Wire(QuadrupleSize(true))
  {
    [0x1C, 0x57, 0x31]
  }

  function ClearQuadrupleSize(): (r: seq<byte>)
    ensures r == Wire(QuadrupleSize(false))
  {
    [0x1C, 0x57, 0x30]
  }

  function SetEnlargement(width: byte, height: byte): (r: seq<byte>)
    ensures r == Wire(Enlargement(width, height))
  {
    Putc(FS) + Putc(0x65) + Putc(width) + Putc(height)
  }

  /** `clearEnlargement`: the literal FS e 1 1, which is enlargement 0x31 by 0x31. */
  function ClearEnlargement(): (r: seq<byte>)
    ensures r == SetEnlargement(0x31, 0x31)
  {
    [0x1C, 0x65, 0x31, 0x31]
  }

  function SetBarCodeHeight(height: byte): (r: seq<byte>)
    ensures r == Wire(BarCodeHeight(height))
  {
    Putc(GS) + Putc(0x68) + Putc(height)
  }

  /** `defaultBarCodeHeight`: the literal GS h 0x50. */
  function DefaultBarCodeHeight(): (r: seq<byte>)
    ensures r == SetBarCodeHeight(0x50)
  {
    [0x1D, 0x68, 0x50]
  }

  function SetBarCodeBarSize(narrow: byte, wide: byte): (r: seq<byte>)
    ensures r == Wire(BarCodeBarSize(narrow, wide))
  {
    Putc(GS) + Putc(0x77) + Putc(narrow) + Putc(wide)
  }

  /** `defaultBarCodeBarSize`: the literal GS w 2 5. */
  function DefaultBarCodeBarSize(): (r: seq<byte>)
    ensures r == SetBarCodeBarSize(2, 5)
  {
    [0x1D, 0x77, 0x02, 0x05]
  }

  // ---- Relations between the methods ----

  /** `on` and `off` are the same command, ending in the on byte and the off byte. */
  predicate IsSwitchPair(on: seq<byte>, off: seq<byte>) {
    && |on| == |off| > 0
    && on[..|on| - 1] == off[..|off| - 1]
    && on[|on| - 1] == ON && off[|off| - 1] == OFF
  }

  /** Every set/clear pair of the driver differs only in its final 0x31 / 0x30. */
  lemma SetClearPairsDifferInLastByte()
    ensures IsSwitchPair(SetDoubleSizeHeight(), ClearDoubleSizeHeight())
    ensures IsSwitchPair(SetDoubleSizeWidth(), ClearDoubleSizeWidth())
    ensures IsSwitchPair(SetLargeFont(), ClearLargeFont())
    ensures IsSwitchPair(SetEnlargedQrCode(), ClearEnlargedQrCode())
    ensures IsSwitchPair(SetQuadrupleSize(), ClearQuadrupleSize())
  {
  }

  /**
   * `clearScript` sends the character '0' (0x30), not SCRIPT_CANCEL (0): the
   * two ways of leaving script mode put different bytes on the wire.
   */
  lemma ClearScriptIsNotScriptCancel()
    ensures ClearScript() != SetScript(Codes.ScriptModeCode(Codes.ScriptCancel))
    ensures SetScript(Codes.ScriptModeCode(Codes.ScriptCancel))[2] == 0x00
  {
  }

  /** A font command carries its table's code, and the font is recovered from the byte sent. */
  lemma FontCommandsNameTheirFont(a: Codes.AnkFont, k: Codes.KanjiFont)
    ensures Codes.AnkFontOfCode(SetAnkFont(Codes.AnkFontCode(a))[2]) == Wrappers.Some(a)
    ensures Codes.KanjiFontOfCode(SetKanjiFont(Codes.KanjiFontCode(k))[2]) == Wrappers.Some(k)
  {
  }

  /** In mode 0x61 the image is never read: any two buffers give the same bytes. */
  lemma PrintBufferModeIgnoresImage(lines: int, a: seq<byte>, b: seq<byte>)
    ensures PrintBitmapImage(PrintBufferMode, lines, a) == PrintBitmapImage(PrintBufferMode, lines, b)
  {
    var ra, rb := PrintBitmapImage(PrintBufferMode, lines, a), PrintBitmapImage(PrintBufferMode, lines, b);
    assert ra == ra[..5] && rb == rb[..5];
  }

  /** Bytes past `48 * lines` are silently dropped: extending the buffer changes nothing. */
  lemma ExtraImageBytesIgnored(mode: byte, lines: int, image: seq<byte>, extra: seq<byte>)
    requires mode == PrintBufferMode || LineBytes * lines <= |image|
    ensures PrintBitmapImage(mode, lines, image + extra) == PrintBitmapImage(mode, lines, image)
  {
    var r1, r2 := PrintBitmapImage(mode, lines, image + extra), PrintBitmapImage(mode, lines, image);
    if mode != PrintBufferMode {
      var n := if lines > 0 then LineBytes * lines else 0;
      assert (image + extra)[..n] == image[..n];
      assert r1 == r1[..5] + r1[5..];
      assert r2 == r2[..5] + r2[5..];
    } else {
      assert r1 == r1[..5] && r2 == r2[..5];
    }
  }

  /** Worked cases: line feeds. */
  lemma LineFeedExamples()
    ensures PutLineFeed(0) == [] && PutLineFeed(-2) == []
    ensures PutLineFeed(3) == [0x0D, 0x0D, 0x0D]
  {
  }

  /** Worked case: a buffer-only print of ten lines sends the header alone. */
  lemma BufferPrintExample(image: seq<byte>)
    ensures PrintBitmapImage(0x61, 10, image) == [0x1C, 0x2A, 0x61, 0x00, 0x0A]
  {
    var r := PrintBitmapImage(0x61, 10, image);
    assert r == r[..5];
  }

  /** Worked case: a two-line line print sends the header and all 96 image bytes. */
  lemma LinePrintExample(image: seq<byte>)
    requires |image| == 96
    ensures PrintBitmapImage(0x65, 2, image) == [0x1C, 0x2A, 0x65, 0x00, 0x02] + image
  {
    var r := PrintBitmapImage(0x65, 2, image);
    assert r == r[..5] + r[5..];
    assert image[..96] == image;
  }

  /** Barcode text in ASCII goes out as its character codes between the header and the NUL. */
  lemma AsciiBarCode(kind: byte, s: string)
    requires IsAscii(s)
    ensures var r := PrintBarCode(kind, s);
      && |r| == |s| + 4
      && r[..3] == [GS, 0x6B, kind]
      && (forall i :: 0 <= i < |s| ==> r[3 + i] == s[i] as int)
      && r[|s| + 3] == NUL
  {
    EncodeAscii(s);
  }

  /** QR text in ASCII: the length byte is the payload's byte count, and the payload is the character codes. */
  lemma {:induction false} AsciiQrCode(level: byte, s: string)
    requires |s| < 0x100 && IsAscii(s)
    ensures var r := PrintQrCode(level, s);
      && |r| == |s| + 4
      && r[..4] == [GS, 0x78, level, |s|]
      && (forall i :: 0 <= i < |s| ==> r[4 + i] == s[i] as int)
  {
    EncodeAscii(s);
  }

  /** Worked case: the QR call of the demo program, 22 ASCII characters. */
  lemma QrCodeExample()
    ensures var r := PrintQrCode(Codes.QrErrorLevelCode(Codes.LevelM), "http://www.nada.co.jp/");
      r[..4] == [0x1D, 0x78, 0x4D, 22] && |r| == 4 + 22
  {
    var url := "http://www.nada.co.jp/";
    assert |url| == 22;
    assert IsAscii(url);
    AsciiQrCode(0x4D, url);
  }
}
