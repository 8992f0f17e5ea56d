# AS-289R2 thermal printer driver — a Dafny model

`AS289R2_m` drives the AS-289R2 thermal printer shield over a write-only
UART. Every printer operation becomes a fixed escape-code byte sequence, and
the driver writes it with `putc` (one byte via `int.to_bytes(1, "big")`) or
with a literal `bytes` write. This project models that command encoder and
proves properties of it.

Layout (one module per file):

- `bytes.dfy` — `Bytes`: `byte` is the subset type of `int` in 0..255, and a
  transmission is a `seq<byte>`. `HighByte`/`LowByte` are Python's
  `(x >> 8) & 0xFF` and `x & 0xFF`. Dafny's Euclidean `/` and `%` by a positive divisor agree
  with Python's floor semantics for every integer, negative ones included.
- `text.dfy` — `Text`: `Encode` is `str.encode()`, i.e. UTF-8 applied to each
  Unicode scalar value, with the ASCII case proved byte for byte.
- `codes.dfy` — `Codes`: one closed datatype per option set: Kanji font, ANK
  font, QR error level, barcode symbology and script mode, plus the bitmap
  modes and print directions the method comments document. Each set has a
  `…Code` function and an inverse `…OfCode` recogniser. The sets stay separate
  because the Kanji and ANK codes overlap. The defaults are `KanjiDefault`
  (24x24) and `AnkDefault` (12x24).
- `protocol.dfy` — `Protocol`: the printer's command framing. `Frame` has one
  constructor per device command and `Wire` gives its bytes. `ParseFrame`/`ParseAll`
  read a byte stream back into frames, sequentially, the way the printer does.
  The reader is proved to invert `Wire` (`ParseWireAll`). It is the reference
  against which the encoder is stated.
- `encoder.dfy` — `Encoder`: one pure function per `AS289R2_m` method,
  returning the bytes that method writes. Methods built on `putc` are built on
  `Putc` here too.
- `driver.dfy` — `Driver`: the object itself. `Command` has one constructor
  per method call. `Valid` holds when a call's QR text fits its length byte
  and its image buffer is long enough. `Printer(log)` is the UART modelled as an
  append-only byte log. `Send`/`Run` perform calls, and `Open` is the
  constructor. The file's main theorems: a session's log is the initial reset
  followed by every call's bytes, in call order. For calls the printer can
  delimit (`Framed`), the printer reads the log back as exactly those commands.

The UART is a parameter-free sink: writes never fail, and nothing is read
back. The QR length byte is where the code and the command format disagree;
see "## Findings".

## Model

| member | source | states |
|---|---|---|
| Bytes.HighByte | AS289R2_m.py:302 | `(lines >> 8) & 0xFF`: a byte for every integer; for a 16-bit count it is the number of whole 256-line blocks, `r*256 <= lines < r*256 + 256` |
| Bytes.LowByte | AS289R2_m.py:303 | `(lines >> 0) & 0xFF`: the byte congruent to `lines` modulo 256, for every integer, negative ones included |
| Bytes.WordSplit | AS289R2_m.py:302-303 | the two count bytes carry the line count modulo 65536, high byte first |
| Bytes.WordSplitExact | AS289R2_m.py:302-303 | `hi*256 + lo == lines` holds if and only if `0 <= lines < 65536` |
| Bytes.WordJoin | AS289R2_m.py:302-303 | two bytes joined big-endian split back into the same high and low byte |
| Text.EncodeChar | AS289R2_m.py:474 | one character becomes 1 to 4 bytes; exactly one byte, its own code, iff it is below 128; a zero byte appears iff the character is NUL |
| Text.Encode | AS289R2_m.py:474 | `s.encode()` yields at least one and at most four bytes per character |
| Text.EncodeAppend | AS289R2_m.py:474 | encoding a concatenation is the concatenation of the encodings |
| Text.EncodeAscii | AS289R2_m.py:474 | ASCII text is sent as one byte per character, equal to the character's code |
| Text.EncodeLengthIsCharCount | AS289R2_m.py:254-260 | the byte count of the encoding equals the character count if and only if the text is ASCII |
| Text.EncodeNulFree | AS289R2_m.py:286-287 | the encoding contains a zero byte if and only if the text contains a NUL character |
| Codes.KanjiFontCode | AS289R2_m.py:81-85 | returns `KANJI_24x24 = 0x30` and `KANJI_16x16 = 0x31`; the default `KanjiDefault` is 24x24 (no contract: its inverse and injectivity are stated by the rows below) |
| Codes.KanjiFontOfCode | AS289R2_m.py:81-83 | inverse of the Kanji table: a byte names a Kanji font exactly when that font's code is the byte |
| Codes.AnkFontCode | AS289R2_m.py:90-98 | returns `ANK_8x16 = 0x30`, `ANK_12x24 = 0x31`, `ANK_16x16 = 0x32`, `ANK_24x24 = 0x33`; the default `AnkDefault` is 12x24 (no contract) |
| Codes.AnkFontOfCode | AS289R2_m.py:90-96 | inverse of the ANK table |
| Codes.QrErrorLevelCode | AS289R2_m.py:103-109 | returns L `0x4C`, M `0x4D`, Q `0x51`, H `0x48` (no contract) |
| Codes.QrErrorLevelOfCode | AS289R2_m.py:103-109 | inverse of the QR level table |
| Codes.SymbologyCode | AS289R2_m.py:114-124 | returns UPC-A `0x30`, JAN13 `0x32`, JAN8 `0x33`, CODE39 `0x34`, ITF `0x35`, CODABAR `0x36` (no contract) |
| Codes.SymbologyOfCode | AS289R2_m.py:114-124 | inverse of the symbology table |
| Codes.ScriptModeCode | AS289R2_m.py:129-133 | returns cancel `0`, super `1`, sub `2` (no contract) |
| Codes.ScriptModeOfCode | AS289R2_m.py:129-133 | inverse of the script mode table |
| Codes.BitmapModeCode | AS289R2_m.py:293 | returns print buffer `0x61`, register `0x62`, register then print `0x63`, print then register `0x64`, line print `0x65` (no contract) |
| Codes.BitmapModeOfCode | AS289R2_m.py:293 | inverse of the bitmap mode table |
| Codes.PrintDirectionCode | AS289R2_m.py:331 | returns lister `0` and texter `1` (no contract) |
| Codes.PrintDirectionOfCode | AS289R2_m.py:331 | inverse of the print direction table |
| Codes.CodesAreInjective | AS289R2_m.py:81-133 | within each option set, distinct members have distinct codes |
| Codes.KanjiAndAnkCodesOverlap | AS289R2_m.py:81-98 | Kanji 24x24 and ANK 8x16 share 0x30, and Kanji 16x16 and ANK 12x24 share 0x31, so the sets cannot be merged; the defaults are 0x30 and 0x31 |
| Protocol.SwitchOf | AS289R2_m.py:189-225 | an on/off argument byte is read as on (0x31) or off (0x30), inverting `Switch` |
| Protocol.Wire | AS289R2_m.py:165-458 | every well-formed command frame is a non-empty sequence of bytes |
| Protocol.WireAll | AS289R2_m.py:165-458 | a sequence of well-formed frames is sent as at least one byte per frame |
| Protocol.WireAllCons | AS289R2_m.py:165-458 | a frame followed by frames is sent as that frame's bytes, then theirs |
| Protocol.WireAllAppend | AS289R2_m.py:165-458 | frames are sent back to back: the bytes of `a + b` are those of `a` then those of `b` |
| Protocol.FindNul | AS289R2_m.py:286-287 | finds the first zero byte, which ends a barcode payload, or reports that there is none |
| Protocol.ReadEsc | AS289R2_m.py:165-389 | an ESC command that is read consumes exactly the wire form of a well-formed frame |
| Protocol.ReadFs | AS289R2_m.py:296-422 | an FS command (quadruple size, enlargement, bitmap) that is read consumes exactly the wire form of a well-formed frame |
| Protocol.ReadGs | AS289R2_m.py:253-458 | a GS command (QR, barcode, barcode size) that is read consumes exactly the wire form of a well-formed frame |
| Protocol.ReadBarCode | AS289R2_m.py:280-287 | a barcode that is read runs up to and including the first zero byte and is a well-formed frame |
| Protocol.ReadQr | AS289R2_m.py:253-260 | a QR command that is read takes exactly as many payload bytes as its length byte says |
| Protocol.ParseFrame | AS289R2_m.py:165-458 | reading one command consumes a non-empty prefix that is exactly the wire form of the well-formed frame returned |
| Protocol.ParseAll | AS289R2_m.py:165-458 | a stream that is read completely is exactly the wire form of the frames returned |
| Protocol.FindNulAfter | AS289R2_m.py:286-287 | a NUL-free payload followed by NUL is ended exactly at that NUL |
| Protocol.ParseWire | AS289R2_m.py:165-458 | a well-formed frame followed by anything is read back as itself, consuming exactly its bytes |
| Protocol.ParseWireEsc | AS289R2_m.py:189-225 | the three-byte ESC commands are read back as themselves |
| Protocol.ParseWireQr | AS289R2_m.py:253-260 | a QR frame whose length byte counts its payload is read back as itself |
| Protocol.ParseWireBarCode | AS289R2_m.py:280-287 | a NUL-free barcode frame is read back as itself, ending at its terminator |
| Protocol.ParseWireBitmap | AS289R2_m.py:296-308 | a bitmap frame with a 16-bit line count and `48*lines` data bytes (none in mode 0x61) is read back as itself |
| Protocol.ParseWireAll | AS289R2_m.py:165-458 | any sequence of well-formed frames is read back as exactly that sequence |
| Encoder.Putc | AS289R2_m.py:465-466 | `putc` sends exactly one byte, `value` |
| Encoder.Printf | AS289R2_m.py:473-474 | `printf` sends the encoded text unframed; ASCII text is one byte per character, equal to its code |
| Encoder.Initialize | AS289R2_m.py:165-167 | `initialize` sends the reset command ESC @ |
| Encoder.PutLineFeed | AS289R2_m.py:174-176 | `putLineFeed(n)` sends exactly `max(n, 0)` bytes, every one 0x0D |
| Encoder.ClearBuffer | AS289R2_m.py:182-183 | `clearBuffer` sends the CAN command |
| Encoder.SetDoubleSizeHeight | AS289R2_m.py:189-190 | sends the double-height command switched on |
| Encoder.ClearDoubleSizeHeight | AS289R2_m.py:196-197 | sends the double-height command switched off |
| Encoder.SetDoubleSizeWidth | AS289R2_m.py:203-204 | sends the double-width command switched on |
| Encoder.ClearDoubleSizeWidth | AS289R2_m.py:210-211 | sends the double-width command switched off |
| Encoder.SetLargeFont | AS289R2_m.py:217-218 | sends the large-font command switched on |
| Encoder.ClearLargeFont | AS289R2_m.py:224-225 | sends the large-font command switched off |
| Encoder.SetAnkFont | AS289R2_m.py:232-235 | sends the ANK font command carrying the given byte unchanged |
| Encoder.SetKanjiFont | AS289R2_m.py:242-245 | sends the Kanji font command carrying the given byte unchanged |
| Encoder.PrintQrCode | AS289R2_m.py:253-260 | sends GS x, the level, `len(param)`, then the encoded bytes; the length byte equals the payload byte count iff the text is ASCII, and only then is the whole call one QR frame |
| Encoder.PrintQrCodeByByteCount | AS289R2_m.py:253-260 | the intended QR call, with the payload's byte count as length byte, is always exactly one well-formed QR frame |
| Encoder.ByteCountAgreesOnAscii | AS289R2_m.py:253-260 | the call as written and the byte-count form send the same bytes if and only if the text is ASCII |
| Encoder.ByteCountQrReadsBack | AS289R2_m.py:253-260 | the byte-count form is read back as its QR frame, consuming exactly its bytes, whatever follows |
| Encoder.SetEnlargedQrCode | AS289R2_m.py:263-266 | sends the enlarged-QR command switched on |
| Encoder.ClearEnlargedQrCode | AS289R2_m.py:269-272 | sends the enlarged-QR command switched off |
| Encoder.PrintBarCode | AS289R2_m.py:280-287 | sends GS k, the symbology, the encoded bytes and a final 0, `4 + |Encode(s)|` bytes in all; the frame is well formed iff the text holds no NUL |
| Encoder.ImageBytes | AS289R2_m.py:307-308 | the loop over `range(count)` sends exactly the first `max(count, 0)` image bytes, in order |
| Encoder.PrintBitmapImage | AS289R2_m.py:296-308 | always starts FS * mode hi lo; mode 0x61 sends only those 5 bytes; any other mode follows them with exactly `image[..48*lines]`; for a 16-bit count `hi*256+lo == lines` and the call is one bitmap frame |
| Encoder.SetLineSpacing | AS289R2_m.py:315-318 | sends the line-spacing command carrying `space` |
| Encoder.DefaultLineSpacing | AS289R2_m.py:324-325 | equals `SetLineSpacing(4)` |
| Encoder.SetPrintDirection | AS289R2_m.py:332-335 | sends the print-direction command carrying `direction` |
| Encoder.PutPaperFeed | AS289R2_m.py:342-345 | sends the paper-feed command carrying `space` |
| Encoder.SetInterCharacterSpace | AS289R2_m.py:352-355 | sends the inter-character-space command carrying `space` |
| Encoder.DefaultInterCharacterSpace | AS289R2_m.py:361-362 | equals `SetInterCharacterSpace(1)` |
| Encoder.PutPrintPosition | AS289R2_m.py:369-372 | sends the print-position command carrying `position` |
| Encoder.SetScript | AS289R2_m.py:379-382 | sends the script command carrying `mode` |
| Encoder.ClearScript | AS289R2_m.py:388-389 | equals `SetScript(0x30)` |
| Encoder.SetQuadrupleSize | AS289R2_m.py:395-396 | sends the quadruple-size command switched on |
| Encoder.ClearQuadrupleSize | AS289R2_m.py:402-403 | sends the quadruple-size command switched off |
| Encoder.SetEnlargement | AS289R2_m.py:411-415 | sends the enlargement command carrying width then height |
| Encoder.ClearEnlargement | AS289R2_m.py:421-422 | equals `SetEnlargement(0x31, 0x31)` |
| Encoder.SetBarCodeHeight | AS289R2_m.py:429-432 | sends the barcode-height command carrying `height` |
| Encoder.DefaultBarCodeHeight | AS289R2_m.py:438-439 | equals `SetBarCodeHeight(0x50)` |
| Encoder.SetBarCodeBarSize | AS289R2_m.py:447-451 | sends the bar-size command carrying narrow then wide |
| Encoder.DefaultBarCodeBarSize | AS289R2_m.py:457-458 | equals `SetBarCodeBarSize(2, 5)` |
| Encoder.SetClearPairsDifferInLastByte | AS289R2_m.py:189-225 | each set/clear pair (double height, double width, large font, enlarged QR, quadruple size) differs only in a final 0x31 versus 0x30 |
| Encoder.ClearScriptIsNotScriptCancel | AS289R2_m.py:129 | `clearScript` differs from `setScript(SCRIPT_CANCEL)`, which sends 0x00 |
| Encoder.FontCommandsNameTheirFont | AS289R2_m.py:232-245 | the byte a font command sends is recognised as the font it was given |
| Encoder.PrintBufferModeIgnoresImage | AS289R2_m.py:305 | in mode 0x61 the output does not depend on the image buffer at all |
| Encoder.ExtraImageBytesIgnored | AS289R2_m.py:307-308 | bytes past `48*lines` are silently dropped: appending to the buffer does not change the output |
| Encoder.LineFeedExamples | AS289R2_m.py:174-176 | zero or negative counts send nothing; three sends 0x0D three times |
| Encoder.BufferPrintExample | AS289R2_m.py:296-308 | `(0x61, 10, any image)` sends `1C 2A 61 00 0A` |
| Encoder.LinePrintExample | AS289R2_m.py:296-308 | `(0x65, 2, 96 bytes)` sends `1C 2A 65 00 02` followed by those bytes |
| Encoder.AsciiBarCode | AS289R2_m.py:280-287 | ASCII barcode text is sent as its character codes between the 3-byte header and the final 0 |
| Encoder.AsciiQrCode | AS289R2_m.py:253-260 | ASCII QR text gets header `1D 78 level len`, with `len` its byte count, followed by its character codes |
| Encoder.QrCodeExample | AS289R2_m.py:253-260 | the 22-character URL of the demo gets length byte 22 and 26 bytes in all |
| Driver.Encoding | AS289R2_m.py:165-474 | returns the bytes the corresponding method writes, by dispatch to the `Encoder` function of that method (no contract; `Driver.EncodingIsWire` states its meaning) |
| Driver.Send | AS289R2_m.py:466 | a call only appends: the log keeps every earlier byte and grows by exactly that call's bytes |
| Driver.Open | AS289R2_m.py:144-167 | construction leaves the log equal to exactly `1B 40`, the reset frame |
| Driver.Transcript | AS289R2_m.py:165-474 | returns every call's bytes, in call order (no contract; `Driver.RunAppendsTranscript` and `Driver.TranscriptIsWire` state its meaning) |
| Driver.Run | AS289R2_m.py:165-474 | running calls never changes bytes already in the log |
| Driver.TranscriptAppend | AS289R2_m.py:165-474 | the bytes of calls `a + b` are those of `a` then those of `b` |
| Driver.RunAppendsTranscript | AS289R2_m.py:165-474 | running calls appends exactly their transcript to the log |
| Driver.ConcatValid | AS289R2_m.py:165-474 | the concatenation of two sequences of valid calls is valid |
| Driver.RunInOrder | AS289R2_m.py:165-474 | calls are never reordered or merged: running `a` then `b` is running `a + b`, and every byte of `a` precedes every byte of `b` |
| Driver.AllFramed | AS289R2_m.py:165-474 | every delimitable call is also a valid call |
| Driver.LineFeeds | AS289R2_m.py:174-176 | `putLineFeed(n)` stands for `max(n, 0)` line-feed commands |
| Driver.WireAllSingle | AS289R2_m.py:165-458 | a single frame is sent as its own bytes |
| Driver.LineFeedsAreCarriageReturns | AS289R2_m.py:174-176 | `putLineFeed(n)` is exactly the wire form of `max(n, 0)` line-feed commands |
| Driver.EncodingIsWire | AS289R2_m.py:165-458 | every delimitable call writes exactly the wire form of its well-formed printer commands |
| Driver.IsOneFrame | AS289R2_m.py:165-458 | every delimitable call other than a line feed is exactly one well-formed printer command |
| Driver.QrIsOneFrame | AS289R2_m.py:253-260 | a QR call with ASCII text is one well-formed QR frame |
| Driver.BarCodeIsOneFrame | AS289R2_m.py:280-287 | a barcode call with NUL-free text is one well-formed barcode frame |
| Driver.BitmapIsOneFrame | AS289R2_m.py:296-308 | a bitmap call with a 16-bit line count is one well-formed bitmap frame |
| Driver.SetterIsOneFrame | AS289R2_m.py:232-451 | every call with byte arguments sends them inside one well-formed frame |
| Driver.DefaultIsOneFrame | AS289R2_m.py:324-458 | every default call is one well-formed frame carrying its default argument |
| Driver.FixedIsOneFrame | AS289R2_m.py:165-403 | every argument-free command call is one well-formed frame |
| Driver.TranscriptIsWire | AS289R2_m.py:165-458 | the transcript of delimitable calls is the wire form of their commands, in call order |
| Driver.DeviceReadsTranscript | AS289R2_m.py:165-458 | the printer reads the bytes of delimitable calls back as exactly their commands, in order, with nothing left over |
| Driver.DeviceReadsSession | AS289R2_m.py:144-167 | a whole session is read as the reset from construction followed by every call's commands |
| Driver.QrLengthFallsShort | AS289R2_m.py:253-260 | for non-ASCII QR text the printer's reader stops inside the payload, before the call's last byte |
| Driver.QrLengthCounterexample | AS289R2_m.py:253-260 | `printQRCode(0x4D, "é")` sends `1D 78 4D 01 C3 A9`; the reader takes `C3` as the whole payload and cannot read the stray `A9` |

## Findings

| source | as written | input that shows it | evidently intended | confidence | as-written member | corrected member |
|---|---|---|---|---|---|---|
| AS289R2_m.py:254 | `l = len(param)` puts the character count of the QR text in the length byte, while `param.encode()` sends its UTF-8 bytes; this assumes a Unicode-enabled MicroPython build, where `len(str)` counts characters | `printQRCode(0x4D, "é")` (U+00E9) sends `1D 78 4D 01 C3 A9`: the printer takes `C3` as the whole payload and `A9` is left over | the length byte is the payload's byte count, `len(param.encode())` | not executed | Encoder.PrintQrCode, Driver.QrLengthCounterexample, Driver.QrLengthFallsShort | Encoder.PrintQrCodeByByteCount, Encoder.ByteCountQrReadsBack, Protocol.ParseWireQr |

The `Driver` keeps the call as written, since those are the bytes the
printer receives. `Encoder.ByteCountAgreesOnAscii` shows that the two forms
coincide exactly on ASCII text, which is the case `Driver.Framed` admits.

## Left out

- UART construction (port id, TX pin, baud rate, 8N1 framing) and `__del__`/`close`: hardware I/O. The model replaces the UART with the byte log of `Driver.Printer`, which starts empty.
- Write failures: the model's sink always accepts the bytes. An I/O error that aborts a command part-way is not modelled.
- The `const` helper class and the `sys.modules` replacement: Python metaprogramming that makes module attributes read-only. Native datatypes in `Codes` replace it.
- `main.py`, the demo loop with `while True` and `time.sleep`. Its `Image` module is not part of this model. Its QR and barcode calls appear as worked cases (`Encoder.QrCodeExample`, `Encoder.AsciiBarCode`).
- Encoder.Putc: takes a `byte`. What `int.to_bytes(1, "big")` does outside 0..255 is not visible here, so every byte-valued argument has type `byte`.
- Encoder.PrintQrCode: requires fewer than 256 characters, because `putc(len(param))` would be handed an out-of-range byte.
- Encoder.PrintBitmapImage: requires an image of at least `48*lines` bytes unless the mode is 0x61. With a shorter buffer the source writes the header and part of the image, then fails with an index error. That partial write is not modelled.
- Text.EncodeChar: a Dafny `char` is a Unicode scalar value. A Python string holding a lone surrogate, which `str.encode()` rejects, cannot be represented.
- Driver.Framed: raw `putc` and `printf` output, and printed text in general, are not given frames. The printer's reader is modelled only for the command formats the driver sends. It does not model how the firmware prints text or treats unknown codes.
