/**
 * The option sets of the AS-289R2 command set. Each set is its own closed
 * datatype with a `...Code` function giving the byte the printer expects and
 * a `...OfCode` function that recognises a byte as a member of the set. The
 * sets are kept apart on purpose: Kanji and ANK font codes overlap.
 */
module Codes {
  import opened Bytes
  import opened Wrappers

  // ---- Kanji font size ----

  datatype KanjiFont = Kanji24x24 | Kanji16x16

  const KanjiDefault: KanjiFont := Kanji24x24

  function KanjiFontCode(f: KanjiFont): byte {
    match f
    case Kanji24x24 => 0x30
    case Kanji16x16 => 0x31
  }

  /** The Kanji font a byte names, if any. */
  function KanjiFontOfCode(b: int): (r: Option<KanjiFont>)
    ensures r.Some? ==> KanjiFontCode(r.value) == b
    ensures forall f :: KanjiFontCode(f) == b ==> r == Some(f)
  {
    if b == 0x30 then Some(Kanji24x24)
    else if b == 0x31 then Some(Kanji16x16)
    else None
  }

  // ---- ANK (alphanumeric and kana) font size ----

  datatype AnkFont = Ank8x16 | Ank12x24 | Ank16x16 | Ank24x24

  const AnkDefault: AnkFont := Ank12x24

  function AnkFontCode(f: AnkFont): byte {
    match f
    case Ank8x16 => 0x30
    case Ank12x24 => 0x31
    case Ank16x16 => 0x32
    case Ank24x24 => 0x33
  }

  /** The ANK font a byte names, if any. */
  function AnkFontOfCode(b: int): (r: Option<AnkFont>)
    ensures r.Some? ==> AnkFontCode(r.value) == b
    ensures forall f :: AnkFontCode(f) == b ==> r == Some(f)
  {
    if b == 0x30 then Some(Ank8x16)
    else if b == 0x31 then Some(Ank12x24)
    else if b == 0x32 then Some(Ank16x16)
    else if b == 0x33 then Some(Ank24x24)
    else None
  }

  // ---- QR code error-correction level ----

  datatype QrErrorLevel = LevelL | LevelM | LevelQ | LevelH

  function QrErrorLevelCode(l: QrErrorLevel): byte {
    match l
    case LevelL => 0x4C
    case LevelM => 0x4D
    case LevelQ => 0x51
    case LevelH => 0x48
  }

  /** The error-correction level a byte names, if any. */
  function QrErrorLevelOfCode(b: int): (r: Option<QrErrorLevel>)
    ensures r.Some? ==> QrErrorLevelCode(r.value) == b
    ensures forall l :: QrErrorLevelCode(l) == b ==> r == Some(l)
  {
    if b == 0x4C then Some(LevelL)
    else if b == 0x4D then Some(LevelM)
    else if b == 0x51 then Some(LevelQ)
    else if b == 0x48 then Some(LevelH)
    else None
  }

  // ---- Barcode symbology ----

  datatype Symbology = UpcA | Jan13 | Jan8 | Code39 | Itf | Codabar

  function SymbologyCode(s: Symbology): byte {
    match s
    case UpcA => 0x30
    case Jan13 => 0x32
    case Jan8 => 0x33
    case Code39 => 0x34
    case Itf => 0x35
    case Codabar => 0x36
  }

  /** The barcode symbology a byte names, if any. */
  function SymbologyOfCode(b: int): (r: Option<Symbology>)
    ensures r.Some? ==> SymbologyCode(r.value) == b
    ensures forall s :: SymbologyCode(s) == b ==> r == Some(s)
  {
    if b == 0x30 then Some(UpcA)
    else if b == 0x32 then Some(Jan13)
    else if b == 0x33 then Some(Jan8)
    else if b == 0x34 then Some(Code39)
    else if b == 0x35 then Some(Itf)
    else if b == 0x36 then Some(Codabar)
    else None
  }

  // ---- Script mode ----

  datatype ScriptMode = ScriptCancel | ScriptSuper | ScriptSub

  function ScriptModeCode(m: ScriptMode): byte {
    match m
    case ScriptCancel => 0
    case ScriptSuper => 1
    case ScriptSub => 2
  }

  /** The script mode a byte names, if any. */
  function ScriptModeOfCode(b: int): (r: Option<ScriptMode>)
    ensures r.Some? ==> ScriptModeCode(r.value) == b
    ensures forall m :: ScriptModeCode(m) == b ==> r == Some(m)
  {
    if b == 0 then Some(ScriptCancel)
    else if b == 1 then Some(ScriptSuper)
    else if b == 2 then Some(ScriptSub)
    else None
  }

  // ---- Bitmap transfer mode and print direction (documented, not named constants) ----

  datatype BitmapMode = PrintBuffer | Register | RegisterThenPrint | PrintThenRegister | LinePrint

  function BitmapModeCode(m: BitmapMode): byte {
    match m
    case PrintBuffer => 0x61
    case Register => 0x62
    case RegisterThenPrint => 0x63
    case PrintThenRegister => 0x64
    case LinePrint => 0x65
  }

  /** The bitmap mode a byte names, if any. */
  function BitmapModeOfCode(b: int): (r: Option<BitmapMode>)
    ensures r.Some? ==> BitmapModeCode(r.value) == b
    ensures forall m :: BitmapModeCode(m) == b ==> r == Some(m)
  {
    if b == 0x61 then Some(PrintBuffer)
    else if b == 0x62 then Some(Register)
    else if b == 0x63 then Some(RegisterThenPrint)
    else if b == 0x64 then Some(PrintThenRegister)
    else if b == 0x65 then Some(LinePrint)
    else None
  }

  datatype PrintDirection = Lister | Texter

  function PrintDirectionCode(d: PrintDirection): byte {
    match d
    case Lister => 0
    case Texter => 1
  }

  /** The print direction a byte names, if any. */
  function PrintDirectionOfCode(b: int): (r: Option<PrintDirection>)
    ensures r.Some? ==> PrintDirectionCode(r.value) == b
    ensures forall d :: PrintDirectionCode(d) == b ==> r == Some(d)
  {
    if b == 0 then Some(Lister)
    else if b == 1 then Some(Texter)
    else None
  }

  // ---- Properties of the tables ----

  /** Every set's code function is one-to-one: the byte identifies the member. */
  lemma CodesAreInjective()
    ensures forall f, g :: KanjiFontCode(f) == KanjiFontCode(g) ==> f == g
    ensures forall f, g :: AnkFontCode(f) == AnkFontCode(g) ==> f == g
    ensures forall l, m :: QrErrorLevelCode(l) == QrErrorLevelCode(m) ==> l == m
    ensures forall s, t :: SymbologyCode(s) == SymbologyCode(t) ==> s == t
    ensures forall m, n :: ScriptModeCode(m) == ScriptModeCode(n) ==> m == n
    ensures forall m, n :: BitmapModeCode(m) == BitmapModeCode(n) ==> m == n
    ensures forall d, e :: PrintDirectionCode(d) == PrintDirectionCode(e) ==> d == e
  {
    forall f: KanjiFont, g: KanjiFont | KanjiFontCode(f) == KanjiFontCode(g) ensures f == g {
      assert KanjiFontOfCode(KanjiFontCode(f)) == Some(f);
    }
    forall f: AnkFont, g: AnkFont | AnkFontCode(f) == AnkFontCode(g) ensures f == g {
      assert AnkFontOfCode(AnkFontCode(f)) == Some(f);
    }
    forall l: QrErrorLevel, m: QrErrorLevel | QrErrorLevelCode(l) == QrErrorLevelCode(m) ensures l == m {
      assert QrErrorLevelOfCode(QrErrorLevelCode(l)) == Some(l);
    }
    forall s: Symbology, t: Symbology | SymbologyCode(s) == SymbologyCode(t) ensures s == t {
      assert SymbologyOfCode(SymbologyCode(s)) == Some(s);
    }
    forall m: ScriptMode, n: ScriptMode | ScriptModeCode(m) == ScriptModeCode(n) ensures m == n {
      assert ScriptModeOfCode(ScriptModeCode(m)) == Some(m);
    }
    forall m: BitmapMode, n: BitmapMode | BitmapModeCode(m) == BitmapModeCode(n) ensures m == n {
      assert BitmapModeOfCode(BitmapModeCode(m)) == Some(m);
    }
    forall d: PrintDirection, e: PrintDirection | PrintDirectionCode(d) == PrintDirectionCode(e) ensures d == e {
      assert PrintDirectionOfCode(PrintDirectionCode(d)) == Some(d);
    }
  }

  /**
   * The Kanji and ANK tables reuse the same bytes for different sizes, so a
   * bare byte does not say which font it means: the sets must stay separate.
   */
  lemma KanjiAndAnkCodesOverlap()
    ensures KanjiFontCode(Kanji24x24) == AnkFontCode(Ank8x16)
    ensures KanjiFontCode(Kanji16x16) == AnkFontCode(Ank12x24)
    ensures KanjiFontCode(KanjiDefault) == 0x30 && AnkFontCode(AnkDefault) == 0x31
  {
  }
}
