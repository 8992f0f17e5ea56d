/**
 * Text payloads. `printf`, `printQRCode` and `printBarCode` hand the UART
 * `s.encode()`, which in MicroPython is UTF-8. A Dafny `char` is a Unicode
 * scalar value, so `EncodeChar` is the UTF-8 form of one code point and
 * `Encode` concatenates them.
 */
module Text {
  import opened Bytes

  /** Every character is a 7-bit ASCII character. */
  predicate IsAscii(s: string) {
    forall i :: 0 <= i < |s| ==> s[i] as int < 0x80
  }

  /** The UTF-8 encoding of one Unicode scalar value. */
  function EncodeChar(c: char): (r: seq<byte>)
    ensures 1 <= |r| <= 4
    ensures |r| == 1 <==> c as int < 0x80
    ensures c as int < 0x80 ==> r == [c as int]
    ensures 0 in r <==> c == '\0'
  {
    var n := c as int;
    if n < 0x80 then [n]
    else if n < 0x800 then [0xC0 + n / 0x40, 0x80 + n % 0x40]
    else if n < 0x1_0000 then [0xE0 + n / 0x1000, 0x80 + n / 0x40 % 0x40, 0x80 + n % 0x40]
    else [0xF0 + n / 0x4_0000, 0x80 + n / 0x1000 % 0x40, 0x80 + n / 0x40 % 0x40, 0x80 + n % 0x40]
  }

  /** `s.encode()`: the characters' encodings, in order. */
  function Encode(s: string): (r: seq<byte>)
    ensures |s| <= |r| <= 4 * |s|
  {
    if |s| == 0 then [] else EncodeChar(s[0]) + Encode(s[1..])
  }

  /** Encoding distributes over concatenation, so text may be sent in pieces. */
  lemma {:induction false} EncodeAppend(a: string, b: string)
    ensures Encode(a + b) == Encode(a) + Encode(b)
  {
    if |a| == 0 {
      assert a + b == b;
    } else {
      assert (a + b)[1..] == a[1..] + b;
      EncodeAppend(a[1..], b);
    }
  }

  /** ASCII text is sent as one byte per character, the character's code. */
  lemma {:induction false} EncodeAscii(s: string)
    requires IsAscii(s)
    ensures |Encode(s)| == |s|
    ensures forall i :: 0 <= i < |s| ==> Encode(s)[i] == s[i] as int
  {
    if |s| > 0 {
      assert IsAscii(s[1..]) by {
        forall i | 0 <= i < |s[1..]| ensures s[1..][i] as int < 0x80 {
          assert s[1..][i] == s[i + 1];
        }
      }
      EncodeAscii(s[1..]);
    }
  }

  /** The byte count equals the character count exactly when the text is ASCII. */
  lemma {:induction false} EncodeLengthIsCharCount(s: string)
    ensures |Encode(s)| == |s| <==> IsAscii(s)
  {
    if |s| > 0 {
      EncodeLengthIsCharCount(s[1..]);
      if IsAscii(s) {
        EncodeAscii(s);
      } else if s[0] as int < 0x80 {
        assert !IsAscii(s[1..]) by {
          var i :| 0 <= i < |s| && s[i] as int >= 0x80;
          assert s[1..][i - 1] == s[i];
        }
      }
    }
  }

  /** The encoding holds a zero byte exactly when the text holds a NUL character. */
  lemma {:induction false} EncodeNulFree(s: string)
    ensures 0 !in Encode(s) <==> '\0' !in s
  {
    if |s| > 0 {
      EncodeNulFree(s[1..]);
      assert s == [s[0]] + s[1..];
    }
  }
}
