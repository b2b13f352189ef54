/** Base64 as Go's encoding/base64 reads and writes it: the alphabet of section 4 of
    RFC 4648, line breaks ignored, unused trailing bits ignored. */
module Base64 {
  import opened Wrappers

  type byte = x: int | 0 <= x < 256
  type sextet = x: int | 0 <= x < 64

  function CharOf(v: sextet): char {
    if v < 26 then 'A' + v as char
    else if v < 52 then 'a' + (v - 26) as char
    else if v < 62 then '0' + (v - 52) as char
    else if v == 62 then '+' else '/'
  }

  function SextetOf(c: char): Option<sextet> {
    if 'A' <= c <= 'Z' then Some((c - 'A') as int)
    else if 'a' <= c <= 'z' then Some((c - 'a') as int + 26)
    else if '0' <= c <= '9' then Some((c - '0') as int + 52)
    else if c == '+' then Some(62)
    else if c == '/' then Some(63)
    else None
  }

  lemma CharInverse(v: sextet, c: char)
    ensures SextetOf(CharOf(v)) == Some(v)
    ensures SextetOf(c) == Some(v) ==> c == CharOf(v)
  {
  }

  /** The alphabet in its order: A to Z, a to z, 0 to 9, "+" and "/". */
  lemma Alphabet(v: sextet)
    ensures CharOf(0) == 'A' && CharOf(25) == 'Z' && CharOf(26) == 'a' && CharOf(51) == 'z' && CharOf(52) == '0'
    ensures CharOf(61) == '9' && CharOf(62) == '+' && CharOf(63) == '/'
    ensures v < 61 && v != 25 && v != 51 ==> CharOf(v + 1) as int == CharOf(v) as int + 1
  {
  }

  // Three bytes as four sextets, and back.
  function S1(x: byte): sextet { x / 4 }
  function S2(x: byte, y: byte): sextet { x % 4 * 16 + y / 16 }
  function S3(y: byte, z: byte): sextet { y % 16 * 4 + z / 64 }
  function S4(z: byte): sextet { z % 64 }
  function B1(a: sextet, b: sextet): byte { a * 4 + b / 16 }
  function B2(b: sextet, c: sextet): byte { b % 16 * 16 + c / 4 }
  function B3(c: sextet, d: sextet): byte { c % 4 * 64 + d }

  lemma Recombine(x: byte, y: byte, z: byte)
    ensures B1(S1(x), S2(x, y)) == x && B2(S2(x, y), S3(y, z)) == y && B3(S3(y, z), S4(z)) == z
  {
  }

  /** Both are the same 24 bits, the first byte highest. */
  lemma SameBits(x: byte, y: byte, z: byte)
    ensures 0x1_0000 * x + 0x100 * y + z == 0x4_0000 * S1(x) + 0x1000 * S2(x, y) + 0x40 * S3(y, z) + S4(z)
  {
  }

  /** The test vectors of section 10 of RFC 4648, without their padding. */
  lemma TestVectors()
    ensures Encode([]) == "" && Encode([102]) == "Zg" && Encode([102, 111]) == "Zm8"
    ensures Encode([102, 111, 111]) == "Zm9v" && Encode([102, 111, 111, 98]) == "Zm9vYg"
    ensures Encode([102, 111, 111, 98, 97]) == "Zm9vYmE" && Encode([102, 111, 111, 98, 97, 114]) == "Zm9vYmFy"
  {
    assert [102, 111, 111, 98][3..] == [98];
    assert [102, 111, 111, 98, 97][3..] == [98, 97];
    assert [102, 111, 111, 98, 97, 114][3..] == [98, 97, 114];
  }

  /** Without padding. */
  function Encode(bs: seq<byte>): string {
    if bs == [] then ""
    else if |bs| == 1 then [CharOf(S1(bs[0])), CharOf(S2(bs[0], 0))]
    else if |bs| == 2 then [CharOf(S1(bs[0])), CharOf(S2(bs[0], bs[1])), CharOf(S3(bs[1], 0))]
    else [CharOf(S1(bs[0])), CharOf(S2(bs[0], bs[1])), CharOf(S3(bs[1], bs[2])), CharOf(S4(bs[2]))] + Encode(bs[3..])
  }

  /** The bytes of whole and partial quanta; one left-over character is an error. */
  function Quanta(s: string): Option<seq<byte>> {
    if s == "" then Some([])
    else if |s| == 1 || SextetOf(s[0]).None? || SextetOf(s[1]).None? then None
    else
      var a, b := SextetOf(s[0]).value, SextetOf(s[1]).value;
      if |s| == 2 then Some([B1(a, b)])
      else if SextetOf(s[2]).None? then None
      else
        var c := SextetOf(s[2]).value;
        if |s| == 3 then Some([B1(a, b), B2(b, c)])
        else if SextetOf(s[3]).None? then None
        else
          var rest := Quanta(s[4..]);
          if rest.None? then None else Some([B1(a, b), B2(b, c), B3(c, SextetOf(s[3]).value)] + rest.value)
  }

  function StripBreaks(s: string): string {
    if s == "" then ""
    else if s[0] == '\n' || s[0] == '\r' then StripBreaks(s[1..])
    else [s[0]] + StripBreaks(s[1..])
  }

  /** RawStdEncoding. */
  function DecodeRaw(s: string): Option<seq<byte>> {
    Quanta(StripBreaks(s))
  }

  /** StdEncoding: one or two padding characters complete the last quantum. */
  function DecodeStd(s: string): Option<seq<byte>> {
    var t := StripBreaks(s);
    if |t| % 4 != 0 then None
    else if |t| >= 2 && t[|t| - 2..] == "==" then Quanta(t[..|t| - 2])
    else if |t| >= 1 && t[|t| - 1] == '=' then Quanta(t[..|t| - 1])
    else Quanta(t)
  }

  /** The unpadded reading first, then the padded one. */
  function Decode(s: string): Option<seq<byte>> {
    if DecodeRaw(s).Some? then DecodeRaw(s) else DecodeStd(s)
  }

  // ---------------------------------------------------------------- round trip

  lemma ReadQuantum(p: char, q: char, r: char, t: char, rest: string, a: sextet, b: sextet, c: sextet, d: sextet)
    requires SextetOf(p) == Some(a) && SextetOf(q) == Some(b) && SextetOf(r) == Some(c) && SextetOf(t) == Some(d)
    ensures Quanta([p, q]) == Some([B1(a, b)])
    ensures Quanta([p, q, r]) == Some([B1(a, b), B2(b, c)])
    ensures Quanta([p, q, r, t] + rest)
         == if Quanta(rest).None? then None else Some([B1(a, b), B2(b, c), B3(c, d)] + Quanta(rest).value)
  {
    hide SextetOf, B1, B2, B3;
    assert ([p, q, r, t] + rest)[4..] == rest;
  }

  /** Reading what three bytes, or the last one or two, were written as. */
  lemma QuantumEncode(x: byte, y: byte, z: byte, rest: string)
    ensures Quanta([CharOf(S1(x)), CharOf(S2(x, 0))]) == Some([x])
    ensures Quanta([CharOf(S1(x)), CharOf(S2(x, y)), CharOf(S3(y, 0))]) == Some([x, y])
    ensures Quanta([CharOf(S1(x)), CharOf(S2(x, y)), CharOf(S3(y, z)), CharOf(S4(z))] + rest)
         == if Quanta(rest).None? then None else Some([x, y, z] + Quanta(rest).value)
  {
    hide *;
    Recombine(x, y, z);
    Recombine(x, y, 0);
    Recombine(x, 0, 0);
    forall v: sextet ensures SextetOf(CharOf(v)) == Some(v) { CharInverse(v, 'A'); }
    ReadQuantum(CharOf(S1(x)), CharOf(S2(x, 0)), CharOf(S3(0, 0)), CharOf(S4(0)), rest, S1(x), S2(x, 0), S3(0, 0),
                S4(0));
    ReadQuantum(CharOf(S1(x)), CharOf(S2(x, y)), CharOf(S3(y, 0)), CharOf(S4(0)), rest, S1(x), S2(x, y), S3(y, 0),
                S4(0));
    ReadQuantum(CharOf(S1(x)), CharOf(S2(x, y)), CharOf(S3(y, z)), CharOf(S4(z)), rest, S1(x), S2(x, y), S3(y, z),
                S4(z));
  }

  lemma ShortEncode(bs: seq<byte>)
    requires |bs| < 3
    ensures Quanta(Encode(bs)) == Some(bs)
  {
    if bs != [] {
      var x, y := bs[0], if |bs| == 2 then bs[1] else 0;
      assert bs == if |bs| == 1 then [x] else [x, y];
      assert Encode(bs) == if |bs| == 1 then [CharOf(S1(x)), CharOf(S2(x, 0))]
                           else [CharOf(S1(x)), CharOf(S2(x, y)), CharOf(S3(y, 0))];
      hide *;
      QuantumEncode(x, y, 0, "");
    }
  }

  lemma {:induction false} QuantaEncode(bs: seq<byte>)
    ensures Quanta(Encode(bs)) == Some(bs)
  {
    if |bs| < 3 {
      ShortEncode(bs);
    } else {
      var x, y, z, rest := bs[0], bs[1], bs[2], bs[3..];
      assert bs == [x, y, z] + rest;
      assert Encode(bs) == [CharOf(S1(x)), CharOf(S2(x, y)), CharOf(S3(y, z)), CharOf(S4(z))] + Encode(rest);
      hide *;
      QuantaEncode(rest);
      QuantumEncode(x, y, z, Encode(rest));
    }
  }

  predicate Printable(s: string) {
    forall c | c in s :: SextetOf(c).Some?
  }

  lemma {:induction false} EncodePrintable(bs: seq<byte>)
    ensures Printable(Encode(bs))
  {
    forall v: sextet ensures SextetOf(CharOf(v)).Some? { CharInverse(v, 'A'); }
    hide SextetOf, CharOf, S1, S2, S3, S4;
    if |bs| >= 3 { EncodePrintable(bs[3..]); }
  }

  lemma {:induction false} EncodeLength(bs: seq<byte>)
    ensures |Encode(bs)| % 4 != 1 && (bs != [] ==> |Encode(bs)| > 1)
  {
    hide SextetOf, CharOf, S1, S2, S3, S4;
    if |bs| >= 3 { EncodeLength(bs[3..]); }
  }

  lemma {:induction false} NothingToStrip(s: string)
    requires Printable(s)
    ensures StripBreaks(s) == s
  {
    if s != "" {
      assert s[0] in s && s == [s[0]] + s[1..];
      NothingToStrip(s[1..]);
    }
  }

  /** Decoding undoes encoding, on all byte strings. */
  lemma DecodeEncode(bs: seq<byte>)
    ensures Decode(Encode(bs)) == Some(bs)
  {
    EncodePrintable(bs);
    NothingToStrip(Encode(bs));
    QuantaEncode(bs);
  }

  /** Decoding reads the padded form too. */
  lemma DecodePadded(bs: seq<byte>)
    ensures |bs| % 3 == 1 ==> Decode(Encode(bs) + "==") == Some(bs)
    ensures |bs| % 3 == 2 ==> Decode(Encode(bs) + "=") == Some(bs)
  {
    hide *;
    EncodePrintable(bs);
    NothingToStrip(Encode(bs));
    QuantaEncode(bs);
    Quarters(bs);
    if |bs| % 3 == 1 { ReadPadded(Encode(bs), "=="); }
    if |bs| % 3 == 2 { ReadPadded(Encode(bs), "="); }
  }

  lemma ReadPadded(s: string, pad: string)
    requires StripBreaks(s) == s && Quanta(s).Some? && (pad == "=" || pad == "==") && |s + pad| % 4 == 0 && |s| % 4 > 1
    ensures Decode(s + pad) == Quanta(s)
  {
    NoPaddingRaw(s, pad);
    StripConcat(s, pad);
    assert StripBreaks(pad) == pad by { assert "=="[1..] == "="; }
    var t := s + pad;
    assert t[..|t| - |pad|] == s && t[|t| - |pad|..] == pad;
    if |pad| == 1 { LastSextet(s); }
    hide Quanta, StripBreaks;
  }

  /** Padding is no part of a quantum. */
  lemma {:induction false} LastSextet(s: string)
    requires Quanta(s).Some? && s != ""
    ensures s[|s| - 1] != '='
  {
    if |s| > 4 {
      LastSextet(s[4..]);
    }
  }

  lemma {:induction false} Quarters(bs: seq<byte>)
    ensures |Encode(bs)| % 4 == if |bs| % 3 == 0 then 0 else |bs| % 3 + 1
  {
    hide CharOf, S1, S2, S3, S4;
    if |bs| >= 3 { Quarters(bs[3..]); }
  }

  lemma {:induction false} StripConcat(a: string, b: string)
    ensures StripBreaks(a + b) == StripBreaks(a) + StripBreaks(b)
  {
    if a != "" {
      assert (a + b)[1..] == a[1..] + b;
      StripConcat(a[1..], b);
    } else {
      assert a + b == b;
    }
  }

  lemma {:induction false} NoPaddingRaw(s: string, pad: string)
    requires pad == "=" || pad == "=="
    ensures Quanta(s + pad).None?
  {
    var t := s + pad;
    if |s| >= 4 {
      assert t[4..] == s[4..] + pad;
      NoPaddingRaw(s[4..], pad);
    } else {
      assert t[|s|] == '=';
    }
  }

  lemma {:induction false} QuantaPrintable(s: string)
    requires Quanta(s).Some?
    ensures Printable(s)
  {
    if |s| >= 4 {
      QuantaPrintable(s[4..]);
      assert s == s[..4] + s[4..];
    }
  }

  lemma {:induction false} Stripped(s: string, c: char)
    requires c in s && c !in "\r\n"
    ensures c in StripBreaks(s)
  {
    if s[0] != c { Stripped(s[1..], c); }
  }

  lemma QuantaReads(s: string, pad: string, c: char)
    requires Quanta(s).Some? && (pad == "" || pad == "=" || pad == "==") && c in s + pad
    ensures 'A' <= c <= 'Z' || 'a' <= c <= 'z' || '0' <= c <= '9' || c in "+/="
  {
    QuantaPrintable(s);
    hide Quanta;
    if c !in pad { assert c in s && SextetOf(c).Some?; }
  }

  /** Nothing but the alphabet, padding and line breaks is read. */
  lemma OnlyAlphabet(s: string, c: char)
    requires Decode(s).Some? && c in s
    ensures 'A' <= c <= 'Z' || 'a' <= c <= 'z' || '0' <= c <= '9' || c in "+/=\r\n"
  {
    if c !in "\r\n" {
      Stripped(s, c);
      var t := StripBreaks(s);
      var n := if DecodeRaw(s).Some? then |t|
               else if |t| >= 2 && t[|t| - 2..] == "==" then |t| - 2
               else if |t| >= 1 && t[|t| - 1] == '=' then |t| - 1 else |t|;
      assert Quanta(t[..n]).Some? by {
        hide Quanta, StripBreaks;
        assert t[..|t|] == t;
      }
      hide *;
      assert t == t[..n] + t[n..] && (t[n..] == "" || t[n..] == "=" || t[n..] == "==");
      QuantaReads(t[..n], t[n..], c);
    }
  }

  /** Line breaks mean nothing. */
  lemma BreaksIgnored(a: string, b: string)
    ensures Decode(a + "\r\n" + b) == Decode(a + b) && Decode(a + "\n" + b) == Decode(a + b)
  {
    assert StripBreaks("\n") == "" by { assert "\n"[1..] == ""; }
    assert StripBreaks("\r\n") == "" by { assert "\r\n"[1..] == "\n"; }
    forall br | br == "\n" || br == "\r\n" ensures StripBreaks(a + br + b) == StripBreaks(a + b) {
      StripConcat(a + br, b);
      StripConcat(a, br);
      StripConcat(a, b);
    }
  }

  lemma EncodeInjective(a: seq<byte>, b: seq<byte>)
    ensures Encode(a) == Encode(b) <==> a == b
  {
    DecodeEncode(a);
    DecodeEncode(b);
  }

  lemma {:induction false} QuantaLength(s: string)
    requires Quanta(s).Some?
    ensures |Encode(Quanta(s).value)| == |s|
  {
    if |s| >= 4 {
      QuantaLength(s[4..]);
      var bs := Quanta(s).value;
      assert bs[3..] == Quanta(s[4..]).value;
    }
  }

  lemma {:induction false} StripShortens(s: string)
    ensures |StripBreaks(s)| <= |s|
  {
    if s != "" { StripShortens(s[1..]); }
  }

  /** The canonical form is never longer than what was offered. */
  lemma CanonicalShorter(s: string)
    requires Decode(s).Some?
    ensures |Encode(Decode(s).value)| <= |s|
  {
    hide Encode, Quanta, StripBreaks;
    StripShortens(s);
    var t := StripBreaks(s);
    if DecodeRaw(s).Some? { QuantaLength(t); }
    else if |t| >= 2 && t[|t| - 2..] == "==" { QuantaLength(t[..|t| - 2]); }
    else if |t| >= 1 && t[|t| - 1] == '=' { QuantaLength(t[..|t| - 1]); }
    else { QuantaLength(t); }
  }
}
