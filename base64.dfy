/**
 * The base 64 encoding of section 4 of RFC 4648, as the `btoa` built-in
 * applies it to a string: every character must be a Latin-1 code unit
 * (below 256), which is taken as one byte; groups of three bytes become
 * four symbols of the alphabet of Table 1, and a final group of one or two
 * bytes is completed with '=' padding. The strict decoder beside it is the
 * exact inverse of the encoder.
 */
module Base64 {
  import opened Wrappers

  type Byte = x: int | 0 <= x < 256
  type Sextet = x: int | 0 <= x < 64

  /** The symbol of Table 1 of RFC 4648 for a 6-bit value. */
  function Symbol(v: Sextet): (c: char)
    ensures c != '='
  {
    if v < 26 then (('A' as int) + v) as char
    else if v < 52 then (('a' as int) + (v - 26)) as char
    else if v < 62 then (('0' as int) + (v - 52)) as char
    else if v == 62 then '+'
    else '/'
  }

  /** The 6-bit value of an alphabet symbol; None for anything outside the alphabet. */
  function SymbolValue(c: char): Option<Sextet> {
    if 'A' <= c <= 'Z' then Some((c as int) - ('A' as int))
    else if 'a' <= c <= 'z' then Some((c as int) - ('a' as int) + 26)
    else if '0' <= c <= '9' then Some((c as int) - ('0' as int) + 52)
    else if c == '+' then Some(62)
    else if c == '/' then Some(63)
    else None
  }

  lemma SymbolValueOfSymbol(v: Sextet)
    ensures SymbolValue(Symbol(v)) == Some(v)
  {
  }

  lemma SymbolOfSymbolValue(c: char)
    requires SymbolValue(c).Some?
    ensures Symbol(SymbolValue(c).value) == c
  {
  }

  predicate IsSymbol(c: char) {
    SymbolValue(c).Some?
  }

  /** Three bytes, 24 bits, as four symbols. */
  function EncodeGroup(a: Byte, b: Byte, c: Byte): string {
    [Symbol(a / 4), Symbol((a % 4) * 16 + b / 16), Symbol((b % 16) * 4 + c / 64), Symbol(c % 64)]
  }

  /** A final single byte: two symbols, the second with four zero bits, and "==". */
  function EncodeOne(a: Byte): string {
    [Symbol(a / 4), Symbol((a % 4) * 16), '=', '=']
  }

  /** A final pair of bytes: three symbols, the third with two zero bits, and "=". */
  function EncodeTwo(a: Byte, b: Byte): string {
    [Symbol(a / 4), Symbol((a % 4) * 16 + b / 16), Symbol((b % 16) * 4), '=']
  }

  /** The base 64 text of a byte string. */
  function Encode(bs: seq<Byte>): (s: string)
    ensures |s| == 4 * ((|bs| + 2) / 3)
    decreases |bs|
  {
    if |bs| == 0 then []
    else if |bs| == 1 then EncodeOne(bs[0])
    else if |bs| == 2 then EncodeTwo(bs[0], bs[1])
    else EncodeGroup(bs[0], bs[1], bs[2]) + Encode(bs[3..])
  }

  /**
   * The test vectors of section 10 of RFC 4648 of at most three bytes ("f",
   * "fo", "foo"), which pin the alphabet, the bit order and the padding; the
   * last two symbols of the alphabet ('+', '/') come from the bytes 0xFB 0xFF.
   */
  lemma Rfc4648ShortVectors()
    ensures Encode([]) == ""
    ensures Encode([102]) == "Zg=="
    ensures Encode([102, 111]) == "Zm8="
    ensures Encode([102, 111, 111]) == "Zm9v"
    ensures Encode([251, 255]) == "+/8="
  {
  }

  /** The test vector "foob" of section 10 of RFC 4648: one full group, then one byte padded with "==". */
  lemma Rfc4648FoobVector()
    ensures Encode([102, 111, 111, 98]) == "Zm9vYg=="
  {
    var bs: seq<Byte> := [102, 111, 111, 98];
    assert bs[3..] == [98];
    assert EncodeGroup(102, 111, 111) == "Zm9v";
    assert Encode([98]) == "Yg==";
  }

  /** The test vector "fooba" of section 10 of RFC 4648: one full group, then two bytes padded with "=". */
  lemma Rfc4648FoobaVector()
    ensures Encode([102, 111, 111, 98, 97]) == "Zm9vYmE="
  {
    var bs: seq<Byte> := [102, 111, 111, 98, 97];
    assert bs[3..] == [98, 97];
    assert EncodeGroup(102, 111, 111) == "Zm9v";
    assert Encode([98, 97]) == "YmE=";
  }

  /** The test vector "foobar" of section 10 of RFC 4648: two full groups, no padding. */
  lemma Rfc4648FoobarVector()
    ensures Encode([102, 111, 111, 98, 97, 114]) == "Zm9vYmFy"
  {
    var bs: seq<Byte> := [102, 111, 111, 98, 97, 114];
    var rest: seq<Byte> := [98, 97, 114];
    assert bs[3..] == rest && rest[3..] == [];
    assert EncodeGroup(102, 111, 111) == "Zm9v";
    assert Symbol(24) == 'Y' && Symbol(38) == 'm' && Symbol(5) == 'F' && Symbol(50) == 'y';
    assert EncodeGroup(98, 97, 114) == [Symbol(24), Symbol(38), Symbol(5), Symbol(50)];
    assert Encode(rest) == EncodeGroup(98, 97, 114) + Encode([]);
  }

  /** Four symbols, no padding: three bytes. */
  function DecodeGroup(s: string): Option<seq<Byte>>
    requires |s| == 4
  {
    if IsSymbol(s[0]) && IsSymbol(s[1]) && IsSymbol(s[2]) && IsSymbol(s[3]) then
      var v0, v1, v2, v3 := SymbolValue(s[0]).value, SymbolValue(s[1]).value,
                            SymbolValue(s[2]).value, SymbolValue(s[3]).value;
      Some([v0 * 4 + v1 / 16, (v1 % 16) * 16 + v2 / 4, (v2 % 4) * 64 + v3])
    else None
  }

  /** The last four characters, which may carry one or two '=' of padding. */
  function DecodeLast(s: string): Option<seq<Byte>>
    requires |s| == 4
  {
    if IsSymbol(s[0]) && IsSymbol(s[1]) && s[2] == '=' && s[3] == '=' then
      var v0, v1 := SymbolValue(s[0]).value, SymbolValue(s[1]).value;
      if v1 % 16 == 0 then Some([v0 * 4 + v1 / 16]) else None
    else if IsSymbol(s[0]) && IsSymbol(s[1]) && IsSymbol(s[2]) && s[3] == '=' then
      var v0, v1, v2 := SymbolValue(s[0]).value, SymbolValue(s[1]).value, SymbolValue(s[2]).value;
      if v2 % 4 == 0 then Some([v0 * 4 + v1 / 16, (v1 % 16) * 16 + v2 / 4]) else None
    else DecodeGroup(s)
  }

  /**
   * Strict decoding: the length is a multiple of four, only the last group
   * may be padded, and the bits that padding leaves over are zero.
   */
  function Decode(s: string): Option<seq<Byte>>
    decreases |s|
  {
    if s == [] then Some([])
    else if |s| < 4 then None
    else if |s| == 4 then DecodeLast(s)
    else
      match DecodeGroup(s[..4])
      case None => None
      case Some(head) =>
        match Decode(s[4..])
        case None => None
        case Some(tail) => Some(head + tail)
  }

  /** Splitting a number written as `hi * d + lo` with `lo < d`, for the widths used here. */
  lemma Split(hi: int, lo: int, d: int)
    requires d == 4 || d == 16 || d == 64
    requires 0 <= lo < d
    ensures (hi * d + lo) / d == hi && (hi * d + lo) % d == lo
  {
  }

  lemma ByteParts(a: Byte)
    ensures a == (a / 4) * 4 + a % 4 == (a / 16) * 16 + a % 16 == (a / 64) * 64 + a % 64
    ensures a / 16 < 16 && a / 64 < 4
  {
  }

  lemma DecodeEncodeGroup(a: Byte, b: Byte, c: Byte)
    ensures DecodeGroup(EncodeGroup(a, b, c)) == Some([a, b, c])
  {
    var v0, v1, v2, v3 := a / 4, (a % 4) * 16 + b / 16, (b % 16) * 4 + c / 64, c % 64;
    ByteParts(a); ByteParts(b); ByteParts(c);
    Split(a % 4, b / 16, 16);
    Split(b % 16, c / 64, 4);
    SymbolValueOfSymbol(v0);
    SymbolValueOfSymbol(v1);
    SymbolValueOfSymbol(v2);
    SymbolValueOfSymbol(v3);
  }

  lemma DecodeEncodeOne(a: Byte)
    ensures DecodeLast(EncodeOne(a)) == Some([a])
  {
    ByteParts(a);
    Split(a % 4, 0, 16);
    SymbolValueOfSymbol(a / 4);
    SymbolValueOfSymbol((a % 4) * 16);
  }

  lemma DecodeEncodeTwo(a: Byte, b: Byte)
    ensures DecodeLast(EncodeTwo(a, b)) == Some([a, b])
  {
    ByteParts(a); ByteParts(b);
    Split(a % 4, b / 16, 16);
    Split(b % 16, 0, 4);
    SymbolValueOfSymbol(a / 4);
    SymbolValueOfSymbol((a % 4) * 16 + b / 16);
    SymbolValueOfSymbol((b % 16) * 4);
  }

  lemma DecodeEncodeShort(bs: seq<Byte>)
    requires 1 <= |bs| <= 2
    ensures Decode(Encode(bs)) == Some(bs)
  {
    if |bs| == 1 {
      var s := EncodeOne(bs[0]);
      assert Encode(bs) == s;
      DecodeEncodeOne(bs[0]);
      assert Decode(s) == DecodeLast(s);
      assert bs == [bs[0]];
    } else {
      var s := EncodeTwo(bs[0], bs[1]);
      assert Encode(bs) == s;
      DecodeEncodeTwo(bs[0], bs[1]);
      assert Decode(s) == DecodeLast(s);
      assert bs == [bs[0], bs[1]];
    }
  }

  lemma SplitThree(bs: seq<Byte>)
    requires |bs| >= 3
    ensures bs == [bs[0], bs[1], bs[2]] + bs[3..]
    ensures |bs| == 3 ==> bs == [bs[0], bs[1], bs[2]]
  {
  }

  /** A full group followed by more text decodes to its three bytes ahead of the rest. */
  lemma DecodeAppendGroup(g: string, rest: string)
    requires |g| == 4 && DecodeGroup(g).Some? && |rest| >= 4 && Decode(rest).Some?
    ensures Decode(g + rest) == Some(DecodeGroup(g).value + Decode(rest).value)
  {
    var s := g + rest;
    assert s[..4] == g;
    assert s[4..] == rest;
  }

  /** A full leading group decodes on its own, ahead of the rest. */
  lemma DecodeEncodeLong(bs: seq<Byte>)
    requires |bs| >= 3
    requires Decode(Encode(bs[3..])) == Some(bs[3..])
    ensures Decode(Encode(bs)) == Some(bs)
  {
    var g, rest := EncodeGroup(bs[0], bs[1], bs[2]), Encode(bs[3..]);
    assert Encode(bs) == g + rest;
    DecodeEncodeGroup(bs[0], bs[1], bs[2]);
    SplitThree(bs);
    if |bs| == 3 {
      assert bs[3..] == [] && rest == [];
      assert Encode(bs) == g;
      assert g[2] != '=' && g[3] != '=';
      assert Decode(g) == DecodeLast(g) == DecodeGroup(g);
    } else {
      DecodeAppendGroup(g, rest);
    }
  }

  /** Decoding undoes encoding. */
  lemma {:induction false} DecodeEncode(bs: seq<Byte>)
    ensures Decode(Encode(bs)) == Some(bs)
    decreases |bs|
  {
    if 1 <= |bs| <= 2 {
      DecodeEncodeShort(bs);
    } else if |bs| >= 3 {
      DecodeEncode(bs[3..]);
      DecodeEncodeLong(bs);
    }
  }

  lemma EncodeDecodeGroup(s: string)
    requires |s| == 4 && DecodeGroup(s).Some?
    ensures |DecodeGroup(s).value| == 3
    ensures EncodeGroup(DecodeGroup(s).value[0], DecodeGroup(s).value[1], DecodeGroup(s).value[2]) == s
  {
    var v0: int, v1: int, v2: int, v3: int := SymbolValue(s[0]).value, SymbolValue(s[1]).value,
                          SymbolValue(s[2]).value, SymbolValue(s[3]).value;
    var a: int, b: int, c: int := v0 * 4 + v1 / 16, (v1 % 16) * 16 + v2 / 4, (v2 % 4) * 64 + v3;
    Split(v0, v1 / 16, 4);
    Split(v1 % 16, v2 / 4, 16);
    Split(v2 % 4, v3, 64);
    assert a / 4 == v0;
    assert (a % 4) * 16 + b / 16 == v1;
    assert (b % 16) * 4 + c / 64 == v2;
    assert c % 64 == v3;
    SymbolOfSymbolValue(s[0]);
    SymbolOfSymbolValue(s[1]);
    SymbolOfSymbolValue(s[2]);
    SymbolOfSymbolValue(s[3]);
    assert EncodeGroup(a, b, c) == [s[0], s[1], s[2], s[3]];
  }

  lemma EncodeDecodeOne(s: string)
    requires |s| == 4 && s[2] == '=' && DecodeLast(s).Some?
    ensures |DecodeLast(s).value| == 1
    ensures EncodeOne(DecodeLast(s).value[0]) == s
  {
    var v0, v1 := SymbolValue(s[0]).value, SymbolValue(s[1]).value;
    Split(v0, v1 / 16, 4);
    assert v1 == (v1 / 16) * 16;
    SymbolOfSymbolValue(s[0]);
    SymbolOfSymbolValue(s[1]);
  }

  lemma EncodeDecodeTwo(s: string)
    requires |s| == 4 && s[2] != '=' && s[3] == '=' && DecodeLast(s).Some?
    ensures |DecodeLast(s).value| == 2
    ensures EncodeTwo(DecodeLast(s).value[0], DecodeLast(s).value[1]) == s
  {
    var v0, v1, v2 := SymbolValue(s[0]).value, SymbolValue(s[1]).value, SymbolValue(s[2]).value;
    Split(v0, v1 / 16, 4);
    Split(v1 % 16, v2 / 4, 16);
    assert v1 == (v1 / 16) * 16 + v1 % 16;
    assert v2 == (v2 / 4) * 4;
    SymbolOfSymbolValue(s[0]);
    SymbolOfSymbolValue(s[1]);
    SymbolOfSymbolValue(s[2]);
  }

  lemma EncodeDecodeLast(s: string)
    requires |s| == 4 && DecodeLast(s).Some?
    ensures 1 <= |DecodeLast(s).value| <= 3
    ensures Encode(DecodeLast(s).value) == s
  {
    var bs := DecodeLast(s).value;
    if s[3] != '=' {
      EncodeDecodeGroup(s);
      assert Encode(bs) == EncodeGroup(bs[0], bs[1], bs[2]) + Encode([]);
    } else if s[2] == '=' {
      EncodeDecodeOne(s);
    } else {
      EncodeDecodeTwo(s);
    }
  }

  /** Every text the decoder accepts is the encoding of what it decodes to. */
  lemma {:induction false} EncodeDecode(s: string)
    requires Decode(s).Some?
    ensures Encode(Decode(s).value) == s
    decreases |s|
  {
    if |s| == 4 {
      EncodeDecodeLast(s);
    } else if |s| > 4 {
      var head := DecodeGroup(s[..4]).value;
      var tail := Decode(s[4..]).value;
      EncodeDecodeGroup(s[..4]);
      EncodeDecode(s[4..]);
      assert |tail| > 0;
      var bs := head + tail;
      assert bs[3..] == tail;
      assert s == s[..4] + s[4..];
    }
  }

  /** The bytes of a string whose every character is a Latin-1 code unit; None otherwise. */
  function Latin1Bytes(s: string): (r: Option<seq<Byte>>)
    ensures r.Some? <==> forall i :: 0 <= i < |s| ==> s[i] as int < 256
    ensures r.Some? ==> |r.value| == |s| && forall i :: 0 <= i < |s| ==> r.value[i] == s[i] as int
  {
    if forall i :: 0 <= i < |s| ==> s[i] as int < 256 then
      Some(seq(|s|, i requires 0 <= i < |s| => s[i] as int))
    else None
  }

  /** The string whose code units are the given bytes. */
  function Latin1String(bs: seq<Byte>): (s: string)
    ensures |s| == |bs| && forall i :: 0 <= i < |bs| ==> s[i] as int == bs[i]
  {
    seq(|bs|, i requires 0 <= i < |bs| => bs[i] as char)
  }

  /** A Latin-1 string and its bytes determine each other. */
  lemma Latin1RoundTrip(s: string)
    requires Latin1Bytes(s).Some?
    ensures Latin1String(Latin1Bytes(s).value) == s
  {
  }

  /** `btoa`: None where the built-in throws on a character beyond Latin-1. */
  function Btoa(s: string): (r: Option<string>)
    ensures r.Some? <==> forall i :: 0 <= i < |s| ==> s[i] as int < 256
    ensures r.Some? ==> |r.value| == 4 * ((|s| + 2) / 3)
  {
    match Latin1Bytes(s)
    case None => None
    case Some(bs) => Some(Encode(bs))
  }

  /** What `btoa` writes decodes back to the bytes of its input. */
  lemma BtoaDecodes(s: string)
    requires Btoa(s).Some?
    ensures Decode(Btoa(s).value).Some?
    ensures Latin1String(Decode(Btoa(s).value).value) == s
  {
    DecodeEncode(Latin1Bytes(s).value);
    Latin1RoundTrip(s);
  }
}
