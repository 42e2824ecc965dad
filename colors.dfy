/** The `Color` value of the plugin protocol and its HTML hex codec: `#rrggbb` or `#rrggbbaa`.
    Colour strings are handled as the byte sequences of their (ASCII) text. */
module Colors {
  import opened Wrappers
  import opened Ints

  type Byte = uint8

  datatype Color =
    | Rgb(r: uint8, g: uint8, b: uint8)
    | Rgba(r: uint8, g: uint8, b: uint8, a: uint8)

  /** Why a string is not a colour, checked in this order: the length, the leading `#`, then
      the components from left to right (the first bad one is reported). */
  datatype ColorError =
    | InvalidLength(len: nat)
    | MissingHash
    | InvalidComponent(text: seq<Byte>)

  const HASH: Byte := 0x23
  const PLUS: Byte := 0x2B

  /** The components in wire order: r, g, b and, for `Rgba`, a. */
  function Components(c: Color): seq<uint8> {
    match c
    case Rgb(r, g, b) => [r, g, b]
    case Rgba(r, g, b, a) => [r, g, b, a]
  }

  predicate IsLowerHex(x: Byte) {
    0x30 <= x <= 0x39 || 0x61 <= x <= 0x66
  }

  function LowerHexValue(x: Byte): int
    requires IsLowerHex(x)
  {
    if x <= 0x39 then x - 0x30 else x - 0x61 + 10
  }

  /** The lowercase hex digit for `d` (`{:x}` formatting), as a UTF-8 byte, because colour text
      is sliced by byte. `JsonText.HexChar` is the same digit as a character of a string. */
  function HexDigit(d: int): (x: Byte)
    requires 0 <= d < 16
    ensures IsLowerHex(x) && LowerHexValue(x) == d
  {
    if d < 10 then 0x30 + d else 0x61 + d - 10
  }

  /** `{:02x}`: two lowercase hex digits, high nibble first. */
  function Hex2(v: uint8): seq<Byte> {
    [HexDigit(v / 16), HexDigit(v % 16)]
  }

  function HexAll(vs: seq<uint8>): seq<Byte> {
    if vs == [] then [] else Hex2(vs[0]) + HexAll(vs[1..])
  }

  /** The value of a hex digit in either case (`char::to_digit(16)`). */
  function HexDigitValue(x: Byte): Option<int> {
    if 0x30 <= x <= 0x39 then Some(x - 0x30)
    else if 0x61 <= x <= 0x66 then Some(x - 0x61 + 10)
    else if 0x41 <= x <= 0x46 then Some(x - 0x41 + 10)
    else None
  }

  /** `u8::from_str_radix(text, 16)` on a two-byte slice: two hex digits, or a `+` sign
      followed by one hex digit. */
  function ParseComponent(text: seq<Byte>): (r: Result<uint8, ColorError>)
    requires |text| == 2
    ensures r.Failure? ==> r.error == InvalidComponent(text)
  {
    if text[0] == PLUS then
      match HexDigitValue(text[1])
      case Some(d) => Success(d)
      case None => Failure(InvalidComponent(text))
    else
      match (HexDigitValue(text[0]), HexDigitValue(text[1]))
      case (Some(hi), Some(lo)) => Success(16 * hi + lo)
      case _ => Failure(InvalidComponent(text))
  }

  /** The component whose digits start at byte `i`. */
  function ComponentAt(s: seq<Byte>, i: nat): Result<uint8, ColorError>
    requires i + 2 <= |s|
  {
    ParseComponent(s[i..i + 2])
  }

  function ParseRgb(s: seq<Byte>): Result<(uint8, uint8, uint8), ColorError>
    requires |s| >= 7
  {
    if s[0] != HASH then Failure(MissingHash)
    else
      var r :- ComponentAt(s, 1);
      var g :- ComponentAt(s, 3);
      var b :- ComponentAt(s, 5);
      Success((r, g, b))
  }

  /** Serialises a colour as `#` and two lowercase hex digits per component. */
  function Encode(c: Color): (s: seq<Byte>)
    ensures |s| == 1 + 2 * |Components(c)|
    ensures s[0] == HASH
    ensures forall i :: 1 <= i < |s| ==> IsLowerHex(s[i])
    ensures forall k :: 0 <= k < |Components(c)| ==>
      16 * LowerHexValue(s[1 + 2 * k]) + LowerHexValue(s[2 + 2 * k]) == Components(c)[k]
  {
    var s := [HASH] + HexAll(Components(c));
    HexAllValues(Components(c));
    s
  }

  /** Deserialises a colour, dispatching on the byte length: 7 is `Rgb`, 9 is `Rgba`. */
  function Decode(s: seq<Byte>): (r: Result<Color, ColorError>)
    ensures |s| != 7 && |s| != 9 ==> r == Failure(InvalidLength(|s|))
    ensures (|s| == 7 || |s| == 9) && s[0] != HASH ==> r == Failure(MissingHash)
    ensures r.Success? ==> (r.value.Rgb? <==> |s| == 7) && (r.value.Rgba? <==> |s| == 9)
    ensures r.Success? ==> |s| == 1 + 2 * |Components(r.value)|
  {
    if |s| == 7 then
      var rgb :- ParseRgb(s);
      Success(Rgb(rgb.0, rgb.1, rgb.2))
    else if |s| == 9 then
      var rgb :- ParseRgb(s);
      var a :- ComponentAt(s, 7);
      Success(Rgba(rgb.0, rgb.1, rgb.2, a))
    else
      Failure(InvalidLength(|s|))
  }

  // ---------------------------------------------------------------------------------------
  // Properties

  /** `HexAll` writes two lowercase hex digits per component. */
  lemma {:induction false} HexAllLower(vs: seq<uint8>)
    ensures |HexAll(vs)| == 2 * |vs|
    ensures forall i :: 0 <= i < |HexAll(vs)| ==> IsLowerHex(HexAll(vs)[i])
  {
    if vs != [] {
      HexAllLower(vs[1..]);
      assert HexAll(vs) == Hex2(vs[0]) + HexAll(vs[1..]);
    }
  }

  /** `HexAll` writes the two digits of component `k` at positions `2k` and `2k + 1`. */
  lemma {:induction false} HexAllDigits(vs: seq<uint8>)
    ensures |HexAll(vs)| == 2 * |vs|
    ensures forall k :: 0 <= k < |vs| ==>
      HexAll(vs)[2 * k] == HexDigit(vs[k] / 16) && HexAll(vs)[2 * k + 1] == HexDigit(vs[k] % 16)
  {
    if vs != [] {
      HexAllDigits(vs[1..]);
      var h := HexAll(vs);
      assert h == Hex2(vs[0]) + HexAll(vs[1..]);
      forall k | 0 < k < |vs|
        ensures h[2 * k] == HexDigit(vs[k] / 16) && h[2 * k + 1] == HexDigit(vs[k] % 16)
      {
        assert vs[k] == vs[1..][k - 1];
      }
    }
  }

  /** Each component is the value of the two digits written for it. */
  lemma HexAllValues(vs: seq<uint8>)
    ensures |HexAll(vs)| == 2 * |vs|
    ensures forall i :: 0 <= i < |HexAll(vs)| ==> IsLowerHex(HexAll(vs)[i])
    ensures forall k :: 0 <= k < |vs| ==>
      16 * LowerHexValue(HexAll(vs)[2 * k]) + LowerHexValue(HexAll(vs)[2 * k + 1]) == vs[k]
  {
    HexAllLower(vs);
    HexAllDigits(vs);
  }

  lemma ParseHex2(v: uint8)
    ensures ParseComponent(Hex2(v)) == Success(v)
  {
    var hi, lo := v / 16, v % 16;
    assert HexDigitValue(HexDigit(hi)) == Some(hi);
    assert HexDigitValue(HexDigit(lo)) == Some(lo);
  }

  /** Colour round trip: decoding what `Encode` wrote gives the same colour, with or without
      alpha. */
  lemma RoundTrip(c: Color)
    ensures Decode(Encode(c)) == Success(c)
  {
    var s := Encode(c);
    var cs := Components(c);
    HexAllDigits(cs);
    assert s[1..] == HexAll(cs);
    forall k | 0 <= k < |cs|
      ensures ComponentAt(s, 1 + 2 * k) == Success(cs[k])
    {
      assert s[1 + 2 * k..3 + 2 * k] == Hex2(cs[k]);
      ParseHex2(cs[k]);
    }
    assert ComponentAt(s, 1) == Success(cs[0]);
    assert ComponentAt(s, 3) == Success(cs[1]);
    assert ComponentAt(s, 5) == Success(cs[2]);
    if c.Rgba? {
      assert ComponentAt(s, 7) == Success(cs[3]);
    }
  }

  /** A component's two bytes are acceptable to the decoder. */
  predicate ComponentOk(x: Byte, y: Byte) {
    if x == PLUS then HexDigitValue(y).Some? else HexDigitValue(x).Some? && HexDigitValue(y).Some?
  }

  /** The `k`-th component (0 is r) of a colour string is acceptable. */
  predicate ComponentOkAt(s: seq<Byte>, k: nat)
    requires 2 * k + 3 <= |s|
  {
    ComponentOk(s[1 + 2 * k], s[2 + 2 * k])
  }

  lemma ComponentAtOk(s: seq<Byte>, k: nat)
    requires 2 * k + 3 <= |s|
    ensures ComponentAt(s, 1 + 2 * k).Success? <==> ComponentOkAt(s, k)
  {
    assert s[1 + 2 * k..3 + 2 * k] == [s[1 + 2 * k], s[2 + 2 * k]];
  }

  /** Decoding succeeds exactly for strings of length 7 or 9 that start with `#` and whose
      components all parse; it fails otherwise. */
  lemma DecodeSucceedsIff(s: seq<Byte>)
    ensures Decode(s).Success? <==>
      (|s| == 7 || |s| == 9) && s[0] == HASH &&
      forall k: nat :: 2 * k + 3 <= |s| ==> ComponentOkAt(s, k)
  {
    if |s| == 7 || |s| == 9 {
      ComponentAtOk(s, 0);
      ComponentAtOk(s, 1);
      ComponentAtOk(s, 2);
      if |s| == 9 {
        ComponentAtOk(s, 3);
      }
      if Decode(s).Success? {
        forall k: nat | 2 * k + 3 <= |s|
          ensures ComponentOkAt(s, k)
        {
          assert k == 0 || k == 1 || k == 2 || k == 3;
        }
      }
    }
  }

  /** The decoder's inverse on canonical text: a colour string whose digits are all lowercase
      is exactly the encoding of what it decodes to. */
  lemma CanonicalIsEncoding(s: seq<Byte>, c: Color)
    requires Decode(s) == Success(c)
    requires forall i :: 1 <= i < |s| ==> IsLowerHex(s[i])
    ensures Encode(c) == s
  {
    var e := Encode(c);
    var cs := Components(c);
    assert |e| == |s|;
    forall k | 0 <= k < |cs|
      ensures e[1 + 2 * k] == s[1 + 2 * k] && e[2 + 2 * k] == s[2 + 2 * k]
    {
      CanonicalComponent(s, c, k);
    }
    forall i | 0 <= i < |s|
      ensures e[i] == s[i]
    {
      if i > 0 {
        var k := (i - 1) / 2;
        assert i == 1 + 2 * k || i == 2 + 2 * k;
      }
    }
  }

  /** The digits of one component of a decoded lowercase string are those `Encode` writes. */
  lemma CanonicalComponent(s: seq<Byte>, c: Color, k: nat)
    requires Decode(s) == Success(c)
    requires forall i :: 1 <= i < |s| ==> IsLowerHex(s[i])
    requires k < |Components(c)|
    ensures Encode(c)[1 + 2 * k] == s[1 + 2 * k] && Encode(c)[2 + 2 * k] == s[2 + 2 * k]
  {
    var e := Encode(c);
    var x, y := s[1 + 2 * k], s[2 + 2 * k];
    DecodedComponent(s, c, k);
    assert s[1 + 2 * k..3 + 2 * k] == [x, y];
    LowerHexUnique(e[1 + 2 * k], e[2 + 2 * k], x, y);
  }

  /** Component `k` of a decoded colour is what its two bytes parse to. */
  lemma DecodedComponent(s: seq<Byte>, c: Color, k: nat)
    requires Decode(s) == Success(c)
    requires k < |Components(c)|
    ensures ComponentAt(s, 1 + 2 * k) == Success(Components(c)[k])
  {
    assert k == 0 || k == 1 || k == 2 || k == 3;
  }

  lemma LowerHexUnique(a: Byte, b: Byte, x: Byte, y: Byte)
    requires IsLowerHex(a) && IsLowerHex(b) && IsLowerHex(x) && IsLowerHex(y)
    requires 16 * LowerHexValue(a) + LowerHexValue(b) == 16 * LowerHexValue(x) + LowerHexValue(y)
    ensures a == x && b == y
  {
  }

  const TEST_RGB: seq<Byte> := [0x23, 0x31, 0x32, 0x33, 0x34, 0x35, 0x36]         // "#123456"
  const TEST_RGBA: seq<Byte> := [0x23, 0x31, 0x32, 0x31, 0x32, 0x31, 0x32, 0x31, 0x32] // "#12121212"

  /** The library's own test: `"#123456"` and `"#12121212"` decode and re-encode exactly. */
  lemma LibraryColorTest()
    ensures Decode(TEST_RGB) == Success(Rgb(0x12, 0x34, 0x56))
    ensures Decode(TEST_RGBA) == Success(Rgba(0x12, 0x12, 0x12, 0x12))
    ensures Encode(Rgb(0x12, 0x34, 0x56)) == TEST_RGB
    ensures Encode(Rgba(0x12, 0x12, 0x12, 0x12)) == TEST_RGBA
  {
    assert Hex2(0x12) == [0x31, 0x32] && Hex2(0x34) == [0x33, 0x34] && Hex2(0x56) == [0x35, 0x36];
    assert HexAll([0x56]) == Hex2(0x56);
    assert HexAll([0x34, 0x56]) == Hex2(0x34) + Hex2(0x56);
    assert Encode(Rgb(0x12, 0x34, 0x56)) == TEST_RGB;
    RoundTrip(Rgb(0x12, 0x34, 0x56));
    assert HexAll([0x12]) == Hex2(0x12);
    assert HexAll([0x12, 0x12]) == Hex2(0x12) + Hex2(0x12);
    assert HexAll([0x12, 0x12, 0x12]) == Hex2(0x12) + Hex2(0x12) + Hex2(0x12);
    assert Encode(Rgba(0x12, 0x12, 0x12, 0x12)) == TEST_RGBA;
    RoundTrip(Rgba(0x12, 0x12, 0x12, 0x12));
  }

  /** The leading-sign quirk of the integer parser: `"#+1+2+3"` is accepted. */
  lemma PlusSignAccepted()
    ensures Decode([0x23, 0x2B, 0x31, 0x2B, 0x32, 0x2B, 0x33]) == Success(Rgb(1, 2, 3))
  {
    var a: seq<Byte> := [0x23, 0x2B, 0x31, 0x2B, 0x32, 0x2B, 0x33];
    assert a[1..3] == [0x2B, 0x31] && a[3..5] == [0x2B, 0x32] && a[5..7] == [0x2B, 0x33];
  }
}
