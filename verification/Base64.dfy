/** Base64 with the standard alphabet and padding (RFC 4648, section 4), encoding and strict decoding. */
module Base64 {
  import opened Bytes

  const PADDING: Byte := 0x3d

  /** The symbol of a six-bit value. */
  function Symbol(value: nat): (symbol: Byte)
    requires value < 64
    ensures symbol != PADDING
  {
    if value < 26 then 0x41 + value
    else if value < 52 then 0x61 + value - 26
    else if value < 62 then 0x30 + value - 52
    else if value == 62 then 0x2b
    else 0x2f
  }

  // The six-bit values of a group of three bytes.
  function First(a: Byte): (v: nat) ensures v < 64 { a / 4 }
  function Second(a: Byte, b: Byte): (v: nat) ensures v < 64 { a % 4 * 16 + b / 16 }
  function Third(b: Byte, c: Byte): (v: nat) ensures v < 64 { b % 16 * 4 + c / 64 }
  function Fourth(c: Byte): (v: nat) ensures v < 64 { c % 64 }

  /** A full group; an incomplete one is filled up with zero bits and padded. */
  function Encode(data: seq<Byte>): seq<Byte>
  {
    if |data| == 0 then []
    else if |data| == 1 then [Symbol(First(data[0])), Symbol(Second(data[0], 0)), PADDING, PADDING]
    else if |data| == 2 then
      [Symbol(First(data[0])), Symbol(Second(data[0], data[1])), Symbol(Third(data[1], 0)), PADDING]
    else
      [Symbol(First(data[0])), Symbol(Second(data[0], data[1])), Symbol(Third(data[1], data[2])), Symbol(Fourth(data[2]))]
      + Encode(data[3..])
  }

  lemma SymbolIsInjective(v: nat, w: nat)
    requires v < 64 && w < 64 && Symbol(v) == Symbol(w)
    ensures v == w
  {
  }

  // ---------- Decoding ----------

  const UPPER: string := "ABCDEFGHIJKLMNOPQRSTUVWXYZ"
  const LOWER: string := "abcdefghijklmnopqrstuvwxyz"
  const DIGITS: string := "0123456789"

  /** The alphabet of RFC 4648, table 1. */
  const ALPHABET: string := UPPER + LOWER + DIGITS + "+/"

  lemma Uppers(i: nat)
    requires i < 26
    ensures UPPER[i] as int == 0x41 + i
  {
  }

  lemma Lowers(i: nat)
    requires i < 26
    ensures LOWER[i] as int == 0x61 + i
  {
  }

  lemma AlphabetIs(v: nat)
    requires v < 64
    ensures |ALPHABET| == 64 && ALPHABET[v] as int == Symbol(v)
  {
    assert |UPPER| == 26 && |LOWER| == 26 && |DIGITS| == 10;
    if v < 26 {
      Uppers(v);
      assert ALPHABET[v] == UPPER[v];
    } else if v < 52 {
      Lowers(v - 26);
      assert ALPHABET[v] == LOWER[v - 26];
    } else if v < 62 {
      assert ALPHABET[v] == DIGITS[v - 52];
    }
  }

  lemma AlphabetSize()
    ensures |ALPHABET| == 64
  {
    assert |UPPER| == 26 && |LOWER| == 26 && |DIGITS| == 10;
  }

  /** Any alphabet with these symbols. */
  ghost predicate IsAlphabet(alphabet: string)
  {
    |alphabet| == 64 && forall v :: 0 <= v < 64 ==> alphabet[v] as int == Symbol(v)
  }

  lemma AlphabetIsOne()
    ensures IsAlphabet(ALPHABET)
  {
    AlphabetSize();
    forall v | 0 <= v < 64
      ensures ALPHABET[v] as int == Symbol(v)
    {
      AlphabetIs(v);
    }
  }

  /** The place of a symbol in the alphabet, 64 if it is none. */
  function PlaceFrom(alphabet: string, symbol: Byte, from: nat): (v: nat)
    requires from <= |alphabet|
    ensures from <= v <= |alphabet|
    ensures v < |alphabet| ==> alphabet[v] as int == symbol
    decreases |alphabet| - from
  {
    if from == |alphabet| || alphabet[from] as int == symbol then from else PlaceFrom(alphabet, symbol, from + 1)
  }

  function Place(alphabet: string, symbol: Byte): (v: nat)
    requires |alphabet| == 64
    ensures v <= 64
  {
    PlaceFrom(alphabet, symbol, 0)
  }

  lemma PlaceIsSymbol(alphabet: string, symbol: Byte)
    requires IsAlphabet(alphabet)
    ensures Place(alphabet, symbol) < 64 ==> Symbol(Place(alphabet, symbol)) == symbol
  {
    if Place(alphabet, symbol) < 64 {
      }
  }

  /** A symbol is found in its place, and the padding in none. */
  lemma SymbolIsPlaced(alphabet: string, v: nat)
    requires IsAlphabet(alphabet) && v < 64
    ensures Place(alphabet, Symbol(v)) == v
  {
    FoundBy(alphabet, Symbol(v), 0, v);
    PlaceIsSymbol(alphabet, Symbol(v));
    SymbolIsInjective(Place(alphabet, Symbol(v)), v);
  }

  lemma {:induction false} FoundBy(alphabet: string, symbol: Byte, from: nat, v: nat)
    requires from <= v < |alphabet| && alphabet[v] as int == symbol
    ensures PlaceFrom(alphabet, symbol, from) <= v
    decreases v - from
  {
    if from < v && alphabet[from] as int != symbol {
      FoundBy(alphabet, symbol, from + 1, v);
    }
  }

  lemma PaddingHasNoPlace(alphabet: string)
    requires IsAlphabet(alphabet)
    ensures Place(alphabet, PADDING) == 64
  {
    PlaceIsSymbol(alphabet, PADDING);
  }

  // The bytes of a group of four values.
  function Byte1(p: nat, q: nat): Byte requires p < 64 && q < 64 { p * 4 + q / 16 }
  function Byte2(q: nat, r: nat): Byte requires q < 64 && r < 64 { q % 16 * 16 + r / 4 }
  function Byte3(r: nat, t: nat): Byte requires r < 64 && t < 64 { r % 4 * 64 + t }

  datatype Decoded = Malformed | Data(bytes: seq<Byte>)

  /** Strict decoding: padding only at the end, and no bits set that encode nothing. */
  function DecodeWith(alphabet: string, text: seq<Byte>): Decoded
    requires |alphabet| == 64
  {
    if text == [] then Data([])
    else if |text| < 4 || Place(alphabet, text[0]) == 64 || Place(alphabet, text[1]) == 64 then Malformed
    else
      var p, q, r, t := Place(alphabet, text[0]), Place(alphabet, text[1]), Place(alphabet, text[2]), Place(alphabet, text[3]);
      if |text| == 4 && text[2] == PADDING && text[3] == PADDING then
        if q % 16 == 0 then Data([Byte1(p, q)]) else Malformed
      else if |text| == 4 && text[3] == PADDING then
        if r < 64 && r % 4 == 0 then Data([Byte1(p, q), Byte2(q, r)]) else Malformed
      else if r == 64 || t == 64 then Malformed
      else
        match DecodeWith(alphabet, text[4..])
        case Malformed => Malformed
        case Data(rest) => Data([Byte1(p, q), Byte2(q, r), Byte3(r, t)] + rest)
  }

  // ---------- Decoding undoes encoding ----------

  /** A group of three bytes and four values, cut into the bits they share. */
  datatype Parts = Parts(p: nat, u: nat, v: nat, w: nat, x: nat, t: nat)
  {
    predicate Valid() { p < 64 && u < 4 && v < 16 && w < 16 && x < 4 && t < 64 }
    function A(): nat { p * 4 + u }
    function B(): nat { v * 16 + w }
    function C(): nat { x * 64 + t }
    function Q(): nat { u * 16 + v }
    function R(): nat { w * 4 + x }
  }

  lemma PartsOfBytes(a: Byte, b: Byte, c: Byte) returns (g: Parts)
    ensures g.Valid() && g.A() == a && g.B() == b && g.C() == c
  {
    g := Parts(a / 4, a % 4, b / 16, b % 16, c / 64, c % 64);
  }

  lemma PartsOfValues(p: nat, q: nat, r: nat, t: nat) returns (g: Parts)
    requires p < 64 && q < 64 && r < 64 && t < 64
    ensures g.Valid() && g.p == p && g.Q() == q && g.R() == r && g.t == t
    ensures q % 16 == 0 <==> g.v == 0
    ensures r % 4 == 0 <==> g.x == 0
  {
    g := Parts(p, q / 16, q % 16, r / 4, r % 4, t);
  }

  lemma EncodedParts(g: Parts)
    requires g.Valid()
    ensures g.A() < 256 && g.B() < 256 && g.C() < 256
    ensures First(g.A()) == g.p && Second(g.A(), g.B()) == g.Q()
    ensures Third(g.B(), g.C()) == g.R() && Fourth(g.C()) == g.t
  {
  }

  lemma DecodedParts(g: Parts)
    requires g.Valid()
    ensures g.Q() < 64 && g.R() < 64
    ensures Byte1(g.p, g.Q()) == g.A() && Byte2(g.Q(), g.R()) == g.B() && Byte3(g.R(), g.t) == g.C()
    ensures (g.Q() % 16 == 0 <==> g.v == 0) && (g.R() % 4 == 0 <==> g.x == 0)
  {
  }

  /** The four symbols of a group. */
  function Symbols(g: Parts): seq<Byte>
    requires g.Valid()
  {
    [Symbol(g.p), Symbol(g.Q()), Symbol(g.R()), Symbol(g.t)]
  }

  function Group(g: Parts): seq<Byte>
    requires g.Valid()
    ensures |Group(g)| == 3
  {
    [g.A(), g.B(), g.C()]
  }

  lemma EncodeGroup(g: Parts, rest: seq<Byte>)
    requires g.Valid()
    ensures g.A() < 256 && g.B() < 256 && g.C() < 256 && Encode(Group(g) + rest) == Symbols(g) + Encode(rest)
  {
    EncodedParts(g);
    var data := Group(g) + rest;
    assert data[0] == g.A() && data[1] == g.B() && data[2] == g.C() && data[3..] == rest;
  }

  lemma EncodeTwo(g: Parts)
    requires g.Valid() && g.C() == 0
    ensures g.A() < 256 && g.B() < 256 && Encode([g.A(), g.B()]) == Symbols(g)[..3] + [PADDING]
  {
    EncodedParts(g);
  }

  lemma EncodeOne(g: Parts)
    requires g.Valid() && g.B() == 0 && g.C() == 0
    ensures g.A() < 256 && Encode([g.A()]) == Symbols(g)[..2] + [PADDING, PADDING]
  {
    EncodedParts(g);
  }

  lemma PlacesOfSymbols(alphabet: string, g: Parts)
    requires IsAlphabet(alphabet) && g.Valid()
    ensures var s := Symbols(g);
            && Place(alphabet, s[0]) == g.p && Place(alphabet, s[1]) == g.Q()
            && Place(alphabet, s[2]) == g.R() && Place(alphabet, s[3]) == g.t
  {
    SymbolIsPlaced(alphabet, g.p);
    SymbolIsPlaced(alphabet, g.Q());
    SymbolIsPlaced(alphabet, g.R());
    SymbolIsPlaced(alphabet, g.t);
  }

  lemma DecodeGroup(alphabet: string, g: Parts, text: seq<Byte>)
    requires IsAlphabet(alphabet) && g.Valid() && |text| >= 4 && text[..4] == Symbols(g) && DecodeWith(alphabet, text[4..]).Data?
    ensures DecodeWith(alphabet, text) == Data(Group(g) + DecodeWith(alphabet, text[4..]).bytes)
  {
    PlacesOfSymbols(alphabet, g);
    DecodedParts(g);
    assert text[0] == Symbols(g)[0] && text[1] == Symbols(g)[1] && text[2] == Symbols(g)[2] && text[3] == Symbols(g)[3];
  }

  lemma DecodeTwoAt(alphabet: string, text: seq<Byte>, p: nat, q: nat, r: nat)
    requires |alphabet| == 64 && |text| == 4 && text[2] != PADDING && text[3] == PADDING
    requires Place(alphabet, text[0]) == p < 64 && Place(alphabet, text[1]) == q < 64 && Place(alphabet, text[2]) == r < 64
    requires r % 4 == 0
    ensures DecodeWith(alphabet, text) == Data([Byte1(p, q), Byte2(q, r)])
  {
  }

  lemma DecodeTwo(alphabet: string, g: Parts, text: seq<Byte>)
    requires IsAlphabet(alphabet) && g.Valid() && g.C() == 0 && text == Symbols(g)[..3] + [PADDING]
    ensures DecodeWith(alphabet, text) == Data([g.A(), g.B()])
  {
    assert text[0] == Symbols(g)[0] && text[1] == Symbols(g)[1] && text[2] == Symbols(g)[2];
    PlacesOfSymbols(alphabet, g);
    DecodedParts(g);
    DecodeTwoAt(alphabet, text, g.p, g.Q(), g.R());
  }

  lemma DecodeOneAt(alphabet: string, text: seq<Byte>, p: nat, q: nat)
    requires |alphabet| == 64 && |text| == 4 && text[2] == PADDING && text[3] == PADDING
    requires Place(alphabet, text[0]) == p < 64 && Place(alphabet, text[1]) == q < 64 && q % 16 == 0
    ensures DecodeWith(alphabet, text) == Data([Byte1(p, q)])
  {
  }

  lemma DecodeOne(alphabet: string, g: Parts, text: seq<Byte>)
    requires IsAlphabet(alphabet) && g.Valid() && g.B() == 0 && g.C() == 0 && text == Symbols(g)[..2] + [PADDING, PADDING]
    ensures DecodeWith(alphabet, text) == Data([g.A()])
  {
    assert text[0] == Symbols(g)[0] && text[1] == Symbols(g)[1];
    PlacesOfSymbols(alphabet, g);
    DecodedParts(g);
    DecodeOneAt(alphabet, text, g.p, g.Q());
  }

  lemma DecodeShort(alphabet: string, data: seq<Byte>)
    requires IsAlphabet(alphabet) && 0 < |data| < 3
    ensures DecodeWith(alphabet, Encode(data)) == Data(data)
  {
    if |data| == 1 {
      var g := PartsOfBytes(data[0], 0, 0);
      EncodeOne(g);
      assert data == [g.A()];
      DecodeOne(alphabet, g, Encode(data));
    } else {
      var g := PartsOfBytes(data[0], data[1], 0);
      EncodeTwo(g);
      assert data == [g.A(), g.B()];
      DecodeTwo(alphabet, g, Encode(data));
    }
  }

  /** What was encoded is decoded. */
  lemma {:induction false} DecodeEncode(alphabet: string, data: seq<Byte>)
    requires IsAlphabet(alphabet)
    ensures DecodeWith(alphabet, Encode(data)) == Data(data)
  {
    if 0 < |data| < 3 {
      DecodeShort(alphabet, data);
    } else if |data| >= 3 {
      var rest := data[3..];
      DecodeEncode(alphabet, rest);
      var g := PartsOfBytes(data[0], data[1], data[2]);
      assert data == Group(g) + rest;
      EncodeGroup(g, rest);
      var text := Encode(data);
      assert text[..4] == Symbols(g) && text[4..] == Encode(rest);
      DecodeGroup(alphabet, g, text);
    }
  }

  /** The shape of a text that is decoded. */
  lemma DecodedShape(alphabet: string, text: seq<Byte>)
    requires IsAlphabet(alphabet) && DecodeWith(alphabet, text).Data? && text != []
    ensures |text| >= 4 && Place(alphabet, text[0]) < 64 && Place(alphabet, text[1]) < 64
    ensures var p, q, r, t := Place(alphabet, text[0]), Place(alphabet, text[1]), Place(alphabet, text[2]), Place(alphabet, text[3]);
            if |text| == 4 && text[2] == PADDING && text[3] == PADDING then
              q % 16 == 0 && DecodeWith(alphabet, text).bytes == [Byte1(p, q)]
            else if |text| == 4 && text[3] == PADDING then
              r < 64 && r % 4 == 0 && DecodeWith(alphabet, text).bytes == [Byte1(p, q), Byte2(q, r)]
            else
              && r < 64 && t < 64 && DecodeWith(alphabet, text[4..]).Data?
              && DecodeWith(alphabet, text).bytes == [Byte1(p, q), Byte2(q, r), Byte3(r, t)] + DecodeWith(alphabet, text[4..]).bytes
  {
  }

  /** The parts behind four symbols, a missing value being 0. */
  lemma PartsOfText(p: nat, q: nat, r: nat, t: nat) returns (g: Parts)
    requires p < 64 && q < 64 && r < 64 && t < 64
    ensures g.Valid() && Symbols(g) == [Symbol(p), Symbol(q), Symbol(r), Symbol(t)]
    ensures Byte1(p, q) == g.A() && Byte2(q, r) == g.B() && Byte3(r, t) == g.C()
    ensures q % 16 == 0 && r == 0 ==> g.B() == 0
    ensures r % 4 == 0 && t == 0 ==> g.C() == 0
  {
    g := PartsOfValues(p, q, r, t);
    DecodedParts(g);
  }

  // Bytes that were packed from values are encoded by these.
  lemma OneEncodesBack(p: nat, q: nat, bytes: seq<Byte>, text: seq<Byte>)
    requires p < 64 && q < 64 && q % 16 == 0
    requires bytes == [Byte1(p, q)] && text == [Symbol(p), Symbol(q), PADDING, PADDING]
    ensures Encode(bytes) == text
  {
    var g := PartsOfText(p, q, 0, 0);
    EncodeOne(g);
  }

  lemma TwoEncodeBack(p: nat, q: nat, r: nat, bytes: seq<Byte>, text: seq<Byte>)
    requires p < 64 && q < 64 && r < 64 && r % 4 == 0
    requires bytes == [Byte1(p, q), Byte2(q, r)] && text == [Symbol(p), Symbol(q), Symbol(r), PADDING]
    ensures Encode(bytes) == text
  {
    var g := PartsOfText(p, q, r, 0);
    EncodeTwo(g);
  }

  lemma GroupEncodesBack(p: nat, q: nat, r: nat, t: nat, rest: seq<Byte>, bytes: seq<Byte>, text: seq<Byte>)
    requires p < 64 && q < 64 && r < 64 && t < 64
    requires bytes == [Byte1(p, q), Byte2(q, r), Byte3(r, t)] + rest
    requires text == [Symbol(p), Symbol(q), Symbol(r), Symbol(t)] + Encode(rest)
    ensures Encode(bytes) == text
  {
    var g := PartsOfText(p, q, r, t);
    EncodeGroup(g, rest);
    assert bytes == Group(g) + rest;
  }

  lemma SymbolAt(alphabet: string, text: seq<Byte>, i: nat)
    requires IsAlphabet(alphabet) && i < |text| && Place(alphabet, text[i]) < 64
    ensures text[i] == Symbol(Place(alphabet, text[i]))
  {
    PlaceIsSymbol(alphabet, text[i]);
  }

  lemma OneDecodesBack(alphabet: string, text: seq<Byte>, data: seq<Byte>)
    requires IsAlphabet(alphabet) && DecodeWith(alphabet, text) == Data(data)
    requires |text| == 4 && text[2] == PADDING && text[3] == PADDING
    ensures text == Encode(data)
  {
    DecodedShape(alphabet, text);
    SymbolAt(alphabet, text, 0);
    SymbolAt(alphabet, text, 1);
    OneEncodesBack(Place(alphabet, text[0]), Place(alphabet, text[1]), data, text);
  }

  lemma TwoDecodeBack(alphabet: string, text: seq<Byte>, data: seq<Byte>)
    requires IsAlphabet(alphabet) && DecodeWith(alphabet, text) == Data(data)
    requires |text| == 4 && text[2] != PADDING && text[3] == PADDING
    ensures text == Encode(data)
  {
    DecodedShape(alphabet, text);
    SymbolAt(alphabet, text, 0);
    SymbolAt(alphabet, text, 1);
    SymbolAt(alphabet, text, 2);
    TwoEncodeBack(Place(alphabet, text[0]), Place(alphabet, text[1]), Place(alphabet, text[2]), data, text);
  }

  lemma TextOfPlaces(alphabet: string, text: seq<Byte>)
    requires IsAlphabet(alphabet) && |text| >= 4
    requires Place(alphabet, text[0]) < 64 && Place(alphabet, text[1]) < 64
    requires Place(alphabet, text[2]) < 64 && Place(alphabet, text[3]) < 64
    ensures text == [Symbol(Place(alphabet, text[0])), Symbol(Place(alphabet, text[1])),
                     Symbol(Place(alphabet, text[2])), Symbol(Place(alphabet, text[3]))] + text[4..]
  {
    SymbolAt(alphabet, text, 0);
    SymbolAt(alphabet, text, 1);
    SymbolAt(alphabet, text, 2);
    SymbolAt(alphabet, text, 3);
    assert text == [text[0], text[1], text[2], text[3]] + text[4..];
  }

  lemma GroupDecodesBack(alphabet: string, text: seq<Byte>, rest: seq<Byte>, data: seq<Byte>)
    requires IsAlphabet(alphabet) && DecodeWith(alphabet, text) == Data(data) && |text| >= 4
    requires |text| == 4 ==> text[3] != PADDING
    requires DecodeWith(alphabet, text[4..]) == Data(rest) && text[4..] == Encode(rest)
    ensures text == Encode(data)
  {
    DecodedShape(alphabet, text);
    TextOfPlaces(alphabet, text);
    var p, q, r, t := Place(alphabet, text[0]), Place(alphabet, text[1]), Place(alphabet, text[2]), Place(alphabet, text[3]);
    assert data == [Byte1(p, q), Byte2(q, r), Byte3(r, t)] + rest;
    GroupEncodesBack(p, q, r, t, rest, data, text);
  }

  lemma DecodedLength(alphabet: string, text: seq<Byte>)
    requires IsAlphabet(alphabet) && DecodeWith(alphabet, text).Data? && text != []
    ensures |text| >= 4 && ((|text| == 4 && text[3] == PADDING) || DecodeWith(alphabet, text[4..]).Data?)
  {
    DecodedShape(alphabet, text);
  }

  /** And only that is: a text decodes to the data that it is the encoding of. */
  lemma {:induction false} EncodeDecode(alphabet: string, text: seq<Byte>, data: seq<Byte>)
    requires IsAlphabet(alphabet) && DecodeWith(alphabet, text) == Data(data)
    ensures text == Encode(data)
    decreases |text|
  {
    if text != [] {
      DecodedLength(alphabet, text);
      if |text| == 4 && text[3] == PADDING {
        if text[2] == PADDING {
          OneDecodesBack(alphabet, text, data);
        } else {
          TwoDecodeBack(alphabet, text, data);
        }
      } else {
        var rest := DecodeWith(alphabet, text[4..]).bytes;
        EncodeDecode(alphabet, text[4..], rest);
        GroupDecodesBack(alphabet, text, rest, data);
      }
    }
  }

  /** Decoding with the alphabet of the standard. */
  function Decode(text: seq<Byte>): Decoded
  {
    AlphabetSize();
    DecodeWith(ALPHABET, text)
  }

  /** A text decodes to some data exactly if it is the encoding of the data. */
  lemma DecodesExactly(text: seq<Byte>, data: seq<Byte>)
    ensures Decode(text) == Data(data) <==> text == Encode(data)
  {
    AlphabetIsOne();
    DecodeEncode(ALPHABET, data);
    if Decode(text) == Data(data) {
      EncodeDecode(ALPHABET, text, data);
    }
  }

  /** Different data have different encodings. */
  lemma EncodeIsInjective(a: seq<Byte>, b: seq<Byte>)
    requires Encode(a) == Encode(b)
    ensures a == b
  {
    DecodesExactly(Encode(a), a);
    DecodesExactly(Encode(a), b);
  }
}
