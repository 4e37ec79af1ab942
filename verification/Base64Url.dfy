// The base64url decoder of the mobile client (apps/android-tracker/src/api/jwt.ts). It never
// masks its bit buffer, which JavaScript keeps as a signed 32-bit number and lets wrap around.
module Base64Url {

  type Byte = x: int | 0 <= x < 256

  // ---- JavaScript's 32-bit operators, on whole numbers ----

  // ToInt32: reduce modulo 2^32 into the signed range.
  function ToInt32(x: int): int {
    (x + 0x8000_0000) % 0x1_0000_0000 - 0x8000_0000
  }

  function Power2(n: nat): (p: nat)
    ensures p > 0
  {
    if n == 0 then 1 else 2 * Power2(n - 1)
  }

  // (buffer << 6) | value, for a value of six bits: the shift leaves the low six bits clear.
  function Push(buffer: int, value: int): int {
    ToInt32(buffer * 64) + value
  }

  // (buffer >> bits) & 0xff: an arithmetic shift rounds down, and the mask keeps eight bits.
  function Peek(buffer: int, bits: nat): Byte {
    buffer / Power2(bits) % 256
  }

  // ---- the alphabet ----

  // input.replace(/-/g, '+').replace(/_/g, '/')
  function Standard(ch: char): char {
    if ch == '-' then '+' else if ch == '_' then '/' else ch
  }

  // B64_ALPHABET.indexOf: A-Z, a-z, 0-9, + and /, in this order.
  function IndexOf(ch: char): (v: int)
    ensures -1 <= v < 64
  {
    if 'A' <= ch <= 'Z' then ch as int - 'A' as int
    else if 'a' <= ch <= 'z' then ch as int - 'a' as int + 26
    else if '0' <= ch <= '9' then ch as int - '0' as int + 52
    else if ch == '+' then 62
    else if ch == '/' then 63
    else -1
  }

  // ---- the decoder ----

  datatype Decoding = Decoding(buffer: int, bits: nat, output: seq<Byte>)

  function Feed(d: Decoding, value: int): Decoding {
    var buffer, bits := Push(d.buffer, value), d.bits + 6;
    if bits >= 8 then Decoding(buffer, bits - 8, d.output + [Peek(buffer, bits - 8)])
    else Decoding(buffer, bits, d.output)
  }

  function DecodeFrom(d: Decoding, text: string): Decoding
    decreases |text|
  {
    if text == "" || Standard(text[0]) == '=' then d
    else
      var value := IndexOf(Standard(text[0]));
      DecodeFrom(if value == -1 then d else Feed(d, value), text[1..])
  }

  function Decode(text: string): seq<Byte> {
    DecodeFrom(Decoding(0, 0, []), text).output
  }

  method Base64UrlDecode(input: string) returns (output: seq<Byte>)
    ensures output == Decode(input)
  {
    var str := seq(|input|, i requires 0 <= i < |input| => Standard(input[i]));
    output := [];
    var buffer, bits := 0, 0;
    var i := 0;
    while i < |str|
      invariant i <= |str|
      invariant DecodeFrom(Decoding(0, 0, []), input) == DecodeFrom(Decoding(buffer, bits, output), input[i..])
    {
      var ch := str[i];
      assert input[i..][1..] == input[i + 1..];
      if ch == '=' {
        break;
      }
      var val := IndexOf(ch);
      i := i + 1;
      if val == -1 {
        continue;
      }
      buffer := Push(buffer, val);
      bits := bits + 6;
      if bits >= 8 {
        bits := bits - 8;
        output := output + [Peek(buffer, bits)];
      }
    }
  }

  // ---- the same decoder with a masked buffer ----

  function FeedMasked(d: Decoding, value: int): Decoding {
    var buffer, bits := d.buffer * 64 + value, d.bits + 6;
    if bits >= 8 then Decoding(buffer % Power2(bits - 8), bits - 8, d.output + [buffer / Power2(bits - 8) % 256])
    else Decoding(buffer, bits, d.output)
  }

  function DecodeMaskedFrom(d: Decoding, text: string): Decoding
    decreases |text|
  {
    if text == "" || Standard(text[0]) == '=' then d
    else
      var value := IndexOf(Standard(text[0]));
      DecodeMaskedFrom(if value == -1 then d else FeedMasked(d, value), text[1..])
  }

  // The two decoders agree on what is pending and on what was put out; the masked buffer holds
  // no more than the pending bits.
  ghost predicate Agree(d: Decoding, m: Decoding) {
    && d.bits == m.bits < 8 && d.output == m.output
    && 0 <= m.buffer < Power2(m.bits) && d.buffer % Power2(d.bits) == m.buffer
  }

  // ---- arithmetic modulo powers of two ----

  lemma {:induction false} PowerAdds(a: nat, b: nat)
    ensures Power2(a + b) == Power2(a) * Power2(b)
  {
    if a > 0 {
      PowerAdds(a - 1, b);
      DoublingMoves(Power2(a - 1), Power2(b));
      hide *;
      PowerStep(a);
      PowerStep(a + b);
    }
  }

  lemma PowerStep(a: nat)
    requires a > 0
    ensures Power2(a) == 2 * Power2(a - 1)
  {
  }

  lemma DoublingMoves(x: nat, y: nat)
    ensures 2 * (x * y) == (2 * x) * y
  {
  }

  lemma SmallPowers()
    ensures Power2(6) == 64 && Power2(8) == 256
  {
    assert Power2(3) == 8;
    PowerAdds(3, 3);
    PowerAdds(6, 2);
  }

  lemma MultipleIsLarge(z: int, d: int)
    requires d > 0
    ensures z >= 1 ==> z * d >= d
    ensures z <= -1 ==> z * d <= -d
  {
    if z >= 1 {
      assert (z - 1) * d >= 0;
    } else if z <= -1 {
      assert (-z - 1) * d >= 0;
    }
  }

  // Quotient and remainder are determined by their size.
  lemma DivisionIs(x: int, d: int, q: int, r: int)
    requires d > 0 && 0 <= r < d && x == q * d + r
    ensures x / d == q && x % d == r
  {
    var q', r' := x / d, x % d;
    assert x == q' * d + r';
    assert (q - q') * d == r' - r by {
      assert (q - q') * d == q * d - q' * d;
    }
    MultipleIsLarge(q - q', d);
  }

  lemma ModOfMultiple(x: int, k: int, d: int)
    requires d > 0
    ensures (x + k * d) % d == x % d
  {
    assert x == x / d * d + x % d;
    assert x + k * d == (x / d + k) * d + x % d by {
      assert (x / d + k) * d == x / d * d + k * d;
    }
    DivisionIs(x + k * d, d, x / d + k, x % d);
  }

  // Wrapping to 32 bits changes nothing below the 32nd bit.
  lemma WrapKeepsLowBits(x: int, n: nat)
    requires n <= 32
    ensures ToInt32(x) % Power2(n) == x % Power2(n)
  {
    PowerAdds(n, 32 - n);
    Power32();
    WrapKeepsRemainder(x, Power2(n), Power2(32 - n));
    hide *;
  }

  lemma WrapKeepsRemainder(x: int, p: nat, q: nat)
    requires p > 0 && p * q == 0x1_0000_0000
    ensures ToInt32(x) % p == x % p
  {
    var k := WrapsBy(x);
    Reassociate(k, p, q);
    assert ToInt32(x) == x + (-(k * q)) * p by {
      hide ToInt32;
      NegatedProduct(k * q, p);
    }
    hide ToInt32;
    ModOfMultiple(x, -(k * q), p);
  }

  lemma NegatedProduct(a: int, b: int)
    ensures (-a) * b == -(a * b)
  {
  }

  lemma WrapsBy(x: int) returns (k: int)
    ensures ToInt32(x) == x - k * 0x1_0000_0000
  {
    k := (x + 0x8000_0000) / 0x1_0000_0000;
  }

  lemma Reassociate(k: int, a: int, b: int)
    ensures k * (a * b) == (k * b) * a
  {
  }

  lemma Power32()
    ensures Power2(32) == 0x1_0000_0000
  {
    SmallPowers();
    PowerAdds(8, 8);
    PowerAdds(16, 16);
  }

  // ---- masking changes nothing ----

  lemma ScaledRemainder(x: int, p: int)
    requires p > 0
    ensures (x * 64) % (p * 64) == x % p * 64
  {
    assert x * 64 == x / p * (p * 64) + x % p * 64 by {
      assert x == x / p * p + x % p;
      Reassociate(x / p, p, 64);
      assert x / p * (p * 64) == (x / p * p) * 64;
    }
    DivisionIs(x * 64, p * 64, x / p, x % p * 64);
  }

  // After a push, the pending bits are the old ones followed by the new six.
  lemma PushAppends(buffer: int, bits: nat, value: int)
    requires bits < 8 && 0 <= value < 64
    ensures Push(buffer, value) % Power2(bits + 6) == buffer % Power2(bits) * 64 + value
    ensures 0 <= buffer % Power2(bits) * 64 + value < Power2(bits + 6)
  {
    hide Power2, ToInt32;
    SmallPowers();
    PowerAdds(bits, 6);
    WrapKeepsLowBits(buffer * 64, bits + 6);
    ScaledRemainder(buffer, Power2(bits));
    AddBelow(ToInt32(buffer * 64), Power2(bits) * 64, buffer % Power2(bits) * 64, value);
  }

  // Adding to a remainder that has room for it.
  lemma AddBelow(x: int, d: int, r: int, value: int)
    requires d > 0 && x % d == r && 0 <= value && r + value < d
    ensures (x + value) % d == r + value
  {
    assert x == x / d * d + r;
    DivisionIs(x + value, d, x / d, r + value);
  }

  // The byte above the low bits, and the low bits, depend on the pending bits only.
  lemma PeekIsPending(buffer: int, pending: int, bits: nat)
    requires buffer % Power2(bits + 8) == pending
    ensures Peek(buffer, bits) == pending / Power2(bits) % 256
    ensures buffer % Power2(bits) == pending % Power2(bits)
  {
    var d := Power2(bits);
    SmallPowers();
    PowerAdds(bits, 8);
    var q := buffer / (d * 256);
    assert buffer == q * (d * 256) + pending;
    assert pending == pending / d * d + pending % d;
    assert buffer == (q * 256 + pending / d) * d + pending % d by {
      Reassociate(q, d, 256);
      assert (q * 256 + pending / d) * d == (q * 256) * d + pending / d * d;
    }
    DivisionIs(buffer, d, q * 256 + pending / d, pending % d);
    ModOfMultiple(pending / d, q, 256);
  }

  lemma FeedAgrees(d: Decoding, m: Decoding, value: int)
    requires Agree(d, m) && 0 <= value < 64
    ensures Agree(Feed(d, value), FeedMasked(m, value))
  {
    PushAppends(d.buffer, d.bits, value);
    if d.bits + 6 >= 8 {
      PeekIsPending(Push(d.buffer, value), m.buffer * 64 + value, d.bits - 2);
    }
    hide Push, Peek, Power2;
  }

  lemma {:induction false} MaskingAgrees(d: Decoding, m: Decoding, text: string)
    requires Agree(d, m)
    ensures Agree(DecodeFrom(d, text), DecodeMaskedFrom(m, text))
    decreases |text|
  {
    hide Feed, FeedMasked, Agree;
    if text != "" && Standard(text[0]) != '=' {
      var value := IndexOf(Standard(text[0]));
      if value == -1 {
        MaskingAgrees(d, m, text[1..]);
      } else {
        FeedAgrees(d, m, value);
        MaskingAgrees(Feed(d, value), FeedMasked(m, value), text[1..]);
      }
    }
  }

  // For any text at all, letting the buffer wrap gives the bytes that masking it would.
  lemma {:induction false} WrappingIsHarmless(text: string)
    ensures Decode(text) == DecodeMaskedFrom(Decoding(0, 0, []), text).output
  {
    MaskingAgrees(Decoding(0, 0, []), Decoding(0, 0, []), text);
  }

  // ---- the encoder of RFC 4648, section 5 ----

  function Symbol(v: int): (ch: char)
    requires 0 <= v < 64
    ensures IndexOf(Standard(ch)) == v && ch != '='
  {
    if v < 26 then (v + 'A' as int) as char
    else if v < 52 then (v - 26 + 'a' as int) as char
    else if v < 62 then (v - 52 + '0' as int) as char
    else if v == 62 then '-'
    else '_'
  }

  // Three bytes become four symbols; one or two left over become two or three.
  function Encode(b: seq<Byte>): string {
    if |b| == 0 then ""
    else if |b| == 1 then [Symbol(b[0] / 4), Symbol(b[0] % 4 * 16)]
    else if |b| == 2 then [Symbol(b[0] / 4), Symbol(b[0] % 4 * 16 + b[1] / 16), Symbol(b[1] % 16 * 4)]
    else
      [Symbol(b[0] / 4), Symbol(b[0] % 4 * 16 + b[1] / 16), Symbol(b[1] % 16 * 4 + b[2] / 64), Symbol(b[2] % 64)]
      + Encode(b[3..])
  }

  // Feeding one symbol after another.
  lemma FeedSymbol(d: Decoding, v: int, rest: string)
    requires 0 <= v < 64
    ensures DecodeMaskedFrom(d, [Symbol(v)] + rest) == DecodeMaskedFrom(FeedMasked(d, v), rest)
  {
    var text := [Symbol(v)] + rest;
    assert text[0] == Symbol(v) && text[1..] == rest;
    assert Standard(Symbol(v)) != '=';
  }

  lemma Powers()
    ensures Power2(0) == 1 && Power2(2) == 4 && Power2(4) == 16
  {
    assert Power2(1) == 2;
    PowerAdds(1, 1);
    PowerAdds(2, 2);
  }

  // The first byte comes out of the first two symbols, the second out of the third, and so on.
  lemma FeedGroup(output: seq<Byte>, x: Byte, y: Byte, z: Byte)
    ensures
      var two := FeedMasked(FeedMasked(Decoding(0, 0, output), x / 4), x % 4 * 16 + y / 16);
      var three := FeedMasked(two, y % 16 * 4 + z / 64);
      && two == Decoding(y / 16, 4, output + [x])
      && three == Decoding(z / 64, 2, output + [x, y])
      && FeedMasked(three, z % 64) == Decoding(0, 0, output + [x, y, z])
  {
    Powers();
    var one := FeedMasked(Decoding(0, 0, output), x / 4);
    assert one == Decoding(x / 4, 6, output);
    FeedTwo(output, x, y);
    FeedThree(output + [x], y, z);
    FeedFour(output + [x, y], z);
    assert output + [x] + [y] == output + [x, y];
    assert output + [x, y] + [z] == output + [x, y, z];
  }

  lemma FeedTwo(output: seq<Byte>, x: Byte, y: Byte)
    ensures FeedMasked(Decoding(x / 4, 6, output), x % 4 * 16 + y / 16) == Decoding(y / 16, 4, output + [x])
  {
    Powers();
    var buffer := x / 4 * 64 + (x % 4 * 16 + y / 16);
    assert buffer == x * 16 + y / 16;
    DivisionIs(buffer, 16, x, y / 16);
    hide Power2;
  }

  lemma FeedThree(output: seq<Byte>, y: Byte, z: Byte)
    ensures FeedMasked(Decoding(y / 16, 4, output), y % 16 * 4 + z / 64) == Decoding(z / 64, 2, output + [y])
  {
    Powers();
    var buffer := y / 16 * 64 + (y % 16 * 4 + z / 64);
    assert buffer == y * 4 + z / 64;
    DivisionIs(buffer, 4, y, z / 64);
    hide Power2;
  }

  lemma FeedFour(output: seq<Byte>, z: Byte)
    ensures FeedMasked(Decoding(z / 64, 2, output), z % 64) == Decoding(0, 0, output + [z])
  {
    Powers();
    hide Power2;
  }

  // Feeding several six-bit values.
  function FeedValues(d: Decoding, values: seq<int>): Decoding {
    if values == [] then d else FeedMasked(FeedValues(d, values[..|values| - 1]), values[|values| - 1])
  }

  predicate SixBits(values: seq<int>) {
    forall i :: 0 <= i < |values| ==> 0 <= values[i] < 64
  }

  function Symbols(values: seq<int>): string
    requires SixBits(values)
  {
    seq(|values|, i requires 0 <= i < |values| => Symbol(values[i]))
  }

  lemma {:induction false} FeedSymbols(d: Decoding, values: seq<int>, rest: string)
    requires SixBits(values)
    ensures DecodeMaskedFrom(d, Symbols(values) + rest) == DecodeMaskedFrom(FeedValues(d, values), rest)
    decreases |values|
  {
    hide FeedMasked, DecodeMaskedFrom, Symbol;
    if values == [] {
      assert Symbols(values) + rest == rest;
    } else {
      var front, last := values[..|values| - 1], values[|values| - 1];
      assert Symbols(values) + rest == Symbols(front) + ([Symbol(last)] + rest);
      FeedSymbols(d, front, [Symbol(last)] + rest);
      FeedSymbol(FeedValues(d, front), last, rest);
    }
  }

  // The values of the symbols that encode one, two or three bytes.
  function Values(x: Byte, y: Byte, z: Byte): (v: seq<int>)
    ensures |v| == 4 && SixBits(v)
  {
    [x / 4, x % 4 * 16 + y / 16, y % 16 * 4 + z / 64, z % 64]
  }

  lemma FeedBytes(output: seq<Byte>, x: Byte, y: Byte, z: Byte)
    ensures
      var start, v := Decoding(0, 0, output), Values(x, y, z);
      && FeedValues(start, v[..2]) == Decoding(y / 16, 4, output + [x])
      && FeedValues(start, v[..3]) == Decoding(z / 64, 2, output + [x, y])
      && FeedValues(start, v) == Decoding(0, 0, output + [x, y, z])
  {
    hide FeedMasked;
    FeedGroup(output, x, y, z);
    var start, v := Decoding(0, 0, output), Values(x, y, z);
    assert v[..1][..0] == [] && v[..2][..1] == v[..1] && v[..3][..2] == v[..2] && v[..4][..3] == v[..3] && v[..4] == v;
    assert FeedValues(start, v[..0]) == start;
    assert FeedValues(start, v[..1]) == FeedMasked(start, v[0]);
    assert FeedValues(start, v[..2]) == FeedMasked(FeedMasked(start, v[0]), v[1]);
  }

  // From a byte boundary, the text of some bytes puts out those bytes.
  lemma {:induction false} DecodesFrom(output: seq<Byte>, b: seq<Byte>, rest: string)
    requires rest == "" || Standard(rest[0]) == '='
    ensures DecodeMaskedFrom(Decoding(0, 0, output), Encode(b) + rest).output == output + b
    decreases |b|
  {
    hide DecodeMaskedFrom, Encode, Standard;
    if |b| < 3 {
      DecodesRest(output, b, rest);
    } else {
      DecodesGroup(output, b, rest);
      DecodesFrom(output + b[..3], b[3..], rest);
      assert output + b[..3] + b[3..] == output + b;
    }
  }

  lemma DecodesRest(output: seq<Byte>, b: seq<Byte>, rest: string)
    requires |b| < 3 && (rest == "" || Standard(rest[0]) == '=')
    ensures DecodeMaskedFrom(Decoding(0, 0, output), Encode(b) + rest).output == output + b
  {
    hide DecodeMaskedFrom, Symbol, FeedValues, Standard;
    var start := Decoding(0, 0, output);
    if |b| == 0 {
      assert Encode(b) + rest == rest && output + b == output;
      StopsAt(start, rest);
    } else if |b| == 1 {
      FeedBytes(output, b[0], 0, 0);
      FeedSymbols(start, Values(b[0], 0, 0)[..2], rest);
      assert Encode(b) == Symbols(Values(b[0], 0, 0)[..2]) && b == [b[0]];
      StopsAt(Decoding(0, 4, output + b), rest);
    } else {
      FeedBytes(output, b[0], b[1], 0);
      FeedSymbols(start, Values(b[0], b[1], 0)[..3], rest);
      assert Encode(b) == Symbols(Values(b[0], b[1], 0)[..3]) && b == [b[0], b[1]];
      StopsAt(Decoding(0, 2, output + b), rest);
    }
  }

  lemma StopsAt(d: Decoding, rest: string)
    requires rest == "" || Standard(rest[0]) == '='
    ensures DecodeMaskedFrom(d, rest) == d
  {
  }

  lemma DecodesGroup(output: seq<Byte>, b: seq<Byte>, rest: string)
    requires |b| >= 3
    ensures DecodeMaskedFrom(Decoding(0, 0, output), Encode(b) + rest)
            == DecodeMaskedFrom(Decoding(0, 0, output + b[..3]), Encode(b[3..]) + rest)
  {
    hide DecodeMaskedFrom, Symbol, FeedValues;
    var v, more := Values(b[0], b[1], b[2]), Encode(b[3..]) + rest;
    FeedBytes(output, b[0], b[1], b[2]);
    FeedSymbols(Decoding(0, 0, output), v, more);
    assert Encode(b) + rest == Symbols(v) + more;
    assert b[..3] == [b[0], b[1], b[2]];
  }

  // Any bytes come back from their base64url text, padded, unpadded, or followed by
  // anything at all after a padding sign.
  lemma {:induction false} RoundTrip(b: seq<Byte>, rest: string)
    ensures Decode(Encode(b)) == b
    ensures Decode(Encode(b) + "=" + rest) == b
  {
    WrappingIsHarmless(Encode(b));
    assert Encode(b) + "" == Encode(b);
    DecodesFrom([], b, "");
    var tail := "=" + rest;
    assert tail[0] == '=';
    assert Encode(b) + "=" + rest == Encode(b) + tail;
    WrappingIsHarmless(Encode(b) + tail);
    DecodesFrom([], b, tail);
    assert [] + b == b;
  }

  // Characters outside the alphabet are skipped wherever they stand.
  lemma {:induction false} JunkIsSkipped(d: Decoding, before: string, junk: char, after: string)
    requires IndexOf(Standard(junk)) == -1 && Standard(junk) != '='
    ensures DecodeFrom(d, before + [junk] + after) == DecodeFrom(d, before + after)
    decreases |before|
  {
    hide Feed;
    if before == "" {
      assert (before + [junk] + after)[1..] == after && before + after == after;
    } else {
      assert (before + [junk] + after)[1..] == before[1..] + [junk] + after;
      assert (before + after)[1..] == before[1..] + after;
      if Standard(before[0]) != '=' {
        var value := IndexOf(Standard(before[0]));
        JunkIsSkipped(if value == -1 then d else Feed(d, value), before[1..], junk, after);
      }
    }
  }
}
