/** Bytes on the wire: the readers and writers of numbers, length-prefixed fields and the
    variable-length integer of section 2.2.3 of MQTT 3.1.1. */
module Wire {
  type Byte = bv8
  type Bytes = seq<Byte>
  type Word = x: int | 0 <= x < 0x1_0000

  datatype Got<+T> = Got(value: T, rest: Bytes) | Eof

  const MAX_LENGTH: nat := 268_435_455
  const MAX_FIELD: nat := 65_535

  // ---------------------------------------------------------------- readers

  function Zeros(n: nat): (z: Bytes)
    ensures |z| == n && forall i | 0 <= i < n :: z[i] == 0
  {
    seq(n, _ => 0)
  }

  /** bytes.Buffer.Read into n zeroed bytes: a short read is no error, and the end of the buffer is
      one only when something was asked for. */
  function Take(b: Bytes, n: nat): (g: Got<Bytes>)
    ensures g.Got? ==> |g.value| == n
  {
    if b == [] && n > 0 then Eof
    else if n <= |b| then Got(b[..n], b[n..])
    else Got(b + Zeros(n - |b|), [])
  }

  /** io.ReadFull. */
  function TakeFull(b: Bytes, n: nat): Got<Bytes> {
    if n <= |b| then Got(b[..n], b[n..]) else Eof
  }

  /** A bytes.Buffer or a connection: what has not been read yet. */
  class Buffer {
    var data: Bytes

    constructor (data: Bytes)
      ensures this.data == data
    {
      this.data := data;
    }

    method Write(bytes: Bytes)
      modifies this
      ensures data == old(data) + bytes
    {
      data := data + bytes;
    }

    method Read(n: nat) returns (bytes: Bytes, ok: bool)
      modifies this
      ensures match Take(old(data), n)
              case Got(v, rest) => ok && bytes == v && data == rest
              case Eof => !ok && data == old(data)
    {
      bytes, ok := Zeros(n), true;
      if |data| == 0 {
        ok := n == 0;
        return;
      }
      var m := if n <= |data| then n else |data|;
      bytes := data[..m] + Zeros(n - m);
      data := data[m..];
    }

    method ReadFull(n: nat) returns (bytes: Bytes, ok: bool)
      modifies this
      ensures match TakeFull(old(data), n)
              case Got(v, rest) => ok && bytes == v && data == rest
              case Eof => !ok
    {
      if n <= |data| {
        bytes, ok := data[..n], true;
        data := data[n..];
      } else {
        bytes, ok := data + Zeros(n - |data|), false;
        data := [];
      }
    }
  }

  // ---------------------------------------------------------------- bytes, words and fields

  function PutWord(w: Word): (b: Bytes)
    ensures |b| == 2
  {
    [(w / 256) as Byte, (w % 256) as Byte]
  }

  function WordOf(hi: Byte, lo: Byte): Word {
    hi as int * 256 + lo as int
  }

  lemma ByteKept(n: nat)
    requires n < 256
    ensures (n as Byte) as nat == n
  {
    var b := ByteFor(n);
    assert (b as nat) as Byte == b;
  }

  lemma {:induction false} ByteFor(n: nat) returns (b: Byte)
    requires n < 256
    ensures b as nat == n
  {
    if n == 0 {
      b := 0;
    } else {
      b := ByteFor(n - 1);
      b := b + 1;
    }
  }

  /** Section 1.5.2: the more significant byte first. */
  lemma WordRoundTrip(w: Word)
    ensures PutWord(w)[0] as int * 256 + PutWord(w)[1] as int == w
    ensures WordOf(PutWord(w)[0], PutWord(w)[1]) == w
  {
    ByteKept(w / 256);
    ByteKept(w % 256);
  }

  lemma BytesRoundTrip(hi: Byte, lo: Byte)
    ensures PutWord(WordOf(hi, lo)) == [hi, lo]
  {
    assert WordOf(hi, lo) / 256 == hi as int && WordOf(hi, lo) % 256 == lo as int;
  }

  function GetByte(b: Bytes): Got<Byte> {
    match Take(b, 1)
    case Got(v, rest) => Got(v[0], rest)
    case Eof => Eof
  }

  function GetWord(b: Bytes): Got<Word> {
    match Take(b, 2)
    case Got(v, rest) => Got(WordOf(v[0], v[1]), rest)
    case Eof => Eof
  }

  /** The length prefix keeps only the low 16 bits. */
  function PutField(f: Bytes): (b: Bytes)
    ensures |b| == |f| + 2
  {
    PutWord(|f| % 0x1_0000) + f
  }

  function GetField(b: Bytes): (g: Got<Bytes>)
    ensures g.Got? ==> |g.value| <= MAX_FIELD
  {
    match GetWord(b)
    case Got(n, rest) => Take(rest, n)
    case Eof => Eof
  }

  lemma GetPutByte(v: Byte, rest: Bytes)
    ensures GetByte([v] + rest) == Got(v, rest)
  {
  }

  lemma GetPutWord(w: Word, rest: Bytes)
    ensures GetWord(PutWord(w) + rest) == Got(w, rest)
  {
    WordRoundTrip(w);
    var b := PutWord(w) + rest;
    assert b[..2] == PutWord(w) && b[2..] == rest;
  }

  /** A field is read back, with nothing of what follows it, exactly if its length fits the prefix. */
  lemma GetPutField(f: Bytes, rest: Bytes)
    ensures |f| <= MAX_FIELD ==> GetField(PutField(f) + rest) == Got(f, rest)
    ensures |f| > MAX_FIELD ==> forall r :: GetField(PutField(f) + rest) != Got(f, r)
  {
    var n := |f| % 0x1_0000;
    assert PutField(f) + rest == PutWord(n) + (f + rest);
    GetPutWord(n, f + rest);
    if |f| <= MAX_FIELD {
      assert (f + rest)[..|f|] == f && (f + rest)[|f|..] == rest;
    }
  }

  /** What is read without running into the end of the bytes is what was written. */
  lemma PutGetField(b: Bytes, f: Bytes, rest: Bytes)
    requires GetField(b) == Got(f, rest) && 2 + |f| <= |b|
    ensures b == PutField(f) + rest
  {
    hide WordOf, PutWord, GetField;
    FieldParts(b, f, rest);
    BytesRoundTrip(b[0], b[1]);
    SplitAt2(b, f + rest);
    assert PutField(f) + rest == [b[0], b[1]] + (f + rest);
  }

  lemma FieldParts(b: Bytes, f: Bytes, rest: Bytes)
    requires GetField(b) == Got(f, rest) && 2 + |f| <= |b|
    ensures WordOf(b[0], b[1]) == |f| && b[2..] == f + rest
  {
    hide WordOf, GetWord;
    GetWordOf(b);
  }

  lemma SplitAt2(b: Bytes, tail: Bytes)
    requires |b| >= 2 && b[2..] == tail
    ensures b == [b[0], b[1]] + tail
  {
  }

  lemma GetWordOf(b: Bytes)
    requires |b| >= 2
    ensures GetWord(b) == Got(WordOf(b[0], b[1]), b[2..])
  {
  }

  method DecodeByte(b: Buffer) returns (v: Byte, ok: bool)
    modifies b
    ensures match GetByte(old(b.data))
            case Got(x, rest) => ok && v == x && b.data == rest
            case Eof => !ok && b.data == []
  {
    var num;
    num, ok := b.Read(1);
    v := if ok then num[0] else 0;
  }

  method DecodeUint16(b: Buffer) returns (v: Word, ok: bool)
    modifies b
    ensures match GetWord(old(b.data))
            case Got(x, rest) => ok && v == x && b.data == rest
            case Eof => !ok && b.data == []
  {
    var num;
    num, ok := b.Read(2);
    v := if ok then WordOf(num[0], num[1]) else 0;
  }

  method DecodeBytes(b: Buffer) returns (v: Bytes, ok: bool)
    modifies b
    ensures match GetField(old(b.data))
            case Got(x, rest) => ok && v == x && b.data == rest
            case Eof => !ok && b.data == []
  {
    var fieldLength;
    v := [];
    fieldLength, ok := DecodeUint16(b);
    if !ok {
      return;
    }
    v, ok := b.Read(fieldLength);
  }

  // ---------------------------------------------------------------- variable-length integer

  function Low7(digit: Byte): (n: nat)
    ensures n < 128
  {
    assert digit & 127 < 128;
    (digit & 127) as nat
  }

  predicate More(digit: Byte) {
    digit & 128 != 0
  }

  function Digit(length: nat, more: bool): Byte {
    var digit := (length % 128) as Byte;
    if more then digit | 0x80 else digit
  }

  /** Seven bits a byte, the lowest first; the top bit says that more follow. */
  function PutLength(n: nat): Bytes {
    if n < 128 then [Digit(n, false)] else [Digit(n, true)] + PutLength(n / 128)
  }

  /** The number that at most `most` bytes spell; after the last of them the top bit is ignored. */
  function GetLength(b: Bytes, most: nat): Got<nat> {
    if most == 0 then Got(0, b)
    else if b == [] then Eof
    else
      var digit := Low7(b[0]);
      if !More(b[0]) then Got(digit, b[1..])
      else
        match GetLength(b[1..], most - 1)
        case Got(v, rest) => Got(digit + 128 * v, rest)
        case Eof => Eof
  }

  function Power(k: nat): (p: nat)
    ensures p >= 1
  {
    if k == 0 then 1 else 128 * Power(k - 1)
  }

  lemma DigitBits(d: Byte)
    requires d < 128
    ensures d & 128 == 0 && d & 127 == d && (d | 0x80) & 128 != 0 && (d | 0x80) & 127 == d
  {
  }

  lemma BelowTop(d: Byte)
    requires d as nat < 128
    ensures d < 128
  {
  }

  lemma Digits(n: nat)
    ensures !More(Digit(n, false)) && Low7(Digit(n, false)) == n % 128
    ensures More(Digit(n, true)) && Low7(Digit(n, true)) == n % 128
  {
    var d := (n % 128) as Byte;
    ByteKept(n % 128);
    BelowTop(d);
    DigitBits(d);
  }

  lemma TopBit(x: Byte)
    ensures x as nat == Low7(x) + if More(x) then 128 else 0
  {
  }

  lemma DigitValue(n: nat, more: bool)
    ensures Digit(n, more) as nat == n % 128 + if more then 128 else 0
  {
    Digits(n);
    TopBit(Digit(n, more));
  }

  lemma LengthStep(n: nat)
    ensures n < 128 ==> |PutLength(n)| == 1 && PutLength(n)[0] as nat == n
    ensures n >= 128 ==> |PutLength(n)| > 1 && PutLength(n)[0] as nat == n % 128 + 128
    ensures n >= 128 ==> PutLength(n)[1..] == PutLength(n / 128)
  {
    hide Digit;
    DigitValue(n, n >= 128);
  }

  lemma TwoBytes(n: nat)
    requires 128 <= n < 16_384
    ensures var b := PutLength(n); |b| == 2 && b[0] as nat == n % 128 + 128 && b[1] as nat == n / 128
  {
    hide PutLength;
    LengthStep(n);
    LengthStep(n / 128);
  }

  lemma ThreeBytes(n: nat)
    requires 16_384 <= n < 2_097_152
    ensures var b := PutLength(n);
            && |b| == 3 && b[0] as nat == n % 128 + 128 && b[1] as nat == n / 128 % 128 + 128
            && b[2] as nat == n / 16_384
  {
    hide PutLength;
    LengthStep(n);
    var q := n / 128;
    DivAgain(n);
    TwoBytes(q);
    var b := PutLength(n);
    assert b == [b[0]] + PutLength(q);
  }

  lemma FourBytes(n: nat)
    requires 2_097_152 <= n <= MAX_LENGTH
    ensures var b := PutLength(n);
            && |b| == 4 && b[0] as nat == n % 128 + 128 && b[1] as nat == n / 128 % 128 + 128
            && b[2] as nat == n / 16_384 % 128 + 128 && b[3] as nat == n / 2_097_152
  {
    hide PutLength;
    LengthStep(n);
    var q := n / 128;
    DivAgain(n);
    ThreeBytes(q);
    var b := PutLength(n);
    assert b == [b[0]] + PutLength(q);
  }

  lemma DivAgain(n: nat)
    ensures n / 128 / 128 == n / 16_384 && n / 128 / 16_384 == n / 2_097_152
    ensures n < 268_435_456 ==> n / 128 < 2_097_152
    ensures n >= 2_097_152 ==> n / 128 >= 16_384
  {
  }

  /** Table 2.4 of section 2.2.3, byte by byte: digits to the base 128, the lowest first, and 128 more on all
      but the last. */
  lemma LengthBytes(n: nat)
    requires n <= MAX_LENGTH
    ensures var b := PutLength(n);
            if n < 128 then |b| == 1 && b[0] as nat == n
            else if n < 16_384 then |b| == 2 && b[0] as nat == n % 128 + 128 && b[1] as nat == n / 128
            else if n < 2_097_152 then
              && |b| == 3 && b[0] as nat == n % 128 + 128 && b[1] as nat == n / 128 % 128 + 128
              && b[2] as nat == n / 16_384
            else
              && |b| == 4 && b[0] as nat == n % 128 + 128 && b[1] as nat == n / 128 % 128 + 128
              && b[2] as nat == n / 16_384 % 128 + 128 && b[3] as nat == n / 2_097_152
  {
    hide PutLength;
    if n < 128 {
      LengthStep(n);
    } else if n < 16_384 {
      TwoBytes(n);
    } else if n < 2_097_152 {
      ThreeBytes(n);
    } else {
      FourBytes(n);
    }
  }

  /** Any suffix, any number that the bytes allowed can spell. */
  lemma {:induction false} LengthRoundTrip(n: nat, k: nat, suffix: Bytes)
    requires k > 0 && n < Power(k)
    ensures GetLength(PutLength(n) + suffix, k) == Got(n, suffix)
    ensures |PutLength(n)| <= k
  {
    Digits(n);
    hide Digit, More, Low7;
    var b := PutLength(n) + suffix;
    if n < 128 {
      assert b[1..] == suffix;
    } else {
      assert b[1..] == PutLength(n / 128) + suffix;
      LengthRoundTrip(n / 128, k - 1, suffix);
    }
  }

  /** Section 2.2.3: how many bytes a length takes. */
  lemma LengthSize(n: nat)
    requires n <= MAX_LENGTH
    ensures 1 <= |PutLength(n)| <= 4
    ensures |PutLength(n)| == if n < 128 then 1 else if n < 16_384 then 2 else if n < 2_097_152 then 3 else 4
  {
    assert n / 128 < 2_097_152 && n / 128 / 128 < 16_384 && n / 128 / 128 / 128 < 128;
  }

  /** What can be read from up to k bytes: a number below 128^k, from a part of the bytes. */
  lemma {:induction false} GetLengthBound(b: Bytes, k: nat)
    ensures match GetLength(b, k)
            case Got(v, rest) => v < Power(k) && |rest| <= |b| && |b| - |rest| <= k && rest == b[|b| - |rest|..]
            case Eof => true
  {
    hide Low7, More;
    if k > 0 && b != [] && More(b[0]) {
      GetLengthBound(b[1..], k - 1);
    } else if k > 0 && b != [] {
      assert Power(k) == 128 * Power(k - 1);
    }
  }

  /** Read back exactly if the bytes allowed can spell it: with the four of section 2.2.3, up to
      268,435,455. */
  lemma LengthExact(n: nat, k: nat, suffix: Bytes)
    requires k > 0
    ensures GetLength(PutLength(n) + suffix, k) == Got(n, suffix) <==> n < Power(k)
    ensures Power(4) == MAX_LENGTH + 1
  {
    if n < Power(k) {
      LengthRoundTrip(n, k, suffix);
    } else {
      GetLengthBound(PutLength(n) + suffix, k);
    }
  }

  /** No other bytes that spell the number are fewer. */
  lemma {:induction false} LengthShortest(b: Bytes, k: nat, n: nat, rest: Bytes)
    requires GetLength(b, k) == Got(n, rest) && k > 0
    ensures |b| - |rest| >= |PutLength(n)|
  {
    hide Low7, More;
    if More(b[0]) {
      var v := GetLength(b[1..], k - 1).value;
      assert n / 128 == v;
      if k > 1 {
        LengthShortest(b[1..], k - 1, v, rest);
      } else {
        assert n < 128;
      }
    }
  }

  /** The digits of these bytes, the lowest first; the top bits do not count. */
  function Spelled(b: Bytes): nat {
    if b == [] then 0 else b[0] as nat % 128 + 128 * Spelled(b[1..])
  }

  /** Exactly what is read, off any bytes: up to and including the first byte below 128, at most k, whatever
      the top bit of the last says. */
  lemma {:induction false} LengthReads(b: Bytes, k: nat, i: nat)
    requires i < k && i < |b| && forall j | 0 <= j < i :: b[j] as nat >= 128
    requires b[i] as nat < 128 || i == k - 1
    ensures GetLength(b, k) == Got(Spelled(b[..i + 1]), b[i + 1..])
  {
    hide Low7, More;
    DigitOf(b[0]);
    if i == 0 {
      assert b[..1][1..] == [] && Spelled([]) == 0;
    } else {
      assert forall j | 0 <= j < i - 1 :: b[1..][j] == b[j + 1];
      LengthReads(b[1..], k - 1, i - 1);
      assert b[..i + 1][1..] == b[1..][..i] && b[1..][i..] == b[i + 1..];
    }
  }

  /** It fails exactly if the bytes end before that. */
  lemma {:induction false} LengthFails(b: Bytes, k: nat)
    ensures GetLength(b, k) == Eof <==> |b| < k && forall j | 0 <= j < |b| :: b[j] as nat >= 128
  {
    hide Low7;
    if k > 0 && b != [] {
      DigitOf(b[0]);
      LengthFails(b[1..], k - 1);
      assert forall j | 0 < j < |b| :: b[j] == b[1..][j - 1];
      assert forall j | 0 <= j < |b| - 1 :: b[1..][j] == b[j + 1];
    }
  }

  lemma DigitOf(x: Byte)
    ensures Low7(x) == x as nat % 128 && (More(x) <==> x as nat >= 128)
  {
    TopBit(x);
  }

  method EncodeLength(length: nat) returns (encLength: Bytes)
    ensures encLength == PutLength(length)
  {
    hide Digit;
    encLength := [];
    var left := length;
    while true
      invariant encLength + PutLength(left) == PutLength(length)
      decreases left
    {
      var rest := left / 128;
      var digit := Digit(left, rest > 0);
      encLength := encLength + [digit];
      left := rest;
      if left == 0 {
        return;
      }
    }
  }

  function Shl(bits: Byte, multiplier: nat): bv32
    requires multiplier < 32
  {
    (bits as bv32) << multiplier
  }

  function LowBits(digit: Byte): Byte {
    digit & 127
  }

  /** Seven more bits on top of those read so far. */
  function OrIn(r: bv32, bits: Byte, multiplier: nat): bv32
    requires multiplier < 32
  {
    r | Shl(bits, multiplier)
  }

  function Or7(r: bv32, bits: Byte): bv32 {
    r | ((bits as bv32) << 7)
  }

  function Or14(r: bv32, bits: Byte): bv32 {
    r | ((bits as bv32) << 14)
  }

  function Or21(r: bv32, bits: Byte): bv32 {
    r | ((bits as bv32) << 21)
  }

  function Num(r: bv32): nat {
    r as nat
  }

  predicate IsLow(bits: Byte) {
    bits < 128
  }

  lemma Low7Bits(digit: Byte)
    ensures IsLow(LowBits(digit)) && LowBits(digit) as nat == Low7(digit)
  {
    hide OrIn, Or7, Or14, Or21, Num, Shl;
  }

  lemma ShlAt7(bits: Byte)
    ensures Shl(bits, 7) == (bits as bv32) << 7
  {
    hide OrIn, Or7, Or14, Or21, Num, IsLow;
  }

  lemma RawSum7(r: bv32, bits: Byte)
    requires bits < 128 && r as nat < 128
    ensures (r | ((bits as bv32) << 7)) as nat == r as nat + 128 * bits as nat
  {
    hide *;
  }

  lemma Sum7(r: bv32, bits: Byte)
    requires IsLow(bits) && Num(r) < 128
    ensures Num(Or7(r, bits)) == Num(r) + 128 * bits as nat
  {
    hide OrIn, Shl;
    RawSum7(r, bits);
  }

  lemma OrIs7(r: bv32, bits: Byte)
    ensures OrIn(r, bits, 7) == Or7(r, bits)
  {
    hide Num, IsLow, Shl;
    ShlAt7(bits);
  }

  lemma ShlAt14(bits: Byte)
    ensures Shl(bits, 14) == (bits as bv32) << 14
  {
    hide OrIn, Or7, Or14, Or21, Num, IsLow;
  }

  lemma RawSum14(r: bv32, bits: Byte)
    requires bits < 128 && r as nat < 16_384
    ensures (r | ((bits as bv32) << 14)) as nat == r as nat + 16_384 * bits as nat
  {
    hide *;
  }

  lemma Sum14(r: bv32, bits: Byte)
    requires IsLow(bits) && Num(r) < 16_384
    ensures Num(Or14(r, bits)) == Num(r) + 16_384 * bits as nat
  {
    hide OrIn, Shl;
    RawSum14(r, bits);
  }

  lemma OrIs14(r: bv32, bits: Byte)
    ensures OrIn(r, bits, 14) == Or14(r, bits)
  {
    hide Num, IsLow, Shl;
    ShlAt14(bits);
  }

  lemma ShlAt21(bits: Byte)
    ensures Shl(bits, 21) == (bits as bv32) << 21
  {
    hide OrIn, Or7, Or14, Or21, Num, IsLow;
  }

  lemma RawSum21(r: bv32, bits: Byte)
    requires bits < 128 && r as nat < 2_097_152
    ensures (r | ((bits as bv32) << 21)) as nat == r as nat + 2_097_152 * bits as nat
  {
    hide *;
  }

  lemma Sum21(r: bv32, bits: Byte)
    requires IsLow(bits) && Num(r) < 2_097_152
    ensures Num(Or21(r, bits)) == Num(r) + 2_097_152 * bits as nat
  {
    hide OrIn, Shl;
    RawSum21(r, bits);
  }

  lemma OrIs21(r: bv32, bits: Byte)
    ensures OrIn(r, bits, 21) == Or21(r, bits)
  {
    hide Num, IsLow, Shl;
    ShlAt21(bits);
  }

  lemma OrIn0(digit: Byte)
    ensures Num(0) == 0 && Num(OrIn(0, LowBits(digit), 0)) == Low7(digit)
  {
    hide Low7;
    Low7Bits(digit);
  }

  lemma OrIn7(r: bv32, digit: Byte)
    requires Num(r) < 128
    ensures Num(OrIn(r, LowBits(digit), 7)) == Num(r) + 128 * Low7(digit)
  {
    hide Low7, LowBits, Num, OrIn, Or7, IsLow;
    Low7Bits(digit);
    OrIs7(r, LowBits(digit));
    Sum7(r, LowBits(digit));
  }

  lemma OrIn14(r: bv32, digit: Byte)
    requires Num(r) < 16_384
    ensures Num(OrIn(r, LowBits(digit), 14)) == Num(r) + 16_384 * Low7(digit)
  {
    hide Low7, LowBits, Num, OrIn, Or14, IsLow;
    Low7Bits(digit);
    OrIs14(r, LowBits(digit));
    Sum14(r, LowBits(digit));
  }

  lemma OrIn21(r: bv32, digit: Byte)
    requires Num(r) < 2_097_152
    ensures Num(OrIn(r, LowBits(digit), 21)) == Num(r) + 2_097_152 * Low7(digit)
  {
    hide Low7, LowBits, Num, OrIn, Or21, IsLow;
    Low7Bits(digit);
    OrIs21(r, LowBits(digit));
    Sum21(r, LowBits(digit));
  }

  lemma NumZero(r: bv32)
    requires Num(r) == 0
    ensures r == 0
  {
    hide OrIn, Or7, Or14, Or21, Shl, IsLow;
  }

  /** The or is a sum: the new bits come to stand above those read so far. */
  lemma OrIsSum(r: bv32, digit: Byte, size: nat)
    requires size < 4 && Num(r) < Power(size)
    ensures Num(OrIn(r, LowBits(digit), 7 * size)) == Num(r) + Power(size) * Low7(digit) < Power(size + 1)
  {
    hide OrIn, Num, Low7, LowBits;
    assert Power(1) == 128 && Power(2) == 16_384 && Power(3) == 2_097_152 && Power(4) == 268_435_456;
    match size
    case 0 => NumZero(r); OrIn0(digit);
    case 1 => OrIn7(r, digit);
    case 2 => OrIn14(r, digit);
    case 3 => OrIn21(r, digit);
  }

  /** The shift-and-or loop computes the sum of the digits by powers of 128. */
  method DecodeLength(r: Buffer) returns (length: nat, size: nat, ok: bool)
    modifies r
    ensures match GetLength(old(r.data), 4)
            case Got(v, rest) => ok && length == v && r.data == rest && size == |old(r.data)| - |rest|
            case Eof => !ok
  {
    hide OrIn, Num, Power, GetLength, Low7, More;
    var rLength: bv32, multiplier := 0, 0;
    size, ok, length := 0, true, 0;
    ghost var b := r.data;
    FirstDigit(b);
    OrIn0(0);
    while multiplier < 27
      invariant multiplier == 7 * size && size <= 4
      invariant Num(rLength) < Power(size)
      invariant size + |r.data| == |b|
      invariant GetLength(b, 4) == Above(Num(rLength), Power(size), GetLength(r.data, 4 - size))
    {
      ghost var was, low := r.data, Num(rLength);
      size := size + 1;
      var digits;
      digits, ok := r.ReadFull(1);
      if !ok {
        NoDigit(4 - size + 1);
        return;
      }
      var digit := digits[0];
      OrIsSum(rLength, digit, size - 1);
      AboveMore(low, was, 4 - size + 1, size - 1);
      rLength := OrIn(rLength, LowBits(digit), multiplier);
      if !More(digit) {
        length := Num(rLength);
        return;
      }
      multiplier := multiplier + 7;
    }
    NoMoreDigits(r.data);
    length := Num(rLength);
  }

  lemma FirstDigit(b: Bytes)
    ensures Power(0) == 1 && GetLength(b, 4) == Above(0, 1, GetLength(b, 4))
  {
  }

  lemma NoDigit(k: nat)
    requires k > 0
    ensures GetLength([], k) == Eof
  {
  }

  lemma NoMoreDigits(b: Bytes)
    ensures GetLength(b, 0) == Got(0, b)
  {
  }

  /** Reading one digit more moves it from the rest to the number so far. */
  lemma AboveMore(low: nat, b: Bytes, k: nat, size: nat)
    requires k > 0 && b != []
    ensures var d := Low7(b[0]);
            Above(low, Power(size), GetLength(b, k)) ==
            if !More(b[0]) then Got(low + Power(size) * d, b[1..])
            else Above(low + Power(size) * d, Power(size + 1), GetLength(b[1..], k - 1))
  {
    hide Low7, More;
    var d, p := Low7(b[0]), Power(size);
    if More(b[0]) {
      match GetLength(b[1..], k - 1)
      case Got(v, rest) => assert low + p * (d + 128 * v) == low + p * d + 128 * p * v;
      case Eof =>
    }
  }

  /** The number so far, with what the rest of the digits add. */
  function Above(low: nat, power: nat, high: Got<nat>): Got<nat> {
    match high
    case Got(v, rest) => Got(low + power * v, rest)
    case Eof => Eof
  }
}
