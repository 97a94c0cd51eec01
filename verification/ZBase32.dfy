/**
 The z-base-32 encoder of crates/owney-pgp/src/wkd.rs.  The source shifts every
 byte into a 64-bit buffer that is never masked, so for inputs longer than eight
 bytes the top of the buffer is lost; the model keeps that wrap-around.  The
 reference is the bit string of the input cut into groups of five.
 */
module ZBase32 {
  import opened Arithmetic

  newtype Byte = b: int | 0 <= b < 256

  const ALPHABET := "ybndrfg8ejkmcpqxot1uwisza345h769"
  const WORD: int := 0x1_0000_0000_0000_0000

  // ---- reference: bit strings ----------------------------------------------

  function Pow2(n: nat): (p: nat)
    ensures p > 0
  {
    if n == 0 then 1 else 2 * Pow2(n - 1)
  }

  /** The number a bit string denotes, most significant bit first. */
  function Value(bits: seq<bool>): (v: nat)
    ensures v < Pow2(|bits|)
  {
    if bits == [] then 0 else 2 * Value(bits[..|bits| - 1]) + (if bits[|bits| - 1] then 1 else 0)
  }

  function ToBits(v: nat, n: nat): (bits: seq<bool>)
    ensures |bits| == n
  {
    if n == 0 then [] else ToBits(v / 2, n - 1) + [v % 2 == 1]
  }

  function ByteBits(b: Byte): (bits: seq<bool>)
    ensures |bits| == 8
  {
    ToBits(b as int, 8)
  }

  function Zeros(n: nat): seq<bool> {
    seq(n, _ => false)
  }

  /** All bits of the input, in order. */
  function Bits(data: seq<Byte>): (bits: seq<bool>)
    ensures |bits| == 8 * |data|
  {
    if data == [] then [] else Bits(data[..|data| - 1]) + ByteBits(data[|data| - 1])
  }

  /** The input bits and fewer than five zero bits, to a multiple of five. */
  function Padded(data: seq<Byte>): seq<bool> {
    Bits(data) + Zeros((5 - 8 * |data| % 5) % 5)
  }

  /** `ZBASE32[v & 0x1f]` */
  function Letter(v: nat): char {
    ALPHABET[v % 32]
  }

  /** One letter for each five bits. */
  function Letters(bits: seq<bool>): string {
    if |bits| < 5 then [] else [Letter(Value5(bits[..5]))] + Letters(bits[5..])
  }

  function Value5(bits: seq<bool>): (v: nat)
    requires |bits| == 5
    ensures v < 32
  {
    assert Pow2(3) == 8;
    Value(bits)
  }

  // ---- reference: decoder ---------------------------------------------------

  /** Position of a letter in the alphabet; 32 when it is not there. */
  function LetterIndex(c: char): nat {
    match c
    case 'y' => 0 case 'b' => 1 case 'n' => 2 case 'd' => 3
    case 'r' => 4 case 'f' => 5 case 'g' => 6 case '8' => 7
    case 'e' => 8 case 'j' => 9 case 'k' => 10 case 'm' => 11
    case 'c' => 12 case 'p' => 13 case 'q' => 14 case 'x' => 15
    case 'o' => 16 case 't' => 17 case '1' => 18 case 'u' => 19
    case 'w' => 20 case 'i' => 21 case 's' => 22 case 'z' => 23
    case 'a' => 24 case '3' => 25 case '4' => 26 case '5' => 27
    case 'h' => 28 case '7' => 29 case '6' => 30 case '9' => 31
    case _ => 32
  }

  function LetterBits(text: string): (bits: seq<bool>)
    ensures |bits| == 5 * |text|
  {
    if text == [] then [] else ToBits(LetterIndex(text[0]), 5) + LetterBits(text[1..])
  }

  function Bytes(bits: seq<bool>): (data: seq<int>)
  {
    if |bits| < 8 then [] else [Value(bits[..8])] + Bytes(bits[8..])
  }

  /** Five bits a letter, cut into whole bytes; the padding is dropped. */
  function Decode(text: string): seq<int> {
    Bytes(LetterBits(text))
  }

  // ---- shifts on a 64-bit word -----------------------------------------------

  /** `v >> n` */
  function Shr(v: nat, n: nat): nat
    decreases n
  {
    if n == 0 then v else Shr(v / 2, n - 1)
  }

  /** `v << n` */
  function Shl(v: nat, n: nat): (r: nat)
    requires v < WORD
    ensures r < WORD
    decreases n
  {
    if n == 0 then v else Shl(v * 2 % WORD, n - 1)
  }

  /** The low `a + b` bits of a number are `a` bits above the low `b`. */
  lemma {:induction false} SplitBits(v: nat, a: nat, b: nat)
    ensures ToBits(v, a + b) == ToBits(Shr(v, b), a) + ToBits(v, b)
    decreases b
  {
    if b > 0 {
      SplitBits(v / 2, a, b - 1);
    }
  }

  /** `q` followed by `n` zero bits. */
  function Scale(q: nat, n: nat): nat {
    if n == 0 then q else 2 * Scale(q, n - 1)
  }

  lemma {:induction false} LowBits(v: nat, q: nat, n: nat)
    ensures ToBits(v + Scale(q, n), n) == ToBits(v, n)
  {
    if n > 0 {
      assert (v + Scale(q, n)) / 2 == v / 2 + Scale(q, n - 1);
      LowBits(v / 2, q, n - 1);
    }
  }

  lemma {:induction false} ScaleAdd(q: nat, a: nat, b: nat)
    ensures Scale(Scale(q, a), b) == Scale(q, a + b)
  {
    if b > 0 {
      ScaleAdd(q, a, b - 1);
    }
  }

  lemma SmallScales(q: nat)
    ensures Scale(q, 5) == 32 * q && Scale(q, 8) == 256 * q && Scale(q, 12) == 4096 * q
  {
    UpToFour(q);
    ScaleAdd(q, 4, 1);
    UpToFour(16 * q);
    ScaleAdd(q, 4, 4);
    UpToFour(256 * q);
    ScaleAdd(q, 8, 4);
  }

  lemma UpToFour(q: nat)
    ensures Scale(q, 1) == 2 * q && Scale(q, 4) == 16 * q
  {
    assert Scale(q, 1) == 2 * q;
    assert Scale(q, 2) == 4 * q;
    assert Scale(q, 3) == 8 * q;
  }

  /** A multiple of 4096 does not touch the low twelve bits. */
  lemma TwelveBits(v: nat, q: nat, n: nat)
    requires n <= 12
    ensures ToBits(v + 4096 * q, n) == ToBits(v, n)
  {
    SmallScales(q);
    ScaleAdd(q, 12 - n, n);
    LowBits(v, Scale(q, 12 - n), n);
  }

  lemma {:induction false} ToBitsValue(v: nat, n: nat)
    requires v < Pow2(n)
    ensures Value(ToBits(v, n)) == v
  {
    if n > 0 {
      ToBitsValue(v / 2, n - 1);
      assert ToBits(v, n)[..n - 1] == ToBits(v / 2, n - 1);
    }
  }

  lemma {:induction false} ValueToBits(bits: seq<bool>)
    ensures ToBits(Value(bits), |bits|) == bits
  {
    if bits != [] {
      ValueToBits(bits[..|bits| - 1]);
    }
  }

  lemma SmallPowers()
    ensures Pow2(5) == 32 && Pow2(8) == 256
  {
    assert Pow2(2) == 4 && Pow2(4) == 16 && Pow2(6) == 64;
  }

  /** `v & 0x1f` is the value of the low five bits. */
  lemma FiveBits(v: nat)
    ensures Letter(Value5(ToBits(v, 5))) == Letter(v)
  {
    MaskFive(v);
    Quotient(v % 32, 32, 0, v % 32);
  }

  lemma MaskFive(v: nat)
    ensures v % 32 == Value5(ToBits(v, 5))
  {
    SmallPowers();
    SmallScales(v / 32);
    LowBits(v % 32, v / 32, 5);
    ToBitsValue(v % 32, 5);
  }

  // ---- the encoder -----------------------------------------------------------

  lemma ShrEight(v: nat)
    ensures Shr(v, 8) == v / 256
  {
    assert Shr(v, 2) == v / 4 && Shr(v, 4) == Shr(v / 4, 2);
    assert Shr(v, 6) == Shr(v / 16, 2) && Shr(v, 8) == Shr(v / 64, 2);
  }

  /** The word drops the top eight bits of the buffer: a multiple of 2^56. */
  lemma TopByteDropped(buffer: nat, n: nat)
    requires buffer < WORD && n < 5
    ensures var kept := buffer % 0x100_0000_0000_0000;
            && buffer * 256 % WORD == kept * 256
            && ToBits(kept, n) == ToBits(buffer, n)
  {
    var kept, lost := buffer % 0x100_0000_0000_0000, buffer / 0x100_0000_0000_0000;
    Quotient(buffer * 256, WORD, lost, kept * 256);
    TwelveBits(kept, 0x1000_0000_0000 * lost, n);
  }

  /** `(buffer << 8) | byte` on 64 bits */
  function Push(buffer: nat, byte: Byte): nat {
    buffer * 256 % WORD + byte as int
  }

  /** `(buffer << 8) | byte` keeps the low bits although the word drops the top ones. */
  lemma ShiftIn(buffer: nat, n: nat, byte: Byte)
    requires buffer < WORD && n < 5
    ensures Push(buffer, byte) < WORD
    ensures ToBits(Push(buffer, byte), n + 8) == ToBits(buffer, n) + ByteBits(byte)
  {
    TopByteDropped(buffer, n);
    LowByte(buffer % 0x100_0000_0000_0000, byte, n);
  }

  lemma LowByte(kept: nat, byte: Byte, n: nat)
    ensures ToBits(kept * 256 + byte as int, n + 8) == ToBits(kept, n) + ByteBits(byte)
  {
    var x: nat := kept * 256 + byte as int;
    Quotient(x, 256, kept, byte as int);
    SplitBits(x, n, 8);
    ShrEight(x);
    assert x == byte as int + Scale(kept, 8) by { SmallScales(kept); }
    LowBits(byte as int, kept, 8);
  }

  /** A left shift moves the low bits up and fills with zeros, whatever the word drops. */
  lemma {:induction false} ShlBits(buffer: nat, n: nat, k: nat)
    requires buffer < WORD && n + k <= 12
    ensures ToBits(Shl(buffer, k), n + k) == ToBits(buffer, n) + Zeros(k)
    decreases k
  {
    if k > 0 {
      ShlOne(buffer, n);
      ShlBits(buffer * 2 % WORD, n + 1, k - 1);
      assert [false] + Zeros(k - 1) == Zeros(k);
    }
  }

  lemma ShlOne(buffer: nat, n: nat)
    requires buffer < WORD && n <= 12
    ensures ToBits(buffer * 2 % WORD, n + 1) == ToBits(buffer, n) + [false]
  {
    var kept, lost := buffer % 0x8000_0000_0000_0000, buffer / 0x8000_0000_0000_0000;
    assert buffer * 2 % WORD == kept * 2;
    TwelveBits(kept, 0x8_0000_0000_0000 * lost, n);
  }

  lemma {:induction false} LettersConcat(a: seq<bool>, b: seq<bool>, k: nat)
    requires |a| == 5 * k
    ensures Letters(a + b) == Letters(a) + Letters(b)
    decreases k
  {
    if k == 0 {
      assert a + b == b;
    } else {
      assert (a + b)[..5] == a[..5] && (a + b)[5..] == a[5..] + b;
      LettersConcat(a[5..], b, k - 1);
    }
  }

  /** Emitting the letter of one five-bit group. */
  lemma EmitGroup(done: seq<bool>, group: seq<bool>, k: nat)
    requires |done| == 5 * k && |group| == 5
    ensures Letters(done + group) == Letters(done) + [Letter(Value5(group))]
  {
    LettersConcat(done, group, k);
    assert group[..5] == group && group[5..] == [];
  }

  /** The loop invariant: `done` has been emitted, the low bits of the buffer have not. */
  ghost predicate Encoding(out: string, buffer: nat, bits: nat, done: seq<bool>, input: seq<bool>) {
    && buffer < WORD
    && |done| == 5 * |out| && out == Letters(done)
    && done + ToBits(buffer, bits) == input
  }

  lemma Associate(a: seq<bool>, b: seq<bool>, c: seq<bool>)
    ensures a + (b + c) == a + b + c
  {
  }

  lemma BitsSnoc(data: seq<Byte>, i: nat)
    requires i < |data|
    ensures Bits(data[..i + 1]) == Bits(data[..i]) + ByteBits(data[i])
  {
    assert data[..i + 1][..i] == data[..i];
  }

  lemma ByteStep(out: string, buffer: nat, bits: nat, done: seq<bool>, data: seq<Byte>, i: nat)
    requires i < |data| && bits < 5 && Encoding(out, buffer, bits, done, Bits(data[..i]))
    ensures Encoding(out, Push(buffer, data[i]), bits + 8, done, Bits(data[..i + 1]))
  {
    BitsSnoc(data, i);
    ShiftIn(buffer, bits, data[i]);
    Associate(done, ToBits(buffer, bits), ByteBits(data[i]));
  }

  lemma LetterStep(out: string, buffer: nat, bits: nat, done: seq<bool>, input: seq<bool>)
    requires bits >= 5 && Encoding(out, buffer, bits, done, input)
    ensures Encoding(out + [Letter(Shr(buffer, bits - 5))], buffer, bits - 5,
                     done + ToBits(Shr(buffer, bits - 5), 5), input)
  {
    SplitBits(buffer, 5, bits - 5);
    FiveBits(Shr(buffer, bits - 5));
    EmitGroup(done, ToBits(Shr(buffer, bits - 5), 5), |out|);
    Associate(done, ToBits(Shr(buffer, bits - 5), 5), ToBits(buffer, bits - 5));
  }

  lemma LastStep(out: string, buffer: nat, bits: nat, done: seq<bool>, data: seq<Byte>)
    requires 0 < bits < 5 && Encoding(out, buffer, bits, done, Bits(data))
    ensures Letters(Padded(data)) == out + [Letter(Shl(buffer, 5 - bits))]
  {
    LastGroup(buffer, bits);
    EmitGroup(done, ToBits(Shl(buffer, 5 - bits), 5), |out|);
    PaddingLength(|out|, bits);
    Associate(done, ToBits(buffer, bits), Zeros(5 - bits));
  }

  lemma LastGroup(buffer: nat, bits: nat)
    requires 0 < bits < 5 && buffer < WORD
    ensures ToBits(Shl(buffer, 5 - bits), 5) == ToBits(buffer, bits) + Zeros(5 - bits)
    ensures Letter(Value5(ToBits(Shl(buffer, 5 - bits), 5))) == Letter(Shl(buffer, 5 - bits))
  {
    ShlBits(buffer, bits, 5 - bits);
    FiveBits(Shl(buffer, 5 - bits));
  }

  lemma NoLastStep(out: string, buffer: nat, done: seq<bool>, data: seq<Byte>)
    requires Encoding(out, buffer, 0, done, Bits(data))
    ensures Letters(Padded(data)) == out
  {
    PaddingLength(|out|, 0);
    assert done + ToBits(buffer, 0) + Zeros(0) == done;
  }

  lemma PaddingLength(k: nat, bits: nat)
    requires bits < 5
    ensures (5 - (5 * k + bits) % 5) % 5 == if bits == 0 then 0 else 5 - bits
  {
    Quotient(5 * k + bits, 5, k, bits);
  }

  /** `zbase32`: the loop emits exactly the five-bit groups of the padded input. */
  method Encode(data: seq<Byte>) returns (out: string)
    ensures out == Letters(Padded(data))
  {
    out := "";
    var buffer: nat, bits: nat := 0, 0;
    ghost var done: seq<bool> := [];
    for i := 0 to |data|
      invariant bits < 5 && Encoding(out, buffer, bits, done, Bits(data[..i]))
    {
      ByteStep(out, buffer, bits, done, data, i);
      buffer := Push(buffer, data[i]);
      bits := bits + 8;
      while bits >= 5
        invariant Encoding(out, buffer, bits, done, Bits(data[..i + 1]))
      {
        LetterStep(out, buffer, bits, done, Bits(data[..i + 1]));
        bits := bits - 5;
        out := out + [Letter(Shr(buffer, bits))];
        done := done + ToBits(Shr(buffer, bits), 5);
      }
    }
    assert data[..|data|] == data;
    if bits > 0 {
      LastStep(out, buffer, bits, done, data);
      out := out + [Letter(Shl(buffer, 5 - bits))];
    } else {
      NoLastStep(out, buffer, done, data);
    }
  }

  // ---- round trip -------------------------------------------------------------

  lemma AlphabetIsInjective(v: nat)
    requires v < 32
    ensures LetterIndex(Letter(v)) == v
  {
  }

  lemma {:induction false} LettersDecode(bits: seq<bool>, k: nat)
    requires |bits| == 5 * k
    ensures |Letters(bits)| == k && LetterBits(Letters(bits)) == bits
    decreases k
  {
    if k > 0 {
      AlphabetIsInjective(Value5(bits[..5]));
      ValueToBits(bits[..5]);
      LettersDecode(bits[5..], k - 1);
      assert Letters(bits)[1..] == Letters(bits[5..]);
      assert bits == bits[..5] + bits[5..];
    }
  }

  /** Eight bits a byte, five bits a letter: the padding makes up the difference and no more. */
  lemma PaddedLength(data: seq<Byte>)
    ensures |Padded(data)| == 5 * ((8 * |data| + 4) / 5)
    ensures 8 * |data| <= |Padded(data)| < 8 * |data| + 5
  {
    var n := 8 * |data|;
    PaddingLength(n / 5, n % 5);
    Quotient(n + 4, 5, if n % 5 == 0 then n / 5 else n / 5 + 1, if n % 5 == 0 then 4 else n % 5 - 1);
  }

  lemma {:induction false} BitsCons(data: seq<Byte>)
    requires data != []
    ensures Bits(data) == ByteBits(data[0]) + Bits(data[1..])
  {
    var n := |data| - 1;
    var init, last := data[..n], ByteBits(data[n]);
    if n == 0 {
      assert Bits(init) == [] && Bits(data[1..]) == [];
    } else {
      BitsCons(init);
      assert init[1..] == data[1..][..n - 1];
      assert Bits(data[1..]) == Bits(init[1..]) + last;
    }
  }

  function Ints(data: seq<Byte>): (r: seq<int>)
    ensures |r| == |data|
  {
    seq(|data|, i requires 0 <= i < |data| => data[i] as int)
  }

  lemma FirstByte(byte: Byte, rest: seq<bool>)
    ensures Bytes(ByteBits(byte) + rest) == [byte as int] + Bytes(rest)
  {
    SmallPowers();
    ToBitsValue(byte as int, 8);
    var all := ByteBits(byte) + rest;
    assert all[..8] == ByteBits(byte) && all[8..] == rest;
  }

  lemma {:induction false} BytesOfBits(data: seq<Byte>, tail: seq<bool>)
    requires |tail| < 8
    ensures Bytes(Bits(data) + tail) == Ints(data)
  {
    if data == [] {
      assert Bits(data) + tail == tail;
    } else {
      BitsCons(data);
      FirstByte(data[0], Bits(data[1..]) + tail);
      BytesOfBits(data[1..], tail);
      Associate(ByteBits(data[0]), Bits(data[1..]), tail);
      assert Ints(data) == [data[0] as int] + Ints(data[1..]);
    }
  }

  /** The text has ceil(8n / 5) letters and decoding it gives back the input, at every length. */
  lemma RoundTrip(data: seq<Byte>)
    ensures |Letters(Padded(data))| == (8 * |data| + 4) / 5
    ensures Decode(Letters(Padded(data))) == Ints(data)
  {
    PaddedLength(data);
    LettersDecode(Padded(data), (8 * |data| + 4) / 5);
    BytesOfBits(data, Zeros((5 - 8 * |data| % 5) % 5));
  }

  /** Hence no two inputs share an encoding. */
  lemma EncodingIsInjective(a: seq<Byte>, b: seq<Byte>)
    requires Letters(Padded(a)) == Letters(Padded(b))
    ensures a == b
  {
    RoundTrip(a);
    RoundTrip(b);
    assert |a| == |Ints(a)| == |b|;
    forall i | 0 <= i < |a| ensures a[i] == b[i] {
      assert Ints(a)[i] == Ints(b)[i];
    }
  }
}
