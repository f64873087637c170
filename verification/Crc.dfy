/** The CRC of system/server/fixtures/png-frame.js (PNG: section 3.4 of RFC 2083), bit by bit, and what
    it detects. Bytes are fed lowest bit first. */
module Crc {
  import opened Common

  // ---------- The algorithm ----------

  function Xor(c: bv32, d: bv32): bv32 { c ^ d }

  function Half(c: bv32): bv32 { c >> 1 }

  predicate Odd(c: bv32) { c & 1 != 0 }

  /** Shift right; when a 1 falls out, add the polynomial. */
  function BitStep(c: bv32): bv32 {
    if Odd(c) then Xor(Half(c), 0xedb88320) else Half(c)
  }

  function Bit(b: bool): bv32 { if b then 1 else 0 }

  function Double(r: bv32): bv32 { r << 1 }

  /** The word with the binary digits of a number. */
  function WordOf(n: nat): bv32 {
    if n == 0 then 0 else Xor(Bit(n % 2 == 1), Double(WordOf(n / 2)))
  }

  /** The number with the n lowest binary digits of a word. */
  function NumberOf(w: bv32, n: nat): nat {
    if n == 0 then 0 else (if Odd(w) then 1 else 0) + 2 * NumberOf(Half(w), n - 1)
  }

  function Steps(n: nat, c: bv32): bv32 {
    if n == 0 then c else Steps(n - 1, BitStep(c))
  }

  function Feed(c: bv32, bytes: seq<Byte>): bv32
    decreases |bytes|
  {
    if bytes == [] then c else Feed(Steps(8, Xor(c, WordOf(bytes[0]))), bytes[1..])
  }

  function Crc32(bytes: seq<Byte>): bv32 { Xor(Feed(0xffff_ffff, bytes), 0xffff_ffff) }

  /** The masked form the code uses for one bit. */
  lemma MaskedStep(c: bv32)
    ensures (c >> 1) ^ (0xedb88320 & (0 - (c & 1))) == BitStep(c)
  {
    assert c & 1 == 0 || c & 1 == 1;
    assert c & 1 == 1 ==> 0 - (c & 1) == 0xffff_ffff;
  }

  lemma FeedNext(c: bv32, bytes: seq<Byte>, i: nat)
    requires i < |bytes|
    ensures Feed(c, bytes[i..]) == Feed(Steps(8, Xor(c, WordOf(bytes[i]))), bytes[i + 1..])
  {
    hide BitStep, Xor;
    assert bytes[i..][0] == bytes[i] && bytes[i..][1..] == bytes[i + 1..];
  }

  method ComputeCrc(bytes: seq<Byte>) returns (crc: bv32)
    ensures crc == Crc32(bytes)
  {
    hide BitStep;
    crc := 0xffff_ffff;
    for i := 0 to |bytes|
      invariant Feed(crc, bytes[i..]) == Feed(0xffff_ffff, bytes)
    {
      FeedNext(crc, bytes, i);
      crc := Xor(crc, WordOf(bytes[i]));
      for bit := 0 to 8
        invariant Feed(Steps(8 - bit, crc), bytes[i + 1..]) == Feed(0xffff_ffff, bytes)
      {
        MaskedStep(crc);
        crc := (crc >> 1) ^ (0xedb88320 & (0 - (crc & 1)));
      }
    }
    crc := Xor(crc, 0xffff_ffff);
  }

  // ---------- Known values ----------

  /** The polynomial is the one of section 3.4 of RFC 2083: a 1 that falls out adds x^26 + x^23 + x^22 +
      x^16 + x^12 + x^11 + x^10 + x^8 + x^7 + x^5 + x^4 + x^2 + x + 1, the highest power in the lowest bit. */
  lemma PolynomialIs()
    ensures BitStep(1) == Power(26) ^ Power(23) ^ Power(22) ^ Power(16) ^ Power(12) ^ Power(11) ^ Power(10)
                          ^ Power(8) ^ Power(7) ^ Power(5) ^ Power(4) ^ Power(2) ^ Power(1) ^ Power(0)
  {
  }

  ghost function Power(n: nat): bv32
    requires n < 32
  {
    1 << (31 - n)
  }

  lemma Two(c: bv32, n: nat)
    ensures Steps(n + 2, c) == Steps(n, BitStep(BitStep(c)))
  {
    hide BitStep;
    assert Steps(n + 2, c) == Steps(n + 1, BitStep(c));
  }

  lemma Eight(c: bv32)
    ensures Steps(8, c) == BitStep(BitStep(BitStep(BitStep(BitStep(BitStep(BitStep(BitStep(c))))))))
  {
    hide BitStep;
    Two(c, 6);
    Two(BitStep(BitStep(c)), 4);
    Two(BitStep(BitStep(BitStep(BitStep(c)))), 2);
    Two(BitStep(BitStep(BitStep(BitStep(BitStep(BitStep(c)))))), 0);
  }

  lemma Letter(n: nat, w: bv32)
    requires (n, w) in {(0x49, 0x49), (0x45, 0x45), (0x4e, 0x4e), (0x44, 0x44)}
    ensures WordOf(n) == w
  {
    assert WordOf(1) == 1 && WordOf(2) == 2 && WordOf(4) == 4;
    assert WordOf(9) == 9 && WordOf(8) == 8;
    assert WordOf(0x12) == 0x12 && WordOf(0x11) == 0x11 && WordOf(0x13) == 0x13;
    assert WordOf(0x24) == 0x24 && WordOf(0x22) == 0x22 && WordOf(0x27) == 0x27;
  }

  lemma FedI()
    ensures Steps(8, Xor(0xffffffff, WordOf(0x49))) == 0x22fde946
  {
    Letter(0x49, 0x49);
    assert Xor(0xffffffff, 0x49) == 0xffffffb6;
    Eight(0xffffffb6);
    assert BitStep(0xffffffb6) == 0x7fffffdb;
    assert BitStep(0x7fffffdb) == 0xd2477ccd;
    assert BitStep(0xd2477ccd) == 0x849b3d46;
    assert BitStep(0x849b3d46) == 0x424d9ea3;
    assert BitStep(0x424d9ea3) == 0xcc9e4c71;
    assert BitStep(0xcc9e4c71) == 0x8bf7a518;
    assert BitStep(0x8bf7a518) == 0x45fbd28c;
    assert BitStep(0x45fbd28c) == 0x22fde946;
  }

  lemma FedE()
    ensures Steps(8, Xor(0x22fde946, WordOf(0x45))) == 0x992bac53
  {
    Letter(0x45, 0x45);
    assert Xor(0x22fde946, 0x45) == 0x22fde903;
    Eight(0x22fde903);
    assert BitStep(0x22fde903) == 0xfcc677a1;
    assert BitStep(0xfcc677a1) == 0x93dbb8f0;
    assert BitStep(0x93dbb8f0) == 0x49eddc78;
    assert BitStep(0x49eddc78) == 0x24f6ee3c;
    assert BitStep(0x24f6ee3c) == 0x127b771e;
    assert BitStep(0x127b771e) == 0x093dbb8f;
    assert BitStep(0x093dbb8f) == 0xe9265ee7;
    assert BitStep(0xe9265ee7) == 0x992bac53;
  }

  lemma FedN()
    ensures Steps(8, Xor(0x992bac53, WordOf(0x4e))) == 0x639f4775
  {
    Letter(0x4e, 0x4e);
    assert Xor(0x992bac53, 0x4e) == 0x992bac1d;
    Eight(0x992bac1d);
    assert BitStep(0x992bac1d) == 0xa12d552e;
    assert BitStep(0xa12d552e) == 0x5096aa97;
    assert BitStep(0x5096aa97) == 0xc5f3d66b;
    assert BitStep(0xc5f3d66b) == 0x8f416815;
    assert BitStep(0x8f416815) == 0xaa18372a;
    assert BitStep(0xaa18372a) == 0x550c1b95;
    assert BitStep(0x550c1b95) == 0xc73e8eea;
    assert BitStep(0xc73e8eea) == 0x639f4775;
  }

  lemma FedD()
    ensures Steps(8, Xor(0x639f4775, WordOf(0x44))) == 0x51bd9f7d
  {
    Letter(0x44, 0x44);
    assert Xor(0x639f4775, 0x44) == 0x639f4731;
    Eight(0x639f4731);
    assert BitStep(0x639f4731) == 0xdc7720b8;
    assert BitStep(0xdc7720b8) == 0x6e3b905c;
    assert BitStep(0x6e3b905c) == 0x371dc82e;
    assert BitStep(0x371dc82e) == 0x1b8ee417;
    assert BitStep(0x1b8ee417) == 0xe07ff12b;
    assert BitStep(0xe07ff12b) == 0x9d877bb5;
    assert BitStep(0x9d877bb5) == 0xa37b3efa;
    assert BitStep(0xa37b3efa) == 0x51bd9f7d;
  }

  /** The CRC of an empty closing chunk is the well-known one, and that of nothing is zero. */
  lemma EndChunkCrc()
    ensures Crc32([]) == 0 && Crc32([0x49, 0x45, 0x4e, 0x44]) == 0xae42_6082
  {
    hide BitStep, Steps;
    var e: seq<Byte> := [0x49, 0x45, 0x4e, 0x44];
    FedI();
    FedE();
    FedN();
    FedD();
    FeedNext(0xffff_ffff, e, 0);
    FeedNext(0x22fde946, e, 1);
    FeedNext(0x992bac53, e, 2);
    FeedNext(0x639f4775, e, 3);
    assert e[0..] == e && e[4..] == [];
    assert Feed(0xffff_ffff, e) == 0x51bd9f7d;
  }

  // ---------- One bit step is a linear bijection ----------

  predicate Top(r: bv32) { r & 0x8000_0000 != 0 }

  function DoubleAndOne(r: bv32): bv32 { (r << 1) | 1 }

  function Unstep(r: bv32): bv32 {
    if Top(r) then DoubleAndOne(Xor(r, 0xedb88320)) else Double(r)
  }

  lemma HalfThenDouble(c: bv32)
    ensures if Odd(c) then DoubleAndOne(Half(c)) == c else Double(Half(c)) == c
    ensures !Top(Half(c)) && Top(Xor(Half(c), 0xedb88320))
  {
  }

  lemma ShiftFacts(r: bv32)
    ensures ((r << 1) | 1) & 1 != 0 && (r << 1) & 1 == 0
    ensures r & 0x8000_0000 == 0 ==> (r << 1) >> 1 == r && ((r << 1) | 1) >> 1 == r
  {
  }

  lemma DoubleThenHalf(r: bv32)
    ensures Odd(DoubleAndOne(r)) && !Odd(Double(r))
    ensures !Top(r) ==> Half(Double(r)) == r && Half(DoubleAndOne(r)) == r
  {
    ShiftFacts(r);
  }

  lemma TopFlips(r: bv32)
    ensures Top(Xor(r, 0xedb88320)) <==> !Top(r)
  {
  }

  lemma XorTwice(c: bv32, p: bv32)
    ensures Xor(Xor(c, p), p) == c
  {
  }

  /** Both ways round: no state is merged with another and none is out of reach. */
  lemma BitStepIsBijective(c: bv32)
    ensures Unstep(BitStep(c)) == c && BitStep(Unstep(c)) == c
  {
    hide Xor, Half, Odd, Top, Double, DoubleAndOne;
    HalfThenDouble(c);
    XorTwice(Half(c), 0xedb88320);
    DoubleThenHalf(c);
    DoubleThenHalf(Xor(c, 0xedb88320));
    XorTwice(c, 0xedb88320);
    TopFlips(c);
  }

  lemma XorHalves(x: bv32, y: bv32)
    ensures Half(Xor(x, y)) == Xor(Half(x), Half(y))
    ensures Odd(Xor(x, y)) <==> Odd(x) != Odd(y)
  {
  }

  lemma AssocBits(x: bv32, y: bv32, z: bv32)
    ensures x ^ (y ^ z) == (x ^ y) ^ z
  {
  }

  lemma XorAssociates(x: bv32, y: bv32, z: bv32)
    ensures Xor(x, Xor(y, z)) == Xor(Xor(x, y), z)
  {
    AssocBits(x, y, z);
  }

  lemma XorCommutes(x: bv32, y: bv32)
    ensures Xor(x, y) == Xor(y, x)
  {
  }

  lemma XorOut(x: bv32, y: bv32, p: bv32)
    ensures Xor(Xor(x, p), y) == Xor(Xor(x, y), p)
  {
    hide Xor;
    XorAssociates(x, p, y);
    XorCommutes(p, y);
    XorAssociates(x, y, p);
  }

  lemma XorPairs(a: bv32, b: bv32, c: bv32, d: bv32)
    ensures Xor(Xor(a, b), Xor(c, d)) == Xor(Xor(a, c), Xor(b, d))
  {
    hide Xor;
    XorAssociates(Xor(a, b), c, d);
    XorOut(a, c, b);
    XorAssociates(Xor(a, c), b, d);
  }

  lemma XorSelf(c: bv32)
    ensures Xor(c, c) == 0 && Xor(c, 0) == c
  {
  }

  lemma XorDrops(x: bv32, y: bv32, p: bv32)
    ensures Xor(Xor(x, p), Xor(y, p)) == Xor(x, y)
  {
    hide Xor;
    XorPairs(x, p, y, p);
    XorSelf(p);
    XorSelf(Xor(x, y));
  }

  lemma BitStepIsLinear(x: bv32, y: bv32)
    ensures BitStep(Xor(x, y)) == Xor(BitStep(x), BitStep(y))
  {
    hide Xor, Half, Odd;
    XorHalves(x, y);
    XorDrops(Half(x), Half(y), 0xedb88320);
    XorOut(Half(x), Half(y), 0xedb88320);
    XorAssociates(Half(x), Half(y), 0xedb88320);
  }

  lemma XorCancels(c: bv32, d: bv32, b: bv32)
    requires c != d
    ensures Xor(c, b) != Xor(d, b) && Xor(b, c) != Xor(b, d)
  {
  }

  // ---------- The message as one string of bits ----------

  /** The same machine fed one bit at a time. */
  function FeedBits(c: bv32, bits: seq<bool>): bv32
    decreases |bits|
  {
    if bits == [] then c else FeedBits(BitStep(Xor(c, Bit(bits[0]))), bits[1..])
  }

  /** The n lowest bits of a word, lowest first. */
  function LowBits(w: bv32, n: nat): (r: seq<bool>)
    ensures |r| == n
  {
    if n == 0 then [] else [Odd(w)] + LowBits(Half(w), n - 1)
  }

  function Bits(bytes: seq<Byte>): (r: seq<bool>)
    ensures |r| == 8 * |bytes|
  {
    if bytes == [] then [] else LowBits(WordOf(bytes[0]), 8) + Bits(bytes[1..])
  }

  lemma {:induction false} FeedBitsAppend(c: bv32, x: seq<bool>, y: seq<bool>)
    ensures FeedBits(c, x + y) == FeedBits(FeedBits(c, x), y)
    decreases |x|
  {
    hide BitStep, Xor, Bit;
    if x == [] {
      assert x + y == y;
    } else {
      assert (x + y)[1..] == x[1..] + y;
      FeedBitsAppend(BitStep(Xor(c, Bit(x[0]))), x[1..], y);
    }
  }

  lemma {:induction false} FeedBitsInjective(c: bv32, d: bv32, bits: seq<bool>)
    requires c != d
    ensures FeedBits(c, bits) != FeedBits(d, bits)
    decreases |bits|
  {
    hide BitStep, Xor, Bit, Unstep;
    if bits != [] {
      var x, y := Xor(c, Bit(bits[0])), Xor(d, Bit(bits[0]));
      XorCancels(c, d, Bit(bits[0]));
      BitStepIsBijective(x);
      BitStepIsBijective(y);
      FeedBitsInjective(BitStep(x), BitStep(y), bits[1..]);
    }
  }

  // ---------- No burst of up to 32 bits can cancel ----------

  function Halves(n: nat, c: bv32): bv32 {
    if n == 0 then c else Halves(n - 1, Half(c))
  }

  lemma {:induction false} HalvesAdd(m: nat, n: nat, c: bv32)
    ensures Halves(m + n, c) == Halves(n, Halves(m, c))
  {
    hide Half;
    if m > 0 {
      HalvesAdd(m - 1, n, Half(c));
    }
  }

  function Shift2(c: bv32): bv32 { c >> 2 }
  function Shift4(c: bv32): bv32 { c >> 4 }
  function Shift8(c: bv32): bv32 { c >> 8 }
  function Shift16(c: bv32): bv32 { c >> 16 }

  lemma TwiceGives2(c: bv32)
    ensures Half(Half(c)) == Shift2(c)
  {
    assert (c >> 1) >> 1 == c >> 2;
  }

  lemma TwiceGives4(c: bv32)
    ensures Shift2(Shift2(c)) == Shift4(c)
  {
    assert (c >> 2) >> 2 == c >> 4;
  }

  lemma TwiceGives8(c: bv32)
    ensures Shift4(Shift4(c)) == Shift8(c)
  {
    assert (c >> 4) >> 4 == c >> 8;
  }

  lemma TwiceGives16(c: bv32)
    ensures Shift8(Shift8(c)) == Shift16(c)
  {
    assert (c >> 8) >> 8 == c >> 16;
  }

  lemma Halves2(c: bv32)
    ensures Halves(2, c) == Shift2(c)
  {
    hide Half, Shift2;
    assert Halves(2, c) == Halves(1, Half(c)) == Half(Half(c));
    TwiceGives2(c);
  }

  lemma Halves4(c: bv32)
    ensures Halves(4, c) == Shift4(c)
  {
    hide Half, Halves, Shift2, Shift4, Shift8, Shift16;
    HalvesAdd(2, 2, c);
    Halves2(c);
    Halves2(Halves(2, c));
    TwiceGives4(c);
  }

  lemma Halves8(c: bv32)
    ensures Halves(8, c) == Shift8(c)
  {
    hide Half, Halves, Shift2, Shift4, Shift8, Shift16;
    HalvesAdd(4, 4, c);
    Halves4(c);
    Halves4(Halves(4, c));
    TwiceGives8(c);
  }

  lemma Halves16(c: bv32)
    ensures Halves(16, c) == Shift16(c)
  {
    hide Half, Halves, Shift2, Shift4, Shift8, Shift16;
    HalvesAdd(8, 8, c);
    Halves8(c);
    Halves8(Halves(8, c));
    TwiceGives16(c);
  }

  /** After 31 shifts only the top bit is left. */
  lemma ThirtyOneHalves(c: bv32)
    ensures Halves(31, c) == Half(Shift2(Shift4(Shift8(Shift16(c)))))
  {
    hide Half, Shift2, Shift4, Shift8, Shift16;
    HalvesAdd(16, 15, c);
    Halves16(c);
    var c16 := Shift16(c);
    HalvesAdd(8, 7, c16);
    Halves8(c16);
    var c8 := Shift8(c16);
    HalvesAdd(4, 3, c8);
    Halves4(c8);
    var c4 := Shift4(c8);
    HalvesAdd(2, 1, c4);
    Halves2(c4);
  }

  lemma SplitWord(w: bv32)
    ensures w == Xor(Bit(Odd(w)), Double(Half(w))) && !Top(Half(w))
  {
    assert w & 1 == 0 || w & 1 == 1;
    assert w == (w & 1) ^ ((w >> 1) << 1);
  }

  /** Adding a whole word is adding its lowest bit now and the rest one step later. */
  lemma AddLater(c: bv32, w: bv32)
    ensures BitStep(Xor(c, w)) == Xor(BitStep(Xor(c, Bit(Odd(w)))), Half(w))
  {
    hide Xor, Half, Odd, Top, Double, DoubleAndOne, Bit;
    SplitWord(w);
    XorAssociates(c, Bit(Odd(w)), Double(Half(w)));
    BitStepIsLinear(Xor(c, Bit(Odd(w))), Double(Half(w)));
    DoubleThenHalf(Half(w));
  }

  lemma {:induction false} FeedWord(c: bv32, w: bv32, n: nat)
    requires Halves(n, w) == 0
    ensures FeedBits(c, LowBits(w, n)) == Steps(n, Xor(c, w))
    decreases n
  {
    hide BitStep, Half, Odd, Bit;
    if n > 0 {
      var next := BitStep(Xor(c, Bit(Odd(w))));
      assert LowBits(w, n)[1..] == LowBits(Half(w), n - 1);
      FeedWord(next, Half(w), n - 1);
      AddLater(c, w);
    }
  }

  /** Digits in, digits out. */
  lemma {:induction false} NumberRoundTrip(n: nat, k: nat)
    requires n < Power2(k) && k <= 32
    ensures Halves(k, WordOf(n)) == 0 && NumberOf(WordOf(n), k) == n
    decreases k
  {
    hide Half, Odd, Double, Bit, Xor, Top;
    if n == 0 {
      HalvesOfZero(k);
      ZeroNumber(k);
    } else {
      var rest := WordOf(n / 2);
      NumberRoundTrip(n / 2, k - 1);
      TopStays(k - 1, rest);
      Unsplit(n % 2 == 1, rest);
    }
  }

  lemma {:induction false} ZeroNumber(k: nat)
    ensures NumberOf(0, k) == 0
  {
    if k > 0 {
      ZeroNumber(k - 1);
    }
  }

  lemma DoubleHalf(rest: bv32)
    ensures rest & 0x8000_0000 == 0 ==>
              (rest << 1) >> 1 == rest && (1 ^ (rest << 1)) >> 1 == rest && (0 ^ (rest << 1)) >> 1 == rest
    ensures (1 ^ (rest << 1)) & 1 != 0 && (0 ^ (rest << 1)) & 1 == 0
  {
  }

  lemma Unsplit(bit: bool, rest: bv32)
    requires !Top(rest)
    ensures Half(Xor(Bit(bit), Double(rest))) == rest && (Odd(Xor(Bit(bit), Double(rest))) <==> bit)
  {
    DoubleHalf(rest);
  }

  lemma {:induction false} NumberBound(w: bv32, k: nat)
    ensures NumberOf(w, k) < Power2(k)
    decreases k
  {
    hide Half, Odd;
    if k > 0 {
      NumberBound(Half(w), k - 1);
    }
  }

  lemma ByteFits(b: Byte)
    ensures Halves(8, WordOf(b)) == 0 && NumberOf(WordOf(b), 8) == b
  {
    assert Power2(8) == 256;
    NumberRoundTrip(b, 8);
  }

  /** The CRC of bytes is the bit machine run on their bits. */
  lemma {:induction false} FeedIsFeedBits(c: bv32, bytes: seq<Byte>)
    ensures Feed(c, bytes) == FeedBits(c, Bits(bytes))
    decreases |bytes|
  {
    hide BitStep, Xor, LowBits;
    if bytes != [] {
      var w := WordOf(bytes[0]);
      ByteFits(bytes[0]);
      FeedWord(c, w, 8);
      FeedBitsAppend(c, LowBits(w, 8), Bits(bytes[1..]));
      FeedIsFeedBits(Steps(8, Xor(c, w)), bytes[1..]);
    }
  }

  lemma BitXor(a: bool, b: bool)
    ensures Half(Xor(Bit(a), Bit(b))) == 0
  {
  }

  lemma HalfOfXor(x: bv32, e: bv32)
    requires Half(e) == 0
    ensures Half(Xor(x, e)) == Half(x)
  {
    XorHalves(x, e);
    assert Half(x) ^ 0 == Half(x);
  }

  lemma {:induction false} TopStays(n: nat, x: bv32)
    requires n <= 31 && Halves(n, x) == 0
    ensures !Top(x)
  {
    hide Half, Top;
    HalvesAdd(n, 31 - n, x);
    HalvesOfZero(31 - n);
    ThirtyOneHalves(x);
    NoTop(x);
  }

  lemma {:induction false} HalvesOfZero(n: nat)
    ensures Halves(n, 0) == 0
  {
    if n > 0 {
      HalvesOfZero(n - 1);
    }
  }

  lemma NoTop(x: bv32)
    requires Half(Shift2(Shift4(Shift8(Shift16(x))))) == 0
    ensures !Top(x)
  {
  }

  /** Two states that end equal after the same number of bits differed only in that many low bits. */
  lemma {:induction false} EndEqual(c: bv32, d: bv32, u: seq<bool>, v: seq<bool>)
    requires |u| == |v| <= 32 && FeedBits(c, u) == FeedBits(d, v)
    ensures Halves(|u|, Xor(c, d)) == 0
    decreases |u|
  {
    hide BitStep, Xor, Bit, Half, Odd, Top;
    if u == [] {
      XorSelf(c);
    } else {
      var x, y := Xor(c, Bit(u[0])), Xor(d, Bit(v[0]));
      var e := Xor(Bit(u[0]), Bit(v[0]));
      EndEqual(BitStep(x), BitStep(y), u[1..], v[1..]);
      BitStepIsLinear(x, y);
      TopStays(|u| - 1, BitStep(Xor(x, y)));
      EvenStep(Xor(x, y));
      XorPairs(c, Bit(u[0]), d, Bit(v[0]));
      BitXor(u[0], v[0]);
      HalfOfXor(Xor(c, d), e);
    }
  }

  lemma EvenStep(x: bv32)
    requires !Top(BitStep(x))
    ensures BitStep(x) == Half(x)
  {
    hide Xor, Half, Top, Odd;
    HalfThenDouble(x);
  }

  /** From one state, two different strings of at most 32 bits never meet again. */
  lemma {:induction false} ShortStringsDiffer(c: bv32, u: seq<bool>, v: seq<bool>)
    requires |u| == |v| <= 32 && u != v
    ensures FeedBits(c, u) != FeedBits(c, v)
    decreases |u|
  {
    hide BitStep, Xor, Bit, Half, Odd, Top;
    var x, y := Xor(c, Bit(u[0])), Xor(c, Bit(v[0]));
    if u[0] == v[0] {
      assert u == [u[0]] + u[1..] && v == [v[0]] + v[1..];
      ShortStringsDiffer(BitStep(x), u[1..], v[1..]);
    } else if FeedBits(c, u) == FeedBits(c, v) {
      EndEqual(BitStep(x), BitStep(y), u[1..], v[1..]);
      BitStepIsLinear(x, y);
      TopStays(|u| - 1, BitStep(Xor(x, y)));
      OneBitApart(c, u[0], v[0]);
    }
  }

  lemma OneBitApart(c: bv32, a: bool, b: bool)
    requires a != b
    ensures Top(BitStep(Xor(Xor(c, Bit(a)), Xor(c, Bit(b)))))
  {
    hide Xor, Top, BitStep;
    XorPairs(c, Bit(a), c, Bit(b));
    XorSelf(c);
    XorCommutes(0, Xor(Bit(a), Bit(b)));
    XorSelf(Xor(Bit(a), Bit(b)));
    StepOfOne(a, b);
  }

  lemma StepOfOne(a: bool, b: bool)
    requires a != b
    ensures Top(BitStep(Xor(Bit(a), Bit(b))))
  {
    assert Xor(Bit(a), Bit(b)) == 1;
  }

  /** The damage lies inside one window of 32 consecutive bits. */
  ghost predicate OneBurst(x: seq<bool>, y: seq<bool>, from: nat) {
    && |x| == |y|
    && forall k :: 0 <= k < |x| && !(from <= k < from + 32) ==> x[k] == y[k]
  }

  /** Main result on error detection: two different messages of the same length, of any length, that
      differ only inside one window of 32 consecutive bits have different CRCs. */
  lemma BurstDetected(a: seq<Byte>, b: seq<Byte>, from: nat)
    requires a != b && |a| == |b| && OneBurst(Bits(a), Bits(b), from)
    ensures Crc32(a) != Crc32(b)
  {
    hide Feed, FeedBits, Bits;
    var x, y := Bits(a), Bits(b);
    if x == y {
      BitsInjective(a, b);
    }
    var i := if from < |x| then from else |x|;
    var j := if from + 32 < |x| then from + 32 else |x|;
    assert x[..i] == y[..i] && x[j..] == y[j..];
    assert x == x[..i] + x[i..j] + x[j..] && y == y[..i] + y[i..j] + y[j..];
    var c := FeedBits(0xffff_ffff, x[..i]);
    ShortStringsDiffer(c, x[i..j], y[i..j]);
    FeedBitsInjective(FeedBits(c, x[i..j]), FeedBits(c, y[i..j]), x[j..]);
    FeedBitsAppend(0xffff_ffff, x[..i] + x[i..j], x[j..]);
    FeedBitsAppend(0xffff_ffff, x[..i], x[i..j]);
    FeedBitsAppend(0xffff_ffff, y[..i] + y[i..j], y[j..]);
    FeedBitsAppend(0xffff_ffff, y[..i], y[i..j]);
    FeedIsFeedBits(0xffff_ffff, a);
    FeedIsFeedBits(0xffff_ffff, b);
    XorCancels(Feed(0xffff_ffff, a), Feed(0xffff_ffff, b), 0xffff_ffff);
  }

  lemma {:induction false} BitsInjective(a: seq<Byte>, b: seq<Byte>)
    requires |a| == |b| && Bits(a) == Bits(b)
    ensures a == b
  {
    if a != [] {
      var x, y := LowBits(WordOf(a[0]), 8), LowBits(WordOf(b[0]), 8);
      assert Bits(a)[..8] == x && Bits(b)[..8] == y;
      assert Bits(a)[8..] == Bits(a[1..]) && Bits(b)[8..] == Bits(b[1..]);
      BitsInjective(a[1..], b[1..]);
      ByteFromBits(a[0], b[0]);
    }
  }

  lemma ByteFromBits(a: Byte, b: Byte)
    requires LowBits(WordOf(a), 8) == LowBits(WordOf(b), 8)
    ensures a == b
  {
    hide LowBits, WordOf;
    ByteFits(a);
    ByteFits(b);
    SameLowBits(WordOf(a), WordOf(b), 8);
  }

  /** A 32-bit word is determined by its number. */
  lemma NumberDetermines(c: bv32, d: bv32)
    ensures NumberOf(c, 32) == NumberOf(d, 32) ==> c == d
    ensures NumberOf(c, 32) < 0x1_0000_0000
  {
    hide LowBits, NumberOf;
    Power32();
    NumberBound(c, 32);
    if NumberOf(c, 32) == NumberOf(d, 32) {
      SameDigits(c, d, 32);
      AllShiftedOut(c);
      AllShiftedOut(d);
      SameLowBits(c, d, 32);
    }
  }

  lemma Power32()
    ensures Power2(32) == 0x1_0000_0000
  {
    assert Power2(8) == 0x100;
    assert Power2(16) == 0x100 * Power2(8);
    assert Power2(24) == 0x100 * Power2(16);
    assert Power2(32) == 0x100 * Power2(24);
  }

  lemma {:induction false} SameDigits(c: bv32, d: bv32, k: nat)
    requires NumberOf(c, k) == NumberOf(d, k)
    ensures LowBits(c, k) == LowBits(d, k)
    decreases k
  {
    hide Half, Odd;
    if k > 0 {
      SameDigits(Half(c), Half(d), k - 1);
    }
  }

  lemma AllShiftedOut(c: bv32)
    ensures Halves(32, c) == 0
  {
    hide Half, Halves, Shift2, Shift4, Shift8, Shift16;
    HalvesAdd(31, 1, c);
    ThirtyOneHalves(c);
    assert Halves(1, Halves(31, c)) == Half(Halves(31, c)) by { OneHalf(Halves(31, c)); }
    NothingLeft(c);
  }

  lemma OneHalf(c: bv32)
    ensures Halves(1, c) == Half(c)
  {
  }

  lemma NothingLeft(c: bv32)
    ensures Half(Half(Shift2(Shift4(Shift8(Shift16(c)))))) == 0
  {
  }

  lemma {:induction false} SameLowBits(x: bv32, y: bv32, n: nat)
    requires LowBits(x, n) == LowBits(y, n) && Halves(n, x) == 0 && Halves(n, y) == 0
    ensures x == y
    decreases n
  {
    hide Half, Odd, Double, Bit, Xor, Top;
    if n > 0 {
      assert LowBits(x, n)[0] == Odd(x) && LowBits(y, n)[0] == Odd(y);
      assert LowBits(x, n)[1..] == LowBits(Half(x), n - 1) && LowBits(y, n)[1..] == LowBits(Half(y), n - 1);
      SameLowBits(Half(x), Half(y), n - 1);
      SplitWord(x);
      SplitWord(y);
    }
  }

  lemma {:induction false} BitsAppend(x: seq<Byte>, y: seq<Byte>)
    ensures Bits(x + y) == Bits(x) + Bits(y)
  {
    hide LowBits, WordOf;
    if x == [] {
      assert x + y == y;
    } else {
      assert (x + y)[1..] == x[1..] + y;
      BitsAppend(x[1..], y);
    }
  }

  /** In bytes: replacing up to four consecutive bytes by others always changes the CRC. */
  lemma FourBytesDetected(before: seq<Byte>, u: seq<Byte>, v: seq<Byte>, after: seq<Byte>)
    requires |u| == |v| <= 4 && u != v
    ensures Crc32(before + u + after) != Crc32(before + v + after)
  {
    hide Bits, Crc32;
    var a, b := before + u + after, before + v + after;
    assert a[|before|..|before| + |u|] == u && b[|before|..|before| + |u|] == v;
    BitsAppend(before + u, after);
    BitsAppend(before, u);
    BitsAppend(before + v, after);
    BitsAppend(before, v);
    BurstDetected(a, b, 8 * |before|);
  }
}
