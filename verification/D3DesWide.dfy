// desfunc where unsigned long has sixty-four bits.
module D3DesWide {
  import opened Bits
  import opened D3Des
  import opened D3DesRefinesFips
  import Fips46

  datatype Block64 = Block64(leftt: bv64, right: bv64)

  function Zext(w: bv32): bv64 { w as bv64 }

  function Wide(b: Block): Block64 { Block64(Zext(b.leftt), Zext(b.right)) }

  function Scrunch64(bs: seq<byte>): Block64
    requires |bs| == 8
  {
    Block64(((bs[0] as bv64) << 24) | ((bs[1] as bv64) << 16) | ((bs[2] as bv64) << 8) | (bs[3] as bv64),
            ((bs[4] as bv64) << 24) | ((bs[5] as bv64) << 16) | ((bs[6] as bv64) << 8) | (bs[7] as bv64))
  }

  function Unscrun64(b: Block64): (bs: seq<byte>)
    ensures |bs| == 8
  {
    [((b.leftt >> 24) & 0xff) as byte, ((b.leftt >> 16) & 0xff) as byte,
     ((b.leftt >> 8) & 0xff) as byte, (b.leftt & 0xff) as byte,
     ((b.right >> 24) & 0xff) as byte, ((b.right >> 16) & 0xff) as byte,
     ((b.right >> 8) & 0xff) as byte, (b.right & 0xff) as byte]
  }

  function Opening64(b: Block64): Block64 {
    var leftt, right := b.leftt, b.right;
    var work := ((leftt >> 4) ^ right) & 0x0f0f0f0f;
    var right := right ^ work;
    var leftt := leftt ^ (work << 4);
    var work := ((leftt >> 16) ^ right) & 0x0000ffff;
    var right := right ^ work;
    var leftt := leftt ^ (work << 16);
    var work := ((right >> 2) ^ leftt) & 0x33333333;
    var leftt := leftt ^ work;
    var right := right ^ (work << 2);
    var work := ((right >> 8) ^ leftt) & 0x00ff00ff;
    var leftt := leftt ^ work;
    var right := right ^ (work << 8);
    var right := ((right << 1) | ((right >> 31) & 1)) & 0xffffffff;
    var work := (leftt ^ right) & 0xaaaaaaaa;
    var leftt := leftt ^ work;
    var right := right ^ work;
    var leftt := ((leftt << 1) | ((leftt >> 31) & 1)) & 0xffffffff;
    Block64(leftt, right)
  }

  // The unmasked rotations leave bits above the thirty-second in both halves.
  function Closing64(b: Block64): Block64 {
    var leftt, right := b.leftt, b.right;
    var right := (right << 31) | (right >> 1);
    var work := (leftt ^ right) & 0xaaaaaaaa;
    var leftt := leftt ^ work;
    var right := right ^ work;
    var leftt := (leftt << 31) | (leftt >> 1);
    var work := ((leftt >> 8) ^ right) & 0x00ff00ff;
    var right := right ^ work;
    var leftt := leftt ^ (work << 8);
    var work := ((leftt >> 2) ^ right) & 0x33333333;
    var right := right ^ work;
    var leftt := leftt ^ (work << 2);
    var work := ((right >> 16) ^ leftt) & 0x0000ffff;
    var leftt := leftt ^ work;
    var right := right ^ (work << 16);
    var work := ((right >> 4) ^ leftt) & 0x0f0f0f0f;
    var leftt := leftt ^ work;
    var right := right ^ (work << 4);
    Block64(right, leftt)
  }

  // The low thirty-two bits.
  function Low(w: bv64): bv32 { (w & 0xffffffff) as bv32 }

  function Slot64(w: bv64): (i: nat)
    ensures i < 64
  {
    (w & 0x3f) as nat
  }

  function Or8Wide(a: bv32, b: bv32, c: bv32, d: bv32, e: bv32, f: bv32, g: bv32, h: bv32): bv64 {
    (a as bv64) | (b as bv64) | (c as bv64) | (d as bv64) | (e as bv64) | (f as bv64) | (g as bv64) | (h as bv64)
  }

  function Preshift64(w: bv64): bv64 { (w << 28) | (w >> 4) }

  function Gather64(t: Tables, odd: bv64, even: bv64): bv64
    requires t.Valid()
  {
    Or8Wide(t.sp7[Slot64(odd)], t.sp5[Slot64(odd >> 8)], t.sp3[Slot64(odd >> 16)], t.sp1[Slot64(odd >> 24)],
            t.sp8[Slot64(even)], t.sp6[Slot64(even >> 8)], t.sp4[Slot64(even >> 16)], t.sp2[Slot64(even >> 24)])
  }

  function Fval64(t: Tables, half: bv64, key0: bv64, key1: bv64): bv64
    requires t.Valid()
  {
    Gather64(t, Preshift64(half) ^ key0, half ^ key1)
  }

  function Plus64(a: bv64, b: bv64): bv64 { a ^ b }

  function MixLeft64(t: Tables, b: Block64, k0: bv64, k1: bv64): Block64
    requires t.Valid()
  {
    Block64(Plus64(b.leftt, Fval64(t, b.right, k0, k1)), b.right)
  }

  function MixRight64(t: Tables, b: Block64, k0: bv64, k1: bv64): Block64
    requires t.Valid()
  {
    Block64(b.leftt, Plus64(b.right, Fval64(t, b.leftt, k0, k1)))
  }

  function DoubleRounds64(t: Tables, b: Block64, keys: seq<bv64>, n: nat): Block64
    requires t.Valid() && 4 * n <= |keys|
    decreases n
  {
    if n == 0 then b
    else
      var k := 4 * (n - 1);
      var p := DoubleRounds64(t, b, keys, n - 1);
      MixRight64(t, MixLeft64(t, p, keys[k], keys[k + 1]), keys[k + 2], keys[k + 3])
  }

  function DesBytes64(t: Tables, keys: seq<bv64>, bs: seq<byte>): (r: seq<byte>)
    requires t.Valid() && |keys| == 32 && |bs| == 8
    ensures |r| == 8
  {
    Unscrun64(Closing64(DoubleRounds64(t, Opening64(Scrunch64(bs)), keys, |keys| / 4)))
  }

  function Lows(keys: seq<bv64>): (r: seq<bv32>)
    ensures |r| == |keys|
  {
    seq(|keys|, i requires 0 <= i < |keys| => Low(keys[i]))
  }

  function WordBits(w: bv32): (b: BitString)
    ensures |b| == 32
  {
    [(w >> 31) as bit, ((w >> 30) & 1) as bit, ((w >> 29) & 1) as bit, ((w >> 28) & 1) as bit,
     ((w >> 27) & 1) as bit, ((w >> 26) & 1) as bit, ((w >> 25) & 1) as bit, ((w >> 24) & 1) as bit] +
    [((w >> 23) & 1) as bit, ((w >> 22) & 1) as bit, ((w >> 21) & 1) as bit, ((w >> 20) & 1) as bit,
     ((w >> 19) & 1) as bit, ((w >> 18) & 1) as bit, ((w >> 17) & 1) as bit, ((w >> 16) & 1) as bit] +
    [((w >> 15) & 1) as bit, ((w >> 14) & 1) as bit, ((w >> 13) & 1) as bit, ((w >> 12) & 1) as bit,
     ((w >> 11) & 1) as bit, ((w >> 10) & 1) as bit, ((w >> 9) & 1) as bit, ((w >> 8) & 1) as bit] +
    [((w >> 7) & 1) as bit, ((w >> 6) & 1) as bit, ((w >> 5) & 1) as bit, ((w >> 4) & 1) as bit,
     ((w >> 3) & 1) as bit, ((w >> 2) & 1) as bit, ((w >> 1) & 1) as bit, (w & 1) as bit]
  }

  lemma WordOfWordBits(w: bv32)
    ensures Word(WordBits(w), 0) == w
  {}

  lemma Opening64Left(b: BitString)
    requires |b| == 64 && |Fips46.IP| == 64 && IsTable(Fips46.IP, 64)
    ensures Opening64(Block64(Zext(Word(b, 0)), Zext(Word(b, 32)))).leftt == Zext(Rol1(Word(Permute(Fips46.IP, b), 0)))
  {}

  lemma Opening64Right(b: BitString)
    requires |b| == 64 && |Fips46.IP| == 64 && IsTable(Fips46.IP, 64)
    ensures Opening64(Block64(Zext(Word(b, 0)), Zext(Word(b, 32)))).right == Zext(Rol1(Word(Permute(Fips46.IP, b), 32)))
  {}

  lemma Closing64Left(b: BitString)
    requires |b| == 64 && |Fips46.IP_INVERSE| == 64 && IsTable(Fips46.IP_INVERSE, 64)
    ensures Closing64(Block64(Zext(Rol1(Word(b, 32))), Zext(Rol1(Word(b, 0))))).leftt & 0xffffffff ==
            Word(Permute(Fips46.IP_INVERSE, b), 0) as bv64
  {}

  predicate SameUnder(x: bv64, y: bv32, mask: bv64) {
    x & mask == y as bv64 & mask
  }

  lemma Closing64RightHigh(b: BitString)
    requires |b| == 64 && |Fips46.IP_INVERSE| == 64 && IsTable(Fips46.IP_INVERSE, 64)
    ensures SameUnder(Closing64(Block64(Zext(Rol1(Word(b, 32))), Zext(Rol1(Word(b, 0))))).right,
                      Word(Permute(Fips46.IP_INVERSE, b), 32), 0xffff0000)
  {}

  lemma Closing64RightMid(b: BitString)
    requires |b| == 64 && |Fips46.IP_INVERSE| == 64 && IsTable(Fips46.IP_INVERSE, 64)
    ensures SameUnder(Closing64(Block64(Zext(Rol1(Word(b, 32))), Zext(Rol1(Word(b, 0))))).right,
                      Word(Permute(Fips46.IP_INVERSE, b), 32), 0xff00)
  {}

  lemma Closing64RightLow(b: BitString)
    requires |b| == 64 && |Fips46.IP_INVERSE| == 64 && IsTable(Fips46.IP_INVERSE, 64)
    ensures SameUnder(Closing64(Block64(Zext(Rol1(Word(b, 32))), Zext(Rol1(Word(b, 0))))).right,
                      Word(Permute(Fips46.IP_INVERSE, b), 32), 0xff)
  {}

  predicate SameSlots(w: bv64, v: bv32) {
    Slot64(w) == Slot(v) && Slot64(w >> 8) == Slot(v >> 8) &&
    Slot64(w >> 16) == Slot(v >> 16) && Slot64(w >> 24) == Slot(v >> 24)
  }

  lemma SlotAgrees(w: bv64, v: bv32)
    requires w & 0x3f == (v & 0x3f) as bv64
    ensures Slot64(w) == Slot(v)
  {}

  predicate SameFields(w: bv64, v: bv32) {
    w & 0x3f == (v & 0x3f) as bv64 && (w >> 8) & 0x3f == ((v >> 8) & 0x3f) as bv64 &&
    (w >> 16) & 0x3f == ((v >> 16) & 0x3f) as bv64 && (w >> 24) & 0x3f == ((v >> 24) & 0x3f) as bv64
  }

  lemma SameFieldsSameSlots(w: bv64, v: bv32)
    requires SameFields(w, v)
    ensures SameSlots(w, v)
  {
    hide Slot, Slot64;
    SlotAgrees(w, v);
    SlotAgrees(w >> 8, v >> 8);
    SlotAgrees(w >> 16, v >> 16);
    SlotAgrees(w >> 24, v >> 24);
  }

  lemma OddFieldsAgree(half: bv32, key: bv64)
    ensures SameFields(Preshift64(Zext(half)) ^ key, Ror4(half) ^ Low(key))
  {}

  lemma EvenFieldsAgree(half: bv32, key: bv64)
    ensures SameFields(Zext(half) ^ key, half ^ Low(key))
  {}

  lemma Or8Agrees(a: bv32, b: bv32, c: bv32, d: bv32, e: bv32, f: bv32, g: bv32, h: bv32)
    ensures Or8Wide(a, b, c, d, e, f, g, h) == Zext(Or8(a, b, c, d, e, f, g, h))
  {}

  lemma Gather64Agrees(t: Tables, odd64: bv64, even64: bv64, odd: bv32, even: bv32)
    requires t.Valid() && SameSlots(odd64, odd) && SameSlots(even64, even)
    ensures Gather64(t, odd64, even64) == Zext(Gather(t, odd, even))
  {
    hide Slot, Slot64, Or8, Or8Wide, Zext;
    Or8Agrees(t.sp7[Slot(odd)], t.sp5[Slot(odd >> 8)], t.sp3[Slot(odd >> 16)], t.sp1[Slot(odd >> 24)],
              t.sp8[Slot(even)], t.sp6[Slot(even >> 8)], t.sp4[Slot(even >> 16)], t.sp2[Slot(even >> 24)]);
  }

  lemma FvalAgrees(t: Tables, half: bv32, key0: bv64, key1: bv64)
    requires t.Valid()
    ensures Fval64(t, Zext(half), key0, key1) == Zext(Fval(t, half, Low(key0), Low(key1)))
  {
    hide Zext, SameFields, SameSlots, Preshift64, Ror4, Low, Gather, Gather64;
    OddFieldsAgree(half, key0);
    EvenFieldsAgree(half, key1);
    SameFieldsSameSlots(Preshift64(Zext(half)) ^ key0, Ror4(half) ^ Low(key0));
    SameFieldsSameSlots(Zext(half) ^ key1, half ^ Low(key1));
    Gather64Agrees(t, Preshift64(Zext(half)) ^ key0, Zext(half) ^ key1, Ror4(half) ^ Low(key0), half ^ Low(key1));
  }

  lemma PlusAgrees(a: bv32, b: bv32)
    ensures Plus64(Zext(a), Zext(b)) == Zext(Plus(a, b))
  {}

  lemma MixLeftAgrees(t: Tables, b: Block, k0: bv64, k1: bv64)
    requires t.Valid()
    ensures MixLeft64(t, Wide(b), k0, k1) == Wide(MixLeft(t, b, Low(k0), Low(k1)))
  {
    hide Fval, Fval64, Low, Zext, Plus, Plus64;
    FvalAgrees(t, b.right, k0, k1);
    PlusAgrees(b.leftt, Fval(t, b.right, Low(k0), Low(k1)));
  }

  lemma MixRightAgrees(t: Tables, b: Block, k0: bv64, k1: bv64)
    requires t.Valid()
    ensures MixRight64(t, Wide(b), k0, k1) == Wide(MixRight(t, b, Low(k0), Low(k1)))
  {
    hide Fval, Fval64, Low, Zext, Plus, Plus64;
    FvalAgrees(t, b.leftt, k0, k1);
    PlusAgrees(b.right, Fval(t, b.leftt, Low(k0), Low(k1)));
  }

  lemma {:induction false} RoundsAgree(t: Tables, b: Block, keys: seq<bv64>, n: nat)
    requires t.Valid() && 4 * n <= |keys|
    ensures DoubleRounds64(t, Wide(b), keys, n) == Wide(DoubleRounds(t, b, Lows(keys), n))
  {
    hide MixLeft, MixRight, MixLeft64, MixRight64, Low, Wide;
    if n > 0 {
      var k := 4 * (n - 1);
      RoundsAgree(t, b, keys, n - 1);
      var p := DoubleRounds(t, b, Lows(keys), n - 1);
      MixLeftAgrees(t, p, keys[k], keys[k + 1]);
      MixRightAgrees(t, MixLeft(t, p, Low(keys[k]), Low(keys[k + 1])), keys[k + 2], keys[k + 3]);
    }
  }

  lemma OpeningAgrees(b: Block)
    ensures Opening64(Wide(b)) == Wide(Opening(b))
  {
    hide Word, WordBits, Opening, Opening64, Rol1, Permute, Zext;
    Fips46.TableShapes();
    var c := WordBits(b.leftt) + WordBits(b.right);
    WordsOfBoth(b);
    OpeningLeft(c);
    OpeningRight(c);
    Opening64Left(c);
    Opening64Right(c);
  }

  lemma WordsOfBoth(b: Block)
    ensures var c := WordBits(b.leftt) + WordBits(b.right); Word(c, 0) == b.leftt && Word(c, 32) == b.right
  {
    hide Word, WordBits;
    var c := WordBits(b.leftt) + WordBits(b.right);
    WordOfWordBits(b.leftt);
    WordOfWordBits(b.right);
    WordOfSum(WordBits(b.leftt), WordBits(b.right));
  }

  lemma WordOfSum(a: BitString, b: BitString)
    requires |a| == 32 == |b|
    ensures Word(a + b, 0) == Word(a, 0) && Word(a + b, 32) == Word(b, 0)
  {}

  lemma RotateBack(w: bv32)
    ensures Rol1(Ror1(w)) == w
  {}

  lemma LowByMask(x: bv64, y: bv32)
    requires x & 0xffffffff == y as bv64
    ensures Low(x) == y
  {}

  lemma LowByParts(x: bv64, y: bv32)
    requires SameUnder(x, y, 0xffff0000) && SameUnder(x, y, 0xff00) && SameUnder(x, y, 0xff)
    ensures Low(x) == y
  {}

  lemma Closing64LowLeft(x: BitString)
    requires |x| == 64 && |Fips46.IP_INVERSE| == 64 && IsTable(Fips46.IP_INVERSE, 64)
    ensures Low(Closing64(Block64(Zext(Rol1(Word(x, 32))), Zext(Rol1(Word(x, 0))))).leftt) ==
            Word(Permute(Fips46.IP_INVERSE, x), 0)
  {
    hide Word, Low, Closing64, Rol1, Zext, Permute;
    Closing64Left(x);
    LowByMask(Closing64(Block64(Zext(Rol1(Word(x, 32))), Zext(Rol1(Word(x, 0))))).leftt,
              Word(Permute(Fips46.IP_INVERSE, x), 0));
  }

  lemma Closing64LowRight(x: BitString)
    requires |x| == 64 && |Fips46.IP_INVERSE| == 64 && IsTable(Fips46.IP_INVERSE, 64)
    ensures Low(Closing64(Block64(Zext(Rol1(Word(x, 32))), Zext(Rol1(Word(x, 0))))).right) ==
            Word(Permute(Fips46.IP_INVERSE, x), 32)
  {
    hide SameUnder, Word, Low, Closing64, Rol1, Zext, Permute;
    Closing64RightHigh(x);
    Closing64RightMid(x);
    Closing64RightLow(x);
    LowByParts(Closing64(Block64(Zext(Rol1(Word(x, 32))), Zext(Rol1(Word(x, 0))))).right,
               Word(Permute(Fips46.IP_INVERSE, x), 32));
  }

  // The junk above bit 31 never reaches the low halves.
  lemma ClosingAgrees(b: Block)
    ensures Low(Closing64(Wide(b)).leftt) == Closing(b).leftt && Low(Closing64(Wide(b)).right) == Closing(b).right
  {
    hide Word, WordBits, Low, Closing, Closing64, Rol1, Ror1, Zext, Permute;
    Fips46.TableShapes();
    var turned := Block(Ror1(b.right), Ror1(b.leftt));
    var x := WordBits(turned.leftt) + WordBits(turned.right);
    WordsOfBoth(turned);
    RotateBack(b.leftt);
    RotateBack(b.right);
    ClosingLeft(x);
    ClosingRight(x);
    Closing64LowLeft(x);
    Closing64LowRight(x);
  }

  lemma UnscrunAgrees(b: Block64)
    ensures Unscrun64(b) == Unscrun(Block(Low(b.leftt), Low(b.right)))
  {}

  lemma ScrunchAgrees(bs: seq<byte>)
    requires |bs| == 8
    ensures Scrunch64(bs) == Wide(Scrunch(bs))
  {}

  // For every block and every key register the 64-bit build computes the same eight bytes.
  lemma WidthIndependence(t: Tables, keys: seq<bv64>, bs: seq<byte>)
    requires t.Valid() && |keys| == 32 && |bs| == 8
    ensures DesBytes64(t, keys, bs) == DesBytes(t, Lows(keys), bs)
  {
    hide Scrunch, Scrunch64, Unscrun, Unscrun64, Opening, Opening64, Closing, Closing64;
    hide DoubleRounds, DoubleRounds64, Wide, Low;
    ScrunchAgrees(bs);
    OpeningAgrees(Scrunch(bs));
    var b := DoubleRounds(t, Opening(Scrunch(bs)), Lows(keys), 8);
    RoundsAgree(t, Opening(Scrunch(bs)), keys, 8);
    ClosingAgrees(b);
    UnscrunAgrees(Closing64(Wide(b)));
  }
}
