// The engine as a whole: enciphering and deciphering blocks of eight bytes.
module D3DesCorrect {
  import opened Bits
  import opened D3Des
  import opened D3DesRefinesFips
  import opened D3DesKeySchedule
  import Fips46
  import Fips46Laws

  // The cooked words of a schedule, in order.
  ghost predicate HoldsSchedule(keys: seq<bv32>, ks: seq<BitString>)
    requires |keys| == 32 && |ks| == 16 && Fips46.IsSchedule(ks)
  {
    forall i | 0 <= i < 16 :: keys[2 * i] == Cooked0(ks[i]) && keys[2 * i + 1] == Cooked1(ks[i])
  }

  ghost function Schedule(key: seq<byte>, edf: int): (ks: seq<BitString>)
    requires |key| == 8 && TABLES.Valid()
    ensures |ks| == 16 && Fips46.IsSchedule(ks)
  {
    var ks := Fips46.KeySchedule(VncKey(key));
    if edf == DE1 then Fips46.Reverse(ks) else ks
  }

  lemma RoundKeyWords(key: seq<byte>, i: nat)
    requires |key| == 8 && i < 16 && TABLES.Valid()
    ensures var pcr := Rotated(TABLES, Selected(TABLES, key), i);
            var k := Fips46.KeySchedule(VncKey(key))[i];
            Cook0(RawWord(TABLES, pcr, 0), RawWord(TABLES, pcr, 24)) == Cooked0(k) &&
            Cook1(RawWord(TABLES, pcr, 0), RawWord(TABLES, pcr, 24)) == Cooked1(k)
  {
    hide RawWord, Cook0, Cook1, Cooked0, Cooked1, TwentyFour, KeyBit, Rotated, Fips46.CD, Fips46.PC1;
    Fips46.TableShapes();
    var pcr := Rotated(TABLES, Selected(TABLES, key), i);
    var k := Fips46.KeySchedule(VncKey(key))[i];
    SelectedIsPc1(key);
    RotatedIsCd(VncKey(key), i);
    forall j | 0 <= j < 48
      ensures k[j] == pcr[TABLES.pc2[j]]
    {
      Pc2Agrees(j);
    }
    RawIsTwentyFour(TABLES, pcr, 0, k);
    RawIsTwentyFour(TABLES, pcr, 24, k);
    CookTwentyFours(k);
  }

  lemma RawKeysAt(t: Tables, key: seq<byte>, edf: int, i: nat)
    requires |key| == 8 && i < 16 && t.Valid()
    ensures var pcr := Rotated(t, Selected(t, key), if edf == DE1 then 15 - i else i);
            RawKeys(t, key, edf)[2 * i] == RawWord(t, pcr, 0) && RawKeys(t, key, edf)[2 * i + 1] == RawWord(t, pcr, 24)
  {
    hide RawWord, Rotated, Selected;
    assert (2 * i) / 2 == i == (2 * i + 1) / 2 && (2 * i) % 2 == 0 && (2 * i + 1) % 2 == 1;
  }

  lemma CookAt(raw: seq<bv32>, i: nat)
    requires |raw| == 32 && i < 16
    ensures Cook(raw)[2 * i] == Cook0(raw[2 * i], raw[2 * i + 1])
    ensures Cook(raw)[2 * i + 1] == Cook1(raw[2 * i], raw[2 * i + 1])
  {
    hide Cook0, Cook1;
    assert (2 * i) % 2 == 0 && (2 * i + 1) % 2 == 1;
  }

  // After rfbDesKey the key register holds the standard's key schedule: in order for
  // enciphering, reversed for deciphering.
  lemma KeyRegisterHoldsSchedule(key: seq<byte>, edf: int)
    requires |key| == 8 && TABLES.Valid()
    ensures HoldsSchedule(KeyRegister(TABLES, key, edf), Schedule(key, edf))
  {
    hide Cook, RawKeys, RawWord, Cook0, Cook1, Cooked0, Cooked1, Rotated, Selected, TABLES, Fips46.KeySchedule;
    forall i | 0 <= i < 16
      ensures var keys, ks := KeyRegister(TABLES, key, edf), Schedule(key, edf);
              keys[2 * i] == Cooked0(ks[i]) && keys[2 * i + 1] == Cooked1(ks[i])
    {
      RawKeysAt(TABLES, key, edf, i);
      CookAt(RawKeys(TABLES, key, edf), i);
      RoundKeyWords(key, if edf == DE1 then 15 - i else i);
    }
  }

  lemma HeldXor(l: BitString, f: BitString)
    requires |l| == 32 == |f|
    ensures Rol1(Word(Xor(l, f), 0)) == Plus(Rol1(Word(l, 0)), Rol1(Word(f, 0)))
  {
  }

  lemma MixLeftIsRound(l: BitString, r: BitString, k: BitString)
    requires |l| == 32 == |r| && |k| == 48 && TABLES.Valid()
    ensures MixLeft(TABLES, Block(Rol1(Word(l, 0)), Rol1(Word(r, 0))), Cooked0(k), Cooked1(k)) ==
            Block(Rol1(Word(Xor(l, Fips46.F(r, k)), 0)), Rol1(Word(r, 0)))
  {
    hide Word, Xor, Plus, Rol1, Fval, Fips46.F, Cooked0, Cooked1, TABLES;
    FvalIsCipherFunction(r, k);
    HeldXor(l, Fips46.F(r, k));
  }

  lemma MixRightIsRound(l: BitString, r: BitString, k: BitString)
    requires |l| == 32 == |r| && |k| == 48 && TABLES.Valid()
    ensures MixRight(TABLES, Block(Rol1(Word(l, 0)), Rol1(Word(r, 0))), Cooked0(k), Cooked1(k)) ==
            Block(Rol1(Word(l, 0)), Rol1(Word(Xor(r, Fips46.F(l, k)), 0)))
  {
    hide Word, Xor, Plus, Rol1, Fval, Fips46.F, Cooked0, Cooked1, TABLES;
    FvalIsCipherFunction(l, k);
    HeldXor(r, Fips46.F(l, k));
  }

  lemma TwoRounds(h: Fips46.Halves, ks: seq<BitString>, i: nat)
    requires Fips46.Size(h, 32) && Fips46.IsSchedule(ks) && i + 2 <= |ks|
    ensures var p := Fips46.Rounds(h, ks[..i]);
            var l := Xor(p.l, Fips46.F(p.r, ks[i]));
            Fips46.Rounds(h, ks[..i + 2]) == Fips46.Halves(l, Xor(p.r, Fips46.F(l, ks[i + 1])))
  {
    hide Fips46.F, Xor;
    assert ks[..i + 1][..i] == ks[..i] && ks[..i + 2][..i + 1] == ks[..i + 1];
    assert Fips46.Rounds(h, ks[..i + 1]) == Fips46Laws.Round(Fips46.Rounds(h, ks[..i]), ks[i]);
  }

  lemma MixBothAreTwoRounds(p: Fips46.Halves, keys: seq<bv32>, ks: seq<BitString>, i: nat)
    requires TABLES.Valid() && Fips46.Size(p, 32) && i <= 14
    requires |keys| == 32 && |ks| == 16 && Fips46.IsSchedule(ks) && HoldsSchedule(keys, ks)
    ensures var l := Xor(p.l, Fips46.F(p.r, ks[i]));
            var left := MixLeft(TABLES, Held(p), keys[2 * i], keys[2 * i + 1]);
            MixRight(TABLES, left, keys[2 * i + 2], keys[2 * i + 3]) ==
            Held(Fips46.Halves(l, Xor(p.r, Fips46.F(l, ks[i + 1]))))
  {
    hide TABLES, MixLeft, MixRight, Word, Rol1, Fips46.F, Xor, Cooked0, Cooked1;
    assert keys[2 * i] == Cooked0(ks[i]) && keys[2 * i + 1] == Cooked1(ks[i]);
    assert keys[2 * (i + 1)] == Cooked0(ks[i + 1]) && keys[2 * (i + 1) + 1] == Cooked1(ks[i + 1]);
    MixLeftIsRound(p.l, p.r, ks[i]);
    MixRightIsRound(Xor(p.l, Fips46.F(p.r, ks[i])), p.r, ks[i + 1]);
  }

  // n double rounds of the engine are 2n rounds of the standard.
  lemma {:induction false} DoubleRoundsAreRounds(h: Fips46.Halves, keys: seq<bv32>, ks: seq<BitString>, n: nat)
    requires TABLES.Valid() && Fips46.Size(h, 32) && n <= 8
    requires |keys| == 32 && |ks| == 16 && Fips46.IsSchedule(ks) && HoldsSchedule(keys, ks)
    ensures DoubleRounds(TABLES, Held(h), keys, n) == Held(Fips46.Rounds(h, ks[..2 * n]))
  {
    hide TABLES, MixLeft, MixRight, Held, Fips46.F, Xor, HoldsSchedule;
    if n == 0 {
      assert ks[..0] == [];
    } else {
      var i := 2 * n - 2;
      DoubleRoundsAreRounds(h, keys, ks, n - 1);
      TwoRounds(h, ks, i);
      MixBothAreTwoRounds(Fips46.Rounds(h, ks[..i]), keys, ks, i);
    }
  }

  lemma DesWordsIsCipher(b: BitString, keys: seq<bv32>, ks: seq<BitString>)
    requires TABLES.Valid() && |b| == 64
    requires |keys| == 32 && |ks| == 16 && Fips46.IsSchedule(ks) && HoldsSchedule(keys, ks)
    ensures var c := Fips46.Cipher(ks, b);
            DesWords(TABLES, keys, Block(Word(b, 0), Word(b, 32))) == Block(Word(c, 0), Word(c, 32))
  {
    hide TABLES, Word, Rol1, Opening, Closing, DoubleRounds, Permute, Fips46.Rounds;
    Fips46.TableShapes();
    var p := Permute(Fips46.IP, b);
    OpeningLeft(b);
    OpeningRight(b);
    var h := Fips46.Split(p);
    WordLeft(p);
    WordRight(p);
    DoubleRoundsAreRounds(h, keys, ks, 8);
    assert ks[..16] == ks;
    var e := Fips46.Rounds(h, ks);
    ClosingLeft(e.r + e.l);
    ClosingRight(e.r + e.l);
    WordLeft(e.r + e.l);
    WordRight(e.r + e.l);
    assert Fips46.Split(e.r + e.l) == Fips46.Halves(e.r, e.l);
  }

  lemma WordLeft(b: BitString)
    requires |b| == 64
    ensures Word(Fips46.Split(b).l, 0) == Word(b, 0)
  {}

  lemma WordRight(b: BitString)
    requires |b| == 64
    ensures Word(Fips46.Split(b).r, 0) == Word(b, 32)
  {}

  // Blocks of bytes as bit strings, each byte most significant bit first.

  function ByteBit(b: byte, t: nat): bit
    requires t < 8
  {
    if t == 0 then (b >> 7) as bit
    else if t == 1 then ((b >> 6) & 1) as bit
    else if t == 2 then ((b >> 5) & 1) as bit
    else if t == 3 then ((b >> 4) & 1) as bit
    else if t == 4 then ((b >> 3) & 1) as bit
    else if t == 5 then ((b >> 2) & 1) as bit
    else if t == 6 then ((b >> 1) & 1) as bit
    else (b & 1) as bit
  }

  function BitsOf(bs: seq<byte>): (b: BitString)
    ensures |b| == 8 * |bs|
  {
    seq(8 * |bs|, i requires 0 <= i < 8 * |bs| => ByteBit(bs[i / 8], i % 8))
  }

  lemma BitsOfAt(bs: seq<byte>, j: nat, t: nat)
    requires j < |bs| && t < 8
    ensures BitsOf(bs)[8 * j + t] == ByteBit(bs[j], t)
  {
    hide ByteBit;
    assert (8 * j + t) / 8 == j && (8 * j + t) % 8 == t;
  }

  lemma ScrunchIsWords(bs: seq<byte>)
    requires |bs| == 8
    ensures Scrunch(bs) == Block(Word(BitsOf(bs), 0), Word(BitsOf(bs), 32))
  {
  }

  function OctetByte(b: BitString, k: nat): byte
    requires k + 8 <= |b|
  {
    ((b[k] as byte) << 7) | ((b[k + 1] as byte) << 6) | ((b[k + 2] as byte) << 5) | ((b[k + 3] as byte) << 4) |
    ((b[k + 4] as byte) << 3) | ((b[k + 5] as byte) << 2) | ((b[k + 6] as byte) << 1) | (b[k + 7] as byte)
  }

  lemma OctetByteBit(c: BitString, k: nat, t: nat)
    requires k + 8 <= |c| && t < 8
    ensures ByteBit(OctetByte(c, k), t) == c[k + t]
  {}

  lemma WordOctets(c: BitString, k: nat)
    requires k + 32 <= |c|
    ensures ((Word(c, k) >> 24) & 0xff) as byte == OctetByte(c, k)
    ensures ((Word(c, k) >> 16) & 0xff) as byte == OctetByte(c, k + 8)
    ensures ((Word(c, k) >> 8) & 0xff) as byte == OctetByte(c, k + 16)
    ensures (Word(c, k) & 0xff) as byte == OctetByte(c, k + 24)
  {}

  lemma UnscrunOctets(c: BitString)
    requires |c| == 64
    ensures Unscrun(Block(Word(c, 0), Word(c, 32))) ==
            [OctetByte(c, 0), OctetByte(c, 8), OctetByte(c, 16), OctetByte(c, 24),
             OctetByte(c, 32), OctetByte(c, 40), OctetByte(c, 48), OctetByte(c, 56)]
  {
    hide Word, OctetByte;
    WordOctets(c, 0);
    WordOctets(c, 32);
  }

  lemma UnscrunOctet(c: BitString, j: nat)
    requires |c| == 64 && j < 8
    ensures Unscrun(Block(Word(c, 0), Word(c, 32)))[j] == OctetByte(c, 8 * j)
  {
    hide Word, OctetByte, Unscrun;
    UnscrunOctets(c);
  }

  lemma UnscrunWords(c: BitString)
    requires |c| == 64
    ensures BitsOf(Unscrun(Block(Word(c, 0), Word(c, 32)))) == c
  {
    hide ByteBit, OctetByte, Unscrun;
    var bs := Unscrun(Block(Word(c, 0), Word(c, 32)));
    forall i | 0 <= i < 64
      ensures BitsOf(bs)[i] == c[i]
    {
      UnscrunOctet(c, i / 8);
      OctetByteBit(c, 8 * (i / 8), i % 8);
      BitsOfAt(bs, i / 8, i % 8);
    }
  }

  lemma BitsDetermineBytes(a: seq<byte>, b: seq<byte>)
    requires |a| == |b| && BitsOf(a) == BitsOf(b)
    ensures a == b
  {
    forall j | 0 <= j < |a|
      ensures a[j] == b[j]
    {
      forall t | 0 <= t < 8
        ensures ByteBit(a[j], t) == ByteBit(b[j], t)
      {
        BitsOfAt(a, j, t);
        BitsOfAt(b, j, t);
      }
      SameBits(a[j], b[j]);
    }
  }

  lemma SameBits(a: byte, b: byte)
    requires forall t | 0 <= t < 8 :: ByteBit(a, t) == ByteBit(b, t)
    ensures a == b
  {
    assert ByteBit(a, 0) == ByteBit(b, 0) && ByteBit(a, 1) == ByteBit(b, 1);
    assert ByteBit(a, 2) == ByteBit(b, 2) && ByteBit(a, 3) == ByteBit(b, 3);
    assert ByteBit(a, 4) == ByteBit(b, 4) && ByteBit(a, 5) == ByteBit(b, 5);
    assert ByteBit(a, 6) == ByteBit(b, 6) && ByteBit(a, 7) == ByteBit(b, 7);
  }

  // A byte is the number its bits write, most significant first.
  lemma ByteIsItsBits(b: byte)
    ensures b as nat == 128 * (ByteBit(b, 0) as nat) + 64 * (ByteBit(b, 1) as nat) + 32 * (ByteBit(b, 2) as nat) +
      16 * (ByteBit(b, 3) as nat) + 8 * (ByteBit(b, 4) as nat) + 4 * (ByteBit(b, 5) as nat) +
      2 * (ByteBit(b, 6) as nat) + ByteBit(b, 7) as nat
  {
  }

  lemma LowFirst(b: byte, t: nat)
    requires t < 8
    ensures |BYTEBIT| == 8 && (if b & BYTEBIT[t] != 0 then 1 else 0) == ByteBit(b, 7 - t)
  {}

  // VNC's twist: the engine takes the bits of every byte of the key from the low end.
  lemma VncKeyIsMirrored(key: seq<byte>)
    requires |key| == 8 && TABLES.Valid()
    ensures forall i :: 0 <= i < 64 ==> VncKey(key)[i] == ByteBit(key[i / 8], 7 - i % 8)
  {
    hide ByteBit, BYTEBIT;
    forall i | 0 <= i < 64
      ensures VncKey(key)[i] == ByteBit(key[i / 8], 7 - i % 8)
    {
      LowFirst(key[i / 8], i % 8);
    }
  }

  // rfbDes after rfbDesKey is FIPS 46-3 under the key with the bits of each byte reversed.
  lemma EngineRefinesFips(key: seq<byte>, edf: int, block: seq<byte>, k: BitString)
    requires |key| == 8 && |block| == 8 && TABLES.Valid()
    requires |k| == 64 && forall i :: 0 <= i < 64 ==> k[i] == ByteBit(key[i / 8], 7 - i % 8)
    ensures BitsOf(DesBytes(TABLES, KeyRegister(TABLES, key, edf), block)) ==
            if edf == DE1 then Fips46.Decipher(k, BitsOf(block)) else Fips46.Encipher(k, BitsOf(block))
  {
    hide TABLES, DesWords, KeyRegister, Scrunch, Unscrun, BitsOf, Word, HoldsSchedule, ByteBit;
    hide Fips46.KeySchedule, Fips46.Cipher;
    var b := BitsOf(block);
    var ks := Schedule(key, edf);
    VncKeyIsMirrored(key);
    assert VncKey(key) == k;
    KeyRegisterHoldsSchedule(key, edf);
    ScrunchIsWords(block);
    DesWordsIsCipher(b, KeyRegister(TABLES, key, edf), ks);
    UnscrunWords(Fips46.Cipher(ks, b));
  }

  // Under one key, enciphering and deciphering are mutually inverse, hence each a bijection on blocks.
  lemma DecipheringInverts(key: seq<byte>, block: seq<byte>)
    requires |key| == 8 && |block| == 8 && TABLES.Valid()
    ensures var e, d := KeyRegister(TABLES, key, EN0), KeyRegister(TABLES, key, DE1);
            DesBytes(TABLES, d, DesBytes(TABLES, e, block)) == block &&
            DesBytes(TABLES, e, DesBytes(TABLES, d, block)) == block
  {
    hide TABLES, DesBytes, KeyRegister, BitsOf, VncKey, ByteBit, Fips46.Encipher, Fips46.Decipher;
    var e, d := KeyRegister(TABLES, key, EN0), KeyRegister(TABLES, key, DE1);
    var k := VncKey(key);
    VncKeyIsMirrored(key);
    EngineRefinesFips(key, EN0, block, k);
    EngineRefinesFips(key, DE1, DesBytes(TABLES, e, block), k);
    EngineRefinesFips(key, DE1, block, k);
    EngineRefinesFips(key, EN0, DesBytes(TABLES, d, block), k);
    Fips46Laws.DecipherInvertsEncipher(k, BitsOf(block));
    BitsDetermineBytes(DesBytes(TABLES, d, DesBytes(TABLES, e, block)), block);
    BitsDetermineBytes(DesBytes(TABLES, e, DesBytes(TABLES, d, block)), block);
  }

  function Complement(bs: seq<byte>): (r: seq<byte>)
    ensures |r| == |bs|
  {
    seq(|bs|, i requires 0 <= i < |bs| => bs[i] ^ 0xff)
  }

  lemma ComplementBit(b: byte, t: nat)
    requires t < 8
    ensures ByteBit(b ^ 0xff, t) == ByteBit(b, t) ^ 1
  {}

  lemma BitsOfComplement(bs: seq<byte>)
    ensures BitsOf(Complement(bs)) == Not(BitsOf(bs))
  {
    hide ByteBit;
    forall i | 0 <= i < 8 * |bs|
      ensures BitsOf(Complement(bs))[i] == Not(BitsOf(bs))[i]
    {
      ComplementBit(bs[i / 8], i % 8);
    }
  }

  lemma KeyOfComplement(key: seq<byte>)
    requires |key| == 8 && TABLES.Valid()
    ensures VncKey(Complement(key)) == Not(VncKey(key))
  {
    hide ByteBit, VncKey;
    VncKeyIsMirrored(key);
    VncKeyIsMirrored(Complement(key));
    forall i | 0 <= i < 64
      ensures VncKey(Complement(key))[i] == Not(VncKey(key))[i]
    {
      ComplementBit(key[i / 8], 7 - i % 8);
    }
  }

  lemma ComplementationOfBytes(key: seq<byte>, block: seq<byte>)
    requires |key| == 8 && |block| == 8 && TABLES.Valid()
    ensures DesBytes(TABLES, KeyRegister(TABLES, Complement(key), EN0), Complement(block)) ==
            Complement(DesBytes(TABLES, KeyRegister(TABLES, key, EN0), block))
  {
    hide TABLES, DesBytes, KeyRegister, BitsOf, VncKey, ByteBit, Complement, Fips46.Encipher;
    var out := DesBytes(TABLES, KeyRegister(TABLES, key, EN0), block);
    VncKeyIsMirrored(key);
    VncKeyIsMirrored(Complement(key));
    EngineRefinesFips(key, EN0, block, VncKey(key));
    EngineRefinesFips(Complement(key), EN0, Complement(block), VncKey(Complement(key)));
    BitsOfComplement(block);
    BitsOfComplement(out);
    KeyOfComplement(key);
    Fips46Laws.Complementation(VncKey(key), BitsOf(block));
    BitsDetermineBytes(DesBytes(TABLES, KeyRegister(TABLES, Complement(key), EN0), Complement(block)), Complement(out));
  }

  // The key register depends only on the low seven bits of each key byte.
  lemma HighBitsIgnored(key: seq<byte>, other: seq<byte>, edf: int)
    requires |key| == 8 == |other| && TABLES.Valid()
    requires forall j | 0 <= j < 8 :: key[j] & 0x7f == other[j] & 0x7f
    ensures KeyRegister(TABLES, key, edf) == KeyRegister(TABLES, other, edf)
  {
    hide Rotated, RawWord, Cook0, Cook1, BYTEBIT;
    forall j | 0 <= j < 56
      ensures Selected(TABLES, key)[j] == Selected(TABLES, other)[j]
    {
      Pc1AvoidsHighBit(j);
      LowBit(key[PC1[j] / 8], other[PC1[j] / 8], PC1[j] % 8);
    }
    assert Selected(TABLES, key) == Selected(TABLES, other);
    assert RawKeys(TABLES, key, edf) == RawKeys(TABLES, other, edf);
  }

  lemma Pc1AvoidsHighBit(j: nat)
    requires j < 56
    ensures |PC1| == 56 && PC1[j] < 64 && PC1[j] % 8 < 7
  {
    Pc1Agrees(j);
    Fips46Laws.Pc1SkipsEighthBits(j);
  }

  lemma LowBit(a: byte, b: byte, m: nat)
    requires a & 0x7f == b & 0x7f && m < 7
    ensures |BYTEBIT| == 8 && a & BYTEBIT[m] == b & BYTEBIT[m]
  {}
}
