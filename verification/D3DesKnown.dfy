// A known answer from outside the tables: under the zero key the zero block becomes
// 8ca64de9 c1b123a7. All sixteen rounds look up each selection function once.
module D3DesKnown {
  import opened Bits
  import opened D3Des
  import opened D3DesCorrect
  import Fips46

  const ZEROS: seq<byte> := [0, 0, 0, 0, 0, 0, 0, 0]

  lemma {:induction false} RawZero(pcr: BitString, from: nat, n: nat)
    requires TABLES.Valid() && |pcr| == 56 && from <= 24 && n <= 24 && forall j | 0 <= j < 56 :: pcr[j] == 0
    ensures Raw(TABLES, pcr, from, n) == 0
  {
    hide TABLES;
    if n > 0 { RawZero(pcr, from, n - 1); }
  }

  lemma CookZero()
    ensures Cook0(0, 0) == 0 && Cook1(0, 0) == 0
  {
  }

  lemma SelectedZero(i: nat)
    requires TABLES.Valid() && i < 16
    ensures forall j | 0 <= j < 56 :: Rotated(TABLES, Selected(TABLES, ZEROS), i)[j] == 0
  {
    hide TABLES;
  }

  lemma ZeroRegister()
    requires TABLES.Valid()
    ensures forall p | 0 <= p < 32 :: KeyRegister(TABLES, ZEROS, EN0)[p] == 0
  {
    hide TABLES, Rotated, Selected, Cook0, Cook1;
    CookZero();
    forall p | 0 <= p < 32 ensures RawKeys(TABLES, ZEROS, EN0)[p] == 0 {
      SelectedZero(p / 2);
      RawZero(Rotated(TABLES, Selected(TABLES, ZEROS), p / 2), if p % 2 == 0 then 0 else 24, |TABLES.bigbyte|);
    }
  }

  function TwoRounds(b: Block): Block
    requires TABLES.Valid()
  {
    MixRight(TABLES, MixLeft(TABLES, b, 0, 0), 0, 0)
  }

  lemma TwoRoundsBy(b: Block, x: bv32, y: bv32)
    requires TABLES.Valid() && Fval(TABLES, b.right, 0, 0) == x && Fval(TABLES, Plus(b.leftt, x), 0, 0) == y
    ensures TwoRounds(b) == Block(Plus(b.leftt, x), Plus(b.right, y))
  {
    hide TABLES, Fval, Plus;
  }

  lemma Half0()
    requires TABLES.Valid()
    ensures Fval(TABLES, 0x00000000, 0, 0) == 0xb1b1b779
  {
  }

  lemma Half1()
    requires TABLES.Valid()
    ensures Fval(TABLES, 0xb1b1b779, 0, 0) == 0xce75da9f
  {
  }

  lemma Pass0()
    requires TABLES.Valid()
    ensures TwoRounds(Block(0x00000000, 0x00000000)) == Block(0xb1b1b779, 0xce75da9f)
  {
    hide TABLES, Fval, TwoRounds;
    Half0();
    Half1();
    TwoRoundsBy(Block(0x00000000, 0x00000000), 0xb1b1b779, 0xce75da9f);
  }

  lemma Half2()
    requires TABLES.Valid()
    ensures Fval(TABLES, 0xce75da9f, 0, 0) == 0x06456035
  {
  }

  lemma Half3()
    requires TABLES.Valid()
    ensures Fval(TABLES, 0xb7f4d74c, 0, 0) == 0x72fe1e31
  {
  }

  lemma Pass1()
    requires TABLES.Valid()
    ensures TwoRounds(Block(0xb1b1b779, 0xce75da9f)) == Block(0xb7f4d74c, 0xbc8bc4ae)
  {
    hide TABLES, Fval, TwoRounds;
    Half2();
    Half3();
    TwoRoundsBy(Block(0xb1b1b779, 0xce75da9f), 0x06456035, 0x72fe1e31);
  }

  lemma Half4()
    requires TABLES.Valid()
    ensures Fval(TABLES, 0xbc8bc4ae, 0, 0) == 0xa1c6208d
  {
  }

  lemma Half5()
    requires TABLES.Valid()
    ensures Fval(TABLES, 0x1632f7c1, 0, 0) == 0x4758d63b
  {
  }

  lemma Pass2()
    requires TABLES.Valid()
    ensures TwoRounds(Block(0xb7f4d74c, 0xbc8bc4ae)) == Block(0x1632f7c1, 0xfbd31295)
  {
    hide TABLES, Fval, TwoRounds;
    Half4();
    Half5();
    TwoRoundsBy(Block(0xb7f4d74c, 0xbc8bc4ae), 0xa1c6208d, 0x4758d63b);
  }

  lemma Half6()
    requires TABLES.Valid()
    ensures Fval(TABLES, 0xfbd31295, 0, 0) == 0x258ce179
  {
  }

  lemma Half7()
    requires TABLES.Valid()
    ensures Fval(TABLES, 0x33be16b8, 0, 0) == 0xdb273574
  {
  }

  lemma Pass3()
    requires TABLES.Valid()
    ensures TwoRounds(Block(0x1632f7c1, 0xfbd31295)) == Block(0x33be16b8, 0x20f427e1)
  {
    hide TABLES, Fval, TwoRounds;
    Half6();
    Half7();
    TwoRoundsBy(Block(0x1632f7c1, 0xfbd31295), 0x258ce179, 0xdb273574);
  }

  lemma Half8()
    requires TABLES.Valid()
    ensures Fval(TABLES, 0x20f427e1, 0, 0) == 0x238c0e19
  {
  }

  lemma Half9()
    requires TABLES.Valid()
    ensures Fval(TABLES, 0x103218a1, 0, 0) == 0x6b568519
  {
  }

  lemma Pass4()
    requires TABLES.Valid()
    ensures TwoRounds(Block(0x33be16b8, 0x20f427e1)) == Block(0x103218a1, 0x4ba2a2f8)
  {
    hide TABLES, Fval, TwoRounds;
    Half8();
    Half9();
    TwoRoundsBy(Block(0x33be16b8, 0x20f427e1), 0x238c0e19, 0x6b568519);
  }

  lemma Half10()
    requires TABLES.Valid()
    ensures Fval(TABLES, 0x4ba2a2f8, 0, 0) == 0xf7ed3a5c
  {
  }

  lemma Half11()
    requires TABLES.Valid()
    ensures Fval(TABLES, 0xe7df22fd, 0, 0) == 0x66658cdd
  {
  }

  lemma Pass5()
    requires TABLES.Valid()
    ensures TwoRounds(Block(0x103218a1, 0x4ba2a2f8)) == Block(0xe7df22fd, 0x2dc72e25)
  {
    hide TABLES, Fval, TwoRounds;
    Half10();
    Half11();
    TwoRoundsBy(Block(0x103218a1, 0x4ba2a2f8), 0xf7ed3a5c, 0x66658cdd);
  }

  lemma Half12()
    requires TABLES.Valid()
    ensures Fval(TABLES, 0x2dc72e25, 0, 0) == 0x53646469
  {
  }

  lemma Half13()
    requires TABLES.Valid()
    ensures Fval(TABLES, 0xb4bb4694, 0, 0) == 0x26de7431
  {
  }

  lemma Pass6()
    requires TABLES.Valid()
    ensures TwoRounds(Block(0xe7df22fd, 0x2dc72e25)) == Block(0xb4bb4694, 0x0b195a14)
  {
    hide TABLES, Fval, TwoRounds;
    Half12();
    Half13();
    TwoRoundsBy(Block(0xe7df22fd, 0x2dc72e25), 0x53646469, 0x26de7431);
  }

  lemma Half14()
    requires TABLES.Valid()
    ensures Fval(TABLES, 0x0b195a14, 0, 0) == 0xc36f5d11
  {
  }

  lemma Half15()
    requires TABLES.Valid()
    ensures Fval(TABLES, 0x77d41b85, 0, 0) == 0x335855ec
  {
  }

  lemma Pass7()
    requires TABLES.Valid()
    ensures TwoRounds(Block(0xb4bb4694, 0x0b195a14)) == Block(0x77d41b85, 0x38410ff8)
  {
    hide TABLES, Fval, TwoRounds;
    Half14();
    Half15();
    TwoRoundsBy(Block(0xb4bb4694, 0x0b195a14), 0xc36f5d11, 0x335855ec);
  }

  lemma {:induction false} ZeroRounds(b: Block, keys: seq<bv32>, n: nat)
    requires TABLES.Valid() && |keys| == 32 && 0 < n <= 8 && forall p | 0 <= p < 32 :: keys[p] == 0
    ensures DoubleRounds(TABLES, b, keys, n) == TwoRounds(DoubleRounds(TABLES, b, keys, n - 1))
  {
    hide TABLES, MixLeft, MixRight;
  }

  lemma AllRounds(keys: seq<bv32>)
    requires TABLES.Valid() && |keys| == 32 && forall p | 0 <= p < 32 :: keys[p] == 0
    ensures DoubleRounds(TABLES, Block(0, 0), keys, 8) == Block(0x77d41b85, 0x38410ff8)
  {
    var b := Block(0, 0);
    assert DoubleRounds(TABLES, b, keys, 0) == b;
    hide TABLES, TwoRounds, DoubleRounds;
    ZeroRounds(b, keys, 1); ZeroRounds(b, keys, 2); ZeroRounds(b, keys, 3); ZeroRounds(b, keys, 4);
    ZeroRounds(b, keys, 5); ZeroRounds(b, keys, 6); ZeroRounds(b, keys, 7); ZeroRounds(b, keys, 8);
    Pass0(); Pass1(); Pass2(); Pass3(); Pass4(); Pass5(); Pass6(); Pass7();
  }

  lemma ZeroWords()
    ensures Scrunch(ZEROS) == Block(0, 0) && Opening(Block(0, 0)) == Block(0, 0)
    ensures Unscrun(Closing(Block(0x77d41b85, 0x38410ff8))) == [0x8c, 0xa6, 0x4d, 0xe9, 0xc1, 0xb1, 0x23, 0xa7]
  {
  }

  lemma ZeroBytes()
    requires TABLES.Valid()
    ensures DesBytes(TABLES, KeyRegister(TABLES, ZEROS, EN0), ZEROS) ==
      [0x8c, 0xa6, 0x4d, 0xe9, 0xc1, 0xb1, 0x23, 0xa7]
  {
    var keys := KeyRegister(TABLES, ZEROS, EN0);
    ZeroRegister();
    AllRounds(keys);
    ZeroWords();
    hide TABLES, KeyRegister, DoubleRounds, Opening, Closing, Scrunch, Unscrun;
  }

  // So says the standard, too, by the theorem that joins the two.
  lemma ZeroKeyAnswer(zeros: BitString)
    requires TABLES.Valid() && |zeros| == 64 && forall i :: 0 <= i < 64 ==> zeros[i] == 0
    ensures Fips46.Encipher(zeros, zeros) == BitsOf([0x8c, 0xa6, 0x4d, 0xe9, 0xc1, 0xb1, 0x23, 0xa7])
  {
    ZeroBits(zeros);
    hide TABLES, DesBytes, KeyRegister, ByteBit, BitsOf, Fips46.Encipher;
    ZeroBytes();
    EngineRefinesFips(ZEROS, EN0, ZEROS, zeros);
  }

  lemma ZeroBits(zeros: BitString)
    requires |zeros| == 64 && forall i :: 0 <= i < 64 ==> zeros[i] == 0
    ensures BitsOf(ZEROS) == zeros && forall i :: 0 <= i < 64 ==> zeros[i] == ByteBit(ZEROS[i / 8], 7 - i % 8)
  {
    forall t | 0 <= t < 8 ensures ByteBit(0, t) == 0 {
    }
    hide ByteBit;
    forall i | 0 <= i < 64 ensures ZEROS[i / 8] == 0 {
    }
  }
}
