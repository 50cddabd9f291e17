// The Feistel structure alone makes the engine invertible: reversing the pairs of key
// words undoes it, whatever the tables and the words contain.
module D3DesAnyTables {
  import opened Bits
  import opened D3Des
  import opened D3DesRefinesFips
  import opened D3DesWide
  import opened D3DesCorrect
  import Fips46
  import Fips46Laws

  function Exchanged(b: Block): Block { Block(b.right, b.leftt) }

  // Pairs of key words in the opposite order, each pair kept.
  function PairsReversed(keys: seq<bv32>): (r: seq<bv32>)
    requires |keys| % 2 == 0
    ensures |r| == |keys|
  {
    seq(|keys|, i requires 0 <= i < |keys| => keys[if i % 2 == 0 then |keys| - 2 - i else |keys| - i])
  }

  lemma PlusTwice(a: bv32, f: bv32)
    ensures Plus(Plus(a, f), f) == a
  {}

  lemma UnmixLeft(t: Tables, b: Block, k0: bv32, k1: bv32)
    requires t.Valid()
    ensures MixRight(t, Exchanged(MixLeft(t, b, k0, k1)), k0, k1) == Exchanged(b)
  {
    hide Fval, Plus;
    PlusTwice(b.leftt, Fval(t, b.right, k0, k1));
  }

  lemma UnmixRight(t: Tables, b: Block, k0: bv32, k1: bv32)
    requires t.Valid()
    ensures MixLeft(t, Exchanged(MixRight(t, b, k0, k1)), k0, k1) == Exchanged(b)
  {
    hide Fval, Plus;
    PlusTwice(b.right, Fval(t, b.leftt, k0, k1));
  }

  function DoubleRound(t: Tables, b: Block, keys: seq<bv32>, k: nat): Block
    requires t.Valid() && k + 4 <= |keys|
  {
    MixRight(t, MixLeft(t, b, keys[k], keys[k + 1]), keys[k + 2], keys[k + 3])
  }

  // Running n double rounds from the i-th key quadruple on.
  function From(t: Tables, b: Block, keys: seq<bv32>, i: nat, n: nat): Block
    requires t.Valid() && 4 * (i + n) <= |keys|
    decreases n
  {
    if n == 0 then b else From(t, DoubleRound(t, b, keys, 4 * i), keys, i + 1, n - 1)
  }

  lemma {:induction false} FromLast(t: Tables, b: Block, keys: seq<bv32>, i: nat, n: nat)
    requires t.Valid() && 4 * (i + n + 1) <= |keys|
    ensures From(t, b, keys, i, n + 1) == DoubleRound(t, From(t, b, keys, i, n), keys, 4 * (i + n))
    decreases n
  {
    hide DoubleRound;
    if n > 0 {
      FromLast(t, DoubleRound(t, b, keys, 4 * i), keys, i + 1, n - 1);
    }
  }

  lemma {:induction false} FromStart(t: Tables, b: Block, keys: seq<bv32>, n: nat)
    requires t.Valid() && 4 * n <= |keys|
    ensures From(t, b, keys, 0, n) == DoubleRounds(t, b, keys, n)
  {
    hide MixLeft, MixRight;
    if n > 0 {
      FromStart(t, b, keys, n - 1);
      FromLast(t, b, keys, 0, n - 1);
    }
  }

  lemma DoubleRoundUndone(t: Tables, b: Block, keys: seq<bv32>, k: nat)
    requires t.Valid() && |keys| % 2 == 0 && k % 2 == 0 && k + 4 <= |keys|
    ensures DoubleRound(t, Exchanged(DoubleRound(t, b, keys, k)), PairsReversed(keys), |keys| - 4 - k) == Exchanged(b)
  {
    hide MixLeft, MixRight, Exchanged;
    var r, j := PairsReversed(keys), |keys| - 4 - k;
    assert j % 2 == 0;
    assert r[j] == keys[k + 2] && r[j + 1] == keys[k + 3] && r[j + 2] == keys[k] && r[j + 3] == keys[k + 1];
    var m := MixLeft(t, b, keys[k], keys[k + 1]);
    UnmixRight(t, m, keys[k + 2], keys[k + 3]);
    UnmixLeft(t, b, keys[k], keys[k + 1]);
  }

  // n double rounds, undone by the last n of the reversed schedule.
  lemma {:induction false} RoundsUndone(t: Tables, b: Block, keys: seq<bv32>, n: nat)
    requires t.Valid() && |keys| == 32 && n <= 8
    ensures From(t, Exchanged(DoubleRounds(t, b, keys, n)), PairsReversed(keys), 8 - n, n) == Exchanged(b)
  {
    hide MixLeft, MixRight, PairsReversed, Exchanged;
    if n > 0 {
      var p := DoubleRounds(t, b, keys, n - 1);
      DoubleRoundUndone(t, p, keys, 4 * (n - 1));
      RoundsUndone(t, b, keys, n - 1);
    }
  }

  // The closing ladder applied to the exchanged halves undoes the opening one, and conversely.
  lemma LaddersInvert(b: Block)
    ensures Closing(Exchanged(Opening(b))) == b
    ensures Opening(Closing(b)) == Exchanged(b)
  {
    hide Word, WordBits, Opening, Closing, Rol1, Permute;
    Fips46.TableShapes();
    var c := WordBits(b.leftt) + WordBits(b.right);
    var p := Permute(Fips46.IP, c);
    WordsOfBoth(b);
    OpeningLeft(c);
    OpeningRight(c);
    ClosingLeft(p);
    ClosingRight(p);
    Fips46Laws.PermutationsInvert(c);
    OpeningUndoesClosing(b);
  }

  lemma OpeningUndoesClosing(b: Block)
    ensures Opening(Closing(b)) == Exchanged(b)
  {
    hide Word, WordBits, Opening, Closing, Rol1, Ror1, Permute;
    Fips46.TableShapes();
    var turned := Block(Ror1(b.right), Ror1(b.leftt));
    var x := WordBits(turned.leftt) + WordBits(turned.right);
    WordsOfBoth(turned);
    RotateBack(b.leftt);
    RotateBack(b.right);
    ClosingLeft(x);
    ClosingRight(x);
    var q := Permute(Fips46.IP_INVERSE, x);
    OpeningLeft(q);
    OpeningRight(q);
    Fips46Laws.PermutationsInvert(x);
  }

  // For any tables and any key register, the register with its pairs reversed inverts the engine.
  lemma ReversedRegisterInverts(t: Tables, keys: seq<bv32>, b: Block)
    requires t.Valid() && |keys| == 32
    ensures DesWords(t, PairsReversed(keys), DesWords(t, keys, b)) == b
  {
    hide Opening, Closing, DoubleRounds, From, PairsReversed, Exchanged;
    var o := Opening(b);
    var m := DoubleRounds(t, o, keys, 8);
    LaddersInvert(m);
    RoundsUndone(t, o, keys, 8);
    FromStart(t, Exchanged(m), PairsReversed(keys), 8);
    LaddersInvert(b);
  }

  // Deciphering loads the enciphering register with its pairs reversed.
  lemma DecipherRegisterIsReversed(t: Tables, key: seq<byte>)
    requires t.Valid() && |key| == 8
    ensures KeyRegister(t, key, DE1) == PairsReversed(KeyRegister(t, key, EN0))
  {
    hide Cook, RawKeys, Cook0, Cook1, RawWord, Rotated, Selected;
    var e, d := KeyRegister(t, key, EN0), KeyRegister(t, key, DE1);
    forall p | 0 <= p < 32
      ensures d[p] == PairsReversed(e)[p]
    {
      var i := p / 2;
      assert p == 2 * i || p == 2 * i + 1;
      RawKeysAt(t, key, DE1, i);
      RawKeysAt(t, key, EN0, 15 - i);
      CookAt(RawKeys(t, key, DE1), i);
      CookAt(RawKeys(t, key, EN0), 15 - i);
    }
  }
}
