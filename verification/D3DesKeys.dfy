// The key register holds the FIPS 46-3 key schedule, cooked.
module D3DesKeySchedule {
  import opened Bits
  import opened D3Des
  import opened D3DesRefinesFips
  import Fips46

  // Twenty-four bits of k from position j, as a number.
  function TwentyFour(k: BitString, j: nat): bv32
    requires j + 24 <= |k|
  {
    (Sextet(k, j) << 18) | (Sextet(k, j + 6) << 12) | (Sextet(k, j + 12) << 6) | Sextet(k, j + 18)
  }

  lemma CookTwentyFours(k: BitString)
    requires |k| == 48
    ensures Cook0(TwentyFour(k, 0), TwentyFour(k, 24)) == Cooked0(k)
    ensures Cook1(TwentyFour(k, 0), TwentyFour(k, 24)) == Cooked1(k)
  {}

  lemma IncludeBit(b: bit, kn: bv32, n: bv32, mask: bv32)
    requires n < 32 && mask == 1 << n
    ensures (if b == 1 then kn | mask else kn) == kn | ((b as bv32) << n)
  {
    if b == 1 {
      assert (b as bv32) == 1;
    } else {
      assert b == 0;
      assert (b as bv32) == 0;
      assert (0 as bv32) << n == 0;
    }
  }

  lemma RawBit(t: Tables, pcr: BitString, from: nat, n: nat, sh: bv32)
    requires t.Valid() && |pcr| == 56 && n < 24 && from <= 24 && sh < 32
    requires t.bigbyte[n] == 1 << sh
    ensures Raw(t, pcr, from, n + 1) == Raw(t, pcr, from, n) | ((pcr[t.pc2[from + n]] as bv32) << sh)
  {
    IncludeBit(pcr[t.pc2[from + n]], Raw(t, pcr, from, n), sh, t.bigbyte[n]);
  }

  predicate MasksAre(big: seq<bv32>, n: nat, sh: bv32)
    requires |big| == 24 && n <= 18 && sh <= 18
  {
    big[n] == 1 << (sh + 5) && big[n + 1] == 1 << (sh + 4) && big[n + 2] == 1 << (sh + 3) &&
    big[n + 3] == 1 << (sh + 2) && big[n + 4] == 1 << (sh + 1) && big[n + 5] == 1 << sh
  }

  function Place(kn: bv32, s: bv32, sh: bv32): bv32
    requires sh <= 32
  {
    kn | (s << sh)
  }

  // Six consecutive key bits, packed by the masks 1 << (sh + 5) down to 1 << sh.
  lemma RawSextet(t: Tables, pcr: BitString, from: nat, n: nat, k: BitString, sh: bv32)
    requires t.Valid() && |pcr| == 56 && |k| == 48 && n <= 18 && from <= 24
    requires sh == 18 || sh == 12 || sh == 6 || sh == 0
    requires MasksAre(t.bigbyte, n, sh)
    requires forall i | 0 <= i < 48 :: k[i] == pcr[t.pc2[i]]
    ensures Raw(t, pcr, from, n + 6) == Place(Raw(t, pcr, from, n), Sextet(k, from + n), sh)
  {
    hide Raw;
    RawBit(t, pcr, from, n, sh + 5); RawBit(t, pcr, from, n + 1, sh + 4); RawBit(t, pcr, from, n + 2, sh + 3);
    RawBit(t, pcr, from, n + 3, sh + 2); RawBit(t, pcr, from, n + 4, sh + 1); RawBit(t, pcr, from, n + 5, sh);
  }

  // Entries from..from+n of a one-based table are those of a zero-based one, plus one.
  predicate Follows(t: seq<nat>, u: seq<nat>, from: nat, n: nat)
    requires from + n <= |t| && from + n <= |u|
    decreases n
  {
    n == 0 || (Follows(t, u, from, n - 1) && t[from + n - 1] == u[from + n - 1] + 1)
  }

  lemma {:induction false} FollowsAt(t: seq<nat>, u: seq<nat>, from: nat, n: nat, i: nat)
    requires from + n <= |t| && from + n <= |u| && Follows(t, u, from, n) && from <= i < from + n
    ensures t[i] == u[i] + 1
  {
    if i < from + n - 1 {
      FollowsAt(t, u, from, n - 1, i);
    }
  }

  lemma Pc1Follows()
    ensures |Fips46.PC1| == 56 == |PC1|
    ensures Follows(Fips46.PC1, PC1, 0, 8) && Follows(Fips46.PC1, PC1, 8, 8) && Follows(Fips46.PC1, PC1, 16, 8)
    ensures Follows(Fips46.PC1, PC1, 24, 8) && Follows(Fips46.PC1, PC1, 32, 8) && Follows(Fips46.PC1, PC1, 40, 8)
    ensures Follows(Fips46.PC1, PC1, 48, 8)
  {}

  lemma Pc2Follows()
    ensures |Fips46.PC2| == 48 == |PC2|
    ensures Follows(Fips46.PC2, PC2, 0, 8) && Follows(Fips46.PC2, PC2, 8, 8) && Follows(Fips46.PC2, PC2, 16, 8)
    ensures Follows(Fips46.PC2, PC2, 24, 8) && Follows(Fips46.PC2, PC2, 32, 8) && Follows(Fips46.PC2, PC2, 40, 8)
  {}

  function Chunk(i: nat): nat {
    if i < 8 then 0 else if i < 16 then 8 else if i < 24 then 16 else if i < 32 then 24
    else if i < 40 then 32 else if i < 48 then 40 else 48
  }

  lemma Pc1Agrees(i: nat)
    requires i < 56
    ensures |Fips46.PC1| == 56 == |PC1| && Fips46.PC1[i] == PC1[i] + 1
  {
    Pc1Follows();
    hide Fips46.PC1, PC1;
    FollowsAt(Fips46.PC1, PC1, Chunk(i), 8, i);
  }

  lemma Pc2Agrees(i: nat)
    requires i < 48
    ensures |Fips46.PC2| == 48 == |PC2| && Fips46.PC2[i] == PC2[i] + 1
  {
    Pc2Follows();
    hide Fips46.PC2, PC2;
    FollowsAt(Fips46.PC2, PC2, Chunk(i), 8, i);
  }

  lemma BigbyteMasks()
    ensures |BIGBYTE| == 24
    ensures MasksAre(BIGBYTE, 0, 18) && MasksAre(BIGBYTE, 6, 12) && MasksAre(BIGBYTE, 12, 6) && MasksAre(BIGBYTE, 18, 0)
  {}

  lemma RawIsTwentyFour(t: Tables, pcr: BitString, from: nat, k: BitString)
    requires t.Valid() && |pcr| == 56 && |k| == 48 && (from == 0 || from == 24)
    requires t.bigbyte == BIGBYTE && forall i | 0 <= i < 48 :: k[i] == pcr[t.pc2[i]]
    ensures RawWord(t, pcr, from) == TwentyFour(k, from)
  {
    hide *;
    BigbyteMasks();
    RawNone(t, pcr, from);
    RawAll(t, pcr, from);
    RawSextet(t, pcr, from, 0, k, 18);
    RawSextet(t, pcr, from, 6, k, 12);
    RawSextet(t, pcr, from, 12, k, 6);
    RawSextet(t, pcr, from, 18, k, 0);
    TwentyFourByParts(k, from);
  }

  lemma RawNone(t: Tables, pcr: BitString, from: nat)
    requires t.Valid() && |pcr| == 56 && from <= 24
    ensures Raw(t, pcr, from, 0) == 0
  {}

  lemma RawAll(t: Tables, pcr: BitString, from: nat)
    requires t.Valid() && |pcr| == 56 && from <= 24
    ensures RawWord(t, pcr, from) == Raw(t, pcr, from, 24)
  {
    hide Raw;
  }

  lemma TwentyFourByParts(k: BitString, j: nat)
    requires j + 24 <= |k|
    ensures Place(Place(Place(Place(0, Sextet(k, j), 18), Sextet(k, j + 6), 12), Sextet(k, j + 12), 6),
                  Sextet(k, j + 18), 0) ==
            TwentyFour(k, j)
  {
    hide Sextet, Place;
    FourPlaces(Sextet(k, j), Sextet(k, j + 6), Sextet(k, j + 12), Sextet(k, j + 18));
  }

  lemma FourPlaces(a: bv32, b: bv32, c: bv32, d: bv32)
    ensures Place(Place(Place(Place(0, a, 18), b, 12), c, 6), d, 0) == (a << 18) | (b << 12) | (c << 6) | d
  {
  }
  // The key as the engine reads it: sixty-four bits, those of each byte least significant first.
  function VncKey(key: seq<byte>): (b: BitString)
    requires |key| == 8 && TABLES.Valid()
    ensures |b| == 64
  {
    seq(64, l requires 0 <= l < 64 => KeyBit(TABLES, key, l))
  }

  lemma SelectedIsPc1(key: seq<byte>)
    requires |key| == 8 && TABLES.Valid() && |Fips46.PC1| == 56 && IsTable(Fips46.PC1, 64)
    ensures Selected(TABLES, key) == Permute(Fips46.PC1, VncKey(key))
  {
    hide KeyBit, Fips46.PC1, PC1;
    forall j | 0 <= j < 56
      ensures Selected(TABLES, key)[j] == Permute(Fips46.PC1, VncKey(key))[j]
    {
      Pc1Agrees(j);
    }
  }

  lemma TotalRotation(n: nat)
    requires 1 <= n <= 16
    ensures |TOTROT| == 16 == |Fips46.SHIFTS|
    ensures TOTROT[n - 1] == (if n == 1 then 0 else TOTROT[n - 2]) + Fips46.SHIFTS[n - 1]
    ensures TOTROT[n - 1] <= 28
  {}

  lemma RotateTwice<T>(b: seq<T>, i: nat, j: nat)
    requires i + j <= |b|
    ensures Fips46.RotateLeft(Fips46.RotateLeft(b, i), j) == Fips46.RotateLeft(b, i + j)
  {}

  // Rotating once by the running total equals rotating round by round.
  lemma {:induction false} CdByTotal(key: BitString, n: nat)
    requires |key| == 64 && n <= 16
    ensures |TOTROT| == 16 && (n > 0 ==> TOTROT[n - 1] <= 28)
    ensures var first := Fips46.CD(key, 0);
            var total := if n == 0 then 0 else TOTROT[n - 1];
            Fips46.CD(key, n) == Fips46.Halves(Fips46.RotateLeft(first.l, total), Fips46.RotateLeft(first.r, total))
  {
    if n == 0 {
      TotalRotation(1);
    } else {
      CdByTotal(key, n - 1);
      TotalRotation(n);
      hide TOTROT;
      var first := Fips46.CD(key, 0);
      Fips46.TableShapes();
      var total := if n == 1 then 0 else TOTROT[n - 2];
      RotateTwice(first.l, total, Fips46.SHIFTS[n - 1]);
      RotateTwice(first.r, total, Fips46.SHIFTS[n - 1]);
    }
  }

  lemma RotatedIsCd(key: BitString, i: nat)
    requires |key| == 64 && i < 16 && TABLES.Valid() && |Fips46.PC1| == 56 && IsTable(Fips46.PC1, 64)
    ensures var h := Fips46.CD(key, i + 1);
            Rotated(TABLES, Permute(Fips46.PC1, key), i) == h.l + h.r
  {
    CdByTotal(key, i + 1);
    RotatedHalves(TABLES, Permute(Fips46.PC1, key), i);
  }

  lemma RotatedHalves(t: Tables, pc1m: BitString, i: nat)
    requires t.Valid() && |pc1m| == 56 && i < 16
    ensures Rotated(t, pc1m, i) ==
            Fips46.RotateLeft(pc1m[..28], t.totrot[i]) + Fips46.RotateLeft(pc1m[28..], t.totrot[i])
  {}
}
