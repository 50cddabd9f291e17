// d3des.c refines FIPS 46-3.
module D3DesRefinesFips {
  import opened Bits
  import opened D3Des
  import Fips46

  // Both halves of a block as the engine holds them between the ladders: one bit to the left.
  function Held(h: Fips46.Halves): Block
    requires |h.l| == 32 && |h.r| == 32
  {
    Block(Rol1(Word(h.l, 0)), Rol1(Word(h.r, 0)))
  }

  lemma OpeningLeft(b: BitString)
    requires |b| == 64 && |Fips46.IP| == 64 && IsTable(Fips46.IP, 64)
    ensures Opening(Block(Word(b, 0), Word(b, 32))).leftt == Rol1(Word(Permute(Fips46.IP, b), 0))
  {}

  lemma OpeningRight(b: BitString)
    requires |b| == 64 && |Fips46.IP| == 64 && IsTable(Fips46.IP, 64)
    ensures Opening(Block(Word(b, 0), Word(b, 32))).right == Rol1(Word(Permute(Fips46.IP, b), 32))
  {}

  lemma ClosingLeft(b: BitString)
    requires |b| == 64 && |Fips46.IP_INVERSE| == 64 && IsTable(Fips46.IP_INVERSE, 64)
    ensures Closing(Block(Rol1(Word(b, 32)), Rol1(Word(b, 0)))).leftt == Word(Permute(Fips46.IP_INVERSE, b), 0)
  {}

  lemma ClosingRight(b: BitString)
    requires |b| == 64 && |Fips46.IP_INVERSE| == 64 && IsTable(Fips46.IP_INVERSE, 64)
    ensures Closing(Block(Rol1(Word(b, 32)), Rol1(Word(b, 0)))).right == Word(Permute(Fips46.IP_INVERSE, b), 32)
  {}

  // The cooked form of a 48-bit key: six-bit fields 1, 3, 5, 7 and 2, 4, 6, 8.
  function Cooked0(k: BitString): bv32
    requires |k| == 48
  {
    (Sextet(k, 0) << 24) | (Sextet(k, 12) << 16) | (Sextet(k, 24) << 8) | Sextet(k, 36)
  }

  function Cooked1(k: BitString): bv32
    requires |k| == 48
  {
    (Sextet(k, 6) << 24) | (Sextet(k, 18) << 16) | (Sextet(k, 30) << 8) | Sextet(k, 42)
  }

  // The fields of u are the inputs of selection functions 1, 3, 5 and 7.
  predicate OddFieldsAre(u: bv32, x: BitString)
    requires |x| == 48
  {
    (u >> 24) & 0x3f == Sextet(x, 0) && (u >> 16) & 0x3f == Sextet(x, 12) &&
    (u >> 8) & 0x3f == Sextet(x, 24) && u & 0x3f == Sextet(x, 36)
  }

  predicate EvenFieldsAre(w: bv32, x: BitString)
    requires |x| == 48
  {
    (w >> 24) & 0x3f == Sextet(x, 6) && (w >> 16) & 0x3f == Sextet(x, 18) &&
    (w >> 8) & 0x3f == Sextet(x, 30) && w & 0x3f == Sextet(x, 42)
  }

  lemma OddFieldBits(r: BitString, k: BitString)
    requires |r| == 32 && |k| == 48 && |Fips46.E| == 48 && IsTable(Fips46.E, 32)
    ensures var x := Xor(Permute(Fips46.E, r), k);
            var h := Rol1(Word(r, 0));
            var u := ((h << 28) | (h >> 4)) ^ Cooked0(k);
            (u >> 24) & 0x3f == Sextet(x, 0) && (u >> 16) & 0x3f == Sextet(x, 12) &&
            (u >> 8) & 0x3f == Sextet(x, 24) && u & 0x3f == Sextet(x, 36)
  {}

  lemma EvenFieldBits(r: BitString, k: BitString)
    requires |r| == 32 && |k| == 48 && |Fips46.E| == 48 && IsTable(Fips46.E, 32)
    ensures var x := Xor(Permute(Fips46.E, r), k);
            var w := Rol1(Word(r, 0)) ^ Cooked1(k);
            (w >> 24) & 0x3f == Sextet(x, 6) && (w >> 16) & 0x3f == Sextet(x, 18) &&
            (w >> 8) & 0x3f == Sextet(x, 30) && w & 0x3f == Sextet(x, 42)
  {}

  lemma OddFields(r: BitString, k: BitString)
    requires |r| == 32 && |k| == 48 && |Fips46.E| == 48 && IsTable(Fips46.E, 32)
    ensures OddFieldsAre(Ror4(Rol1(Word(r, 0))) ^ Cooked0(k), Xor(Permute(Fips46.E, r), k))
  {
    hide Word, Rol1, Cooked0, Xor, Permute, Sextet;
    OddFieldBits(r, k);
  }

  lemma EvenFields(r: BitString, k: BitString)
    requires |r| == 32 && |k| == 48 && |Fips46.E| == 48 && IsTable(Fips46.E, 32)
    ensures EvenFieldsAre(Rol1(Word(r, 0)) ^ Cooked1(k), Xor(Permute(Fips46.E, r), k))
  {
    hide Word, Rol1, Cooked1, Xor, Permute, Sextet;
    EvenFieldBits(r, k);
  }

  // Where permutation P sends the four output bits of each selection function, pre-rotated.
  function Scatter1(n: bv4): bv32 {
    (((n >> 3) as bv32) << 24) | ((((n >> 2) & 1) as bv32) << 16) |
    ((((n >> 1) & 1) as bv32) << 10) | (((n & 1) as bv32) << 2)
  }
  function Scatter2(n: bv4): bv32 {
    (((n >> 3) as bv32) << 20) | ((((n >> 2) & 1) as bv32) << 5) |
    ((((n >> 1) & 1) as bv32) << 31) | (((n & 1) as bv32) << 15)
  }
  function Scatter3(n: bv4): bv32 {
    (((n >> 3) as bv32) << 9) | ((((n >> 2) & 1) as bv32) << 17) |
    ((((n >> 1) & 1) as bv32) << 3) | (((n & 1) as bv32) << 27)
  }
  function Scatter4(n: bv4): bv32 {
    (((n >> 3) as bv32) << 7) | ((((n >> 2) & 1) as bv32) << 13) |
    ((((n >> 1) & 1) as bv32) << 23) | (((n & 1) as bv32) << 0)
  }
  function Scatter5(n: bv4): bv32 {
    (((n >> 3) as bv32) << 25) | ((((n >> 2) & 1) as bv32) << 19) |
    ((((n >> 1) & 1) as bv32) << 8) | (((n & 1) as bv32) << 30)
  }
  function Scatter6(n: bv4): bv32 {
    (((n >> 3) as bv32) << 29) | ((((n >> 2) & 1) as bv32) << 4) |
    ((((n >> 1) & 1) as bv32) << 22) | (((n & 1) as bv32) << 14)
  }
  function Scatter7(n: bv4): bv32 {
    (((n >> 3) as bv32) << 1) | ((((n >> 2) & 1) as bv32) << 21) |
    ((((n >> 1) & 1) as bv32) << 11) | (((n & 1) as bv32) << 26)
  }
  function Scatter8(n: bv4): bv32 {
    (((n >> 3) as bv32) << 28) | ((((n >> 2) & 1) as bv32) << 6) |
    ((((n >> 1) & 1) as bv32) << 18) | (((n & 1) as bv32) << 12)
  }

  predicate IsBox(s: seq<seq<bv4>>) {
    |s| == 4 && |s[0]| == |s[1]| == |s[2]| == |s[3]| == 16
  }

  // Eight consecutive entries of a merged table: rows even and odd of a selection function,
  // interleaved, from column c.
  function EightEntries(f: bv4 -> bv32, even: seq<bv4>, odd: seq<bv4>, c: nat): (t: seq<bv32>)
    requires |even| == 16 == |odd| && c <= 12
    ensures |t| == 8
  {
    [f(even[c]), f(odd[c]), f(even[c + 1]), f(odd[c + 1]),
     f(even[c + 2]), f(odd[c + 2]), f(even[c + 3]), f(odd[c + 3])]
  }

  function Merged(f: bv4 -> bv32, s: seq<seq<bv4>>): (t: seq<bv32>)
    requires IsBox(s)
    ensures |t| == 64
  {
    EightEntries(f, s[0], s[1], 0) + EightEntries(f, s[0], s[1], 4) +
    EightEntries(f, s[0], s[1], 8) + EightEntries(f, s[0], s[1], 12) +
    EightEntries(f, s[2], s[3], 0) + EightEntries(f, s[2], s[3], 4) +
    EightEntries(f, s[2], s[3], 8) + EightEntries(f, s[2], s[3], 12)
  }

  lemma Sp1Merged() ensures IsBox(Fips46.S1) && SP1 == Merged(Scatter1, Fips46.S1) {}
  lemma Sp2Merged() ensures IsBox(Fips46.S2) && SP2 == Merged(Scatter2, Fips46.S2) {}
  lemma Sp3Merged() ensures IsBox(Fips46.S3) && SP3 == Merged(Scatter3, Fips46.S3) {}
  lemma Sp4Merged() ensures IsBox(Fips46.S4) && SP4 == Merged(Scatter4, Fips46.S4) {}
  lemma Sp5Merged() ensures IsBox(Fips46.S5) && SP5 == Merged(Scatter5, Fips46.S5) {}
  lemma Sp6Merged() ensures IsBox(Fips46.S6) && SP6 == Merged(Scatter6, Fips46.S6) {}
  lemma Sp7Merged() ensures IsBox(Fips46.S7) && SP7 == Merged(Scatter7, Fips46.S7) {}
  lemma Sp8Merged() ensures IsBox(Fips46.S8) && SP8 == Merged(Scatter8, Fips46.S8) {}

  function Gathered(s: BitString): bv32
    requires |s| == 32
  {
    Or8(Scatter7(Nibble(s, 24)), Scatter5(Nibble(s, 16)), Scatter3(Nibble(s, 8)), Scatter1(Nibble(s, 0)),
        Scatter8(Nibble(s, 28)), Scatter6(Nibble(s, 20)), Scatter4(Nibble(s, 12)), Scatter2(Nibble(s, 4)))
  }

  lemma Scattered(s: BitString)
    requires |s| == 32 && |Fips46.P| == 32 && IsTable(Fips46.P, 32)
    ensures Gathered(s) == Rol1(Word(Permute(Fips46.P, s), 0))
  {}

  function Nibble(b: BitString, k: nat): bv4
    requires k + 4 <= |b|
  {
    ((b[k] as bv4) << 3) | ((b[k + 1] as bv4) << 2) | ((b[k + 2] as bv4) << 1) | (b[k + 3] as bv4)
  }

  lemma EightEntriesAt(f: bv4 -> bv32, even: seq<bv4>, odd: seq<bv4>, c: nat, i: nat, z: nat)
    requires |even| == 16 == |odd| && c <= 12 && i < 4 && z < 2
    ensures EightEntries(f, even, odd, c)[2 * i + z] == f((if z == 1 then odd else even)[c + i])
  {}

  lemma MergedAt(f: bv4 -> bv32, s: seq<seq<bv4>>, a: nat, z: nat, c: nat)
    requires IsBox(s) && a < 2 && z < 2 && c < 16
    ensures Merged(f, s)[32 * a + 2 * c + z] == f(s[2 * a + z][c])
  {
    hide EightEntries;
    var g, i := if c < 4 then 0 else if c < 8 then 4 else if c < 12 then 8 else 12, c % 4;
    var even, odd := s[2 * a], s[2 * a + 1];
    EightEntriesAt(f, even, odd, g, c - g, z);
    assert Merged(f, s)[32 * a + 2 * c + z] == EightEntries(f, even, odd, g)[2 * (c - g) + z];
  }

  lemma SextetValue(b: BitString, j: nat)
    requires j + 6 <= |b|
    ensures Sextet(b, j) as nat ==
            Fips46.Digit(b[j], 32) + Fips46.Digit(b[j + 1], 16) + Fips46.Digit(b[j + 2], 8) +
            Fips46.Digit(b[j + 3], 4) + Fips46.Digit(b[j + 4], 2) + Fips46.Digit(b[j + 5], 1)
  {}

  lemma Lookup(f: bv4 -> bv32, s: seq<seq<bv4>>, k: nat, x: BitString, j: nat, w: bv32)
    requires k < 8 && j + 6 <= |x| && w & 0x3f == Sextet(x, j)
    requires s == Fips46.SBox(k) && IsBox(s)
    ensures Merged(f, s)[Slot(w)] == f(Fips46.Select(k, x, j))
  {
    hide Merged, Fips46.SBox;
    SextetValue(x, j);
    MergedAt(f, s, Fips46.Digit(x[j], 1), Fips46.Digit(x[j + 5], 1),
             Fips46.Digit(x[j + 1], 8) + Fips46.Digit(x[j + 2], 4) + Fips46.Digit(x[j + 3], 2) +
             Fips46.Digit(x[j + 4], 1));
  }

  lemma SubstituteNibble(x: BitString, k: nat)
    requires |x| == 48 && k < 8
    ensures Nibble(Fips46.Substitute(x), 4 * k) == Fips46.Select(k, x, 6 * k)
  {
    hide Fips46.Select;
    var s := Fips46.Substitute(x);
    var n := Fips46.Select(k, x, 6 * k);
    assert (4 * k + 1) / 4 == (4 * k + 2) / 4 == (4 * k + 3) / 4 == k;
    assert s[4 * k] == Fips46.NibbleBit(n, 0);
    assert s[4 * k + 1] == Fips46.NibbleBit(n, 1);
    assert s[4 * k + 2] == Fips46.NibbleBit(n, 2);
    assert s[4 * k + 3] == Fips46.NibbleBit(n, 3);
  }

  lemma Sp1Lookup(x: BitString, w: bv32)
    requires TABLES.Valid() && |x| == 48 && w & 0x3f == Sextet(x, 0)
    ensures TABLES.sp1[Slot(w)] == Scatter1(Fips46.Select(0, x, 0))
  {
    hide Merged, Scatter1;
    Sp1Merged();
    Lookup(Scatter1, Fips46.S1, 0, x, 0, w);
  }

  lemma Sp2Lookup(x: BitString, w: bv32)
    requires TABLES.Valid() && |x| == 48 && w & 0x3f == Sextet(x, 6)
    ensures TABLES.sp2[Slot(w)] == Scatter2(Fips46.Select(1, x, 6))
  {
    hide Merged, Scatter2;
    Sp2Merged();
    Lookup(Scatter2, Fips46.S2, 1, x, 6, w);
  }

  lemma Sp3Lookup(x: BitString, w: bv32)
    requires TABLES.Valid() && |x| == 48 && w & 0x3f == Sextet(x, 12)
    ensures TABLES.sp3[Slot(w)] == Scatter3(Fips46.Select(2, x, 12))
  {
    hide Merged, Scatter3;
    Sp3Merged();
    Lookup(Scatter3, Fips46.S3, 2, x, 12, w);
  }

  lemma Sp4Lookup(x: BitString, w: bv32)
    requires TABLES.Valid() && |x| == 48 && w & 0x3f == Sextet(x, 18)
    ensures TABLES.sp4[Slot(w)] == Scatter4(Fips46.Select(3, x, 18))
  {
    hide Merged, Scatter4;
    Sp4Merged();
    Lookup(Scatter4, Fips46.S4, 3, x, 18, w);
  }

  lemma Sp5Lookup(x: BitString, w: bv32)
    requires TABLES.Valid() && |x| == 48 && w & 0x3f == Sextet(x, 24)
    ensures TABLES.sp5[Slot(w)] == Scatter5(Fips46.Select(4, x, 24))
  {
    hide Merged, Scatter5;
    Sp5Merged();
    Lookup(Scatter5, Fips46.S5, 4, x, 24, w);
  }

  lemma Sp6Lookup(x: BitString, w: bv32)
    requires TABLES.Valid() && |x| == 48 && w & 0x3f == Sextet(x, 30)
    ensures TABLES.sp6[Slot(w)] == Scatter6(Fips46.Select(5, x, 30))
  {
    hide Merged, Scatter6;
    Sp6Merged();
    Lookup(Scatter6, Fips46.S6, 5, x, 30, w);
  }

  lemma Sp7Lookup(x: BitString, w: bv32)
    requires TABLES.Valid() && |x| == 48 && w & 0x3f == Sextet(x, 36)
    ensures TABLES.sp7[Slot(w)] == Scatter7(Fips46.Select(6, x, 36))
  {
    hide Merged, Scatter7;
    Sp7Merged();
    Lookup(Scatter7, Fips46.S7, 6, x, 36, w);
  }

  lemma Sp8Lookup(x: BitString, w: bv32)
    requires TABLES.Valid() && |x| == 48 && w & 0x3f == Sextet(x, 42)
    ensures TABLES.sp8[Slot(w)] == Scatter8(Fips46.Select(7, x, 42))
  {
    hide Merged, Scatter8;
    Sp8Merged();
    Lookup(Scatter8, Fips46.S8, 7, x, 42, w);
  }

  predicate OddEntriesAre(t: Tables, u: bv32, s: BitString)
    requires |t.sp1| == |t.sp3| == |t.sp5| == |t.sp7| == 64 && |s| == 32
  {
    t.sp1[Slot(u >> 24)] == Scatter1(Nibble(s, 0)) && t.sp3[Slot(u >> 16)] == Scatter3(Nibble(s, 8)) &&
    t.sp5[Slot(u >> 8)] == Scatter5(Nibble(s, 16)) && t.sp7[Slot(u)] == Scatter7(Nibble(s, 24))
  }

  predicate EvenEntriesAre(t: Tables, w: bv32, s: BitString)
    requires |t.sp2| == |t.sp4| == |t.sp6| == |t.sp8| == 64 && |s| == 32
  {
    t.sp2[Slot(w >> 24)] == Scatter2(Nibble(s, 4)) && t.sp4[Slot(w >> 16)] == Scatter4(Nibble(s, 12)) &&
    t.sp6[Slot(w >> 8)] == Scatter6(Nibble(s, 20)) && t.sp8[Slot(w)] == Scatter8(Nibble(s, 28))
  }

  lemma OddLookups(x: BitString, u: bv32)
    requires TABLES.Valid() && |x| == 48 && OddFieldsAre(u, x)
    ensures OddEntriesAre(TABLES, u, Fips46.Substitute(x))
  {
    hide TABLES, Fips46.Select, Fips46.Substitute, Nibble, Slot, Sextet, Scatter1, Scatter3, Scatter5, Scatter7;
    Sp1Lookup(x, u >> 24); Sp3Lookup(x, u >> 16); Sp5Lookup(x, u >> 8); Sp7Lookup(x, u);
    SubstituteNibble(x, 0); SubstituteNibble(x, 2); SubstituteNibble(x, 4); SubstituteNibble(x, 6);
  }

  lemma EvenLookups(x: BitString, w: bv32)
    requires TABLES.Valid() && |x| == 48 && EvenFieldsAre(w, x)
    ensures EvenEntriesAre(TABLES, w, Fips46.Substitute(x))
  {
    hide TABLES, Fips46.Select, Fips46.Substitute, Nibble, Slot, Sextet, Scatter2, Scatter4, Scatter6, Scatter8;
    Sp2Lookup(x, w >> 24); Sp4Lookup(x, w >> 16); Sp6Lookup(x, w >> 8); Sp8Lookup(x, w);
    SubstituteNibble(x, 1); SubstituteNibble(x, 3); SubstituteNibble(x, 5); SubstituteNibble(x, 7);
  }

  lemma FvalOfEntries(t: Tables, half: bv32, key0: bv32, key1: bv32, s: BitString)
    requires t.Valid() && |s| == 32
    requires OddEntriesAre(t, Ror4(half) ^ key0, s) && EvenEntriesAre(t, half ^ key1, s)
    ensures Fval(t, half, key0, key1) == Gathered(s)
  {
    hide Or8, Ror4, Nibble, Slot, Scatter1, Scatter2, Scatter3, Scatter4, Scatter5, Scatter6, Scatter7, Scatter8;
  }

  lemma FvalOfFields(x: BitString, half: bv32, key0: bv32, key1: bv32)
    requires TABLES.Valid() && |x| == 48
    requires OddFieldsAre(Ror4(half) ^ key0, x) && EvenFieldsAre(half ^ key1, x)
    ensures Fval(TABLES, half, key0, key1) == Gathered(Fips46.Substitute(x))
  {
    hide TABLES, Fval, Gathered, Ror4, OddFieldsAre, EvenFieldsAre, OddEntriesAre, EvenEntriesAre, Fips46.Substitute;
    OddLookups(x, Ror4(half) ^ key0);
    EvenLookups(x, half ^ key1);
    FvalOfEntries(TABLES, half, key0, key1, Fips46.Substitute(x));
  }

  // One half-round of the engine adds the cipher function of FIPS 46-3.
  lemma FvalIsCipherFunction(r: BitString, k: BitString)
    requires |r| == 32 && |k| == 48 && TABLES.Valid()
    ensures Fval(TABLES, Rol1(Word(r, 0)), Cooked0(k), Cooked1(k)) == Rol1(Word(Fips46.F(r, k), 0))
  {
    hide TABLES, Permute, Word, Rol1, Xor, Fips46.Substitute, Gathered, Fval, Ror4;
    hide Cooked0, Cooked1, OddFieldsAre, EvenFieldsAre;
    Fips46.TableShapes();
    var x := Xor(Permute(Fips46.E, r), k);
    OddFields(r, k);
    EvenFields(r, k);
    FvalOfFields(x, Rol1(Word(r, 0)), Cooked0(k), Cooked1(k));
    Scattered(Fips46.Substitute(x));
  }
}
