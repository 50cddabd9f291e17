// What the standard promises of the cipher: deciphering undoes enciphering, the
// complementation property, and indifference to the eighth bit of each key byte.
module Fips46Laws {
  import opened Bits
  import opened Fips46

  function Swap(h: Halves): Halves { Halves(h.r, h.l) }

  ghost function Round(h: Halves, k: BitString): (r: Halves)
    requires Size(h, 32) && |k| == 48
    ensures Size(r, 32)
  {
    Halves(h.r, Xor(h.l, F(h.r, k)))
  }

  lemma {:induction false} FirstRound(h: Halves, k: BitString, ks: seq<BitString>)
    requires Size(h, 32) && |k| == 48 && IsSchedule(ks)
    ensures IsSchedule([k] + ks)
    ensures Rounds(h, [k] + ks) == Rounds(Round(h, k), ks)
  {
    var all := [k] + ks;
    if ks == [] {
      assert all[..0] == [];
      assert Rounds(h, all[..0]) == h;
    } else {
      var n := |ks| - 1;
      assert all[..|all| - 1] == [k] + ks[..n];
      FirstRound(h, k, ks[..n]);
    }
  }

  lemma XorTwice(a: BitString, f: BitString)
    requires |a| == |f|
    ensures Xor(Xor(a, f), f) == a
  {}

  // Running the rounds again on the exchanged halves, keys reversed, runs them backwards.
  lemma {:induction false} RoundsUndone(h: Halves, ks: seq<BitString>)
    requires Size(h, 32) && IsSchedule(ks)
    ensures IsSchedule(Reverse(ks))
    ensures Rounds(Swap(Rounds(h, ks)), Reverse(ks)) == Swap(h)
  {
    if ks != [] {
      var n := |ks| - 1;
      var p := Rounds(h, ks[..n]);
      ReverseLast(ks);
      RoundsUndone(h, ks[..n]);
      FirstRound(Swap(Rounds(h, ks)), ks[n], Reverse(ks[..n]));
      XorTwice(p.l, F(p.r, ks[n]));
    }
  }

  lemma ReverseLast<T>(s: seq<T>)
    requires s != []
    ensures Reverse(s) == [s[|s| - 1]] + Reverse(s[..|s| - 1])
  {
    var n := |s| - 1;
    assert forall i | 0 <= i <= n :: Reverse(s)[i] == ([s[n]] + Reverse(s[..n]))[i];
  }

  // The two permutations in closed form: IP reads the bytes last to first, taking the even
  // bits of each and then the odd ones.
  function IpEntry(r: nat, c: nat): int {
    (if r < 4 then 58 + 2 * r else 49 + 2 * r) - 8 * c
  }

  function IpInverseEntry(r: nat, c: nat): int {
    if c == 0 then 40 - r else if c == 1 then 8 - r else if c == 2 then 48 - r else if c == 3 then 16 - r
    else if c == 4 then 56 - r else if c == 5 then 24 - r else if c == 6 then 64 - r else 32 - r
  }

  function EightRows(entry: (nat, nat) -> int, n: nat): (t: seq<int>)
    ensures |t| == 8 * n
    decreases n
  {
    if n == 0 then []
    else
      var r := n - 1;
      EightRows(entry, r) + [entry(r, 0), entry(r, 1), entry(r, 2), entry(r, 3),
                             entry(r, 4), entry(r, 5), entry(r, 6), entry(r, 7)]
  }

  lemma {:induction false} EightRowsEntry(entry: (nat, nat) -> int, n: nat, r: nat, c: nat)
    requires r < n && c < 8
    ensures EightRows(entry, n)[8 * r + c] == entry(r, c)
  {
    if r < n - 1 {
      EightRowsEntry(entry, n - 1, r, c);
    }
  }

  lemma IpClosedForm()
    ensures IP == EightRows(IpEntry, 8)
  {}

  lemma IpInverseClosedForm()
    ensures IP_INVERSE == EightRows(IpInverseEntry, 8)
  {}

  lemma IpAt(i: nat)
    requires i < 64
    ensures |IP| == 64 && IP[i] == IpEntry(i / 8, i % 8)
  {
    IpClosedForm();
    EightRowsEntry(IpEntry, 8, i / 8, i % 8);
  }

  lemma IpInverseAt(i: nat)
    requires i < 64
    ensures |IP_INVERSE| == 64 && IP_INVERSE[i] == IpInverseEntry(i / 8, i % 8)
  {
    IpInverseClosedForm();
    EightRowsEntry(IpInverseEntry, 8, i / 8, i % 8);
  }

  lemma EntryInverts(r: nat, c: nat)
    requires r < 8 && c < 8
    ensures var j := IpEntry(r, c) - 1; 0 <= j < 64 && IpInverseEntry(j / 8, j % 8) == 8 * r + c + 1
  {
    var j := IpEntry(r, c) - 1;
    assert j / 8 == 7 - c && j % 8 == if r < 4 then 2 * r + 1 else 2 * (r - 4);
  }

  lemma InverseEntryInverts(r: nat, c: nat)
    requires r < 8 && c < 8
    ensures var j := IpInverseEntry(r, c) - 1; 0 <= j < 64 && IpEntry(j / 8, j % 8) == 8 * r + c + 1
  {
    var j := IpInverseEntry(r, c) - 1;
    assert j % 8 == 7 - r && j / 8 == if c % 2 == 1 then c / 2 else c / 2 + 4;
  }

  lemma IpInverts(i: nat)
    requires i < 64
    ensures |IP| == 64 && |IP_INVERSE| == 64 && 1 <= IP[i] <= 64 && 1 <= IP_INVERSE[i] <= 64
    ensures IP[IP_INVERSE[i] - 1] == i + 1 && IP_INVERSE[IP[i] - 1] == i + 1
  {
    EntryInverts(i / 8, i % 8);
    InverseEntryInverts(i / 8, i % 8);
    IpAt(i);
    IpInverseAt(i);
    IpAt(IP_INVERSE[i] - 1);
    IpInverseAt(IP[i] - 1);
  }

  lemma PermutationsInvert(b: BitString)
    requires |b| == 64
    requires |IP| == 64 && IsTable(IP, 64) && |IP_INVERSE| == 64 && IsTable(IP_INVERSE, 64)
    ensures Permute(IP_INVERSE, Permute(IP, b)) == b
    ensures Permute(IP, Permute(IP_INVERSE, b)) == b
  {
    forall i | 0 <= i < 64
      ensures Permute(IP_INVERSE, Permute(IP, b))[i] == b[i] == Permute(IP, Permute(IP_INVERSE, b))[i]
    {
      IpInverts(i);
    }
  }

  // Running the cipher with the keys reversed undoes it, whatever the schedule.
  lemma CipherUndone(ks: seq<BitString>, block: BitString)
    requires |block| == 64 && IsSchedule(ks)
    ensures IsSchedule(Reverse(ks))
    ensures Cipher(Reverse(ks), Cipher(ks, block)) == block
  {
    TableShapes();
    var p := Permute(IP, block);
    var h := Rounds(Split(p), ks);
    RoundsUndone(Split(p), ks);
    PermutationsInvert(block);
    PermutationsInvert(h.r + h.l);
    assert Split(h.r + h.l) == Swap(h);
    assert Split(p).l + Split(p).r == p;
  }

  lemma ReverseTwice<T>(s: seq<T>)
    ensures Reverse(Reverse(s)) == s
  {}

  lemma DecipherInvertsEncipher(key: BitString, block: BitString)
    requires |key| == 64 && |block| == 64
    ensures Decipher(key, Encipher(key, block)) == block
    ensures Encipher(key, Decipher(key, block)) == block
  {
    var ks := KeySchedule(key);
    CipherUndone(ks, block);
    CipherUndone(Reverse(ks), block);
    ReverseTwice(ks);
  }

  // Complementation.

  lemma PermuteNot(t: seq<nat>, b: BitString)
    requires IsTable(t, |b|)
    ensures Permute(t, Not(b)) == Not(Permute(t, b))
  {}

  lemma XorNot(a: BitString, b: BitString)
    requires |a| == |b|
    ensures Xor(Not(a), Not(b)) == Xor(a, b)
    ensures Xor(Not(a), b) == Not(Xor(a, b))
  {}

  ghost function NotAll(ks: seq<BitString>): (r: seq<BitString>)
    ensures |r| == |ks|
  {
    seq(|ks|, i requires 0 <= i < |ks| => Not(ks[i]))
  }

  ghost function NotHalves(h: Halves): Halves { Halves(Not(h.l), Not(h.r)) }

  lemma CipherFunctionIgnoresNot(r: BitString, k: BitString)
    requires |r| == 32 && |k| == 48
    ensures F(Not(r), Not(k)) == F(r, k)
  {
    TableShapes();
    PermuteNot(E, r);
    XorNot(Permute(E, r), k);
  }

  lemma {:induction false} RoundsNot(h: Halves, ks: seq<BitString>)
    requires Size(h, 32) && IsSchedule(ks)
    ensures IsSchedule(NotAll(ks))
    ensures Rounds(NotHalves(h), NotAll(ks)) == NotHalves(Rounds(h, ks))
  {
    if ks != [] {
      var n := |ks| - 1;
      var p := Rounds(h, ks[..n]);
      assert NotAll(ks)[..n] == NotAll(ks[..n]);
      RoundsNot(h, ks[..n]);
      CipherFunctionIgnoresNot(p.r, ks[n]);
      XorNot(p.l, F(p.r, ks[n]));
    }
  }

  lemma {:induction false} CdNot(key: BitString, n: nat)
    requires |key| == 64 && n <= 16
    ensures CD(Not(key), n) == NotHalves(CD(key, n))
  {
    TableShapes();
    PermuteNot(PC1, key);
    if n > 0 {
      CdNot(key, n - 1);
      RotateNot(CD(key, n - 1).l, SHIFTS[n - 1]);
      RotateNot(CD(key, n - 1).r, SHIFTS[n - 1]);
    } else {
      assert Not(Permute(PC1, key))[..28] == Not(Permute(PC1, key)[..28]);
      assert Not(Permute(PC1, key))[28..] == Not(Permute(PC1, key)[28..]);
    }
  }

  lemma RotateNot(b: BitString, s: nat)
    requires s <= |b|
    ensures RotateLeft(Not(b), s) == Not(RotateLeft(b, s))
  {}

  lemma ScheduleNot(key: BitString)
    requires |key| == 64
    ensures KeySchedule(Not(key)) == NotAll(KeySchedule(key))
  {
    forall i | 0 <= i < 16
      ensures KeySchedule(Not(key))[i] == Not(KeySchedule(key)[i])
    {
      TableShapes();
      var h := CD(key, i + 1);
      CdNot(key, i + 1);
      assert Not(h.l + h.r) == Not(h.l) + Not(h.r);
      PermuteNot(PC2, h.l + h.r);
    }
  }

  lemma Complementation(key: BitString, block: BitString)
    requires |key| == 64 && |block| == 64
    ensures Encipher(Not(key), Not(block)) == Not(Encipher(key, block))
  {
    TableShapes();
    var ks := KeySchedule(key);
    var p := Permute(IP, block);
    var h := Rounds(Split(p), ks);
    ScheduleNot(key);
    PermuteNot(IP, block);
    assert Split(Not(p)) == NotHalves(Split(p));
    RoundsNot(Split(p), ks);
    assert Not(h.r) + Not(h.l) == Not(h.r + h.l);
    PermuteNot(IP_INVERSE, h.r + h.l);
  }

  // PC1 never selects bits 8, 16, .. 64.
  lemma ScheduleIgnoresEighthBits(key: BitString, other: BitString)
    requires |key| == 64 && |other| == 64
    requires forall i | 0 <= i < 64 && i % 8 != 7 :: key[i] == other[i]
    ensures KeySchedule(key) == KeySchedule(other)
  {
    forall n: nat | n <= 16 ensures CD(key, n) == CD(other, n) { CdIgnoresEighthBits(key, other, n); }
  }

  lemma {:induction false} CdIgnoresEighthBits(key: BitString, other: BitString, n: nat)
    requires |key| == 64 && |other| == 64 && n <= 16
    requires forall i | 0 <= i < 64 && i % 8 != 7 :: key[i] == other[i]
    ensures CD(key, n) == CD(other, n)
  {
    TableShapes();
    if n > 0 {
      CdIgnoresEighthBits(key, other, n - 1);
    } else {
      forall i | 0 <= i < 56 ensures Permute(PC1, key)[i] == Permute(PC1, other)[i] { Pc1SkipsEighthBits(i); }
    }
  }

  lemma Pc1SkipsEighthBits(i: nat)
    requires i < 56
    ensures |PC1| == 56 && 1 <= PC1[i] <= 64 && (PC1[i] - 1) % 8 != 7
  {
    Pc1Entries(i);
    if (PC1[i] - 1) % 8 == 7 { EighthBit(PC1[i]); }
  }

  lemma EighthBit(x: nat)
    requires 1 <= x <= 64 && (x - 1) % 8 == 7
    ensures exists q | 1 <= q <= 8 :: x == 8 * q
  {
    assert x == 8 * ((x - 1) / 8 + 1);
  }

  lemma Pc1Entries(i: nat)
    requires i < 56
    ensures |PC1| == 56 && 1 <= PC1[i] <= 64
    ensures PC1[i] != 8 && PC1[i] != 16 && PC1[i] != 24 && PC1[i] != 32
    ensures PC1[i] != 40 && PC1[i] != 48 && PC1[i] != 56 && PC1[i] != 64
  {}

  // Every row of a selection function is a permutation of the sixteen numbers.
  ghost predicate Permutes(row: seq<bv4>) {
    |row| == 16 && forall v: bv4 :: v in row
  }

  ghost predicate RowsPermute(box: seq<seq<bv4>>) {
    |box| == 4 && Permutes(box[0]) && Permutes(box[1]) && Permutes(box[2]) && Permutes(box[3])
  }

  lemma Rows1() ensures RowsPermute(S1) {}
  lemma Rows2() ensures RowsPermute(S2) {}
  lemma Rows3() ensures RowsPermute(S3) {}
  lemma Rows4() ensures RowsPermute(S4) {}
  lemma Rows5() ensures RowsPermute(S5) {}
  lemma Rows6() ensures RowsPermute(S6) {}
  lemma Rows7() ensures RowsPermute(S7) {}
  lemma Rows8() ensures RowsPermute(S8) {}

  lemma RowsArePermutations(k: nat, row: nat)
    requires k < 8 && row < 4
    ensures |SBox(k)| == 4 && Permutes(SBox(k)[row])
  {
    hide Permutes, S1, S2, S3, S4, S5, S6, S7, S8;
    Rows1(); Rows2(); Rows3(); Rows4(); Rows5(); Rows6(); Rows7(); Rows8();
  }
}
