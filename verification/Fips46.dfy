// The Data Encryption Standard, FIPS PUB 46-3, on bit strings: the reference the
// optimised engine is measured against. Tables are printed as the standard prints them.
module Fips46 {
  import opened Bits

  const IP: seq<nat> :=
    [58, 50, 42, 34, 26, 18, 10,  2] +
    [60, 52, 44, 36, 28, 20, 12,  4] +
    [62, 54, 46, 38, 30, 22, 14,  6] +
    [64, 56, 48, 40, 32, 24, 16,  8] +
    [57, 49, 41, 33, 25, 17,  9,  1] +
    [59, 51, 43, 35, 27, 19, 11,  3] +
    [61, 53, 45, 37, 29, 21, 13,  5] +
    [63, 55, 47, 39, 31, 23, 15,  7]

  const IP_INVERSE: seq<nat> :=
    [40,  8, 48, 16, 56, 24, 64, 32] +
    [39,  7, 47, 15, 55, 23, 63, 31] +
    [38,  6, 46, 14, 54, 22, 62, 30] +
    [37,  5, 45, 13, 53, 21, 61, 29] +
    [36,  4, 44, 12, 52, 20, 60, 28] +
    [35,  3, 43, 11, 51, 19, 59, 27] +
    [34,  2, 42, 10, 50, 18, 58, 26] +
    [33,  1, 41,  9, 49, 17, 57, 25]

  const E: seq<nat> :=
    [32,  1,  2,  3,  4,  5] +
    [ 4,  5,  6,  7,  8,  9] +
    [ 8,  9, 10, 11, 12, 13] +
    [12, 13, 14, 15, 16, 17] +
    [16, 17, 18, 19, 20, 21] +
    [20, 21, 22, 23, 24, 25] +
    [24, 25, 26, 27, 28, 29] +
    [28, 29, 30, 31, 32,  1]

  const P: seq<nat> :=
    [16,  7, 20, 21] +
    [29, 12, 28, 17] +
    [ 1, 15, 23, 26] +
    [ 5, 18, 31, 10] +
    [ 2,  8, 24, 14] +
    [32, 27,  3,  9] +
    [19, 13, 30,  6] +
    [22, 11,  4, 25]

  const PC1: seq<nat> :=
    [57, 49, 41, 33, 25, 17,  9] +
    [ 1, 58, 50, 42, 34, 26, 18] +
    [10,  2, 59, 51, 43, 35, 27] +
    [19, 11,  3, 60, 52, 44, 36] +
    [63, 55, 47, 39, 31, 23, 15] +
    [ 7, 62, 54, 46, 38, 30, 22] +
    [14,  6, 61, 53, 45, 37, 29] +
    [21, 13,  5, 28, 20, 12,  4]

  const PC2: seq<nat> :=
    [14, 17, 11, 24,  1,  5] +
    [ 3, 28, 15,  6, 21, 10] +
    [23, 19, 12,  4, 26,  8] +
    [16,  7, 27, 20, 13,  2] +
    [41, 52, 31, 37, 47, 55] +
    [30, 40, 51, 45, 33, 48] +
    [44, 49, 39, 56, 34, 53] +
    [46, 42, 50, 36, 29, 32]

  const SHIFTS: seq<nat> := [1, 1, 2, 2, 2, 2, 2, 2, 1, 2, 2, 2, 2, 2, 2, 1]

  const S1: seq<seq<bv4>> := [
    [14,  4, 13,  1,  2, 15, 11,  8,  3, 10,  6, 12,  5,  9,  0,  7],
    [ 0, 15,  7,  4, 14,  2, 13,  1, 10,  6, 12, 11,  9,  5,  3,  8],
    [ 4,  1, 14,  8, 13,  6,  2, 11, 15, 12,  9,  7,  3, 10,  5,  0],
    [15, 12,  8,  2,  4,  9,  1,  7,  5, 11,  3, 14, 10,  0,  6, 13]]

  const S2: seq<seq<bv4>> := [
    [15,  1,  8, 14,  6, 11,  3,  4,  9,  7,  2, 13, 12,  0,  5, 10],
    [ 3, 13,  4,  7, 15,  2,  8, 14, 12,  0,  1, 10,  6,  9, 11,  5],
    [ 0, 14,  7, 11, 10,  4, 13,  1,  5,  8, 12,  6,  9,  3,  2, 15],
    [13,  8, 10,  1,  3, 15,  4,  2, 11,  6,  7, 12,  0,  5, 14,  9]]

  const S3: seq<seq<bv4>> := [
    [10,  0,  9, 14,  6,  3, 15,  5,  1, 13, 12,  7, 11,  4,  2,  8],
    [13,  7,  0,  9,  3,  4,  6, 10,  2,  8,  5, 14, 12, 11, 15,  1],
    [13,  6,  4,  9,  8, 15,  3,  0, 11,  1,  2, 12,  5, 10, 14,  7],
    [ 1, 10, 13,  0,  6,  9,  8,  7,  4, 15, 14,  3, 11,  5,  2, 12]]

  const S4: seq<seq<bv4>> := [
    [ 7, 13, 14,  3,  0,  6,  9, 10,  1,  2,  8,  5, 11, 12,  4, 15],
    [13,  8, 11,  5,  6, 15,  0,  3,  4,  7,  2, 12,  1, 10, 14,  9],
    [10,  6,  9,  0, 12, 11,  7, 13, 15,  1,  3, 14,  5,  2,  8,  4],
    [ 3, 15,  0,  6, 10,  1, 13,  8,  9,  4,  5, 11, 12,  7,  2, 14]]

  const S5: seq<seq<bv4>> := [
    [ 2, 12,  4,  1,  7, 10, 11,  6,  8,  5,  3, 15, 13,  0, 14,  9],
    [14, 11,  2, 12,  4,  7, 13,  1,  5,  0, 15, 10,  3,  9,  8,  6],
    [ 4,  2,  1, 11, 10, 13,  7,  8, 15,  9, 12,  5,  6,  3,  0, 14],
    [11,  8, 12,  7,  1, 14,  2, 13,  6, 15,  0,  9, 10,  4,  5,  3]]

  const S6: seq<seq<bv4>> := [
    [12,  1, 10, 15,  9,  2,  6,  8,  0, 13,  3,  4, 14,  7,  5, 11],
    [10, 15,  4,  2,  7, 12,  9,  5,  6,  1, 13, 14,  0, 11,  3,  8],
    [ 9, 14, 15,  5,  2,  8, 12,  3,  7,  0,  4, 10,  1, 13, 11,  6],
    [ 4,  3,  2, 12,  9,  5, 15, 10, 11, 14,  1,  7,  6,  0,  8, 13]]

  const S7: seq<seq<bv4>> := [
    [ 4, 11,  2, 14, 15,  0,  8, 13,  3, 12,  9,  7,  5, 10,  6,  1],
    [13,  0, 11,  7,  4,  9,  1, 10, 14,  3,  5, 12,  2, 15,  8,  6],
    [ 1,  4, 11, 13, 12,  3,  7, 14, 10, 15,  6,  8,  0,  5,  9,  2],
    [ 6, 11, 13,  8,  1,  4, 10,  7,  9,  5,  0, 15, 14,  2,  3, 12]]

  const S8: seq<seq<bv4>> := [
    [13,  2,  8,  4,  6, 15, 11,  1, 10,  9,  3, 14,  5,  0, 12,  7],
    [ 1, 15, 13,  8, 10,  3,  7,  4, 12,  5,  6, 11,  0, 14,  9,  2],
    [ 7, 11,  4,  1,  9, 12, 14,  2,  0,  6, 10, 13, 15,  3,  5,  8],
    [ 2,  1, 14,  7,  4, 10,  8, 13, 15, 12,  9,  0,  3,  5,  6, 11]]

  function SBox(k: nat): seq<seq<bv4>>
    requires k < 8
  {
    if k == 0 then S1 else if k == 1 then S2 else if k == 2 then S3 else if k == 3 then S4
    else if k == 4 then S5 else if k == 5 then S6 else if k == 6 then S7 else S8
  }

  function Digit(b: bit, n: nat): nat { if b == 1 then n else 0 }

  // Selection function S_(k+1) on the six bits of b from position j: the outer two bits
  // choose the row and the inner four the column.
  ghost function Select(k: nat, b: BitString, j: nat): bv4
    requires k < 8 && j + 6 <= |b|
  {
    var row := Digit(b[j], 2) + Digit(b[j + 5], 1);
    var col := Digit(b[j + 1], 8) + Digit(b[j + 2], 4) + Digit(b[j + 3], 2) + Digit(b[j + 4], 1);
    BoxShape(k);
    SBox(k)[row][col]
  }

  // Bit t, from the left, of a four-bit number.
  function NibbleBit(n: bv4, t: nat): bit
    requires t < 4
  {
    if t == 0 then (n >> 3) as bit
    else if t == 1 then ((n >> 2) & 1) as bit
    else if t == 2 then ((n >> 1) & 1) as bit
    else (n & 1) as bit
  }

  ghost function Substitute(x: BitString): (r: BitString)
    requires |x| == 48
    ensures |r| == 32
  {
    seq(32, i requires 0 <= i < 32 => NibbleBit(Select(i / 4, x, 6 * (i / 4)), i % 4))
  }

  // The cipher function f(R, K).
  ghost function F(r: BitString, k: BitString): (f: BitString)
    requires |r| == 32 && |k| == 48
    ensures |f| == 32
  {
    TableShapes();
    Permute(P, Substitute(Xor(Permute(E, r), k)))
  }

  datatype Halves = Halves(l: BitString, r: BitString)

  ghost predicate Size(h: Halves, n: nat) {
    |h.l| == n && |h.r| == n
  }

  ghost predicate IsSchedule(ks: seq<BitString>) {
    forall i | 0 <= i < |ks| :: |ks[i]| == 48
  }

  ghost function Rounds(h: Halves, ks: seq<BitString>): (r: Halves)
    requires Size(h, 32) && IsSchedule(ks)
    ensures Size(r, 32)
  {
    if ks == [] then h
    else
      var n := |ks| - 1;
      var p := Rounds(h, ks[..n]);
      Halves(p.r, Xor(p.l, F(p.r, ks[n])))
  }

  ghost function Split(b: BitString): (h: Halves)
    requires |b| == 64
    ensures Size(h, 32)
  {
    Halves(b[..32], b[32..])
  }

  // Initial permutation, the rounds, and the inverse permutation of the preoutput R16 L16.
  ghost function Cipher(ks: seq<BitString>, block: BitString): (r: BitString)
    requires |block| == 64 && IsSchedule(ks)
    ensures |r| == 64
  {
    TableShapes();
    var h := Rounds(Split(Permute(IP, block)), ks);
    Permute(IP_INVERSE, h.r + h.l)
  }

  function RotateLeft<T>(b: seq<T>, s: nat): (r: seq<T>)
    requires s <= |b|
    ensures |r| == |b|
  {
    b[s..] + b[..s]
  }

  // C_n and D_n.
  ghost function CD(key: BitString, n: nat): (h: Halves)
    requires |key| == 64 && n <= 16
    ensures Size(h, 28)
  {
    TableShapes();
    if n == 0 then
      var pc := Permute(PC1, key);
      Halves(pc[..28], pc[28..])
    else
      var h := CD(key, n - 1);
      Halves(RotateLeft(h.l, SHIFTS[n - 1]), RotateLeft(h.r, SHIFTS[n - 1]))
  }

  // KS: the sixteen keys K_1 .. K_16.
  ghost function KeySchedule(key: BitString): (ks: seq<BitString>)
    requires |key| == 64
    ensures |ks| == 16 && IsSchedule(ks)
  {
    TableShapes();
    seq(16, i requires 0 <= i < 16 => var h := CD(key, i + 1); Permute(PC2, h.l + h.r))
  }

  function Reverse<T>(s: seq<T>): (r: seq<T>)
    ensures |r| == |s|
  {
    seq(|s|, i requires 0 <= i < |s| => s[|s| - 1 - i])
  }

  ghost function Encipher(key: BitString, block: BitString): (r: BitString)
    requires |key| == 64 && |block| == 64
    ensures |r| == 64
  {
    Cipher(KeySchedule(key), block)
  }

  // Deciphering applies the same algorithm with the keys taken in reverse.
  ghost function Decipher(key: BitString, block: BitString): (r: BitString)
    requires |key| == 64 && |block| == 64
    ensures |r| == 64
  {
    Cipher(Reverse(KeySchedule(key)), block)
  }

  lemma TableShapes()
    ensures |IP| == 64 && IsTable(IP, 64)
    ensures |IP_INVERSE| == 64 && IsTable(IP_INVERSE, 64)
    ensures |E| == 48 && IsTable(E, 32)
    ensures |P| == 32 && IsTable(P, 32)
    ensures |PC1| == 56 && IsTable(PC1, 64)
    ensures |PC2| == 48 && IsTable(PC2, 56)
    ensures |SHIFTS| == 16 && forall i | 0 <= i < 16 :: SHIFTS[i] <= 28
  {
    IpShape(); IpInverseShape(); EShape(); PShape(); Pc1Shape(); Pc2Shape();
  }
  lemma IpShape() ensures |IP| == 64 && IsTable(IP, 64) {}
  lemma IpInverseShape() ensures |IP_INVERSE| == 64 && IsTable(IP_INVERSE, 64) {}
  lemma EShape() ensures |E| == 48 && IsTable(E, 32) {}
  lemma PShape() ensures |P| == 32 && IsTable(P, 32) {}
  lemma Pc1Shape() ensures |PC1| == 56 && IsTable(PC1, 64) {}
  lemma Pc2Shape() ensures |PC2| == 48 && IsTable(PC2, 56) {}
  lemma BoxShape(k: nat)
    requires k < 8
    ensures |SBox(k)| == 4 && forall r | 0 <= r < 4 :: |SBox(k)[r]| == 16
    {}
}
