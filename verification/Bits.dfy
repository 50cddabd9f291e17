// Bit strings, numbered from the left as FIPS 46-3 numbers them, and the machine
// words that hold them most significant bit first.
module Bits {

  type bit = bv1
  type byte = bv8
  type BitString = seq<bit>

  // A table of one-based positions into a string of n bits.
  ghost predicate IsTable(t: seq<nat>, n: nat) {
    forall i | 0 <= i < |t| :: 1 <= t[i] <= n
  }

  // Bit i of the result is the bit of b that entry i of the table names.
  ghost function Permute(t: seq<nat>, b: BitString): (r: BitString)
    requires IsTable(t, |b|)
    ensures |r| == |t|
  {
    seq(|t|, i requires 0 <= i < |t| => b[t[i] - 1])
  }

  ghost function Xor(a: BitString, b: BitString): (r: BitString)
    requires |a| == |b|
    ensures |r| == |a|
  {
    seq(|a|, i requires 0 <= i < |a| => a[i] ^ b[i])
  }

  ghost function Not(a: BitString): (r: BitString)
    ensures |r| == |a|
  {
    seq(|a|, i requires 0 <= i < |a| => a[i] ^ 1)
  }

  // The eight bits of b from position k, as a number.
  function Octet(b: BitString, k: nat): bv32
    requires k + 8 <= |b|
  {
    ((b[k] as bv32) << 7) | ((b[k + 1] as bv32) << 6) | ((b[k + 2] as bv32) << 5) | ((b[k + 3] as bv32) << 4) |
    ((b[k + 4] as bv32) << 3) | ((b[k + 5] as bv32) << 2) | ((b[k + 6] as bv32) << 1) | (b[k + 7] as bv32)
  }

  // The thirty-two bits of b from position k, as a number.
  function Word(b: BitString, k: nat): bv32
    requires k + 32 <= |b|
  {
    (Octet(b, k) << 24) | (Octet(b, k + 8) << 16) | (Octet(b, k + 16) << 8) | Octet(b, k + 24)
  }

  // The six bits of b from position k, as a number.
  function Sextet(b: BitString, k: nat): bv32
    requires k + 6 <= |b|
  {
    ((b[k] as bv32) << 5) | ((b[k + 1] as bv32) << 4) | ((b[k + 2] as bv32) << 3) |
    ((b[k + 3] as bv32) << 2) | ((b[k + 4] as bv32) << 1) | (b[k + 5] as bv32)
  }
}
