// The DES engine of d3des.c on 32-bit words: its tables, the functions its statements
// compute, and the engine itself with its key register.
module D3Des {
  import opened Bits

  const EN0 := 0
  const DE1 := 1

  const BYTEBIT: seq<byte> := [0x01, 0x02, 0x04, 0x08, 0x10, 0x20, 0x40, 0x80]

  const BIGBYTE: seq<bv32> :=
    [0x800000, 0x400000, 0x200000, 0x100000] +
    [0x080000, 0x040000, 0x020000, 0x010000] +
    [0x008000, 0x004000, 0x002000, 0x001000] +
    [0x000800, 0x000400, 0x000200, 0x000100] +
    [0x000080, 0x000040, 0x000020, 0x000010] +
    [0x000008, 0x000004, 0x000002, 0x000001]

  const PC1: seq<nat> :=
    [56, 48, 40, 32, 24, 16,  8,  0, 57, 49, 41, 33, 25, 17] +
    [ 9,  1, 58, 50, 42, 34, 26, 18, 10,  2, 59, 51, 43, 35] +
    [62, 54, 46, 38, 30, 22, 14,  6, 61, 53, 45, 37, 29, 21] +
    [13,  5, 60, 52, 44, 36, 28, 20, 12,  4, 27, 19, 11,  3]

  const TOTROT: seq<nat> := [1, 2, 4, 6, 8, 10, 12, 14, 15, 17, 19, 21, 23, 25, 27, 28]

  const PC2: seq<nat> :=
    [13, 16, 10, 23,  0,  4,  2, 27, 14,  5, 20,  9] +
    [22, 18, 11,  3, 25,  7, 15,  6, 26, 19, 12,  1] +
    [40, 51, 30, 36, 46, 54, 29, 39, 50, 44, 32, 47] +
    [43, 48, 38, 55, 33, 52, 45, 41, 49, 35, 28, 31]

  const SP1: seq<bv32> :=
    [0x01010400, 0x00000000, 0x00010000, 0x01010404, 0x01010004, 0x00010404, 0x00000004, 0x00010000] +
    [0x00000400, 0x01010400, 0x01010404, 0x00000400, 0x01000404, 0x01010004, 0x01000000, 0x00000004] +
    [0x00000404, 0x01000400, 0x01000400, 0x00010400, 0x00010400, 0x01010000, 0x01010000, 0x01000404] +
    [0x00010004, 0x01000004, 0x01000004, 0x00010004, 0x00000000, 0x00000404, 0x00010404, 0x01000000] +
    [0x00010000, 0x01010404, 0x00000004, 0x01010000, 0x01010400, 0x01000000, 0x01000000, 0x00000400] +
    [0x01010004, 0x00010000, 0x00010400, 0x01000004, 0x00000400, 0x00000004, 0x01000404, 0x00010404] +
    [0x01010404, 0x00010004, 0x01010000, 0x01000404, 0x01000004, 0x00000404, 0x00010404, 0x01010400] +
    [0x00000404, 0x01000400, 0x01000400, 0x00000000, 0x00010004, 0x00010400, 0x00000000, 0x01010004]

  const SP2: seq<bv32> :=
    [0x80108020, 0x80008000, 0x00008000, 0x00108020, 0x00100000, 0x00000020, 0x80100020, 0x80008020] +
    [0x80000020, 0x80108020, 0x80108000, 0x80000000, 0x80008000, 0x00100000, 0x00000020, 0x80100020] +
    [0x00108000, 0x00100020, 0x80008020, 0x00000000, 0x80000000, 0x00008000, 0x00108020, 0x80100000] +
    [0x00100020, 0x80000020, 0x00000000, 0x00108000, 0x00008020, 0x80108000, 0x80100000, 0x00008020] +
    [0x00000000, 0x00108020, 0x80100020, 0x00100000, 0x80008020, 0x80100000, 0x80108000, 0x00008000] +
    [0x80100000, 0x80008000, 0x00000020, 0x80108020, 0x00108020, 0x00000020, 0x00008000, 0x80000000] +
    [0x00008020, 0x80108000, 0x00100000, 0x80000020, 0x00100020, 0x80008020, 0x80000020, 0x00100020] +
    [0x00108000, 0x00000000, 0x80008000, 0x00008020, 0x80000000, 0x80100020, 0x80108020, 0x00108000]

  const SP3: seq<bv32> :=
    [0x00000208, 0x08020200, 0x00000000, 0x08020008, 0x08000200, 0x00000000, 0x00020208, 0x08000200] +
    [0x00020008, 0x08000008, 0x08000008, 0x00020000, 0x08020208, 0x00020008, 0x08020000, 0x00000208] +
    [0x08000000, 0x00000008, 0x08020200, 0x00000200, 0x00020200, 0x08020000, 0x08020008, 0x00020208] +
    [0x08000208, 0x00020200, 0x00020000, 0x08000208, 0x00000008, 0x08020208, 0x00000200, 0x08000000] +
    [0x08020200, 0x08000000, 0x00020008, 0x00000208, 0x00020000, 0x08020200, 0x08000200, 0x00000000] +
    [0x00000200, 0x00020008, 0x08020208, 0x08000200, 0x08000008, 0x00000200, 0x00000000, 0x08020008] +
    [0x08000208, 0x00020000, 0x08000000, 0x08020208, 0x00000008, 0x00020208, 0x00020200, 0x08000008] +
    [0x08020000, 0x08000208, 0x00000208, 0x08020000, 0x00020208, 0x00000008, 0x08020008, 0x00020200]

  const SP4: seq<bv32> :=
    [0x00802001, 0x00002081, 0x00002081, 0x00000080, 0x00802080, 0x00800081, 0x00800001, 0x00002001] +
    [0x00000000, 0x00802000, 0x00802000, 0x00802081, 0x00000081, 0x00000000, 0x00800080, 0x00800001] +
    [0x00000001, 0x00002000, 0x00800000, 0x00802001, 0x00000080, 0x00800000, 0x00002001, 0x00002080] +
    [0x00800081, 0x00000001, 0x00002080, 0x00800080, 0x00002000, 0x00802080, 0x00802081, 0x00000081] +
    [0x00800080, 0x00800001, 0x00802000, 0x00802081, 0x00000081, 0x00000000, 0x00000000, 0x00802000] +
    [0x00002080, 0x00800080, 0x00800081, 0x00000001, 0x00802001, 0x00002081, 0x00002081, 0x00000080] +
    [0x00802081, 0x00000081, 0x00000001, 0x00002000, 0x00800001, 0x00002001, 0x00802080, 0x00800081] +
    [0x00002001, 0x00002080, 0x00800000, 0x00802001, 0x00000080, 0x00800000, 0x00002000, 0x00802080]

  const SP5: seq<bv32> :=
    [0x00000100, 0x02080100, 0x02080000, 0x42000100, 0x00080000, 0x00000100, 0x40000000, 0x02080000] +
    [0x40080100, 0x00080000, 0x02000100, 0x40080100, 0x42000100, 0x42080000, 0x00080100, 0x40000000] +
    [0x02000000, 0x40080000, 0x40080000, 0x00000000, 0x40000100, 0x42080100, 0x42080100, 0x02000100] +
    [0x42080000, 0x40000100, 0x00000000, 0x42000000, 0x02080100, 0x02000000, 0x42000000, 0x00080100] +
    [0x00080000, 0x42000100, 0x00000100, 0x02000000, 0x40000000, 0x02080000, 0x42000100, 0x40080100] +
    [0x02000100, 0x40000000, 0x42080000, 0x02080100, 0x40080100, 0x00000100, 0x02000000, 0x42080000] +
    [0x42080100, 0x00080100, 0x42000000, 0x42080100, 0x02080000, 0x00000000, 0x40080000, 0x42000000] +
    [0x00080100, 0x02000100, 0x40000100, 0x00080000, 0x00000000, 0x40080000, 0x02080100, 0x40000100]

  const SP6: seq<bv32> :=
    [0x20000010, 0x20400000, 0x00004000, 0x20404010, 0x20400000, 0x00000010, 0x20404010, 0x00400000] +
    [0x20004000, 0x00404010, 0x00400000, 0x20000010, 0x00400010, 0x20004000, 0x20000000, 0x00004010] +
    [0x00000000, 0x00400010, 0x20004010, 0x00004000, 0x00404000, 0x20004010, 0x00000010, 0x20400010] +
    [0x20400010, 0x00000000, 0x00404010, 0x20404000, 0x00004010, 0x00404000, 0x20404000, 0x20000000] +
    [0x20004000, 0x00000010, 0x20400010, 0x00404000, 0x20404010, 0x00400000, 0x00004010, 0x20000010] +
    [0x00400000, 0x20004000, 0x20000000, 0x00004010, 0x20000010, 0x20404010, 0x00404000, 0x20400000] +
    [0x00404010, 0x20404000, 0x00000000, 0x20400010, 0x00000010, 0x00004000, 0x20400000, 0x00404010] +
    [0x00004000, 0x00400010, 0x20004010, 0x00000000, 0x20404000, 0x20000000, 0x00400010, 0x20004010]

  const SP7: seq<bv32> :=
    [0x00200000, 0x04200002, 0x04000802, 0x00000000, 0x00000800, 0x04000802, 0x00200802, 0x04200800] +
    [0x04200802, 0x00200000, 0x00000000, 0x04000002, 0x00000002, 0x04000000, 0x04200002, 0x00000802] +
    [0x04000800, 0x00200802, 0x00200002, 0x04000800, 0x04000002, 0x04200000, 0x04200800, 0x00200002] +
    [0x04200000, 0x00000800, 0x00000802, 0x04200802, 0x00200800, 0x00000002, 0x04000000, 0x00200800] +
    [0x04000000, 0x00200800, 0x00200000, 0x04000802, 0x04000802, 0x04200002, 0x04200002, 0x00000002] +
    [0x00200002, 0x04000000, 0x04000800, 0x00200000, 0x04200800, 0x00000802, 0x00200802, 0x04200800] +
    [0x00000802, 0x04000002, 0x04200802, 0x04200000, 0x00200800, 0x00000000, 0x00000002, 0x04200802] +
    [0x00000000, 0x00200802, 0x04200000, 0x00000800, 0x04000002, 0x04000800, 0x00000800, 0x00200002]

  const SP8: seq<bv32> :=
    [0x10001040, 0x00001000, 0x00040000, 0x10041040, 0x10000000, 0x10001040, 0x00000040, 0x10000000] +
    [0x00040040, 0x10040000, 0x10041040, 0x00041000, 0x10041000, 0x00041040, 0x00001000, 0x00000040] +
    [0x10040000, 0x10000040, 0x10001000, 0x00001040, 0x00041000, 0x00040040, 0x10040040, 0x10041000] +
    [0x00001040, 0x00000000, 0x00000000, 0x10040040, 0x10000040, 0x10001000, 0x00041040, 0x00040000] +
    [0x00041040, 0x00040000, 0x10041000, 0x00001000, 0x00000040, 0x10040040, 0x00001000, 0x00041040] +
    [0x10001000, 0x00000040, 0x10000040, 0x10040000, 0x10040040, 0x10000000, 0x00040000, 0x10001040] +
    [0x00000000, 0x10041040, 0x00040040, 0x10000040, 0x10040000, 0x10001000, 0x10001040, 0x00000000] +
    [0x10041040, 0x00041000, 0x00041000, 0x00001040, 0x00001040, 0x00040040, 0x10000000, 0x10041000]

  // Everything the engine looks up. Its code is the same for any contents.
  datatype Tables = Tables(bytebit: seq<byte>, bigbyte: seq<bv32>, pc1: seq<nat>, totrot: seq<nat>, pc2: seq<nat>,
                           sp1: seq<bv32>, sp2: seq<bv32>, sp3: seq<bv32>, sp4: seq<bv32>,
                           sp5: seq<bv32>, sp6: seq<bv32>, sp7: seq<bv32>, sp8: seq<bv32>)
  {
    ghost predicate Valid() {
      && |bytebit| == 8 && |bigbyte| == 24
      && |pc1| == 56 && (forall j | 0 <= j < 56 :: pc1[j] < 64)
      && |totrot| == 16 && (forall i | 0 <= i < 16 :: totrot[i] <= 28)
      && |pc2| == 48 && (forall j | 0 <= j < 48 :: pc2[j] < 56)
      && |sp1| == |sp2| == |sp3| == |sp4| == 64
      && |sp5| == |sp6| == |sp7| == |sp8| == 64
    }
  }

  const TABLES := Tables(BYTEBIT, BIGBYTE, PC1, TOTROT, PC2, SP1, SP2, SP3, SP4, SP5, SP6, SP7, SP8)

  lemma TablesValid()
    ensures TABLES.Valid()
  {
    Pc1Shape(); Pc2Shape();
  }
  lemma Pc1Shape() ensures |PC1| == 56 && forall j | 0 <= j < 56 :: PC1[j] < 64 {}
  lemma Pc2Shape() ensures |PC2| == 48 && forall j | 0 <= j < 48 :: PC2[j] < 56 {}

  datatype Block = Block(leftt: bv32, right: bv32)

  // The two words of eight bytes, first byte most significant.
  function Scrunch(bs: seq<byte>): Block
    requires |bs| == 8
  {
    Block(((bs[0] as bv32) << 24) | ((bs[1] as bv32) << 16) | ((bs[2] as bv32) << 8) | (bs[3] as bv32),
          ((bs[4] as bv32) << 24) | ((bs[5] as bv32) << 16) | ((bs[6] as bv32) << 8) | (bs[7] as bv32))
  }

  function Unscrun(b: Block): (bs: seq<byte>)
    ensures |bs| == 8
  {
    [((b.leftt >> 24) & 0xff) as byte, ((b.leftt >> 16) & 0xff) as byte,
     ((b.leftt >> 8) & 0xff) as byte, (b.leftt & 0xff) as byte,
     ((b.right >> 24) & 0xff) as byte, ((b.right >> 16) & 0xff) as byte,
     ((b.right >> 8) & 0xff) as byte, (b.right & 0xff) as byte]
  }

  function Rol1(w: bv32): bv32 { (w << 1) | ((w >> 31) & 1) }

  function Ror1(w: bv32): bv32 { (w << 31) | (w >> 1) }

  // The statements of desfunc before its rounds.
  function Opening(b: Block): Block {
    var leftt, right := b.leftt, b.right;
    var work := ((leftt >> 4) ^ right) & 0x0f0f0f0f;
    var right := right ^ work;
    var leftt := leftt ^ (work << 4);
    var work := ((leftt >> 16) ^ right) & 0x0000ffff;
    var right := right ^ work;
    var leftt := leftt ^ (work << 16);
    var work := ((right >> 2) ^ leftt) & 0x33333333;
    var leftt := leftt ^ work;
    var right := right ^ (work << 2);
    var work := ((right >> 8) ^ leftt) & 0x00ff00ff;
    var leftt := leftt ^ work;
    var right := right ^ (work << 8);
    var right := (right << 1) | ((right >> 31) & 1);
    var work := (leftt ^ right) & 0xaaaaaaaa;
    var leftt := leftt ^ work;
    var right := right ^ work;
    var leftt := (leftt << 1) | ((leftt >> 31) & 1);
    Block(leftt, right)
  }

  // The statements after the rounds; the last two store the right half first.
  function Closing(b: Block): Block {
    var leftt, right := b.leftt, b.right;
    var right := (right << 31) | (right >> 1);
    var work := (leftt ^ right) & 0xaaaaaaaa;
    var leftt := leftt ^ work;
    var right := right ^ work;
    var leftt := (leftt << 31) | (leftt >> 1);
    var work := ((leftt >> 8) ^ right) & 0x00ff00ff;
    var right := right ^ work;
    var leftt := leftt ^ (work << 8);
    var work := ((leftt >> 2) ^ right) & 0x33333333;
    var right := right ^ work;
    var leftt := leftt ^ (work << 2);
    var work := ((right >> 16) ^ leftt) & 0x0000ffff;
    var leftt := leftt ^ work;
    var right := right ^ (work << 16);
    var work := ((right >> 4) ^ leftt) & 0x0f0f0f0f;
    var leftt := leftt ^ work;
    var right := right ^ (work << 4);
    Block(right, leftt)
  }

  // A table index: the low six bits of a word.
  function Slot(w: bv32): (i: nat)
    ensures i < 64
  {
    (w & 0x3f) as nat
  }

  function Ror4(w: bv32): bv32 { (w << 28) | (w >> 4) }

  function Or8(a: bv32, b: bv32, c: bv32, d: bv32, e: bv32, f: bv32, g: bv32, h: bv32): bv32 {
    a | b | c | d | e | f | g | h
  }

  function Gather(t: Tables, odd: bv32, even: bv32): bv32
    requires t.Valid()
  {
    Or8(t.sp7[Slot(odd)], t.sp5[Slot(odd >> 8)], t.sp3[Slot(odd >> 16)], t.sp1[Slot(odd >> 24)],
        t.sp8[Slot(even)], t.sp6[Slot(even >> 8)], t.sp4[Slot(even >> 16)], t.sp2[Slot(even >> 24)])
  }

  // What one half-round adds to the other half.
  function Fval(t: Tables, half: bv32, key0: bv32, key1: bv32): bv32
    requires t.Valid()
  {
    Gather(t, Ror4(half) ^ key0, half ^ key1)
  }

  function Plus(a: bv32, b: bv32): bv32 { a ^ b }

  function MixLeft(t: Tables, b: Block, k0: bv32, k1: bv32): Block
    requires t.Valid()
  {
    Block(Plus(b.leftt, Fval(t, b.right, k0, k1)), b.right)
  }

  function MixRight(t: Tables, b: Block, k0: bv32, k1: bv32): Block
    requires t.Valid()
  {
    Block(b.leftt, Plus(b.right, Fval(t, b.leftt, k0, k1)))
  }

  // n double rounds; round i uses the key words 4i .. 4i+3.
  function DoubleRounds(t: Tables, b: Block, keys: seq<bv32>, n: nat): Block
    requires t.Valid() && 4 * n <= |keys|
    decreases n
  {
    if n == 0 then b
    else
      var k := 4 * (n - 1);
      var p := DoubleRounds(t, b, keys, n - 1);
      MixRight(t, MixLeft(t, p, keys[k], keys[k + 1]), keys[k + 2], keys[k + 3])
  }

  function DesWords(t: Tables, keys: seq<bv32>, b: Block): Block
    requires t.Valid() && |keys| == 32
  {
    Closing(DoubleRounds(t, Opening(b), keys, |keys| / 4))
  }

  function DesBytes(t: Tables, keys: seq<bv32>, bs: seq<byte>): (r: seq<byte>)
    requires t.Valid() && |keys| == 32 && |bs| == 8
    ensures |r| == 8
  {
    Unscrun(DesWords(t, keys, Scrunch(bs)))
  }

  // Bit l of the key: bytes in order, the bits of each byte from its least significant.
  function KeyBit(t: Tables, key: seq<byte>, l: nat): bit
    requires t.Valid() && |key| == 8 && l < 64
  {
    if key[l / 8] & t.bytebit[l % 8] != 0 then 1 else 0
  }

  function Selected(t: Tables, key: seq<byte>): (b: BitString)
    requires t.Valid() && |key| == 8
    ensures |b| == 56
  {
    seq(56, j requires 0 <= j < 56 => KeyBit(t, key, t.pc1[j]))
  }

  // The two 28-bit halves, each rotated by the total for round i.
  function Rotated(t: Tables, pc1m: BitString, i: nat): (b: BitString)
    requires t.Valid() && |pc1m| == 56 && i < 16
    ensures |b| == 56
  {
    seq(56, j requires 0 <= j < 56 =>
      var l := j + t.totrot[i];
      if j < 28 then (if l < 28 then pc1m[l] else pc1m[l - 28])
      else (if l < 56 then pc1m[l] else pc1m[l - 28]))
  }

  // n of the twenty-four key bits starting at entry `from` of PC2, high bit first.
  function Raw(t: Tables, pcr: BitString, from: nat, n: nat): bv32
    requires t.Valid() && |pcr| == 56 && from <= 24 && n <= 24
    decreases n
  {
    if n == 0 then 0
    else
      var kn := Raw(t, pcr, from, n - 1);
      if pcr[t.pc2[from + n - 1]] == 1 then kn | t.bigbyte[n - 1] else kn
  }

  function RawWord(t: Tables, pcr: BitString, from: nat): bv32
    requires t.Valid() && |pcr| == 56 && from <= 24
  {
    Raw(t, pcr, from, |t.bigbyte|)
  }

  // Key word p before cooking: the pair for round i sits at 2i when enciphering and at
  // 2(15 - i) when deciphering.
  function RawKeys(t: Tables, key: seq<byte>, edf: int): (kn: seq<bv32>)
    requires t.Valid() && |key| == 8
    ensures |kn| == 32
  {
    seq(32, p requires 0 <= p < 32 =>
      var i := if edf == DE1 then 15 - p / 2 else p / 2;
      RawWord(t, Rotated(t, Selected(t, key), i), if p % 2 == 0 then 0 else 24))
  }

  function Cook0(raw0: bv32, raw1: bv32): bv32 {
    ((raw0 & 0x00fc0000) << 6) | ((raw0 & 0x00000fc0) << 10) | ((raw1 & 0x00fc0000) >> 10) | ((raw1 & 0x00000fc0) >> 6)
  }

  function Cook1(raw0: bv32, raw1: bv32): bv32 {
    ((raw0 & 0x0003f000) << 12) | ((raw0 & 0x0000003f) << 16) | ((raw1 & 0x0003f000) >> 4) | (raw1 & 0x0000003f)
  }

  function Cook(raw: seq<bv32>): (dough: seq<bv32>)
    requires |raw| == 32
    ensures |dough| == 32
  {
    seq(32, p requires 0 <= p < 32 =>
      if p % 2 == 0 then Cook0(raw[p], raw[p + 1]) else Cook1(raw[p - 1], raw[p]))
  }

  function KeyRegister(t: Tables, key: seq<byte>, edf: int): (kn: seq<bv32>)
    requires t.Valid() && |key| == 8
    ensures |kn| == 32
  {
    Cook(RawKeys(t, key, edf))
  }

  class Engine {
    const t: Tables
    const KnL: array<bv32>

    ghost predicate Valid() { t.Valid() && KnL.Length == 32 }

    constructor ()
      ensures Valid() && t == TABLES && fresh(KnL)
      ensures forall i | 0 <= i < 32 :: KnL[i] == 0
    {
      TablesValid();
      t := TABLES;
      KnL := new bv32[32](i => 0);
    }

    method UseKey(from: array<bv32>)
      requires Valid() && from.Length == 32
      modifies KnL
      ensures KnL[..] == old(from[..])
    {
      for i := 0 to 32
        invariant from != KnL ==> from[..] == old(from[..])
        invariant KnL[..i] == old(from[..i])
        invariant KnL[i..] == old(KnL[i..])
      {
        KnL[i] := from[i];
      }
    }

    method CPKey(into: array<bv32>)
      requires Valid() && into.Length == 32
      modifies into
      ensures into[..] == old(KnL[..])
    {
      for i := 0 to 32
        invariant forall j | 0 <= j < i :: into[j] == old(KnL[j])
        invariant forall j | i <= j < 32 :: KnL[j] == old(KnL[j])
      {
        into[i] := KnL[i];
      }
    }

    method Cookey(raw: array<bv32>)
      requires Valid() && raw.Length == 32 && raw != KnL
      modifies KnL
      ensures KnL[..] == Cook(raw[..])
    {
      hide Cook0, Cook1, Cook;
      var dough := new bv32[32];
      for i := 0 to 16
        invariant forall j | 0 <= j < i :: dough[2 * j] == Cook0(raw[2 * j], raw[2 * j + 1])
        invariant forall j | 0 <= j < i :: dough[2 * j + 1] == Cook1(raw[2 * j], raw[2 * j + 1])
      {
        dough[2 * i], dough[2 * i + 1] := Cook0(raw[2 * i], raw[2 * i + 1]), Cook1(raw[2 * i], raw[2 * i + 1]);
      }
      CookByPairs(raw[..], dough[..]);
      UseKey(dough);
    }

    method DesKey(key: array<byte>, edf: int)
      requires Valid() && key.Length == 8
      modifies KnL
      ensures KnL[..] == KeyRegister(t, key[..], edf)
    {
      hide RawWord, Rotated, Selected;
      var pc1m, pcr := new bit[56], new bit[56];
      var kn := new bv32[32];
      SelectKeyBits(t, key, pc1m);
      ghost var sel := Selected(t, key[..]);
      for i := 0 to 16
        invariant pc1m[..] == sel
        invariant forall j | 0 <= j < i :: HoldsPair(t, kn[..], PairIndex(edf, j), Rotated(t, sel, j))
      {
        var m := if edf == DE1 then (15 - i) * 2 else i * 2;
        var n := m + 1;
        RotateHalves(t, pc1m, pcr, i);
        PackKeys(t, pcr, kn, m, n);
      }
      RawKeysByRound(t, key[..], edf, kn[..]);
      Cookey(kn);
    }

    // Enciphers or deciphers, according to the key register, the eight bytes of inblock
    // from position i into the eight bytes of outblock from position o. The blocks may overlap.
    method Des(inblock: array<byte>, i: nat, outblock: array<byte>, o: nat)
      requires Valid() && i + 8 <= inblock.Length && o + 8 <= outblock.Length
      modifies outblock
      ensures outblock[o..o + 8] == DesBytes(t, KnL[..], old(inblock[i..i + 8]))
      ensures forall p | 0 <= p < outblock.Length && !(o <= p < o + 8) :: outblock[p] == old(outblock[p])
    {
      hide DesWords;
      var work := new bv32[2];
      ScrunchInto(inblock, i, work);
      ghost var keys := KnL[..];
      Desfunc(work);
      assert KnL[..] == keys;
      UnscrunInto(work, outblock, o);
    }

    method Desfunc(block: array<bv32>)
      requires Valid() && block.Length == 2 && block != KnL
      modifies block
      ensures Block(block[0], block[1]) == DesWords(t, KnL[..], old(Block(block[0], block[1])))
    {
      hide Opening, Closing, MixLeft, MixRight;
      ghost var keys := KnL[..];
      var b := Opening(Block(block[0], block[1]));
      ghost var entry := b;
      for round := 0 to 8
        invariant b == DoubleRounds(t, entry, keys, round)
      {
        var k := 4 * round;
        b := MixLeft(t, b, KnL[k], KnL[k + 1]);
        b := MixRight(t, b, KnL[k + 2], KnL[k + 3]);
      }
      b := Closing(b);
      block[0], block[1] := b.leftt, b.right;
    }
  }

  method ScrunchInto(outof: array<byte>, i: nat, into: array<bv32>)
    requires i + 8 <= outof.Length && into.Length == 2
    modifies into
    ensures Block(into[0], into[1]) == Scrunch(outof[i..i + 8])
  {
    into[0] := (outof[i] as bv32) << 24;
    into[0] := into[0] | ((outof[i + 1] as bv32) << 16);
    into[0] := into[0] | ((outof[i + 2] as bv32) << 8);
    into[0] := into[0] | (outof[i + 3] as bv32);
    into[1] := (outof[i + 4] as bv32) << 24;
    into[1] := into[1] | ((outof[i + 5] as bv32) << 16);
    into[1] := into[1] | ((outof[i + 6] as bv32) << 8);
    into[1] := into[1] | (outof[i + 7] as bv32);
  }

  method UnscrunInto(outof: array<bv32>, into: array<byte>, o: nat)
    requires outof.Length == 2 && o + 8 <= into.Length
    modifies into
    ensures into[o..o + 8] == Unscrun(Block(outof[0], outof[1]))
    ensures forall p | 0 <= p < into.Length && !(o <= p < o + 8) :: into[p] == old(into[p])
  {
    hide Unscrun;
    var bs := Unscrun(Block(outof[0], outof[1]));
    for j := 0 to 8
      invariant forall p | 0 <= p < j :: into[o + p] == bs[p]
      invariant forall p | 0 <= p < into.Length && !(o <= p < o + 8) :: into[p] == old(into[p])
    {
      into[o + j] := bs[j];
    }
  }

  // Where the pair of raw key words for round i is stored.
  function PairIndex(edf: int, i: nat): (m: nat)
    requires i < 16
    ensures m <= 30
  {
    if edf == DE1 then 2 * (15 - i) else 2 * i
  }

  predicate HoldsPair(t: Tables, kn: seq<bv32>, m: nat, pcr: BitString)
    requires t.Valid() && |kn| == 32 && m <= 30 && |pcr| == 56
  {
    kn[m] == RawWord(t, pcr, 0) && kn[m + 1] == RawWord(t, pcr, 24)
  }

  lemma CookByPairs(raw: seq<bv32>, dough: seq<bv32>)
    requires |raw| == 32 == |dough|
    requires forall j | 0 <= j < 16 :: dough[2 * j] == Cook0(raw[2 * j], raw[2 * j + 1])
    requires forall j | 0 <= j < 16 :: dough[2 * j + 1] == Cook1(raw[2 * j], raw[2 * j + 1])
    ensures dough == Cook(raw)
  {
    forall p | 0 <= p < 32
      ensures dough[p] == Cook(raw)[p]
    {
      var j := p / 2;
      assert p == 2 * j + p % 2;
      assert dough[2 * j] == Cook0(raw[2 * j], raw[2 * j + 1]);
      assert dough[2 * j + 1] == Cook1(raw[2 * j], raw[2 * j + 1]);
    }
  }

  lemma RawKeysByRound(t: Tables, key: seq<byte>, edf: int, kn: seq<bv32>)
    requires t.Valid() && |key| == 8 && |kn| == 32
    requires forall i | 0 <= i < 16 :: HoldsPair(t, kn, PairIndex(edf, i), Rotated(t, Selected(t, key), i))
    ensures kn == RawKeys(t, key, edf)
  {
    hide RawWord, Rotated, Selected;
    forall p | 0 <= p < 32
      ensures kn[p] == RawKeys(t, key, edf)[p]
    {
      var i := if edf == DE1 then 15 - p / 2 else p / 2;
      assert HoldsPair(t, kn, PairIndex(edf, i), Rotated(t, Selected(t, key), i));
      assert p == PairIndex(edf, i) + p % 2;
    }
  }

  method SelectKeyBits(t: Tables, key: array<byte>, pc1m: array<bit>)
    requires t.Valid() && key.Length == 8 && pc1m.Length == 56
    modifies pc1m
    ensures pc1m[..] == Selected(t, key[..])
  {
    ghost var sel := Selected(t, key[..]);
    for j := 0 to 56
      invariant pc1m[..j] == sel[..j]
    {
      var l := t.pc1[j];
      var m := l % 8;
      pc1m[j] := if key[l / 8] & t.bytebit[m] != 0 then 1 else 0;
    }
  }

  method RotateHalves(t: Tables, pc1m: array<bit>, pcr: array<bit>, i: nat)
    requires t.Valid() && pc1m.Length == 56 == pcr.Length && pc1m != pcr && i < 16
    modifies pcr
    ensures pcr[..] == Rotated(t, pc1m[..], i)
  {
    for j := 0 to 28
      invariant pcr[..j] == Rotated(t, pc1m[..], i)[..j]
    {
      var l := j + t.totrot[i];
      if l < 28 { pcr[j] := pc1m[l]; } else { pcr[j] := pc1m[l - 28]; }
    }
    for j := 28 to 56
      invariant pcr[..j] == Rotated(t, pc1m[..], i)[..j]
    {
      var l := j + t.totrot[i];
      if l < 56 { pcr[j] := pc1m[l]; } else { pcr[j] := pc1m[l - 28]; }
    }
  }

  method PackKeys(t: Tables, pcr: array<bit>, kn: array<bv32>, m: nat, n: nat)
    requires t.Valid() && pcr.Length == 56 && kn.Length == 32 && m < 31 && n == m + 1
    modifies kn
    ensures kn[m] == RawWord(t, pcr[..], 0) && kn[n] == RawWord(t, pcr[..], 24)
    ensures forall p | 0 <= p < 32 && p != m && p != n :: kn[p] == old(kn[p])
  {
    ghost var bits := pcr[..];
    kn[m], kn[n] := 0, 0;
    for j := 0 to |t.bigbyte|
      invariant kn[m] == Raw(t, bits, 0, j) && kn[n] == Raw(t, bits, 24, j)
      invariant forall p | 0 <= p < 32 && p != m && p != n :: kn[p] == old(kn[p])
    {
      PackBit(t, pcr, kn, m, 0, j);
      PackBit(t, pcr, kn, n, 24, j);
    }
  }

  method PackBit(t: Tables, pcr: array<bit>, kn: array<bv32>, p: nat, from: nat, j: nat)
    requires t.Valid() && pcr.Length == 56 && kn.Length == 32 && p < 32 && from <= 24 && j < 24
    requires kn[p] == Raw(t, pcr[..], from, j)
    modifies kn
    ensures kn[p] == Raw(t, pcr[..], from, j + 1)
    ensures forall q | 0 <= q < 32 && q != p :: kn[q] == old(kn[q])
  {
    if pcr[t.pc2[from + j]] == 1 { kn[p] := kn[p] | t.bigbyte[j]; }
  }
}
