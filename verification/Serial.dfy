// The << and >> operators of marshal.h: a serializer and a parser for nested containers.
module Serializing {
  import opened Bits
  import opened Common
  import opened Marshalling

  datatype Type =
    | TI32 | TI64 | TDouble | TString
    | TVector(elem: Type) | TList(elem: Type) | TMap(key: Type, value: Type)

  // Scalars are held as the machine holds them. A map is its entries in iteration order.
  datatype Value =
    | I32(i: bv32)
    | I64(l: bv64)
    | Double(d: bv64)
    | String(s: seq<byte>)
    | Vector(elems: seq<Value>)
    | List(elems: seq<Value>)
    | Map(entries: seq<Entry>)

  datatype Entry = Entry(key: Value, value: Value)

  // The comparison of the map's key type.
  type Less = (Value, Value) -> bool

  ghost predicate Asymmetric(less: Less) {
    forall a, b :: less(a, b) ==> !less(b, a)
  }

  ghost predicate Sorted(less: Less, m: seq<Entry>) {
    forall i, j | 0 <= i < j < |m| :: less(m[i].key, m[j].key)
  }

  const LIMIT := 0x8000_0000

  // v is a value of type t whose maps are in order.
  ghost predicate HasType(less: Less, v: Value, t: Type) {
    match t
    case TI32 => v.I32?
    case TI64 => v.I64?
    case TDouble => v.Double?
    case TString => v.String?
    case TVector(e) => v.Vector? && AllOfType(less, v.elems, e)
    case TList(e) => v.List? && AllOfType(less, v.elems, e)
    case TMap(k, e) => v.Map? && Sorted(less, v.entries) && EntriesOfType(less, v.entries, k, e)
  }

  ghost predicate AllOfType(less: Less, es: seq<Value>, t: Type) {
    es == [] || (HasType(less, es[0], t) && AllOfType(less, es[1..], t))
  }

  ghost predicate EntriesOfType(less: Less, es: seq<Entry>, k: Type, t: Type) {
    es == [] || (EntryOfType(less, es[0], k, t) && EntriesOfType(less, es[1..], k, t))
  }

  ghost predicate EntryOfType(less: Less, e: Entry, k: Type, t: Type) {
    HasType(less, e.key, k) && HasType(less, e.value, t)
  }

  // Object representations on a little-endian machine.
  function Bytes32(w: bv32): (b: seq<byte>)
    ensures |b| == 4
  {
    [(w & 0xff) as byte, ((w >> 8) & 0xff) as byte, ((w >> 16) & 0xff) as byte, ((w >> 24) & 0xff) as byte]
  }

  function Word32(b: seq<byte>): bv32
    requires |b| == 4
  {
    (b[0] as bv32) | ((b[1] as bv32) << 8) | ((b[2] as bv32) << 16) | ((b[3] as bv32) << 24)
  }

  function Bytes64(w: bv64): (b: seq<byte>)
    ensures |b| == 8
  {
    Bytes32((w & 0xffffffff) as bv32) + Bytes32((w >> 32) as bv32)
  }

  function Word64(b: seq<byte>): bv64
    requires |b| == 8
  {
    (Word32(b[..4]) as bv64) | ((Word32(b[4..]) as bv64) << 32)
  }

  // The number that bytes write on such a machine.
  function LittleEndian(b: seq<byte>): nat {
    if b == [] then 0 else b[0] as nat + 256 * LittleEndian(b[1..])
  }

  function Number(w: bv32): nat { w as nat }

  function Parity(w: bv32): nat { if w & 1 == 1 then 1 else 0 }

  function LowByte(w: bv32): byte { (w & 0xff) as byte }

  // w, w1, w2, ... are shifted by n bits each.
  predicate Shifts(n: nat, w: bv32, w1: bv32, w2: bv32, w3: bv32, w4: bv32)
    requires n <= 32
  {
    w >> n == w1 && w1 >> n == w2 && w2 >> n == w3 && w3 >> n == w4
  }

  lemma Twice(h: bv32)
    requires h < 0x8000_0000
    ensures Number((h << 1) | 1) == 2 * Number(h) + 1 && Number(h << 1) == 2 * Number(h)
  {
  }

  lemma Halves(w: bv32)
    ensures w >> 1 < 0x8000_0000 && w == if w & 1 == 1 then ((w >> 1) << 1) | 1 else (w >> 1) << 1
  {
  }

  lemma Half(w: bv32)
    ensures Number(w) == 2 * Number(w >> 1) + Parity(w)
  {
    hide Number;
    Halves(w);
    Twice(w >> 1);
  }

  lemma FourBits(w: bv32, w1: bv32, w2: bv32, w3: bv32, w4: bv32)
    requires Shifts(1, w, w1, w2, w3, w4)
    ensures Number(w) == Parity(w) + 2 * Parity(w1) + 4 * Parity(w2) + 8 * Parity(w3) + 16 * Number(w4)
  {
    hide Number, Parity;
    Half(w);
    Half(w1);
    Half(w2);
    Half(w3);
  }

  lemma BytesOfBits(w: bv32, w1: bv32, w2: bv32, w3: bv32, w4: bv32, w5: bv32, w6: bv32, w7: bv32, w8: bv32)
    requires Shifts(1, w, w1, w2, w3, w4) && Shifts(1, w4, w5, w6, w7, w8)
    ensures LowByte(w) as nat == Parity(w) + 2 * Parity(w1) + 4 * Parity(w2) + 8 * Parity(w3) +
      16 * Parity(w4) + 32 * Parity(w5) + 64 * Parity(w6) + 128 * Parity(w7)
  {
    BitsOfByte(LowByte(w));
    SameBits(w, w1, w2, w3, w4, w5, w6, w7, w8);
  }

  lemma BitsOfByte(b: byte)
    ensures b as nat == (if b & 1 != 0 then 1 else 0) + (if b & 2 != 0 then 2 else 0) +
      (if b & 4 != 0 then 4 else 0) + (if b & 8 != 0 then 8 else 0) + (if b & 16 != 0 then 16 else 0) +
      (if b & 32 != 0 then 32 else 0) + (if b & 64 != 0 then 64 else 0) + (if b & 128 != 0 then 128 else 0)
  {
  }

  lemma SameBits(w: bv32, w1: bv32, w2: bv32, w3: bv32, w4: bv32, w5: bv32, w6: bv32, w7: bv32, w8: bv32)
    requires Shifts(1, w, w1, w2, w3, w4) && Shifts(1, w4, w5, w6, w7, w8)
    ensures var b := LowByte(w);
      (b & 1 != 0 <==> w & 1 == 1) && (b & 2 != 0 <==> w1 & 1 == 1) && (b & 4 != 0 <==> w2 & 1 == 1) &&
      (b & 8 != 0 <==> w3 & 1 == 1) && (b & 16 != 0 <==> w4 & 1 == 1) && (b & 32 != 0 <==> w5 & 1 == 1) &&
      (b & 64 != 0 <==> w6 & 1 == 1) && (b & 128 != 0 <==> w7 & 1 == 1)
  {
  }

  lemma EightShifts(w: bv32)
    ensures Shifts(1, w, w >> 1, w >> 2, w >> 3, w >> 4) && Shifts(1, w >> 4, w >> 5, w >> 6, w >> 7, w >> 8)
  {
  }

  lemma LowByteFirst(w: bv32)
    ensures Number(w) == LowByte(w) as nat + 256 * Number(w >> 8)
  {
    hide Number, Parity, LowByte, Shifts;
    EightShifts(w);
    FourBits(w, w >> 1, w >> 2, w >> 3, w >> 4);
    FourBits(w >> 4, w >> 5, w >> 6, w >> 7, w >> 8);
    BytesOfBits(w, w >> 1, w >> 2, w >> 3, w >> 4, w >> 5, w >> 6, w >> 7, w >> 8);
  }

  lemma FourBytes(w: bv32, w1: bv32, w2: bv32, w3: bv32, w4: bv32)
    requires Shifts(8, w, w1, w2, w3, w4)
    ensures Number(w) == LowByte(w) as nat + 256 * (LowByte(w1) as nat) + 0x1_0000 * (LowByte(w2) as nat) +
      0x100_0000 * (LowByte(w3) as nat) + 0x1_0000_0000 * Number(w4)
  {
    hide Number, LowByte;
    LowByteFirst(w);
    LowByteFirst(w1);
    LowByteFirst(w2);
    LowByteFirst(w3);
  }

  lemma ByteShifts(w: bv32)
    ensures Shifts(8, w, w >> 8, w >> 16, w >> 24, 0)
  {
  }

  lemma LittleEndian4(b: seq<byte>)
    requires |b| == 4
    ensures LittleEndian(b) ==
      b[0] as nat + 256 * (b[1] as nat) + 0x1_0000 * (b[2] as nat) + 0x100_0000 * (b[3] as nat)
  {
    hide LittleEndian;
    LittleEndianFrom(b, 0);
    LittleEndianFrom(b, 1);
    LittleEndianFrom(b, 2);
    LittleEndianFrom(b, 3);
    assert b[0..] == b;
  }

  lemma LittleEndianFrom(b: seq<byte>, i: nat)
    requires i < |b|
    ensures LittleEndian(b[i..]) == b[i] as nat + 256 * LittleEndian(b[i + 1..])
    ensures LittleEndian(b[|b|..]) == 0
  {
    assert b[i..][1..] == b[i + 1..];
  }

  lemma BytesAre(w: bv32)
    ensures Bytes32(w) == [LowByte(w), LowByte(w >> 8), LowByte(w >> 16), LowByte(w >> 24)]
  {
  }

  lemma NumberIs(w: bv32)
    ensures Number(w) == w as nat && Number(0) == 0
  {
  }

  // What goes over the wire writes the number, low byte first.
  lemma WireOrder32(w: bv32)
    ensures LittleEndian(Bytes32(w)) == w as nat
  {
    hide Number, LowByte, Shifts, Bytes32, LittleEndian;
    BytesAre(w);
    NumberIs(w);
    ByteShifts(w);
    LittleEndian4(Bytes32(w));
    FourBytes(w, w >> 8, w >> 16, w >> 24, 0);
  }

  lemma {:induction false} LittleEndianConcat(a: seq<byte>, b: seq<byte>)
    ensures LittleEndian(a + b) == LittleEndian(a) + Power256(|a|) * LittleEndian(b)
  {
    if a == [] {
      assert a + b == b;
    } else {
      LittleEndianConcat(a[1..], b);
      assert (a + b)[1..] == a[1..] + b;
      Scaled(256, LittleEndian(a[1..]), Power256(|a| - 1), LittleEndian(b));
    }
  }

  lemma Scaled(k: nat, x: nat, y: nat, z: nat)
    ensures k * (x + y * z) == k * x + (k * y) * z
  {
  }

  function Power256(n: nat): nat {
    if n == 0 then 1 else 256 * Power256(n - 1)
  }

  lemma WireOrder64(w: bv64)
    ensures LittleEndian(Bytes64(w)) == (w & 0xffffffff) as nat + 0x1_0000_0000 * ((w >> 32) as nat)
  {
    var lo, hi := (w & 0xffffffff) as bv32, (w >> 32) as bv32;
    WireOrder32(lo);
    WireOrder32(hi);
    assert lo as nat == (w & 0xffffffff) as nat && hi as nat == (w >> 32) as nat;
    hide Bytes32, LittleEndian;
    LittleEndianConcat(Bytes32(lo), Bytes32(hi));
    assert Power256(4) == 0x1_0000_0000;
  }

  lemma RoundTrip32(w: bv32)
    ensures Word32(Bytes32(w)) == w
  {}

  lemma RoundTrip64(w: bv64)
    ensures Word64(Bytes64(w)) == w
  {
    var lo, hi := (w & 0xffffffff) as bv32, (w >> 32) as bv32;
    RoundTrip32(lo);
    RoundTrip32(hi);
    assert Bytes64(w)[..4] == Bytes32(lo) && Bytes64(w)[4..] == Bytes32(hi);
    hide Word32, Bytes32;
    HalvesOf(w);
  }

  lemma HalvesOf(w: bv64)
    ensures (((w & 0xffffffff) as bv32) as bv64) | ((((w >> 32) as bv32) as bv64) << 32) == w
  {}

  // (i32) v.size()
  function Length(n: nat): (w: bv32)
    requires n < LIMIT
    ensures w as nat == n
  {
    if n == 0 then 0
    else
      var half := Length(n / 2);
      Doubled(half);
      if n % 2 == 1 then (half << 1) | 1 else half << 1
  }

  lemma Doubled(h: bv32)
    requires h < 0x4000_0000
    ensures ((h << 1) | 1) as nat == 2 * (h as nat) + 1 && (h << 1) as nat == 2 * (h as nat)
  {}

  // What << appends.
  function Encode(v: Value): seq<byte>
    requires Small(v)
  {
    match v
    case I32(i) => Bytes32(i)
    case I64(l) => Bytes64(l)
    case Double(d) => Bytes64(d)
    case String(s) => Bytes32(Length(|s|)) + s
    case Vector(es) => Bytes32(Length(|es|)) + EncodeAll(es)
    case List(es) => Bytes32(Length(|es|)) + EncodeAll(es)
    case Map(es) => Bytes32(Length(|es|)) + EncodeEntries(es)
  }

  // No container in v has 2^31 elements.
  predicate Small(v: Value) {
    match v
    case String(s) => |s| < LIMIT
    case Vector(es) => |es| < LIMIT && AllSmall(es)
    case List(es) => |es| < LIMIT && AllSmall(es)
    case Map(es) => |es| < LIMIT && EntriesSmall(es)
    case _ => true
  }

  predicate AllSmall(es: seq<Value>) {
    es == [] || (Small(es[0]) && AllSmall(es[1..]))
  }

  predicate EntriesSmall(es: seq<Entry>) {
    es == [] || (EntrySmall(es[0]) && EntriesSmall(es[1..]))
  }

  predicate EntrySmall(e: Entry) {
    Small(e.key) && Small(e.value)
  }

  function EncodeAll(es: seq<Value>): seq<byte>
    requires AllSmall(es)
  {
    if es == [] then [] else Encode(es[0]) + EncodeAll(es[1..])
  }

  function EncodeEntries(es: seq<Entry>): seq<byte>
    requires EntriesSmall(es)
  {
    if es == [] then [] else EncodeEntry(es[0]) + EncodeEntries(es[1..])
  }

  function EncodeEntry(e: Entry): seq<byte>
    requires EntrySmall(e)
  {
    Encode(e.key) + Encode(e.value)
  }

  // On the wire: a length as a little-endian number, then the bytes of a string, or the elements or
  // entries one after the other, the key of an entry before its value.
  lemma StringOnWire(s: seq<byte>)
    requires |s| < LIMIT
    ensures LittleEndian(Encode(String(s))[..4]) == |s| && Encode(String(s))[4..] == s
  {
    hide LittleEndian, Bytes32, Length;
    WireOrder32(Length(|s|));
    assert Encode(String(s))[..4] == Bytes32(Length(|s|));
  }

  lemma ElementOnWire(es: seq<Value>, i: nat)
    requires AllSmall(es) && i < |es| < LIMIT
    ensures AllSmall(es[..i]) && Small(es[i]) && AllSmall(es[i + 1..])
    ensures var b := EncodeAll(es[..i]) + Encode(es[i]) + EncodeAll(es[i + 1..]);
      && Encode(Vector(es))[4..] == b == Encode(List(es))[4..]
      && LittleEndian(Encode(Vector(es))[..4]) == |es| == LittleEndian(Encode(List(es))[..4])
  {
    hide LittleEndian, Bytes32, Length, EncodeAll, AllSmall;
    var all := Bytes32(Length(|es|)) + EncodeAll(es);
    assert Encode(Vector(es)) == all == Encode(List(es));
    hide Encode;
    LengthOnWire(|es|, EncodeAll(es));
    ElementAt(es, i);
  }

  lemma LengthOnWire(n: nat, body: seq<byte>)
    requires n < LIMIT
    ensures LittleEndian((Bytes32(Length(n)) + body)[..4]) == n && (Bytes32(Length(n)) + body)[4..] == body
  {
    hide LittleEndian, Bytes32, Length;
    WireOrder32(Length(n));
    assert (Bytes32(Length(n)) + body)[..4] == Bytes32(Length(n));
  }

  lemma {:induction false} ElementAt(es: seq<Value>, i: nat)
    requires AllSmall(es) && i < |es|
    ensures AllSmall(es[..i]) && Small(es[i]) && AllSmall(es[i + 1..])
    ensures EncodeAll(es) == EncodeAll(es[..i]) + Encode(es[i]) + EncodeAll(es[i + 1..])
  {
    hide Encode;
    if i == 0 {
      assert es[..0] == [];
    } else {
      ElementAt(es[1..], i - 1);
      assert es[..i][1..] == es[1..][..i - 1] && es[1..][i..] == es[i + 1..];
    }
  }

  lemma {:induction false} EntryAt(es: seq<Entry>, i: nat)
    requires EntriesSmall(es) && i < |es|
    ensures EntriesSmall(es[..i]) && EntrySmall(es[i]) && EntriesSmall(es[i + 1..])
    ensures EncodeEntries(es) ==
      EncodeEntries(es[..i]) + (Encode(es[i].key) + Encode(es[i].value)) + EncodeEntries(es[i + 1..])
  {
    hide Encode;
    if i == 0 {
      assert es[..0] == [];
    } else {
      EntryAt(es[1..], i - 1);
      assert es[..i][1..] == es[1..][..i - 1] && es[1..][i..] == es[i + 1..];
    }
  }

  lemma EntryOnWire(es: seq<Entry>, i: nat)
    requires EntriesSmall(es) && i < |es| < LIMIT
    ensures EntriesSmall(es[..i]) && EntrySmall(es[i]) && EntriesSmall(es[i + 1..])
    ensures LittleEndian(Encode(Map(es))[..4]) == |es|
    ensures Encode(Map(es))[4..] ==
      EncodeEntries(es[..i]) + (Encode(es[i].key) + Encode(es[i].value)) + EncodeEntries(es[i + 1..])
  {
    hide LittleEndian, Bytes32, Length, EncodeEntries, EntriesSmall;
    LengthOnWire(|es|, EncodeEntries(es));
    EntryAt(es, i);
  }

  // What >> does: the value read and the bytes left, or an abort when the bytes run out or a
  // length cannot be allocated.
  datatype Parsed<T> = Aborted | Read(value: T, rest: seq<byte>) {
    predicate IsFailure() { Aborted? }
    function PropagateFailure<U>(): Parsed<U>
      requires Aborted?
    {
      Parsed<U>.Aborted
    }
    function Extract(): (T, seq<byte>)
      requires Read?
    {
      (value, rest)
    }
  }

  function Take(bs: seq<byte>, n: nat): Parsed<seq<byte>> {
    if |bs| < n then Aborted else Read(bs[..n], bs[n..])
  }

  // A negative length.
  predicate Negative(len: bv32) { len >= 0x8000_0000 }

  function Count(len: bv32): nat {
    if Negative(len) then 0 else len as nat
  }

  function Parse(less: Less, t: Type, bs: seq<byte>): Parsed<Value>
    decreases t, 1, 0
  {
    match t
    case TI32 =>
      var (b, rest) :- Take(bs, 4);
      Read(I32(Word32(b)), rest)
    case TI64 =>
      var (b, rest) :- Take(bs, 8);
      Read(I64(Word64(b)), rest)
    case TDouble =>
      var (b, rest) :- Take(bs, 8);
      Read(Double(Word64(b)), rest)
    case TString =>
      var (b, rest) :- Take(bs, 4);
      if Negative(Word32(b)) then Aborted
      else
        var (s, rest2) :- Take(rest, Count(Word32(b)));
        Read(String(s), rest2)
    case TVector(e) =>
      var (b, rest) :- Take(bs, 4);
      if Negative(Word32(b)) then Aborted
      else
        var (es, rest2) :- ParseAll(less, e, Count(Word32(b)), rest);
        Read(Vector(es), rest2)
    case TList(e) =>
      var (b, rest) :- Take(bs, 4);
      var (es, rest2) :- ParseAll(less, e, Count(Word32(b)), rest);
      Read(List(es), rest2)
    case TMap(k, e) =>
      var (b, rest) :- Take(bs, 4);
      var (es, rest2) :- ParseEntries(less, k, e, Count(Word32(b)), [], rest);
      Read(Map(es), rest2)
  }

  function ParseAll(less: Less, t: Type, n: nat, bs: seq<byte>): Parsed<seq<Value>>
    decreases t, 2, n
  {
    if n == 0 then Read([], bs)
    else
      var (v, rest) :- Parse(less, t, bs);
      var (vs, rest2) :- ParseAll(less, t, n - 1, rest);
      Read([v] + vs, rest2)
  }

  function ParseEntries(less: Less, k: Type, t: Type, n: nat, m: seq<Entry>, bs: seq<byte>): Parsed<seq<Entry>>
    decreases TMap(k, t), 0, n
  {
    if n == 0 then Read(m, bs)
    else
      var (key, rest) :- Parse(less, k, bs);
      var (value, rest2) :- Parse(less, t, rest);
      ParseEntries(less, k, t, n - 1, Assign(less, m, key, value), rest2)
  }

  // m[key] = value on an ordered map.
  function Assign(less: Less, m: seq<Entry>, key: Value, value: Value): seq<Entry> {
    if m == [] || less(key, m[0].key) then [Entry(key, value)] + m
    else if less(m[0].key, key) then [m[0]] + Assign(less, m[1..], key, value)
    else [m[0].(value := value)] + m[1..]
  }

  lemma {:induction false} AssignAtEnd(less: Less, m: seq<Entry>, key: Value, value: Value)
    requires Asymmetric(less) && forall i | 0 <= i < |m| :: less(m[i].key, key)
    ensures Assign(less, m, key, value) == m + [Entry(key, value)]
  {
    if m != [] {
      assert less(m[0].key, key);
      AssignAtEnd(less, m[1..], key, value);
      assert m == [m[0]] + m[1..];
    }
  }

  // What an ordered map asks of its comparison.
  ghost predicate StrictWeak(less: Less) {
    Asymmetric(less) && forall a, b, c :: less(a, b) ==> less(a, c) || less(c, b)
  }

  predicate Same(less: Less, a: Value, b: Value) {
    !less(a, b) && !less(b, a)
  }

  function Lookup(less: Less, m: seq<Entry>, key: Value): Option<Value> {
    if m == [] then None else if Same(less, m[0].key, key) then Some(m[0].value) else Lookup(less, m[1..], key)
  }

  lemma Between(less: Less, a: Value, b: Value, c: Value)
    requires StrictWeak(less) && less(a, b)
    ensures less(a, c) || less(c, b)
    ensures less(b, c) ==> less(a, c)
  {
  }

  lemma {:induction false} AssignAbove(less: Less, m: seq<Entry>, b: Value, key: Value, value: Value)
    requires less(b, key) && forall i | 0 <= i < |m| :: less(b, m[i].key)
    ensures forall e | e in Assign(less, m, key, value) :: less(b, e.key)
  {
    if m != [] { AssignAbove(less, m[1..], b, key, value); }
  }

  lemma {:induction false} AssignSorted(less: Less, m: seq<Entry>, key: Value, value: Value)
    requires StrictWeak(less) && Sorted(less, m)
    ensures Sorted(less, Assign(less, m, key, value))
  {
    var m' := Assign(less, m, key, value);
    if m != [] && less(key, m[0].key) {
      forall i | 0 <= i < |m| ensures less(key, m[i].key) {
        if i > 0 { Between(less, key, m[0].key, m[i].key); }
      }
    } else if m != [] && less(m[0].key, key) {
      AssignSorted(less, m[1..], key, value);
      AssignAbove(less, m[1..], m[0].key, key, value);
      assert m' == [m[0]] + Assign(less, m[1..], key, value);
      forall i, j | 0 <= i < j < |m'| ensures less(m'[i].key, m'[j].key) {
        assert m'[j] in Assign(less, m[1..], key, value);
      }
    }
  }

  lemma {:induction false} LookupAbove(less: Less, m: seq<Entry>, key: Value)
    requires forall i | 0 <= i < |m| :: less(key, m[i].key)
    ensures Lookup(less, m, key) == None
  {
    if m != [] { LookupAbove(less, m[1..], key); }
  }

  lemma {:induction false} AssignKeys(less: Less, m: seq<Entry>, key: Value, value: Value)
    requires StrictWeak(less) && Sorted(less, m)
    ensures var m' := Assign(less, m, key, value);
      if Lookup(less, m, key).Some? then |m'| == |m| && forall i | 0 <= i < |m| :: m'[i].key == m[i].key
      else |m'| == |m| + 1
  {
    if m != [] {
      if less(key, m[0].key) {
        forall i | 0 <= i < |m| ensures less(key, m[i].key) {
          if i > 0 { Between(less, key, m[0].key, m[i].key); }
        }
        LookupAbove(less, m, key);
      } else if less(m[0].key, key) {
        AssignKeys(less, m[1..], key, value);
      }
    }
  }

  lemma {:induction false} AssignLookup(less: Less, m: seq<Entry>, key: Value, value: Value, k: Value)
    requires StrictWeak(less)
    ensures Lookup(less, Assign(less, m, key, value), k) ==
      if Same(less, key, k) then Some(value) else Lookup(less, m, k)
  {
    var m' := Assign(less, m, key, value);
    if m == [] || less(key, m[0].key) {
      assert m'[1..] == m;
    } else if less(m[0].key, key) {
      AssignLookup(less, m[1..], key, value, k);
      assert m'[1..] == Assign(less, m[1..], key, value);
      Between(less, m[0].key, key, k);
    } else {
      assert m'[1..] == m[1..];
    }
  }

  // Assignment keeps the order, maps the key to the value, and leaves every other key alone; an
  // equivalent key already there stays.
  lemma AssignIsUpdate(less: Less, m: seq<Entry>, key: Value, value: Value)
    requires StrictWeak(less) && Sorted(less, m)
    ensures var m' := Assign(less, m, key, value);
      && Sorted(less, m')
      && (if Lookup(less, m, key).Some? then |m'| == |m| && forall i | 0 <= i < |m| :: m'[i].key == m[i].key
          else |m'| == |m| + 1)
      && forall k :: Lookup(less, m', k) == if Same(less, key, k) then Some(value) else Lookup(less, m, k)
  {
    AssignSorted(less, m, key, value);
    AssignKeys(less, m, key, value);
    forall k { AssignLookup(less, m, key, value, k); }
  }

  lemma LengthBack(n: nat)
    requires n < LIMIT
    ensures !Negative(Length(n)) && Count(Length(n)) == n
  {
    Signless(Length(n));
  }

  lemma Signless(w: bv32)
    requires w as nat < LIMIT
    ensures w < 0x8000_0000
  {}

  lemma TakeFront(a: seq<byte>, b: seq<byte>)
    ensures Take(a + b, |a|) == Read(a, b)
  {
    assert (a + b)[..|a|] == a && (a + b)[|a|..] == b;
  }

  // Reading what was written gives back the value and leaves the bytes after it alone.
  lemma {:induction false} RoundTrip(less: Less, v: Value, t: Type, rest: seq<byte>)
    requires Asymmetric(less) && HasType(less, v, t) && Small(v)
    ensures Parse(less, t, Encode(v) + rest) == Read(v, rest)
    decreases v, 0
  {
    hide Word32, Word64, Bytes32, Bytes64, Length, Count, Negative, Take;
    match v
    case I32(i) =>
      TakeFront(Bytes32(i), rest);
      RoundTrip32(i);
    case I64(l) =>
      TakeFront(Bytes64(l), rest);
      RoundTrip64(l);
    case Double(d) =>
      TakeFront(Bytes64(d), rest);
      RoundTrip64(d);
    case String(s) =>
      LengthFirst(|s|, s, rest);
      TakeFront(s, rest);
    case Vector(es) =>
      LengthFirst(|es|, EncodeAll(es), rest);
      RoundTripAll(less, es, t.elem, rest);
    case List(es) =>
      LengthFirst(|es|, EncodeAll(es), rest);
      RoundTripAll(less, es, t.elem, rest);
    case Map(es) =>
      LengthFirst(|es|, EncodeEntries(es), rest);
      RoundTripEntries(less, [], es, t.key, t.value, rest);
      assert [] + es == es;
  }

  lemma LengthFirst(n: nat, body: seq<byte>, rest: seq<byte>)
    requires n < LIMIT
    ensures Take((Bytes32(Length(n)) + body) + rest, 4) == Read(Bytes32(Length(n)), body + rest)
    ensures Word32(Bytes32(Length(n))) == Length(n) && !Negative(Length(n)) && Count(Length(n)) == n
  {
    hide Word32, Bytes32, Length, Count, Negative, Take;
    RoundTrip32(Length(n));
    LengthBack(n);
    TakeFront(Bytes32(Length(n)), body + rest);
    Assoc(Bytes32(Length(n)), body, rest);
  }

  lemma {:induction false} RoundTripAll(less: Less, es: seq<Value>, t: Type, rest: seq<byte>)
    requires Asymmetric(less) && AllOfType(less, es, t) && AllSmall(es)
    ensures ParseAll(less, t, |es|, EncodeAll(es) + rest) == Read(es, rest)
    decreases es, 1
  {
    hide Parse, Encode, HasType;
    if es == [] {
      assert EncodeAll(es) + rest == rest;
    } else {
      RoundTrip(less, es[0], t, EncodeAll(es[1..]) + rest);
      RoundTripAll(less, es[1..], t, rest);
      Assoc(Encode(es[0]), EncodeAll(es[1..]), rest);
      assert es == [es[0]] + es[1..];
    }
  }

  lemma {:induction false} RoundTripEntry(less: Less, e: Entry, k: Type, t: Type, rest: seq<byte>)
    requires Asymmetric(less) && EntryOfType(less, e, k, t) && EntrySmall(e)
    ensures Parse(less, k, EncodeEntry(e) + rest) == Read(e.key, Encode(e.value) + rest)
    ensures Parse(less, t, Encode(e.value) + rest) == Read(e.value, rest)
    decreases e, 1
  {
    RoundTrip(less, e.key, k, Encode(e.value) + rest);
    RoundTrip(less, e.value, t, rest);
    Assoc(Encode(e.key), Encode(e.value), rest);
  }

  // Entries arrive in key order, so each is added behind those already read.
  lemma {:induction false} RoundTripEntries(less: Less, m: seq<Entry>, es: seq<Entry>, k: Type, t: Type,
                                            rest: seq<byte>)
    requires Asymmetric(less) && Sorted(less, m + es) && EntriesOfType(less, es, k, t) && EntriesSmall(es)
    ensures ParseEntries(less, k, t, |es|, m, EncodeEntries(es) + rest) == Read(m + es, rest)
    decreases es, 1
  {
    hide Parse, Encode, EncodeEntry, Assign, HasType;
    if es == [] {
      assert EncodeEntries(es) + rest == rest && m + es == m;
    } else {
      var e, tail := es[0], es[1..];
      RoundTripEntry(less, e, k, t, EncodeEntries(tail) + rest);
      Assoc(EncodeEntry(e), EncodeEntries(tail), rest);
      forall i | 0 <= i < |m|
        ensures less(m[i].key, e.key)
      {
        assert (m + es)[i] == m[i] && (m + es)[|m|] == e;
      }
      AssignAtEnd(less, m, e.key, e.value);
      assert (m + [e]) + tail == m + es;
      RoundTripEntries(less, m + [e], tail, k, t, rest);
    }
  }

  // operator <<
  method Put(m: Marshal, v: Value)
    requires m.Valid() && Small(v)
    modifies m, m.repr
    ensures m.Valid() && fresh(m.repr - old(m.repr))
    ensures m.Contents() == old(m.Contents()) + Encode(v)
    decreases v, 0
  {
    hide Marshal.Contents, Chain, Linked, Bytes32, Bytes64, Length;
    match v
    case I32(i) =>
      var n := m.Write(Bytes32(i));
    case I64(l) =>
      var n := m.Write(Bytes64(l));
    case Double(d) =>
      var n := m.Write(Bytes64(d));
    case String(s) =>
      PutLength(m, |s|);
      if |s| > 0 {
        Assoc(old(m.Contents()), Bytes32(Length(|s|)), s);
        var n := m.Write(s);
      }
    case Vector(es) =>
      PutLength(m, |es|);
      Assoc(old(m.Contents()), Bytes32(Length(|es|)), EncodeAll(es));
      PutAll(m, es);
    case List(es) =>
      PutLength(m, |es|);
      Assoc(old(m.Contents()), Bytes32(Length(|es|)), EncodeAll(es));
      PutAll(m, es);
    case Map(es) =>
      PutLength(m, |es|);
      Assoc(old(m.Contents()), Bytes32(Length(|es|)), EncodeEntries(es));
      PutEntries(m, es);
  }

  method PutLength(m: Marshal, n: nat)
    requires m.Valid() && n < LIMIT
    modifies m, m.repr
    ensures m.Valid() && fresh(m.repr - old(m.repr))
    ensures m.Contents() == old(m.Contents()) + Bytes32(Length(n))
  {
    var k := m.Write(Bytes32(Length(n)));
  }

  // The elements of a container, in iteration order.
  method PutAll(m: Marshal, es: seq<Value>)
    requires m.Valid() && AllSmall(es)
    modifies m, m.repr
    ensures m.Valid() && fresh(m.repr - old(m.repr))
    ensures m.Contents() == old(m.Contents()) + EncodeAll(es)
    decreases es, 1
  {
    hide Marshal.Contents, Chain, Linked, Encode;
    for i := 0 to |es|
      invariant m.Valid() && fresh(m.repr - old(m.repr)) && AllSmall(es[i..])
      invariant m.Contents() + EncodeAll(es[i..]) == old(m.Contents()) + EncodeAll(es)
    {
      assert es[i..][0] == es[i] && es[i..][1..] == es[i + 1..];
      ghost var before := m.Contents();
      Put(m, es[i]);
      Assoc(before, Encode(es[i]), EncodeAll(es[i + 1..]));
    }
  }

  method PutEntries(m: Marshal, es: seq<Entry>)
    requires m.Valid() && EntriesSmall(es)
    modifies m, m.repr
    ensures m.Valid() && fresh(m.repr - old(m.repr))
    ensures m.Contents() == old(m.Contents()) + EncodeEntries(es)
    decreases es, 1
  {
    hide Marshal.Contents, Chain, Linked, EncodeEntry;
    for i := 0 to |es|
      invariant m.Valid() && fresh(m.repr - old(m.repr)) && EntriesSmall(es[i..])
      invariant m.Contents() + EncodeEntries(es[i..]) == old(m.Contents()) + EncodeEntries(es)
    {
      assert es[i..][0] == es[i] && es[i..][1..] == es[i + 1..];
      ghost var before := m.Contents();
      PutEntry(m, es[i]);
      Assoc(before, EncodeEntry(es[i]), EncodeEntries(es[i + 1..]));
    }
  }

  method PutEntry(m: Marshal, e: Entry)
    requires m.Valid() && EntrySmall(e)
    modifies m, m.repr
    ensures m.Valid() && fresh(m.repr - old(m.repr))
    ensures m.Contents() == old(m.Contents()) + EncodeEntry(e)
    decreases e, 1
  {
    hide Marshal.Contents, Chain, Linked, Encode;
    Put(m, e.key);
    Put(m, e.value);
    Assoc(old(m.Contents()), Encode(e.key), Encode(e.value));
  }

  // What a method that reads from m returns and leaves, against what the bytes say.
  ghost predicate Agrees<T>(p: Parsed<T>, r: Option<T>, rest: seq<byte>) {
    match p
    case Aborted => r.None?
    case Read(v, left) => r == Some(v) && rest == left
  }

  // verify(m.read(&v, n) == n)
  method GetBytes(m: Marshal, n: nat) returns (r: Option<seq<byte>>)
    requires m.Valid()
    modifies m`chunk, m.repr
    ensures m.Valid() && m.repr == old(m.repr)
    ensures Agrees(Take(old(m.Contents()), n), r, m.Contents())
    ensures r.Some? ==> |r.value| == n
  {
    hide Marshal.Contents, Chain, Linked;
    var buf := new byte[n];
    var k := m.Read(buf, n);
    r := if k == n then Some(buf[..n]) else None;
  }

  // operator >>; None stands for the process aborting.
  method Get(m: Marshal, less: Less, t: Type) returns (r: Option<Value>)
    requires m.Valid()
    modifies m`chunk, m.repr
    ensures m.Valid() && m.repr == old(m.repr)
    ensures Agrees(Parse(less, t, old(m.Contents())), r, m.Contents())
    decreases t, 1, 0
  {
    hide Marshal.Contents, Chain, Linked, Take, Word32, Word64, Count, Negative;
    var b := GetBytes(m, if t.TI64? || t.TDouble? then 8 else 4);
    if b.None? {
      return None;
    }
    match t
    case TI32 =>
      r := Some(I32(Word32(b.value)));
    case TI64 =>
      r := Some(I64(Word64(b.value)));
    case TDouble =>
      r := Some(Double(Word64(b.value)));
    case TString =>
      var len := Word32(b.value);
      if Negative(len) {
        return None;
      }
      var s := GetBytes(m, Count(len));
      r := if s.Some? then Some(String(s.value)) else None;
    case TVector(e) =>
      var len := Word32(b.value);
      if Negative(len) {
        return None;
      }
      var es := GetAll(m, less, e, Count(len));
      r := if es.Some? then Some(Vector(es.value)) else None;
    case TList(e) =>
      var es := GetAll(m, less, e, Count(Word32(b.value)));
      r := if es.Some? then Some(List(es.value)) else None;
    case TMap(k, e) =>
      var es := GetEntries(m, less, k, e, Count(Word32(b.value)));
      r := if es.Some? then Some(Map(es.value)) else None;
  }

  function Prefixed(acc: seq<Value>, p: Parsed<seq<Value>>): Parsed<seq<Value>> {
    match p
    case Aborted => Aborted
    case Read(vs, rest) => Read(acc + vs, rest)
  }

  lemma PrefixedNone(p: Parsed<seq<Value>>)
    ensures Prefixed([], p) == p
  {
    if p.Read? {
      assert [] + p.value == p.value;
    }
  }

  lemma PrefixedOne(acc: seq<Value>, v: Value, p: Parsed<seq<Value>>)
    requires p.Read?
    ensures Prefixed(acc + [v], p) == Read(acc + ([v] + p.value), p.rest)
  {
    Assoc(acc, [v], p.value);
  }

  method GetAll(m: Marshal, less: Less, t: Type, n: nat) returns (r: Option<seq<Value>>)
    requires m.Valid()
    modifies m`chunk, m.repr
    ensures m.Valid() && m.repr == old(m.repr)
    ensures Agrees(ParseAll(less, t, n, old(m.Contents())), r, m.Contents())
    decreases t, 2, n
  {
    hide Marshal.Contents, Chain, Linked, Parse;
    var acc := [];
    PrefixedNone(ParseAll(less, t, n, m.Contents()));
    for i := 0 to n
      invariant m.Valid() && m.repr == old(m.repr)
      invariant ParseAll(less, t, n, old(m.Contents())) == Prefixed(acc, ParseAll(less, t, n - i, m.Contents()))
    {
      var v := Get(m, less, t);
      if v.None? {
        return None;
      }
      ghost var p := ParseAll(less, t, n - i - 1, m.Contents());
      if p.Read? {
        PrefixedOne(acc, v.value, p);
      }
      acc := acc + [v.value];
    }
    assert acc + [] == acc;
    r := Some(acc);
  }

  method GetEntries(m: Marshal, less: Less, k: Type, t: Type, n: nat) returns (r: Option<seq<Entry>>)
    requires m.Valid()
    modifies m`chunk, m.repr
    ensures m.Valid() && m.repr == old(m.repr)
    ensures Agrees(ParseEntries(less, k, t, n, [], old(m.Contents())), r, m.Contents())
    decreases TMap(k, t), 0, n
  {
    hide Marshal.Contents, Chain, Linked, Parse;
    var acc := [];
    for i := 0 to n
      invariant m.Valid() && m.repr == old(m.repr)
      invariant ParseEntries(less, k, t, n, [], old(m.Contents())) == ParseEntries(less, k, t, n - i, acc, m.Contents())
    {
      var key := Get(m, less, k);
      if key.None? {
        return None;
      }
      var value := Get(m, less, t);
      if value.None? {
        return None;
      }
      acc := Assign(less, acc, key.value, value.value);
    }
    r := Some(acc);
  }

  // A value put into a queue comes out again once what was there is read off, whatever else the
  // queue holds behind it.
  method PutThenGet(m: Marshal, less: Less, v: Value, t: Type, more: seq<byte>)
    returns (first: Option<seq<byte>>, r: Option<Value>)
    requires m.Valid() && Asymmetric(less) && HasType(less, v, t) && Small(v)
    modifies m, m.repr
    ensures first == Some(old(m.Contents())) && r == Some(v) && m.Valid() && m.Contents() == more
  {
    hide Marshal.Contents, Chain, Linked, Encode, Parse;
    var size := m.ContentSize();
    ghost var before := m.Contents();
    Put(m, v);
    if |more| > 0 {
      var n := m.Write(more);
    }
    assert m.Contents() == before + (Encode(v) + more);
    TakeFront(before, Encode(v) + more);
    first := GetBytes(m, size);
    assert m.Contents() == Encode(v) + more;
    RoundTrip(less, v, t, more);
    r := Get(m, less, t);
  }
}
