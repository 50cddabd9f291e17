// The choice of a forward key from a client's answer to the challenge, as in vncproxy.cc and
// section 7.2.2 of RFC 6143.
module VncAuth {
  import opened Bits
  import opened Common
  import opened D3Des
  import opened D3DesCorrect
  import Fips46

  // A row of the forwarding table; the key is a C string.
  datatype Row = Row(key: seq<byte>, dest: string, passwd: Option<string>)

  class AuthInfo {
    const challenge: array<byte>
    const response: array<byte>
    var matched: bool
    var forwardKey: seq<byte>
    var destAddr: string
    var destPasswd: Option<string>

    constructor (challenge: array<byte>, response: array<byte>)
      ensures this.challenge == challenge && this.response == response && !matched
    {
      this.challenge, this.response := challenge, response;
      matched, forwardKey, destAddr, destPasswd := false, [], "", None;
    }

    ghost predicate Holds(row: Row)
      reads this
    {
      forwardKey == row.key && destAddr == row.dest && destPasswd == row.passwd
    }
  }

  // The key in eight bytes, zeros behind it.
  function Padded(key: seq<byte>): (r: seq<byte>)
    requires |key| <= 8
    ensures |r| == 8 && r[..|key|] == key && forall j :: |key| <= j < 8 ==> r[j] == 0
  {
    key + seq(8 - |key|, i => 0)
  }

  // What a client that knows the key answers.
  function Answer(key: seq<byte>, challenge: seq<byte>): (r: seq<byte>)
    requires |key| <= 8 && |challenge| == 16 && TABLES.Valid()
    ensures |r| == 16
  {
    var kn := KeyRegister(TABLES, Padded(key), EN0);
    DesBytes(TABLES, kn, challenge[..8]) + DesBytes(TABLES, kn, challenge[8..])
  }

  method Equal(a: array<byte>, b: array<byte>) returns (same: bool)
    requires a.Length == b.Length
    ensures same == (a[..] == b[..])
  {
    for i := 0 to a.Length
      invariant a[..i] == b[..i]
    {
      if a[i] != b[i] { return false; }
    }
    return true;
  }

  // What the callback computes before it compares.
  method Expect(engine: Engine, key: seq<byte>, challenge: array<byte>) returns (expected: array<byte>)
    requires engine.Valid() && engine.t == TABLES && challenge.Length == 16 && |key| <= 8
    modifies engine.KnL
    ensures fresh(expected) && expected.Length == 16 && expected[..] == Answer(key, challenge[..])
  {
    hide TABLES, KeyRegister, DesBytes;
    var authKey := new byte[8](i => 0);
    for i := 0 to |key|
      invariant authKey[..] == key[..i] + seq(8 - i, j => 0)
    {
      authKey[i] := key[i];
    }
    assert authKey[..] == Padded(key);
    engine.DesKey(authKey, EN0);
    expected := new byte[16];
    engine.Des(challenge, 0, expected, 0);
    ghost var first := expected[0..8];
    engine.Des(challenge, 8, expected, 8);
    assert expected[..] == first + expected[8..16];
    assert challenge[..][..8] == challenge[0..8] && challenge[..][8..] == challenge[8..16];
  }

  method Callback(engine: Engine, info: AuthInfo, row: Row)
    requires engine.Valid() && engine.t == TABLES
    requires info.challenge.Length == 16 == info.response.Length && |row.key| <= 8
    modifies engine.KnL, info`matched, info`forwardKey, info`destAddr, info`destPasswd
    ensures old(info.matched) ==> unchanged(info)
    ensures info.matched <==> old(info.matched) || info.response[..] == Answer(row.key, info.challenge[..])
    ensures info.matched && !old(info.matched) ==> info.Holds(row)
  {
    hide TABLES, Answer, KeyRegister;
    if info.matched { return; }
    var expected := Expect(engine, row.key, info.challenge);
    var same := Equal(info.response, expected);
    if same {
      info.matched, info.forwardKey, info.destAddr, info.destPasswd := true, row.key, row.dest, row.passwd;
    }
  }

  predicate Fits(rows: seq<Row>) {
    forall i :: 0 <= i < |rows| ==> |rows[i].key| <= 8
  }

  // The callback over the rows of the table, in the order the query returns them: the first row
  // with the right answer is chosen, and none if there is no such row.
  method Choose(engine: Engine, info: AuthInfo, rows: seq<Row>) returns (ghost at: nat)
    requires engine.Valid() && engine.t == TABLES && Fits(rows)
    requires info.challenge.Length == 16 == info.response.Length && !info.matched
    modifies engine.KnL, info`matched, info`forwardKey, info`destAddr, info`destPasswd
    ensures at <= |rows| && (info.matched <==> at < |rows|)
    ensures forall i :: 0 <= i < at ==> info.response[..] != Answer(rows[i].key, info.challenge[..])
    ensures at < |rows| ==>
      info.response[..] == Answer(rows[at].key, info.challenge[..]) && info.Holds(rows[at])
  {
    hide TABLES, Answer;
    at := |rows|;
    for i := 0 to |rows|
      invariant if at < i
                then info.matched && info.Holds(rows[at]) &&
                     info.response[..] == Answer(rows[at].key, info.challenge[..])
                else !info.matched && at == |rows|
      invariant forall k :: 0 <= k < i && k < at ==> info.response[..] != Answer(rows[k].key, info.challenge[..])
    {
      Callback(engine, info, rows[i]);
      if info.matched && at == |rows| { at := i; }
    }
  }

  // The right answer, as the standards say it: both halves of the challenge enciphered under the
  // bits of the key, each byte's reversed and zeros behind them; that is, the key deciphers the
  // answer to the challenge.
  lemma AnswerIsFips(key: seq<byte>, challenge: seq<byte>, response: seq<byte>, k: BitString)
    requires |key| <= 8 && |challenge| == 16 == |response| && TABLES.Valid() && |k| == 64
    requires forall i :: 0 <= i < 64 ==> k[i] == if i / 8 < |key| then ByteBit(key[i / 8], 7 - i % 8) else 0
    ensures response == Answer(key, challenge) <==>
        BitsOf(response[..8]) == Fips46.Encipher(k, BitsOf(challenge[..8])) &&
        BitsOf(response[8..]) == Fips46.Encipher(k, BitsOf(challenge[8..]))
  {
    hide TABLES, Answer, DesBytes, KeyRegister, BitsOf, Fips46.Encipher, Padded, ByteBit;
    var key8 := Padded(key);
    var kn := KeyRegister(TABLES, key8, EN0);
    var x, y := DesBytes(TABLES, kn, challenge[..8]), DesBytes(TABLES, kn, challenge[8..]);
    PaddedBits(key, k);
    AnswerHalves(key, challenge);
    assert response == response[..8] + response[8..];
    EngineRefinesFips(key8, EN0, challenge[..8], k);
    EngineRefinesFips(key8, EN0, challenge[8..], k);
    if BitsOf(response[..8]) == BitsOf(x) && BitsOf(response[8..]) == BitsOf(y) {
      BitsDetermineBytes(response[..8], x);
      BitsDetermineBytes(response[8..], y);
    }
  }

  lemma PaddedBits(key: seq<byte>, k: BitString)
    requires |key| <= 8 && |k| == 64
    requires forall i :: 0 <= i < 64 ==> k[i] == if i / 8 < |key| then ByteBit(key[i / 8], 7 - i % 8) else 0
    ensures forall i :: 0 <= i < 64 ==> k[i] == ByteBit(Padded(key)[i / 8], 7 - i % 8)
  {
    forall t | 0 <= t < 8 ensures ByteBit(0, t) == 0 {
    }
    hide ByteBit;
  }

  lemma AnswerHalves(key: seq<byte>, challenge: seq<byte>)
    requires |key| <= 8 && |challenge| == 16 && TABLES.Valid()
    ensures var kn := KeyRegister(TABLES, Padded(key), EN0); var a := Answer(key, challenge);
      a[..8] == DesBytes(TABLES, kn, challenge[..8]) && a[8..] == DesBytes(TABLES, kn, challenge[8..]) &&
      a == a[..8] + a[8..]
  {
    hide TABLES, KeyRegister, DesBytes, Padded;
  }

  lemma AnswerDeciphers(key: seq<byte>, challenge: seq<byte>, response: seq<byte>)
    requires |key| <= 8 && |challenge| == 16 == |response| && TABLES.Valid()
    ensures var d := KeyRegister(TABLES, Padded(key), DE1);
      response == Answer(key, challenge) <==>
        DesBytes(TABLES, d, response[..8]) + DesBytes(TABLES, d, response[8..]) == challenge
  {
    hide TABLES, DesBytes, KeyRegister, Padded;
    DecipheringInverts(Padded(key), challenge[..8]);
    DecipheringInverts(Padded(key), challenge[8..]);
    DecipheringInverts(Padded(key), response[..8]);
    DecipheringInverts(Padded(key), response[8..]);
    var d := KeyRegister(TABLES, Padded(key), DE1);
    assert response == response[..8] + response[8..];
    var x, y := DesBytes(TABLES, d, response[..8]), DesBytes(TABLES, d, response[8..]);
    assert (x + y)[..8] == x && (x + y)[8..] == y;
    assert challenge == challenge[..8] + challenge[8..];
  }

  // Keys that differ only in the high bits of their characters cannot be told apart: of two such
  // rows the first is chosen.
  lemma HighBitsDoNotDistinguish(key: seq<byte>, other: seq<byte>, challenge: seq<byte>)
    requires |key| == |other| <= 8 && |challenge| == 16 && TABLES.Valid()
    requires forall j :: 0 <= j < |key| ==> key[j] & 0x7f == other[j] & 0x7f
    ensures Answer(key, challenge) == Answer(other, challenge)
  {
    hide TABLES, DesBytes, KeyRegister;
    forall j | 0 <= j < 8 ensures Padded(key)[j] & 0x7f == Padded(other)[j] & 0x7f {
    }
    HighBitsIgnored(Padded(key), Padded(other), EN0);
  }
}
