// The chunked byte queue of marshal.h and marshal.cc.
module Marshalling {
  import opened Bits

  const MIN_SIZE := 8192

  function Max(a: int, b: int): int { if a < b then b else a }
  function Min(a: int, b: int): int { if a < b then a else b }

  method Memcpy(dst: array<byte>, at: nat, src: seq<byte>)
    requires at + |src| <= dst.Length
    modifies dst
    ensures dst[..at] == old(dst[..at]) && dst[at..at + |src|] == src && dst[at + |src|..] == old(dst[at + |src|..])
  {
    for i := 0 to |src|
      invariant dst[..at] == old(dst[..at]) && dst[at..at + i] == src[..i] && dst[at + i..] == old(dst[at + i..])
    {
      dst[at + i] := src[i];
    }
  }

  // A file descriptor in nonblocking mode: a finite source of bytes and a sink. A call may
  // move any legal number of bytes, none, or fail. A prompt one moves some whenever it can: it
  // yields what has arrived, and takes bytes as long as it has room.
  class Fd {
    const prompt: bool
    var incoming: seq<byte>
    var received: seq<byte>
    var sent: seq<byte>
    var room: nat
    // What each call moved that was asked to move something.
    var readLog: seq<nat>
    var writeLog: seq<nat>

    constructor (incoming: seq<byte>, prompt: bool, room: nat)
      ensures this.incoming == incoming && this.prompt == prompt && this.room == room
      ensures received == [] && sent == [] && readLog == [] && writeLog == []
    {
      this.incoming, this.prompt, this.room := incoming, prompt, room;
      received, sent, readLog, writeLog := [], [], [], [];
    }

    // There were read() calls, and the last of them moved nothing.
    twostate predicate RanDry()
      reads this`readLog
    {
      old(readLog) < readLog && readLog[|readLog| - 1] == 0
    }

    // There were write() calls, and the last of them moved nothing.
    twostate predicate Refused()
      reads this`writeLog
    {
      old(writeLog) < writeLog && writeLog[|writeLog| - 1] == 0
    }

    method Read(buf: array<byte>, at: nat, count: nat) returns (r: int)
      requires at + count <= buf.Length
      modifies this`incoming, this`received, this`readLog, buf
      ensures -1 <= r <= count
      ensures r <= |old(incoming)| && (prompt && count > 0 && old(incoming) != [] ==> r > 0)
      ensures incoming == old(incoming)[Max(r, 0)..] && received == old(received) + old(incoming)[..Max(r, 0)]
      ensures buf[..at] == old(buf[..at]) && buf[at..at + Max(r, 0)] == old(incoming)[..Max(r, 0)]
      ensures readLog == old(readLog) + if count > 0 then [Max(r, 0)] else []
    {
      r :| -1 <= r <= count && r <= |incoming| && (prompt && count > 0 && incoming != [] ==> r > 0);
      if r > 0 {
        Memcpy(buf, at, incoming[..r]);
        received, incoming := received + incoming[..r], incoming[r..];
      }
      if count > 0 { readLog := readLog + [Max(r, 0)]; }
    }

    method Write(buf: array<byte>, at: nat, count: nat) returns (r: int)
      requires at + count <= buf.Length
      modifies this`sent, this`writeLog, this`room
      ensures -1 <= r <= count && (prompt && count > 0 && old(room) > 0 ==> r > 0)
      ensures sent == old(sent) + (if r > 0 then buf[at..at + r] else [])
      ensures writeLog == old(writeLog) + if count > 0 then [Max(r, 0)] else []
      ensures prompt ==> r <= old(room) && room == old(room) - Max(r, 0)
    {
      var most: int := if prompt then Min(count, room) else count;
      r :| -1 <= r <= most && (prompt && most > 0 ==> r > 0);
      if r > 0 {
        sent := sent + buf[at..at + r];
      }
      if count > 0 { writeLog := writeLog + [Max(r, 0)]; }
      room := Max(room - Max(r, 0), 0);
    }
  }

  class Chunk {
    const data: array<byte>
    var readIdx: nat
    var writeIdx: nat

    ghost predicate Valid()
      reads this
    {
      readIdx <= writeIdx <= data.Length
    }

    ghost function Content(): (s: seq<byte>)
      requires Valid()
      reads this, data
      ensures |s| == writeIdx - readIdx
    {
      data[readIdx..writeIdx]
    }

    constructor (size: nat)
      ensures Valid() && fresh(data) && readIdx == 0 == writeIdx
      ensures data.Length == Max(MIN_SIZE, size)
    {
      data := new byte[Max(MIN_SIZE, size)];
      readIdx, writeIdx := 0, 0;
    }

    constructor Copy(p: seq<byte>)
      ensures Valid() && fresh(data) && readIdx == 0 && Content() == p
      ensures data.Length == Max(MIN_SIZE, |p|)
    {
      var buf := new byte[Max(MIN_SIZE, |p|)];
      Memcpy(buf, 0, p);
      data := buf;
      readIdx, writeIdx := 0, |p|;
    }

    function ContentSize(): int
      reads this
    {
      writeIdx - readIdx
    }

    // It is not possible to write to the chunk any more.
    predicate FullyWritten()
      reads this
    {
      writeIdx == data.Length
    }

    // It is not possible to read from the chunk any more, even after another write.
    predicate FullyRead()
      reads this
    {
      readIdx == data.Length
    }

    method SetBookmark() returns (p: nat)
      requires Valid() && !FullyWritten()
      modifies this`writeIdx
      ensures Valid() && p == old(writeIdx) && writeIdx == p + 1
    {
      p := writeIdx;
      writeIdx := writeIdx + 1;
    }

    method Write(p: seq<byte>) returns (n: nat)
      requires Valid()
      modifies this`writeIdx, data
      ensures Valid() && n == Min(|p|, data.Length - old(writeIdx)) && writeIdx == old(writeIdx) + n
      ensures Content() == old(Content()) + p[..n]
    {
      n := Min(|p|, data.Length - writeIdx);
      Memcpy(data, writeIdx, p[..n]);
      assert data[readIdx..writeIdx] == data[..writeIdx][readIdx..];
      writeIdx := writeIdx + n;
      assert data[readIdx..writeIdx] == data[readIdx..old(writeIdx)] + data[old(writeIdx)..writeIdx];
    }

    method Read(p: array<byte>, at: nat, n: nat) returns (r: nat)
      requires Valid() && at + n <= p.Length && p != data
      modifies this`readIdx, p
      ensures Valid() && r == Min(n, |old(Content())|)
      ensures Content() == old(Content())[r..] && readIdx == old(readIdx) + r
      ensures p[..at] == old(p[..at]) && p[at..at + r] == old(Content())[..r] && p[at + r..] == old(p[at + r..])
    {
      r := Peek(p, at, n);
      readIdx := readIdx + r;
    }

    method Peek(p: array<byte>, at: nat, n: nat) returns (r: nat)
      requires Valid() && at + n <= p.Length && p != data
      modifies p
      ensures r == Min(n, |Content()|)
      ensures Valid() && Content() == old(Content())
      ensures p[..at] == old(p[..at]) && p[at..at + r] == Content()[..r] && p[at + r..] == old(p[at + r..])
    {
      r := Min(n, writeIdx - readIdx);
      Memcpy(p, at, data[readIdx..readIdx + r]);
      assert data[readIdx..readIdx + r] == Content()[..r];
    }

    method WriteToFd(fd: Fd) returns (r: int)
      requires Valid()
      modifies this`readIdx, fd`sent, fd`writeLog, fd`room
      ensures Valid() && -1 <= r <= |old(Content())|
      ensures readIdx == old(readIdx) + Max(r, 0)
      ensures Content() == old(Content())[Max(r, 0)..]
      ensures fd.sent == old(fd.sent) + old(Content())[..Max(r, 0)]
      ensures fd.writeLog == old(fd.writeLog) + if old(Content()) != [] then [Max(r, 0)] else []
      ensures fd.prompt ==> (old(Content()) != [] && old(fd.room) > 0 ==> r > 0)
      ensures fd.prompt ==> r <= old(fd.room) && fd.room == old(fd.room) - Max(r, 0)
    {
      r := fd.Write(data, readIdx, writeIdx - readIdx);
      if r > 0 {
        readIdx := readIdx + r;
      }
    }

    method ReadFromFd(fd: Fd) returns (r: int)
      requires Valid()
      modifies this`writeIdx, data, fd`incoming, fd`received, fd`readLog
      ensures Valid() && -1 <= r <= data.Length - old(writeIdx) && r <= |old(fd.incoming)|
      ensures writeIdx == old(writeIdx) + Max(r, 0)
      ensures Content() == old(Content()) + old(fd.incoming)[..Max(r, 0)]
      ensures fd.received == old(fd.received) + old(fd.incoming)[..Max(r, 0)]
      ensures fd.incoming == old(fd.incoming)[Max(r, 0)..]
      ensures fd.readLog == old(fd.readLog) + if old(writeIdx) < data.Length then [Max(r, 0)] else []
      ensures fd.prompt && old(writeIdx) < data.Length && old(fd.incoming) != [] ==> r > 0
    {
      r := fd.Read(data, writeIdx, data.Length - writeIdx);
      if r > 0 {
        writeIdx := writeIdx + r;
      }
    }

    method ReadFromChunk(chnk: Chunk, n: nat) returns (r: nat)
      requires Valid() && chnk.Valid() && this != chnk && data != chnk.data
      modifies this`writeIdx, data, chnk`readIdx
      ensures Valid() && chnk.Valid()
      ensures r == Min(Min(data.Length - old(writeIdx), |old(chnk.Content())|), n)
      ensures writeIdx == old(writeIdx) + r && chnk.readIdx == old(chnk.readIdx) + r
      ensures Content() == old(Content()) + old(chnk.Content())[..r]
      ensures chnk.Content() == old(chnk.Content())[r..]
    {
      var writableSize := data.Length - writeIdx;
      var readableSize := chnk.writeIdx - chnk.readIdx;
      r := Min(Min(writableSize, readableSize), n);
      assert chnk.Content()[..r] == chnk.data[chnk.readIdx..chnk.readIdx + r];
      Memcpy(data, writeIdx, chnk.data[chnk.readIdx..chnk.readIdx + r]);
      assert data[readIdx..writeIdx] == data[..writeIdx][readIdx..];
      writeIdx := writeIdx + r;
      chnk.readIdx := chnk.readIdx + r;
      assert data[readIdx..writeIdx] == data[readIdx..old(writeIdx)] + data[old(writeIdx)..writeIdx];
    }
  }

  function Join(parts: seq<seq<byte>>): seq<byte> {
    if parts == [] then [] else parts[0] + Join(parts[1..])
  }

  lemma {:induction false} JoinConcat(a: seq<seq<byte>>, b: seq<seq<byte>>)
    ensures Join(a + b) == Join(a) + Join(b)
  {
    if a == [] {
      assert a + b == b;
    } else {
      assert (a + b)[1..] == a[1..] + b;
      JoinConcat(a[1..], b);
      assert Join(a + b) == a[0] + (Join(a[1..]) + Join(b));
    }
  }

  lemma {:induction false} JoinLengths(a: seq<seq<byte>>, b: seq<seq<byte>>)
    requires |a| == |b| && forall i | 0 <= i < |a| :: |a[i]| == |b[i]|
    ensures |Join(a)| == |Join(b)|
  {
    if a != [] {
      JoinLengths(a[1..], b[1..]);
    }
  }

  lemma JoinOne(p: seq<byte>)
    ensures Join([p]) == p
  {
    assert Join([p]) == p + Join([]);
  }

  lemma JoinLast(parts: seq<seq<byte>>, p: seq<byte>)
    ensures Join(parts + [p]) == Join(parts) + p
  {
    JoinConcat(parts, [p]);
    JoinOne(p);
  }

  // The storage of every chunk of the list lies in repr.
  ghost predicate Stored(cs: seq<Chunk>, repr: set<object>) {
    forall i | 0 <= i < |cs| :: cs[i] in repr && cs[i].data in repr
  }

  // What the methods rely on while the head chunk is being consumed.
  ghost predicate Linked(cs: seq<Chunk>, repr: set<object>)
    reads repr
  {
    && Stored(cs, repr)
    && (forall i | 0 <= i < |cs| :: cs[i].Valid())
    && (forall i | 1 <= i < |cs| :: !cs[i].FullyRead())
    && (forall i | 0 <= i < |cs| - 1 :: cs[i].FullyWritten())
    && Apart(cs)
  }

  // The representation invariant of a chunk list: no chunk is fully read, every chunk but
  // the last is fully written, and no two share storage.
  ghost predicate Chain(cs: seq<Chunk>, repr: set<object>)
    reads repr
  {
    Linked(cs, repr) && (cs != [] ==> !cs[0].FullyRead())
  }

  ghost predicate Apart(cs: seq<Chunk>) {
    forall i, j | 0 <= i < |cs| && 0 <= j < |cs| && i != j :: cs[i] != cs[j] && cs[i].data != cs[j].data
  }

  // What each chunk of a list holds, front to back.
  ghost function Parts(cs: seq<Chunk>, repr: set<object>): (parts: seq<seq<byte>>)
    requires Linked(cs, repr)
    reads repr
    ensures |parts| == |cs| && forall i | 0 <= i < |cs| :: parts[i] == cs[i].Content()
  {
    seq(|cs|, i requires 0 <= i < |cs| && Linked(cs, repr) reads repr => cs[i].Content())
  }

  // A char* into a chunk's storage.
  datatype Pointer = Pointer(data: array<byte>, idx: nat)

  datatype Mark = Mark(ptr: seq<Pointer>, home: seq<nat>, off: nat)

  datatype Store = Store(p: Pointer, j: nat, v: byte, m: Mark)

  class Bookmark {
    var ptr: seq<Pointer>
    // The index of the chunk each pointer points into.
    ghost var home: seq<nat>

    constructor ()
      ensures ptr == [] && home == []
    {
      ptr, home := [], [];
    }

    ghost function MarkAt(off: nat): Mark
      reads this
    {
      Mark(ptr, home, off)
    }
  }

  class Marshal {
    var chunk: seq<Chunk>
    var writeCounter: int
    ghost var repr: set<object>

    ghost predicate Valid()
      reads this`chunk, this`repr, repr
    {
      this !in repr && Chain(chunk, repr)
    }

    ghost function Contents(): seq<byte>
      requires Valid()
      reads this`chunk, this`repr, repr
    {
      Join(Parts(chunk, repr))
    }

    constructor ()
      ensures Valid() && Contents() == [] && writeCounter == 0 && repr == {}
    {
      chunk, writeCounter, repr := [], 0, {};
    }

    // Starts with the bytes of a string.
    constructor FromString(s: seq<byte>)
      ensures Valid() && Contents() == s && writeCounter == 0 && fresh(repr)
    {
      var c := new Chunk.Copy(s);
      chunk, writeCounter, repr := [c], 0, {c, c.data};
      new;
      assert Parts(chunk, repr) == [s];
      JoinOne(s);
    }

    method GetWriteCounterAndReset() returns (value: int)
      modifies this`writeCounter
      ensures value == old(writeCounter) && writeCounter == 0
    {
      value := writeCounter;
      writeCounter := 0;
    }

    predicate NoRoom()
      reads this`chunk, chunk
    {
      chunk == [] || chunk[|chunk| - 1].FullyWritten()
    }

    // Bytes were only added at the back.
    twostate predicate Extended()
      reads this`chunk, chunk
    {
      && |old(chunk)| <= |chunk| && chunk[..|old(chunk)|] == old(chunk)
      && (forall j | 0 <= j < |old(chunk)| ::
            chunk[j].readIdx == old(chunk[j].readIdx) && chunk[j].writeIdx >= old(chunk[j].writeIdx))
      && (forall j | 0 <= j < |old(chunk)| - 1 :: chunk[j].writeIdx == old(chunk[j].writeIdx))
    }

    method Write(p: seq<byte>) returns (n: nat)
      requires Valid() && (|p| > 0 || NoRoom())
      modifies this, repr
      ensures Valid() && fresh(repr - old(repr)) && Extended()
      ensures n == |p| && Contents() == old(Contents()) + p
      ensures writeCounter == old(writeCounter) + |p|
    {
      hide Contents, Chain, Parts;
      if chunk == [] || chunk[|chunk| - 1].FullyWritten() {
        var c := new Chunk.Copy(p);
        Push(c);
      } else {
        WriteAcross(p);
      }
      writeCounter := writeCounter + |p|;
      n := |p|;
    }

    // Fills the last chunk and puts what does not fit into a new one.
    method WriteAcross(p: seq<byte>)
      requires Valid() && !NoRoom() && |p| > 0
      modifies this`chunk, this`repr, repr
      ensures Valid() && fresh(repr - old(repr)) && Extended()
      ensures Contents() == old(Contents()) + p
    {
      hide Contents, Chain, Parts;
      var nWrite := WriteTail(p);
      assert nWrite > 0;
      if nWrite < |p| {
        var c := new Chunk.Copy(p[nWrite..]);
        Push(c);
        assert p[..nWrite] + p[nWrite..] == p;
        Assoc(old(Contents()), p[..nWrite], p[nWrite..]);
      }
    }

    // chunk_.back()->write
    method WriteTail(p: seq<byte>) returns (n: nat)
      requires Valid() && !NoRoom()
      modifies repr
      ensures Valid()
      ensures n == Min(|p|, old(chunk[|chunk| - 1].data.Length - chunk[|chunk| - 1].writeIdx))
      ensures n < |p| ==> NoRoom()
      ensures Contents() == old(Contents()) + p[..n] && Extended()
    {
      hide Join, Parts;
      n := chunk[|chunk| - 1].Write(p);
      TailAppended(p[..n]);
    }

    // chunk_.push_back
    method Push(c: Chunk)
      requires Valid() && NoRoom() && c.Valid() && !c.FullyRead() && c !in repr && c.data !in repr
      modifies this`chunk, this`repr
      ensures Valid() && chunk == old(chunk) + [c] && repr == old(repr) + {c, c.data} && Extended()
      ensures Contents() == old(Contents()) + c.Content()
    {
      hide Join;
      ghost var parts := Parts(chunk, repr);
      JoinLast(parts, c.Content());
      chunk, repr := chunk + [c], repr + {c, c.data};
      assert Parts(chunk, repr) == parts + [c.Content()];
    }

    // Deletes the head chunk once nothing can be read from it any more.
    method PopIfFullyRead()
      requires this !in repr && Linked(chunk, repr) && chunk != []
      modifies this`chunk
      ensures Valid() && Contents() == old(Join(Parts(chunk, repr)))
      ensures chunk == old(chunk) || chunk == old(chunk)[1..]
    {
      hide Join;
      if chunk[0].FullyRead() {
        ghost var parts := Parts(chunk, repr);
        JoinEmptyHead(parts);
        chunk := chunk[1..];
        assert Parts(chunk, repr) == parts[1..];
      }
    }

    // One round of read: chunk_.front()->read, then the deletion of a spent head.
    method ReadHead(p: array<byte>, at: nat, n: nat) returns (r: nat)
      requires Valid() && chunk != [] && at + n <= p.Length && p !in repr
      modifies this`chunk, repr, p
      ensures Valid() && repr == old(repr)
      ensures r <= n && r <= |old(Contents())| && Contents() == old(Contents())[r..]
      ensures p[..at] == old(p[..at]) && p[at..at + r] == old(Contents())[..r] && p[at + r..] == old(p[at + r..])
      ensures r == 0 && n > 0 ==> old(Contents()) == []
    {
      hide Join, Parts;
      r := chunk[0].Read(p, at, n);
      HeadConsumed(r);
      PopIfFullyRead();
    }

    method Read(p: array<byte>, n: nat) returns (nRead: nat)
      requires Valid() && n <= p.Length && p !in repr
      modifies this`chunk, repr, p
      ensures Valid() && repr == old(repr)
      ensures nRead == Min(n, |old(Contents())|)
      ensures Contents() == old(Contents())[nRead..]
      ensures p[..nRead] == old(Contents())[..nRead] && p[nRead..] == old(p[nRead..])
    {
      hide Contents, Chain;
      nRead := 0;
      while chunk != [] && nRead < n
        invariant Valid() && repr == old(repr) && nRead <= n
        invariant nRead <= |old(Contents())| && Contents() == old(Contents())[nRead..]
        invariant p[..nRead] == old(Contents())[..nRead] && p[nRead..] == old(p[nRead..])
        decreases n - nRead
      {
        var r := ReadHead(p, nRead, n - nRead);
        if r == 0 {
          break;
        }
        nRead := nRead + r;
      }
      if chunk == [] {
        NoChunks();
      }
    }

    lemma NoChunks()
      requires Valid() && chunk == []
      ensures Contents() == []
    {}

    // Writes one chunk, then deletes it if spent.
    method WriteHead(fd: Fd) returns (r: int)
      requires Valid() && chunk != [] && fd !in repr
      modifies this`chunk, repr, fd`sent, fd`writeLog, fd`room
      ensures Valid() && repr == old(repr)
      ensures r <= |old(Contents())| && Contents() == old(Contents())[Max(r, 0)..]
      ensures fd.sent == old(fd.sent) + old(Contents())[..Max(r, 0)]
      ensures fd.writeLog == old(fd.writeLog) + if old(Contents()) != [] then [Max(r, 0)] else []
      ensures fd.prompt ==> (old(Contents()) != [] && old(fd.room) > 0 ==> r > 0)
      ensures fd.prompt ==> r <= old(fd.room) && fd.room == old(fd.room) - Max(r, 0)
    {
      hide Join, Parts;
      r := chunk[0].WriteToFd(fd);
      HeadConsumed(Max(r, 0));
      PopIfFullyRead();
    }

    // Sends until everything is sent or the descriptor takes no more. A prompt one takes all it
    // has room for.
    method WriteToFd(fd: Fd) returns (nWrite: nat)
      requires Valid() && fd !in repr
      modifies this`chunk, repr, fd`sent, fd`writeLog, fd`room
      ensures Valid() && repr == old(repr)
      ensures nWrite <= |old(Contents())| && Contents() == old(Contents())[nWrite..]
      ensures fd.sent == old(fd.sent) + old(Contents())[..nWrite]
      ensures old(fd.writeLog) <= fd.writeLog && (Contents() != [] ==> fd.Refused())
      ensures fd.prompt ==> nWrite == Min(old(fd.room), |old(Contents())|) && fd.room == old(fd.room) - nWrite
    {
      hide Contents, Chain;
      nWrite := 0;
      while chunk != []
        invariant Valid() && repr == old(repr)
        invariant nWrite <= |old(Contents())| && Contents() == old(Contents())[nWrite..]
        invariant fd.sent == old(fd.sent) + old(Contents())[..nWrite] && old(fd.writeLog) <= fd.writeLog
        invariant fd.prompt ==> nWrite <= old(fd.room) && fd.room == old(fd.room) - nWrite
        decreases |old(Contents())| - nWrite
      {
        var r := WriteHead(fd);
        if r <= 0 {
          break;
        }
        nWrite := nWrite + r;
      }
      if chunk == [] {
        NoChunks();
      }
    }

    // Makes sure the last chunk has room.
    method Extend()
      requires Valid()
      modifies this`chunk, this`repr
      ensures Valid() && !NoRoom() && fresh(repr - old(repr)) && old(repr) <= repr
      ensures Contents() == old(Contents()) && Extended()
    {
      hide Contents;
      if chunk == [] || chunk[|chunk| - 1].FullyWritten() {
        var c := new Chunk(MIN_SIZE);
        Push(c);
      }
    }

    method ReadTail(fd: Fd) returns (r: int)
      requires Valid() && !NoRoom() && fd !in repr
      modifies repr, fd`incoming, fd`received, fd`readLog
      ensures Valid() && r <= |old(fd.incoming)|
      ensures Contents() == old(Contents()) + old(fd.incoming)[..Max(r, 0)]
      ensures fd.received == old(fd.received) + old(fd.incoming)[..Max(r, 0)]
      ensures fd.incoming == old(fd.incoming)[Max(r, 0)..]
      ensures fd.readLog == old(fd.readLog) + [Max(r, 0)] && (fd.prompt && old(fd.incoming) != [] ==> r > 0)
    {
      hide Join, Parts;
      r := chunk[|chunk| - 1].ReadFromFd(fd);
      TailAppended(old(fd.incoming)[..Max(r, 0)]);
    }

    // Receives until the descriptor has nothing more to give, a prompt one all it had.
    method ReadFromFd(fd: Fd) returns (nRead: nat)
      requires Valid() && fd !in repr
      modifies this`chunk, this`repr, repr, fd`incoming, fd`received, fd`readLog
      ensures Valid() && fresh(repr - old(repr))
      ensures nRead <= |old(fd.incoming)| && fd.incoming == old(fd.incoming)[nRead..]
      ensures Contents() == old(Contents()) + old(fd.incoming)[..nRead]
      ensures fd.received == old(fd.received) + old(fd.incoming)[..nRead]
      ensures fd.RanDry() && (fd.prompt ==> fd.incoming == [])
    {
      hide Contents, Chain;
      nRead := 0;
      while true
        invariant Valid() && fresh(repr - old(repr)) && fd !in repr
        invariant nRead <= |old(fd.incoming)| && fd.incoming == old(fd.incoming)[nRead..]
        invariant Contents() == old(Contents()) + old(fd.incoming)[..nRead]
        invariant fd.received == old(fd.received) + old(fd.incoming)[..nRead] && old(fd.readLog) <= fd.readLog
        decreases |old(fd.incoming)| - nRead
      {
        Extend();
        var r := ReadTail(fd);
        if r <= 0 {
          break;
        }
        assert old(fd.incoming)[..nRead] + old(fd.incoming)[nRead..][..r] == old(fd.incoming)[..nRead + r];
        nRead := nRead + r;
      }
    }

    // Two queues that share no storage.
    ghost predicate Separate(m: Marshal)
      reads this, m
    {
      this != m && repr !! m.repr && this !in m.repr && m !in repr
    }

    // chunk_.front(), then chunk_.pop_front() without deleting it.
    method DetachHead() returns (c: Chunk)
      requires Valid() && chunk != []
      modifies this`chunk, this`repr
      ensures Valid() && c == old(chunk[0]) && chunk == old(chunk)[1..]
      ensures repr == old(repr) - {c, c.data} && {c, c.data} <= old(repr)
      ensures c.Valid() && !c.FullyRead()
      ensures |c.Content()| <= |old(Contents())| && c.Content() == old(Contents())[..|c.Content()|]
      ensures Contents() == old(Contents())[|c.Content()|..]
    {
      hide Join;
      ghost var parts := Parts(chunk, repr);
      JoinHead(parts);
      c := chunk[0];
      chunk, repr := chunk[1..], repr - {c, c.data};
      assert Parts(chunk, repr) == parts[1..];
    }

    // Moves the head chunk of m to the back of this queue without copying it.
    method TransferHead(m: Marshal, ghost size: int)
      requires Valid() && m.Valid() && Separate(m) && NoRoom() && m.chunk != []
      requires size == m.chunk[0].ContentSize()
      modifies this`chunk, this`repr, m`chunk, m`repr
      ensures Valid() && m.Valid() && Separate(m) && repr <= old(repr) + old(m.repr) && m.repr <= old(m.repr)
      ensures |m.chunk| < |old(m.chunk)|
      ensures 0 <= size <= |old(m.Contents())| && m.Contents() == old(m.Contents())[size..]
      ensures Contents() == old(Contents()) + old(m.Contents())[..size]
    {
      hide Contents, Chain;
      var c := m.DetachHead();
      Push(c);
    }

    // A write to the last chunk alone appends to the contents.
    twostate lemma TailAppended(p: seq<byte>)
      requires old(Valid()) && old(chunk) != [] && chunk == old(chunk) && repr == old(repr)
      requires forall i | 0 <= i < |chunk| - 1 :: unchanged(chunk[i]) && unchanged(chunk[i].data)
      requires var tail := chunk[|chunk| - 1];
               tail.Valid() && !tail.FullyRead() && tail.Content() == old(tail.Content()) + p
      ensures Valid() && Contents() == old(Contents()) + p
    {
      hide Join;
      TailGrew(old(Parts(chunk, repr)), Parts(chunk, repr), p);
    }

    // Consuming r bytes of the first chunk alone removes them from the contents.
    twostate lemma HeadConsumed(r: nat)
      requires old(Valid()) && old(chunk) != [] && chunk == old(chunk) && repr == old(repr)
      requires forall i | 1 <= i < |chunk| :: unchanged(chunk[i]) && unchanged(chunk[i].data)
      requires var head := chunk[0];
               head.Valid() && head.writeIdx == old(head.writeIdx) && r <= |old(head.Content())| &&
               head.Content() == old(head.Content())[r..]
      ensures Linked(chunk, repr) && r <= |old(Contents())|
      ensures Join(Parts(chunk, repr)) == old(Contents())[r..]
      ensures old(chunk[0].Content())[..r] == old(Contents())[..r]
      ensures old(chunk[0].Content()) == [] <==> old(Contents()) == []
    {
      hide Join;
      EmptyHead(old(Parts(chunk, repr)));
      HeadShrank(old(Parts(chunk, repr)), Parts(chunk, repr), r);
    }

    // Copies from the head chunk of m into the last chunk of this queue.
    method CopyBytes(m: Marshal, n: nat) returns (r: nat)
      requires Valid() && m.Valid() && Separate(m) && !NoRoom() && m.chunk != []
      modifies repr, m.repr
      ensures Valid() && Linked(m.chunk, m.repr)
      ensures r <= n && r <= |old(m.Contents())| && Join(Parts(m.chunk, m.repr)) == old(m.Contents())[r..]
      ensures Contents() == old(Contents()) + old(m.Contents())[..r]
      ensures r == 0 && n > 0 ==> old(m.Contents()) == []
    {
      hide Join, Parts;
      r := chunk[|chunk| - 1].ReadFromChunk(m.chunk[0], n);
      m.HeadConsumed(r);
      TailAppended(old(m.chunk[0].Content())[..r]);
    }

    method CopyHead(m: Marshal, n: nat) returns (r: nat)
      requires Valid() && m.Valid() && Separate(m) && !NoRoom() && m.chunk != []
      modifies repr, m.repr, m`chunk
      ensures Valid() && m.Valid()
      ensures |m.chunk| <= |old(m.chunk)|
      ensures r <= n && r <= |old(m.Contents())| && m.Contents() == old(m.Contents())[r..]
      ensures Contents() == old(Contents()) + old(m.Contents())[..r]
      ensures r == 0 && n > 0 ==> old(m.Contents()) == []
    {
      hide Linked, Chain, Contents, Parts, Join;
      r := CopyBytes(m, n);
      m.PopIfFullyRead();
    }

    // One round of read_from_marshal when m has a chunk: hand the head chunk over if this
    // queue needs a new chunk and the whole head is wanted, otherwise copy.
    method MoveSome(m: Marshal, n: nat) returns (r: nat, stop: bool)
      requires Valid() && m.Valid() && Separate(m) && m.chunk != [] && n > 0
      modifies this`chunk, this`repr, repr, m`chunk, m`repr, m.repr
      ensures Valid() && m.Valid() && Separate(m)
      ensures fresh(repr - old(repr) - old(m.repr)) && m.repr <= old(m.repr)
      ensures r <= n && r <= |old(m.Contents())| && m.Contents() == old(m.Contents())[r..]
      ensures Contents() == old(Contents()) + old(m.Contents())[..r]
      ensures stop ==> old(m.Contents()) == []
      ensures !stop ==> |m.chunk| < |old(m.chunk)| || (|m.chunk| == |old(m.chunk)| && r > 0)
    {
      hide Contents, Chain, Parts, Linked;
      if chunk == [] || chunk[|chunk| - 1].FullyWritten() {
        var headSize := m.chunk[0].ContentSize();
        if headSize < n {
          TransferHead(m, headSize);
          return headSize, false;
        } else {
          Extend();
        }
      }
      r := CopyHead(m, n);
      stop := r == 0;
    }

    // Moves up to n bytes from the front of m to the back of this queue.
    method ReadFromMarshal(m: Marshal, n: nat) returns (nRead: nat)
      requires Valid() && m.Valid() && Separate(m)
      modifies this`chunk, this`repr, repr, m`chunk, m`repr, m.repr
      ensures Valid() && m.Valid() && Separate(m)
      ensures fresh(repr - old(repr) - old(m.repr)) && m.repr <= old(m.repr)
      ensures nRead == Min(n, |old(m.Contents())|)
      ensures Contents() == old(Contents()) + old(m.Contents())[..nRead]
      ensures m.Contents() == old(m.Contents())[nRead..]
    {
      hide Contents, Chain;
      ghost var source := m.Contents();
      nRead := 0;
      while nRead < n
        invariant Valid() && m.Valid() && Separate(m)
        invariant fresh(repr - old(repr) - old(m.repr)) && m.repr <= old(m.repr)
        invariant nRead <= n && nRead <= |source|
        invariant Contents() == old(Contents()) + source[..nRead]
        invariant m.Contents() == source[nRead..]
        decreases |m.chunk|, n - nRead
      {
        if m.chunk == [] {
          m.NoChunks();
          break;
        }
        var r, stop := MoveSome(m, n - nRead);
        TakeMore(source, nRead, r);
        if stop {
          break;
        }
        nRead := nRead + r;
      }
    }

    method Peek(p: array<byte>, n: nat) returns (nPeek: nat)
      requires Valid() && n <= p.Length && p !in repr
      modifies p
      ensures Valid() && Contents() == old(Contents())
      ensures nPeek == Min(n, |Contents()|)
      ensures p[..nPeek] == Contents()[..nPeek] && p[nPeek..] == old(p[nPeek..])
    {
      nPeek := PeekParts(Parts(chunk, repr), p, n);
    }

    ghost predicate Holds(parts: seq<seq<byte>>)
      reads this`chunk, this`repr, repr
    {
      Valid() && Parts(chunk, repr) == parts
    }

    method PeekParts(ghost parts: seq<seq<byte>>, p: array<byte>, n: nat) returns (nPeek: nat)
      requires Holds(parts) && |parts| == |chunk| && n <= p.Length && p !in repr
      modifies p
      ensures Holds(parts) && nPeek == Min(n, |Join(parts)|) && p[..nPeek] == Join(parts)[..nPeek]
      ensures forall j :: nPeek <= j < p.Length ==> p[j] == old(p[j])
    {
      nPeek := 0;
      JoinNone();
      hide Join, Holds;
      for k := 0 to |chunk|
        invariant Holds(parts) && nPeek <= n && (nPeek < n || n == 0)
        invariant nPeek == |Join(parts[..k])| && nPeek <= |Join(parts)|
        invariant p[..nPeek] == Join(parts)[..nPeek]
        invariant forall j :: nPeek <= j < p.Length ==> p[j] == old(p[j])
      {
        var r := PeekChunk(parts, k, p, nPeek, n - nPeek);
        if r == 0 {
          return;
        }
        nPeek := nPeek + r;
        if nPeek == n {
          return;
        }
      }
      assert parts[..|chunk|] == parts;
    }

    // One round of peek on chunk k, when the chunks before it hold `at` bytes.
    method PeekChunk(ghost parts: seq<seq<byte>>, k: nat, p: array<byte>, at: nat, n: nat) returns (r: nat)
      requires Holds(parts) && k < |chunk| == |parts| && at + n <= p.Length && p !in repr
      requires at == |Join(parts[..k])|
      requires at <= |Join(parts)| && p[..at] == Join(parts)[..at]
      modifies p
      ensures Holds(parts)
      ensures r <= n && at + r <= |Join(parts)|
      ensures p[..at + r] == Join(parts)[..at + r]
      ensures forall j :: at + r <= j < p.Length ==> p[j] == old(p[j])
      ensures r == 0 ==> n == 0 || at == |Join(parts)|
      ensures r < n ==> at + r == |Join(parts[..k + 1])|
    {
      hide Join;
      JoinPrefix(parts, k);
      if k < |chunk| - 1 {
        assert chunk[k].FullyWritten() && !chunk[k].FullyRead();
        assert parts[k] != [];
      } else {
        assert parts[..k + 1] == parts;
      }
      r := chunk[k].Peek(p, at, n);
      assert Join(parts)[..at] + parts[k][..r] == Join(parts)[..at + r];
      forall j | at + r <= j < p.Length ensures p[j] == old(p[j]) {
        assert p[j] == p[at + r..][j - (at + r)];
      }
    }

    // p points to a byte of chunk j that is written and not yet read.
    ghost predicate PointsTo(p: Pointer, j: nat)
      requires Valid()
      reads this`chunk, this`repr, repr
    {
      j < |chunk| && chunk[j].data == p.data && chunk[j].readIdx <= p.idx < chunk[j].writeIdx
    }

    // The position of that byte in the contents.
    ghost function Position(p: Pointer, j: nat): nat
      requires Valid() && PointsTo(p, j)
      reads this`chunk, this`repr, repr
    {
      |Join(Parts(chunk, repr)[..j])| + p.idx - chunk[j].readIdx
    }

    // The pointers of a mark stand for the bytes of the contents from position off on.
    ghost predicate Marked(m: Mark)
      requires Valid()
      reads this`chunk, this`repr, repr
    {
      |m.home| == |m.ptr| &&
      forall i | 0 <= i < |m.ptr| :: PointsTo(m.ptr[i], m.home[i]) && Position(m.ptr[i], m.home[i]) == m.off + i
    }

    twostate lemma MarkKept(m: Mark)
      requires old(Valid()) && Valid() && Extended() && old(Marked(m))
      ensures Marked(m)
    {
      hide Join;
      var before, after := old(Parts(chunk, repr)), Parts(chunk, repr);
      forall j | 0 <= j < |before|
        ensures |Join(before[..j])| == |Join(after[..j])|
      {
        JoinLengths(before[..j], after[..j]);
      }
    }

    // Reserves one byte at the back.
    method ReserveByte() returns (p: Pointer)
      requires Valid() && !NoRoom()
      modifies repr
      ensures Valid() && Extended() && |Contents()| == |old(Contents())| + 1
      ensures Contents()[..|old(Contents())|] == old(Contents())
      ensures PointsTo(p, |chunk| - 1) && Position(p, |chunk| - 1) == |old(Contents())|
    {
      hide Join;
      var tail := chunk[|chunk| - 1];
      var idx := tail.SetBookmark();
      p := Pointer(tail.data, idx);
      TailAppended([tail.data[idx]]);
      ghost var parts := Parts(chunk, repr);
      JoinPrefix(parts, |chunk| - 1);
      assert parts[..|chunk|] == parts;
    }

    // The same two steps, carrying along the pointers already handed out.
    method ExtendMarked(ghost m: Mark)
      requires Valid() && Marked(m)
      modifies this`chunk, this`repr
      ensures Valid() && !NoRoom() && fresh(repr - old(repr)) && old(repr) <= repr
      ensures Contents() == old(Contents()) && Marked(m)
    {
      hide Contents, Chain;
      Extend();
      MarkKept(m);
    }

    method ReserveMarked(ghost m: Mark) returns (p: Pointer)
      requires Valid() && !NoRoom() && Marked(m) && |Contents()| == m.off + |m.ptr|
      modifies repr
      ensures Valid() && |Contents()| == |old(Contents())| + 1
      ensures Contents()[..|old(Contents())|] == old(Contents())
      ensures Marked(Mark(m.ptr + [p], m.home + [|chunk| - 1], m.off))
    {
      hide Contents, Chain;
      p := ReserveByte();
      MarkKept(m);
    }

    method SetBookmark(size: nat) returns (b: Bookmark)
      requires Valid() && writeCounter == 0
      modifies this`chunk, this`repr, repr
      ensures Valid() && fresh(repr - old(repr)) && fresh(b) && b !in repr
      ensures |b.ptr| == size && Marked(b.MarkAt(|old(Contents())|))
      ensures |Contents()| == |old(Contents())| + size && Contents()[..|old(Contents())|] == old(Contents())
    {
      b := new Bookmark();
      hide Contents, Chain, Marked;
      ghost var off := |Contents()|;
      NothingMarked(off);
      for i := 0 to size
        invariant Valid() && fresh(repr - old(repr)) && b !in repr
        invariant |b.ptr| == i && Marked(b.MarkAt(off))
        invariant |Contents()| == off + i && Contents()[..off] == old(Contents())
      {
        ExtendMarked(b.MarkAt(off));
        var p := ReserveMarked(b.MarkAt(off));
        b.ptr, b.home := b.ptr + [p], b.home + [|chunk| - 1];
      }
    }

    lemma NothingMarked(off: nat)
      requires Valid()
      ensures Marked(Mark([], [], off))
    {}

    // A store through a pointer replaces one byte of the contents.
    twostate lemma ByteReplaced(s: Store)
      requires old(Valid()) && old(PointsTo(s.p, s.j)) && old(Marked(s.m))
      requires unchanged(this`chunk) && unchanged(this`repr)
      requires forall i | 0 <= i < |chunk| :: unchanged(chunk[i]) && (i != s.j ==> unchanged(chunk[i].data))
      requires s.p.data[..] == old(s.p.data[..])[s.p.idx := s.v]
      ensures Valid() && old(Position(s.p, s.j)) < |old(Contents())|
      ensures Contents() == old(Contents())[old(Position(s.p, s.j)) := s.v]
      ensures Marked(s.m)
    {
      hide Join;
      var before, after, k := old(Parts(chunk, repr)), Parts(chunk, repr), s.p.idx - chunk[s.j].readIdx;
      assert after[s.j] == before[s.j][k := s.v];
      assert after == before[s.j := before[s.j][k := s.v]];
      JoinUpdate(before, s.j, k, s.v);
      forall j | 0 <= j < |before|
        ensures |Join(before[..j])| == |Join(after[..j])|
      {
        JoinLengths(before[..j], after[..j]);
      }
    }

    method StoreByte(ghost m: Mark, i: nat, p: Pointer, v: byte)
      requires Valid() && Marked(m) && i < |m.ptr| && p == m.ptr[i]
      modifies repr
      ensures Valid() && Marked(m)
      ensures m.off + i < |old(Contents())| && Contents() == old(Contents())[m.off + i := v]
    {
      hide Join, Parts;
      assert PointsTo(p, m.home[i]);
      p.data[p.idx] := v;
      ByteReplaced(Store(p, m.home[i], v, m));
    }

    method WriteBookmark(b: Bookmark, x: seq<byte>, ghost off: nat)
      requires Valid() && b !in repr && Marked(b.MarkAt(off)) && off <= |Contents()| && |x| == |b.ptr|
      modifies repr
      ensures Valid() && |old(Contents())| >= off + |x|
      ensures Contents() == old(Contents())[..off] + x + old(Contents())[off + |x|..]
    {
      hide Contents, Chain, Marked;
      for i := 0 to |b.ptr|
        invariant Valid() && Marked(b.MarkAt(off))
        invariant |old(Contents())| >= off + i
        invariant Contents() == old(Contents())[..off] + x[..i] + old(Contents())[off + i..]
      {
        StoreByte(b.MarkAt(off), i, b.ptr[i], x[i]);
      }
    }

    method WriteMarked(p: seq<byte>, ghost m: Mark)
      requires Valid() && |p| > 0 && Marked(m)
      modifies this, repr
      ensures Valid() && fresh(repr - old(repr)) && Marked(m)
      ensures Contents() == old(Contents()) + p && writeCounter == old(writeCounter) + |p|
    {
      hide Contents, Chain;
      var n := Write(p);
      MarkKept(m);
    }

    method Dump() returns (s: seq<byte>)
      requires Valid()
      ensures s == Contents()
    {
      hide Join;
      ghost var parts := Parts(chunk, repr);
      JoinNone();
      s := [];
      for k := 0 to |chunk|
        invariant s == Join(parts[..k])
      {
        JoinPrefix(parts, k);
        s := s + chunk[k].data[chunk[k].readIdx..chunk[k].writeIdx];
      }
      assert parts[..|chunk|] == parts;
    }

    method ContentSize() returns (size: nat)
      requires Valid()
      ensures size == |Contents()|
    {
      hide Join;
      ghost var parts := Parts(chunk, repr);
      JoinNone();
      size := 0;
      for k := 0 to |chunk|
        invariant size == |Join(parts[..k])|
      {
        JoinPrefix(parts, k);
        size := size + chunk[k].ContentSize();
      }
      assert parts[..|chunk|] == parts;
    }

    // Stops at the first chunk that settles the question.
    method ContentSizeGt(size: int) returns (gt: bool)
      requires Valid()
      ensures gt == (|Contents()| > size)
    {
      hide Join;
      ghost var parts := Parts(chunk, repr);
      JoinNone();
      var sizeVisited := 0;
      for k := 0 to |chunk|
        invariant sizeVisited == |Join(parts[..k])|
      {
        JoinPrefix(parts, k);
        sizeVisited := sizeVisited + chunk[k].ContentSize();
        if sizeVisited > size {
          return true;
        }
      }
      assert parts[..|chunk|] == parts;
      return sizeVisited > size;
    }

    method Empty() returns (empty: bool)
      requires Valid()
      ensures empty == (Contents() == [])
    {
      var gt := ContentSizeGt(0);
      empty := !gt;
    }
  }

  lemma JoinUpdate(parts: seq<seq<byte>>, j: nat, k: nat, v: byte)
    requires j < |parts| && k < |parts[j]|
    ensures var pos := |Join(parts[..j])| + k;
            pos < |Join(parts)| && Join(parts[j := parts[j][k := v]]) == Join(parts)[pos := v]
  {
    hide Join;
    var after := parts[j := parts[j][k := v]];
    assert after[..j] == parts[..j] && after[j + 1..] == parts[j + 1..];
    JoinAround(parts, j);
    JoinAround(after, j);
    UpdateMiddle(Join(parts[..j]), parts[j], Join(parts[j + 1..]), k, v);
  }

  lemma UpdateMiddle(a: seq<byte>, b: seq<byte>, c: seq<byte>, k: nat, v: byte)
    requires k < |b|
    ensures a + b[k := v] + c == (a + b + c)[|a| + k := v]
  {}

  lemma JoinAround(parts: seq<seq<byte>>, j: nat)
    requires j < |parts|
    ensures Join(parts) == Join(parts[..j]) + parts[j] + Join(parts[j + 1..])
  {
    hide Join;
    JoinPrefix(parts, j);
    JoinSplit(parts, j + 1);
  }

  lemma JoinNone()
    ensures Join([]) == []
  {}

  lemma JoinPrefix(parts: seq<seq<byte>>, k: nat)
    requires k < |parts|
    ensures Join(parts[..k + 1]) == Join(parts[..k]) + parts[k]
    ensures |Join(parts[..k + 1])| <= |Join(parts)| && Join(parts)[..|Join(parts[..k + 1])|] == Join(parts[..k + 1])
  {
    hide Join;
    assert parts[..k + 1] == parts[..k] + [parts[k]];
    JoinLast(parts[..k], parts[k]);
    JoinSplit(parts, k + 1);
  }

  lemma JoinSplit(parts: seq<seq<byte>>, k: nat)
    requires k <= |parts|
    ensures Join(parts) == Join(parts[..k]) + Join(parts[k..])
  {
    hide Join;
    assert parts == parts[..k] + parts[k..];
    JoinConcat(parts[..k], parts[k..]);
  }

  lemma JoinEmptyHead(parts: seq<seq<byte>>)
    requires parts != [] && parts[0] == []
    ensures Join(parts) == Join(parts[1..])
  {}

  lemma JoinHead(parts: seq<seq<byte>>)
    requires parts != []
    ensures |parts[0]| <= |Join(parts)| && Join(parts)[..|parts[0]|] == parts[0]
    ensures Join(parts)[|parts[0]|..] == Join(parts[1..])
  {}

  lemma HeadShrank(before: seq<seq<byte>>, after: seq<seq<byte>>, r: nat)
    requires |before| == |after| > 0 && forall i | 1 <= i < |before| :: after[i] == before[i]
    requires r <= |before[0]| && after[0] == before[0][r..]
    ensures r <= |Join(before)| && Join(after) == Join(before)[r..] && before[0][..r] == Join(before)[..r]
  {
    assert before[1..] == after[1..];
  }

  // Only the last part of a chain can be empty.
  lemma EmptyHead(parts: seq<seq<byte>>)
    requires parts != [] && (|parts| > 1 ==> parts[0] != [])
    ensures parts[0] == [] <==> Join(parts) == []
  {
    if parts[0] == [] {
      assert parts[1..] == [];
    }
  }

  lemma Assoc<T>(a: seq<T>, b: seq<T>, c: seq<T>)
    ensures (a + b) + c == a + (b + c)
  {}

  lemma TakeMore<T>(s: seq<T>, n: nat, r: nat)
    requires n + r <= |s|
    ensures s[..n] + s[n..][..r] == s[..n + r] && s[n..][r..] == s[n + r..]
  {}

  lemma TailGrew(before: seq<seq<byte>>, after: seq<seq<byte>>, p: seq<byte>)
    requires |before| == |after| > 0 && forall i | 0 <= i < |before| - 1 :: after[i] == before[i]
    requires after[|after| - 1] == before[|before| - 1] + p
    ensures Join(after) == Join(before) + p
  {
    hide Join;
    var front, tail := before[..|before| - 1], before[|before| - 1];
    assert before == front + [tail];
    assert after == front + [tail + p];
    JoinLast(front, tail);
    JoinLast(front, tail + p);
    Assoc(Join(front), tail, p);
  }

  // A framed message: reserve the header, write the payload, read off its length, and fill
  // in the header afterwards.
  method WriteFramed(m: Marshal, payload: seq<seq<byte>>, header: seq<byte>) returns (n: int)
    requires m.Valid() && m.writeCounter == 0
    requires forall i | 0 <= i < |payload| :: |payload[i]| > 0
    modifies m, m.repr
    ensures m.Valid() && fresh(m.repr - old(m.repr))
    ensures n == |Join(payload)| && m.writeCounter == 0
    ensures m.Contents() == old(m.Contents()) + header + Join(payload)
  {
    hide Marshal.Contents, Marshal.Marked, Chain, Linked;
    ghost var before := m.Contents();
    var b := m.SetBookmark(|header|);
    ghost var reserved := m.Contents();
    WritePayload(m, payload, b.MarkAt(|before|));
    n := m.GetWriteCounterAndReset();
    m.WriteBookmark(b, header, |before|);
    assert reserved + Join(payload) == before + reserved[|before|..] + Join(payload);
  }

  method WritePayload(m: Marshal, payload: seq<seq<byte>>, ghost mark: Mark)
    requires m.Valid() && m.Marked(mark)
    requires forall i | 0 <= i < |payload| :: |payload[i]| > 0
    modifies m, m.repr
    ensures m.Valid() && fresh(m.repr - old(m.repr)) && m.Marked(mark)
    ensures m.writeCounter == old(m.writeCounter) + |Join(payload)|
    ensures m.Contents() == old(m.Contents()) + Join(payload)
  {
    hide Marshal.Contents, Marshal.Marked, Chain, Linked;
    JoinNone();
    hide Join;
    for i := 0 to |payload|
      invariant m.Valid() && fresh(m.repr - old(m.repr)) && m.Marked(mark)
      invariant m.writeCounter == old(m.writeCounter) + |Join(payload[..i])|
      invariant m.Contents() == old(m.Contents()) + Join(payload[..i])
    {
      JoinPrefix(payload, i);
      m.WriteMarked(payload[i], mark);
      Assoc(old(m.Contents()), Join(payload[..i]), payload[i]);
    }
    assert payload[..|payload|] == payload;
  }
}
