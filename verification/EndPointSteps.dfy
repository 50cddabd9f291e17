// The handlers of EndPoint.dfy take the steps of Relay.dfy, so what is proved there of every
// interleaving rests on what the queues do.
module EndPointSteps {
  import opened Bits
  import opened Common
  import opened EndPoints
  import Marshalling
  import B = Batches
  import R = Relaying

  // One call's steps: what it reads in all, and what it writes, which is everything unless a write
  // was refused.

  function ReadSteps(a: R.End, i: R.Side, n: nat): seq<R.Step> {
    if !a.enabled then [R.BeginRead(i)]
    else [R.BeginRead(i)] + (if n == 0 then [] else [R.ReadBytes(i, n)]) + [R.EndRead(i)]
  }

  function WriteSteps(a: R.End, i: R.Side, n: nat): seq<R.Step> {
    if !a.enabled then [R.BeginWrite(i)]
    else [R.BeginWrite(i)] + (if n == 0 then [] else [R.WriteBytes(i, n)]) +
         (if n == |a.buf| then [] else [R.Refuse(i)]) + [R.EndWrite(i)]
  }

  // What they come to, for the end the event is for and for its peer.

  function ReadNear(a: R.End): R.End {
    if !a.enabled then a.(batchIn := false)
    else a.(batchIn := false, received := a.received + a.incoming, incoming := [])
  }

  function ReadFar(a: R.End, b: R.End): R.End {
    if !a.enabled || a.incoming == [] then b else R.Updated(b.(buf := b.buf + a.incoming), true)
  }

  function WriteNear(a: R.End, n: nat): R.End
    requires n <= |a.buf|
  {
    if !a.enabled then a.(batchOut := false) else Finished(Writes(a, n))
  }

  // handle_write() at work, with n bytes sent; and at its end.
  function Writes(a: R.End, n: nat): R.End
    requires n <= |a.buf|
  {
    a.(batchOut := false, writer := R.Writing, sent := a.sent + a.buf[..n], buf := a.buf[n..])
  }

  function Finished(a: R.End): R.End {
    R.Updated(a.(writable := a.writable && a.buf == []), a.buf != []).(writer := R.Idle)
  }

  lemma StepEnds(t: R.Tie, e: R.Step)
    requires R.CanStep(t, e)
    ensures R.Apply(t, e).At(e.i) == R.Near(t.At(e.i), t.At(e.i.Other()), e)
    ensures R.Apply(t, e).At(e.i.Other()) == R.Far(t.At(e.i), t.At(e.i.Other()), e)
  {
    hide R.Near, R.Far, R.Enabled;
  }

  // Any two, three or four steps, end by end.
  ghost predicate Goes(a: R.End, b: R.End, e: R.Step, a': R.End, b': R.End) {
    R.Enabled(a, b, e) && R.Near(a, b, e) == a' && R.Far(a, b, e) == b'
  }

  ghost predicate At(t: R.Tie, i: R.Side, a: R.End, b: R.End) {
    t.At(i) == a && t.At(i.Other()) == b
  }

  ghost predicate Reaches(t: R.Tie, i: R.Side, es: seq<R.Step>, a: R.End, b: R.End) {
    R.IsRun(t, es) && At(R.After(t, es), i, a, b)
  }

  lemma StepGoes(t: R.Tie, e: R.Step, a: R.End, b: R.End)
    requires Goes(t.At(e.i), t.At(e.i.Other()), e, a, b)
    ensures R.CanStep(t, e) && At(R.Apply(t, e), e.i, a, b) && Reaches(t, e.i, [e], a, b)
  {
    StepEnds(t, e);
    hide R.Near, R.Far, R.Enabled, R.Apply;
    R.Onward(t, e, []);
    assert [e] + [] == [e];
  }

  // A step, and then the rest, which may start in any tie with these ends.
  lemma StepReaches(t: R.Tie, e: R.Step, rest: seq<R.Step>, a: R.End, b: R.End)
    requires R.CanStep(t, e) && Reaches(R.Apply(t, e), e.i, rest, a, b)
    ensures Reaches(t, e.i, [e] + rest, a, b)
  {
    hide R.CanStep, R.Apply;
    R.Onward(t, e, rest);
  }

  // The states of one call of handle_read().

  function Reads(a: R.End, n: nat): R.End { a.(batchIn := false, reader := R.Reading(n)) }

  function ReadAll(a: R.End): R.End {
    a.(batchIn := false, reader := R.Reading(|a.incoming|), received := a.received + a.incoming, incoming := [])
  }

  lemma ReadBegins(a: R.End, b: R.End, i: R.Side)
    requires R.Enabled(a, b, R.BeginRead(i))
    ensures Goes(a, b, R.BeginRead(i), if a.enabled then Reads(a, 0) else ReadNear(a), b)
  {
  }

  lemma ReadTakesAll(a: R.End, b: R.End, i: R.Side)
    requires a.incoming != []
    ensures Goes(Reads(a, 0), b, R.ReadBytes(i, |a.incoming|), ReadAll(a), b.(buf := b.buf + a.incoming))
  {
    assert a.incoming[..|a.incoming|] == a.incoming && a.incoming[|a.incoming|..] == [];
  }

  lemma ReadEnds(a: R.End, b: R.End, i: R.Side)
    requires a.enabled && a.reader.Resting? && a.incoming != []
    ensures Goes(ReadAll(a), b.(buf := b.buf + a.incoming), R.EndRead(i), ReadNear(a), ReadFar(a, b))
  {
    hide R.Updated;
  }

  lemma ReadEndsDry(a: R.End, b: R.End, i: R.Side)
    requires a.enabled && a.reader.Resting? && a.incoming == []
    ensures Goes(Reads(a, 0), b, R.EndRead(i), ReadNear(a), b)
  {
    hide R.Updated;
  }

  lemma ReadInOne(t: R.Tie, i: R.Side)
    requires R.CanStep(t, R.BeginRead(i))
    ensures var a := t.At(i);
      Reaches(t, i, ReadSteps(a, i, |a.incoming|), ReadNear(a), ReadFar(a, t.At(i.Other())))
  {
    var a, b := t.At(i), t.At(i.Other());
    ReadBegins(a, b, i);
    if !a.enabled {
      StepGoes(t, R.BeginRead(i), ReadNear(a), b);
    } else {
      StepGoes(t, R.BeginRead(i), Reads(a, 0), b);
      var t1 := R.Apply(t, R.BeginRead(i));
      assert a.reader.Resting?;
      ReadContinues(t1, a, b, i);
      hide Reaches, R.CanStep, R.Apply, ReadNear, ReadFar;
      if a.incoming == [] {
        StepReaches(t, R.BeginRead(i), [R.EndRead(i)], ReadNear(a), ReadFar(a, b));
        assert ReadSteps(a, i, 0) == [R.BeginRead(i)] + [R.EndRead(i)];
      } else {
        var n := |a.incoming|;
        StepReaches(t, R.BeginRead(i), [R.ReadBytes(i, n), R.EndRead(i)], ReadNear(a), ReadFar(a, b));
        assert ReadSteps(a, i, n) == [R.BeginRead(i)] + [R.ReadBytes(i, n), R.EndRead(i)];
      }
    }
  }

  lemma ReadContinues(t: R.Tie, a: R.End, b: R.End, i: R.Side)
    requires a.enabled && a.reader.Resting? && At(t, i, Reads(a, 0), b)
    ensures a.incoming == [] ==> Reaches(t, i, [R.EndRead(i)], ReadNear(a), ReadFar(a, b))
    ensures a.incoming != [] ==>
      Reaches(t, i, [R.ReadBytes(i, |a.incoming|), R.EndRead(i)], ReadNear(a), ReadFar(a, b))
  {
    if a.incoming == [] {
      ReadEndsDry(a, b, i);
      hide Goes;
      StepGoes(t, R.EndRead(i), ReadNear(a), b);
    } else {
      ReadTakesAll(a, b, i);
      ReadEnds(a, b, i);
      hide Goes, Reaches, R.CanStep, R.Apply, Reads, ReadAll, ReadNear, ReadFar;
      var n := |a.incoming|;
      StepGoes(t, R.ReadBytes(i, n), ReadAll(a), b.(buf := b.buf + a.incoming));
      StepGoes(R.Apply(t, R.ReadBytes(i, n)), R.EndRead(i), ReadNear(a), ReadFar(a, b));
      StepReaches(t, R.ReadBytes(i, n), [R.EndRead(i)], ReadNear(a), ReadFar(a, b));
      assert [R.ReadBytes(i, n)] + [R.EndRead(i)] == [R.ReadBytes(i, n), R.EndRead(i)];
    }
  }

  lemma WriteBegins(a: R.End, b: R.End, i: R.Side)
    requires R.Enabled(a, b, R.BeginWrite(i))
    ensures Goes(a, b, R.BeginWrite(i), if a.enabled then Writes(a, 0) else WriteNear(a, 0), b)
  {
    assert a.sent + a.buf[..0] == a.sent && a.buf[0..] == a.buf;
  }

  lemma WriteTakes(a: R.End, b: R.End, i: R.Side, n: nat)
    requires a.writable && 0 < n <= |a.buf|
    ensures Goes(Writes(a, 0), b, R.WriteBytes(i, n), Writes(a, n), b)
  {
    assert a.sent + a.buf[..0] == a.sent && a.buf[0..] == a.buf;
  }

  // A queue with bytes left has had a write refused.
  function FinishSteps(a: R.End, i: R.Side): seq<R.Step> {
    if a.buf == [] then [R.EndWrite(i)] else [R.Refuse(i), R.EndWrite(i)]
  }

  lemma WriteEndsEmpty(a: R.End, b: R.End, i: R.Side)
    requires a.writer.Writing? && a.buf == []
    ensures Goes(a, b, R.EndWrite(i), Finished(a), b)
  {
    assert a.(writable := a.writable && a.buf == []) == a;
    hide R.Updated;
  }

  lemma WriteIsRefused(a: R.End, b: R.End, i: R.Side)
    requires a.writer.Writing? && a.buf != []
    ensures Goes(a, b, R.Refuse(i), a.(writable := false, writer := R.Full), b)
  {
  }

  lemma WriteEndsFull(a: R.End, b: R.End, i: R.Side)
    requires a.writer.Writing? && a.buf != []
    ensures Goes(a.(writable := false, writer := R.Full), b, R.EndWrite(i), Finished(a), b)
  {
  }

  lemma WriteFinishes(t: R.Tie, i: R.Side, a: R.End, b: R.End)
    requires At(t, i, a, b) && a.writer.Writing?
    ensures Reaches(t, i, FinishSteps(a, i), Finished(a), b)
  {
    if a.buf == [] {
      WriteEndsEmpty(a, b, i);
      hide Goes, Finished;
      StepGoes(t, R.EndWrite(i), Finished(a), b);
    } else {
      var full := a.(writable := false, writer := R.Full);
      WriteIsRefused(a, b, i);
      WriteEndsFull(a, b, i);
      hide Goes, Finished, Reaches, R.CanStep, R.Apply;
      StepGoes(t, R.Refuse(i), full, b);
      StepGoes(R.Apply(t, R.Refuse(i)), R.EndWrite(i), Finished(a), b);
      StepReaches(t, R.Refuse(i), [R.EndWrite(i)], Finished(a), b);
      assert [R.Refuse(i)] + [R.EndWrite(i)] == [R.Refuse(i), R.EndWrite(i)];
    }
  }

  lemma WriteContinues(t: R.Tie, a: R.End, b: R.End, i: R.Side, n: nat)
    requires At(t, i, Writes(a, 0), b) && n <= |a.buf| && (n > 0 ==> a.writable)
    ensures Reaches(t, i, (if n == 0 then [] else [R.WriteBytes(i, n)]) + FinishSteps(Writes(a, n), i),
                    Finished(Writes(a, n)), b)
  {
    if n == 0 {
      WriteFinishes(t, i, Writes(a, 0), b);
      assert [] + FinishSteps(Writes(a, 0), i) == FinishSteps(Writes(a, 0), i);
    } else {
      WriteTakes(a, b, i, n);
      assert Writes(a, n).writer.Writing?;
      hide Goes, Finished, Reaches, Writes, FinishSteps, R.CanStep, R.Apply;
      StepGoes(t, R.WriteBytes(i, n), Writes(a, n), b);
      WriteFinishes(R.Apply(t, R.WriteBytes(i, n)), i, Writes(a, n), b);
      StepReaches(t, R.WriteBytes(i, n), FinishSteps(Writes(a, n), i), Finished(Writes(a, n)), b);
    }
  }

  lemma WriteInOne(t: R.Tie, i: R.Side, n: nat)
    requires R.CanStep(t, R.BeginWrite(i)) && n <= |t.At(i).buf| && (n > 0 ==> t.At(i).writable)
    ensures Reaches(t, i, WriteSteps(t.At(i), i, n), WriteNear(t.At(i), n), t.At(i.Other()))
  {
    var a, b := t.At(i), t.At(i.Other());
    WriteBegins(a, b, i);
    if !a.enabled {
      StepGoes(t, R.BeginWrite(i), WriteNear(a, 0), b);
    } else {
      StepGoes(t, R.BeginWrite(i), Writes(a, 0), b);
      WriteContinues(R.Apply(t, R.BeginWrite(i)), a, b, i, n);
      var rest := (if n == 0 then [] else [R.WriteBytes(i, n)]) + FinishSteps(Writes(a, n), i);
      assert WriteSteps(a, i, n) == [R.BeginWrite(i)] + rest;
      hide Reaches, Finished, Writes, R.CanStep, R.Apply;
      StepReaches(t, R.BeginWrite(i), rest, Finished(Writes(a, n)), b);
    }
  }

  // What the endpoint, its socket and its mode hold; the ready list and the handlers' progress are
  // the relation's alone.
  datatype Image = Image(enabled: bool, incoming: seq<byte>, received: seq<byte>, sent: seq<byte>,
                         buf: seq<byte>, mode: Option<bool>)

  function ImageOf(h: B.Half): Image {
    Image(h.enabled, h.incoming, h.received, h.sent, h.buf, h.mode)
  }

  function Shown(m: R.End): Image {
    Image(m.enabled, m.incoming, m.received, m.sent, m.buf, if m.registered then Some(m.write) else None)
  }

  ghost predicate Mirrors(e: EndPoint, m: R.End)
    requires e.buf.Valid()
    reads e`enabled, e`open, e.fd, e.buf`chunk, e.buf`repr, e.buf.repr, e.poll, e.refs
  {
    ImageOf(Seen(e)) == Shown(m)
  }

  lemma ShownUpdated(m: R.End, write: bool)
    ensures Shown(R.Updated(m, write)) == Shown(m).(mode := if m.registered then Some(write) else None)
  {
  }

  lemma ReadShown(m: R.End, o: R.End, cnt: nat)
    requires cnt == if m.enabled then |m.incoming| else 0
    ensures Shown(ReadNear(m)) == Shown(m).(incoming := m.incoming[cnt..], received := m.received + m.incoming[..cnt])
    ensures Shown(ReadFar(m, o)) == Shown(o).(buf := o.buf + m.incoming[..cnt],
      mode := if cnt > 0 && o.registered then Some(true) else Shown(o).mode)
  {
    ShownUpdated(o.(buf := o.buf + m.incoming), true);
    hide R.Updated;
    if m.enabled {
      assert m.incoming[..cnt] == m.incoming && m.incoming[cnt..] == [];
    } else {
      assert m.received + m.incoming[..0] == m.received && m.incoming[0..] == m.incoming;
      assert o.buf + m.incoming[..0] == o.buf;
    }
  }

  // The images of the two ends after handle_read(),
  lemma ReadImages(n: B.Half, f: B.Half, n': B.Half, f': B.Half)
    requires B.Does(B.Input(true), n, f, n', f') && (n.enabled ==> n'.incoming == [])
    ensures var cnt := if n.enabled then |n.incoming| else 0;
      && ImageOf(n') == ImageOf(n).(incoming := n.incoming[cnt..], received := n.received + n.incoming[..cnt])
      && ImageOf(f') == ImageOf(f).(buf := f.buf + n.incoming[..cnt],
           mode := if cnt > 0 && f.mode.Some? then Some(true) else f.mode)
  {
    if !n.enabled {
      assert n.received + n.incoming[..0] == n.received && n.incoming[0..] == n.incoming;
      assert f.buf + n.incoming[..0] == f.buf;
    }
  }

  // and after handle_write().
  lemma WriteImages(n: B.Half, f: B.Half, n': B.Half, f': B.Half)
    requires B.Does(B.Output(true), n, f, n', f')
    ensures var cnt := |n.buf| - |n'.buf|;
      && 0 <= cnt && (n.enabled || cnt == 0) && f' == f && |n'.sent| == |n.sent| + cnt
      && ImageOf(n') == ImageOf(n).(sent := n.sent + n.buf[..cnt], buf := n.buf[cnt..],
           mode := if n.enabled && n.mode.Some? then Some(cnt < |n.buf|) else n.mode)
  {
    if !n.enabled { assert n.sent + n.buf[..0] == n.sent && n.buf[0..] == n.buf; }
  }

  lemma WriteShown(m: R.End, cnt: nat)
    requires cnt <= |m.buf| && (m.enabled || cnt == 0)
    ensures Shown(WriteNear(m, cnt)) == Shown(m).(sent := m.sent + m.buf[..cnt], buf := m.buf[cnt..],
      mode := if m.enabled && m.registered then Some(cnt < |m.buf|) else Shown(m).mode)
  {
    if m.enabled {
      var x := Writes(m, cnt);
      ShownUpdated(x.(writable := x.writable && x.buf == []), x.buf != []);
      hide R.Updated;
    } else {
      assert m.sent + m.buf[..0] == m.sent && m.buf[0..] == m.buf;
    }
  }

  lemma WriteMirrors(n: B.Half, f: B.Half, n': B.Half, f': B.Half, m: R.End, o: R.End)
    requires B.Does(B.Output(true), n, f, n', f') && ImageOf(n) == Shown(m) && ImageOf(f) == Shown(o)
    ensures var cnt := |n.buf| - |n'.buf|;
      && 0 <= cnt <= |m.buf| && (n.enabled || cnt == 0) && |n'.sent| == |n.sent| + cnt
      && ImageOf(n') == Shown(WriteNear(m, cnt)) && ImageOf(f') == Shown(o)
      && (n.enabled && cnt < |m.buf| ==> B.Ends(n.writeLog, n'.writeLog)) && (n.prompt && cnt > 0 ==> n.room > 0)
  {
    WriteImages(n, f, n', f');
    WriteShown(m, |n.buf| - |n'.buf|);
    hide WriteNear;
  }

  method ReadMirrored(a: EndPoint, b: EndPoint, ghost m: R.End, ghost o: R.End)
    requires Whole(a, b) && Mirrors(a, m) && Mirrors(b, o)
    modifies b.buf`chunk, b.buf`repr, b.buf.repr, a.fd`incoming, a.fd`received, a.fd`readLog, a.poll
    ensures Whole(a, b) && (a.enabled ==> a.fd.RanDry() && (a.fd.prompt ==> a.fd.incoming == []))
    ensures !a.enabled || a.fd.incoming == [] ==> Mirrors(a, ReadNear(m)) && Mirrors(b, ReadFar(m, o))
  {
    hide Marshalling.Chain, Marshalling.Parts, Marshalling.Join;
    ghost var n, f := Seen(a), Seen(b);
    ReadSeen(a, b, true);
    if !a.enabled || a.fd.incoming == [] {
      ReadImages(n, f, Seen(a), Seen(b));
      ReadShown(m, o, if m.enabled then |m.incoming| else 0);
    }
    hide ReadNear, ReadFar, Whole, B.Does;
  }

  method WriteMirrored(a: EndPoint, b: EndPoint, ghost m: R.End, ghost o: R.End) returns (ghost cnt: nat)
    requires Whole(a, b) && Mirrors(a, m) && Mirrors(b, o)
    modifies a.buf`chunk, a.buf.repr, a.fd`sent, a.fd`writeLog, a.fd`room, a.poll
    ensures Whole(a, b) && cnt <= |m.buf| && (a.enabled && cnt < |m.buf| ==> a.fd.Refused())
    ensures |a.fd.sent| == |old(a.fd.sent)| + cnt
    ensures a.fd.prompt && cnt > 0 ==> old(a.fd.room) > 0
    ensures (a.enabled || cnt == 0) && Mirrors(a, WriteNear(m, cnt)) && Mirrors(b, o)
  {
    hide Marshalling.Chain, Marshalling.Parts, Marshalling.Join;
    ghost var n, f := Seen(a), Seen(b);
    WriteSeen(a, b, true);
    cnt := |n.buf| - |Seen(a).buf|;
    assert B.Does(B.Output(true), n, f, Seen(a), Seen(b)) by { hide B.Does, Seen; }
    hide B.Does, WriteNear, Whole, B.Follows;
    WriteMirrors(n, f, Seen(a), Seen(b), m, o);
  }

  // A call of handle_read() takes BeginRead, what it read and EndRead, if the read that ended it
  // found no more input, as it does on a socket that yields what it has.
  method ReadInSteps(a: EndPoint, b: EndPoint, ghost t: R.Tie, ghost i: R.Side) returns (ghost es: seq<R.Step>)
    requires Whole(a, b) && Mirrors(a, t.At(i)) && Mirrors(b, t.At(i.Other())) && R.CanStep(t, R.BeginRead(i))
    modifies b.buf`chunk, b.buf`repr, b.buf.repr, a.fd`incoming, a.fd`received, a.fd`readLog, a.poll
    ensures Whole(a, b) && (a.enabled ==> a.fd.RanDry())
    ensures es == ReadSteps(t.At(i), i, |t.At(i).incoming|)
    ensures a.fd.prompt || !a.enabled || a.fd.incoming == [] ==>
      R.IsRun(t, es) && Mirrors(a, R.After(t, es).At(i)) && Mirrors(b, R.After(t, es).At(i.Other()))
  {
    es := ReadSteps(t.At(i), i, |t.At(i).incoming|);
    ReadInOne(t, i);
    hide R.CanStep, R.IsRun, R.After, ReadSteps, ReadNear, ReadFar, Mirrors;
    ReadMirrored(a, b, t.At(i), t.At(i.Other()));
  }

  // A call of handle_write() takes BeginWrite, what it sent, the refused write if bytes are left,
  // and EndWrite, if bytes go only into a socket with room, as they do on one that takes what it
  // has room for.
  method WriteInSteps(a: EndPoint, b: EndPoint, ghost t: R.Tie, ghost i: R.Side)
    returns (ghost cnt: nat, ghost es: seq<R.Step>)
    requires Whole(a, b) && Mirrors(a, t.At(i)) && Mirrors(b, t.At(i.Other())) && R.CanStep(t, R.BeginWrite(i))
    modifies a.buf`chunk, a.buf.repr, a.fd`sent, a.fd`writeLog, a.fd`room, a.poll
    ensures Whole(a, b) && cnt <= |t.At(i).buf| && es == WriteSteps(t.At(i), i, cnt)
    ensures |a.fd.sent| == |old(a.fd.sent)| + cnt
    ensures a.enabled && cnt < |t.At(i).buf| ==> a.fd.Refused()
    ensures cnt == 0 || t.At(i).writable || (a.fd.prompt && old(a.fd.room) == 0) ==>
      R.IsRun(t, es) && Mirrors(a, R.After(t, es).At(i)) && Mirrors(b, R.After(t, es).At(i.Other()))
  {
    hide R.CanStep, R.IsRun, R.After, WriteSteps, WriteNear, Mirrors;
    cnt := WriteMirrored(a, b, t.At(i), t.At(i.Other()));
    es := WriteSteps(t.At(i), i, cnt);
    if cnt == 0 || t.At(i).writable { WriteInOne(t, i, cnt); }
  }
}
