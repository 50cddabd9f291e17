// Delivery gets done: with room in both sockets, whatever the handlers and poll threads do next
// brings the end nearer, and something can be done until all is delivered.
module RelayProgress {
  import opened Common
  import opened Relaying

  predicate Running(a: End) {
    a.registered && a.enabled && a.writable
  }

  predicate Undelivered(a: End) {
    a.incoming != [] || a.buf != []
  }

  // Steps of the handlers and poll threads, without refused writes.
  predicate Moves(e: Step) {
    !e.Arrive? && !e.Refuse? && !e.Drain? && !e.Add? && !e.Ready?
  }

  // Such a step where epoll_wait returns for a socket on its list, whatever it reports of it.
  predicate Works(a: End, e: Step) {
    Moves(e) && (e.Wait? ==> a.pendingIn || a.pendingOut)
  }

  // What an end does next; epoll_wait reports all that is so.
  ghost function NextAt(a: End, i: Side): Step {
    if a.reader.Reading? then if a.incoming == [] then EndRead(i) else ReadBytes(i, |a.incoming|)
    else if a.writer.Full? || (a.writer.Writing? && a.buf == []) then EndWrite(i)
    else if a.writer.Writing? then WriteBytes(i, |a.buf|)
    else if a.batchIn then BeginRead(i)
    else if a.batchOut then BeginWrite(i)
    else Wait(i, a.incoming != [], a.watched && a.writable)
  }

  // A handler at work goes first.
  ghost function Next(t: Tie, i: Side): Step {
    if AtRest(t.At(i.Other())) then NextAt(t.At(i), i) else NextAt(t.At(i.Other()), i.Other())
  }

  // A socket on the ready list may be reported for all its mask asks for.
  function ListWork(a: End): nat {
    if !a.pendingIn && !a.pendingOut then 0 else if a.watched then 8 else 3
  }

  function InWork(a: End): nat {
    11 * |a.incoming| + 2 * Bit(a.batchIn) +
    if a.reader.Resting? then 0 else if a.reader.cnt == 0 then 1 else 9
  }

  function OutWork(a: End): nat {
    |a.buf| + 5 * Bit(a.batchOut) + 4 * Bit(!a.writer.Idle?)
  }

  function Work(a: End): nat {
    ListWork(a) + InWork(a) + OutWork(a)
  }

  lemma BusyGoesOn(a: End, b: End, i: Side)
    requires Running(a) && !AtRest(a)
    ensures Enabled(a, b, NextAt(a, i)) && Works(a, NextAt(a, i)) && Tells(a, NextAt(a, i))
  {
  }

  lemma RestGoesOn(a: End, b: End, i: Side)
    requires Recoverable(a, b) && Consistent(a, b) && Running(a) && AtRest(a) && AtRest(b) && Undelivered(a)
    ensures Enabled(a, b, NextAt(a, i)) && Works(a, NextAt(a, i)) && Tells(a, NextAt(a, i))
  {
  }

  lemma NextIsEnabled(t: Tie, i: Side)
    requires Recoverable(t.left, t.right) && Sound(t.left, t.right) && Running(t.left) && Running(t.right)
    requires Undelivered(t.At(i))
    ensures var e := Next(t, i); CanStep(t, e) && Works(t.At(e.i), e) && Tells(t.At(e.i), e)
  {
    var a, b := t.At(i), t.At(i.Other());
    hide Enabled, Works, Tells, Interested, OutputAwaited, InputRecovers, Undelivered;
    if !AtRest(b) { BusyGoesOn(b, a, i.Other()); }
    else if !AtRest(a) { BusyGoesOn(a, b, i); }
    else { RestGoesOn(a, b, i); }
  }

  lemma UpdateWorks(a: End, write: bool)
    requires a.watched == (a.registered && a.write)
    ensures Work(Updated(a, write)) <= Work(a) + if write == a.write then 0 else if write then 8 else 3
  {
  }

  lemma ReadingWorks(a: End, b: End, e: Step)
    requires Enabled(a, b, e) && (e.BeginRead? || e.ReadBytes?)
    ensures Work(Near(a, b, e)) + Work(Far(a, b, e)) < Work(a) + Work(b)
  {
    var a', b' := Near(a, b, e), Far(a, b, e);
    assert OutWork(a') == OutWork(a) && InWork(b') == InWork(b);
    assert InWork(a') + OutWork(b') < InWork(a) + OutWork(b);
  }

  lemma EndReadWorks(a: End, b: End, e: Step)
    requires Enabled(a, b, e) && Consistent(b, a) && e.EndRead?
    ensures Work(Near(a, b, e)) + Work(Far(a, b, e)) < Work(a) + Work(b)
  {
    UpdateWorks(b, true);
    hide Updated;
  }

  lemma WritingWorks(a: End, b: End, e: Step)
    requires Enabled(a, b, e) && Consistent(a, b) && (e.BeginWrite? || e.WriteBytes? || e.EndWrite?)
    ensures Work(Near(a, b, e)) + Work(Far(a, b, e)) < Work(a) + Work(b)
  {
    UpdateWorks(a, a.buf != []);
    assert Updated(a, a.buf != []).writer == a.writer;
    hide Updated;
  }

  // Every such step lowers the work left, not only the one Next names.
  lemma StepWorks(a: End, b: End, e: Step)
    requires Enabled(a, b, e) && Consistent(a, b) && Consistent(b, a) && Works(a, e)
    ensures Work(Near(a, b, e)) + Work(Far(a, b, e)) < Work(a) + Work(b)
  {
    if e.BeginRead? || e.ReadBytes? {
      hide Enabled, Near, Far, Work;
      ReadingWorks(a, b, e);
    } else if e.EndRead? {
      hide Enabled, Near, Far, Work;
      EndReadWorks(a, b, e);
    } else if e.BeginWrite? || e.WriteBytes? || e.EndWrite? {
      hide Enabled, Near, Far, Work;
      WritingWorks(a, b, e);
    }
  }

  lemma StepKeepsRunning(a: End, b: End, e: Step)
    requires Enabled(a, b, e) && Running(a) && Running(b) && Moves(e)
    ensures Running(Near(a, b, e)) && Running(Far(a, b, e))
    ensures Near(a, b, e).arrived == a.arrived && Far(a, b, e).arrived == b.arrived
  {
  }

  ghost function WorkLeft(t: Tie): nat { Work(t.left) + Work(t.right) }

  ghost predicate IsSchedule(t: Tie, es: seq<Step>)
    requires IsRun(t, es)
    decreases |es|
  {
    es == [] || (Works(t.At(es[0].i), es[0]) && IsSchedule(Apply(t, es[0]), es[1..]))
  }

  ghost predicate Going(t: Tie) {
    Sound(t.left, t.right) && Recoverable(t.left, t.right) && Running(t.left) && Running(t.right)
  }

  lemma WorkStep(t: Tie, e: Step)
    requires Going(t) && CanStep(t, e) && Works(t.At(e.i), e)
    ensures Going(Apply(t, e)) && WorkLeft(Apply(t, e)) < WorkLeft(t)
    ensures Apply(t, e).left.arrived == t.left.arrived && Apply(t, e).right.arrived == t.right.arrived
  {
    var a, b := t.At(e.i), t.At(e.i.Other());
    hide Enabled, Near, Far, Recoverable, Consistent, Conserved, Work;
    StepWorks(a, b, e);
    StepKeepsRunning(a, b, e);
    TieStep(t, e);
  }

  lemma {:induction false} SchedulesEnd(t: Tie, es: seq<Step>)
    requires Going(t) && IsRun(t, es) && IsSchedule(t, es)
    ensures Going(After(t, es)) && |es| + WorkLeft(After(t, es)) <= WorkLeft(t)
    ensures After(t, es).left.arrived == t.left.arrived && After(t, es).right.arrived == t.right.arrived
    decreases |es|
  {
    hide CanStep, Apply, Works, Going, WorkLeft;
    if es != [] {
      WorkStep(t, es[0]);
      SchedulesEnd(Apply(t, es[0]), es[1..]);
    }
  }

  predicate Delivered(t: Tie) {
    t.left.sent == t.right.arrived && t.right.sent == t.left.arrived
  }

  // Main result: after any run that kept output, with both endpoints running, every schedule of
  // handlers and poll threads is at most as long as the work left, and where it can go no further
  // all that ever arrived was written to the other socket.
  lemma EveryScheduleDelivers(t: Tie, es: seq<Step>, fs: seq<Step>)
    requires Starts(t) && IsRun(t, es) && KeepsOutput(t, es)
    requires Running(After(t, es).left) && Running(After(t, es).right)
    requires IsRun(After(t, es), fs) && IsSchedule(After(t, es), fs)
    ensures |fs| <= WorkLeft(After(t, es))
    ensures var now, end := After(t, es), After(After(t, es), fs);
      && end.left.arrived == now.left.arrived && end.right.arrived == now.right.arrived
      && (Delivered(end) || exists e: Step :: CanStep(end, e) && Works(end.At(e.i), e) && Tells(end.At(e.i), e))
  {
    StartIsSound(t);
    RunsAreSound(t, es);
    SchedulesEnd(After(t, es), fs);
    Onwards(After(After(t, es), fs));
  }

  lemma Onwards(t: Tie)
    requires Going(t)
    ensures Delivered(t) || exists e: Step :: CanStep(t, e) && Works(t.At(e.i), e) && Tells(t.At(e.i), e)
  {
    hide CanStep, Works, Tells, Next, Recoverable, Consistent, Running;
    if Undelivered(t.left) {
      NextIsEnabled(t, Left);
    } else if Undelivered(t.right) {
      NextIsEnabled(t, Right);
    }
  }

  // In particular some schedule does deliver everything.
  lemma {:induction false} Complete(t: Tie) returns (es: seq<Step>)
    requires Going(t)
    ensures IsRun(t, es) && IsSchedule(t, es) && Frank(t, es) && Delivered(After(t, es))
    decreases WorkLeft(t)
  {
    hide CanStep, Apply, Works, Tells, Going, WorkLeft;
    if Delivered(t) {
      es := [];
    } else {
      Onwards(t);
      var e: Step :| CanStep(t, e) && Works(t.At(e.i), e) && Tells(t.At(e.i), e);
      WorkStep(t, e);
      var rest := Complete(Apply(t, e));
      Onward(t, e, rest);
      es := [e] + rest;
    }
  }

  lemma DeliveryCompletes(t: Tie, es: seq<Step>) returns (more: seq<Step>)
    requires Starts(t) && IsRun(t, es) && KeepsOutput(t, es)
    requires Running(After(t, es).left) && Running(After(t, es).right)
    ensures IsRun(After(t, es), more) && IsSchedule(After(t, es), more) && Frank(After(t, es), more)
    ensures Delivered(After(After(t, es), more))
  {
    StartIsSound(t);
    RunsAreSound(t, es);
    more := Complete(After(t, es));
  }
}
