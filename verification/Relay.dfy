// Two tied endpoints and their sockets under edge-triggered epoll, from tie_fd() until the tie is
// shut down: the steps of the handlers, the poll threads and the kernel, in any order.
module Relaying {
  import opened Bits

  // handle_read() holds the peer's lock and counts what it read.
  datatype Reader = Resting | Reading(cnt: nat)

  // handle_write() holds its own lock; Full after a refused write.
  datatype Writer = Idle | Writing | Full

  datatype End = End(
    registered: bool,     // add() is done
    enabled: bool,        // enabled_
    write: bool,          // WRITE in mode_; READ always is
    watched: bool,        // EPOLLOUT in the kernel's mask
    arrived: seq<byte>,   // all that reached the socket
    incoming: seq<byte>,  // of that, what was not read yet
    received: seq<byte>,  // and what was
    buf: seq<byte>,       // buf_: from the peer's socket, not sent yet
    sent: seq<byte>,      // written to the socket
    writable: bool,
    pendingIn: bool, pendingOut: bool,  // on the kernel's ready list
    batchIn: bool, batchOut: bool,      // returned by epoll_wait, not dispatched yet
    reader: Reader, writer: Writer)

  datatype Side = Left | Right {
    function Other(): Side { if this == Left then Right else Left }
  }

  datatype Tie = Tie(left: End, right: End) {
    function At(i: Side): End { if i == Left then left else right }

    function With(i: Side, a: End): Tie { if i == Left then this.(left := a) else this.(right := a) }
  }

  datatype Step =
    | Arrive(i: Side, bytes: seq<byte>)     // the socket gets input
    | Drain(i: Side)                        // it has room again
    | Add(i: Side)                          // PollMgr::add()
    | Ready(i: Side)                        // ready()
    | Wait(i: Side, input: bool, output: bool)  // epoll_wait reports it
    | BeginRead(i: Side)                    // handle_read() is dispatched
    | ReadBytes(i: Side, n: nat)            // one read() of its loop
    | EndRead(i: Side)                      // the read() that fails, and update_mode() of the peer
    | BeginWrite(i: Side)                   // handle_write() is dispatched
    | WriteBytes(i: Side, n: nat)           // one write() of its loop
    | Refuse(i: Side)                       // a write() that fails
    | EndWrite(i: Side)                     // update_mode()

  // When a step may happen; a is the end it concerns, b the other.
  ghost predicate Enabled(a: End, b: End, e: Step) {
    match e
    case Arrive(i, bytes) => bytes != []
    case Drain(i) => true
    case Add(i) => !a.registered
    case Ready(i) => true
    case Wait(i, input, output) =>
      // The batch before is worked off. What is on the ready list and still so is reported,
      // output only when asked for; more may be.
      a.registered && !a.batchIn && !a.batchOut && a.reader.Resting? && a.writer.Idle? &&
      (a.pendingIn && a.incoming != [] ==> input) && (a.pendingOut && a.writable && a.watched ==> output) &&
      (output ==> a.watched)
    case BeginRead(i) => a.batchIn && a.reader.Resting? && a.writer.Idle? && (a.enabled ==> b.writer.Idle?)
    case ReadBytes(i, n) => a.reader.Reading? && 0 < n <= |a.incoming|
    case EndRead(i) => a.reader.Reading? && a.incoming == []
    case BeginWrite(i) =>
      // Input comes first.
      a.batchOut && !a.batchIn && a.reader.Resting? && a.writer.Idle? && (a.enabled ==> b.reader.Resting?)
    case WriteBytes(i, n) => a.writer.Writing? && a.writable && 0 < n <= |a.buf|
    case Refuse(i) => a.writer.Writing? && a.buf != []
    case EndWrite(i) => a.writer.Full? || (a.writer.Writing? && a.buf == [])
  }

  // update_mode() of an endpoint: nothing when it is not registered, EPOLL_CTL_MOD only when the
  // mode changes. That call puts the socket on the ready list if what is asked for is so already.
  function Updated(a: End, write: bool): End {
    if !a.registered || write == a.write then a
    else a.(write := write, watched := write,
            pendingIn := a.pendingIn || a.incoming != [], pendingOut := a.pendingOut || (write && a.writable))
  }

  // The end a step concerns, afterwards.
  ghost function Near(a: End, b: End, e: Step): End
    requires Enabled(a, b, e)
  {
    match e
    case Arrive(i, bytes) =>
      a.(arrived := a.arrived + bytes, incoming := a.incoming + bytes, pendingIn := a.pendingIn || a.registered)
    case Drain(i) => a.(writable := true, pendingOut := a.pendingOut || (a.registered && a.watched))
    case Add(i) =>
      a.(registered := true, write := true, watched := true,
         pendingIn := a.incoming != [], pendingOut := a.writable)
    case Ready(i) => a.(enabled := true)
    case Wait(i, input, output) => a.(pendingIn := false, pendingOut := false, batchIn := input, batchOut := output)
    case BeginRead(i) => a.(batchIn := false, reader := if a.enabled then Reading(0) else Resting)
    case ReadBytes(i, n) =>
      a.(received := a.received + a.incoming[..n], incoming := a.incoming[n..], reader := Reading(a.reader.cnt + n))
    case EndRead(i) => a.(reader := Resting)
    case BeginWrite(i) => a.(batchOut := false, writer := if a.enabled then Writing else Idle)
    case WriteBytes(i, n) => a.(sent := a.sent + a.buf[..n], buf := a.buf[n..])
    case Refuse(i) => a.(writable := false, writer := Full)
    case EndWrite(i) => Updated(a, a.buf != []).(writer := Idle)
  }

  // And its peer.
  ghost function Far(a: End, b: End, e: Step): End
    requires Enabled(a, b, e)
  {
    match e
    case ReadBytes(i, n) => b.(buf := b.buf + a.incoming[..n])
    case EndRead(i) => if a.reader.cnt > 0 then Updated(b, true) else b
    case _ => b
  }

  ghost predicate CanStep(t: Tie, e: Step) {
    Enabled(t.At(e.i), t.At(e.i.Other()), e)
  }

  ghost function Apply(t: Tie, e: Step): Tie
    requires CanStep(t, e)
  {
    var a, b := t.At(e.i), t.At(e.i.Other());
    t.With(e.i, Near(a, b, e)).With(e.i.Other(), Far(a, b, e))
  }

  ghost predicate IsRun(t: Tie, es: seq<Step>)
    decreases |es|
  {
    es == [] || (CanStep(t, es[0]) && IsRun(Apply(t, es[0]), es[1..]))
  }

  ghost function After(t: Tie, es: seq<Step>): Tie
    requires IsRun(t, es)
    decreases |es|
  {
    if es == [] then t else After(Apply(t, es[0]), es[1..])
  }

  // Two fresh endpoints; their sockets may have room or not.
  const FRESH := End(false, false, false, false, [], [], [], [], [], true, false, false, false, false, Resting, Idle)

  predicate Starts(t: Tie) {
    t.left == FRESH.(writable := t.left.writable) && t.right == FRESH.(writable := t.right.writable)
  }

  // The state after the first k steps.
  ghost function StateAt(t: Tie, es: seq<Step>, k: nat): Tie
    requires IsRun(t, es) && k <= |es|
    decreases k
  {
    if k == 0 then t else StateAt(Apply(t, es[0]), es[1..], k - 1)
  }

  // An event finds its endpoint not ready(), and is dropped.
  predicate Drops(a: End, e: Step) {
    (e.BeginRead? || e.BeginWrite?) && !a.enabled
  }

  // A dropped EPOLLIN event leaves input behind, and no new EPOLLIN event is listed.
  predicate LosesInput(a: End, e: Step) {
    e.BeginRead? && !a.enabled && a.incoming != [] && !a.pendingIn
  }

  // A dropped EPOLLOUT event leaves room in the socket, and no new EPOLLOUT event is listed.
  predicate LosesOutput(a: End, e: Step) {
    e.BeginWrite? && !a.enabled && a.writable && !a.pendingOut
  }

  // What epoll_wait says of a socket: of a listed one all that is so, of any other nothing.
  predicate Tells(a: End, e: Step) {
    e.Wait? ==>
      if a.pendingIn || a.pendingOut then e.input == (a.incoming != []) && e.output == (a.watched && a.writable)
      else !e.input && !e.output
  }

  // Runs with a kernel that always does so.
  ghost predicate Frank(t: Tie, es: seq<Step>)
    requires IsRun(t, es)
    decreases |es|
  {
    es == [] || (Tells(t.At(es[0].i), es[0]) && Frank(Apply(t, es[0]), es[1..]))
  }

  // Runs without drops, without harmful drops, and without harmful drops of output.

  ghost predicate NoDrops(t: Tie, es: seq<Step>)
    requires IsRun(t, es)
    decreases |es|
  {
    es == [] || (!Drops(t.At(es[0].i), es[0]) && NoDrops(Apply(t, es[0]), es[1..]))
  }

  ghost predicate Harmless(t: Tie, es: seq<Step>)
    requires IsRun(t, es)
    decreases |es|
  {
    es == [] ||
    (!LosesInput(t.At(es[0].i), es[0]) && !LosesOutput(t.At(es[0].i), es[0]) && Harmless(Apply(t, es[0]), es[1..]))
  }

  ghost predicate KeepsOutput(t: Tie, es: seq<Step>)
    requires IsRun(t, es)
    decreases |es|
  {
    es == [] || (!LosesOutput(t.At(es[0].i), es[0]) && KeepsOutput(Apply(t, es[0]), es[1..]))
  }

  // All endpoints ready() before their first event is dispatched is more than any of these needs.
  lemma {:induction false} NoDropsNoHarm(t: Tie, es: seq<Step>)
    requires IsRun(t, es)
    ensures NoDrops(t, es) ==> Harmless(t, es)
    ensures Harmless(t, es) ==> KeepsOutput(t, es)
    decreases |es|
  {
    hide CanStep, Apply;
    if es != [] { NoDropsNoHarm(Apply(t, es[0]), es[1..]); }
  }

  // Nothing is lost, invented or reordered between the socket of b and that of a.
  ghost predicate Conserved(a: End, b: End) {
    a.sent + a.buf == b.received && b.received + b.incoming == b.arrived
  }

  // The kernel's mask is the mode, a.m_ has one holder, and output is handled one event at a
  // time, with WRITE in the mode. Handlers work for ready() endpoints only, and WRITE stays in
  // the mode until then.
  ghost predicate Consistent(a: End, b: End) {
    && a.watched == (a.registered && a.write)
    && (a.writer.Idle? || (b.reader.Resting? && !a.batchOut))
    && (a.batchOut || !a.writer.Idle? ==> a.registered && a.write)
    && (a.batchIn ==> a.registered) && (!a.writer.Idle? ==> a.enabled)
    && (a.registered && !a.enabled ==> a.write)
  }

  // Unsent bytes keep WRITE in the mode, or somebody is about to put it there.
  ghost predicate Interested(a: End, b: End) {
    a.registered && a.buf != [] && !a.write ==> !a.writer.Idle? || (b.reader.Reading? && b.reader.cnt > 0)
  }

  // With WRITE in the mode and room in the socket, an EPOLLOUT event is under way.
  ghost predicate OutputAwaited(a: End) {
    a.registered && a.write && a.writable && !a.writer.Writing? ==> a.pendingOut || a.batchOut
  }

  // With input unread, an EPOLLIN event is under way.
  ghost predicate InputAwaited(a: End) {
    a.registered && a.incoming != [] && a.reader.Resting? ==> a.pendingIn || a.batchIn
  }

  // With input unread, an EPOLLIN event is under way, or an EPOLLOUT event will change the mode
  // and so bring one.
  ghost predicate InputRecovers(a: End) {
    a.registered && a.incoming != [] && a.reader.Resting? ==> a.pendingIn || a.batchIn || a.write
  }

  ghost predicate Sound(a: End, b: End) {
    Conserved(a, b) && Conserved(b, a) && Consistent(a, b) && Consistent(b, a)
  }

  ghost predicate Wakeful(a: End, b: End) {
    Interested(a, b) && Interested(b, a) && OutputAwaited(a) && OutputAwaited(b) && InputAwaited(a) && InputAwaited(b)
  }

  ghost predicate Recoverable(a: End, b: End) {
    Interested(a, b) && Interested(b, a) && OutputAwaited(a) && OutputAwaited(b) && InputRecovers(a) && InputRecovers(b)
  }

  lemma Regroup<T>(x: seq<T>, y: seq<T>, z: seq<T>)
    ensures x + (y + z) == (x + y) + z
  {
  }

  lemma StepConserves(a: End, b: End, e: Step)
    requires Conserved(a, b) && Enabled(a, b, e)
    ensures Conserved(Near(a, b, e), Far(a, b, e))
  {
    var a', b' := Near(a, b, e), Far(a, b, e);
    assert b'.received == b.received && b'.incoming == b.incoming && b'.arrived == b.arrived;
    if e.WriteBytes? {
      assert a.buf == a.buf[..e.n] + a.buf[e.n..];
      Regroup(a.sent, a.buf[..e.n], a.buf[e.n..]);
    } else {
      assert a'.sent == a.sent && a'.buf == a.buf;
    }
    hide Enabled, Near, Far;
  }

  lemma StepConservesBack(a: End, b: End, e: Step)
    requires Conserved(b, a) && Enabled(a, b, e)
    ensures Conserved(Far(a, b, e), Near(a, b, e))
  {
    var a', b' := Near(a, b, e), Far(a, b, e);
    assert b'.sent == b.sent;
    if e.ReadBytes? {
      assert a.incoming == a.incoming[..e.n] + a.incoming[e.n..];
      Regroup(b.sent, b.buf, a.incoming[..e.n]);
      Regroup(a.received, a.incoming[..e.n], a.incoming[e.n..]);
    } else if e.Arrive? {
      Regroup(a.received, a.incoming, e.bytes);
    } else {
      assert a'.received == a.received && a'.incoming == a.incoming && a'.arrived == a.arrived && b'.buf == b.buf;
    }
    hide Enabled, Near, Far;
  }

  lemma StepConsistent(a: End, b: End, e: Step)
    requires Consistent(a, b) && Consistent(b, a) && Enabled(a, b, e)
    ensures Consistent(Near(a, b, e), Far(a, b, e)) && Consistent(Far(a, b, e), Near(a, b, e))
  {
  }

  lemma StepInterested(a: End, b: End, e: Step)
    requires Consistent(a, b) && Consistent(b, a) && Interested(a, b) && Interested(b, a) && Enabled(a, b, e)
    ensures Interested(Near(a, b, e), Far(a, b, e)) && Interested(Far(a, b, e), Near(a, b, e))
  {
    match e
    case EndRead(i) =>
    case EndWrite(i) =>
    case _ =>
  }

  lemma StepAwaitsOutput(a: End, b: End, e: Step)
    requires Consistent(a, b) && Consistent(b, a) && OutputAwaited(a) && OutputAwaited(b) && Enabled(a, b, e)
    ensures OutputAwaited(Near(a, b, e)) && OutputAwaited(Far(a, b, e)) <==> !LosesOutput(a, e)
  {
  }

  lemma StepAwaitsInput(a: End, b: End, e: Step)
    requires Consistent(a, b) && InputAwaited(a) && InputAwaited(b) && Enabled(a, b, e)
    ensures InputAwaited(Near(a, b, e)) && InputAwaited(Far(a, b, e)) <==> !LosesInput(a, e)
  {
  }

  lemma StepRecovers(a: End, b: End, e: Step)
    requires Consistent(a, b) && Consistent(b, a) && InputRecovers(a) && InputRecovers(b) && Enabled(a, b, e)
    ensures InputRecovers(Near(a, b, e)) && InputRecovers(Far(a, b, e))
  {
  }

  // The same for a tie, whichever side the step concerns.
  lemma TieStep(t: Tie, e: Step)
    requires Sound(t.left, t.right) && CanStep(t, e)
    ensures Sound(Apply(t, e).left, Apply(t, e).right)
    ensures Wakeful(t.left, t.right) ==>
      (Wakeful(Apply(t, e).left, Apply(t, e).right) <==> !LosesInput(t.At(e.i), e) && !LosesOutput(t.At(e.i), e))
    ensures Recoverable(t.left, t.right) && !LosesOutput(t.At(e.i), e) ==>
      Recoverable(Apply(t, e).left, Apply(t, e).right)
  {
    var a, b := t.At(e.i), t.At(e.i.Other());
    hide Near, Far, Enabled, Conserved, Consistent, Interested, OutputAwaited, InputAwaited, InputRecovers;
    hide LosesInput, LosesOutput;
    StepConserves(a, b, e);
    StepConservesBack(a, b, e);
    StepConsistent(a, b, e);
    if Wakeful(t.left, t.right) {
      StepInterested(a, b, e);
      StepAwaitsOutput(a, b, e);
      StepAwaitsInput(a, b, e);
    }
    if Recoverable(t.left, t.right) {
      StepInterested(a, b, e);
      StepAwaitsOutput(a, b, e);
      StepRecovers(a, b, e);
    }
  }

  lemma {:induction false} RunsAreSound(t: Tie, es: seq<Step>)
    requires Sound(t.left, t.right) && IsRun(t, es)
    ensures Sound(After(t, es).left, After(t, es).right)
    ensures Wakeful(t.left, t.right) && Harmless(t, es) ==> Wakeful(After(t, es).left, After(t, es).right)
    ensures Recoverable(t.left, t.right) && KeepsOutput(t, es) ==>
      Recoverable(After(t, es).left, After(t, es).right)
    decreases |es|
  {
    hide Sound, Wakeful, Recoverable, LosesInput, LosesOutput, CanStep, Apply;
    if es != [] {
      TieStep(t, es[0]);
      RunsAreSound(Apply(t, es[0]), es[1..]);
    }
  }

  lemma StartIsSound(t: Tie)
    requires Starts(t)
    ensures Sound(t.left, t.right) && Wakeful(t.left, t.right) && Recoverable(t.left, t.right)
  {
  }

  // Main results. In every run, for each direction, what was written to one socket and what its
  // endpoint still buffers are together what was read from the other, in order: what is
  // delivered is a prefix of what arrived.
  lemma DeliveryIsAPrefix(t: Tie, es: seq<Step>, i: Side)
    requires Starts(t) && IsRun(t, es)
    ensures var a, b := After(t, es).At(i), After(t, es).At(i.Other());
      a.sent + a.buf == b.received && b.received + b.incoming == b.arrived && a.sent <= b.arrived
  {
    StartIsSound(t);
    RunsAreSound(t, es);
    hide Starts, After, IsRun;
    var a, b := After(t, es).At(i), After(t, es).At(i.Other());
    assert b.arrived == a.sent + (a.buf + b.incoming);
  }

  predicate AtRest(a: End) {
    a.reader.Resting? && a.writer.Idle?
  }

  // No wakeup is lost as long as no event is dropped while it matters, and so none if no event is
  // dispatched before ready(): with the handlers at rest, unsent bytes have WRITE in the mode,
  // and their EPOLLOUT event is under way unless the socket has no room; unread input has its
  // EPOLLIN event under way.
  lemma NoLostWakeup(t: Tie, es: seq<Step>, i: Side)
    requires Starts(t) && IsRun(t, es) && Harmless(t, es)
    ensures var a, b := After(t, es).At(i), After(t, es).At(i.Other());
      a.registered && AtRest(a) && AtRest(b) ==>
        && (a.buf != [] ==> a.write && (a.pendingOut || a.batchOut || !a.writable))
        && (a.incoming != [] ==> a.pendingIn || a.batchIn)
  {
    StartIsSound(t);
    RunsAreSound(t, es);
    hide Starts, After, IsRun;
  }

  predicate Quiet(a: End) {
    a.registered && AtRest(a) && a.writable && !a.pendingIn && !a.pendingOut && !a.batchIn && !a.batchOut
  }

  lemma QuietDelivered(a: End, b: End)
    requires Sound(a, b) && Recoverable(a, b) && Quiet(a) && Quiet(b)
    ensures a.sent == b.arrived && b.sent == a.arrived
  {
  }

  // So once nothing is left to dispatch and both sockets have room, everything was delivered; for
  // this only drops of output matter.
  lemma QuietMeansDelivered(t: Tie, es: seq<Step>, i: Side)
    requires Starts(t) && IsRun(t, es) && KeepsOutput(t, es)
    requires Quiet(After(t, es).left) && Quiet(After(t, es).right)
    ensures After(t, es).At(i).sent == After(t, es).At(i.Other()).arrived
  {
    StartIsSound(t);
    RunsAreSound(t, es);
    hide Starts, After, IsRun, Sound, Recoverable, Quiet;
    QuietDelivered(After(t, es).left, After(t, es).right);
  }

  lemma Onward(t: Tie, e: Step, rest: seq<Step>)
    requires CanStep(t, e) && IsRun(Apply(t, e), rest)
    ensures IsRun(t, [e] + rest) && After(t, [e] + rest) == After(Apply(t, e), rest)
  {
    assert ([e] + rest)[1..] == rest;
  }

  lemma {:induction false} RunsCompose(t: Tie, es: seq<Step>, fs: seq<Step>)
    requires IsRun(t, es) && IsRun(After(t, es), fs)
    ensures IsRun(t, es + fs) && After(t, es + fs) == After(After(t, es), fs)
    decreases |es|
  {
    hide CanStep, Apply;
    if es == [] {
      assert es + fs == fs;
    } else {
      RunsCompose(Apply(t, es[0]), es[1..], fs);
      Onward(t, es[0], es[1..] + fs);
      assert [es[0]] + (es[1..] + fs) == es + fs;
    }
  }

}
