// Events dispatched before ready(): exactly which drops lose a wakeup, and which of them cannot be
// made good.
module RelayDrops {
  import opened Common
  import opened Relaying
  import opened RelayProgress

  // Main result: wakeups are lost exactly by the harmful drops. In a run from the start, every
  // state along the way has its wakeups under way if and only if no dropped EPOLLIN event left input
  // unread with no new EPOLLIN event listed, and no dropped EPOLLOUT event room unused with no
  // new EPOLLOUT event listed.
  lemma WakefulExactly(t: Tie, es: seq<Step>)
    requires Starts(t) && IsRun(t, es)
    ensures Harmless(t, es) <==>
      forall k :: 0 <= k <= |es| ==> Wakeful(StateAt(t, es, k).left, StateAt(t, es, k).right)
  {
    StartIsSound(t);
    WakefulFrom(t, es);
  }

  lemma StateShifts(t: Tie, es: seq<Step>, k: nat)
    requires IsRun(t, es) && 0 < k <= |es|
    ensures StateAt(t, es, k) == StateAt(Apply(t, es[0]), es[1..], k - 1)
  {
  }

  lemma {:induction false} WakefulFrom(t: Tie, es: seq<Step>)
    requires Sound(t.left, t.right) && Wakeful(t.left, t.right) && IsRun(t, es)
    ensures Harmless(t, es) <==>
      forall k :: 0 <= k <= |es| ==> Wakeful(StateAt(t, es, k).left, StateAt(t, es, k).right)
    decreases |es|
  {
    hide CanStep, Apply, Sound, Wakeful, LosesInput, LosesOutput;
    if es != [] {
      var t', rest := Apply(t, es[0]), es[1..];
      TieStep(t, es[0]);
      if Wakeful(t'.left, t'.right) {
        WakefulFrom(t', rest);
        if Harmless(t, es) {
          forall k | 0 <= k <= |es| ensures Wakeful(StateAt(t, es, k).left, StateAt(t, es, k).right) {
            if k > 0 { StateShifts(t, es, k); }
          }
        } else {
          var k :| 0 <= k <= |rest| && !Wakeful(StateAt(t', rest, k).left, StateAt(t', rest, k).right);
          StateShifts(t, es, k + 1);
        }
      } else {
        StateShifts(t, es, 1);
      }
    }
  }

  // Everything is quiet, with room in both sockets, and yet something was not delivered.
  ghost predicate Stalled(t: Tie) {
    Quiet(t.left) && Quiet(t.right) && t.left.enabled && t.right.enabled && !Delivered(t)
  }

  // A run without further harmful drops of output stalls.
  ghost predicate MayStall(t: Tie) {
    exists es: seq<Step> :: IsRun(t, es) && KeepsOutput(t, es) && Stalled(After(t, es))
  }

  lemma NeverStalls(t: Tie)
    requires Sound(t.left, t.right) && Recoverable(t.left, t.right)
    ensures !MayStall(t)
  {
    forall es: seq<Step> | IsRun(t, es) && KeepsOutput(t, es) ensures !Stalled(After(t, es)) {
      RunsAreSound(t, es);
      hide IsRun, After, Sound, Recoverable, Quiet;
      var u := After(t, es);
      if Quiet(u.left) && Quiet(u.right) { QuietDelivered(u.left, u.right); }
    }
  }

  // The other way: an endpoint with WRITE in the mode, room, and no event for it under way. As
  // long as its socket was never full, nothing will tell it.
  predicate Muted(a: End) {
    a.registered && a.write && a.writable && !a.pendingOut && !a.batchOut && a.writer.Idle?
  }

  lemma MutedStays(a: End, b: End, e: Step)
    requires Enabled(a, b, e) && Muted(a) && Consistent(a, b)
    requires e.Ready? || e.Arrive? || e.BeginRead? || e.ReadBytes? || e.EndRead? || (e.Wait? && !e.output)
    ensures Muted(Near(a, b, e)) && Near(a, b, e).buf == a.buf
    ensures a.enabled ==> Near(a, b, e).enabled
  {
  }

  lemma MutedByPeer(a: End, b: End, e: Step)
    requires Enabled(b, a, e) && Muted(a)
    ensures Muted(Far(b, a, e)) && |Far(b, a, e).buf| >= |a.buf|
    ensures Far(b, a, e).enabled == a.enabled
  {
  }

  // On the way to a stall, at side i.
  ghost predicate Stalling(t: Tie, i: Side) {
    var a, b := t.At(i), t.At(i.Other());
    Sound(t.left, t.right) && Muted(a) && a.enabled && Running(b) && (b.incoming != [] || a.buf != [])
  }

  predicate Pending(a: End) {
    a.pendingIn || a.pendingOut || a.batchIn || a.batchOut
  }

  // The peer's events are worked off, and the input events of the end itself; of that one,
  // epoll_wait does not report the room nobody listed.
  ghost function StallNext(t: Tie, i: Side): Step {
    var a, b := t.At(i), t.At(i.Other());
    if !AtRest(b) || (AtRest(a) && Pending(b)) then NextAt(b, i.Other())
    else if AtRest(a) && !a.batchIn then Wait(i, a.incoming != [], false)
    else NextAt(a, i)
  }

  lemma PendingGoesOn(a: End, b: End, i: Side)
    requires Running(a) && AtRest(a) && AtRest(b) && Pending(a)
    requires Consistent(a, b)
    ensures Enabled(a, b, NextAt(a, i)) && Works(a, NextAt(a, i))
  {
  }

  lemma StallStepEnabled(t: Tie, i: Side)
    requires Stalling(t, i) && !(Quiet(t.left) && Quiet(t.right))
    ensures var e := StallNext(t, i); CanStep(t, e) && Works(t.At(e.i), e) && !LosesOutput(t.At(e.i), e)
    ensures StallNext(t, i).i == i ==> !StallNext(t, i).Wait? || !StallNext(t, i).output
    ensures StallNext(t, i).i == i ==>
      !StallNext(t, i).BeginWrite? && !StallNext(t, i).WriteBytes? && !StallNext(t, i).EndWrite?
  {
    var a, b := t.At(i), t.At(i.Other());
    hide Conserved;
    if !AtRest(b) { BusyGoesOn(b, a, i.Other()); }
    else if !AtRest(a) { BusyGoesOn(a, b, i); }
    else if Pending(b) { PendingGoesOn(b, a, i.Other()); }
    else if a.batchIn { PendingGoesOn(a, b, i); }
  }

  lemma ByteStays(a: End, b: End, e: Step)
    requires Enabled(b, a, e) && Moves(e) && Muted(a) && (b.incoming != [] || a.buf != [])
    ensures Near(b, a, e).incoming != [] || Far(b, a, e).buf != []
  {
    MutedByPeer(a, b, e);
    if e.ReadBytes? {
      assert |Far(b, a, e).buf| == |a.buf| + e.n;
    } else {
      assert Near(b, a, e).incoming == b.incoming;
    }
    hide Enabled, Near, Far, Muted;
  }

  lemma FarInput(a: End, b: End, e: Step)
    requires Enabled(a, b, e)
    ensures Far(a, b, e).incoming == b.incoming
  {
    hide Enabled;
    match e
    case ReadBytes(i, n) =>
    case EndRead(i) =>
    case _ =>
  }

  lemma StallWorks(t: Tie, e: Step)
    requires Sound(t.left, t.right) && CanStep(t, e) && Works(t.At(e.i), e)
    ensures WorkLeft(Apply(t, e)) < WorkLeft(t)
  {
    StepWorks(t.At(e.i), t.At(e.i.Other()), e);
    hide Enabled, Near, Far, Conserved, Consistent, Work;
  }

  lemma StallingByItself(t: Tie, i: Side, e: Step)
    requires Stalling(t, i) && CanStep(t, e) && e.i == i
    requires e.BeginRead? || e.ReadBytes? || e.EndRead? || (e.Wait? && !e.output)
    ensures Stalling(Apply(t, e), i)
  {
    var a, b := t.At(i), t.At(i.Other());
    hide WorkLeft, LosesOutput, Conserved;
    TieStep(t, e);
    StepKeepsRunning(a, b, e);
    MutedStays(a, b, e);
    FarInput(a, b, e);
    hide Enabled, Near, Far, Muted, Sound;
  }

  lemma StallingByPeer(t: Tie, i: Side, e: Step)
    requires Stalling(t, i) && CanStep(t, e) && e.i == i.Other() && Moves(e)
    ensures Stalling(Apply(t, e), i)
  {
    var a, b := t.At(i), t.At(i.Other());
    hide WorkLeft, LosesOutput, Conserved;
    TieStep(t, e);
    StepKeepsRunning(b, a, e);
    MutedByPeer(a, b, e);
    ByteStays(a, b, e);
    hide Enabled, Near, Far, Muted, Sound;
  }

  lemma {:induction false} Stall(t: Tie, i: Side) returns (es: seq<Step>)
    requires Stalling(t, i)
    ensures IsRun(t, es) && KeepsOutput(t, es) && Stalled(After(t, es))
    decreases WorkLeft(t)
  {
    if Quiet(t.left) && Quiet(t.right) {
      es := [];
    } else {
      hide CanStep, Apply, Works, Sound, Muted, WorkLeft, Quiet, Stalled, LosesOutput;
      var e := StallNext(t, i);
      StallStepEnabled(t, i);
      StallWorks(t, e);
      if e.i == i { StallingByItself(t, i, e); } else { StallingByPeer(t, i, e); }
      var rest := Stall(Apply(t, e), i);
      Onward(t, e, rest);
      assert ([e] + rest)[1..] == rest;
      es := [e] + rest;
    }
  }

  // One step no drop can hide behind, put in front of a run that stalls.
  lemma StallsLater(t: Tie, e: Step)
    requires CanStep(t, e) && !LosesOutput(t.At(e.i), e) && MayStall(Apply(t, e))
    ensures MayStall(t)
  {
    hide CanStep, Apply, LosesOutput, Stalled;
    var es: seq<Step> :| IsRun(Apply(t, e), es) && KeepsOutput(Apply(t, e), es) && Stalled(After(Apply(t, e), es));
    Onward(t, e, es);
    assert ([e] + es)[1..] == es;
  }

  // A muted endpoint stalls: both become ready(), the peer gets room and is registered, and input
  // arrives there.
  lemma MutedMayStall(t: Tie, i: Side)
    requires Sound(t.left, t.right) && Muted(t.At(i))
    ensures MayStall(t)
  {
    var j := i.Other();
    if !t.At(j).registered {
      MutedByPeer(t.At(i), t.At(j), Add(j));
      TieStep(t, Add(j));
      RegisteredMayStall(Apply(t, Add(j)), i);
      StallsLater(t, Add(j));
    } else {
      RegisteredMayStall(t, i);
    }
  }

  lemma RegisteredMayStall(t: Tie, i: Side)
    requires Sound(t.left, t.right) && Muted(t.At(i)) && t.At(i.Other()).registered
    ensures MayStall(t)
  {
    hide Sound, MayStall;
    var j := i.Other();
    var t1 := Apply(t, Ready(i));
    var t2 := Apply(t1, Ready(j));
    var t3 := Apply(t2, Drain(j));
    TieStep(t, Ready(i));
    TieStep(t1, Ready(j));
    TieStep(t2, Drain(j));
    RunningMayStall(t3, i);
    StallsLater(t2, Drain(j));
    StallsLater(t1, Ready(j));
    StallsLater(t, Ready(i));
  }

  lemma RunningMayStall(t: Tie, i: Side)
    requires Sound(t.left, t.right) && Muted(t.At(i)) && t.At(i).enabled && Running(t.At(i.Other()))
    ensures MayStall(t)
  {
    hide Sound, Stalled;
    var j := i.Other();
    TieStep(t, Arrive(j, [0]));
    var es := Stall(Apply(t, Arrive(j, [0])), i);
    StallsLater(t, Arrive(j, [0]));
  }

  lemma LostOutputMayStall(t: Tie, e: Step)
    requires Sound(t.left, t.right) && CanStep(t, e) && LosesOutput(t.At(e.i), e)
    ensures MayStall(Apply(t, e))
  {
    TieStep(t, e);
    hide Sound;
    MutedMayStall(Apply(t, e), e.i);
  }

  // Main result: with a kernel that is only known to report what is listed and still so, a run
  // from the start keeps out of reach of a stall exactly if it drops no EPOLLOUT event with room
  // in the socket and no new EPOLLOUT event listed.
  lemma StallsExactly(t: Tie, es: seq<Step>)
    requires Starts(t) && IsRun(t, es)
    ensures KeepsOutput(t, es) <==> forall k :: 0 <= k <= |es| ==> !MayStall(StateAt(t, es, k))
  {
    StartIsSound(t);
    StallsFrom(t, es);
  }

  lemma {:induction false} StallsFrom(t: Tie, es: seq<Step>)
    requires Sound(t.left, t.right) && Recoverable(t.left, t.right) && IsRun(t, es)
    ensures KeepsOutput(t, es) <==> forall k :: 0 <= k <= |es| ==> !MayStall(StateAt(t, es, k))
    decreases |es|
  {
    hide CanStep, Apply, Sound, Recoverable, LosesOutput, MayStall;
    NeverStalls(t);
    if es != [] {
      var t', rest := Apply(t, es[0]), es[1..];
      TieStep(t, es[0]);
      if LosesOutput(t.At(es[0].i), es[0]) {
        LostOutputMayStall(t, es[0]);
        StateShifts(t, es, 1);
      } else {
        StallsFrom(t', rest);
        if KeepsOutput(t, es) {
          forall k | 0 <= k <= |es| ensures !MayStall(StateAt(t, es, k)) {
            if k > 0 { StateShifts(t, es, k); }
          }
        } else {
          var k :| 0 <= k <= |rest| && MayStall(StateAt(t', rest, k));
          StateShifts(t, es, k + 1);
        }
      }
    }
  }

  // Both kinds of drop happen. tie_fd() adds both endpoints before they are ready(). An EPOLLIN
  // event dispatched in between leaves the input unread with no event under way,
  const EARLY_INPUT := [Arrive(Left, [1]), Add(Left), Wait(Left, true, true), BeginRead(Left)]

  lemma EarlyInputIsLost()
    ensures IsRun(Tie(FRESH, FRESH), EARLY_INPUT) && KeepsOutput(Tie(FRESH, FRESH), EARLY_INPUT)
    ensures var t := After(Tie(FRESH, FRESH), EARLY_INPUT);
      t.left.registered && AtRest(t.left) && AtRest(t.right) && t.left.incoming == [1] &&
      !t.left.pendingIn && !t.left.batchIn
  {
    var t := Tie(FRESH, FRESH);
    var t1 := Apply(t, Arrive(Left, [1]));
    var t2 := Apply(t1, Add(Left));
    var t3 := Apply(t2, Wait(Left, true, true));
    Onward(t3, BeginRead(Left), []);
    Onward(t2, Wait(Left, true, true), [BeginRead(Left)]);
    Onward(t1, Add(Left), [Wait(Left, true, true), BeginRead(Left)]);
    Onward(t, Arrive(Left, [1]), [Add(Left), Wait(Left, true, true), BeginRead(Left)]);
    assert KeepsOutput(t, EARLY_INPUT);
  }

  // until the next change of mode. An EPOLLOUT event dropped with WRITE in the
  // mode is worse: the bytes that come later change no mode and wake nobody, with room in the
  // socket.
  const TIE_FD := [Add(Left), Wait(Left, false, true), BeginWrite(Left), Add(Right), Ready(Left), Ready(Right)]
  const ARRIVAL := [Arrive(Right, [1]), Wait(Right, true, true), BeginRead(Right), ReadBytes(Right, 1)]
  const HANDLED := [EndRead(Right), BeginWrite(Right), EndWrite(Right)]

  const READY := FRESH.(registered := true, enabled := true, write := true, watched := true)
  const READER := READY.(batchOut := true, reader := Reading(1), arrived := [1], received := [1])

  lemma EarlyEventIsDropped()
    ensures IsRun(Tie(FRESH, FRESH), TIE_FD)
    ensures After(Tie(FRESH, FRESH), TIE_FD) == Tie(READY, READY.(pendingOut := true))
  {
    var t := Tie(FRESH, FRESH);
    var t1 := Apply(t, Add(Left));
    var t2 := Apply(t1, Wait(Left, false, true));
    var t3 := Apply(t2, BeginWrite(Left));
    var t4 := Apply(t3, Add(Right));
    var t5 := Apply(t4, Ready(Left));
    Onward(t5, Ready(Right), []);
    Onward(t4, Ready(Left), [Ready(Right)]);
    Onward(t3, Add(Right), [Ready(Left), Ready(Right)]);
    Onward(t2, BeginWrite(Left), [Add(Right), Ready(Left), Ready(Right)]);
    Onward(t1, Wait(Left, false, true), [BeginWrite(Left), Add(Right), Ready(Left), Ready(Right)]);
    Onward(t, Add(Left), [Wait(Left, false, true), BeginWrite(Left), Add(Right), Ready(Left), Ready(Right)]);
  }

  lemma ByteIsRead()
    ensures IsRun(Tie(READY, READY.(pendingOut := true)), ARRIVAL)
    ensures After(Tie(READY, READY.(pendingOut := true)), ARRIVAL) == Tie(READY.(buf := [1]), READER)
  {
    var t := Tie(READY, READY.(pendingOut := true));
    var t1 := Apply(t, Arrive(Right, [1]));
    var t2 := Apply(t1, Wait(Right, true, true));
    var t3 := Apply(t2, BeginRead(Right));
    Onward(t3, ReadBytes(Right, 1), []);
    Onward(t2, BeginRead(Right), [ReadBytes(Right, 1)]);
    Onward(t1, Wait(Right, true, true), [BeginRead(Right), ReadBytes(Right, 1)]);
    Onward(t, Arrive(Right, [1]), [Wait(Right, true, true), BeginRead(Right), ReadBytes(Right, 1)]);
  }

  lemma NobodyIsWoken()
    ensures IsRun(Tie(READY.(buf := [1]), READER), HANDLED)
    ensures After(Tie(READY.(buf := [1]), READER), HANDLED) ==
      Tie(READY.(buf := [1]), READY.(write := false, watched := false, arrived := [1], received := [1]))
  {
    var t := Tie(READY.(buf := [1]), READER);
    var t1 := Apply(t, EndRead(Right));
    var t2 := Apply(t1, BeginWrite(Right));
    Onward(t2, EndWrite(Right), []);
    Onward(t1, BeginWrite(Right), [EndWrite(Right)]);
    Onward(t, EndRead(Right), [BeginWrite(Right), EndWrite(Right)]);
  }

  lemma EarlyEventLosesWakeup()
    ensures var es := TIE_FD + ARRIVAL + HANDLED; var t := Tie(FRESH, FRESH);
      IsRun(t, es) && var a, b := After(t, es).left, After(t, es).right;
      Quiet(a) && Quiet(b) && a.enabled && b.enabled && a.buf == [1] && a.sent == [] && b.arrived == [1]
  {
    EarlyEventIsDropped();
    ByteIsRead();
    NobodyIsWoken();
    RunsCompose(Tie(FRESH, FRESH), TIE_FD, ARRIVAL);
    RunsCompose(Tie(FRESH, FRESH), TIE_FD + ARRIVAL, HANDLED);
  }
}
