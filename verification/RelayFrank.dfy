// The same question for a kernel that reports everything true of a listed socket: there the next
// EPOLLIN event brings the dropped EPOLLOUT event back.
module RelayFrank {
  import opened Common
  import opened Relaying
  import opened RelayProgress
  import opened RelayDrops

  // A dropped EPOLLOUT event leaves room in the socket, and nothing at all is listed.
  predicate LosesAll(a: End, e: Step) {
    LosesOutput(a, e) && !a.pendingIn
  }

  ghost predicate KeepsListed(t: Tie, es: seq<Step>)
    requires IsRun(t, es)
    decreases |es|
  {
    es == [] || (!LosesAll(t.At(es[0].i), es[0]) && KeepsListed(Apply(t, es[0]), es[1..]))
  }

  ghost predicate MayStallFrankly(t: Tie) {
    exists es: seq<Step> :: IsRun(t, es) && Frank(t, es) && KeepsListed(t, es) && Stalled(After(t, es))
  }

  // With WRITE in the mode and room in the socket, an EPOLLOUT event is under way, or an EPOLLIN
  // event that will bring one.
  ghost predicate OutputListed(a: End) {
    a.registered && a.write && a.writable && !a.writer.Writing? ==> a.pendingOut || a.batchOut || a.pendingIn
  }

  ghost predicate Listed(a: End, b: End) {
    Interested(a, b) && Interested(b, a) && OutputListed(a) && OutputListed(b) && InputRecovers(a) && InputRecovers(b)
  }

  lemma StepListsOutput(a: End, b: End, e: Step)
    requires Consistent(a, b) && Consistent(b, a) && OutputListed(a) && OutputListed(b)
    requires Enabled(a, b, e) && Tells(a, e)
    ensures OutputListed(Near(a, b, e)) && OutputListed(Far(a, b, e)) <==> !LosesAll(a, e)
  {
  }

  lemma ListedStep(t: Tie, e: Step)
    requires Sound(t.left, t.right) && Listed(t.left, t.right) && CanStep(t, e)
    requires Tells(t.At(e.i), e) && !LosesAll(t.At(e.i), e)
    ensures Sound(Apply(t, e).left, Apply(t, e).right) && Listed(Apply(t, e).left, Apply(t, e).right)
  {
    var a, b := t.At(e.i), t.At(e.i.Other());
    hide Near, Far, Enabled, Conserved, Consistent, Interested, OutputListed, InputRecovers, Tells, LosesAll;
    hide Wakeful, Recoverable;
    TieStep(t, e);
    StepInterested(a, b, e);
    StepListsOutput(a, b, e);
    StepRecovers(a, b, e);
  }

  lemma {:induction false} RunsAreListed(t: Tie, es: seq<Step>)
    requires Sound(t.left, t.right) && Listed(t.left, t.right)
    requires IsRun(t, es) && Frank(t, es) && KeepsListed(t, es)
    ensures Sound(After(t, es).left, After(t, es).right) && Listed(After(t, es).left, After(t, es).right)
    decreases |es|
  {
    hide Sound, Listed, LosesAll, Tells, CanStep, Apply;
    if es != [] {
      ListedStep(t, es[0]);
      RunsAreListed(Apply(t, es[0]), es[1..]);
    }
  }

  // At rest with nothing listed, it is all the same.
  lemma NeverStallsFrankly(t: Tie)
    requires Sound(t.left, t.right) && Listed(t.left, t.right)
    ensures !MayStallFrankly(t)
  {
    forall es: seq<Step> | IsRun(t, es) && Frank(t, es) && KeepsListed(t, es) ensures !Stalled(After(t, es)) {
      RunsAreListed(t, es);
      hide IsRun, After, Frank, KeepsListed, Sound;
      var u := After(t, es);
      if Quiet(u.left) && Quiet(u.right) { QuietDelivered(u.left, u.right); }
    }
  }

  // The other way: an endpoint with WRITE in the mode and room, and nothing under way for it at
  // all. As long as its socket was never full and gets no input, nothing will tell it.
  predicate Silent(a: End) {
    a.write && Quiet(a)
  }

  lemma SilentByPeer(a: End, b: End, e: Step)
    requires Enabled(b, a, e) && Silent(a)
    ensures Silent(Far(b, a, e)) && Far(b, a, e).enabled == a.enabled
    ensures e.ReadBytes? ==> |Far(b, a, e).buf| == |a.buf| + e.n
    ensures !e.ReadBytes? ==> Far(b, a, e).buf == a.buf
  {
  }

  // On the way to a stall, at side i; the peer's events are worked off.
  ghost predicate Silencing(t: Tie, i: Side) {
    var a, b := t.At(i), t.At(i.Other());
    Sound(t.left, t.right) && Silent(a) && a.enabled && Running(b) && (b.incoming != [] || a.buf != [])
  }

  lemma PeerGoesOn(a: End, b: End, i: Side)
    requires Running(b) && Consistent(b, a) && AtRest(a) && !Quiet(b)
    ensures var e := NextAt(b, i.Other()); Enabled(b, a, e) && Works(b, e) && Tells(b, e) && !LosesAll(b, e)
  {
  }

  lemma SilencingStep(t: Tie, i: Side, e: Step)
    requires Silencing(t, i) && CanStep(t, e) && e.i == i.Other() && Moves(e)
    ensures Silencing(Apply(t, e), i)
  {
    var a, b := t.At(i), t.At(i.Other());
    hide WorkLeft, LosesOutput, Conserved, Wakeful, Recoverable;
    TieStep(t, e);
    StepKeepsRunning(b, a, e);
    SilentByPeer(a, b, e);
    assert !e.ReadBytes? ==> Near(b, a, e).incoming == b.incoming;
    hide Enabled, Near, Far, Silent, Sound;
  }

  lemma PeerAtRest(t: Tie, i: Side)
    requires Silencing(t, i) && Quiet(t.At(i.Other()))
    ensures Stalled(t)
  {
    hide WorkLeft;
  }

  lemma {:induction false} StallFrankly(t: Tie, i: Side) returns (es: seq<Step>)
    requires Silencing(t, i)
    ensures IsRun(t, es) && Frank(t, es) && KeepsListed(t, es) && Stalled(After(t, es))
    decreases WorkLeft(t)
  {
    hide Apply, Works, Tells, WorkLeft, Stalled, LosesAll;
    if Quiet(t.At(i.Other())) {
      PeerAtRest(t, i);
      es := [];
    } else {
      var e := NextAt(t.At(i.Other()), i.Other());
      PeerGoesOn(t.At(i), t.At(i.Other()), i);
      StallWorks(t, e);
      assert e.i == i.Other() && Moves(e) && CanStep(t, e) by { hide Sound, Silent, Quiet; }
      hide CanStep, Sound, Silent, Quiet, NextAt, Enabled;
      SilencingStep(t, i, e);
      hide Silencing;
      var rest := StallFrankly(Apply(t, e), i);
      Onward(t, e, rest);
      assert ([e] + rest)[1..] == rest;
      es := [e] + rest;
    }
  }

  lemma StallsFranklyLater(t: Tie, e: Step)
    requires CanStep(t, e) && Tells(t.At(e.i), e) && !LosesAll(t.At(e.i), e) && MayStallFrankly(Apply(t, e))
    ensures MayStallFrankly(t)
  {
    hide CanStep, Apply, LosesAll, Tells, Stalled;
    var t' := Apply(t, e);
    var es: seq<Step> :| IsRun(t', es) && Frank(t', es) && KeepsListed(t', es) && Stalled(After(t', es));
    Onward(t, e, es);
    assert ([e] + es)[1..] == es;
  }

  // Both become ready(), the peer is registered and gets room and input.
  lemma SilentMayStall(t: Tie, i: Side)
    requires Sound(t.left, t.right) && Silent(t.At(i))
    ensures MayStallFrankly(t)
  {
    hide Sound, MayStallFrankly;
    var j := i.Other();
    if t.At(j).registered {
      RegisteredPeerStalls(t, i);
    } else {
      TieStep(t, Add(j));
      RegisteredPeerStalls(Apply(t, Add(j)), i);
      StallsFranklyLater(t, Add(j));
    }
  }

  lemma RegisteredPeerStalls(t: Tie, i: Side)
    requires Sound(t.left, t.right) && Silent(t.At(i)) && t.At(i.Other()).registered
    ensures MayStallFrankly(t)
  {
    hide Sound, MayStallFrankly;
    var j := i.Other();
    var t1 := Apply(t, Ready(i));
    var t2 := Apply(t1, Ready(j));
    var t3 := Apply(t2, Drain(j));
    TieStep(t, Ready(i));
    TieStep(t1, Ready(j));
    TieStep(t2, Drain(j));
    RunningPeerStalls(t3, i);
    StallsFranklyLater(t2, Drain(j));
    StallsFranklyLater(t1, Ready(j));
    StallsFranklyLater(t, Ready(i));
  }

  lemma RunningPeerStalls(t: Tie, i: Side)
    requires Sound(t.left, t.right) && Silent(t.At(i)) && t.At(i).enabled && Running(t.At(i.Other()))
    ensures MayStallFrankly(t)
  {
    hide Sound, Stalled;
    var j := i.Other();
    TieStep(t, Arrive(j, [0]));
    var es := StallFrankly(Apply(t, Arrive(j, [0])), i);
    StallsFranklyLater(t, Arrive(j, [0]));
  }

  lemma LostAllMayStall(t: Tie, e: Step)
    requires Sound(t.left, t.right) && CanStep(t, e) && LosesAll(t.At(e.i), e)
    ensures MayStallFrankly(Apply(t, e))
  {
    TieStep(t, e);
    assert Silent(Apply(t, e).At(e.i));
    hide Sound, Silent;
    SilentMayStall(Apply(t, e), e.i);
  }

  // Main result: with such a kernel a run from the start keeps out of reach of a stall exactly if
  // it drops no EPOLLOUT event with room in the socket and nothing else listed.
  lemma FrankStallsExactly(t: Tie, es: seq<Step>)
    requires Starts(t) && IsRun(t, es) && Frank(t, es)
    ensures KeepsListed(t, es) <==> forall k :: 0 <= k <= |es| ==> !MayStallFrankly(StateAt(t, es, k))
  {
    StartIsSound(t);
    FrankStallsFrom(t, es);
  }

  lemma {:induction false} FrankStallsFrom(t: Tie, es: seq<Step>)
    requires Sound(t.left, t.right) && Listed(t.left, t.right) && IsRun(t, es) && Frank(t, es)
    ensures KeepsListed(t, es) <==> forall k :: 0 <= k <= |es| ==> !MayStallFrankly(StateAt(t, es, k))
    decreases |es|
  {
    hide CanStep, Apply, Sound, Listed, LosesAll, Tells, MayStallFrankly;
    NeverStallsFrankly(t);
    if es != [] {
      var t', rest := Apply(t, es[0]), es[1..];
      if LosesAll(t.At(es[0].i), es[0]) {
        LostAllMayStall(t, es[0]);
        StateShifts(t, es, 1);
      } else {
        ListedStep(t, es[0]);
        FrankStallsFrom(t', rest);
        if KeepsListed(t, es) {
          forall k | 0 <= k <= |es| ensures !MayStallFrankly(StateAt(t, es, k)) {
            if k > 0 { StateShifts(t, es, k); }
          }
        } else {
          var k :| 0 <= k <= |rest| && MayStallFrankly(StateAt(t', rest, k));
          StateShifts(t, es, k + 1);
        }
      }
    }
  }

  // tie_fd() can run into this, as it adds an endpoint before it is ready(); an arrival in
  // between makes up for it with this kernel, and not with the other.
  lemma ListedInputHelps()
    ensures var t, es := Tie(FRESH, FRESH), [Add(Left), Wait(Left, false, true), BeginWrite(Left)];
      IsRun(t, es) && Frank(t, es) && !KeepsListed(t, es)
    ensures var t, es := Tie(FRESH, FRESH), [Add(Left), Wait(Left, false, true), Arrive(Left, [1]), BeginWrite(Left)];
      IsRun(t, es) && Frank(t, es) && KeepsListed(t, es) && !KeepsOutput(t, es)
  {
    var t := Tie(FRESH, FRESH);
    var t1 := Apply(t, Add(Left));
    var t2 := Apply(t1, Wait(Left, false, true));
    var t3 := Apply(t2, Arrive(Left, [1]));
    assert IsRun(t2, [BeginWrite(Left)]) && Frank(t2, [BeginWrite(Left)]) && !KeepsListed(t2, [BeginWrite(Left)]);
    assert IsRun(t3, [BeginWrite(Left)]) && Frank(t3, [BeginWrite(Left)]);
    assert KeepsListed(t3, [BeginWrite(Left)]) && !KeepsOutput(t3, [BeginWrite(Left)]);
    Prepend(t2, Arrive(Left, [1]), [BeginWrite(Left)]);
    Prepend(t1, Wait(Left, false, true), [BeginWrite(Left)]);
    Prepend(t1, Wait(Left, false, true), [Arrive(Left, [1]), BeginWrite(Left)]);
    Prepend(t, Add(Left), [Wait(Left, false, true), BeginWrite(Left)]);
    Prepend(t, Add(Left), [Wait(Left, false, true), Arrive(Left, [1]), BeginWrite(Left)]);
  }

  lemma Prepend(t: Tie, e: Step, es: seq<Step>)
    requires CanStep(t, e) && Tells(t.At(e.i), e) && IsRun(Apply(t, e), es) && Frank(Apply(t, e), es)
    requires !e.BeginWrite?
    ensures IsRun(t, [e] + es) && Frank(t, [e] + es)
    ensures KeepsListed(t, [e] + es) == KeepsListed(Apply(t, e), es)
    ensures KeepsOutput(t, [e] + es) == KeepsOutput(Apply(t, e), es)
  {
    hide CanStep, Apply, Tells;
    assert ([e] + es)[1..] == es;
  }
}
