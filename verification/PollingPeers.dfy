// A handler of one endpoint also uses the other end of its tie: when that one is still alive.
module PollingPeers {
  import opened Polling
  import opened PollingSafety
  import opened PollingRuns

  // A client gives up its last reference to q, and nobody else holds one or lost one.
  ghost predicate LastRelease(s: State, e: Step, q: Id) {
    e == World(Release(q)) && Count(s.owned, q) == 1 && s.registering[q] == 0 && Known(s, q) == 0 &&
    Balance(s, q) == 0
  }

  // Whether that happened since the last epoll_wait.
  ghost predicate GoneSince(c: Pollables, s: State, es: seq<Step>, q: Id, gone: bool)
    requires IsRun(c, s, es)
    decreases |es|
  {
    if es == [] then gone
    else GoneSince(c, Apply(c, s, es[0]), es[1..], q, NowGone(s, es[0], q, gone))
  }

  ghost predicate NowGone(s: State, e: Step, q: Id, gone: bool) {
    if e.Loop? && e.turn.Wait? then false else gone || LastRelease(s, e, q)
  }

  // What shutdown() sees to: the last reference of a client to q goes only after the descriptor of
  // its peer p is closed.
  ghost predicate InOrder(c: Pollables, s: State, e: Step, p: Id, q: Id) {
    e == World(Release(q)) && Count(s.owned, q) == 1 ==> p in s.count && !Owns(c, s, p)
  }

  ghost predicate IsInOrder(c: Pollables, s: State, es: seq<Step>, p: Id, q: Id)
    requires IsRun(c, s, es)
    decreases |es|
  {
    es == [] || (InOrder(c, s, es[0], p, q) && IsInOrder(c, Apply(c, s, es[0]), es[1..], p, q))
  }

  ghost predicate LetGoLate(c: Pollables, s: State, p: Id, q: Id) {
    q in s.count && Count(s.owned, q) == 0 ==> p in s.count && !Owns(c, s, p)
  }

  lemma StepLetsGoLate(c: Pollables, s: State, e: Step, p: Id, q: Id)
    requires Made(s) && LetGoLate(c, s, p, q) && Enabled(c, s, e) && InOrder(c, s, e, p, q)
    ensures LetGoLate(c, Apply(c, s, e), p, q)
  {
    match e
    case World(w) =>
    case Add(a) =>
    case Change(d) =>
    case Loop(l) =>
  }

  // So epoll_wait never returns p with q deleted.
  lemma WaitFindsPeer(c: Pollables, s: State, batch: seq<Fd>, p: Id, q: Id)
    requires Coherent(c, s) && Balance(s, q) >= 0 && LetGoLate(c, s, p, q) && Enabled(c, s, Loop(Wait(batch)))
    ensures p in Apply(c, s, Loop(Wait(batch))).phase.batch ==> !Dead(Apply(c, s, Loop(Wait(batch))), q)
  {
    hide Apart, Justified, Adding, Agreed, Dispatchable;
  }

  // And from then on it dies by its last release only, for the drain waits.
  lemma DispatchedDies(c: Pollables, s: State, e: Step, q: Id)
    requires Made(s) && Balance(s, q) >= 0 && s.phase.Dispatching? && Enabled(c, s, e)
    ensures Dead(Apply(c, s, e), q) <==> Dead(s, q) || LastRelease(s, e, q)
  {
    StepDead(c, s, e, q);
    hide Apply, Known;
  }

  lemma StaysInBatch(c: Pollables, s: State, e: Step, p: Id)
    requires Enabled(c, s, e) && !(e.Loop? && e.turn.Wait?)
    requires Apply(c, s, e).phase.Dispatching? && p in Apply(c, s, e).phase.batch
    ensures s.phase.Dispatching? && p in s.phase.batch
  {
    hide WorldEnabled, AddEnabled, ChangeEnabled;
    match e
    case World(w) =>
    case Add(a) =>
    case Change(d) =>
    case Loop(l) =>
  }

  ghost predicate PeerKnown(c: Pollables, s: State, p: Id, q: Id, gone: bool) {
    Coherent(c, s) && Balance(s, q) >= 0 && LetGoLate(c, s, p, q) &&
    (s.phase.Dispatching? && p in s.phase.batch ==> (Dead(s, q) <==> gone))
  }

  lemma StepPeerKnown(c: Pollables, s: State, e: Step, p: Id, q: Id, gone: bool)
    requires PeerKnown(c, s, p, q, gone) && Enabled(c, s, e) && InOrder(c, s, e, p, q)
    ensures PeerKnown(c, Apply(c, s, e), p, q, NowGone(s, e, q, gone))
  {
    hide Apart, Justified, Wrapped, Adding, Watched, Agreed, Dispatchable, LetGoLate, Enabled, Fails, Apply, Dead;
    hide LastRelease, InOrder, Balance;
    if Fails(c, s, e) { FailureKeeps(c, s, e); } else { StepCoherent(c, s, e); }
    StepBalance(c, s, e, q);
    StepLetsGoLate(c, s, e, p, q);
    if e.Loop? && e.turn.Wait? {
      WaitFindsPeer(c, s, e.turn.batch, p, q);
    } else if Apply(c, s, e).phase.Dispatching? && p in Apply(c, s, e).phase.batch {
      StaysInBatch(c, s, e, p);
      DispatchedDies(c, s, e, q);
    }
  }

  lemma FailureKeeps(c: Pollables, s: State, e: Step)
    requires Coherent(c, s) && Enabled(c, s, e) && Fails(c, s, e)
    ensures Coherent(c, Apply(c, s, e))
  {
    hide Coherent, Enabled, Fails;
    FailureCoherent(c, s);
  }

  lemma {:induction false} RunPeerKnown(c: Pollables, s: State, es: seq<Step>, p: Id, q: Id, gone: bool)
    requires PeerKnown(c, s, p, q, gone) && IsRun(c, s, es) && IsInOrder(c, s, es, p, q)
    ensures PeerKnown(c, After(c, s, es), p, q, GoneSince(c, s, es, q, gone))
    decreases |es|
  {
    hide PeerKnown, Enabled, Apply, InOrder, NowGone;
    if es != [] {
      StepPeerKnown(c, s, es[0], p, q, gone);
      RunPeerKnown(c, Apply(c, s, es[0]), es[1..], p, q, NowGone(s, es[0], q, gone));
    }
  }

  // Main result: in every run that shuts down in order, while p waits to be handled or is being
  // handled, its peer is deleted exactly if since the last epoll_wait a client gave up the last
  // reference to it.
  lemma WhenPeersDie(c: Pollables, es: seq<Step>, p: Id, q: Id)
    requires IsRun(c, START, es) && IsInOrder(c, START, es, p, q)
    ensures var s := After(c, START, es);
      s.phase.Dispatching? && p in s.phase.batch ==> (Dead(s, q) <==> GoneSince(c, START, es, q, false))
  {
    RunPeerKnown(c, START, es, p, q, false);
  }

  // The other way round it does not happen: shutdown() closes the leader p before it removes the
  // follower q, and gives up the last reference to q only after it was added and removed.

  ghost predicate Adds(c: Pollables, s: State, e: Step, q: Id) {
    e == Add(AddLocked(q)) && !Fails(c, s, e)
  }

  ghost predicate LeaderFirst(c: Pollables, s: State, e: Step, p: Id, q: Id, added: bool) {
    (e == Change(RemoveLocked(q)) ==> p in s.count && !Owns(c, s, p)) &&
    (e == World(Release(q)) && Count(s.owned, q) == 1 ==> added)
  }

  ghost predicate IsLeaderFirst(c: Pollables, s: State, es: seq<Step>, p: Id, q: Id, added: bool)
    requires IsRun(c, s, es)
    decreases |es|
  {
    es == [] ||
    (LeaderFirst(c, s, es[0], p, q, added) &&
     IsLeaderFirst(c, Apply(c, s, es[0]), es[1..], p, q, added || Adds(c, s, es[0], q)))
  }

  ghost function AddedBy(c: Pollables, s: State, es: seq<Step>, q: Id, added: bool): bool
    requires IsRun(c, s, es)
    decreases |es|
  {
    if es == [] then added else AddedBy(c, Apply(c, s, es[0]), es[1..], q, added || Adds(c, s, es[0], q))
  }

  // Until it is added, its client holds on to q; then it is in poll_set_ until p is closed, and
  // somewhere with the poll thread as long as p is in the batch.
  ghost predicate Placed(c: Pollables, s: State, p: Id, q: Id, added: bool) {
    if added then q in s.tables.pollSet || (p in s.count && !Owns(c, s, p))
    else q in s.count ==> Count(s.owned, q) > 0
  }

  ghost predicate Kept(s: State, p: Id, q: Id, added: bool) {
    added && s.phase.Dispatching? && p in s.phase.batch ==> Known(s, q) > 0
  }

  lemma StepPlaced(c: Pollables, s: State, e: Step, p: Id, q: Id, added: bool)
    requires Made(s) && Placed(c, s, p, q, added) && Enabled(c, s, e) && LeaderFirst(c, s, e, p, q, added)
    ensures Placed(c, Apply(c, s, e), p, q, added || Adds(c, s, e, q))
  {
    if !Fails(c, s, e) {
      match e
      case World(w) => WorldPlaced(c, s, w, p, q, added);
      case Add(a) => AddPlaced(c, s, a, p, q, added);
      case Change(d) => ChangePlaced(c, s, d, p, q, added);
      case Loop(l) =>
    }
    hide WorldMoved, AddMoved, ChangeMoved, WorldEnabled, AddEnabled, ChangeEnabled;
  }

  lemma WorldPlaced(c: Pollables, s: State, e: WorldStep, p: Id, q: Id, added: bool)
    requires Made(s) && Placed(c, s, p, q, added) && WorldEnabled(c, s, e) && !Fails(c, s, World(e))
    requires LeaderFirst(c, s, World(e), p, q, added)
    ensures Placed(c, WorldMoved(c, s, e), p, q, added)
  {
  }

  lemma AddPlaced(c: Pollables, s: State, e: AddStep, p: Id, q: Id, added: bool)
    requires Placed(c, s, p, q, added) && AddEnabled(c, s, e) && !Fails(c, s, Add(e))
    ensures Placed(c, AddMoved(c, s, e), p, q, added || e == AddLocked(q))
  {
  }

  lemma ChangePlaced(c: Pollables, s: State, e: ChangeStep, p: Id, q: Id, added: bool)
    requires Placed(c, s, p, q, added) && ChangeEnabled(s, e) && !Fails(c, s, Change(e))
    requires LeaderFirst(c, s, Change(e), p, q, added)
    ensures Placed(c, ChangeMoved(c, s, e), p, q, added)
  {
  }

  lemma WaitFindsPlaced(c: Pollables, s: State, batch: seq<Fd>, p: Id, q: Id, added: bool)
    requires Coherent(c, s) && Placed(c, s, p, q, added) && Enabled(c, s, Loop(Wait(batch)))
    ensures Kept(Apply(c, s, Loop(Wait(batch))), p, q, added)
  {
    hide Apart, Justified, Adding, Agreed, Dispatchable;
  }

  // A reference is lost only while another stays.
  lemma LosingKeepsOne(s: State, p: Id)
    requires s.removing[p] > 0 && p in s.pending
    ensures Known(s, p) > 1
  {
  }

  lemma StepKept(c: Pollables, s: State, e: Step, p: Id, q: Id, added: bool)
    requires Made(s) && Kept(s, p, q, added) && Enabled(c, s, e) && !(e.Loop? && e.turn.Wait?)
    ensures Kept(Apply(c, s, e), p, q, added || Adds(c, s, e, q))
  {
    if Apply(c, s, e).phase.Dispatching? && p in Apply(c, s, e).phase.batch {
      StaysInBatch(c, s, e, p);
      StepKnown(c, s, e, q);
      if Happens(c, s, e, q, Lost) { LosingKeepsOne(s, q); }
      assert !Happens(c, s, e, q, Drained);
      assert Happens(c, s, e, q, Registered) <==> Adds(c, s, e, q);
      hide Known, Apply, Happens, Adds, Enabled;
      assert added ==> Known(s, q) > 0;
      assert added || Adds(c, s, e, q) ==> Known(Apply(c, s, e), q) > 0;
    }
  }

  ghost predicate FollowerKnown(c: Pollables, s: State, p: Id, q: Id, added: bool) {
    Coherent(c, s) && Balance(s, q) >= 0 && Placed(c, s, p, q, added) && Kept(s, p, q, added)
  }

  lemma {:induction false} RunFollowerKnown(c: Pollables, s: State, es: seq<Step>, p: Id, q: Id, added: bool)
    requires FollowerKnown(c, s, p, q, added) && IsRun(c, s, es) && IsLeaderFirst(c, s, es, p, q, added)
    ensures FollowerKnown(c, After(c, s, es), p, q, AddedBy(c, s, es, q, added))
    decreases |es|
  {
    if es != [] {
      var e := es[0];
      hide Apart, Justified, Wrapped, Adding, Watched, Agreed, Dispatchable, Placed, Kept, Enabled, Fails, Apply;
      hide LeaderFirst, Adds, Balance;
      if Fails(c, s, e) { FailureKeeps(c, s, e); } else { StepCoherent(c, s, e); }
      StepBalance(c, s, e, q);
      StepPlaced(c, s, e, p, q, added);
      if e.Loop? && e.turn.Wait? {
        WaitFindsPlaced(c, s, e.turn.batch, p, q, added);
        assert !Adds(c, s, e, q) by { NoAdd(c, s, e, q); }
      } else {
        StepKept(c, s, e, p, q, added);
      }
      RunFollowerKnown(c, Apply(c, s, e), es[1..], p, q, added || Adds(c, s, e, q));
    }
  }

  lemma NoAdd(c: Pollables, s: State, e: Step, q: Id)
    requires e.Loop?
    ensures !Adds(c, s, e, q)
  {
  }

  // Main result: while the leader waits to be handled or is being handled, its follower is alive.
  lemma FollowersOutlive(c: Pollables, es: seq<Step>, p: Id, q: Id)
    requires IsRun(c, START, es) && IsLeaderFirst(c, START, es, p, q, false)
    ensures var s := After(c, START, es);
      s.phase.Dispatching? && p in s.phase.batch ==> !Dead(s, q)
  {
    RunFollowerKnown(c, START, es, p, q, false);
    hide IsRun, After, Coherent, AddedBy;
  }

  // A leader does die under its follower's handler, in order: another thread shuts the tie down,
  // and the poll thread drains the leader and comes to dispatch the follower before shutdown()
  // releases the leader. Pollable 0 leads, on descriptor 5; pollable 1 follows, on descriptor 6.

  const WATCH := Mode(true, true)

  function Tied(): Pollables { Pollables(p => 5 + p, p => WATCH) }

  const MADE := [World(Open(5)), World(Open(6)), World(Make(0)), World(Make(1))]
  const TURN := [Loop(Wait([])), Loop(DrainBegin([0]))]
  const FORGET := [Loop(DrainForget)]
  const LET_GO := [Loop(DrainRelease)]
  const NEXT_TURN := [Loop(DrainEnd), Loop(Wait([6]))]
  const RELEASED := [World(Release(1)), World(Release(0))]

  const PAIR := State(Tables(map[], {}, map[]), {}, Waiting, multiset{}, {}, multiset{},
                      map[0 := 1, 1 := 1], map[0 := 1, 1 := 1], map[5 := 0, 6 := 1], {5, 6}, false)
  const ADDED := PAIR.(count := map[0 := 2, 1 := 2], tables := Tables(
    map[5 := WATCH, 6 := WATCH], {0, 1}, map[5 := Registration(0, true, true), 6 := Registration(1, true, true)]))
  const HALF_ADDED := PAIR.(count := map[0 := 2, 1 := 1],
                            tables := Tables(map[5 := WATCH], {0}, map[5 := Registration(0, true, true)]))
  const LEADER_CLOSED := ADDED.(open := {6}, wrapped := map[6 := 1],
                                tables := ADDED.tables.(kernel := map[6 := Registration(1, true, true)]))
  const LEADER_REMOVED := LEADER_CLOSED.(pending := {0},
    tables := Tables(map[6 := WATCH], {1}, map[6 := Registration(1, true, true)]))
  const LEADER_LISTED := LEADER_REMOVED.(pending := {}, phase := Draining([0], false))
  const LEADER_FORGOTTEN := LEADER_LISTED.(phase := Draining([0], true))
  const LEADER_DRAINED := LEADER_LISTED.(count := map[0 := 1, 1 := 2], phase := Draining([], false))
  const DISPATCHED := LEADER_LISTED.(count := map[0 := 1, 1 := 2], phase := Dispatching([1]))
  const FOLLOWER_CLOSED := DISPATCHED.(open := {}, wrapped := map[], tables := Tables(map[6 := WATCH], {1}, map[]))
  const FOLLOWER_REMOVED := FOLLOWER_CLOSED.(pending := {1}, tables := Tables(map[], {}, map[]))
  const LEADER_DELETED :=
    FOLLOWER_REMOVED.(count := map[0 := 0, 1 := 1], owned := map[0 := 0, 1 := 0])

  lemma PairIsMade()
    ensures Leads(Tied(), START, MADE, PAIR)
  {
    hide AddMoved, ChangeMoved, LoopMoved, AddEnabled, ChangeEnabled, LoopEnabled;
    var c := Tied();
    var s1 := WorldMoved(c, START, Open(5));
    var s2 := WorldMoved(c, s1, Open(6));
    var s3 := WorldMoved(c, s2, Make(0));
    Onward(c, s3, World(Make(1)), []);
    Onward(c, s2, World(Make(0)), [World(Make(1))]);
    Onward(c, s1, World(Open(6)), [World(Make(0)), World(Make(1))]);
    Onward(c, START, World(Open(5)), [World(Open(6)), World(Make(0)), World(Make(1))]);
  }

  lemma LeaderIsAdded()
    ensures Leads(Tied(), PAIR, AddSteps(0), HALF_ADDED)
  {
    AddInOne(Tied(), PAIR, 0);
    hide IsRun, After;
  }

  lemma FollowerIsAdded()
    ensures Leads(Tied(), HALF_ADDED, AddSteps(1), ADDED)
  {
    AddInOne(Tied(), HALF_ADDED, 1);
    hide IsRun, After, AddSteps;
    assert HALF_ADDED.count[1 := 2] == ADDED.count && HALF_ADDED.tables.pollSet + {1} == ADDED.tables.pollSet;
    assert HALF_ADDED.tables.mode[6 := WATCH] == ADDED.tables.mode;
    assert HALF_ADDED.tables.kernel[6 := Registration(1, true, true)] == ADDED.tables.kernel;
  }

  lemma LeaderIsClosed()
    ensures Leads(Tied(), ADDED, [World(Close(5))], LEADER_CLOSED)
  {
    hide AddMoved, ChangeMoved, LoopMoved, AddEnabled, ChangeEnabled, LoopEnabled;
    assert ADDED.wrapped - {5} == LEADER_CLOSED.wrapped && ADDED.open - {5} == LEADER_CLOSED.open;
    assert ADDED.tables.kernel - {5} == LEADER_CLOSED.tables.kernel;
    assert WorldMoved(Tied(), ADDED, Close(5)) == LEADER_CLOSED;
    Onward(Tied(), ADDED, World(Close(5)), []);
  }

  lemma LeaderIsRemoved()
    ensures Leads(Tied(), LEADER_CLOSED, RemoveSteps(0, true), LEADER_REMOVED)
  {
    RemoveInOne(Tied(), LEADER_CLOSED, 0);
    hide IsRun, After, RemoveSteps;
    assert LEADER_CLOSED.pending + {0} == LEADER_REMOVED.pending;
    assert LEADER_CLOSED.tables.pollSet - {0} == LEADER_REMOVED.tables.pollSet;
    assert LEADER_CLOSED.tables.mode - {5} == LEADER_REMOVED.tables.mode;
    assert Unregister(Tied(), LEADER_CLOSED.tables, 0) == LEADER_REMOVED.tables;
    hide Unregister;
  }

  lemma LeaderIsListed()
    ensures Leads(Tied(), LEADER_REMOVED, TURN, LEADER_LISTED)
  {
    hide AddMoved, ChangeMoved, WorldMoved, AddEnabled, ChangeEnabled, WorldEnabled;
    var c := Tied();
    var s1 := LoopMoved(c, LEADER_REMOVED, Wait([]));
    Onward(c, s1, Loop(DrainBegin([0])), []);
    Onward(c, LEADER_REMOVED, Loop(Wait([])), [Loop(DrainBegin([0]))]);
  }

  lemma LeaderIsForgotten()
    ensures Leads(Tied(), LEADER_LISTED, FORGET, LEADER_FORGOTTEN)
  {
    hide AddMoved, ChangeMoved, WorldMoved, AddEnabled, ChangeEnabled, WorldEnabled;
    assert LoopMoved(Tied(), LEADER_LISTED, DrainForget) == LEADER_FORGOTTEN;
    Onward(Tied(), LEADER_LISTED, Loop(DrainForget), []);
  }

  lemma LeaderIsDrained()
    ensures Leads(Tied(), LEADER_FORGOTTEN, LET_GO, LEADER_DRAINED)
  {
    hide AddMoved, ChangeMoved, WorldMoved, AddEnabled, ChangeEnabled, WorldEnabled;
    assert LEADER_FORGOTTEN.phase.list[1..] == [];
    assert LEADER_FORGOTTEN.count[0 := 1] == LEADER_DRAINED.count;
    assert LoopMoved(Tied(), LEADER_FORGOTTEN, DrainRelease) == LEADER_DRAINED;
    Onward(Tied(), LEADER_FORGOTTEN, Loop(DrainRelease), []);
  }

  lemma FollowerIsDispatched()
    ensures Leads(Tied(), LEADER_DRAINED, NEXT_TURN, DISPATCHED)
  {
    hide AddMoved, ChangeMoved, WorldMoved, AddEnabled, ChangeEnabled, WorldEnabled;
    var c := Tied();
    var s := LoopMoved(c, LEADER_DRAINED, DrainEnd);
    assert LoopMoved(c, s, Wait([6])).phase.batch == [1];
    assert LoopMoved(c, s, Wait([6])) == DISPATCHED;
    Onward(c, s, Loop(Wait([6])), []);
    Onward(c, LEADER_DRAINED, Loop(DrainEnd), [Loop(Wait([6]))]);
  }

  lemma FollowerIsClosed()
    ensures Leads(Tied(), DISPATCHED, [World(Close(6))], FOLLOWER_CLOSED)
  {
    hide AddMoved, ChangeMoved, LoopMoved, AddEnabled, ChangeEnabled, LoopEnabled;
    assert WorldMoved(Tied(), DISPATCHED, Close(6)) == FOLLOWER_CLOSED;
    Onward(Tied(), DISPATCHED, World(Close(6)), []);
  }

  lemma FollowerIsRemoved()
    ensures Leads(Tied(), FOLLOWER_CLOSED, RemoveSteps(1, true), FOLLOWER_REMOVED)
  {
    RemoveInOne(Tied(), FOLLOWER_CLOSED, 1);
    hide IsRun, After;
  }

  lemma BothAreReleased()
    ensures Leads(Tied(), FOLLOWER_REMOVED, RELEASED, LEADER_DELETED)
  {
    hide AddMoved, ChangeMoved, LoopMoved, AddEnabled, ChangeEnabled, LoopEnabled;
    var c := Tied();
    var s1 := WorldMoved(c, FOLLOWER_REMOVED, Release(1));
    Onward(c, s1, World(Release(0)), []);
    Onward(c, FOLLOWER_REMOVED, World(Release(1)), [World(Release(0))]);
  }

  const SETUP := MADE + AddSteps(0) + AddSteps(1)
  const LEADER_SHUT := [World(Close(5))] + RemoveSteps(0, true) + TURN + FORGET + LET_GO + NEXT_TURN

  lemma SetupLeads()
    ensures Leads(Tied(), START, SETUP, ADDED)
  {
    PairIsMade();
    LeaderIsAdded();
    FollowerIsAdded();
    hide Leads, START, MADE, AddSteps, PAIR, HALF_ADDED, ADDED;
    LeadsOn(Tied(), START, MADE, PAIR, AddSteps(0), HALF_ADDED);
    LeadsOn(Tied(), START, MADE + AddSteps(0), HALF_ADDED, AddSteps(1), ADDED);
  }

  lemma LeaderShutLeads()
    ensures Leads(Tied(), ADDED, LEADER_SHUT, DISPATCHED)
  {
    LeaderIsClosed();
    LeaderIsRemoved();
    LeaderIsListed();
    LeaderIsForgotten();
    LeaderIsDrained();
    FollowerIsDispatched();
    hide Leads, ADDED, LEADER_CLOSED, LEADER_REMOVED, LEADER_LISTED, LEADER_FORGOTTEN, LEADER_DRAINED, DISPATCHED;
    hide RemoveSteps, TURN, FORGET, LET_GO, NEXT_TURN;
    var close, off := [World(Close(5))], RemoveSteps(0, true);
    LeadsOn(Tied(), ADDED, close, LEADER_CLOSED, off, LEADER_REMOVED);
    LeadsOn(Tied(), ADDED, close + off, LEADER_REMOVED, TURN, LEADER_LISTED);
    LeadsOn(Tied(), ADDED, close + off + TURN, LEADER_LISTED, FORGET, LEADER_FORGOTTEN);
    LeadsOn(Tied(), ADDED, close + off + TURN + FORGET, LEADER_FORGOTTEN, LET_GO, LEADER_DRAINED);
    LeadsOn(Tied(), ADDED, close + off + TURN + FORGET + LET_GO, LEADER_DRAINED, NEXT_TURN, DISPATCHED);
  }

  // Only the last two steps let anything go.
  predicate Releases(es: seq<Step>) {
    exists k :: 0 <= k < |es| && es[k].World? && es[k].world.Release?
  }

  lemma {:induction false} NoReleaseInOrder(c: Pollables, s: State, es: seq<Step>, p: Id, q: Id)
    requires IsRun(c, s, es) && !Releases(es)
    ensures IsInOrder(c, s, es, p, q)
    decreases |es|
  {
    hide Enabled, Apply;
    if es != [] {
      assert forall k :: 0 <= k < |es| - 1 ==> es[1..][k] == es[k + 1];
      NoReleaseInOrder(c, Apply(c, s, es[0]), es[1..], p, q);
    }
  }

  lemma {:induction false} InOrderCompose(c: Pollables, s: State, es: seq<Step>, fs: seq<Step>, p: Id, q: Id)
    requires IsRun(c, s, es) && IsInOrder(c, s, es, p, q)
    requires IsRun(c, After(c, s, es), fs) && IsInOrder(c, After(c, s, es), fs, p, q)
    ensures IsRun(c, s, es + fs) && IsInOrder(c, s, es + fs, p, q)
    decreases |es|
  {
    hide Enabled, Apply, InOrder;
    RunsCompose(c, s, es, fs);
    if es == [] {
      assert es + fs == fs;
    } else {
      InOrderCompose(c, Apply(c, s, es[0]), es[1..], fs, p, q);
      assert (es + fs)[1..] == es[1..] + fs;
    }
  }

  const CLOSED_BOTH := SETUP + LEADER_SHUT + ([World(Close(6))] + RemoveSteps(1, true))

  lemma ClosedBothLeads()
    ensures Leads(Tied(), START, CLOSED_BOTH, FOLLOWER_REMOVED)
  {
    SetupLeads();
    LeaderShutLeads();
    FollowerIsClosed();
    FollowerIsRemoved();
    hide Leads, START, ADDED, DISPATCHED, FOLLOWER_CLOSED, FOLLOWER_REMOVED, SETUP, LEADER_SHUT, RemoveSteps;
    LeadsOn(Tied(), DISPATCHED, [World(Close(6))], FOLLOWER_CLOSED, RemoveSteps(1, true), FOLLOWER_REMOVED);
    LeadsOn(Tied(), START, SETUP, ADDED, LEADER_SHUT, DISPATCHED);
    LeadsOn(Tied(), START, SETUP + LEADER_SHUT, DISPATCHED, [World(Close(6))] + RemoveSteps(1, true), FOLLOWER_REMOVED);
  }

  // The follower is alive and about to be handled, its peer is deleted, and the run was in order.
  lemma PeerDiesUnderHandler()
    ensures IsRun(Tied(), START, CLOSED_BOTH + RELEASED) && IsInOrder(Tied(), START, CLOSED_BOTH + RELEASED, 1, 0)
    ensures var s := After(Tied(), START, CLOSED_BOTH + RELEASED);
      !s.aborted && s.phase == Dispatching([1]) && Count(s.count, 1) == 1 && Dead(s, 0)
  {
    ClosedBothLeads();
    BothAreReleased();
    assert !Releases(CLOSED_BOTH);
    NoReleaseInOrder(Tied(), START, CLOSED_BOTH, 1, 0);
    ReleasedInOrder();
    hide IsRun, After, START, CLOSED_BOTH, IsInOrder;
    LeadsOn(Tied(), START, CLOSED_BOTH, FOLLOWER_REMOVED, RELEASED, LEADER_DELETED);
    InOrderCompose(Tied(), START, CLOSED_BOTH, RELEASED, 1, 0);
  }

  lemma ReleasedInOrder()
    ensures IsRun(Tied(), FOLLOWER_REMOVED, RELEASED) && IsInOrder(Tied(), FOLLOWER_REMOVED, RELEASED, 1, 0)
  {
    BothAreReleased();
    hide AddMoved, ChangeMoved, LoopMoved, AddEnabled, ChangeEnabled, LoopEnabled;
    var s := WorldMoved(Tied(), FOLLOWER_REMOVED, Release(1));
    assert Apply(Tied(), FOLLOWER_REMOVED, World(Release(1))) == s;
    assert !Owns(Tied(), s, 1) && 1 in s.count;
  }

  // Out of order it can be worse: the leader is gone before its follower is even returned.
  const CARELESS := MADE + AddSteps(1) + [World(Release(0))] + [Loop(Wait([6]))]
  const FOLLOWER_ONLY := PAIR.(count := map[0 := 1, 1 := 2],
                               tables := Tables(map[6 := WATCH], {1}, map[6 := Registration(1, true, true)]))
  const LEADER_DROPPED := FOLLOWER_ONLY.(count := map[0 := 0, 1 := 2], owned := map[0 := 0, 1 := 1])
  const LEADER_GONE := LEADER_DROPPED.(phase := Dispatching([1]))

  lemma FollowerAloneIsAdded()
    ensures Leads(Tied(), PAIR, AddSteps(1), FOLLOWER_ONLY)
  {
    AddInOne(Tied(), PAIR, 1);
    hide IsRun, After;
  }

  lemma LeaderIsDropped()
    ensures Leads(Tied(), FOLLOWER_ONLY, [World(Release(0))], LEADER_DROPPED)
  {
    hide AddMoved, ChangeMoved, LoopMoved, AddEnabled, ChangeEnabled, LoopEnabled;
    assert FOLLOWER_ONLY.count[0 := 0] == LEADER_DROPPED.count;
    assert FOLLOWER_ONLY.owned[0 := 0] == LEADER_DROPPED.owned;
    assert WorldMoved(Tied(), FOLLOWER_ONLY, Release(0)) == LEADER_DROPPED;
    Onward(Tied(), FOLLOWER_ONLY, World(Release(0)), []);
  }

  lemma FollowerIsReturned()
    ensures Leads(Tied(), LEADER_DROPPED, [Loop(Wait([6]))], LEADER_GONE)
  {
    hide AddMoved, ChangeMoved, WorldMoved, AddEnabled, ChangeEnabled, WorldEnabled;
    assert LoopMoved(Tied(), LEADER_DROPPED, Wait([6])).phase.batch == [1];
    assert LoopMoved(Tied(), LEADER_DROPPED, Wait([6])) == LEADER_GONE;
    Onward(Tied(), LEADER_DROPPED, Loop(Wait([6])), []);
  }

  lemma OutOfOrderIsReturnedDead()
    ensures IsRun(Tied(), START, CARELESS)
    ensures var s := After(Tied(), START, CARELESS);
      !s.aborted && s.phase == Dispatching([1]) && Count(s.count, 1) == 2 && Dead(s, 0)
  {
    PairIsMade();
    FollowerAloneIsAdded();
    LeaderIsDropped();
    FollowerIsReturned();
    hide IsRun, After, START, MADE, AddSteps;
    LeadsOn(Tied(), START, MADE, PAIR, AddSteps(1), FOLLOWER_ONLY);
    LeadsOn(Tied(), START, MADE + AddSteps(1), FOLLOWER_ONLY, [World(Release(0))], LEADER_DROPPED);
    LeadsOn(Tied(), START, MADE + AddSteps(1) + [World(Release(0))], LEADER_DROPPED, [Loop(Wait([6]))], LEADER_GONE);
  }
}
