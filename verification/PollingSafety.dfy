// What every run of the epoll protocol keeps, whatever the interleaving.
module PollingSafety {
  import opened Common
  import opened Polling

  // References the poll thread's own tables stand for.
  ghost function Known(s: State, p: Id): nat {
    Bit(p in s.tables.pollSet) + s.removing[p] + Bit(p in s.pending) + multiset(DrainList(s))[p]
  }

  // The count of p less every reference somebody accounts for.
  ghost function Balance(s: State, p: Id): int {
    Count(s.count, p) - Count(s.owned, p) - s.registering[p] - Known(s, p)
  }

  // remove() inserts p into pending_remove_ while an earlier remove() of it still waits there.
  predicate LosesReference(s: State, e: Step, p: Id) {
    e == Change(RemovePend(p)) && p in s.pending
  }

  ghost predicate Made(s: State) {
    s.count.Keys == s.owned.Keys
  }

  lemma HeadCount(list: seq<Id>, p: Id)
    requires list != []
    ensures multiset(list)[p] == Bit(p == list[0]) + multiset(list[1..])[p]
  {
    assert list == [list[0]] + list[1..];
  }

  lemma DrainBegins(s: State, order: seq<Id>, p: Id)
    requires multiset(order) == multiset(s.pending)
    ensures multiset(order)[p] == Bit(p in s.pending)
  {
  }

  // One step, one pollable: the balance moves only when a reference is lost.

  lemma WorldBalance(c: Pollables, s: State, e: WorldStep, p: Id)
    requires Made(s) && WorldEnabled(c, s, e) && !Fails(c, s, World(e))
    ensures Made(WorldMoved(c, s, e))
    ensures Balance(WorldMoved(c, s, e), p) == Balance(s, p)
    ensures Known(WorldMoved(c, s, e), p) == Known(s, p)
  {
  }

  lemma AddBalance(c: Pollables, s: State, e: AddStep, p: Id)
    requires Made(s) && AddEnabled(c, s, e) && !Fails(c, s, Add(e))
    ensures Made(AddMoved(c, s, e))
    ensures Balance(AddMoved(c, s, e), p) == Balance(s, p)
    ensures Known(AddMoved(c, s, e), p) == Known(s, p) + Bit(e == AddLocked(p))
  {
  }

  lemma ChangeBalance(c: Pollables, s: State, e: ChangeStep, p: Id)
    requires Made(s) && ChangeEnabled(s, e) && !Fails(c, s, Change(e))
    ensures Made(ChangeMoved(c, s, e))
    ensures Balance(ChangeMoved(c, s, e), p) == Balance(s, p) + Bit(LosesReference(s, Change(e), p))
    ensures Known(ChangeMoved(c, s, e), p) + Bit(LosesReference(s, Change(e), p)) == Known(s, p)
  {
  }

  lemma LoopBalance(c: Pollables, s: State, e: LoopStep, p: Id)
    requires Made(s) && LoopEnabled(s, e) && !Fails(c, s, Loop(e))
    ensures Made(LoopMoved(c, s, e))
    ensures Balance(LoopMoved(c, s, e), p) == Balance(s, p)
    ensures Known(LoopMoved(c, s, e), p) + Bit(e == DrainRelease && s.phase.list[0] == p) == Known(s, p)
  {
    match e
    case DrainBegin(order) => DrainBegins(s, order, p);
    case DrainRelease => HeadCount(s.phase.list, p);
    case _ =>
  }

  // Every member of poll_set_ has its descriptor in mode_, and no two members share one.
  ghost predicate Apart(c: Pollables, s: State) {
    && (forall p :: p in s.tables.pollSet ==> c.fd(p) in s.tables.mode && p in s.count)
    && (forall p, q :: p in s.tables.pollSet && q in s.tables.pollSet && c.fd(p) == c.fd(q) ==> p == q)
  }

  // mode_ has no other descriptor.
  ghost predicate Justified(c: Pollables, s: State) {
    forall f :: f in s.tables.mode ==> exists p :: p in s.tables.pollSet && c.fd(p) == f
  }

  ghost predicate Wrapped(c: Pollables, s: State) {
    forall f :: f in s.wrapped ==> f in s.open && c.fd(s.wrapped[f]) == f && s.wrapped[f] in s.count
  }

  predicate Owns(c: Pollables, s: State, p: Id) {
    c.fd(p) in s.wrapped && s.wrapped[c.fd(p)] == p
  }

  // An add() under way: the descriptor is still its pollable's, and what it will register is
  // what mode_ says, unless epoll_ctl is bound to refuse.
  ghost predicate Adding(c: Pollables, s: State) {
    && (forall p :: s.registering[p] > 0 ==> Owns(c, s, p))
    && (forall p :: p in s.announcing ==>
          Owns(c, s, p) && p in s.tables.pollSet && c.fd(p) in s.tables.mode &&
          (c.fd(p) in s.tables.kernel || s.tables.mode[c.fd(p)] == c.mode(p)))
  }

  // The part of the drain list whose locked section is still to come.
  function Unforgotten(s: State): seq<Id> {
    if s.phase.Draining? && s.phase.unregistered && s.phase.list != [] then s.phase.list[1..] else DrainList(s)
  }

  ghost predicate Departing(s: State, p: Id) {
    s.removing[p] > 0 || p in s.pending || p in Unforgotten(s)
  }

  // The kernel hands back only pollables the thread still holds, one per descriptor.
  ghost predicate Watched(c: Pollables, s: State) {
    && (forall f :: f in s.tables.kernel ==>
          && f in s.wrapped && s.wrapped[f] == s.tables.kernel[f].poll
          && (s.tables.kernel[f].poll in s.tables.pollSet || Departing(s, s.tables.kernel[f].poll)))
    && (forall p :: p in s.tables.pollSet && c.fd(p) in s.tables.kernel ==> s.tables.kernel[c.fd(p)].poll == p)
  }

  // The kernel's mask for p is the one mode_ records; EPOLL_CTL_ADD asks for input regardless.
  ghost predicate AgreesFor(c: Pollables, s: State, p: Id)
    requires c.fd(p) in s.tables.mode
  {
    c.fd(p) in s.tables.kernel &&
    var r, mode := s.tables.kernel[c.fd(p)], s.tables.mode[c.fd(p)];
    r.poll == p && r.output == mode.write && (r.input == mode.read || (r.input && mode == c.mode(p)))
  }

  ghost predicate Agreed(c: Pollables, s: State) {
    forall p :: p in s.tables.pollSet && p !in s.announcing && Owns(c, s, p) ==>
      c.fd(p) in s.tables.mode && AgreesFor(c, s, p)
  }

  // Every pollable of the batch is still held by the thread.
  ghost predicate Dispatchable(s: State) {
    s.phase.Dispatching? ==> forall i :: 0 <= i < |s.phase.batch| ==>
      s.phase.batch[i] in s.tables.pollSet || Departing(s, s.phase.batch[i])
  }

  lemma WorldTables(c: Pollables, s: State, e: WorldStep)
    requires Apart(c, s) && Justified(c, s) && Wrapped(c, s) && Dispatchable(s)
    requires WorldEnabled(c, s, e) && !Fails(c, s, World(e))
    ensures Apart(c, WorldMoved(c, s, e))
    ensures Justified(c, WorldMoved(c, s, e))
    ensures Wrapped(c, WorldMoved(c, s, e))
    ensures Dispatchable(WorldMoved(c, s, e))
  {
  }

  lemma WorldAdding(c: Pollables, s: State, e: WorldStep)
    requires Adding(c, s) && Wrapped(c, s)
    requires WorldEnabled(c, s, e) && !Fails(c, s, World(e))
    ensures Adding(c, WorldMoved(c, s, e))
  {
  }

  lemma WorldWatched(c: Pollables, s: State, e: WorldStep)
    requires Apart(c, s) && Wrapped(c, s) && Watched(c, s)
    requires WorldEnabled(c, s, e) && !Fails(c, s, World(e))
    ensures Watched(c, WorldMoved(c, s, e))
  {
  }

  lemma WorldAgreed(c: Pollables, s: State, e: WorldStep)
    requires Apart(c, s) && Agreed(c, s)
    requires WorldEnabled(c, s, e) && !Fails(c, s, World(e))
    ensures Agreed(c, WorldMoved(c, s, e))
  {
  }

  lemma AddApart(c: Pollables, s: State, e: AddStep)
    requires Apart(c, s) && Wrapped(c, s) && Adding(c, s)
    requires AddEnabled(c, s, e) && !Fails(c, s, Add(e))
    ensures Apart(c, AddMoved(c, s, e))
  {
  }

  lemma ChangeApart(c: Pollables, s: State, e: ChangeStep)
    requires Apart(c, s) && Wrapped(c, s) && Adding(c, s)
    requires ChangeEnabled(s, e) && !Fails(c, s, Change(e))
    ensures Apart(c, ChangeMoved(c, s, e))
  {
  }

  lemma AddTables(c: Pollables, s: State, e: AddStep)
    requires Justified(c, s) && Wrapped(c, s) && Dispatchable(s)
    requires AddEnabled(c, s, e) && !Fails(c, s, Add(e))
    ensures Justified(c, AddMoved(c, s, e))
    ensures Wrapped(c, AddMoved(c, s, e))
    ensures Dispatchable(AddMoved(c, s, e))
  {
  }

  lemma ChangeTables(c: Pollables, s: State, e: ChangeStep)
    requires Justified(c, s) && Wrapped(c, s) && Dispatchable(s)
    requires ChangeEnabled(s, e) && !Fails(c, s, Change(e))
    ensures Justified(c, ChangeMoved(c, s, e))
    ensures Wrapped(c, ChangeMoved(c, s, e))
    ensures Dispatchable(ChangeMoved(c, s, e))
  {
  }

  lemma AddAdding(c: Pollables, s: State, e: AddStep)
    requires Apart(c, s) && Wrapped(c, s) && Adding(c, s)
    requires AddEnabled(c, s, e) && !Fails(c, s, Add(e))
    ensures Adding(c, AddMoved(c, s, e))
  {
  }

  lemma ChangeAdding(c: Pollables, s: State, e: ChangeStep)
    requires Apart(c, s) && Wrapped(c, s) && Adding(c, s)
    requires ChangeEnabled(s, e) && !Fails(c, s, Change(e))
    ensures Adding(c, ChangeMoved(c, s, e))
  {
  }

  lemma AddWatched(c: Pollables, s: State, e: AddStep)
    requires Apart(c, s) && Wrapped(c, s) && Adding(c, s) && Watched(c, s)
    requires AddEnabled(c, s, e) && !Fails(c, s, Add(e))
    ensures Watched(c, AddMoved(c, s, e))
  {
    hide Count;
    match e
    case AddCopy(p) =>
    case AddLocked(p) =>
    case AddKernel(p) =>
  }

  lemma ChangeWatched(c: Pollables, s: State, e: ChangeStep)
    requires Apart(c, s) && Wrapped(c, s) && Adding(c, s) && Watched(c, s)
    requires ChangeEnabled(s, e) && !Fails(c, s, Change(e))
    ensures Watched(c, ChangeMoved(c, s, e))
  {
    hide Count;
    match e
    case RemoveLocked(p) =>
    case RemovePend(p) =>
    case Update(p, mode) =>
  }

  lemma AddAgreed(c: Pollables, s: State, e: AddStep)
    requires Apart(c, s) && Wrapped(c, s) && Adding(c, s) && Watched(c, s) && Agreed(c, s)
    requires AddEnabled(c, s, e) && !Fails(c, s, Add(e))
    ensures Agreed(c, AddMoved(c, s, e))
  {
  }

  lemma ChangeAgreed(c: Pollables, s: State, e: ChangeStep)
    requires Apart(c, s) && Wrapped(c, s) && Adding(c, s) && Watched(c, s) && Agreed(c, s)
    requires ChangeEnabled(s, e) && !Fails(c, s, Change(e))
    ensures Agreed(c, ChangeMoved(c, s, e))
  {
  }

  lemma LoopTables(c: Pollables, s: State, e: LoopStep)
    requires Apart(c, s) && Justified(c, s) && Wrapped(c, s)
    requires LoopEnabled(s, e) && !Fails(c, s, Loop(e))
    ensures Apart(c, LoopMoved(c, s, e))
    ensures Justified(c, LoopMoved(c, s, e))
    ensures Wrapped(c, LoopMoved(c, s, e))
  {
  }

  lemma LoopAdding(c: Pollables, s: State, e: LoopStep)
    requires Adding(c, s)
    requires LoopEnabled(s, e) && !Fails(c, s, Loop(e))
    ensures Adding(c, LoopMoved(c, s, e))
  {
  }

  lemma LoopWatched(c: Pollables, s: State, e: LoopStep)
    requires Justified(c, s) && Wrapped(c, s) && Watched(c, s) && Dispatchable(s)
    requires LoopEnabled(s, e) && !Fails(c, s, Loop(e))
    ensures Watched(c, LoopMoved(c, s, e))
    ensures Dispatchable(LoopMoved(c, s, e))
  {
    match e
    case DrainBegin(order) =>
      forall p | p in s.pending ensures p in order { DrainBegins(s, order, p); }
    case DrainForget =>
      var list := s.phase.list;
      assert list == [list[0]] + list[1..];
    case _ =>
  }

  lemma LoopAgreed(c: Pollables, s: State, e: LoopStep)
    requires Apart(c, s) && Agreed(c, s)
    requires LoopEnabled(s, e) && !Fails(c, s, Loop(e))
    ensures Agreed(c, LoopMoved(c, s, e))
  {
  }
}
