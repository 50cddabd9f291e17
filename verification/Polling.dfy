// The epoll manager of polling.cc with the reference counts of utils.h, as a protocol: the
// atomic steps are the critical sections and the kernel calls, taken in any order by any
// number of threads.
module Polling {

  type Id = nat
  type Fd = nat

  // The READ and WRITE bits of a poll mode.
  datatype Mode = Mode(read: bool, write: bool)

  // What the kernel watches a descriptor for, and the pointer it hands back.
  datatype Registration = Registration(poll: Id, input: bool, output: bool)

  // fd() and poll_mode() of every pollable: constant over its life.
  datatype Pollables = Pollables(fd: Id -> Fd, mode: Id -> Mode)

  // The tables of one PollThread and its epoll instance.
  datatype Tables = Tables(mode: map<Fd, Mode>, pollSet: set<Id>, kernel: map<Fd, Registration>)

  datatype Phase =
    | Waiting
    | Dispatching(batch: seq<Id>)
    | Draining(list: seq<Id>, unregistered: bool)

  datatype State = State(
    tables: Tables,
    pending: set<Id>,         // pending_remove_
    phase: Phase,             // where poll_loop is
    registering: multiset<Id>, // add() calls that hold their reference but not yet the lock
    announcing: set<Id>,      // add() calls between the lock and epoll_ctl
    removing: multiset<Id>,   // remove() calls between their two locks
    count: map<Id, nat>,      // refcnt_ of every pollable ever made
    owned: map<Id, nat>,      // of these, references held by clients
    wrapped: map<Fd, Id>,     // open descriptors and the pollable made for each
    open: set<Fd>,
    aborted: bool)            // some verify or assert failed

  function Count(m: map<Id, nat>, p: Id): nat { if p in m then m[p] else 0 }

  function DrainList(s: State): seq<Id> {
    if s.phase.Draining? then s.phase.list else []
  }

  // add(), under the lock m_: what its two verifies demand, and the new tables.
  predicate CanRegister(c: Pollables, t: Tables, p: Id) {
    p !in t.pollSet && c.fd(p) !in t.mode
  }

  function Register(c: Pollables, t: Tables, p: Id): Tables {
    t.(pollSet := t.pollSet + {p}, mode := t.mode[c.fd(p) := c.mode(p)])
  }

  // add(), after the lock: EPOLL_CTL_ADD fails for a closed or a registered descriptor, and
  // always asks for input.
  predicate CanEpollAdd(c: Pollables, t: Tables, p: Id, open: set<Fd>) {
    c.fd(p) in open && c.fd(p) !in t.kernel
  }

  function EpollAdd(c: Pollables, t: Tables, p: Id): Tables {
    t.(kernel := t.kernel[c.fd(p) := Registration(p, true, c.mode(p).write)])
  }

  // remove(), under m_: what its asserts demand, and the new tables.
  predicate CanUnregister(c: Pollables, t: Tables, p: Id) {
    p in t.pollSet <==> c.fd(p) in t.mode
  }

  function Unregister(c: Pollables, t: Tables, p: Id): Tables {
    if p in t.pollSet then t.(pollSet := t.pollSet - {p}, mode := t.mode - {c.fd(p)}) else t
  }

  // update_mode(): EPOLL_CTL_MOD only when the mode changes; it fails for a descriptor that is
  // not registered.
  predicate CanUpdate(c: Pollables, t: Tables, p: Id, mode: Mode) {
    p in t.pollSet ==>
      c.fd(p) in t.mode && (mode == t.mode[c.fd(p)] || c.fd(p) in t.kernel)
  }

  function UpdateMode(c: Pollables, t: Tables, p: Id, mode: Mode): Tables
    requires CanUpdate(c, t, p, mode)
  {
    if p !in t.pollSet || mode == t.mode[c.fd(p)] then t
    else t.(mode := t.mode[c.fd(p) := mode],
            kernel := t.kernel[c.fd(p) := Registration(p, mode.read, mode.write)])
  }

  // The drain's locked section: EPOLL_CTL_DEL unless the descriptor is registered again.
  function Forget(c: Pollables, t: Tables, p: Id): Tables {
    if c.fd(p) in t.mode then t else t.(kernel := t.kernel - {c.fd(p)})
  }

  // What clients and the kernel do between calls.
  datatype WorldStep =
    | Open(f: Fd)                       // a socket is created
    | Close(f: Fd)                      // close()
    | Make(p: Id)                       // a pollable is constructed for an open descriptor
    | Copy(p: Id)                       // a client's ref_copy
    | Release(p: Id)                    // a client's release

  // The atomic parts of add(), by any thread.
  datatype AddStep =
    | AddCopy(p: Id)                    // ref_copy
    | AddLocked(p: Id)                  // the critical section
    | AddKernel(p: Id)                  // epoll_ctl

  // Those of remove() and update_mode().
  datatype ChangeStep =
    | RemoveLocked(p: Id)               // remove(): the critical section
    | RemovePend(p: Id)                 // remove(): insertion into pending_remove_
    | Update(p: Id, mode: Mode)         // update_mode()

  // The poll thread.
  datatype LoopStep =
    | Wait(batch: seq<Fd>)              // epoll_wait returns events for these descriptors
    | Handle                            // the handlers of the first event have run
    | DrainBegin(order: seq<Id>)        // pending_remove_ is copied and cleared
    | DrainForget                       // the drain's locked section for the first pollable
    | DrainRelease                      // its release
    | DrainEnd

  datatype Step = World(world: WorldStep) | Add(add: AddStep) | Change(change: ChangeStep) | Loop(turn: LoopStep)

  // When a step may happen: the order of each call's own parts, plus what is asked of clients.

  ghost predicate WorldEnabled(c: Pollables, s: State, e: WorldStep) {
    match e
    case Open(f) => f !in s.open
    case Close(f) =>
      // Not while an add() of its pollable is under way.
      f in s.open && (f in s.wrapped ==> s.registering[s.wrapped[f]] == 0 && s.wrapped[f] !in s.announcing)
    case Make(p) =>
      // One pollable per open descriptor: the number is reused only after close().
      p !in s.count && c.fd(p) in s.open && c.fd(p) !in s.wrapped
    case Copy(p) => Count(s.owned, p) > 0
    case Release(p) => Count(s.owned, p) > 0
  }

  ghost predicate AddEnabled(c: Pollables, s: State, e: AddStep) {
    match e
    case AddCopy(p) =>
      // By the holder of a reference, while the descriptor is open.
      Count(s.owned, p) > 0 && c.fd(p) in s.wrapped && s.wrapped[c.fd(p)] == p
    case AddLocked(p) => s.registering[p] > 0
    case AddKernel(p) => p in s.announcing
  }

  ghost predicate ChangeEnabled(s: State, e: ChangeStep) {
    match e
    case RemoveLocked(p) =>
      // By the holder of a reference, after add() has returned.
      Count(s.owned, p) > 0 && s.registering[p] == 0 && p !in s.announcing
    case RemovePend(p) => s.removing[p] > 0
    case Update(p, mode) => Count(s.count, p) > 0
  }

  ghost predicate LoopEnabled(s: State, e: LoopStep) {
    match e
    case Wait(batch) => s.phase.Waiting? && forall i | 0 <= i < |batch| :: batch[i] in s.tables.kernel
    case Handle => s.phase.Dispatching? && s.phase.batch != []
    case DrainBegin(order) => s.phase == Dispatching([]) && multiset(order) == multiset(s.pending)
    case DrainForget => s.phase.Draining? && s.phase.list != [] && !s.phase.unregistered
    case DrainRelease => s.phase.Draining? && s.phase.list != [] && s.phase.unregistered
    case DrainEnd => s.phase.Draining? && s.phase.list == []
  }

  ghost predicate Enabled(c: Pollables, s: State, e: Step) {
    !s.aborted &&
    match e
    case World(w) => WorldEnabled(c, s, w)
    case Add(a) => AddEnabled(c, s, a)
    case Change(d) => ChangeEnabled(s, d)
    case Loop(l) => LoopEnabled(s, l)
  }

  // A failed verify or assert: the process ends.
  ghost predicate Fails(c: Pollables, s: State, e: Step) {
    match e
    case World(Release(p)) => Count(s.count, p) == 0
    case Add(AddLocked(p)) => !CanRegister(c, s.tables, p)
    case Add(AddKernel(p)) => !CanEpollAdd(c, s.tables, p, s.open)
    case Change(RemoveLocked(p)) => !CanUnregister(c, s.tables, p)
    case Change(Update(p, mode)) => !CanUpdate(c, s.tables, p, mode)
    case Loop(DrainRelease) => DrainList(s) != [] && Count(s.count, DrainList(s)[0]) == 0
    case _ => false
  }

  // The effects of steps that do not fail.

  ghost function WorldMoved(c: Pollables, s: State, e: WorldStep): State
    requires WorldEnabled(c, s, e) && !Fails(c, s, World(e))
  {
    match e
    case Open(f) => s.(open := s.open + {f})
    case Close(f) =>
      // The kernel drops its registration of the descriptor.
      s.(open := s.open - {f}, wrapped := s.wrapped - {f}, tables := s.tables.(kernel := s.tables.kernel - {f}))
    case Make(p) => s.(count := s.count[p := 1], owned := s.owned[p := 1], wrapped := s.wrapped[c.fd(p) := p])
    case Copy(p) => s.(count := s.count[p := Count(s.count, p) + 1], owned := s.owned[p := s.owned[p] + 1])
    case Release(p) => s.(count := s.count[p := s.count[p] - 1], owned := s.owned[p := s.owned[p] - 1])
  }

  ghost function AddMoved(c: Pollables, s: State, e: AddStep): State
    requires AddEnabled(c, s, e) && !Fails(c, s, Add(e))
  {
    match e
    case AddCopy(p) =>
      s.(count := s.count[p := Count(s.count, p) + 1], registering := s.registering[p := s.registering[p] + 1])
    case AddLocked(p) =>
      s.(tables := Register(c, s.tables, p), announcing := s.announcing + {p},
         registering := s.registering[p := s.registering[p] - 1])
    case AddKernel(p) => s.(tables := EpollAdd(c, s.tables, p), announcing := s.announcing - {p})
  }

  ghost function ChangeMoved(c: Pollables, s: State, e: ChangeStep): State
    requires ChangeEnabled(s, e) && !Fails(c, s, Change(e))
  {
    match e
    case RemoveLocked(p) =>
      // remove() goes on to pending_remove_ only for a pollable it found.
      s.(tables := Unregister(c, s.tables, p),
         removing := if p in s.tables.pollSet then s.removing[p := s.removing[p] + 1] else s.removing)
    case RemovePend(p) => s.(removing := s.removing[p := s.removing[p] - 1], pending := s.pending + {p})
    case Update(p, mode) => s.(tables := UpdateMode(c, s.tables, p, mode))
  }

  ghost function LoopMoved(c: Pollables, s: State, e: LoopStep): State
    requires LoopEnabled(s, e) && !Fails(c, s, Loop(e))
  {
    match e
    case Wait(batch) =>
      s.(phase := Dispatching(seq(|batch|, i requires 0 <= i < |batch| => s.tables.kernel[batch[i]].poll)))
    case Handle => s.(phase := Dispatching(s.phase.batch[1..]))
    case DrainBegin(order) => s.(pending := {}, phase := Draining(order, false))
    case DrainForget =>
      s.(tables := Forget(c, s.tables, s.phase.list[0]), phase := Draining(s.phase.list, true))
    case DrainRelease =>
      s.(count := s.count[s.phase.list[0] := s.count[s.phase.list[0]] - 1],
         phase := Draining(s.phase.list[1..], false))
    case DrainEnd => s.(phase := Waiting)
  }

  ghost function Apply(c: Pollables, s: State, e: Step): State
    requires Enabled(c, s, e)
  {
    if Fails(c, s, e) then s.(aborted := true)
    else match e
      case World(w) => WorldMoved(c, s, w)
      case Add(a) => AddMoved(c, s, a)
      case Change(d) => ChangeMoved(c, s, d)
      case Loop(l) => LoopMoved(c, s, l)
  }

  const START := State(Tables(map[], {}, map[]), {}, Waiting, multiset{}, {}, multiset{},
                       map[], map[], map[], {}, false)

  // The states a run of steps passes through.
  ghost predicate IsRun(c: Pollables, s: State, es: seq<Step>)
    decreases |es|
  {
    es == [] || (Enabled(c, s, es[0]) && IsRun(c, Apply(c, s, es[0]), es[1..]))
  }

  ghost function After(c: Pollables, s: State, es: seq<Step>): State
    requires IsRun(c, s, es)
    decreases |es|
  {
    if es == [] then s else After(c, Apply(c, s, es[0]), es[1..])
  }
}
