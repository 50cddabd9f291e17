// What holds after every run of the epoll protocol, from the start of a PollThread.
module PollingRuns {
  import opened Common
  import opened Polling
  import opened PollingSafety

  ghost predicate Coherent(c: Pollables, s: State) {
    Made(s) && Apart(c, s) && Justified(c, s) && Wrapped(c, s) && Adding(c, s) &&
    Watched(c, s) && Agreed(c, s) && Dispatchable(s)
  }

  lemma StepCoherent(c: Pollables, s: State, e: Step)
    requires Coherent(c, s) && Enabled(c, s, e) && !Fails(c, s, e)
    ensures Coherent(c, Apply(c, s, e))
  {
    hide Apart, Justified, Wrapped, Adding, Watched, Agreed, Dispatchable, Made;
    hide WorldEnabled, AddEnabled, ChangeEnabled, LoopEnabled, WorldMoved, AddMoved, ChangeMoved, LoopMoved, Fails;
    match e
    case World(w) =>
      WorldBalance(c, s, w, 0); WorldTables(c, s, w); WorldAdding(c, s, w); WorldWatched(c, s, w); WorldAgreed(c, s, w);
    case Add(a) =>
      AddBalance(c, s, a, 0); AddApart(c, s, a); AddTables(c, s, a);
      AddAdding(c, s, a); AddWatched(c, s, a); AddAgreed(c, s, a);
    case Change(d) =>
      ChangeBalance(c, s, d, 0); ChangeApart(c, s, d); ChangeTables(c, s, d);
      ChangeAdding(c, s, d); ChangeWatched(c, s, d); ChangeAgreed(c, s, d);
    case Loop(l) =>
      LoopBalance(c, s, l, 0); LoopTables(c, s, l); LoopAdding(c, s, l); LoopWatched(c, s, l); LoopAgreed(c, s, l);
  }

  // A failure changes nothing else.
  lemma FailureCoherent(c: Pollables, s: State)
    requires Coherent(c, s)
    ensures Coherent(c, s.(aborted := true))
  {
  }

  lemma StepBalance(c: Pollables, s: State, e: Step, p: Id)
    requires Made(s) && Enabled(c, s, e)
    ensures Balance(Apply(c, s, e), p) == Balance(s, p) + Bit(LosesReference(s, e, p))
  {
    hide Made, WorldEnabled, AddEnabled, ChangeEnabled, LoopEnabled, WorldMoved, AddMoved, ChangeMoved, LoopMoved;
    if !Fails(c, s, e) {
      hide Balance, Fails;
      match e
      case World(w) => WorldBalance(c, s, w, p);
      case Add(a) => AddBalance(c, s, a, p);
      case Change(d) => ChangeBalance(c, s, d, p);
      case Loop(l) => LoopBalance(c, s, l, p);
    }
  }

  lemma {:induction false} RunsAreCoherent(c: Pollables, s: State, es: seq<Step>)
    requires Coherent(c, s) && IsRun(c, s, es)
    ensures Coherent(c, After(c, s, es))
    decreases |es|
  {
    hide Coherent, Enabled, Fails;
    if es != [] {
      if Fails(c, s, es[0]) { FailureCoherent(c, s); } else { StepCoherent(c, s, es[0]); }
      RunsAreCoherent(c, Apply(c, s, es[0]), es[1..]);
    }
  }

  lemma Onward(c: Pollables, s: State, e: Step, rest: seq<Step>)
    requires Enabled(c, s, e) && IsRun(c, Apply(c, s, e), rest)
    ensures IsRun(c, s, [e] + rest) && After(c, s, [e] + rest) == After(c, Apply(c, s, e), rest)
  {
    assert ([e] + rest)[1..] == rest;
  }

  lemma {:induction false} RunsCompose(c: Pollables, s: State, es: seq<Step>, fs: seq<Step>)
    requires IsRun(c, s, es) && IsRun(c, After(c, s, es), fs)
    ensures IsRun(c, s, es + fs) && After(c, s, es + fs) == After(c, After(c, s, es), fs)
    decreases |es|
  {
    hide Enabled, Fails, Apply;
    if es == [] {
      assert es + fs == fs;
    } else {
      RunsCompose(c, Apply(c, s, es[0]), es[1..], fs);
      Onward(c, s, es[0], es[1..] + fs);
      assert [es[0]] + (es[1..] + fs) == es + fs;
    }
  }

  ghost predicate Leads(c: Pollables, s: State, es: seq<Step>, t: State) {
    IsRun(c, s, es) && After(c, s, es) == t
  }

  lemma LeadsOn(c: Pollables, s: State, es: seq<Step>, t: State, fs: seq<Step>, u: State)
    requires Leads(c, s, es, t) && Leads(c, t, fs, u)
    ensures Leads(c, s, es + fs, u)
  {
    hide IsRun, After;
    RunsCompose(c, s, es, fs);
  }

  // Undisturbed calls, from states with no other call under way.

  function AddSteps(p: Id): seq<Step> {
    [Add(AddCopy(p)), Add(AddLocked(p)), Add(AddKernel(p))]
  }

  function RemoveSteps(p: Id, found: bool): seq<Step> {
    [Change(RemoveLocked(p))] + if found then [Change(RemovePend(p))] else []
  }

  predicate Calm(s: State) {
    !s.aborted && s.registering == multiset{} && s.announcing == {} && s.removing == multiset{}
  }

  lemma AddInOne(c: Pollables, s: State, p: Id)
    requires Calm(s) && AddEnabled(c, s, AddCopy(p)) && p in s.count
    requires CanRegister(c, s.tables, p) && CanEpollAdd(c, s.tables, p, s.open)
    ensures IsRun(c, s, AddSteps(p))
    ensures After(c, s, AddSteps(p)) ==
      s.(count := s.count[p := s.count[p] + 1], tables := EpollAdd(c, Register(c, s.tables, p), p))
  {
    hide WorldEnabled, WorldMoved, ChangeEnabled, LoopEnabled, ChangeMoved, LoopMoved;
    var s1 := AddMoved(c, s, AddCopy(p));
    var s2 := AddMoved(c, s1, AddLocked(p));
    var s3 := AddMoved(c, s2, AddKernel(p));
    assert s3.registering == multiset{} && s3.announcing == {};
    Onward(c, s2, Add(AddKernel(p)), []);
    Onward(c, s1, Add(AddLocked(p)), [Add(AddKernel(p))]);
    Onward(c, s, Add(AddCopy(p)), [Add(AddLocked(p)), Add(AddKernel(p))]);
  }

  lemma RemoveInOne(c: Pollables, s: State, p: Id)
    requires Calm(s) && Count(s.owned, p) > 0 && p in s.tables.pollSet && c.fd(p) in s.tables.mode
    ensures IsRun(c, s, RemoveSteps(p, true))
    ensures After(c, s, RemoveSteps(p, true)) == s.(tables := Unregister(c, s.tables, p), pending := s.pending + {p})
  {
    hide WorldEnabled, WorldMoved, AddEnabled, LoopEnabled, AddMoved, LoopMoved;
    var s1 := ChangeMoved(c, s, RemoveLocked(p));
    var s2 := ChangeMoved(c, s1, RemovePend(p));
    assert s2.removing == multiset{};
    Onward(c, s1, Change(RemovePend(p)), []);
    Onward(c, s, Change(RemoveLocked(p)), [Change(RemovePend(p))]);
    assert RemoveSteps(p, true) == [Change(RemoveLocked(p)), Change(RemovePend(p))];
  }

  // What may happen to a pollable on the way.
  datatype Event = Registered | Readded | Drained | Lost | Deleted

  ghost predicate Happens(c: Pollables, s: State, e: Step, p: Id, what: Event)
    requires Enabled(c, s, e)
  {
    match what
    case Registered => e == Add(AddLocked(p)) && !Fails(c, s, e)
    case Readded =>
      // Registered again before its last removal reached the drain.
      e == Add(AddLocked(p)) && !Fails(c, s, e) && (s.removing[p] > 0 || p in s.pending)
    case Drained => e == Loop(DrainRelease) && s.phase.list[0] == p && !Fails(c, s, e)
    case Lost => LosesReference(s, e, p)
    case Deleted =>
      // release() brings the count to zero.
      (e == World(Release(p)) || (e == Loop(DrainRelease) && s.phase.list[0] == p)) && Count(s.count, p) == 1
  }

  ghost function Times(c: Pollables, s: State, es: seq<Step>, p: Id, what: Event): nat
    requires IsRun(c, s, es)
    decreases |es|
  {
    if es == [] then 0
    else Bit(Happens(c, s, es[0], p, what)) + Times(c, Apply(c, s, es[0]), es[1..], p, what)
  }

  predicate Dead(s: State, p: Id) {
    p in s.count && s.count[p] == 0
  }

  // A deleted pollable stays deleted: nobody holds a reference to copy.
  lemma StepDead(c: Pollables, s: State, e: Step, p: Id)
    requires Made(s) && Balance(s, p) >= 0 && Enabled(c, s, e)
    ensures Bit(Dead(Apply(c, s, e), p)) == Bit(Dead(s, p)) + Bit(Happens(c, s, e, p, Deleted))
  {
  }

  // The poll thread's holdings change by registrations, drains and losses only.
  lemma StepKnown(c: Pollables, s: State, e: Step, p: Id)
    requires Made(s) && Enabled(c, s, e)
    ensures Known(Apply(c, s, e), p) + Bit(Happens(c, s, e, p, Drained)) + Bit(Happens(c, s, e, p, Lost))
         == Known(s, p) + Bit(Happens(c, s, e, p, Registered))
  {
    hide Made, WorldEnabled, AddEnabled, ChangeEnabled, LoopEnabled, WorldMoved, AddMoved, ChangeMoved, LoopMoved;
    if !Fails(c, s, e) {
      hide Balance, Known, Fails;
      match e
      case World(w) => WorldBalance(c, s, w, p);
      case Add(a) => AddBalance(c, s, a, p);
      case Change(d) => ChangeBalance(c, s, d, p);
      case Loop(l) => LoopBalance(c, s, l, p);
    }
  }

  lemma {:induction false} Ledger(c: Pollables, s: State, es: seq<Step>, p: Id)
    requires Coherent(c, s) && Balance(s, p) >= 0 && IsRun(c, s, es)
    ensures Balance(After(c, s, es), p) == Balance(s, p) + Times(c, s, es, p, Lost)
    ensures Bit(Dead(After(c, s, es), p)) == Bit(Dead(s, p)) + Times(c, s, es, p, Deleted)
    ensures Known(After(c, s, es), p) + Times(c, s, es, p, Drained) + Times(c, s, es, p, Lost)
         == Known(s, p) + Times(c, s, es, p, Registered)
    decreases |es|
  {
    hide Apart, Justified, Wrapped, Adding, Watched, Agreed, Dispatchable, Made, Enabled, Fails, Balance, Known, Dead;
    if es != [] {
      StepBalance(c, s, es[0], p);
      StepDead(c, s, es[0], p);
      StepKnown(c, s, es[0], p);
      RunsAreCoherent(c, s, es[..1]) by { assert es[..1][1..] == []; }
      Ledger(c, Apply(c, s, es[0]), es[1..], p);
    }
  }

  // Where add() and remove() keep p between them.
  ghost predicate HeldOnce(s: State, p: Id) {
    Bit(p in s.tables.pollSet) + s.removing[p] + Bit(p in s.pending) <= 1
  }

  lemma AddHeldOnce(c: Pollables, s: State, e: AddStep, p: Id)
    requires HeldOnce(s, p) && AddEnabled(c, s, e) && !Fails(c, s, Add(e))
    requires e == AddLocked(p) ==> s.removing[p] == 0 && p !in s.pending
    ensures HeldOnce(AddMoved(c, s, e), p)
  {
  }

  lemma ChangeHeldOnce(c: Pollables, s: State, e: ChangeStep, p: Id)
    requires HeldOnce(s, p) && ChangeEnabled(s, e) && !Fails(c, s, Change(e))
    ensures HeldOnce(ChangeMoved(c, s, e), p) && !LosesReference(s, Change(e), p)
  {
  }

  lemma StepHeldOnce(c: Pollables, s: State, e: Step, p: Id)
    requires HeldOnce(s, p) && Enabled(c, s, e) && !Happens(c, s, e, p, Readded)
    ensures HeldOnce(Apply(c, s, e), p) && !Happens(c, s, e, p, Lost)
  {
    if !Fails(c, s, e) {
      match e
      case World(w) => hide AddMoved, ChangeMoved, LoopMoved;
      case Add(a) =>
        AddHeldOnce(c, s, a, p);
        hide AddMoved, HeldOnce, AddEnabled, Fails;
      case Change(d) =>
        ChangeHeldOnce(c, s, d, p);
        hide ChangeMoved, HeldOnce, ChangeEnabled, Fails;
      case Loop(l) => hide AddMoved, ChangeMoved, WorldMoved;
    }
  }

  // References are lost only by pollables that were added again while pending.
  lemma {:induction false} OnlyReaddedAreLost(c: Pollables, s: State, es: seq<Step>, p: Id)
    requires HeldOnce(s, p) && IsRun(c, s, es) && Times(c, s, es, p, Readded) == 0
    ensures Times(c, s, es, p, Lost) == 0
    decreases |es|
  {
    hide Enabled, Apply, Happens, HeldOnce;
    if es != [] {
      StepHeldOnce(c, s, es[0], p);
      OnlyReaddedAreLost(c, Apply(c, s, es[0]), es[1..], p);
    }
  }

  // A pollable added once is not added again.
  lemma {:induction false} OnceIsNotAgain(c: Pollables, s: State, es: seq<Step>, p: Id)
    requires Coherent(c, s) && IsRun(c, s, es) && Known(s, p) + Times(c, s, es, p, Registered) <= 1
    ensures Times(c, s, es, p, Readded) == 0
    decreases |es|
  {
    hide Apart, Justified, Wrapped, Adding, Watched, Agreed, Dispatchable, Made, Enabled, Fails, DrainList;
    if es != [] {
      StepKnown(c, s, es[0], p);
      RunsAreCoherent(c, s, es[..1]) by { assert es[..1][1..] == []; }
      OnceIsNotAgain(c, Apply(c, s, es[0]), es[1..], p);
    }
  }

  // Main results. After any run from the start, in any interleaving:

  // the count of a pollable is what clients hold, plus one for every add() on its way and for
  // each table it is in, and the references lost by removing it again while it was pending;
  // a pollable that was never added again while pending has lost none.
  lemma ReferencesConserved(c: Pollables, es: seq<Step>, p: Id)
    requires IsRun(c, START, es)
    ensures var s := After(c, START, es);
      Count(s.count, p) == Count(s.owned, p) + s.registering[p] + Bit(p in s.tables.pollSet) + s.removing[p]
        + Bit(p in s.pending) + multiset(DrainList(s))[p] + Times(c, START, es, p, Lost)
    ensures Times(c, START, es, p, Registered) <= 1 ==> Times(c, START, es, p, Readded) == 0
    ensures Times(c, START, es, p, Readded) == 0 ==> Times(c, START, es, p, Lost) == 0
  {
    Ledger(c, START, es, p);
    if Times(c, START, es, p, Registered) <= 1 { OnceIsNotAgain(c, START, es, p); }
    if Times(c, START, es, p, Readded) == 0 { OnlyReaddedAreLost(c, START, es, p); }
  }

  // every pollable in a place the loop takes it from is alive;
  lemma ReclamationIsDeferred(c: Pollables, es: seq<Step>, p: Id)
    requires IsRun(c, START, es)
    requires var s := After(c, START, es);
      p in s.tables.pollSet || p in s.pending || p in DrainList(s) || s.registering[p] > 0 || s.removing[p] > 0 ||
      (s.phase.Dispatching? && p in s.phase.batch)
    ensures Count(After(c, START, es).count, p) >= 1
  {
    Ledger(c, START, es, p);
    RunsAreCoherent(c, START, es);
  }

  // a pollable is deleted at most once, exactly when its count is zero, and, unless it was added
  // again while pending, not before every one of its registrations was drained;
  lemma DeletedOnce(c: Pollables, es: seq<Step>, p: Id)
    requires IsRun(c, START, es)
    ensures Times(c, START, es, p, Deleted) == Bit(Dead(After(c, START, es), p))
    ensures Dead(After(c, START, es), p) && Times(c, START, es, p, Readded) == 0 ==>
      Times(c, START, es, p, Drained) == Times(c, START, es, p, Registered)
  {
    Ledger(c, START, es, p);
    ReferencesConserved(c, es, p);
  }

  // Clients hold no reference to p, no call on it is under way, and the poll thread has removed
  // and drained it.
  ghost predicate LetGo(s: State, p: Id) {
    p in s.count && Count(s.owned, p) == 0 && s.registering[p] == 0 && s.removing[p] == 0 &&
    s.phase.Waiting? && p !in s.tables.pollSet && p !in s.pending
  }

  // once everybody let go of it, it is deleted if and only if no reference was lost;
  lemma DeletedInTheEnd(c: Pollables, es: seq<Step>, p: Id)
    requires IsRun(c, START, es) && LetGo(After(c, START, es), p)
    ensures Times(c, START, es, p, Deleted) == 1 <==> Times(c, START, es, p, Lost) == 0
    ensures Times(c, START, es, p, Readded) == 0 ==> Times(c, START, es, p, Deleted) == 1
  {
    Ledger(c, START, es, p);
    ReferencesConserved(c, es, p);
  }

  // and so a tie, whose ends are each added once, is deleted once, each end drained once, whether
  // its descriptors are closed before or after removal.
  lemma TiesAreDeletedOnce(c: Pollables, es: seq<Step>, p: Id, q: Id)
    requires IsRun(c, START, es) && LetGo(After(c, START, es), p) && LetGo(After(c, START, es), q)
    requires Times(c, START, es, p, Registered) == 1 && Times(c, START, es, q, Registered) == 1
    ensures Times(c, START, es, p, Deleted) == 1 && Times(c, START, es, p, Drained) == 1
    ensures Times(c, START, es, q, Deleted) == 1 && Times(c, START, es, q, Drained) == 1
  {
    DeletedInTheEnd(c, es, p);
    DeletedInTheEnd(c, es, q);
    DeletedOnce(c, es, p);
    DeletedOnce(c, es, q);
    ReferencesConserved(c, es, p);
    ReferencesConserved(c, es, q);
  }

  // A deleted pollable is not registered any more.
  lemma {:induction false} DeadStaysOut(c: Pollables, s: State, es: seq<Step>, p: Id)
    requires Coherent(c, s) && Dead(s, p) && Balance(s, p) >= 0 && IsRun(c, s, es)
    ensures Times(c, s, es, p, Registered) == 0
    decreases |es|
  {
    hide Apart, Justified, Wrapped, Adding, Watched, Agreed, Dispatchable, Fails;
    if es != [] {
      assert !Happens(c, s, es[0], p, Registered);
      StepBalance(c, s, es[0], p);
      StepDead(c, s, es[0], p);
      RunsAreCoherent(c, s, es[..1]) by { assert es[..1][1..] == []; }
      hide Apply, Happens, Enabled, Made, Dead, Balance;
      DeadStaysOut(c, Apply(c, s, es[0]), es[1..], p);
    }
  }

  // In particular the drain comes first: wherever in such a run an end is found deleted, it was
  // drained by then.
  lemma DrainedBeforeDeleted(c: Pollables, es: seq<Step>, fs: seq<Step>, p: Id)
    requires IsRun(c, START, es) && IsRun(c, After(c, START, es), fs) && Dead(After(c, START, es), p)
    requires Times(c, START, es, p, Registered) + Times(c, After(c, START, es), fs, p, Registered) == 1
    ensures Times(c, START, es, p, Drained) == 1
  {
    Ledger(c, START, es, p);
    RunsAreCoherent(c, START, es);
    DeadStaysOut(c, After(c, START, es), fs, p);
    ReferencesConserved(c, es, p);
  }

  // mode_ holds exactly the descriptors of poll_set_, and the kernel's registration of a reader
  // whose add() is complete and whose descriptor is still open is the one mode_ records.
  lemma KernelAgreesWithMode(c: Pollables, es: seq<Step>, p: Id)
    requires IsRun(c, START, es)
    ensures var s := After(c, START, es);
      && s.tables.mode.Keys == (set q | q in s.tables.pollSet :: c.fd(q))
      && (forall q, r :: q in s.tables.pollSet && r in s.tables.pollSet && q != r ==> c.fd(q) != c.fd(r))
      && (p in s.tables.pollSet && p !in s.announcing && Owns(c, s, p) && c.mode(p).read ==>
            c.fd(p) in s.open && c.fd(p) in s.tables.kernel && s.tables.kernel[c.fd(p)] ==
            Registration(p, s.tables.mode[c.fd(p)].read, s.tables.mode[c.fd(p)].write))
  {
    RunsAreCoherent(c, START, es);
  }

  // The drain's EPOLL_CTL_DEL spares every registered pollable, whoever used its descriptor
  // before, and leaves no event to come for the pollable about to be released.
  lemma DrainSparesTheRegistered(c: Pollables, es: seq<Step>, p: Id)
    requires IsRun(c, START, es)
    requires Enabled(c, After(c, START, es), Loop(DrainForget))
    ensures var s := After(c, START, es); var s' := Apply(c, s, Loop(DrainForget));
      && (p in s.tables.pollSet && c.fd(p) in s.tables.kernel ==>
            c.fd(p) in s'.tables.kernel && s'.tables.kernel[c.fd(p)] == s.tables.kernel[c.fd(p)])
      && (DrainList(s)[0] !in s.tables.pollSet ==>
            forall f :: f in s'.tables.kernel ==> s'.tables.kernel[f].poll != DrainList(s)[0])
  {
    hide WorldMoved, AddMoved, ChangeMoved, IsRun, After;
    RunsAreCoherent(c, START, es);
  }

  // Exactly when a step fails a verify or an assert.
  lemma WhenStepsFail(c: Pollables, es: seq<Step>, e: Step)
    requires IsRun(c, START, es)
    requires Enabled(c, After(c, START, es), e)
    ensures var s := After(c, START, es);
      Fails(c, s, e) <==>
        match e
        // add() of a pollable whose descriptor number some member of poll_set_ has,
        case Add(AddLocked(p)) => exists q :: q in s.tables.pollSet && c.fd(q) == c.fd(p)
        // or which the kernel still knows from an earlier registration;
        case Add(AddKernel(p)) => c.fd(p) in s.tables.kernel && s.tables.kernel[c.fd(p)].poll == p
        // remove() of a stranger whose descriptor number some member has;
        case Change(RemoveLocked(p)) =>
          p !in s.tables.pollSet && exists q :: q in s.tables.pollSet && c.fd(q) == c.fd(p)
        // and a change of mode that the kernel never heard of or forgot at close().
        case Change(Update(p, mode)) =>
          p in s.tables.pollSet && c.fd(p) !in s.tables.kernel &&
          c.fd(p) in s.tables.mode && mode != s.tables.mode[c.fd(p)]
        case _ => false
  {
    hide WorldMoved, AddMoved, ChangeMoved, LoopMoved, IsRun, After;
    RunsAreCoherent(c, START, es);
    match e
    case World(Release(p)) => Ledger(c, START, es, p);
    case Loop(DrainRelease) => Ledger(c, START, es, DrainList(After(c, START, es))[0]);
    case _ =>
  }
}
