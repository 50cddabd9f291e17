// Clients that take a pollable off the poll thread before they close its descriptor.
module PollingOrderly {
  import opened Polling
  import opened PollingSafety
  import opened PollingRuns

  // What an orderly client asks of itself beyond Enabled.
  ghost predicate Orderly(c: Pollables, s: State, e: Step) {
    match e
    // close() comes after remove(),
    case World(Close(f)) => forall p :: p in s.tables.pollSet ==> c.fd(p) != f
    // a pollable is added again only when the poll thread has let go of it,
    case Add(AddCopy(p)) => s.registering[p] == 0 && Known(s, p) == 0
    // remove() comes while the descriptor is still the pollable's,
    case Change(RemoveLocked(p)) => Owns(c, s, p)
    // and update_mode() not in the middle of add().
    case Change(Update(p, mode)) => p !in s.announcing
    case _ => true
  }

  ghost predicate IsOrderly(c: Pollables, s: State, es: seq<Step>)
    requires IsRun(c, s, es)
    decreases |es|
  {
    es == [] || (Orderly(c, s, es[0]) && IsOrderly(c, Apply(c, s, es[0]), es[1..]))
  }

  // Each pollable is in one place at most; members own their descriptors; an add() under way
  // finds its descriptor unknown to the kernel.
  ghost predicate Single(s: State, p: Id) {
    s.registering[p] + Known(s, p) <= 1
  }

  ghost predicate Own(c: Pollables, s: State) {
    forall p :: p in s.tables.pollSet ==> Owns(c, s, p)
  }

  ghost predicate Unknown(c: Pollables, s: State) {
    forall p :: s.registering[p] > 0 || p in s.announcing ==> c.fd(p) !in s.tables.kernel
  }

  ghost predicate Tidy(c: Pollables, s: State) {
    !s.aborted && Coherent(c, s) && Own(c, s) && Unknown(c, s) &&
    forall p :: Single(s, p) && Balance(s, p) == 0
  }

  lemma OrderlyStepsSucceed(c: Pollables, s: State, e: Step)
    requires Tidy(c, s) && Enabled(c, s, e) && Orderly(c, s, e)
    ensures !Fails(c, s, e)
  {
    match e
    case World(Release(p)) => assert Balance(s, p) == 0;
    case Add(AddLocked(p)) => assert Single(s, p);
    case Loop(DrainRelease) => assert Balance(s, DrainList(s)[0]) == 0;
    case _ =>
  }

  lemma OrderlyLosesNothing(s: State, e: Step, p: Id)
    requires Single(s, p) && (e.Change? ==> ChangeEnabled(s, e.change))
    ensures !LosesReference(s, e, p)
  {
  }

  lemma StepSingle(c: Pollables, s: State, e: Step, p: Id)
    requires Made(s) && Single(s, p) && Enabled(c, s, e) && Orderly(c, s, e)
    ensures Single(Apply(c, s, e), p)
  {
    StepKnown(c, s, e, p);
    hide Known;
  }

  lemma DepartingIsKnown(s: State, p: Id)
    requires p in s.tables.pollSet || Departing(s, p)
    ensures Known(s, p) > 0
  {
    if p in Unforgotten(s) { assert p in DrainList(s); }
  }

  lemma WorldOrderly(c: Pollables, s: State, e: WorldStep)
    requires Own(c, s) && Unknown(c, s) && Adding(c, s) && Apart(c, s)
    requires WorldEnabled(c, s, e) && Orderly(c, s, World(e)) && !Fails(c, s, World(e))
    ensures Own(c, WorldMoved(c, s, e)) && Unknown(c, WorldMoved(c, s, e))
  {
  }

  lemma AddOrderly(c: Pollables, s: State, e: AddStep)
    requires Own(c, s) && Unknown(c, s) && Adding(c, s) && Watched(c, s)
    requires AddEnabled(c, s, e) && Orderly(c, s, Add(e)) && !Fails(c, s, Add(e)) && Single(s, e.p)
    ensures Own(c, AddMoved(c, s, e)) && Unknown(c, AddMoved(c, s, e))
  {
    if e.AddCopy? && c.fd(e.p) in s.tables.kernel { DepartingIsKnown(s, e.p); }
  }

  lemma ChangeOrderly(c: Pollables, s: State, e: ChangeStep)
    requires Own(c, s) && Unknown(c, s)
    requires ChangeEnabled(s, e) && Orderly(c, s, Change(e)) && !Fails(c, s, Change(e))
    ensures Own(c, ChangeMoved(c, s, e)) && Unknown(c, ChangeMoved(c, s, e))
  {
  }

  lemma LoopOrderly(c: Pollables, s: State, e: LoopStep)
    requires Own(c, s) && Unknown(c, s)
    requires LoopEnabled(s, e) && !Fails(c, s, Loop(e))
    ensures Own(c, LoopMoved(c, s, e)) && Unknown(c, LoopMoved(c, s, e))
  {
  }

  lemma StepTidy(c: Pollables, s: State, e: Step)
    requires Tidy(c, s) && Enabled(c, s, e) && Orderly(c, s, e)
    ensures Tidy(c, Apply(c, s, e))
  {
    OrderlyStepsSucceed(c, s, e);
    StepCoherent(c, s, e);
    forall p ensures Single(Apply(c, s, e), p) && Balance(Apply(c, s, e), p) == 0 {
      assert Single(s, p) && Balance(s, p) == 0;
      StepSingle(c, s, e, p);
      StepBalance(c, s, e, p);
      OrderlyLosesNothing(s, e, p);
    }
    hide Own, Unknown, Single, Balance, Coherent;
    match e
    case World(w) => WorldOrderly(c, s, w);
    case Add(a) => assert Single(s, a.p); AddOrderly(c, s, a);
    case Change(d) => ChangeOrderly(c, s, d);
    case Loop(l) => LoopOrderly(c, s, l);
  }

  lemma {:induction false} OrderlyRunsAreTidy(c: Pollables, s: State, es: seq<Step>)
    requires Tidy(c, s) && IsRun(c, s, es) && IsOrderly(c, s, es)
    ensures Tidy(c, After(c, s, es))
    decreases |es|
  {
    hide Tidy, Enabled, Orderly;
    if es != [] {
      StepTidy(c, s, es[0]);
      OrderlyRunsAreTidy(c, Apply(c, s, es[0]), es[1..]);
    }
  }

  // Main result: no orderly run ever fails a verify or an assert, and none loses a reference.
  lemma OrderlyRunsSucceed(c: Pollables, es: seq<Step>, p: Id)
    requires IsRun(c, START, es) && IsOrderly(c, START, es)
    ensures var s := After(c, START, es);
      && !s.aborted
      && Count(s.count, p) == Count(s.owned, p) + s.registering[p] + Known(s, p)
      && s.registering[p] + Known(s, p) <= 1
  {
    OrderlyRunsAreTidy(c, START, es);
    var s := After(c, START, es);
    assert Single(s, p) && Balance(s, p) == 0;
  }

  // shutdown() closes before it removes. Whenever another thread is handed the descriptor number
  // in between, its add() fails, and the process with it:
  function Reuse(f: Fd, q: Id): seq<Step> {
    [World(Close(f)), World(Open(f)), World(Make(q)), Add(AddCopy(q)), Add(AddLocked(q))]
  }

  lemma ClosingFirstFails(c: Pollables, s: State, q: Id)
    requires !s.aborted && c.fd(q) in s.open && c.fd(q) in s.tables.mode && q !in s.count && s.registering[q] == 0
    requires c.fd(q) in s.wrapped ==>
      s.registering[s.wrapped[c.fd(q)]] == 0 && s.wrapped[c.fd(q)] !in s.announcing
    ensures IsRun(c, s, Reuse(c.fd(q), q)) && After(c, s, Reuse(c.fd(q), q)).aborted
  {
    hide ChangeEnabled, LoopEnabled, ChangeMoved, LoopMoved;
    var s1 := WorldMoved(c, s, Close(c.fd(q)));
    var s2 := WorldMoved(c, s1, Open(c.fd(q)));
    var s3 := WorldMoved(c, s2, Make(q));
    var s4 := AddMoved(c, s3, AddCopy(q));
    Onward(c, s4, Add(AddLocked(q)), []);
    Onward(c, s3, Add(AddCopy(q)), [Add(AddLocked(q))]);
    Onward(c, s2, World(Make(q)), [Add(AddCopy(q)), Add(AddLocked(q))]);
    Onward(c, s1, World(Open(c.fd(q))), [World(Make(q)), Add(AddCopy(q)), Add(AddLocked(q))]);
    Onward(c, s, World(Close(c.fd(q))), [World(Open(c.fd(q))), World(Make(q)), Add(AddCopy(q)), Add(AddLocked(q))]);
  }

  // and from the start it can come to that, here with two pollables for descriptor 5.

  const TIE := [World(Open(5)), World(Make(0)), Add(AddCopy(0)), Add(AddLocked(0)), Add(AddKernel(0))]

  lemma TieRuns(c: Pollables)
    requires c == Pollables(p => 5, p => Mode(true, true))
    ensures IsRun(c, START, TIE)
    ensures var s := After(c, START, TIE);
      !s.aborted && 5 in s.open && 5 in s.tables.mode && s.count.Keys == {0} && s.wrapped == map[5 := 0] &&
      s.registering[0] == 0 && s.registering[1] == 0 && 0 !in s.announcing
  {
    hide ChangeEnabled, LoopEnabled, ChangeMoved, LoopMoved, AddMoved;
    var s1 := WorldMoved(c, START, Open(5));
    var s2 := WorldMoved(c, s1, Make(0));
    AddInOne(c, s2, 0);
    Onward(c, s1, World(Make(0)), [Add(AddCopy(0)), Add(AddLocked(0)), Add(AddKernel(0))]);
    Onward(c, START, World(Open(5)), [World(Make(0)), Add(AddCopy(0)), Add(AddLocked(0)), Add(AddKernel(0))]);
  }

  lemma ClosingFirstHappens()
    ensures var c := Pollables(p => 5, p => Mode(true, true));
      IsRun(c, START, TIE + Reuse(5, 1)) && After(c, START, TIE + Reuse(5, 1)).aborted
  {
    var c := Pollables(p => 5, p => Mode(true, true));
    TieRuns(c);
    ClosingFirstFails(c, After(c, START, TIE), 1);
    RunsCompose(c, START, TIE, Reuse(5, 1));
  }
}
