// How a reference can get lost: a run from the start.
module PollingLoss {
  import opened Polling
  import opened PollingRuns

  // Two pollables for descriptor 5, one after the other. While the first waits to be drained, the
  // second is added and removed; the drain of the first then clears the kernel's registration of
  // the second, which therefore can be added again, and removed again, while it is pending.

  const WATCH := Mode(true, true)

  function Both(): Pollables { Pollables(p => 5, p => WATCH) }

  const MADE := [World(Open(5)), World(Make(0))]
  const REUSED := [World(Close(5)), World(Open(5)), World(Make(1))]
  const DRAINED := [Loop(Wait([])), Loop(DrainBegin([0]))]
  const FORGOTTEN := [Loop(DrainForget)]

  function Snapshot(t: Tables, pending: set<Id>, phase: Phase,
                    count: map<Id, nat>, owned: map<Id, nat>, last: Id): State
  {
    State(t, pending, phase, multiset{}, {}, multiset{}, count, owned, map[5 := last], {5}, false)
  }

  const BARE := Tables(map[], {}, map[])

  function Holding(p: Id): Tables { Tables(map[5 := WATCH], {p}, map[5 := Registration(p, true, true)]) }

  function Left(p: Id): Tables { Tables(map[], {}, map[5 := Registration(p, true, true)]) }

  // The states the run passes through.
  const FIRST_MADE := Snapshot(BARE, {}, Waiting, map[0 := 1], map[0 := 1], 0)
  const FIRST_PENDING := Snapshot(Left(0), {0}, Waiting, map[0 := 2], map[0 := 1], 0)
  const SECOND_MADE := Snapshot(BARE, {0}, Waiting, map[0 := 2, 1 := 1], map[0 := 1, 1 := 1], 1)
  const DRAINING := Snapshot(BARE, {}, Draining([0], false), map[0 := 2, 1 := 1], map[0 := 1, 1 := 1], 1)
  const SECOND_PENDING := Snapshot(Left(1), {1}, Draining([0], false), map[0 := 2, 1 := 2], map[0 := 1, 1 := 1], 1)
  const SECOND_CLEARED := Snapshot(BARE, {1}, Draining([0], true), map[0 := 2, 1 := 2], map[0 := 1, 1 := 1], 1)
  const REFERENCE_LOST := Snapshot(Left(1), {1}, Draining([0], true), map[0 := 2, 1 := 3], map[0 := 1, 1 := 1], 1)

  lemma FirstIsMade()
    ensures Leads(Both(), START, MADE, FIRST_MADE)
  {
    hide AddMoved, ChangeMoved, LoopMoved, AddEnabled, ChangeEnabled, LoopEnabled;
    var c := Both();
    var s1 := WorldMoved(c, START, Open(5));
    Onward(c, s1, World(Make(0)), []);
    Onward(c, START, World(Open(5)), [World(Make(0))]);
  }

  // From a state that knows nothing of descriptor 5.
  lemma ComesAndGoes(s: State, p: Id)
    requires Calm(s) && s.tables == BARE && Count(s.owned, p) > 0 && p in s.count
    requires s.open == {5} && s.wrapped == map[5 := p]
    ensures IsRun(Both(), s, AddSteps(p) + RemoveSteps(p, true))
    ensures After(Both(), s, AddSteps(p) + RemoveSteps(p, true)) ==
      s.(count := s.count[p := s.count[p] + 1], tables := Left(p), pending := s.pending + {p})
  {
    var c := Both();
    AddInOne(c, s, p);
    var s1 := After(c, s, AddSteps(p));
    assert s1.tables == Holding(p);
    hide IsRun, After;
    RemoveInOne(c, s1, p);
    assert Unregister(c, s1.tables, p) == Left(p);
    RunsCompose(c, s, AddSteps(p), RemoveSteps(p, true));
  }

  lemma FirstComesAndGoes()
    ensures Leads(Both(), FIRST_MADE, AddSteps(0) + RemoveSteps(0, true), FIRST_PENDING)
  {
    ComesAndGoes(FIRST_MADE, 0);
    hide IsRun, After;
  }

  lemma SecondTakesOver()
    ensures Leads(Both(), FIRST_PENDING, REUSED, SECOND_MADE)
  {
    hide AddMoved, ChangeMoved, LoopMoved, AddEnabled, ChangeEnabled, LoopEnabled;
    var c := Both();
    var s1 := WorldMoved(c, FIRST_PENDING, Close(5));
    var s2 := WorldMoved(c, s1, Open(5));
    Onward(c, s2, World(Make(1)), []);
    Onward(c, s1, World(Open(5)), [World(Make(1))]);
    Onward(c, FIRST_PENDING, World(Close(5)), [World(Open(5)), World(Make(1))]);
  }

  lemma DrainBegins()
    ensures Leads(Both(), SECOND_MADE, DRAINED, DRAINING)
  {
    hide AddMoved, ChangeMoved, WorldMoved, AddEnabled, ChangeEnabled, WorldEnabled;
    var c := Both();
    var s1 := LoopMoved(c, SECOND_MADE, Wait([]));
    Onward(c, s1, Loop(DrainBegin([0])), []);
    Onward(c, SECOND_MADE, Loop(Wait([])), [Loop(DrainBegin([0]))]);
  }

  lemma SecondComesAndGoes()
    ensures Leads(Both(), DRAINING, AddSteps(1) + RemoveSteps(1, true), SECOND_PENDING)
  {
    ComesAndGoes(DRAINING, 1);
    hide IsRun, After;
  }

  lemma FirstIsForgotten()
    ensures Leads(Both(), SECOND_PENDING, FORGOTTEN, SECOND_CLEARED)
  {
    hide AddMoved, ChangeMoved, WorldMoved, AddEnabled, ChangeEnabled, WorldEnabled;
    Onward(Both(), SECOND_PENDING, Loop(DrainForget), []);
  }

  lemma SecondComesAndGoesAgain()
    ensures Leads(Both(), SECOND_CLEARED, AddSteps(1) + RemoveSteps(1, true), REFERENCE_LOST)
  {
    ComesAndGoes(SECOND_CLEARED, 1);
    hide IsRun, After;
  }

  const LOSING :=
    MADE + (AddSteps(0) + RemoveSteps(0, true)) + REUSED + DRAINED + (AddSteps(1) + RemoveSteps(1, true)) + FORGOTTEN +
    (AddSteps(1) + RemoveSteps(1, true))

  lemma LosingRuns()
    ensures Leads(Both(), START, LOSING, REFERENCE_LOST)
  {
    FirstIsMade();
    FirstComesAndGoes();
    SecondTakesOver();
    DrainBegins();
    SecondComesAndGoes();
    FirstIsForgotten();
    SecondComesAndGoesAgain();
    hide Leads, MADE, REUSED, DRAINED, FORGOTTEN, AddSteps, RemoveSteps;
    hide START, FIRST_MADE, FIRST_PENDING, SECOND_MADE, DRAINING, SECOND_PENDING, SECOND_CLEARED, REFERENCE_LOST;
    var zero, one := AddSteps(0) + RemoveSteps(0, true), AddSteps(1) + RemoveSteps(1, true);
    LeadsOn(Both(), START, MADE, FIRST_MADE, zero, FIRST_PENDING);
    LeadsOn(Both(), START, MADE + zero, FIRST_PENDING, REUSED, SECOND_MADE);
    LeadsOn(Both(), START, MADE + zero + REUSED, SECOND_MADE, DRAINED, DRAINING);
    LeadsOn(Both(), START, MADE + zero + REUSED + DRAINED, DRAINING, one, SECOND_PENDING);
    LeadsOn(Both(), START, MADE + zero + REUSED + DRAINED + one, SECOND_PENDING, FORGOTTEN, SECOND_CLEARED);
    LeadsOn(Both(), START, MADE + zero + REUSED + DRAINED + one + FORGOTTEN, SECOND_CLEARED, one, REFERENCE_LOST);
  }

  // Main result: at the end of the run, which fails no verify, the second pollable has a count of
  // three, of which its client holds one and pending_remove_ one.
  lemma AReferenceIsLost()
    ensures IsRun(Both(), START, LOSING)
    ensures var s := After(Both(), START, LOSING);
      !s.aborted && Count(s.count, 1) == 3 && Count(s.owned, 1) == 1 && s.pending == {1} &&
      1 !in s.tables.pollSet && Times(Both(), START, LOSING, 1, Lost) == 1
  {
    LosingRuns();
    hide IsRun, After, LOSING, Times, START;
    ReferencesConserved(Both(), LOSING, 1);
  }
}
