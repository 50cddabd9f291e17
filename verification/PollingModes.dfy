// The mode in force is the one last asked for, by add() or update_mode().
module PollingModes {
  import opened Common
  import opened Polling
  import opened PollingSafety
  import opened PollingRuns

  // What a step asks for p: add() the mode p was made with, update_mode() its argument.
  function NowAsked(c: Pollables, e: Step, p: Id, asked: Option<Mode>): Option<Mode> {
    match e
    case Add(AddLocked(q)) => if q == p then Some(c.mode(p)) else asked
    case Change(Update(q, mode)) => if q == p then Some(mode) else asked
    case _ => asked
  }

  // What the last step to ask for p asked for; asked if none did.
  function LastAsked(c: Pollables, es: seq<Step>, p: Id, asked: Option<Mode>): Option<Mode> {
    if es == [] then asked else LastAsked(c, es[1..], p, NowAsked(c, es[0], p, asked))
  }

  ghost predicate InForce(c: Pollables, s: State, p: Id, asked: Option<Mode>) {
    !s.aborted && p in s.tables.pollSet ==> c.fd(p) in s.tables.mode && asked == Some(s.tables.mode[c.fd(p)])
  }

  lemma AddInForce(c: Pollables, s: State, e: AddStep, p: Id, asked: Option<Mode>)
    requires Apart(c, s) && InForce(c, s, p, asked) && AddEnabled(c, s, e) && !s.aborted && !Fails(c, s, Add(e))
    ensures InForce(c, AddMoved(c, s, e), p, NowAsked(c, Add(e), p, asked))
  {
  }

  lemma ChangeInForce(c: Pollables, s: State, e: ChangeStep, p: Id, asked: Option<Mode>)
    requires Apart(c, s) && InForce(c, s, p, asked) && ChangeEnabled(s, e) && !s.aborted && !Fails(c, s, Change(e))
    ensures InForce(c, ChangeMoved(c, s, e), p, NowAsked(c, Change(e), p, asked))
  {
  }

  lemma StepInForce(c: Pollables, s: State, e: Step, p: Id, asked: Option<Mode>)
    requires Apart(c, s) && InForce(c, s, p, asked) && Enabled(c, s, e)
    ensures InForce(c, Apply(c, s, e), p, NowAsked(c, e, p, asked))
  {
    if !Fails(c, s, e) {
      match e
      case World(w) =>
      case Add(a) => AddInForce(c, s, a, p, asked);
      case Change(d) => ChangeInForce(c, s, d, p, asked);
      case Loop(l) =>
    }
    hide AddMoved, ChangeMoved, AddEnabled, ChangeEnabled, WorldEnabled, LoopEnabled, Apart;
  }

  lemma {:induction false} RunInForce(c: Pollables, s: State, es: seq<Step>, p: Id, asked: Option<Mode>)
    requires Coherent(c, s) && InForce(c, s, p, asked) && IsRun(c, s, es)
    ensures InForce(c, After(c, s, es), p, LastAsked(c, es, p, asked))
    decreases |es|
  {
    if es != [] {
      StepInForce(c, s, es[0], p, asked);
      hide Coherent, InForce, Enabled, Fails, NowAsked;
      if Fails(c, s, es[0]) { FailureCoherent(c, s); } else { StepCoherent(c, s, es[0]); }
      hide Apply;
      RunInForce(c, Apply(c, s, es[0]), es[1..], p, NowAsked(c, es[0], p, asked));
    }
  }

  // Main result: after every run that did not fail, mode_ has for each member of poll_set_ the mode
  // last asked for. Once its add() is complete, and while its descriptor is its own, the kernel
  // watches for output exactly if that mode has WRITE, and for input if it has READ or no mode but
  // the first was asked for.
  lemma ModeIsLastAsked(c: Pollables, es: seq<Step>, p: Id)
    requires IsRun(c, START, es) && !After(c, START, es).aborted && p in After(c, START, es).tables.pollSet
    ensures var s, asked := After(c, START, es), LastAsked(c, es, p, None);
      && c.fd(p) in s.tables.mode && asked == Some(s.tables.mode[c.fd(p)])
      && (p !in s.announcing && Owns(c, s, p) ==>
            c.fd(p) in s.tables.kernel && var r := s.tables.kernel[c.fd(p)];
            r.poll == p && r.output == asked.value.write &&
            (r.input == asked.value.read || (r.input && asked.value == c.mode(p))))
  {
    RunInForce(c, START, es, p, None);
    RunsAreCoherent(c, START, es);
    hide IsRun, After, LastAsked;
  }
}
