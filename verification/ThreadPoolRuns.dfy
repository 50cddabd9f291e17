// The pool's callers, workers and destructor in every interleaving. Each queue with its worker is
// a lane; the atomic steps are the queue's locked push and pop, the end of a job, and the
// destructor's pushes and joins.
module ThreadPoolRuns {
  import opened ThreadPools

  datatype Worker = Waiting | Running(job: Job) | Exited

  datatype Lane = Lane(pushed: seq<Token>, queue: seq<Token>, worker: Worker, finished: seq<Job>)

  // The destructor: not called, about to push to queue k, about to join thread k.
  datatype Stage = Alive | Pushing(k: nat) | Joining(k: nat)

  datatype Pool = Pool(lanes: seq<Lane>, stage: Stage) {
    predicate Joined() { stage == Joining(|lanes|) }

    function With(i: nat, l: Lane): Pool
      requires i < |lanes|
    {
      this.(lanes := lanes[i := l])
    }
  }

  datatype Step =
    | RunAsync(i: nat, job: Job)
    | PopToken(i: nat)
    | Finish(i: nat)              // the job returns and is deleted
    | Destroy                     // the destructor starts
    | PushNull
    | Join

  predicate Enabled(p: Pool, e: Step) {
    match e
    case RunAsync(i, job) => i < |p.lanes| && !p.Joined()
    case PopToken(i) => i < |p.lanes| && p.lanes[i].worker.Waiting? && p.lanes[i].queue != []
    case Finish(i) => i < |p.lanes| && p.lanes[i].worker.Running?
    case Destroy => p.stage.Alive?
    case PushNull => p.stage.Pushing? && p.stage.k <= |p.lanes|
    case Join => p.stage.Joining? && p.stage.k < |p.lanes| && p.lanes[p.stage.k].worker.Exited?
  }

  function Pushed(l: Lane, t: Token): Lane {
    l.(pushed := l.pushed + [t], queue := l.queue + [t])
  }

  function Popped(l: Lane): Lane
    requires l.queue != []
  {
    l.(queue := l.queue[1..], worker := if l.queue[0] == Null then Exited else Running(l.queue[0].job))
  }

  function Finished(l: Lane): Lane
    requires l.worker.Running?
  {
    l.(worker := Waiting, finished := l.finished + [l.worker.job])
  }

  function Apply(p: Pool, e: Step): (r: Pool)
    requires Enabled(p, e)
    ensures |r.lanes| == |p.lanes|
  {
    match e
    case RunAsync(i, job) => p.With(i, Pushed(p.lanes[i], Run(job)))
    case PopToken(i) => p.With(i, Popped(p.lanes[i]))
    case Finish(i) => p.With(i, Finished(p.lanes[i]))
    case Destroy => p.(stage := Pushing(0))
    case PushNull =>
      if p.stage.k == |p.lanes| then p.(stage := Joining(0))
      else p.With(p.stage.k, Pushed(p.lanes[p.stage.k], Null)).(stage := Pushing(p.stage.k + 1))
    case Join => p.(stage := Joining(p.stage.k + 1))
  }

  predicate IsRun(p: Pool, es: seq<Step>)
    decreases |es|
  {
    es == [] || (Enabled(p, es[0]) && IsRun(Apply(p, es[0]), es[1..]))
  }

  function After(p: Pool, es: seq<Step>): (r: Pool)
    requires IsRun(p, es)
    ensures |r.lanes| == |p.lanes|
    decreases |es|
  {
    if es == [] then p else After(Apply(p, es[0]), es[1..])
  }

  function Start(n: nat): Pool {
    Pool(seq(n, i => Lane([], [], Waiting, [])), Alive)
  }

  // The jobs among the tokens, wherever the NULL is.
  function Jobs(tokens: seq<Token>): seq<Job> {
    if tokens == [] then []
    else (if tokens[0] == Null then [] else [tokens[0].job]) + Jobs(tokens[1..])
  }

  function Current(l: Lane): seq<Job> {
    if l.worker.Running? then [l.worker.job] else []
  }

  // Of the jobs ahead of the NULL, each is finished, running or queued, in that order.
  ghost predicate Ordered(l: Lane) {
    if l.worker.Exited? then Null in l.pushed && Due(l.pushed) == l.finished
    else (Null in l.pushed <==> Null in l.queue) && Due(l.pushed) == l.finished + Current(l) + Due(l.queue)
  }

  // The NULLs are where the destructor put them, and it joined only workers that exited.
  ghost predicate Staged(p: Pool, i: nat)
    requires i < |p.lanes|
  {
    match p.stage
    case Alive => Null !in p.lanes[i].pushed
    case Pushing(k) => k <= |p.lanes| && (Null in p.lanes[i].pushed <==> i < k)
    case Joining(k) =>
      k <= |p.lanes| && Null in p.lanes[i].pushed && (i < k ==> p.lanes[i].worker.Exited?)
  }

  ghost predicate Sound(p: Pool) {
    forall i :: 0 <= i < |p.lanes| ==> Ordered(p.lanes[i]) && Staged(p, i)
  }

  lemma PushKeepsOrder(l: Lane, t: Token)
    requires Ordered(l)
    ensures Ordered(Pushed(l, t))
  {
    DueOfPush(l.pushed, t);
    DueOfPush(l.queue, t);
    hide Due;
  }

  lemma PopKeepsOrder(l: Lane)
    requires Ordered(l) && l.worker.Waiting? && l.queue != []
    ensures Ordered(Popped(l))
  {
    assert l.queue == [l.queue[0]] + l.queue[1..];
    assert l.finished + [] == l.finished;
  }

  lemma FinishKeepsOrder(l: Lane)
    requires Ordered(l) && l.worker.Running?
    ensures Ordered(Finished(l))
  {
    assert l.finished + [l.worker.job] + [] == l.finished + [l.worker.job];
  }

  lemma StepSound(p: Pool, e: Step)
    requires Sound(p) && Enabled(p, e)
    ensures Sound(Apply(p, e))
  {
    hide Ordered;
    match e
    case RunAsync(i, job) => PushKeepsOrder(p.lanes[i], Run(job));
    case PopToken(i) => PopKeepsOrder(p.lanes[i]);
    case Finish(i) => FinishKeepsOrder(p.lanes[i]);
    case PushNull => if p.stage.k < |p.lanes| { PushKeepsOrder(p.lanes[p.stage.k], Null); }
    case _ =>
  }

  lemma {:induction false} RunsAreSound(p: Pool, es: seq<Step>)
    requires Sound(p) && IsRun(p, es)
    ensures Sound(After(p, es))
    ensures forall i :: 0 <= i < |p.lanes| ==> p.lanes[i].pushed <= After(p, es).lanes[i].pushed
    decreases |es|
  {
    hide Sound, Ordered, Staged;
    if es != [] {
      StepSound(p, es[0]);
      RunsAreSound(Apply(p, es[0]), es[1..]);
    }
  }

  lemma {:induction false} NoNullAllDue(tokens: seq<Token>)
    requires Null !in tokens
    ensures Due(tokens) == Jobs(tokens)
  {
    if tokens != [] { NoNullAllDue(tokens[1..]); }
  }

  lemma {:induction false} DueOfPrefix(tokens: seq<Token>, more: seq<Token>)
    requires Null !in tokens
    ensures Due(tokens + more) == Jobs(tokens) + Due(more)
  {
    if tokens == [] {
      assert tokens + more == more;
    } else {
      assert (tokens + more)[1..] == tokens[1..] + more;
      DueOfPrefix(tokens[1..], more);
    }
  }

  // Main results. At every moment, also while the destructor is at work, the jobs a queue got ahead
  // of its NULL are each in exactly one place, finished, running or queued, in the order they came;
  // a worker that exited has finished them all.
  lemma DueJobsAreKeptInOrder(n: nat, es: seq<Step>, i: nat)
    requires i < n && IsRun(Start(n), es)
    ensures var l := After(Start(n), es).lanes[i];
      Due(l.pushed) == l.finished + Current(l) + (if l.worker.Exited? then [] else Due(l.queue))
  {
    RunsAreSound(Start(n), es);
    var l := After(Start(n), es).lanes[i];
    assert Ordered(l);
    assert l.worker.Exited? ==> l.finished + Current(l) + [] == l.finished;
  }

  // Until it starts, that is every job the queue got.
  lemma JobsAreKeptInOrder(n: nat, es: seq<Step>, i: nat)
    requires i < n && IsRun(Start(n), es) && After(Start(n), es).stage.Alive?
    ensures var l := After(Start(n), es).lanes[i];
      Jobs(l.pushed) == l.finished + Current(l) + Jobs(l.queue)
  {
    RunsAreSound(Start(n), es);
    var l := After(Start(n), es).lanes[i];
    assert Ordered(l) && Staged(After(Start(n), es), i);
    NoNullAllDue(l.pushed);
    NoNullAllDue(l.queue);
  }

  // When the destructor's joins are through, each worker has run, in order and once each, just the
  // jobs that were ahead of its NULL,
  lemma JoinedMeansDone(n: nat, es: seq<Step>, i: nat)
    requires i < n && IsRun(Start(n), es) && After(Start(n), es).Joined()
    ensures var l := After(Start(n), es).lanes[i];
      l.worker.Exited? && l.finished == Due(l.pushed)
  {
    RunsAreSound(Start(n), es);
    assert Ordered(After(Start(n), es).lanes[i]) && Staged(After(Start(n), es), i);
  }

  // and every job submitted before the destructor started is among them.
  lemma NoJobIsLeftBehind(n: nat, es: seq<Step>, fs: seq<Step>, i: nat)
    requires i < n && IsRun(Start(n), es) && After(Start(n), es).stage.Alive?
    requires IsRun(After(Start(n), es), fs) && After(After(Start(n), es), fs).Joined()
    ensures Jobs(After(Start(n), es).lanes[i].pushed) <= After(After(Start(n), es), fs).lanes[i].finished
  {
    RunsAreSound(Start(n), es);
    var p := After(Start(n), es);
    RunsAreSound(p, fs);
    var before, end := p.lanes[i].pushed, After(p, fs).lanes[i].pushed;
    assert Staged(p, i) && Ordered(After(p, fs).lanes[i]) && Staged(After(p, fs), i);
    assert end == before + end[|before|..];
    DueOfPrefix(before, end[|before|..]);
  }

  // A job pushed behind the NULL is never run: run_async() must not outlast the pool's life.
  lemma LateJobsAreDropped(n: nat, es: seq<Step>, i: nat)
    requires i < n && IsRun(Start(n), es) && After(Start(n), es).Joined()
    ensures var l := After(Start(n), es).lanes[i];
      l.finished == Jobs(l.pushed) <==> Jobs(Rest(l.pushed)) == []
  {
    JoinedMeansDone(n, es, i);
    JobsSplit(After(Start(n), es).lanes[i].pushed);
  }

  lemma {:induction false} JobsSplit(tokens: seq<Token>)
    ensures Jobs(tokens) == Due(tokens) + Jobs(Rest(tokens))
  {
    if tokens != [] && tokens[0] != Null {
      var tail := tokens[1..];
      JobsSplit(tail);
      assert Due(tokens) == [tokens[0].job] + Due(tail) && Rest(tokens) == Rest(tail);
      hide Due, Rest;
      assert Jobs(tokens) == [tokens[0].job] + (Due(tail) + Jobs(Rest(tail)));
      hide Jobs;
    }
  }

  // A worker can always get on until its queue is empty, so the joins come through: no worker
  // waits with its NULL in the queue.
  lemma WorkersNeverStall(n: nat, es: seq<Step>, i: nat)
    requires i < n && IsRun(Start(n), es) && After(Start(n), es).stage.Joining?
    ensures var p := After(Start(n), es);
      p.lanes[i].worker.Exited? || Enabled(p, PopToken(i)) || Enabled(p, Finish(i))
  {
    RunsAreSound(Start(n), es);
    assert Ordered(After(Start(n), es).lanes[i]) && Staged(After(Start(n), es), i);
  }
}
