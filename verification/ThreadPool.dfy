// The worker pool of utils.h and utils.cc: its queues, and the interleavings of callers, workers
// and the destructor.
module ThreadPools {

  type Job = nat

  // What goes through a queue: jobs, and the NULL that ends a worker.
  datatype Token = Run(job: Job) | Null

  class Queue<T> {
    var q: seq<T>

    constructor ()
      ensures q == []
    {
      q := [];
    }

    method Push(e: T)
      modifies this
      ensures q == old(q) + [e]
    {
      q := q + [e];
    }

    // Once not_empty_ lets it through.
    method Pop() returns (e: T)
      requires q != []
      modifies this
      ensures old(q) == [e] + q
    {
      e := q[0];
      q := q[1..];
    }
  }

  // The jobs ahead of the first NULL.
  function Due(tokens: seq<Token>): seq<Job> {
    if tokens == [] || tokens[0] == Null then [] else [tokens[0].job] + Due(tokens[1..])
  }

  // And all that is behind it.
  function Rest(tokens: seq<Token>): seq<Token> {
    if tokens == [] then [] else if tokens[0] == Null then tokens[1..] else Rest(tokens[1..])
  }

  lemma DueOfFirst(tokens: seq<Token>)
    requires tokens != []
    ensures tokens[0] == Null ==> Due(tokens) == [] && Rest(tokens) == tokens[1..]
    ensures tokens[0] != Null ==>
      Due(tokens) == [tokens[0].job] + Due(tokens[1..]) && Rest(tokens) == Rest(tokens[1..])
  {
  }

  lemma {:induction false} DueOfPush(tokens: seq<Token>, t: Token)
    ensures Due(tokens + [t]) == if Null in tokens || t == Null then Due(tokens) else Due(tokens) + [t.job]
  {
    if tokens != [] {
      assert (tokens + [t])[1..] == tokens[1..] + [t];
      DueOfPush(tokens[1..], t);
    }
  }

  class ThreadPool {
    const q: seq<Queue<Token>>
    // The jobs each worker has run and deleted.
    var done: seq<seq<Job>>

    ghost predicate Valid()
      reads this, q
    {
      |done| == |q| && forall i, j :: 0 <= i < j < |q| ==> q[i] != q[j]
    }

    constructor (n: nat)
      ensures Valid() && |q| == n && forall i :: 0 <= i < n ==> fresh(q[i]) && q[i].q == [] && done[i] == []
    {
      var queues: seq<Queue<Token>> := [];
      while |queues| < n
        invariant |queues| <= n
        invariant forall i :: 0 <= i < |queues| ==> fresh(queues[i]) && queues[i].q == []
        invariant forall i, j :: 0 <= i < j < |queues| ==> queues[i] != queues[j]
      {
        var next := new Queue<Token>();
        queues := queues + [next];
      }
      q := queues;
      done := seq(n, i => []);
    }

    // random is what rand() returned.
    method RunAsync(r: Job, random: nat)
      requires Valid() && |q| > 0
      modifies q[random % |q|]
      ensures q[random % |q|].q == old(q[random % |q|].q) + [Run(r)]
    {
      q[random % |q|].Push(Run(r));
    }

    // A worker left alone with a queue that holds its NULL.
    method RunThread(tid: nat)
      requires Valid() && tid < |q| && Null in q[tid].q
      modifies this`done, q[tid]
      ensures Valid() && done == old(done)[tid := old(done)[tid] + Due(old(q[tid].q))]
      ensures q[tid].q == Rest(old(q[tid].q))
    {
      hide Due, Rest;
      ghost var all, ran: seq<Job> := q[tid].q, [];
      while true
        invariant Valid() && Null in q[tid].q
        invariant Due(all) == ran + Due(q[tid].q) && Rest(all) == Rest(q[tid].q)
        invariant done[tid] == old(done)[tid] + ran && forall i :: 0 <= i < |q| && i != tid ==> done[i] == old(done)[i]
        decreases |q[tid].q|
      {
        DueOfFirst(q[tid].q);
        ghost var tokens := q[tid].q;
        var j := q[tid].Pop();
        assert tokens[0] == j && tokens[1..] == q[tid].q;
        if j == Null {
          assert ran + [] == ran;
          return;
        }
        // The job runs and is deleted.
        done := done[tid := done[tid] + [j.job]];
        ran := ran + [j.job];
      }
    }

    // The destructor, with each worker running when it is joined.
    method Destroy()
      requires Valid()
      modifies this`done, q
      ensures Valid() && forall i :: 0 <= i < |q| ==> done[i] == old(done)[i] + Due(old(q[i].q))
    {
      hide Due;
      for i := 0 to |q|
        invariant Valid() && done == old(done)
        invariant forall k :: 0 <= k < |q| ==> q[k].q == if k < i then old(q[k].q) + [Null] else old(q[k].q)
      {
        q[i].Push(Null);
      }
      for i := 0 to |q|
        invariant Valid()
        invariant forall k :: i <= k < |q| ==> q[k].q == old(q[k].q) + [Null]
        invariant forall k :: 0 <= k < |q| ==>
          done[k] == if k < i then old(done)[k] + Due(old(q[k].q)) else old(done)[k]
      {
        DueOfPush(old(q[i].q), Null);
        RunThread(i);
      }
    }
  }
}
