// EndPoint::cleanup(): the ties whose forward key is not valid any more are shut down.
module TieCleanup {
  import opened EndPoints

  // The entries under valid keys, and the others.

  function Kept(s: seq<(string, EndPoint)>, valid: set<string>): seq<(string, EndPoint)> {
    if s == [] then [] else (if s[0].0 in valid then [s[0]] else []) + Kept(s[1..], valid)
  }

  function Outliers(s: seq<(string, EndPoint)>, valid: set<string>): seq<(string, EndPoint)> {
    if s == [] then [] else (if s[0].0 in valid then [] else [s[0]]) + Outliers(s[1..], valid)
  }

  lemma {:induction false} OutliersAreEntries(s: seq<(string, EndPoint)>, valid: set<string>)
    ensures forall x :: x in Outliers(s, valid) <==> x in s && x.0 !in valid
    ensures Outliers(s, valid) == [] ==> Kept(s, valid) == s
  {
    if s != [] {
      OutliersAreEntries(s[1..], valid);
      assert s == [s[0]] + s[1..];
    }
  }

  lemma {:induction false} WithoutFirstOutlier(s: seq<(string, EndPoint)>, valid: set<string>)
    requires Outliers(s, valid) != []
    ensures var rest := Without(s, Outliers(s, valid)[0]);
      Kept(rest, valid) == Kept(s, valid) && Outliers(rest, valid) == Outliers(s, valid)[1..]
  {
    if s[0].0 in valid {
      WithoutFirstOutlier(s[1..], valid);
      var rest := Without(s[1..], Outliers(s[1..], valid)[0]);
      OutliersAreEntries(s, valid);
      assert ([s[0]] + rest)[1..] == rest;
    }
  }

  function Mate(e: EndPoint): EndPoint
    reads e`peer
  {
    if e.peer != null then e.peer else e
  }

  // A registered leader with its follower, all within what may be shut down.
  ghost predicate Leads(x: (string, EndPoint), leaders: TieLeaders, poll: PollMgr, ends: set<object>)
    reads x.1`leader, x.1`peer, x.1`forwardKey, Mate(x.1)`leader
  {
    var e := x.1;
    e.leader && e.forwardKey == x.0 && e.leaders == leaders && e.poll == poll && e.peer != null &&
    {e, e.refs, e.peer, e.peer.refs} <= ends &&
    !e.peer.leader && e.peer.refs != e.refs && e.peer.poll == poll && e.peer.leaders == leaders
  }

  // Two ties with nothing in common but the poll manager and the registry.
  predicate Separate(x: (string, EndPoint), y: (string, EndPoint))
    reads x.1`peer, y.1`peer
  {
    {x.1, Mate(x.1)} !! {y.1, Mate(y.1)} && {x.1.refs, Mate(x.1).refs} !! {y.1.refs, Mate(y.1).refs} &&
    {x.1.fd, Mate(x.1).fd} !! {y.1.fd, Mate(y.1).fd}
  }

  predicate Distinct<T(==)>(s: seq<T>) {
    forall i, j :: 0 <= i < j < |s| ==> s[i] != s[j]
  }

  // What cleanup() may change about an endpoint: whether its descriptor is open, whether the poll
  // manager watches it, and its count.
  datatype Standing = Standing(open: bool, watched: bool, count: int)

  function StandingOf(e: EndPoint): Standing
    reads e`open, e.refs, e.poll
  {
    Standing(e.open, e.fd in e.poll.mode, e.refs.refcnt)
  }

  function TieStanding(x: (string, EndPoint)): (Standing, Standing)
    reads x.1`peer, x.1`open, x.1.refs, x.1.poll, Mate(x.1)`open, Mate(x.1).refs, Mate(x.1).poll
  {
    (StandingOf(x.1), StandingOf(Mate(x.1)))
  }

  function ShutDown(s: (Standing, Standing)): (Standing, Standing) {
    (Standing(false, false, s.0.count - 1), Standing(false, false, s.1.count - 1))
  }

  method ShutOne(x: (string, EndPoint), ghost all: seq<(string, EndPoint)>,
                 leaders: TieLeaders, poll: PollMgr, ghost ends: set<object>)
    requires x in all
    requires forall y :: y in all ==> Leads(y, leaders, poll, ends)
    requires forall y, z :: y in all && z in all && y != z ==> Separate(y, z)
    modifies leaders, poll, ends
    ensures leaders.entries == Without(old(leaders.entries), x)
    ensures forall y :: y in all ==> Leads(y, leaders, poll, ends)
    ensures forall y, z :: y in all && z in all && y != z ==> Separate(y, z)
    ensures TieStanding(x) == ShutDown(old(TieStanding(x)))
    ensures forall y :: y in all && y != x ==> TieStanding(y) == old(TieStanding(y))
  {
    hide Without;
    x.1.Shutdown();
    forall y | y in all && y != x ensures TieStanding(y) == old(TieStanding(y)) {
      assert Separate(x, y);
    }
  }

  lemma {:induction false} OutliersDistinct(s: seq<(string, EndPoint)>, valid: set<string>)
    requires Distinct(s)
    ensures Distinct(Outliers(s, valid))
  {
    if s != [] {
      OutliersDistinct(s[1..], valid);
      OutliersAreEntries(s[1..], valid);
    }
  }

  method ShutAll(outlier: seq<(string, EndPoint)>, ghost all: seq<(string, EndPoint)>, ghost valid: set<string>,
                 leaders: TieLeaders, poll: PollMgr, ghost ends: set<object>)
    requires outlier == Outliers(leaders.entries, valid) && Distinct(outlier)
    requires forall k :: 0 <= k < |outlier| ==> outlier[k] in all
    requires forall y :: y in all ==> Leads(y, leaders, poll, ends)
    requires forall y, z :: y in all && z in all && y != z ==> Separate(y, z)
    modifies leaders, poll, ends
    ensures Outliers(leaders.entries, valid) == [] && Kept(leaders.entries, valid) == Kept(old(leaders.entries), valid)
    ensures forall k :: 0 <= k < |outlier| ==> TieStanding(outlier[k]) == ShutDown(old(TieStanding(outlier[k])))
    ensures forall y :: y in all && y !in outlier ==> TieStanding(y) == old(TieStanding(y))
  {
    hide Outliers, Kept, Without, Leads, Separate, TieStanding, ShutDown;
    for i := 0 to |outlier|
      invariant Outliers(leaders.entries, valid) == outlier[i..]
      invariant Kept(leaders.entries, valid) == Kept(old(leaders.entries), valid)
      invariant forall y :: y in all ==> Leads(y, leaders, poll, ends)
      invariant forall y, z :: y in all && z in all && y != z ==> Separate(y, z)
      invariant forall k :: 0 <= k < i ==> TieStanding(outlier[k]) == ShutDown(old(TieStanding(outlier[k])))
      invariant forall y :: y in all && y !in outlier[..i] ==> TieStanding(y) == old(TieStanding(y))
    {
      assert outlier[i..][0] == outlier[i] && outlier[i..][1..] == outlier[i + 1..];
      assert outlier[i] !in outlier[..i];
      WithoutFirstOutlier(leaders.entries, valid);
      ShutOne(outlier[i], all, leaders, poll, ends);
      assert outlier[..i + 1] == outlier[..i] + [outlier[i]];
    }
    assert outlier[..|outlier|] == outlier;
  }

  // The registry is left with the valid ties, in their order. Both ends of every other tie are
  // closed, off the poll manager and one reference poorer; the valid ties are as they were.
  method Cleanup(leaders: TieLeaders, valid: set<string>, poll: PollMgr, ghost ends: set<object>)
    requires forall x :: x in leaders.entries ==> Leads(x, leaders, poll, ends)
    requires Distinct(leaders.entries)
    requires forall x, y :: x in leaders.entries && y in leaders.entries && x != y ==> Separate(x, y)
    modifies leaders, poll, ends
    ensures leaders.entries == Kept(old(leaders.entries), valid)
    ensures forall x :: x in old(leaders.entries) ==>
      TieStanding(x) == if x.0 in valid then old(TieStanding(x)) else ShutDown(old(TieStanding(x)))
  {
    hide Kept, Without, ShutDown;
    ghost var entries := leaders.entries;
    var outlier := CollectOutliers(leaders, valid);
    OutliersAreEntries(entries, valid);
    OutliersDistinct(entries, valid);
    forall k | 0 <= k < |outlier| ensures outlier[k] in entries {
      assert outlier[k] in Outliers(entries, valid);
    }
    ShutAll(outlier, entries, valid, leaders, poll, ends);
    OutliersAreEntries(leaders.entries, valid);
  }

  method CollectOutliers(leaders: TieLeaders, valid: set<string>) returns (outlier: seq<(string, EndPoint)>)
    ensures outlier == Outliers(leaders.entries, valid)
  {
    outlier := [];
    for i := 0 to |leaders.entries|
      invariant outlier + Outliers(leaders.entries[i..], valid) == Outliers(leaders.entries, valid)
    {
      assert leaders.entries[i..][1..] == leaders.entries[i + 1..];
      if leaders.entries[i].0 !in valid {
        outlier := outlier + [leaders.entries[i]];
      }
    }
  }
}
