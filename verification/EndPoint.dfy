// The endpoints of a tie: the handlers of vncproxy.cc over the queues of marshal.cc, one handler
// at a time.
module EndPoints {
  import opened Common
  import opened Marshalling
  import opened Batches
  import Polling
  import PollThreads

  const READ := Polling.Mode(true, false)
  const READ_WRITE := Polling.Mode(true, true)

  // mode_ of the poll manager; update_mode() ignores who is not registered.
  class PollMgr {
    var mode: map<Fd, Polling.Mode>

    constructor ()
      ensures mode == map[]
    {
      mode := map[];
    }

    method UpdateMode(fd: Fd, newMode: Polling.Mode)
      modifies this
      ensures mode == if fd in old(mode) then old(mode)[fd := newMode] else old(mode)
    {
      if fd in mode { mode := mode[fd := newMode]; }
    }

    // Every endpoint asks for READ and WRITE; the poll manager takes a reference of its own.
    method Add(fd: Fd, refs: PollThreads.RefCounted)
      requires fd !in mode
      modifies this, refs
      ensures mode == old(mode)[fd := READ_WRITE] && refs.refcnt == old(refs.refcnt) + 1
    {
      refs.RefCopy();
      mode := mode[fd := READ_WRITE];
    }

    method Remove(fd: Fd)
      modifies this
      ensures mode == old(mode) - {fd}
    {
      mode := mode - {fd};
    }
  }

  // all_tie_leaders: the leaders by forward key, equal keys in the order of insertion.
  class TieLeaders {
    var entries: seq<(string, EndPoint)>

    constructor ()
      ensures entries == []
    {
      entries := [];
    }

    method Insert(key: string, e: EndPoint)
      modifies this
      ensures entries == old(entries) + [(key, e)]
    {
      entries := entries + [(key, e)];
    }

    // Drops the first entry of e under the key.
    method Erase(key: string, e: EndPoint)
      modifies this
      ensures entries == Without(old(entries), (key, e))
    {
      hide Without;
      var i := 0;
      while i < |entries| && entries[i] != (key, e)
        invariant entries == old(entries)
        invariant 0 <= i <= |entries| && Without(entries, (key, e)) == entries[..i] + Without(entries[i..], (key, e))
      {
        WithoutFrom(entries, i, (key, e));
        i := i + 1;
      }
      if i < |entries| {
        WithoutFrom(entries, i, (key, e));
        entries := entries[..i] + entries[i + 1..];
      } else {
        WithoutNothing(entries[i..], (key, e));
      }
    }
  }

  function Without<T(==)>(s: seq<T>, x: T): seq<T> {
    if s == [] then [] else if s[0] == x then s[1..] else [s[0]] + Without(s[1..], x)
  }

  lemma WithoutNothing<T>(s: seq<T>, x: T)
    requires |s| == 0
    ensures Without(s, x) == []
  {
  }

  lemma WithoutFrom<T>(s: seq<T>, i: nat, x: T)
    requires i < |s|
    ensures Without(s[i..], x) == if s[i] == x then s[i + 1..] else [s[i]] + Without(s[i + 1..], x)
  {
    assert s[i..][1..] == s[i + 1..];
  }

  class EndPoint {
    const poll: PollMgr
    const fd: Fd
    const buf: Marshal
    const refs: PollThreads.RefCounted
    const leaders: TieLeaders
    var forwardKey: string
    var open: bool        // whether fd_ is
    var peer: EndPoint?
    var leader: bool
    var enabled: bool

    constructor (poll: PollMgr, leaders: TieLeaders, fd: Fd)
      ensures this.poll == poll && this.leaders == leaders && this.fd == fd
      ensures peer == null && !leader && !enabled && open
      ensures fresh(buf) && buf.Valid() && buf.Contents() == [] && buf.repr == {}
      ensures fresh(refs) && refs.refcnt == 1
    {
      this.poll, this.leaders, this.fd := poll, leaders, fd;
      buf := new Marshal();
      refs := new PollThreads.RefCounted();
      forwardKey, open, peer, leader, enabled := "", true, null, false, false;
    }

    // Two endpoints facing each other, with nothing in common but the poll manager and the
    // registry.
    ghost predicate Tied(o: EndPoint)
      reads this`peer, o`peer, buf`chunk, buf`repr, buf.repr, o.buf`chunk, o.buf`repr, o.buf.repr
    {
      && peer == o && o.peer == this && poll == o.poll && leaders == o.leaders && refs != o.refs
      && fd != o.fd && buf != o.buf && buf.Valid() && o.buf.Valid()
      && buf.repr !! o.buf.repr
      && {buf, o.buf, fd, o.fd, this, o, poll, leaders, refs, o.refs} !! buf.repr + o.buf.repr
    }

    // What was written to the socket and what is to be written are what came from the other.
    ghost predicate Conserves(o: EndPoint)
      requires buf.Valid()
      reads buf`chunk, buf`repr, buf.repr, fd`sent, o.fd`received
    {
      fd.sent + buf.Contents() == o.fd.received
    }

    method Tie(o: EndPoint, key: string)
      requires o != this && poll == o.poll && leaders == o.leaders && refs != o.refs
      requires fd != o.fd && buf != o.buf && buf.Valid() && o.buf.Valid()
      requires buf.repr == {} == o.buf.repr
      modifies this`peer, this`leader, this`forwardKey, o`peer, leaders
      ensures Tied(o) && leader && forwardKey == key && leaders.entries == old(leaders.entries) + [(key, this)]
    {
      forwardKey := key;
      leader := true;
      peer := o;
      o.peer := this;
      leaders.Insert(key, this);
    }

    method Ready()
      modifies this`enabled
      ensures enabled
    {
      enabled := true;
    }

    method HandleRead(ghost o: EndPoint) returns (cnt: nat)
      requires Tied(o) && o.Conserves(this)
      modifies o.buf`chunk, o.buf`repr, o.buf.repr, fd`incoming, fd`received, fd`readLog, poll
      ensures Tied(o) && o.Conserves(this) && fresh(o.buf.repr - old(o.buf.repr))
      ensures if enabled then fd.RanDry() && (fd.prompt ==> fd.incoming == [])
              else cnt == 0 && fd.readLog == old(fd.readLog)
      ensures cnt <= |old(fd.incoming)| && fd.incoming == old(fd.incoming)[cnt..]
      ensures fd.received == old(fd.received) + old(fd.incoming)[..cnt]
      ensures o.buf.Contents() == old(o.buf.Contents()) + old(fd.incoming)[..cnt]
      ensures poll.mode ==
        if cnt > 0 && o.fd in old(poll.mode) then old(poll.mode)[o.fd := READ_WRITE] else old(poll.mode)
    {
      hide Chain, Parts, Join;
      if !enabled { return 0; }
      cnt := peer.buf.ReadFromFd(fd);
      if cnt > 0 {
        poll.UpdateMode(peer.fd, READ_WRITE);
      }
    }

    method HandleWrite(ghost o: EndPoint) returns (cnt: nat)
      requires Tied(o) && Conserves(o)
      modifies buf`chunk, buf.repr, fd`sent, fd`writeLog, fd`room, poll
      ensures Tied(o) && Conserves(o) && buf.repr == old(buf.repr)
      ensures !enabled ==>
        cnt == 0 && poll.mode == old(poll.mode) && fd.writeLog == old(fd.writeLog) && fd.room == old(fd.room)
      ensures cnt <= |old(buf.Contents())| && buf.Contents() == old(buf.Contents())[cnt..]
      ensures fd.sent == old(fd.sent) + old(buf.Contents())[..cnt]
      ensures enabled ==> poll.mode == if fd !in old(poll.mode) then old(poll.mode) else
        old(poll.mode)[fd := if buf.Contents() == [] then READ else READ_WRITE]
      ensures old(fd.writeLog) <= fd.writeLog && (enabled && buf.Contents() != [] ==> fd.Refused())
      ensures enabled && fd.prompt ==>
        cnt == Min(old(fd.room), |old(buf.Contents())|) && fd.room == old(fd.room) - cnt
    {
      hide Chain, Parts, Join;
      if !enabled { return 0; }
      cnt := buf.WriteToFd(fd);
      var more := buf.ContentSizeGt(0);
      if more {
        poll.UpdateMode(fd, READ_WRITE);
      } else {
        poll.UpdateMode(fd, READ);
      }
    }

    function Follower(): EndPoint
      reads this`leader, this`peer
    {
      if leader && peer != null then peer else this
    }

    // Closes the endpoint, and its peer if it leads: each leaves the poll manager and gives up the
    // reference its creator held.
    method Shutdown()
      requires leader ==>
        peer != null && !peer.leader && peer.refs != refs && peer.poll == poll && peer.leaders == leaders
      modifies this`open, refs, poll, leaders
      modifies Follower()`open, Follower().refs
      ensures !open && !Follower().open && poll.mode == old(poll.mode) - {fd, Follower().fd}
      ensures refs.refcnt == old(refs.refcnt) - 1 && Follower().refs.refcnt == old(Follower().refs.refcnt) - 1
      ensures leaders.entries ==
        if leader then Without(old(leaders.entries), (forwardKey, this)) else old(leaders.entries)
      decreases leader
    {
      open := false;
      poll.Remove(fd);
      if leader {
        peer.Shutdown();
        leaders.Erase(forwardKey, this);
      }
      var ok, deleted := refs.Release();
    }

    // An error on either endpoint shuts the whole tie down.
    method HandleError()
      requires peer != null && peer.peer == this && leader == !peer.leader
      requires peer.refs != refs && peer.poll == poll && peer.leaders == leaders
      modifies this`open, refs, poll, leaders, peer`open, peer.refs
      ensures !enabled ==> unchanged(this) && unchanged(refs) && unchanged(poll) && unchanged(leaders)
      ensures !enabled ==> peer.open == old(peer.open) && peer.refs.refcnt == old(peer.refs.refcnt)
      ensures enabled ==> !open && !peer.open && poll.mode == old(poll.mode) - {fd, peer.fd}
      ensures enabled ==> refs.refcnt == old(refs.refcnt) - 1 && peer.refs.refcnt == old(peer.refs.refcnt) - 1
      ensures var first: EndPoint := if leader then this else peer;
        enabled ==> leaders.entries == Without(old(leaders.entries), (first.forwardKey, first))
    {
      if !enabled { return; }
      if leader {
        Shutdown();
      } else {
        peer.Shutdown();
      }
    }
  }

  // Ties two sockets that were not used for forwarding before.
  method TieFd(key: string, poll: PollMgr, leaders: TieLeaders, fd1: Fd, fd2: Fd)
    returns (a: EndPoint, b: EndPoint)
    requires fd1 != fd2 && fd1 !in poll.mode && fd2 !in poll.mode
    requires fd1.sent == fd2.sent == fd1.received == fd2.received == []
    modifies poll, leaders
    ensures fresh(a) && fresh(b) && a.fd == fd1 && b.fd == fd2 && a.enabled && b.enabled && a.leader && !b.leader
    ensures a.Tied(b) && a.Conserves(b) && b.Conserves(a) && a.poll == poll
    ensures poll.mode == old(poll.mode)[fd1 := READ_WRITE][fd2 := READ_WRITE]
    ensures leaders.entries == old(leaders.entries) + [(key, a)] && a.forwardKey == key && a.leaders == leaders
    ensures a.open && b.open && a.refs.refcnt == 2 == b.refs.refcnt
    ensures a.buf.Contents() == [] == b.buf.Contents()
  {
    hide Chain, Parts, Join, Linked;
    a := new EndPoint(poll, leaders, fd1);
    b := new EndPoint(poll, leaders, fd2);
    a.Tie(b, key);
    poll.Add(fd1, a.refs);
    poll.Add(fd2, b.refs);
    a.Ready();
    b.Ready();
  }

  // Tied, with both streams whole.
  ghost predicate Whole(a: EndPoint, b: EndPoint)
    reads a`peer, b`peer, a`leader, b`leader, a.fd`sent, a.fd`received, b.fd`sent, b.fd`received
    reads a.buf`chunk, a.buf`repr, a.buf.repr, b.buf`chunk, b.buf`repr, b.buf.repr
  {
    a.Tied(b) && a.Conserves(b) && b.Conserves(a) && a.leader != b.leader
  }

  ghost function Seen(e: EndPoint): Half
    requires e.buf.Valid()
    reads e`enabled, e`open, e.fd, e.buf`chunk, e.buf`repr, e.buf.repr, e.poll, e.refs
  {
    Half(e.enabled, e.open, e.fd.prompt, e.fd.room, e.fd.incoming, e.fd.received, e.fd.sent, e.buf.Contents(),
         e.fd.readLog, e.fd.writeLog, if e.fd in e.poll.mode then Some(e.poll.mode[e.fd].write) else None,
         e.refs.refcnt)
  }

  // The two ends in their order; a is the one an event is for.
  ghost function Facing(first: bool, a: EndPoint, b: EndPoint): Pair
    requires Whole(a, b)
    reads a, a.fd, a.buf`chunk, a.buf`repr, a.buf.repr, a.poll, a.refs
    reads b, b.fd, b.buf`chunk, b.buf`repr, b.buf.repr, b.poll, b.refs
  {
    if first then Pair(Seen(a), Seen(b)) else Pair(Seen(b), Seen(a))
  }

  // handle_read(), in terms of what it does to the two ends;
  method ReadSeen(a: EndPoint, b: EndPoint, ghost first: bool)
    requires Whole(a, b)
    modifies b.buf`chunk, b.buf`repr, b.buf.repr, a.fd`incoming, a.fd`received, a.fd`readLog, a.poll
    ensures Whole(a, b) && fresh(b.buf.repr - old(b.buf.repr))
    ensures Follows(Input(first), old(Facing(first, a, b)), Facing(first, a, b))
    ensures a.poll.mode - {a.fd, b.fd} == old(a.poll.mode) - {a.fd, b.fd}
  {
    hide Chain, Parts, Join;
    var cnt := a.HandleRead(b);
    assert Does(Input(first), old(Seen(a)), old(Seen(b)), Seen(a), Seen(b));
    hide Seen, Does;
  }

  // handle_write()
  method WriteSeen(a: EndPoint, b: EndPoint, ghost first: bool)
    requires Whole(a, b)
    modifies a.buf`chunk, a.buf.repr, a.fd`sent, a.fd`writeLog, a.fd`room, a.poll
    ensures Whole(a, b) && a.buf.repr == old(a.buf.repr)
    ensures Follows(Output(first), old(Facing(first, a, b)), Facing(first, a, b))
    ensures a.poll.mode - {a.fd, b.fd} == old(a.poll.mode) - {a.fd, b.fd}
  {
    hide Chain, Parts, Join;
    var cnt := a.HandleWrite(b);
    assert Does(Output(first), old(Seen(a)), old(Seen(b)), Seen(a), Seen(b));
    hide Seen, Does;
  }

  // and handle_error().
  method ErrorSeen(a: EndPoint, b: EndPoint, ghost first: bool)
    requires Whole(a, b)
    modifies a`open, a.refs, a.poll, a.leaders, b`open, b.refs
    ensures Whole(a, b)
    ensures Follows(Error(first), old(Facing(first, a, b)), Facing(first, a, b))
    ensures a.poll.mode - {a.fd, b.fd} == old(a.poll.mode) - {a.fd, b.fd}
  {
    hide Chain, Parts, Join, Without;
    a.HandleError();
    assert Does(Error(first), old(Seen(a)), old(Seen(b)), Seen(a), Seen(b));
    hide Seen, Does;
  }

  // The handlers for one event, in the order poll_loop() calls them.
  method Handle(a: EndPoint, b: EndPoint, e: Event) returns (ghost trail: seq<Pair>)
    requires Whole(a, b)
    modifies a.buf`chunk, a.buf.repr, a.fd, b.buf`chunk, b.buf`repr, b.buf.repr, a.poll
    modifies a`open, a.refs, b`open, b.refs, a.leaders
    ensures Whole(a, b) && a.buf.repr == old(a.buf.repr) && fresh(b.buf.repr - old(b.buf.repr))
    ensures IsTrail(CallsOf(e), trail)
    ensures trail[0] == old(Facing(e.first, a, b)) && trail[|CallsOf(e)|] == Facing(e.first, a, b)
    ensures a.poll.mode - {a.fd, b.fd} == old(a.poll.mode) - {a.fd, b.fd}
  {
    hide Chain, Parts, Join, Facing, Follows, IsTrail, CallsOf;
    NoCalls(Facing(e.first, a, b));
    trail := [Facing(e.first, a, b)];
    ghost var calls: seq<Call> := [];
    if e.input {
      ReadSeen(a, b, e.first);
      OneCall(calls, trail, Input(e.first), Facing(e.first, a, b));
      calls, trail := calls + [Input(e.first)], trail + [Facing(e.first, a, b)];
    }
    if e.output {
      WriteSeen(a, b, e.first);
      OneCall(calls, trail, Output(e.first), Facing(e.first, a, b));
      calls, trail := calls + [Output(e.first)], trail + [Facing(e.first, a, b)];
    }
    if e.error {
      ErrorSeen(a, b, e.first);
      OneCall(calls, trail, Error(e.first), Facing(e.first, a, b));
      calls, trail := calls + [Error(e.first)], trail + [Facing(e.first, a, b)];
    }
    assert calls == CallsOf(e) by { AsCalls(e); }
  }

  // One more event, whichever end it is for.
  method HandleEither(a: EndPoint, b: EndPoint, e: Event) returns (ghost trail: seq<Pair>)
    requires Whole(a, b)
    modifies a.buf`chunk, a.buf`repr, a.buf.repr, a.fd, b.buf`chunk, b.buf`repr, b.buf.repr, b.fd, a.poll
    modifies a`open, a.refs, b`open, b.refs, a.leaders
    ensures Whole(a, b)
    ensures fresh(a.buf.repr - old(a.buf.repr)) && fresh(b.buf.repr - old(b.buf.repr))
    ensures IsTrail(CallsOf(e), trail)
    ensures trail[0] == old(Facing(true, a, b)) && trail[|CallsOf(e)|] == Facing(true, a, b)
    ensures a.poll.mode - {a.fd, b.fd} == old(a.poll.mode) - {a.fd, b.fd}
  {
    hide Chain, Parts, Join, Seen, Follows;
    if e.first {
      trail := Handle(a, b, e);
    } else {
      trail := Handle(b, a, e);
      assert {b.fd, a.fd} == {a.fd, b.fd};
    }
  }

  // poll_loop()'s dispatch of a batch, as the trail of the handlers' calls and what follows from
  // that: the streams stay whole whatever the events, and both ends are handled as asked. Each
  // error event shuts the tie down again: of the two references an end has once it is registered,
  // a second one takes the poll thread's.
  method Dispatch(a: EndPoint, b: EndPoint, events: seq<Event>) returns (ghost trail: seq<Pair>)
    requires Whole(a, b)
    modifies a.buf`chunk, a.buf`repr, a.buf.repr, a.fd, b.buf`chunk, b.buf`repr, b.buf.repr, b.fd, a.poll
    modifies a`open, a.refs, b`open, b.refs, a.leaders
    ensures Whole(a, b) && IsTrail(Calls(events), trail)
    ensures trail[0] == old(Facing(true, a, b)) && trail[|Calls(events)|] == Facing(true, a, b)
    ensures a.poll.mode - {a.fd, b.fd} == old(a.poll.mode) - {a.fd, b.fd}
    ensures a.fd.sent <= b.fd.received && b.fd.sent <= a.fd.received
    ensures var was, now := trail[0], trail[|Calls(events)|]; var given := Errors(events, was.a.enabled, was.b.enabled);
      Handled(events, true, was.a, now.a, given) && Handled(events, false, was.b, now.b, given)
  {
    trail := [Facing(true, a, b)];
    hide Whole, Facing, Follows, CallsOf, Handled, Errors;
    for i := 0 to |events|
      invariant Whole(a, b)
      invariant fresh(a.buf.repr - old(a.buf.repr)) && fresh(b.buf.repr - old(b.buf.repr))
      invariant IsTrail(Calls(events[..i]), trail)
      invariant trail[0] == old(Facing(true, a, b)) && trail[|Calls(events[..i])|] == Facing(true, a, b)
      invariant a.poll.mode - {a.fd, b.fd} == old(a.poll.mode) - {a.fd, b.fd}
    {
      ghost var more := HandleEither(a, b, events[i]);
      assert events[..i + 1][..i] == events[..i];
      TrailsCompose(Calls(events[..i]), trail, CallsOf(events[i]), more);
      trail := trail + more[1..];
    }
    assert events[..|events|] == events;
    TrailHandles(events, trail, true);
    TrailHandles(events, trail, false);
    WholeMeansPrefix(a, b);
  }

  lemma WholeMeansPrefix(a: EndPoint, b: EndPoint)
    requires Whole(a, b)
    ensures a.fd.sent <= b.fd.received && b.fd.sent <= a.fd.received
  {
  }
}
