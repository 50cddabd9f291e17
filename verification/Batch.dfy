// What poll_loop() does with a batch, on values: the handlers called, in order, and what each call
// does to the two endpoints of a tie.
module Batches {
  import opened Bits
  import opened Common

  // What epoll_wait reports for one of two tied endpoints.
  datatype Event = Event(first: bool, input: bool, output: bool, error: bool)

  datatype Call = Input(first: bool) | Output(first: bool) | Error(first: bool)

  // Input, then output, and errors last, so that something can be processed before.
  function CallsOf(e: Event): seq<Call> {
    (if e.input then [Input(e.first)] else []) + (if e.output then [Output(e.first)] else []) +
    if e.error then [Error(e.first)] else []
  }

  function Calls(events: seq<Event>): seq<Call> {
    if events == [] then [] else Calls(events[..|events| - 1]) + CallsOf(events[|events| - 1])
  }

  // An endpoint with its socket: the flags of the one, the streams and calls of the other, the
  // queue between them, WRITE in the mode if it is registered, and the references.
  datatype Half = Half(enabled: bool, open: bool, prompt: bool, room: nat,
                       incoming: seq<byte>, received: seq<byte>, sent: seq<byte>, buf: seq<byte>,
                       readLog: seq<nat>, writeLog: seq<nat>, mode: Option<bool>, refs: int)

  datatype Pair = Pair(a: Half, b: Half) {
    function At(first: bool): Half { if first then a else b }
  }

  // A log with more calls in it, the last of which moved nothing.
  predicate Ends(before: seq<nat>, after: seq<nat>) {
    before < after && after[|after| - 1] == 0
  }

  predicate Reads(n: Half, f: Half, n': Half, f': Half) {
    var cnt := |n.incoming| - |n'.incoming|;
    && 0 <= cnt && Ends(n.readLog, n'.readLog) && (n.prompt ==> n'.incoming == [])
    && n' == n.(incoming := n.incoming[cnt..], received := n.received + n.incoming[..cnt], readLog := n'.readLog)
    && f' == f.(buf := f.buf + n.incoming[..cnt], mode := if cnt > 0 && f.mode.Some? then Some(true) else f.mode)
  }

  predicate Writes(n: Half, n': Half) {
    var cnt := |n.buf| - |n'.buf|;
    && 0 <= cnt && n.writeLog <= n'.writeLog && (n'.buf != [] ==> Ends(n.writeLog, n'.writeLog))
    && (n.prompt ==> cnt == (if n.room < |n.buf| then n.room else |n.buf|) && n'.room == n.room - cnt)
    && n' == n.(sent := n.sent + n.buf[..cnt], buf := n.buf[cnt..], writeLog := n'.writeLog, room := n'.room,
                mode := if n.mode.Some? then Some(n'.buf != []) else None)
  }

  function Closed(h: Half): Half {
    h.(open := false, mode := None, refs := h.refs - 1)
  }

  // What a handler does to its endpoint and to the peer; nothing before ready().
  predicate Does(c: Call, n: Half, f: Half, n': Half, f': Half) {
    if !n.enabled then n' == n && f' == f
    else match c
      case Input(_) => Reads(n, f, n', f')
      case Output(_) => Writes(n, n') && f' == f
      case Error(_) => n' == Closed(n) && f' == Closed(f)
  }

  predicate Follows(c: Call, p: Pair, p': Pair) {
    Does(c, p.At(c.first), p.At(!c.first), p'.At(c.first), p'.At(!c.first))
  }

  // The states a sequence of calls passes through.
  predicate IsTrail(calls: seq<Call>, trail: seq<Pair>) {
    |trail| == |calls| + 1 && forall i :: 0 <= i < |calls| ==> Follows(calls[i], trail[i], trail[i + 1])
  }

  lemma NoCalls(p: Pair)
    ensures IsTrail([], [p])
  {
  }

  lemma OneCall(calls: seq<Call>, trail: seq<Pair>, c: Call, p: Pair)
    requires IsTrail(calls, trail) && Follows(c, trail[|calls|], p)
    ensures IsTrail(calls + [c], trail + [p])
    ensures (trail + [p])[0] == trail[0] && (trail + [p])[|calls + [c]|] == p
  {
    hide Follows;
  }

  lemma AsCalls(e: Event)
    ensures var none: seq<Call> := []; var i := if e.input then none + [Input(e.first)] else none;
      var o := if e.output then i + [Output(e.first)] else i;
      CallsOf(e) == if e.error then o + [Error(e.first)] else o
  {
  }

  lemma TrailsCompose(cs: seq<Call>, t: seq<Pair>, ds: seq<Call>, u: seq<Pair>)
    requires IsTrail(cs, t) && IsTrail(ds, u) && t[|cs|] == u[0]
    ensures IsTrail(cs + ds, t + u[1..])
    ensures (t + u[1..])[0] == t[0] && (t + u[1..])[|cs| + |ds|] == u[|ds|]
  {
    hide Follows;
    var v := t + u[1..];
    forall i | 0 <= i < |cs + ds| ensures Follows((cs + ds)[i], v[i], v[i + 1]) {
      if i >= |cs| {
        assert v[i] == u[i - |cs|] && v[i + 1] == u[i - |cs| + 1];
      }
    }
  }

  // What is called for some event of the batch.
  predicate Asked(events: seq<Event>, c: Call) {
    exists k :: 0 <= k < |events| && c in CallsOf(events[k])
  }

  lemma AskedMore(events: seq<Event>, c: Call)
    requires events != []
    ensures Asked(events, c) <==> Asked(events[..|events| - 1], c) || c in CallsOf(events[|events| - 1])
  {
    hide CallsOf;
    var rest := events[..|events| - 1];
    if Asked(rest, c) {
      var k :| 0 <= k < |rest| && c in CallsOf(rest[k]);
      assert c in CallsOf(events[k]);
    }
    if Asked(events, c) {
      var k :| 0 <= k < |events| && c in CallsOf(events[k]);
      assert k < |rest| ==> rest[k] == events[k];
    }
  }

  lemma {:induction false} CallsAre(events: seq<Event>, c: Call)
    ensures c in Calls(events) <==> Asked(events, c)
  {
    if events != [] {
      AskedMore(events, c);
      hide Asked, CallsOf;
      CallsAre(events[..|events| - 1], c);
    }
  }

  // Streams and logs only grow, and the flag stays.
  predicate Later(h: Half, h': Half) {
    && h'.enabled == h.enabled && h'.prompt == h.prompt && h.sent <= h'.sent && h.received <= h'.received
    && h.readLog <= h'.readLog && h.writeLog <= h'.writeLog && h.sent + h.buf <= h'.sent + h'.buf
  }

  lemma CallLater(c: Call, p: Pair, p': Pair, first: bool)
    requires Follows(c, p, p')
    ensures Later(p.At(first), p'.At(first))
  {
    var h, h' := p.At(first), p'.At(first);
    if c == Output(first) && h.enabled {
      var cnt := |h.buf| - |h'.buf|;
      assert h.sent + h.buf == (h.sent + h.buf[..cnt]) + h.buf[cnt..];
    }
  }

  lemma {:induction false} TrailLater(calls: seq<Call>, trail: seq<Pair>, i: nat, j: nat, first: bool)
    requires IsTrail(calls, trail) && i <= j <= |calls|
    ensures Later(trail[i].At(first), trail[j].At(first))
    decreases j - i
  {
    hide Follows;
    if i < j {
      TrailLater(calls, trail, i, j - 1, first);
      CallLater(calls[j - 1], trail[j - 1], trail[j], first);
    }
  }

  // A socket with an input event is read until it is dry: the last read of the batch found nothing.
  lemma {:induction false} InputRunsDry(calls: seq<Call>, trail: seq<Pair>, n: nat, first: bool)
    requires IsTrail(calls, trail) && n <= |calls| && trail[0].At(first).enabled
    ensures var h, h' := trail[0].At(first), trail[n].At(first);
      if Input(first) in calls[..n] then Ends(h.readLog, h'.readLog) && (h.prompt ==> h'.incoming == [])
      else h'.readLog == h.readLog && h'.incoming == h.incoming
    decreases n
  {
    hide Follows;
    if n > 0 {
      InputRunsDry(calls, trail, n - 1, first);
      TrailLater(calls, trail, 0, n - 1, first);
      assert calls[..n] == calls[..n - 1] + [calls[n - 1]];
      InputDries(calls[n - 1], trail[n - 1], trail[n], first);
    }
  }

  lemma InputDries(c: Call, p: Pair, p': Pair, first: bool)
    requires Follows(c, p, p') && p.At(first).enabled
    ensures var h, h' := p.At(first), p'.At(first);
      if c == Input(first) then Ends(h.readLog, h'.readLog) && (h.prompt ==> h'.incoming == [])
      else h'.readLog == h.readLog && h'.incoming == h.incoming
  {
  }

  // A call in log[n..] moved nothing.
  predicate RefusedSince(log: seq<nat>, n: nat) {
    exists k :: n <= k < |log| && log[k] == 0
  }

  // An output event sends all the queue holds when it is handled, unless a write is refused for it.
  lemma OutputSends(calls: seq<Call>, trail: seq<Pair>, k: nat)
    requires IsTrail(calls, trail) && k < |calls| && calls[k].Output?
    requires trail[k].At(calls[k].first).enabled
    ensures var h, h' := trail[k].At(calls[k].first), trail[k + 1].At(calls[k].first);
      && h.sent + h.buf == h'.sent + h'.buf
      && (h.sent + h.buf <= h'.sent || RefusedSince(h'.writeLog, |h.writeLog|))
  {
    var h, h' := trail[k].At(calls[k].first), trail[k + 1].At(calls[k].first);
    assert Follows(calls[k], trail[k], trail[k + 1]);
    var cnt := |h.buf| - |h'.buf|;
    assert h.buf == h.buf[..cnt] + h.buf[cnt..];
    if h'.buf == [] {
      assert h'.sent == h.sent + h.buf;
    } else {
      assert h'.writeLog[|h'.writeLog| - 1] == 0;
    }
  }

  // In the end too: what the queue held at any output event of the batch has been sent, or a write
  // was refused since.
  lemma OutputStands(calls: seq<Call>, trail: seq<Pair>, k: nat)
    requires IsTrail(calls, trail) && k < |calls| && calls[k].Output?
    requires trail[k].At(calls[k].first).enabled
    ensures var h, end := trail[k].At(calls[k].first), trail[|calls|].At(calls[k].first);
      && (h.sent + h.buf <= end.sent || RefusedSince(end.writeLog, |h.writeLog|))
      && (trail[0].At(calls[k].first).sent + trail[0].At(calls[k].first).buf <= end.sent ||
          RefusedSince(end.writeLog, |trail[0].At(calls[k].first).writeLog|))
  {
    var first := calls[k].first;
    var h, h', end := trail[k].At(first), trail[k + 1].At(first), trail[|calls|].At(first);
    OutputSends(calls, trail, k);
    TrailLater(calls, trail, k + 1, |calls|, first);
    TrailLater(calls, trail, 0, k, first);
    hide Follows;
    if !(h.sent + h.buf <= h'.sent) {
      var i :| |h.writeLog| <= i < |h'.writeLog| && h'.writeLog[i] == 0;
      assert end.writeLog[i] == 0;
    }
  }

  // If the last event of the batch is one of output, this is about that event alone.
  lemma LastOutput(events: seq<Event>, trail: seq<Pair>)
    requires IsTrail(Calls(events), trail) && events != [] && events[|events| - 1].output
    ensures var first := events[|events| - 1].first; var end := trail[|Calls(events)|].At(first);
      trail[0].At(first).enabled ==> end.buf == [] || Ends(trail[0].At(first).writeLog, end.writeLog)
  {
    var calls, e := Calls(events), events[|events| - 1];
    var k := if e.error then |calls| - 2 else |calls| - 1;
    assert calls[k] == Output(e.first) && (e.error ==> calls[k + 1] == Error(e.first));
    TrailLater(calls, trail, 0, k, e.first);
    assert Follows(calls[k], trail[k], trail[k + 1]);
    assert e.error ==> Follows(calls[k + 1], trail[k + 1], trail[k + 2]);
  }

  // An error event for an endpoint that is ready().
  predicate Fatal(e: Event, a: bool, b: bool) {
    e.error && (if e.first then a else b)
  }

  // How many events of the batch are.
  function Errors(events: seq<Event>, a: bool, b: bool): nat {
    if events == [] then 0
    else Errors(events[..|events| - 1], a, b) + Bit(Fatal(events[|events| - 1], a, b))
  }

  // Two of them are.
  predicate FatalTwice(events: seq<Event>, a: bool, b: bool) {
    exists i, j :: 0 <= i < j < |events| && Fatal(events[i], a, b) && Fatal(events[j], a, b)
  }

  lemma {:induction false} NoneFatal(events: seq<Event>, a: bool, b: bool)
    ensures Errors(events, a, b) == 0 <==> forall k :: 0 <= k < |events| ==> !Fatal(events[k], a, b)
  {
    if events != [] {
      var rest := events[..|events| - 1];
      NoneFatal(rest, a, b);
      hide Fatal;
      assert forall k :: 0 <= k < |rest| ==> rest[k] == events[k];
      if Errors(events, a, b) == 0 {
        forall k | 0 <= k < |events| ensures !Fatal(events[k], a, b) {
          if k < |rest| { assert !Fatal(rest[k], a, b); }
        }
      }
    }
  }

  // Exactly then a batch takes more than one reference of each end.
  lemma {:induction false} ErrorsCounted(events: seq<Event>, a: bool, b: bool)
    ensures Errors(events, a, b) > 1 <==> FatalTwice(events, a, b)
  {
    if events != [] {
      var rest := events[..|events| - 1];
      ErrorsCounted(rest, a, b);
      NoneFatal(rest, a, b);
      hide Fatal, Errors;
      assert forall k :: 0 <= k < |rest| ==> rest[k] == events[k];
      TwiceMore(events, a, b);
      OneMore(events, a, b);
    }
  }

  lemma OneMore(events: seq<Event>, a: bool, b: bool)
    requires events != []
    ensures Errors(events, a, b) ==
      Errors(events[..|events| - 1], a, b) + Bit(Fatal(events[|events| - 1], a, b))
  {
  }

  lemma TwiceMore(events: seq<Event>, a: bool, b: bool)
    requires events != []
    ensures var rest := events[..|events| - 1];
      FatalTwice(events, a, b) <==>
        (FatalTwice(rest, a, b) ||
         (Fatal(events[|rest|], a, b) && exists k :: 0 <= k < |rest| && Fatal(rest[k], a, b)))
  {
    hide Fatal;
    var rest := events[..|events| - 1];
    assert forall k :: 0 <= k < |rest| ==> rest[k] == events[k];
    if FatalTwice(events, a, b) {
      var i, j :| 0 <= i < j < |events| && Fatal(events[i], a, b) && Fatal(events[j], a, b);
      assert Fatal(rest[i], a, b);
      if j < |rest| { assert Fatal(rest[j], a, b); }
    }
    if FatalTwice(rest, a, b) {
      var i, j :| 0 <= i < j < |rest| && Fatal(rest[i], a, b) && Fatal(rest[j], a, b);
      assert Fatal(events[i], a, b) && Fatal(events[j], a, b);
    }
    if k :| 0 <= k < |rest| && Fatal(rest[k], a, b) {
      assert Fatal(events[k], a, b);
    }
  }

  // Each of them closes both ends, takes them off the poll manager, and takes one reference of each.
  predicate Shut(h: Half, h': Half, n: nat) {
    && h'.refs == h.refs - n && h'.enabled == h.enabled
    && (if n == 0 then h'.open == h.open else !h'.open && h'.mode == None)
    && (h.mode == None ==> h'.mode == None)
  }

  lemma ShutsMore(h: Half, h': Half, h'': Half, n: nat, m: nat)
    requires Shut(h, h', n) && Shut(h', h'', m)
    ensures Shut(h, h'', n + m)
  {
  }

  lemma CallShuts(c: Call, p: Pair, p': Pair)
    requires Follows(c, p, p')
    ensures var n := Bit(c.Error? && p.At(c.first).enabled); Shut(p.a, p'.a, n) && Shut(p.b, p'.b, n)
  {
  }

  function Closings(calls: seq<Call>, a: bool, b: bool): nat {
    if calls == [] then 0
    else
      var last := calls[|calls| - 1];
      Closings(calls[..|calls| - 1], a, b) + Bit(last.Error? && (if last.first then a else b))
  }

  lemma {:induction false} TrailShuts(calls: seq<Call>, trail: seq<Pair>, k: nat)
    requires IsTrail(calls, trail) && k <= |calls|
    ensures var p, q := trail[0], trail[k]; var n := Closings(calls[..k], p.a.enabled, p.b.enabled);
      Shut(p.a, q.a, n) && Shut(p.b, q.b, n)
    decreases k
  {
    if k > 0 {
      var p, q, c := trail[0], trail[k - 1], calls[k - 1];
      TrailShuts(calls, trail, k - 1);
      assert Follows(c, q, trail[k]);
      CallShuts(c, q, trail[k]);
      assert calls[..k][..k - 1] == calls[..k - 1] && calls[..k][k - 1] == c;
      var n, m := Closings(calls[..k - 1], p.a.enabled, p.b.enabled), Bit(c.Error? && q.At(c.first).enabled);
      ShutsMore(p.a, q.a, trail[k].a, n, m);
      ShutsMore(p.b, q.b, trail[k].b, n, m);
      assert q.a.enabled == p.a.enabled && q.b.enabled == p.b.enabled;
      hide Follows, Shut;
    }
  }

  lemma {:induction false} ClosingsConcat(cs: seq<Call>, ds: seq<Call>, a: bool, b: bool)
    ensures Closings(cs + ds, a, b) == Closings(cs, a, b) + Closings(ds, a, b)
    decreases |ds|
  {
    if ds == [] {
      assert cs + ds == cs;
    } else {
      ClosingsConcat(cs, ds[..|ds| - 1], a, b);
      assert (cs + ds)[..|cs + ds| - 1] == cs + ds[..|ds| - 1];
    }
  }

  lemma {:induction false} ClosingsAreErrors(events: seq<Event>, a: bool, b: bool)
    ensures Closings(Calls(events), a, b) == Errors(events, a, b)
  {
    if events != [] {
      ClosingsAreErrors(events[..|events| - 1], a, b);
      ClosingsConcat(Calls(events[..|events| - 1]), CallsOf(events[|events| - 1]), a, b);
      OneClosing(events[|events| - 1], a, b);
    }
  }

  lemma OneClosing(e: Event, a: bool, b: bool)
    ensures Closings(CallsOf(e), a, b) == Bit(Fatal(e, a, b))
  {
    var io := (if e.input then [Input(e.first)] else []) + (if e.output then [Output(e.first)] else []);
    assert Closings([], a, b) == 0;
    assert e.input ==> [Input(e.first)][..0] == [];
    if e.input && e.output { assert io[..1] == [Input(e.first)]; }
    assert e.output ==> [Output(e.first)][..0] == [];
    assert Closings(io, a, b) == 0;
    if e.error { assert CallsOf(e)[..|io|] == io; } else { assert CallsOf(e) == io; }
  }

  // What a batch does to one of the ends, n errors of ready() ends among its events.
  predicate Handled(events: seq<Event>, first: bool, h: Half, h': Half, n: nat) {
    && Later(h, h') && Shut(h, h', n)
    && (h.enabled && Asked(events, Input(first)) ==>
          Ends(h.readLog, h'.readLog) && (h.prompt ==> h'.incoming == []))
    && (h.enabled && Asked(events, Output(first)) ==>
          h.sent + h.buf <= h'.sent || RefusedSince(h'.writeLog, |h.writeLog|))
    && (h.enabled && events != [] && events[|events| - 1].output && events[|events| - 1].first == first ==>
          h'.buf == [] || Ends(h.writeLog, h'.writeLog))
  }

  lemma TrailHandles(events: seq<Event>, trail: seq<Pair>, first: bool)
    requires IsTrail(Calls(events), trail)
    ensures var p, q := trail[0], trail[|Calls(events)|];
      Handled(events, first, p.At(first), q.At(first), Errors(events, p.a.enabled, p.b.enabled))
  {
    var calls := Calls(events);
    var h := trail[0].At(first);
    TrailLater(calls, trail, 0, |calls|, first);
    TrailShuts(calls, trail, |calls|);
    ClosingsAreErrors(events, trail[0].a.enabled, trail[0].b.enabled);
    assert calls[..|calls|] == calls;
    hide IsTrail, Calls, Shut, Ends, RefusedSince, Asked, Later, Closings, Errors;
    if h.enabled && Asked(events, Input(first)) {
      CallsAre(events, Input(first));
      InputRunsDry(calls, trail, |calls|, first);
    }
    if h.enabled && Asked(events, Output(first)) {
      CallsAre(events, Output(first));
      var k :| 0 <= k < |calls| && calls[k] == Output(first);
      StillReady(calls, trail, k, first);
      OutputStands(calls, trail, k);
    }
    if events != [] && events[|events| - 1].output && events[|events| - 1].first == first {
      LastOutput(events, trail);
    }
  }

  lemma StillReady(calls: seq<Call>, trail: seq<Pair>, k: nat, first: bool)
    requires IsTrail(calls, trail) && k <= |calls|
    ensures trail[k].At(first).enabled == trail[0].At(first).enabled
  {
    TrailLater(calls, trail, 0, k, first);
  }
}
