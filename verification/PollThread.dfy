// PollMgr::PollThread: its tables, and add(), remove(), update_mode() and the drain of
// poll_loop() when no other thread interferes, with what clients and the kernel do in between.
// Each takes exactly its steps of the protocol, so what holds of every run holds of the class.
module PollThreads {
  import opened Polling
  import opened PollingRuns

  // The count every pollable inherits.
  class RefCounted {
    var refcnt: int

    constructor ()
      ensures refcnt == 1
    {
      refcnt := 1;
    }

    method RefCopy()
      modifies this
      ensures refcnt == old(refcnt) + 1
    {
      refcnt := refcnt + 1;
    }

    // The verify of release(), and whether the object was deleted.
    method Release() returns (ok: bool, deleted: bool)
      modifies this
      ensures ok <==> old(refcnt) > 0
      ensures refcnt == old(refcnt) - 1
      ensures deleted <==> old(refcnt) == 1
    {
      refcnt := refcnt - 1;
      ok := refcnt >= 0;
      deleted := refcnt == 0;
    }
  }

  function DrainEach(order: seq<Id>): seq<Step> {
    if order == [] then [] else [Loop(DrainForget), Loop(DrainRelease)] + DrainEach(order[1..])
  }

  function DrainSteps(order: seq<Id>): seq<Step> {
    [Loop(DrainBegin(order))] + DrainEach(order) + [Loop(DrainEnd)]
  }

  lemma EachEnds(order: seq<Id>, k: nat)
    requires k < |order|
    ensures DrainEach(order[..k + 1]) == DrainEach(order[..k]) + [Loop(DrainForget), Loop(DrainRelease)]
  {
    if k == 0 {
      assert order[..1] == [order[0]] && order[..0] == [] && order[..1][1..] == [];
    } else {
      EachEnds(order[1..], k - 1);
      assert order[..k + 1][1..] == order[1..][..k] && order[..k][1..] == order[1..][..k - 1];
    }
  }

  // A run with one more step.
  lemma Append(c: Pollables, es: seq<Step>, e: Step)
    requires IsRun(c, START, es) && Enabled(c, After(c, START, es), e)
    ensures IsRun(c, START, es + [e]) && After(c, START, es + [e]) == Apply(c, After(c, START, es), e)
  {
    Onward(c, After(c, START, es), e, []);
    assert [e] + [] == [e];
    RunsCompose(c, START, es, [e]);
  }

  class PollThread {
    const clients: Pollables
    var mode: map<Fd, Mode>              // mode_
    var pollSet: set<Id>                 // poll_set_
    var pending: set<Id>                 // pending_remove_
    var kernel: map<Fd, Registration>    // the epoll instance poll_fd_ names
    var objects: map<Id, RefCounted>     // the pollables
    ghost var history: seq<Step>         // everything that has happened

    ghost function World(): State
      reads this`history
      requires IsRun(clients, START, history)
    {
      After(clients, START, history)
    }

    // The fields are the protocol's state after all that has happened.
    ghost predicate Valid()
      reads this, objects.Values
    {
      && IsRun(clients, START, history) && !World().aborted
      && World().tables == Tables(mode, pollSet, kernel) && World().pending == pending
      && Counted(World().count)
    }

    ghost predicate Counted(count: map<Id, nat>)
      reads this`objects, objects.Values
    {
      && count.Keys == objects.Keys
      && (forall p :: p in objects ==> objects[p].refcnt == count[p])
      && (forall p, q :: p in objects && q in objects && p != q ==> objects[p] != objects[q])
    }

    constructor (c: Pollables)
      ensures Valid() && clients == c && history == []
    {
      clients, mode, pollSet, pending, kernel, objects, history := c, map[], {}, {}, map[], map[], [];
    }

    ghost method Take(e: Step)
      requires IsRun(clients, START, history) && Enabled(clients, World(), e)
      modifies this`history
      ensures history == old(history) + [e] && IsRun(clients, START, history)
      ensures World() == Apply(clients, old(World()), e)
    {
      Append(clients, history, e);
      history := history + [e];
    }

    // A socket is created,
    method Open(f: Fd)
      requires Valid() && f !in World().open
      modifies this`history
      ensures Valid() && history == old(history) + [Step.World(WorldStep.Open(f))]
      ensures World() == old(World()).(open := old(World()).open + {f})
    {
      hide IsRun, After, Counted, AddEnabled, ChangeEnabled, LoopEnabled;
      Take(Step.World(WorldStep.Open(f)));
    }

    // or closed: the kernel forgets the descriptor, and the tables do not.
    method Close(f: Fd)
      requires Valid() && WorldEnabled(clients, World(), WorldStep.Close(f))
      modifies this`kernel, this`history
      ensures Valid() && history == old(history) + [Step.World(WorldStep.Close(f))]
      ensures kernel == old(kernel) - {f}
    {
      hide IsRun, After, Counted, AddEnabled, ChangeEnabled, LoopEnabled;
      Take(Step.World(WorldStep.Close(f)));
      kernel := kernel - {f};
    }

    // The constructor of a pollable: a new object, with one reference of its client's.
    method Make(p: Id)
      requires Valid() && WorldEnabled(clients, World(), WorldStep.Make(p))
      modifies this`objects, this`history
      ensures Valid() && history == old(history) + [Step.World(WorldStep.Make(p))]
      ensures p in objects && fresh(objects[p]) && objects == old(objects)[p := objects[p]]
      ensures Count(World().count, p) == Count(World().owned, p) == 1
    {
      hide IsRun, After, AddEnabled, ChangeEnabled, LoopEnabled;
      var made := new RefCounted();
      Take(Step.World(WorldStep.Make(p)));
      objects := objects[p := made];
    }

    // A client's ref_copy()
    method Copy(p: Id)
      requires Valid() && WorldEnabled(clients, World(), WorldStep.Copy(p)) && p in objects
      modifies this`history, objects.Values
      ensures Valid() && history == old(history) + [Step.World(WorldStep.Copy(p))]
    {
      hide IsRun, After, AddEnabled, ChangeEnabled, LoopEnabled;
      Take(Step.World(WorldStep.Copy(p)));
      objects[p].RefCopy();
    }

    // and release(): no verify can fail for a client who holds a reference.
    method Release(p: Id) returns (deleted: bool)
      requires Valid() && WorldEnabled(clients, World(), WorldStep.Release(p)) && p in objects
      modifies this`history, objects.Values
      ensures Valid() && history == old(history) + [Step.World(WorldStep.Release(p))]
      ensures deleted <==> Dead(World(), p)
    {
      WhenStepsFail(clients, history, Step.World(WorldStep.Release(p)));
      hide IsRun, After, AddEnabled, ChangeEnabled, LoopEnabled;
      Take(Step.World(WorldStep.Release(p)));
      var ok;
      ok, deleted := objects[p].Release();
    }

    // add()'s ref_copy()
    method Hold(p: Id)
      requires Valid() && AddEnabled(clients, World(), AddCopy(p)) && p in objects
      modifies this`history, objects.Values
      ensures Valid() && history == old(history) + [Step.Add(AddCopy(p))]
      ensures World() == AddMoved(clients, old(World()), AddCopy(p))
    {
      hide IsRun, After, WorldEnabled, ChangeEnabled, LoopEnabled;
      Take(Step.Add(AddCopy(p)));
      objects[p].RefCopy();
    }

    // add()'s critical section: whether its verifies hold.
    method Enlist(p: Id) returns (ok: bool)
      requires Valid() && AddEnabled(clients, World(), AddLocked(p))
      modifies this`mode, this`pollSet, this`history
      ensures history == old(history) + [Step.Add(AddLocked(p))] && IsRun(clients, START, history)
      ensures World() == Apply(clients, old(World()), Step.Add(AddLocked(p)))
      ensures if ok then Valid() && !Fails(clients, old(World()), Step.Add(AddLocked(p))) else World().aborted
      ensures ok <==> p !in old(pollSet) && clients.fd(p) !in old(mode)
      ensures ok ==> pollSet == old(pollSet) + {p} && mode == old(mode)[clients.fd(p) := clients.mode(p)]
    {
      hide IsRun, After, WorldEnabled, ChangeEnabled, LoopEnabled, Counted;
      var wanted, fd := clients.mode(p), clients.fd(p);
      ok := p !in pollSet && fd !in mode;
      Take(Step.Add(AddLocked(p)));
      if !ok { return; }
      pollSet := pollSet + {p};
      mode := mode[fd := wanted];
    }

    // Whether no verify failed; the steps up to a failure.
    method Add(p: Id, open: bool) returns (ok: bool, ghost taken: seq<Step>)
      requires Valid() && AddEnabled(clients, World(), AddCopy(p)) && p in objects
      requires open <==> clients.fd(p) in World().open
      modifies this`mode, this`pollSet, this`kernel, this`history, objects.Values
      ensures taken <= AddSteps(p) && history == old(history) + taken && IsRun(clients, START, history)
      ensures if ok then Valid() && taken == AddSteps(p) else World().aborted
      ensures ok <==> p !in old(pollSet) && clients.fd(p) !in old(mode) && open && clients.fd(p) !in old(kernel)
      ensures ok ==> pollSet == old(pollSet) + {p} && mode == old(mode)[clients.fd(p) := clients.mode(p)]
      ensures ok ==> kernel == old(kernel)[clients.fd(p) := Registration(p, true, clients.mode(p).write)]
    {
      hide IsRun, After, WorldMoved, ChangeMoved, LoopMoved, WorldEnabled, ChangeEnabled, LoopEnabled, Counted;
      Hold(p);
      ok := Enlist(p);
      taken := AddSteps(p)[..2];
      assert history == old(history) + taken;
      if !ok { return; }
      var fd := clients.fd(p);
      ok := open && fd !in kernel;
      Take(Step.Add(AddKernel(p)));
      taken := AddSteps(p);
      assert history == old(history) + taken;
      if !ok { return; }
      kernel := kernel[fd := Registration(p, true, clients.mode(p).write)];
    }

    // Whether no assert failed, and whether p was found.
    method Remove(p: Id) returns (ok: bool, found: bool)
      requires Valid() && ChangeEnabled(World(), RemoveLocked(p))
      modifies this`mode, this`pollSet, this`pending, this`history
      ensures found == (p in old(pollSet)) && IsRun(clients, START, history)
      ensures if ok then Valid() && history == old(history) + RemoveSteps(p, found)
              else history == old(history) + [Change(RemoveLocked(p))] && World().aborted
      ensures ok <==> (found <==> clients.fd(p) in old(mode))
      ensures if ok && found
              then pollSet == old(pollSet) - {p} && mode == old(mode) - {clients.fd(p)} && pending == old(pending) + {p}
              else pollSet == old(pollSet) && mode == old(mode) && pending == old(pending)
    {
      hide IsRun, After, WorldMoved, AddMoved, LoopMoved, WorldEnabled, AddEnabled, LoopEnabled;
      var fd := clients.fd(p);
      found := p in pollSet;
      ok := found <==> fd in mode;
      Take(Change(RemoveLocked(p)));
      if ok && found {
        pollSet := pollSet - {p};
        mode := mode - {fd};
        Take(Change(RemovePend(p)));
        pending := pending + {p};
      }
    }

    method UpdateMode(p: Id, newMode: Mode) returns (ok: bool)
      requires Valid() && ChangeEnabled(World(), Update(p, newMode))
      modifies this`mode, this`kernel, this`history
      ensures history == old(history) + [Change(Update(p, newMode))] && IsRun(clients, START, history)
      ensures if ok then Valid() else World().aborted
      ensures ok <==> (p in pollSet ==> var fd := clients.fd(p);
        fd in old(mode) && (newMode == old(mode)[fd] || fd in old(kernel)))
      ensures p !in pollSet ==> mode == old(mode) && kernel == old(kernel)
      ensures p in pollSet && ok ==> var fd := clients.fd(p);
        && fd in old(mode) && mode == old(mode)[fd := newMode]
        && kernel == if old(mode)[fd] == newMode then old(kernel)
                     else old(kernel)[fd := Registration(p, newMode.read, newMode.write)]
    {
      hide IsRun, After, WorldMoved, AddMoved, LoopMoved, WorldEnabled, AddEnabled, LoopEnabled;
      var fd := clients.fd(p);
      Take(Change(Update(p, newMode)));
      if p !in pollSet { return true; }
      if fd !in mode { return false; }
      var oldMode := mode[fd];
      mode := mode[fd := newMode];
      if newMode != oldMode {
        if fd !in kernel { return false; }
        kernel := kernel[fd := Registration(p, newMode.read, newMode.write)];
      }
      ok := true;
    }

    // The set in the order of its pointers, whatever that is.
    method PendingList() returns (list: seq<Id>)
      ensures multiset(list) == multiset(pending)
    {
      list := [];
      var rest := pending;
      while rest != {}
        invariant rest <= pending && multiset(list) == multiset(pending) - multiset(rest)
        decreases |rest|
      {
        var p :| p in rest;
        list, rest := list + [p], rest - {p};
      }
    }

    // The drain's release(): its verify cannot fail.
    method LetGo(p: Id)
      requires Valid() && LoopEnabled(World(), DrainRelease) && p == World().phase.list[0]
      modifies this`history, objects.Values
      ensures Valid() && history == old(history) + [Loop(DrainRelease)]
      ensures World().phase == Draining(old(World().phase.list)[1..], false)
    {
      ReclamationIsDeferred(clients, history, p);
      hide IsRun, After, WorldEnabled, AddEnabled, ChangeEnabled;
      Take(Loop(DrainRelease));
      var ok, deleted := objects[p].Release();
    }

    method DrainFirst(p: Id)
      requires Valid() && World().phase.Draining? && !World().phase.unregistered
      requires World().phase.list != [] && p == World().phase.list[0]
      modifies this`kernel, this`history, objects.Values
      ensures Valid() && World().phase == Draining(old(World().phase.list)[1..], false)
      ensures history == old(history) + [Loop(DrainForget), Loop(DrainRelease)]
      ensures kernel == if clients.fd(p) in mode then old(kernel) else old(kernel) - {clients.fd(p)}
    {
      hide IsRun, After, WorldMoved, AddMoved, ChangeMoved, WorldEnabled, AddEnabled, ChangeEnabled;
      var fd := clients.fd(p);
      Take(Loop(DrainForget));
      if fd !in mode { kernel := kernel - {fd}; }
      LetGo(p);
    }

    // Its critical section: pending_remove_ is copied and cleared.
    method TakePending() returns (removePoll: seq<Id>)
      requires Valid() && World().phase == Dispatching([])
      modifies this`pending, this`history
      ensures Valid() && pending == {} && multiset(removePoll) == multiset(old(pending))
      ensures World().phase == Draining(removePoll, false)
      ensures history == old(history) + [Loop(DrainBegin(removePoll))]
    {
      hide IsRun, After, WorldMoved, AddMoved, ChangeMoved, WorldEnabled, AddEnabled, ChangeEnabled, Counted;
      removePoll := PendingList();
      Take(Loop(DrainBegin(removePoll)));
      pending := {};
    }

    // The descriptors of these pollables that nobody has registered again.
    ghost function Unused(list: seq<Id>): set<Fd>
      reads this`mode
    {
      set p | p in list && clients.fd(p) !in mode :: clients.fd(p)
    }

    lemma NoneUnused(list: seq<Id>)
      requires |list| == 0
      ensures Unused(list) == {} && DrainEach(list) == []
    {
    }

    lemma UnusedMore(list: seq<Id>, k: nat)
      requires k < |list|
      ensures Unused(list[..k + 1]) ==
        Unused(list[..k]) + if clients.fd(list[k]) in mode then {} else {clients.fd(list[k])}
    {
      assert list[..k + 1] == list[..k] + [list[k]];
    }

    // The end of a turn of poll_loop(): no verify can fail, and the kernel drops just the unused
    // descriptors of what was pending.
    method Drain() returns (ghost order: seq<Id>)
      requires Valid() && World().phase == Dispatching([])
      modifies this`pending, this`kernel, this`history, objects.Values
      ensures Valid() && pending == {} && multiset(order) == multiset(old(pending))
      ensures history == old(history) + DrainSteps(order) && kernel == old(kernel) - Unused(order)
    {
      hide IsRun, After, WorldMoved, AddMoved, ChangeMoved, LoopMoved, Counted, Unused, DrainEach;
      hide WorldEnabled, AddEnabled, ChangeEnabled, LoopEnabled;
      var removePoll := TakePending();
      order := removePoll;
      var i := 0;
      NoneUnused(order[..0]);
      while i < |removePoll|
        invariant 0 <= i <= |order| && Valid() && pending == {}
        invariant World().phase == Draining(order[i..], false)
        invariant kernel == old(kernel) - Unused(order[..i])
        invariant history == old(history) + [Loop(DrainBegin(order))] + DrainEach(order[..i])
      {
        DrainFirst(removePoll[i]);
        UnusedMore(order, i);
        EachEnds(order, i);
        assert order[i..][1..] == order[i + 1..];
        i := i + 1;
      }
      assert order[..i] == order && World().phase.list == [];
      DrainIsOver();
      assert history == old(history) + DrainSteps(order);
    }

    method DrainIsOver()
      requires Valid() && World().phase == Draining([], false)
      modifies this`history
      ensures Valid() && history == old(history) + [Loop(DrainEnd)]
    {
      hide IsRun, After, WorldMoved, AddMoved, ChangeMoved, WorldEnabled, AddEnabled, ChangeEnabled, Counted;
      Take(Loop(DrainEnd));
    }
  }
}
