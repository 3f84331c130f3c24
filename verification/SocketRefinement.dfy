/** The module, with its three containers, its searches and its deferred deletion,
    does exactly what SocketReference says: every operation, however its handlers
    nest, takes the list of open sockets to the same list, with the same history. */
module SocketRefinement {
  import opened Lists
  import opened Text
  import opened SocketSpec
  import opened SocketInvariant
  import opened SocketHandlers
  import opened SocketTurns
  import opened SocketRuns
  import opened SocketTheorems
  import opened SocketReference

  // -------------------------------------------------------------- abstraction

  function ConnOf(w: World, id: Id): Conn {
    var s := w.Get(id);
    Conn(id, s.vm, s.userdata, s.connected, s.closeFails)
  }

  function ConnsOf(w: World, ids: seq<Id>): (r: seq<Conn>)
    ensures |r| == |ids| && forall i :: 0 <= i < |r| ==> r[i] == ConnOf(w, ids[i])
  {
    seq(|ids|, i requires 0 <= i < |ids| => ConnOf(w, ids[i]))
  }

  predicate Hidden(e: Entry) {
    e.Pulsed? || e.Freed?
  }

  /** The history without the turns and the deletions. */
  function Visible(t: seq<Entry>): seq<Entry> {
    if t == [] then []
    else Visible(t[..|t| - 1]) + (if Hidden(t[|t| - 1]) then [] else [t[|t| - 1]])
  }

  function Seen(w: World): Registry {
    Registry(ConnsOf(w, w.vec), |w.socks|, w.count, w.closeErrors, Visible(w.trace))
  }

  // ------------------------------------------------------------- single steps

  lemma SeenLog(w: World, e: Entry)
    ensures Seen(w.Log(e)) == if Hidden(e) then Seen(w) else Seen(w).Note(e)
  {
    assert w.Log(e).trace[..|w.trace|] == w.trace;
    assert ConnsOf(w.Log(e), w.vec) == ConnsOf(w, w.vec);
  }

  /** Nothing else in the state can be seen. */
  lemma SeenAlike(w: World, r: World)
    requires r.vec == w.vec && |r.socks| == |w.socks| && r.trace == w.trace
    requires r.count == w.count && r.closeErrors == w.closeErrors
    requires forall id :: id in w.vec ==> ConnOf(r, id) == ConnOf(w, id)
    ensures Seen(r) == Seen(w)
  {
    forall i | 0 <= i < |w.vec| ensures ConnsOf(r, r.vec)[i] == ConnsOf(w, w.vec)[i] {
      assert w.vec[i] in w.vec;
    }
  }

  lemma SeenShut(w0: World, w: World, id: Id, i: nat)
    requires NoDup(w0.vec) && i < |w0.vec| && w0.vec[i] == id && w0.Get(id).live && w0.Get(id).open
    requires w == w0 || w == SetConnected(w0, id, false)
    ensures Seen(Shut(w, id)) == TakeOff(Seen(w0), i)
  {
    hide Shut, NoDup;
    ShutFields(w0, w, id);
    WithoutAtOf(w0.vec, i);
    ConnsWithout(w0, Shut(w, id), i);
  }

  lemma WithoutAtOf(ids: seq<Id>, i: nat)
    requires NoDup(ids) && i < |ids|
    ensures Without(ids, ids[i]) == ids[..i] + ids[i + 1..]
  {
    WithoutAt(ids, i);
  }

  lemma ShutFields(w0: World, w: World, id: Id)
    requires w0.Get(id).live && w0.Get(id).open && (w == w0 || w == SetConnected(w0, id, false))
    ensures var r := Shut(w, id);
            && r.vec == Without(w0.vec, id) && |r.socks| == |w0.socks| && r.trace == w0.trace && r.halts == w0.halts
            && (if w0.Get(id).closeFails then r.count == w0.count && r.closeErrors == w0.closeErrors + 1
                else r.count == w0.count - 1 && r.closeErrors == w0.closeErrors)
            && forall j: Id :: j != id ==> r.Get(j) == w0.Get(j)
  {
    hide Without;
  }

  lemma ConnsWithout(w: World, r: World, i: nat)
    requires NoDup(w.vec) && i < |w.vec| && r.vec == w.vec[..i] + w.vec[i + 1..]
    requires forall j: Id :: j != w.vec[i] ==> r.Get(j) == w.Get(j)
    ensures ConnsOf(r, r.vec) == ConnsOf(w, w.vec)[..i] + ConnsOf(w, w.vec)[i + 1..]
  {
  }

  lemma {:induction false} FirstUserdataIs(conns: seq<Conn>, userdata: int, i: nat)
    requires i <= |conns| && (i < |conns| ==> conns[i].userdata == userdata)
    requires forall j :: 0 <= j < i ==> conns[j].userdata != userdata
    ensures FirstUserdata(conns, userdata) == i
  {
    if i > 0 {
      FirstUserdataIs(conns[1..], userdata, i - 1);
    }
  }

  lemma {:induction false} FirstIdIs(conns: seq<Conn>, id: Id, i: nat)
    requires i <= |conns| && (i < |conns| ==> conns[i].id == id)
    requires forall j :: 0 <= j < i ==> conns[j].id != id
    ensures FirstId(conns, id) == i
  {
    if i > 0 {
      FirstIdIs(conns[1..], id, i - 1);
    }
  }

  /** The search of GetSocket finds what Lookup finds. */
  lemma LookupFinds(w: World, userdata: int, held: set<Id>)
    requires Safe(w, held)
    ensures GetSocket(w, userdata).0 == w
    ensures var i := Lookup(Seen(w), userdata);
            GetSocket(w, userdata).1 == if i < |w.vec| then Found(w.vec[i]) else Nothing
  {
    if userdata != 0 {
      ScanFinds(w, ByUserdata(userdata), 0, held);
      match Scan(w, ByUserdata(userdata), 0).1
      case Nothing => FirstUserdataIs(Seen(w).conns, userdata, |w.vec|);
      case Found(id) =>
        var j :| 0 <= j < |w.vec| && w.vec[j] == id && Matches(w.Get(id), ByUserdata(userdata)) &&
                 forall l :: 0 <= l < j ==> !Matches(w.Get(w.vec[l]), ByUserdata(userdata));
        FirstUserdataIs(Seen(w).conns, userdata, j);
    }
  }

  /** A socket is in the registry exactly when it is in vecSockets. */
  lemma IndexFinds(w: World, id: Id)
    ensures var i := Seen(w).IndexOf(id); if id in w.vec then i < |w.vec| && w.vec[i] == id else i == |w.vec|
    ensures |Seen(w).conns| == |w.vec|
  {
    if id in w.vec {
      var i := Seen(w).IndexOf(id);
      if i == |w.vec| {
        var k :| 0 <= k < |w.vec| && w.vec[k] == id;
        NotBefore(Seen(w).conns, id, k);
      }
    } else {
      FirstIdIs(Seen(w).conns, id, |w.vec|);
    }
  }

  lemma {:induction false} NotBefore(conns: seq<Conn>, id: Id, k: nat)
    requires k < |conns| && conns[k].id == id
    ensures FirstId(conns, id) <= k
  {
    if k > 0 {
      NotBefore(conns[1..], id, k - 1);
    }
  }

  lemma OpenRefines(w: World, vm: int, io: OpenIo)
    requires forall id: Id :: id in w.vec ==> id < |w.socks|
    ensures Seen(SockOpen(w, vm, io)) == OpenSocket(Seen(w), vm, io)
  {
    SockOpenOutcome(w, vm, io);
    var r := SockOpen(w, vm, io);
    if w.count < MAX_OPEN_SOCKETS {
      OpenCounts(w, vm, io);
      assert r.trace[..|w.trace|] == w.trace;
      forall i | 0 <= i < |w.vec| ensures ConnsOf(r, w.vec)[i] == ConnsOf(w, w.vec)[i] {
        assert w.vec[i] in w.vec;
      }
      assert ConnsOf(r, w.vec) == ConnsOf(w, w.vec);
      if r.vec != w.vec {
        assert ConnsOf(r, r.vec) == ConnsOf(w, w.vec) + [ConnOf(r, |w.socks|)];
      }
    }
  }

  lemma OpenCounts(w: World, vm: int, io: OpenIo)
    requires w.count < MAX_OPEN_SOCKETS
    ensures var r, s := SockOpen(w, vm, io), OpenSocket(Seen(w), vm, io);
            r.count == s.count && r.closeErrors == s.closeErrors
  {
    hide Visible, ConnsOf;
  }

  lemma WriteRefines(w: World, userdata: int, held: set<Id>)
    requires Safe(w, held)
    ensures Seen(SockWrite(w, userdata)) == WriteTo(Seen(w), userdata)
  {
    LookupFinds(w, userdata, held);
    var i := Lookup(Seen(w), userdata);
    if i < |w.vec| {
      assert w.vec[i] in w.vec;
      SeenLog(w, Sent(w.vec[i]));
    }
  }

  /** ResourceStopped searches from the front each time; going on from where the
      last one was found would do. */
  lemma {:induction false} StopRefines(w: World, vm: int, i: nat, held: set<Id>)
    requires Inv(w, held) && i <= |w.vec|
    requires forall j :: 0 <= j < i ==> w.Get(w.vec[j]).vm != vm
    ensures Seen(ResourceStopped(w, vm)) == StopFrom(Seen(w), vm, i)
    decreases |w.vec| - i
  {
    hide Linked, Counted;
    ScanFinds(w, ByVm(vm), 0, held);
    if i == |w.vec| {
      assert Scan(w, ByVm(vm), 0).1.Nothing?;
      SeenAlike(w, w.LogHalt(vm));
    } else if w.Get(w.vec[i]).vm == vm {
      StopOne(w, vm, i, held);
      StopRefines(SilentRemove(w, w.vec[i]), vm, i, held);
    } else {
      StopRefines(w, vm, i + 1, held);
    }
  }

  lemma ScanFindsAt(w: World, vm: int, i: nat, held: set<Id>)
    requires Safe(w, held) && i < |w.vec| && w.Get(w.vec[i]).vm == vm
    requires forall j :: 0 <= j < i ==> w.Get(w.vec[j]).vm != vm
    ensures Scan(w, ByVm(vm), 0) == (w, Found(w.vec[i]))
  {
    ScanFinds(w, ByVm(vm), 0, held);
    assert Matches(w.Get(w.vec[i]), ByVm(vm));
  }

  lemma StopOne(w: World, vm: int, i: nat, held: set<Id>)
    requires Inv(w, held) && i < |w.vec| && w.Get(w.vec[i]).vm == vm
    requires forall j :: 0 <= j < i ==> w.Get(w.vec[j]).vm != vm
    ensures var r := SilentRemove(w, w.vec[i]);
            && Inv(r, held) && |r.vec| == |w.vec| - 1 && forall j :: 0 <= j < i ==> r.Get(r.vec[j]).vm != vm
    ensures Seen(SilentRemove(w, w.vec[i])) == TakeOff(Seen(w), i).Note(Silenced(w.vec[i]))
    ensures ResourceStopped(w, vm) == ResourceStopped(SilentRemove(w, w.vec[i]), vm)
  {
    hide Linked, Counted, Scan, Shut, Visible;
    var id := w.vec[i];
    assert id in w.vec && w.Get(id).live && w.Get(id).open;
    ScanFindsAt(w, vm, i, held);
    SilentRemoveKeeps(w, id, held);
    SeenSilentRemove(w, id, i);
  }

  lemma SeenSilentRemove(w: World, id: Id, i: nat)
    requires NoDup(w.vec) && i < |w.vec| && w.vec[i] == id && w.Get(id).live && w.Get(id).open
    ensures var r := SilentRemove(w, id);
            && r.vec == w.vec[..i] + w.vec[i + 1..] && (forall j: Id :: j != id ==> r.Get(j) == w.Get(j))
            && Seen(r) == TakeOff(Seen(w), i).Note(Silenced(id))
  {
    hide Shut, NoDup, Without;
    ShutFields(w, w, id);
    WithoutAtOf(w.vec, i);
    SeenShut(w, w, id, i);
    SeenLog(Shut(w, id), Silenced(id));
    SeenAlike(Shut(w, id).Log(Silenced(id)), SilentRemove(w, id));
  }

  // ----------------------------------------------------------------- handlers

  /** Removing the i-th socket; its handler runs with the same view. */
  lemma {:induction false} RemoveRefines(w0: World, w: World, i: nat, onClosed: Script, held: set<Id>)
    requires Inv(w0, held) && i < |w0.vec| && w0.vec[i] !in held
    requires w == w0 || w == SetConnected(w0, w0.vec[i], false)
    ensures Seen(SocketRemove(w, w0.vec[i], onClosed)) == Remove(Seen(w0), i, onClosed)
    decreases onClosed, 2
  {
    hide Linked, Counted, Shut, Visible, TakeOff, RunCalls, Perform;
    var id := w0.vec[i];
    assert id in w0.vec && w0.Get(id).live && w0.Get(id).open;
    var w1 := Shut(w, id).Log(Closed(id));
    ShutKeeps(w0, w, id, held, Closed(id));
    RemoveUnfolds(w, id, onClosed);
    SeenShut(w0, w, id, i);
    SeenLog(Shut(w, id), Closed(id));
    PerformRefines(w1, onClosed.calls, held + {id});
    SeenAlike(RunCalls(w1, onClosed.calls), Defer(RunCalls(w1, onClosed.calls), id));
  }

  lemma {:induction false} PerformRefines(w: World, calls: seq<Call>, held: set<Id>)
    requires Inv(w, held)
    ensures Seen(RunCalls(w, calls)) == Perform(Seen(w), calls)
    decreases calls, 0
  {
    hide Inv, Seen, RunCall, PerformOne;
    if calls != [] {
      RunCallKeeps(w, calls[0], held);
      PerformOneRefines(w, calls[0], held);
      PerformRefines(RunCall(w, calls[0]), calls[1..], held);
    }
  }

  lemma {:induction false} PerformOneRefines(w: World, c: Call, held: set<Id>)
    requires Inv(w, held)
    ensures Seen(RunCall(w, c)) == PerformOne(Seen(w), c)
    decreases c, 0
  {
    hide Linked, Counted, SockOpen, SockWrite, SocketRemove, ResourceStopped, OpenSocket, WriteTo, Remove, StopFrom;
    match c
    case Open(vm, io) =>
      assert forall id: Id :: id in w.vec ==> w.Get(id).live;
      OpenRefines(w, vm, io);
    case Write(userdata) => WriteRefines(w, userdata, held);
    case StopResource(vm) => StopRefines(w, vm, 0, held);
    case Close(userdata, onClosed) =>
      LookupFinds(w, userdata, held);
      var i := Lookup(Seen(w), userdata);
      if i < |w.vec| {
        assert w.vec[i] in w.vec;
        RemoveRefines(w, w, i, onClosed, held);
      }
  }

  // -------------------------------------------------------------------- turns

  lemma LoseRefines(w0: World, w: World, id: Id, onClosed: Script)
    requires Inv(w0, {}) && w0.Get(id).live && (w == w0 || w == SetConnected(w0, id, false))
    ensures Seen(SocketRemove(w, id, onClosed)) == Lose(Seen(w0), id, onClosed)
  {
    hide Linked, Counted, Remove;
    IndexFinds(w0, id);
    if id in w0.vec {
      RemoveRefines(w0, w, Seen(w0).IndexOf(id), onClosed, {});
    } else {
      assert !w.Get(id).open;
      SeenAlike(w0, SocketRemove(w, id, onClosed));
    }
  }

  /** HandleData, and the removal if it fails. */
  function Served(w: World, id: Id, io: PulseIo): World {
    var (r, ok) := HandleData(w, id, io);
    if ok then r else SocketRemove(r, id, io.onClosed)
  }

  lemma DeliverRefines(w: World, id: Id, io: PulseIo)
    requires Inv(w, {}) && w.Get(id).live && w.Get(id).connected && InTurnOf(w.trace, id)
    requires Gone(w.trace, id) ==> Opened(id) in SinceTurn(w.trace)
    ensures Seen(Served(w, id, io)) == Deliver(Seen(w), id, io)
  {
    hide Linked, Counted, SinceTurn, InTurnOf, SocketRemove, Lose, RunCalls, Perform, Visible;
    if io.recv.Length() > 0 {
      var e := Data(id, CString(io.recv.bytes));
      MayHear(w, id, e.payload);
      DataLogged(w, e);
      SeenLog(w, e);
      PerformRefines(w.Log(e), io.onData.calls, {});
    } else {
      LoseRefines(w, SetConnected(w, id, false), id, io.onClosed);
    }
  }

  lemma SeenConnected(w: World, i: nat)
    requires NoDup(w.vec) && i < |w.vec| && w.vec[i] < |w.socks|
    ensures var r := Seen(w);
            Seen(SetConnected(w, w.vec[i], true)) == r.(conns := r.conns[i := r.conns[i].(connected := true)])
  {
    var r := Seen(w);
    var w1 := SetConnected(w, w.vec[i], true);
    assert ConnsOf(w1, w.vec) == r.conns[i := r.conns[i].(connected := true)];
  }

  /** The turn in which the socket is reported opened. */
  lemma OpenedRefines(w: World, i: nat, io: PulseIo)
    requires Inv(w, {}) && i < |w.vec| && !w.Get(w.vec[i]).connected && SinceTurn(w.trace) == [Pulsed(w.vec[i])]
    requires Benign(io.err) && io.select != 0 && io.select != -1
    ensures Seen(Served(HandleConnection(w, w.vec[i], io).0, w.vec[i], io)) == TakeTurn(Seen(w), i, io)
  {
    hide Linked, Counted, SinceTurn, HandleConnection, Deliver, Served, RunCalls, Perform, Visible;
    var id := w.vec[i];
    assert id in w.vec && w.Get(id).live;
    StartOutcome(w, id);
    OpenedKeeps(w, id);
    OpenedOutcome(w, id, io);
    ConnectionUnfolds(w, id, io);
    SeenConnected(w, i);
    SeenLog(SetConnected(w, id, true), Opened(id));
    var w1 := SetConnected(w, id, true).Log(Opened(id));
    PerformRefines(w1, io.onOpened.calls, {});
    RunCallsKeeps(w1, io.onOpened.calls, {});
    DeliverRefines(RunCalls(w1, io.onOpened.calls), id, io);
  }

  /** CSocket::DoPulse of the i-th socket, and its removal if that fails. */
  lemma PulseOneRefines(w: World, i: nat, io: PulseIo)
    requires Inv(w, {}) && i < |w.vec| && SinceTurn(w.trace) == [Pulsed(w.vec[i])]
    ensures var id := w.vec[i];
            var (r, ok) := SocketPulse(w, id, io);
            Seen(if ok then r else SocketRemove(r, id, io.onClosed)) == TakeTurn(Seen(w), i, io)
  {
    hide Linked, Counted, SinceTurn, HandleData, Deliver, SocketRemove, Lose;
    var id := w.vec[i];
    assert id in w.vec;
    StartOutcome(w, id);
    if w.Get(id).connected {
      DeliverRefines(w, id, io);
    } else if io.select == 0 {
    } else if io.select == -1 {
      LoseRefines(w, w, id, io.onClosed);
    } else if Benign(io.err) {
      OpenedRefines(w, i, io);
    } else if io.err == ERR_NOT_CONNECTED {
      NotYetConnected(w, id, io);
    } else {
      LoseRefines(w, w, id, io.onClosed);
    }
  }

  lemma NotYetConnected(w: World, id: Id, io: PulseIo)
    requires w.Get(id).live && !w.Get(id).connected
    ensures HandleData(w, id, io) == (w, true)
  {
  }

  lemma TurnRefines(w: World, io: PulseIo)
    requires Inv(w, {}) && w.queue != []
    ensures var i := Seen(w).IndexOf(w.queue[0]);
            i < |w.vec| && Seen(Turn(w, io)) == TakeTurn(Seen(w), i, io)
  {
    hide Linked, Counted, SinceTurn, SocketPulse, SocketRemove, TakeTurn, Visible;
    var w1 := StartTurn(w);
    StartTurnKeeps(w);
    IndexFinds(w, w.queue[0]);
    SeenAlike(w, w.(queue := w.queue[1..]));
    SeenLog(w.(queue := w.queue[1..]), Pulsed(w.queue[0]));
    PulseOneRefines(w1, Seen(w).IndexOf(w.queue[0]), io);
  }

  /** processQueue holds those of the snapshot that are still there. */
  lemma {:induction false} TurnsRefine(w: World, ids: seq<Id>, ios: nat -> PulseIo, n: nat)
    requires Inv(w, {}) && w.queue == Keep(ids, Elems(w.vec)) && forall id: Id :: id in ids ==> id < |w.socks|
    ensures Seen(Turns(w, ios, n)) == TakeTurns(Seen(w), ids, ios, n)
    decreases |ids|
  {
    hide Inv, Evolves, Turn, TakeTurn, Seen, FirstId, Keep;
    if ids != [] {
      IndexFinds(w, ids[0]);
      KeepFront(ids, Elems(w.vec));
      assert forall id: Id :: id in ids[1..] ==> id in ids;
      if ids[0] in w.vec {
        var w1 := Turn(w, ios(n));
        TurnRefines(w, ios(n));
        TurnKeeps(w, ios(n));
        RestOfQueue(w, w1, ids[1..]);
        TurnsRefine(w1, ids[1..], ios, n + 1);
      } else {
        TurnsRefine(w, ids[1..], ios, n);
      }
    }
  }

  lemma KeepFront(ids: seq<Id>, s: set<Id>)
    requires ids != []
    ensures Keep(ids, s) == (if ids[0] in s then [ids[0]] else []) + Keep(ids[1..], s)
    ensures ids[0] in s ==> Keep(ids, s)[1..] == Keep(ids[1..], s)
  {
  }

  lemma RestOfQueue(w: World, w1: World, ids: seq<Id>)
    requires w.queue != [] && Evolves(w.(queue := w.queue[1..]), w1)
    requires w.queue[1..] == Keep(ids, Elems(w.vec)) && forall id: Id :: id in ids ==> id < |w.socks|
    ensures w1.queue == Keep(ids, Elems(w1.vec)) && |w.socks| <= |w1.socks|
  {
    forall id | id in ids && id in w1.vec ensures id in w.vec {
      VecGrowsMember(w.vec, w1.vec, |w.socks|, id);
    }
    KeepTwice(ids, Elems(w.vec), Elems(w1.vec), Elems(w1.vec));
  }

  lemma {:induction false} FlushUnseen(w: World)
    requires Inv(w, {})
    ensures Seen(Flush(w)) == Seen(w)
    decreases |w.del|
  {
    hide Linked, Counted, Visible;
    if w.del != [] {
      DeleteDeferredKeeps(w);
      DeleteUnseen(w);
      FlushUnseen(Delete(w.(del := w.del[1..]), w.del[0]));
    }
  }

  lemma DeleteUnseen(w: World)
    requires Safe(w, {}) && w.del != []
    ensures Seen(Delete(w.(del := w.del[1..]), w.del[0])) == Seen(w)
  {
    hide Visible;
    var id := w.del[0];
    assert id in Elems(w.del) && id !in Elems(w.vec);
    assert w.Get(id).live && !w.Get(id).open;
    var w1 := w.(del := w.del[1..]).Put(id, w.Get(id).(live := false));
    SeenAlike(w, w1);
    SeenLog(w1, Freed(id));
  }

  // --------------------------------------------------------------------- runs

  lemma StepRefines(w: World, op: Op)
    requires Inv(w, {})
    ensures Seen(Step(w, op)) == Perceive(Seen(w), op)
  {
    hide Linked, Counted, RunCalls, ResourceStopped, Turns, Flush, Perform, StopFrom, TakeTurns, Visible;
    match op
    case Lua(calls) => PerformRefines(w, calls, {});
    case Stop(vm) => StopRefines(w, vm, 0, {});
    case Pulse(ios) =>
      var w0 := w.(queue := w.vec);
      StartPulseKeeps(w);
      assert forall id: Id :: id in w.vec ==> w.Get(id).live;
      KeepAll(w.vec, Elems(w.vec));
      SeenAlike(w, w0);
      assert IdsOf(Seen(w).conns) == w.vec;
      TurnsRefine(w0, w.vec, ios, 0);
      TurnsKeep(w0, ios, 0);
      FlushUnseen(Turns(w0, ios, 0));
  }

  /** Over every run, the module shows its scripts exactly the list of sockets
      and the history of the reference. */
  lemma {:induction false} RunRefines(w: World, ops: seq<Op>)
    requires Inv(w, {})
    ensures Seen(Run(w, ops)) == PerceiveAll(Seen(w), ops)
    decreases |ops|
  {
    hide Inv, Seen, Step, Perceive;
    if ops != [] {
      StepRefines(w, ops[0]);
      StepKeeps(w, ops[0]);
      RunRefines(Step(w, ops[0]), ops[1..]);
    }
  }

  lemma EveryRunRefines(ops: seq<Op>)
    ensures Seen(Run(INITIAL, ops)) == PerceiveAll(NOTHING, ops)
  {
    InitialInv();
    RunRefines(INITIAL, ops);
  }

  /** From loading to shutdown. */
  lemma WholeLifeRefines(ops: seq<Op>)
    ensures Seen(HandleStop(Run(INITIAL, ops))) == CloseAll(PerceiveAll(NOTHING, ops))
  {
    hide Inv, Seen;
    InitialInv();
    RunKeeps(INITIAL, ops);
    EveryRunRefines(ops);
    ShutdownRefines(Run(INITIAL, ops));
  }

  // ----------------------------------------------------------------- shutdown

  function SeenAs(w: World, ids: seq<Id>): Registry {
    Registry(ConnsOf(w, ids), |w.socks|, w.count, w.closeErrors, Visible(w.trace))
  }

  lemma DeleteOneSeen(w: World, ids: seq<Id>)
    requires ids != [] && NoDup(ids) && w.Get(ids[0]).live
    ensures SeenAs(Delete(w, ids[0]), ids[1..])
            == if w.Get(ids[0]).open then TakeOff(SeenAs(w, ids), 0) else SeenAs(w, ids[1..])
  {
    var r := Delete(w, ids[0]);
    assert r.trace[..|w.trace|] == w.trace;
    assert forall j: Id :: j != ids[0] ==> ConnOf(r, j) == ConnOf(w, j);
    assert ConnsOf(r, ids[1..]) == ConnsOf(w, ids[1..]) == ConnsOf(w, ids)[1..];
    assert ConnsOf(w, ids)[..0] + ConnsOf(w, ids)[1..] == ConnsOf(w, ids)[1..];
  }

  lemma {:induction false} DeleteAllSeen(w: World, ids: seq<Id>, open: bool)
    requires NoDup(ids) && forall id: Id :: id in ids ==> w.Get(id).live && w.Get(id).open == open
    ensures SeenAs(DeleteAll(w, ids), []) == if open then CloseAll(SeenAs(w, ids)) else SeenAs(w, [])
    decreases |ids|
  {
    hide Visible;
    if ids != [] {
      DeleteOneSeen(w, ids);
      DeleteAllSeen(Delete(w, ids[0]), ids[1..], open);
      assert ConnsOf(Delete(w, ids[0]), []) == ConnsOf(w, []);
    }
  }

  lemma ShutdownRefines(w: World)
    requires Inv(w, {})
    ensures Seen(HandleStop(w)) == CloseAll(Seen(w))
  {
    hide Linked, Counted, Visible, DeleteAll;
    var w1 := DeleteAll(w, w.vec);
    DeleteAllFrees(w, w.vec);
    DeleteAllSeen(w, w.vec, true);
    forall id: Id | id in w.del ensures w1.Get(id).live && !w1.Get(id).open {
      assert id in Elems(w.del) && id !in Elems(w.vec);
      assert w.Get(id).live && !w.Get(id).open;
      assert id !in OpenIds(w) && id !in OpenIds(w1);
    }
    DeleteAllSeen(w1, w.del, false);
  }
}
