/** A resource may be stopped at any moment, also by a handler of one of its own
    sockets while that socket's turn is on. What its VM can still hear. */
module SocketStops {
  import opened Text
  import opened SocketSpec
  import opened SocketInvariant
  import opened SocketHandlers
  import opened SocketTurns
  import opened SocketRuns
  import opened SocketTheorems

  // -------------------------------------------------------------- invariant

  /** Every socket of the VM stopped at h that existed then had been removed. */
  ghost predicate HaltHeld(w: World, h: Halt) {
    h.at <= |w.trace| &&
    forall id: Id :: id < |w.socks| && w.Get(id).vm == h.vm && Added(id) in w.trace[..h.at] ==>
      Gone(w.trace[..h.at], id)
  }

  ghost predicate HaltsHeld(w: World) {
    forall h :: h in w.halts ==> HaltHeld(w, h)
  }

  /** r comes after w, and no resource has been stopped in between. */
  ghost predicate Later(w: World, r: World) {
    && r.halts == w.halts && |w.socks| <= |r.socks| && w.trace <= r.trace
    && forall id: Id :: id < |w.socks| ==> r.Get(id).vm == w.Get(id).vm
  }

  lemma HaltStillHeld(w: World, r: World, h: Halt)
    requires HaltHeld(w, h) && Later(w, r)
    requires forall k :: 0 <= k < |w.trace| ==> w.trace[k].id < |w.socks|
    ensures HaltHeld(r, h)
  {
    var t := w.trace[..h.at];
    assert r.trace[..h.at] == t;
    forall id: Id | id < |r.socks| && r.Get(id).vm == h.vm && Added(id) in t ensures Gone(t, id) {
      var k :| 0 <= k < |t| && t[k] == Added(id);
      assert w.trace[k].id < |w.socks|;
    }
  }

  lemma HaltsKept(w: World, r: World)
    requires HaltsHeld(w) && Later(w, r)
    requires forall k :: 0 <= k < |w.trace| ==> w.trace[k].id < |w.socks|
    ensures HaltsHeld(r)
  {
    forall h | h in r.halts ensures HaltHeld(r, h) {
      HaltStillHeld(w, r, h);
    }
  }

  // --------------------------------------------------------------- handlers

  lemma LogHaltHolds(w: World, vm: int, held: set<Id>)
    requires Inv(w, held) && HaltsHeld(w) && Scan(w, ByVm(vm), 0).1.Nothing?
    ensures HaltsHeld(w.LogHalt(vm))
  {
    var r := w.LogHalt(vm);
    ScanFinds(w, ByVm(vm), 0, held);
    assert r.trace[..|r.trace|] == w.trace;
    forall id: Id | r.Get(id).vm == vm && Added(id) in w.trace ensures Gone(w.trace, id) {
      assert LinkedAt(w, id);
    }
    forall h | h in r.halts ensures HaltHeld(r, h) {
      if h in w.halts {
        assert HaltHeld(w, h);
      }
    }
  }

  lemma {:induction false} ResourceStoppedHolds(w: World, vm: int, held: set<Id>)
    requires Inv(w, held) && HaltsHeld(w)
    ensures HaltsHeld(ResourceStopped(w, vm))
    decreases |w.vec|
  {
    hide HaltsHeld;
    ScanFinds(w, ByVm(vm), 0, held);
    var found := Scan(w, ByVm(vm), 0).1;
    if found.Nothing? {
      LogHaltHolds(w, vm, held);
    } else {
      var r := SilentRemove(w, found.id);
      SilentRemoveKeeps(w, found.id, held);
      HaltsKept(w, r);
      ResourceStoppedHolds(r, vm, held);
    }
  }

  lemma {:induction false} SocketRemoveHolds(w0: World, w: World, id: Id, onClosed: Script, held: set<Id>)
    requires Inv(w0, held) && HaltsHeld(w0) && id in w0.vec && id !in held
    requires w == w0 || w == SetConnected(w0, id, false)
    ensures HaltsHeld(SocketRemove(w, id, onClosed))
    decreases onClosed, 2
  {
    hide HaltsHeld;
    var w1 := Shut(w, id).Log(Closed(id));
    ShutKeeps(w0, w, id, held, Closed(id));
    RemoveUnfolds(w, id, onClosed);
    HaltsKept(w0, w1);
    RunCallsHolds(w1, onClosed.calls, held + {id});
    RunCallsKeeps(w1, onClosed.calls, held + {id});
    HaltsKept(RunCalls(w1, onClosed.calls), Defer(RunCalls(w1, onClosed.calls), id));
  }

  lemma {:induction false} RunCallsHolds(w: World, calls: seq<Call>, held: set<Id>)
    requires Inv(w, held) && HaltsHeld(w)
    ensures HaltsHeld(RunCalls(w, calls))
    decreases calls, 0
  {
    hide Inv, HaltsHeld;
    if calls != [] {
      RunCallKeeps(w, calls[0], held);
      RunCallHolds(w, calls[0], held);
      RunCallsHolds(RunCall(w, calls[0]), calls[1..], held);
    }
  }

  lemma {:induction false} RunCallHolds(w: World, c: Call, held: set<Id>)
    requires Inv(w, held) && HaltsHeld(w)
    ensures HaltsHeld(RunCall(w, c))
    decreases c, 0
  {
    hide HaltsHeld, SocketRemove, SockOpen, Linked;
    match c
    case Open(vm, io) => SockOpenHolds(w, vm, io, held);
    case Write(userdata) => SockWriteHolds(w, userdata, held);
    case StopResource(vm) => ResourceStoppedHolds(w, vm, held);
    case Close(userdata, onClosed) =>
      ScanFinds(w, ByUserdata(userdata), 0, held);
      var found := GetSocket(w, userdata).1;
      if found.Found? {
        SocketRemoveHolds(w, w, found.id, onClosed, held);
      }
  }

  lemma SockOpenHolds(w: World, vm: int, io: OpenIo, held: set<Id>)
    requires Inv(w, held) && HaltsHeld(w)
    ensures HaltsHeld(SockOpen(w, vm, io))
  {
    hide HaltsHeld, SockOpen;
    SockOpenOutcome(w, vm, io);
    SockOpenKeeps(w, vm, io, held);
    HaltsKept(w, SockOpen(w, vm, io));
  }

  lemma SockWriteHolds(w: World, userdata: int, held: set<Id>)
    requires Inv(w, held) && HaltsHeld(w)
    ensures HaltsHeld(SockWrite(w, userdata))
  {
    hide HaltsHeld;
    ScanFinds(w, ByUserdata(userdata), 0, held);
    HaltsKept(w, SockWrite(w, userdata));
  }

  // -------------------------------------------------------------- the pulse

  lemma OpenedHolds(w: World, id: Id, io: PulseIo)
    requires Inv(w, {}) && HaltsHeld(w)
    requires id in w.vec && !w.Get(id).connected && InTurnOf(w.trace, id) && Benign(io.err)
    ensures HaltsHeld(HandleConnection(w, id, io).0)
  {
    hide HaltsHeld, HandleConnection;
    var w1 := SetConnected(w, id, true).Log(Opened(id));
    OpenedKeeps(w, id);
    assert w.Get(id).live;
    ConnectionUnfolds(w, id, io);
    HaltsKept(w, w1);
    RunCallsHolds(w1, io.onOpened.calls, {});
  }

  lemma DataHolds(w: World, id: Id, io: PulseIo)
    requires Inv(w, {}) && HaltsHeld(w) && w.Get(id).live && InTurnOf(w.trace, id)
    requires Gone(w.trace, id) ==> Opened(id) in SinceTurn(w.trace)
    ensures HaltsHeld(HandleData(w, id, io).0)
  {
    hide HaltsHeld, InTurnOf;
    if w.Get(id).connected && io.recv.Length() > 0 {
      var e := Data(id, CString(io.recv.bytes));
      MayHear(w, id, e.payload);
      DataLogged(w, e);
      HaltsKept(w, w.Log(e));
      RunCallsHolds(w.Log(e), io.onData.calls, {});
    } else {
      HaltsKept(w, HandleData(w, id, io).0);
    }
  }

  lemma SocketPulseHolds(w: World, id: Id, io: PulseIo)
    requires Inv(w, {}) && HaltsHeld(w) && id in w.vec && SinceTurn(w.trace) == [Pulsed(id)]
    ensures HaltsHeld(SocketPulse(w, id, io).0)
  {
    hide HaltsHeld, Inv, HandleData, SinceTurn;
    StartOutcome(w, id);
    if w.Get(id).connected {
      DataHolds(w, id, io);
    } else if io.select != 0 && io.select != -1 {
      if Benign(io.err) {
        OpenedOutcome(w, id, io);
        OpenedHolds(w, id, io);
      }
      DataHolds(w, id, io);
      DataHolds(HandleConnection(w, id, io).0, id, io);
    }
  }

  lemma FailedTurnHolds(w1: World, base: World, w2: World, id: Id, onClosed: Script)
    requires Outcome(w1, base, w2, id, false) && HaltsHeld(w2)
    ensures HaltsHeld(SocketRemove(w2, id, onClosed))
  {
    hide HaltsHeld, Evolves;
    HaltsKept(w2, base);
    if id in base.vec {
      SocketRemoveHolds(base, w2, id, onClosed, {});
    } else {
      assert !w2.Get(id).open;
      HaltsKept(base, SocketRemove(w2, id, onClosed));
    }
  }

  lemma TurnHolds(w: World, io: PulseIo)
    requires Inv(w, {}) && HaltsHeld(w) && w.queue != []
    ensures HaltsHeld(Turn(w, io))
  {
    hide HaltsHeld, SocketPulse, SocketRemove, Evolves;
    var id, w1 := w.queue[0], StartTurn(w);
    StartTurnKeeps(w);
    HaltsKept(w, w1);
    SocketPulseHolds(w1, id, io);
    var base := SocketPulseKeeps(w1, id, io);
    var (w2, ok) := SocketPulse(w1, id, io);
    if !ok {
      FailedTurnHolds(w1, base, w2, id, io.onClosed);
    }
  }

  lemma {:induction false} TurnsHold(w: World, ios: nat -> PulseIo, n: nat)
    requires Inv(w, {}) && HaltsHeld(w)
    ensures HaltsHeld(Turns(w, ios, n))
    decreases |w.queue|
  {
    hide Inv, HaltsHeld, Turn;
    if w.queue != [] {
      TurnKeeps(w, ios(n));
      TurnHolds(w, ios(n));
      TurnsHold(Turn(w, ios(n)), ios, n + 1);
    }
  }

  lemma {:induction false} FlushHolds(w: World)
    requires Inv(w, {}) && HaltsHeld(w)
    ensures HaltsHeld(Flush(w))
    decreases |w.del|
  {
    hide HaltsHeld;
    if w.del != [] {
      var r := Delete(w.(del := w.del[1..]), w.del[0]);
      DeleteDeferredKeeps(w);
      HaltsKept(w, r);
      FlushHolds(r);
    }
  }

  lemma DoPulseHolds(w: World, ios: nat -> PulseIo)
    requires Inv(w, {}) && HaltsHeld(w)
    ensures HaltsHeld(DoPulse(w, ios))
  {
    hide Inv, Evolves;
    var w0 := w.(queue := w.vec);
    StartPulseKeeps(w);
    assert HaltsHeld(w0) by {
      assert forall h :: h in w.halts ==> HaltHeld(w, h);
      assert forall id: Id :: w0.Get(id) == w.Get(id);
    }
    TurnsHold(w0, ios, 0);
    TurnsKeep(w0, ios, 0);
    FlushHolds(Turns(w0, ios, 0));
  }

  lemma {:induction false} RunHolds(w: World, ops: seq<Op>)
    requires Inv(w, {}) && HaltsHeld(w)
    ensures HaltsHeld(Run(w, ops))
    decreases |ops|
  {
    hide Inv, HaltsHeld, DoPulse;
    if ops != [] {
      match ops[0] {
        case Pulse(ios) => DoPulseHolds(w, ios);
        case Lua(calls) => RunCallsHolds(w, calls, {});
        case Stop(vm) => ResourceStoppedHolds(w, vm, {});
      }
      StepKeeps(w, ops[0]);
      RunHolds(Step(w, ops[0]), ops[1..]);
    }
  }

  // ------------------------------------------------------------- what is heard

  lemma EventAfterRemoval(t: seq<Entry>, n: nat, k: nat)
    requires Legal(t) && n <= k < |t| && t[k].IsEvent()
    requires Added(t[k].id) in t[..n] ==> Gone(t[..n], t[k].id)
    ensures Added(t[k].id) in t[n..k] || (t[k].Data? && OpenedInThisTurn(t, n, k))
  {
    hide Legal;
    var i := EventWasAdded(t, k);
    if i >= n {
      assert t[n..k][i - n] == Added(t[k].id);
    } else {
      assert t[..n][i] == Added(t[k].id);
      var g :| 0 <= g < n && t[..n][g].id == t[k].id && t[..n][g].IsRemoval();
      LegalPair(t, g, k);
      LateDataPair(t, g, k);
    }
  }

  /** In every run, wherever a resource is stopped, from inside handlers too: an
      event on its VM concerns a socket opened since, or is onSockData in the very
      turn that was on at the stop and that had reported its socket opened. */
  lemma HeardAfterStop(ops: seq<Op>, h: Halt, k: nat)
    requires var w := Run(INITIAL, ops);
             h in w.halts && h.at <= k < |w.trace| && w.trace[k].IsEvent() && w.Get(w.trace[k].id).vm == h.vm
    ensures var t := Run(INITIAL, ops).trace;
            || Added(t[k].id) in t[h.at..k]
            || (t[k].Data? && OpenedInThisTurn(t, h.at, k))
  {
    hide Legal, Run, OpenedInThisTurn;
    var w := Run(INITIAL, ops);
    InitialInv();
    RunKeeps(INITIAL, ops);
    RunHolds(INITIAL, ops);
    assert HaltHeld(w, h) && w.trace[k].id < |w.socks|;
    EventAfterRemoval(w.trace, h.at, k);
  }
}
