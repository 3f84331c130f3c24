/** One turn of the pulse loop keeps the invariant, whatever the operating
    system answers and whatever the handlers of the three events do. */
module SocketTurns {
  import opened Lists
  import opened Text
  import opened SocketSpec
  import opened SocketInvariant
  import opened SocketHandlers

  /** The world in which CSocket::DoPulse of the front socket starts. */
  function StartTurn(w: World): World
    requires w.queue != []
  {
    w.(queue := w.queue[1..]).Log(Pulsed(w.queue[0]))
  }

  lemma StartTurnSafe(w: World)
    requires Safe(w, {}) && w.queue != []
    ensures Safe(StartTurn(w), {})
  {
    var w1 := StartTurn(w);
    assert forall id: Id :: w1.Get(id) == w.Get(id);
  }

  lemma StartTurnLinked(w: World)
    requires Linked(w) && w.queue != [] && w.queue[0] in w.vec && w.queue[0] < |w.socks| && w.Get(w.queue[0]).live
    ensures Linked(StartTurn(w))
  {
    var w0 := w.(queue := w.queue[1..]);
    assert LinkedAt(w, w.queue[0]);
    SameLinks(w, w0);
    LogLinked(w0, Pulsed(w.queue[0]));
  }

  lemma LogEvolves(w: World, e: Entry)
    requires forall i: Id :: i in w.queue ==> i in w.vec
    requires e.id in w.vec
    ensures Evolves(w, w.Log(e))
  {
    GrowsReflexive(w);
  }

  lemma StartTurnKeeps(w: World)
    requires Inv(w, {}) && w.queue != []
    ensures Inv(StartTurn(w), {}) && w.queue[0] in StartTurn(w).vec
    ensures SinceTurn(StartTurn(w).trace) == [Pulsed(w.queue[0])]
    ensures Evolves(w.(queue := w.queue[1..]), StartTurn(w))
  {
    assert w.Get(w.queue[0]).live;
    StartTurnSafe(w);
    StartTurnLinked(w);
    LogEvolves(w.(queue := w.queue[1..]), Pulsed(w.queue[0]));
  }

  lemma OpenedLinkedAt(w: World, id: Id, i: Id)
    requires LinkedAt(w, i) && w.Get(id).live
    ensures LinkedAt(SetConnected(w, id, true).Log(Opened(id)), i)
  {
    LoggedIn(w.trace, Opened(id));
  }

  lemma OpenedLinked(w: World, id: Id)
    requires Linked(w) && id in w.vec && w.Get(id).live && !w.Get(id).connected && InTurnOf(w.trace, id)
    ensures Linked(SetConnected(w, id, true).Log(Opened(id)))
  {
    assert LinkedAt(w, id);
    LegalSnoc(w.trace, Opened(id));
    forall i: Id ensures LinkedAt(SetConnected(w, id, true).Log(Opened(id)), i) {
      OpenedLinkedAt(w, id, i);
    }
  }

  lemma SetConnectedSafe(w: World, id: Id, connected: bool, held: set<Id>)
    requires Safe(w, held)
    ensures Safe(SetConnected(w, id, connected), held)
  {
    var w1 := SetConnected(w, id, connected);
    assert forall i: Id :: w1.Get(i).live == w.Get(i).live && w1.Get(i).open == w.Get(i).open;
  }

  lemma LogSafe(w: World, e: Entry, held: set<Id>)
    requires Safe(w, held)
    ensures Safe(w.Log(e), held)
  {
    assert forall i: Id :: w.Log(e).Get(i) == w.Get(i);
  }

  lemma SetConnectedEvolves(w: World, id: Id, connected: bool)
    requires forall i: Id :: i in w.queue ==> i in w.vec
    ensures Evolves(w, SetConnected(w, id, connected))
  {
    GrowsReflexive(w);
  }

  lemma OpenedEvolves(w: World, id: Id)
    requires (forall i: Id :: i in w.queue ==> i in w.vec) && (forall i: Id :: i in w.vec ==> i < |w.socks|)
    requires id in w.vec
    ensures Evolves(w, SetConnected(w, id, true).Log(Opened(id)))
  {
    SetConnectedEvolves(w, id, true);
    LogEvolves(SetConnected(w, id, true), Opened(id));
    EvolvesTransitive(w, SetConnected(w, id, true), SetConnected(w, id, true).Log(Opened(id)));
  }

  /** Marking the socket connected and logging onSockOpened. */
  lemma OpenedKeeps(w: World, id: Id)
    requires Inv(w, {}) && id in w.vec && !w.Get(id).connected && InTurnOf(w.trace, id)
    ensures var w1 := SetConnected(w, id, true).Log(Opened(id));
            && Inv(w1, {}) && id in w1.vec && w1.Get(id).connected
            && w1.trace == w.trace + [Opened(id)]
            && Evolves(w, w1) && NoTurn(w.trace, w1.trace)
  {
    assert w.Get(id).live;
    SetConnectedSafe(w, id, true, {});
    LogSafe(SetConnected(w, id, true), Opened(id), {});
    OpenedLinked(w, id);
    OpenedEvolves(w, id);
  }

  /** Data may come to a connected socket, in its own turn. */
  lemma MayHear(w: World, id: Id, payload: string)
    requires Linked(w) && w.Get(id).live && w.Get(id).connected && InTurnOf(w.trace, id)
    requires Gone(w.trace, id) ==> Opened(id) in SinceTurn(w.trace)
    ensures Allowed(w.trace, Data(id, payload))
  {
    assert LinkedAt(w, id);
  }

  lemma DataLogged(w: World, e: Entry)
    requires Inv(w, {}) && w.Get(e.id).live && e.Data? && Allowed(w.trace, e)
    ensures Inv(w.Log(e), {})
  {
    LogSafe(w, e, {});
    LogLinked(w, e);
  }

  /** onSockData on a live socket: log it, then run its handler. */
  lemma DataKeeps(w: World, e: Entry, handler: Script)
    requires Inv(w, {}) && w.Get(e.id).live && e.Data? && Allowed(w.trace, e)
    ensures Inv(TriggerEvent(w, e, handler), {})
    ensures Grows(w.Log(e), TriggerEvent(w, e, handler))
  {
    DataLogged(w, e);
    RunCallsKeeps(w.Log(e), handler.calls, {});
  }

  lemma SetConnectedKeeps(w: World, id: Id)
    requires Inv(w, {}) && id !in w.vec
    ensures Inv(SetConnected(w, id, false), {})
  {
    var w1 := SetConnected(w, id, false);
    SetConnectedSafe(w, id, false, {});
    forall i: Id ensures LinkedAt(w1, i) {
      assert LinkedAt(w, i);
    }
  }

  lemma LogAfterEvolves(w0: World, w: World, e: Entry)
    requires Evolves(w0, w) && NoTurn(w0.trace, w.trace) && e.id in w0.vec && !e.Pulsed?
    ensures Evolves(w0, w.Log(e)) && NoTurn(w0.trace, w.Log(e).trace)
  {
  }

  /** The outcome of CSocket::DoPulse, seen from the start w0 of the turn: on
      success the invariant holds; on failure it held before m_bConnected was
      cleared, and the caller is about to remove the socket. */
  ghost predicate Outcome(w0: World, base: World, r: World, id: Id, ok: bool) {
    && Inv(base, {}) && base.Get(id).live
    && Evolves(w0, base) && NoTurn(w0.trace, base.trace)
    && (r == base || (!ok && r == SetConnected(base, id, false)))
  }

  lemma DataOutcome(w0: World, w: World, id: Id, payload: string, handler: Script)
    requires Outcome(w0, w, w, id, true) && id in w0.vec && w.Get(id).connected && InTurnOf(w.trace, id)
    requires forall i: Id :: i in w0.queue ==> i in w0.vec
    requires forall i: Id :: i in w0.vec ==> i < |w0.socks|
    requires Gone(w.trace, id) ==> Opened(id) in SinceTurn(w.trace)
    ensures var r := TriggerEvent(w, Data(id, payload), handler); Outcome(w0, r, r, id, true)
  {
    hide Allowed, InTurnOf, SinceTurn, LinkedAt, Legal;
    var e := Data(id, payload);
    MayHear(w, id, payload);
    DataKeeps(w, e, handler);
    LogAfterEvolves(w0, w, e);
    var r := TriggerEvent(w, e, handler);
    EvolvesTransitive(w0, w.Log(e), r);
    NoTurnTransitive(w0.trace, w.Log(e).trace, r.trace);
    assert r.Get(id) == w.Get(id).(open := r.Get(id).open);
  }

  /** Data is delivered in the socket's own turn only, and to a socket already
      closed only if this very turn reported it opened. */
  lemma HandleDataKeeps(w0: World, w: World, id: Id, io: PulseIo)
    requires Outcome(w0, w, w, id, true) && id in w0.vec && InTurnOf(w.trace, id)
    requires forall i: Id :: i in w0.queue ==> i in w0.vec
    requires forall i: Id :: i in w0.vec ==> i < |w0.socks|
    requires Gone(w.trace, id) ==> Opened(id) in SinceTurn(w.trace)
    ensures var (r, ok) := HandleData(w, id, io);
            Outcome(w0, if ok then r else w, r, id, ok)
  {
    hide Inv, InTurnOf, SinceTurn, Evolves;
    if w.Get(id).connected && io.recv.Length() > 0 {
      DataOutcome(w0, w, id, CString(io.recv.bytes), io.onData);
    }
  }

  lemma ConnectionUnfolds(w: World, id: Id, io: PulseIo)
    requires w.Get(id).live && Benign(io.err)
    ensures HandleConnection(w, id, io).0 == RunCalls(SetConnected(w, id, true).Log(Opened(id)), io.onOpened.calls)
  {
  }

  /** onSockData: its own handler runs to completion. */
  lemma DataUnfolds(w: World, id: Id, io: PulseIo)
    requires w.Get(id).live && w.Get(id).connected && io.recv.Length() > 0
    ensures HandleData(w, id, io)
            == (RunCalls(w.Log(Data(id, CString(io.recv.bytes))), io.onData.calls), true)
  {
  }

  /** CSocket::DoPulse when the connection is being established. */
  lemma OpenedOutcome(w: World, id: Id, io: PulseIo)
    requires Inv(w, {}) && id in w.vec && !w.Get(id).connected && InTurnOf(w.trace, id)
    requires Benign(io.err)
    ensures var r := HandleConnection(w, id, io).0;
            && Outcome(w, r, r, id, true) && InTurnOf(r.trace, id) && Opened(id) in SinceTurn(r.trace)
  {
    OpenedKeeps(w, id);
    ConnectionUnfolds(w, id, io);
    var w1 := SetConnected(w, id, true).Log(Opened(id));
    RunCallsKeeps(w1, io.onOpened.calls, {});
    var r := RunCalls(w1, io.onOpened.calls);
    EvolvesTransitive(w, w1, r);
    NoTurnTransitive(w.trace, w1.trace, r.trace);
    NoTurnSameTurn(w.trace, r.trace);
    assert r.trace[|w.trace|] == Opened(id);
    assert Opened(id) in r.trace[|w.trace|..];
    assert r.Get(id) == w1.Get(id).(open := r.Get(id).open);
  }

  lemma StartOutcome(w: World, id: Id)
    requires Inv(w, {}) && id in w.vec && SinceTurn(w.trace) == [Pulsed(id)]
    ensures Outcome(w, w, w, id, true) && w.Get(id).live && w.Get(id).open
    ensures InTurnOf(w.trace, id) && !Gone(w.trace, id)
  {
    assert LinkedAt(w, id);
    GrowsReflexive(w);
  }

  /** CSocket::DoPulse while the connection is not established and select() has
      found the socket writable. */
  lemma ConnectingKeeps(w: World, id: Id, io: PulseIo) returns (base: World)
    requires Inv(w, {}) && id in w.vec && !w.Get(id).connected
    requires Outcome(w, w, w, id, true) && InTurnOf(w.trace, id) && !Gone(w.trace, id)
    requires Benign(io.err) || io.err == ERR_NOT_CONNECTED
    ensures var (r, ok) := HandleData(HandleConnection(w, id, io).0, id, io); Outcome(w, base, r, id, ok)
  {
    var w2 := HandleConnection(w, id, io).0;
    if Benign(io.err) {
      OpenedOutcome(w, id, io);
    }
    HandleDataKeeps(w, w2, id, io);
    base := if HandleData(w2, id, io).1 then HandleData(w2, id, io).0 else w2;
  }

  /** CSocket::DoPulse on the front socket of a turn that has just begun. */
  lemma SocketPulseKeeps(w: World, id: Id, io: PulseIo) returns (base: World)
    requires Inv(w, {}) && id in w.vec && SinceTurn(w.trace) == [Pulsed(id)]
    ensures var (r, ok) := SocketPulse(w, id, io); Outcome(w, base, r, id, ok)
  {
    StartOutcome(w, id);
    base := w;
    if w.Get(id).connected {
      HandleDataKeeps(w, w, id, io);
      base := if HandleData(w, id, io).1 then HandleData(w, id, io).0 else w;
    } else if io.select != 0 && io.select != -1 && (Benign(io.err) || io.err == ERR_NOT_CONNECTED) {
      base := ConnectingKeeps(w, id, io);
    }
  }

  /** SocketRemove on a socket its own handler has already removed: no event,
      and it is still on deleteList once. */
  lemma RemoveAgainKeeps(w: World, id: Id, onClosed: Script)
    requires Inv(w, {}) && id !in w.vec && w.Get(id).live
    ensures var r := SocketRemove(w, id, onClosed);
            && r == w.(del := Without(w.del, id) + [id]) && Inv(r, {})
  {
    var r := SocketRemove(w, id, onClosed);
    WithoutIsKeep(w.del, id);
    assert r == w.(del := Without(w.del, id) + [id]);
    assert forall i: Id :: r.Get(i) == w.Get(i);
    SameLinks(w, r);
  }

  /** A whole turn. The rest of the queue loses exactly the sockets that the
      handlers have removed. */
  lemma TurnKeeps(w: World, io: PulseIo)
    requires Inv(w, {}) && w.queue != []
    ensures var r := Turn(w, io);
            && Inv(r, {}) && Evolves(w.(queue := w.queue[1..]), r)
            && NoTurn(StartTurn(w).trace, r.trace)
  {
    var id := w.queue[0];
    var w0 := w.(queue := w.queue[1..]);
    var w1 := StartTurn(w);
    StartTurnKeeps(w);
    var base := SocketPulseKeeps(w1, id, io);
    var (w2, ok) := SocketPulse(w1, id, io);
    var r := Turn(w, io);
    if !ok {
      FailedTurnKeeps(w1, base, w2, id, io.onClosed);
    }
    EvolvesTransitive(w0, w1, r);
  }

  lemma FailedTurnKeeps(w1: World, base: World, w2: World, id: Id, onClosed: Script)
    requires Outcome(w1, base, w2, id, false) && Safe(w1, {})
    ensures var r := SocketRemove(w2, id, onClosed);
            Inv(r, {}) && Evolves(w1, r) && NoTurn(w1.trace, r.trace) && id !in r.vec && id in r.del
  {
    var r := SocketRemove(w2, id, onClosed);
    if id in base.vec {
      SocketRemoveKeeps(base, w2, id, onClosed, {});
      EvolvesTransitive(w1, base, r);
      NoTurnTransitive(w1.trace, base.trace, r.trace);
    } else {
      if w2 != base {
        SetConnectedKeeps(base, id);
      }
      RemoveAgainKeeps(w2, id, onClosed);
    }
  }
}
