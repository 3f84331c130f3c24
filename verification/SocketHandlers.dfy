/** Every call a Lua handler can make keeps the invariant and only grows the
    module, by induction over the tree of nested handlers. */
module SocketHandlers {
  import opened Lists
  import opened SocketSpec
  import opened SocketInvariant

  // ----------------------------------------------------------- single steps

  /** A search over live sockets touches nothing dead and finds the first match. */
  lemma {:induction false} ScanFinds(w: World, k: Key, i: nat, held: set<Id>)
    requires Safe(w, held)
    ensures Scan(w, k, i).0 == w
    ensures match Scan(w, k, i).1
            case Nothing => forall j :: i <= j < |w.vec| ==> !Matches(w.Get(w.vec[j]), k)
            case Found(id) => exists j :: i <= j < |w.vec| && w.vec[j] == id && Matches(w.Get(id), k) &&
                                forall l :: i <= l < j ==> !Matches(w.Get(w.vec[l]), k)
    decreases |w.vec| - i
  {
    if i < |w.vec| {
      assert w.vec[i] in w.vec;
      ScanFinds(w, k, i + 1, held);
    }
  }

  /** The first position in vecSockets whose socket has this userdata. */
  ghost predicate FirstWith(w: World, userdata: int, i: nat) {
    i < |w.vec| && w.Get(w.vec[i]).userdata == userdata &&
    forall j :: 0 <= j < i ==> w.Get(w.vec[j]).userdata != userdata
  }

  /** GetSocket answers the socket there, for every userdata but the null pointer. */
  lemma GetSocketAnswers(w: World, userdata: int, held: set<Id>)
    requires Safe(w, held)
    ensures GetSocket(w, userdata).0 == w
    ensures forall id :: GetSocket(w, userdata).1 == Found(id) <==>
                         userdata != 0 && exists i: nat :: FirstWith(w, userdata, i) && w.vec[i] == id
    ensures GetSocket(w, userdata).1 == Nothing <==>
            userdata == 0 || forall i :: 0 <= i < |w.vec| ==> w.Get(w.vec[i]).userdata != userdata
  {
    if userdata != 0 {
      ScanFinds(w, ByUserdata(userdata), 0, held);
      match Scan(w, ByUserdata(userdata), 0).1
      case Nothing =>
        assert forall j :: 0 <= j < |w.vec| ==> w.Get(w.vec[j]).userdata != userdata;
      case Found(id) =>
        var i :| 0 <= i < |w.vec| && w.vec[i] == id && Matches(w.Get(id), ByUserdata(userdata)) &&
                 forall l :: 0 <= l < i ==> !Matches(w.Get(w.vec[l]), ByUserdata(userdata));
        assert FirstWith(w, userdata, i);
        forall k: nat | FirstWith(w, userdata, k) ensures k == i {
          assert !(k < i) && !(i < k);
        }
    }
  }

  /** Membership in a history with one more entry. */
  lemma LoggedIn(t: seq<Entry>, e: Entry)
    ensures forall x :: x in t + [e] <==> x in t || x == e
  {
  }

  /** Linked does not look at the other containers. */
  lemma SameLinks(w: World, r: World)
    requires Linked(w) && r.vec == w.vec && r.socks == w.socks && r.trace == w.trace
    ensures Linked(r)
  {
    forall i: Id ensures LinkedAt(r, i) {
      assert LinkedAt(w, i);
    }
  }

  lemma LogLinkedAt(w: World, e: Entry, i: Id)
    requires LinkedAt(w, i) && (e.Sent? || e.Pulsed? || e.Data?)
    ensures LinkedAt(w.Log(e), i)
  {
    LoggedIn(w.trace, e);
  }

  /** Entries that change no state keep the history linked. */
  lemma LogLinked(w: World, e: Entry)
    requires Linked(w) && Allowed(w.trace, e) && (e.Sent? || e.Pulsed? || e.Data?) && e.id < |w.socks|
    ensures Linked(w.Log(e))
  {
    LegalSnoc(w.trace, e);
    forall i: Id ensures LinkedAt(w.Log(e), i) {
      LogLinkedAt(w, e, i);
    }
  }

  lemma LogGrows(w: World, e: Entry)
    requires forall id: Id :: id in w.queue ==> id in w.vec
    requires !e.Pulsed? && !e.Opened? && !e.Data? && e.id in w.vec
    ensures Grows(w, w.Log(e))
  {
    GrowsReflexive(w);
  }

  /** w1 is w0 after `id` has left vecSockets and processQueue and been closed. */
  ghost predicate Detached(w0: World, w1: World, id: Id) {
    && id < |w0.socks| == |w1.socks|
    && w1.vec == Without(w0.vec, id) && w1.queue == Without(w0.queue, id) && w1.del == w0.del
    && (forall i: Id :: i != id ==> w1.Get(i) == w0.Get(i))
    && w1.Get(id) == w0.Get(id).(open := false, connected := w1.Get(id).connected)
    && (w1.Get(id).connected ==> w0.Get(id).connected)
    && w1.count - w1.closeErrors == w0.count - w0.closeErrors - 1 && w1.count <= w0.count
    && w1.faulted == w0.faulted
  }

  lemma DetachedSafe(w0: World, w1: World, id: Id, held: set<Id>)
    requires Safe(w0, held) && id in w0.vec && Detached(w0, w1, id)
    ensures Safe(w1, held + {id})
  {
    WithoutIsKeep(w0.vec, id);
    WithoutIsKeep(w0.queue, id);
  }

  lemma LinkedAtStep(w0: World, w1: World, id: Id, e: Entry, i: Id)
    requires LinkedAt(w0, i) && LinkedAt(w0, id) && id in w0.vec && Detached(w0, w1, id)
    requires NoDup(w0.vec) && w0.Get(id).live
    requires e == Closed(id) || e == Silenced(id)
    requires w1.trace == w0.trace + [e]
    ensures LinkedAt(w1, i)
  {
    WithoutIsKeep(w0.vec, id);
    LoggedIn(w0.trace, e);
  }

  lemma DetachedLinked(w0: World, w1: World, id: Id, e: Entry)
    requires Linked(w0) && NoDup(w0.vec) && id in w0.vec && w0.Get(id).live && Detached(w0, w1, id)
    requires e == Closed(id) || e == Silenced(id)
    requires w1.trace == w0.trace + [e]
    ensures Linked(w1)
  {
    assert LinkedAt(w0, id);
    LegalSnoc(w0.trace, e);
    WithoutIsKeep(w0.vec, id);
    forall i: Id ensures LinkedAt(w1, i) {
      LinkedAtStep(w0, w1, id, e, i);
    }
  }

  lemma ShutKeeps(w0: World, w: World, id: Id, held: set<Id>, e: Entry)
    requires Inv(w0, held) && id in w0.vec
    requires w == w0 || w == SetConnected(w0, id, false)
    requires e == Closed(id) || e == Silenced(id)
    ensures w.Get(id).open && Detached(w0, Shut(w, id).Log(e), id)
    ensures Shut(w, id).trace == w.trace == w0.trace
    ensures Inv(Shut(w, id).Log(e), held + {id})
  {
    var w1 := Shut(w, id).Log(e);
    assert w0.Get(id).live && w0.Get(id).open;
    assert Detached(w0, w1, id);
    DetachedSafe(w0, w1, id, held);
    DetachedLinked(w0, w1, id, e);
    assert Counted(w1);
  }

  lemma DetachedGrows(w0: World, w1: World, id: Id, e: Entry, held: set<Id>)
    requires Safe(w0, held) && id in w0.vec && Detached(w0, w1, id)
    requires e == Closed(id) || e == Silenced(id)
    requires w1.trace == w0.trace + [e]
    ensures Evolves(w0, w1) && NoTurn(w0.trace, w1.trace)
    ensures w1.Get(id).connected == w0.Get(id).connected ==> Grows(w0, w1)
  {
    WithoutIsKeep(w0.vec, id);
    WithoutIsKeep(w0.queue, id);
    KeepAgree(w0.vec, Elems(w0.vec) - {id}, Elems(w1.vec));
    KeepAgree(w0.queue, Elems(w0.queue) - {id}, Elems(w1.vec));
  }

  lemma DeferSafe(w: World, r: World, id: Id, held: set<Id>)
    requires Safe(w, held + {id}) && id !in held && r == w.(del := w.del + [id])
    ensures Safe(r, held)
  {
    assert Elems(r.del) == Elems(w.del) + {id};
    forall i: Id ensures r.Get(i).live <==> i in r.vec || i in r.del || i in held {
      assert r.Get(i) == w.Get(i);
    }
  }

  lemma DeferKeeps(w: World, id: Id, held: set<Id>)
    requires Inv(w, held + {id}) && id !in held
    ensures Inv(Defer(w, id), held) && Grows(w, Defer(w, id))
  {
    assert Defer(w, id) == w.(del := w.del + [id]);
    DeferSafe(w, Defer(w, id), id, held);
    GrowsReflexive(w);
    SameLinks(w, Defer(w, id));
  }

  lemma SilentRemoveKeeps(w: World, id: Id, held: set<Id>)
    requires Inv(w, held) && id in w.vec && id !in held
    ensures var r := SilentRemove(w, id);
            && Inv(r, held) && Grows(w, r)
            && r.del == w.del + [id] && r.trace == w.trace + [Silenced(id)]
            && r.vec == Keep(w.vec, Elems(w.vec) - {id})
            && r.queue == Keep(w.queue, Elems(w.queue) - {id})
            && !r.Get(id).open
  {
    var w1 := Shut(w, id).Log(Silenced(id));
    ShutKeeps(w, w, id, held, Silenced(id));
    DetachedGrows(w, w1, id, Silenced(id), held);
    DeferKeeps(w1, id, held);
    GrowsTransitive(w, w1, Defer(w1, id));
    WithoutIsKeep(w.vec, id);
    WithoutIsKeep(w.queue, id);
  }

  lemma LogHaltKeeps(w: World, vm: int, held: set<Id>)
    requires Inv(w, held)
    ensures Inv(w.LogHalt(vm), held) && Grows(w, w.LogHalt(vm))
  {
    assert forall i: Id :: w.LogHalt(vm).Get(i) == w.Get(i);
    GrowsReflexive(w);
    SameLinks(w, w.LogHalt(vm));
  }

  /** ResourceStopped keeps the invariant, whatever frames are in flight. */
  lemma {:induction false} ResourceStoppedKeeps(w: World, vm: int, held: set<Id>)
    requires Inv(w, held)
    ensures Inv(ResourceStopped(w, vm), held) && Grows(w, ResourceStopped(w, vm))
    decreases |w.vec|
  {
    ScanFinds(w, ByVm(vm), 0, held);
    var (w1, found) := Scan(w, ByVm(vm), 0);
    if found.Nothing? {
      LogHaltKeeps(w, vm, held);
    } else {
      SilentRemoveKeeps(w, found.id, held);
      var r := SilentRemove(w, found.id);
      ResourceStoppedKeeps(r, vm, held);
      GrowsTransitive(w, r, ResourceStopped(r, vm));
    }
  }

  // ------------------------------------------------------------------ opens

  /** The object was constructed and deleted again: it leaves no descriptor
      behind, unless close() failed on it. */
  ghost predicate Aborted(w: World, r: World) {
    && |r.socks| == |w.socks| + 1
    && r == w.(socks := w.socks + [r.Get(|w.socks|)], trace := w.trace + [Freed(|w.socks|)],
               count := r.count, closeErrors := r.closeErrors)
    && r.count - w.count == r.closeErrors - w.closeErrors && w.count <= r.count <= w.count + 1
    && !r.Get(|w.socks|).live && !r.Get(|w.socks|).open && !r.Get(|w.socks|).connected
  }

  /** Opening has three outcomes: refused at the cap, constructed and deleted
      again, or added at the back of vecSockets. */
  lemma SockOpenOutcome(w: World, vm: int, io: OpenIo)
    ensures var r := SockOpen(w, vm, io);
            if w.count >= MAX_OPEN_SOCKETS then r == w
            else if io.resolves && io.fd != ERR_INVALID_SOCKET && io.Connecting() && io.userdata != 0 then
              r == w.(socks := w.socks + [Sock(vm, io.userdata, true, false, true, io.closeFails)],
                      trace := w.trace + [Added(|w.socks|)], vec := w.vec + [|w.socks|], count := w.count + 1)
            else Aborted(w, r)
  {
    if w.count < MAX_OPEN_SOCKETS {
      var id := |w.socks|;
      var w1 := Construct(w, vm, io);
      assert w1.socks == w.socks + [w1.Get(id)];
      if w1.Get(id).userdata == 0 {
        assert Delete(w1, id).socks == w.socks + [Delete(w1, id).Get(id)];
      }
    }
  }

  lemma SockOpenKeeps(w: World, vm: int, io: OpenIo, held: set<Id>)
    requires Inv(w, held)
    ensures Inv(SockOpen(w, vm, io), held) && Grows(w, SockOpen(w, vm, io))
  {
    var r := SockOpen(w, vm, io);
    SockOpenOutcome(w, vm, io);
    GrowsReflexive(w);
    if w.count < MAX_OPEN_SOCKETS {
      var e := if r.Get(|w.socks|).live then Added(|w.socks|) else Freed(|w.socks|);
      NewSocketSafe(w, r, held);
      NewSocketLinked(w, r, e);
      NewSocketGrows(w, r, e, held);
    }
  }

  /** r is w with one more object, either on vecSockets or already deleted. */
  ghost predicate NewSocket(w: World, r: World) {
    var id := |w.socks|;
    && |r.socks| == id + 1 && (forall i: Id :: i < id ==> r.Get(i) == w.Get(i))
    && r.queue == w.queue && r.del == w.del && r.faulted == w.faulted && !r.Get(id).connected
    && (if r.Get(id).live then r.vec == w.vec + [id] && r.Get(id).open
        else r.vec == w.vec && !r.Get(id).open)
  }

  lemma NewSocketSafe(w: World, r: World, held: set<Id>)
    requires Safe(w, held) && NewSocket(w, r)
    ensures Safe(r, held)
  {
    var id := |w.socks|;
    assert !w.Get(id).live;
  }

  lemma NewSocketLinkedAt(w: World, r: World, e: Entry, i: Id)
    requires Linked(w) && NewSocket(w, r) && r.trace == w.trace + [e]
    requires e == if r.Get(|w.socks|).live then Added(|w.socks|) else Freed(|w.socks|)
    ensures LinkedAt(r, i)
  {
    assert LinkedAt(w, i);
    LoggedIn(w.trace, e);
  }

  lemma NewSocketLinked(w: World, r: World, e: Entry)
    requires Linked(w) && NewSocket(w, r) && r.trace == w.trace + [e]
    requires e == if r.Get(|w.socks|).live then Added(|w.socks|) else Freed(|w.socks|)
    ensures Linked(r)
  {
    LegalSnoc(w.trace, e);
    forall i: Id ensures LinkedAt(r, i) {
      NewSocketLinkedAt(w, r, e, i);
    }
  }

  lemma NewSocketGrows(w: World, r: World, e: Entry, held: set<Id>)
    requires Safe(w, held) && NewSocket(w, r) && r.trace == w.trace + [e] && e.id == |w.socks|
    requires e.Added? || e.Freed?
    ensures Grows(w, r)
  {
    KeepAll(w.vec, Elems(r.vec));
    KeepAll(w.queue, Elems(r.vec));
  }

  lemma SockWriteKeeps(w: World, userdata: int, held: set<Id>)
    requires Inv(w, held)
    ensures Inv(SockWrite(w, userdata), held) && Grows(w, SockWrite(w, userdata))
  {
    ScanFinds(w, ByUserdata(userdata), 0, held);
    var found := GetSocket(w, userdata).1;
    if found.Nothing? {
      GrowsReflexive(w);
    } else {
      assert SockWrite(w, userdata) == w.Log(Sent(found.id));
      assert LinkedAt(w, found.id);
      LogLinked(w, Sent(found.id));
      LogGrows(w, Sent(found.id));
    }
  }

  // -------------------------------------------------------- nested handlers

  lemma RemoveUnfolds(w: World, id: Id, onClosed: Script)
    requires w.Get(id).live && w.Get(id).open
    ensures SocketRemove(w, id, onClosed) == Defer(RunCalls(Shut(w, id).Log(Closed(id)), onClosed.calls), id)
  {
    assert Shut(w, id).Touch(id) == Shut(w, id);
  }

  /** SocketRemove on a socket still in vecSockets. Its onSockClosed handler
      runs while the socket is on no list at all. */
  lemma {:induction false} SocketRemoveKeeps(w0: World, w: World, id: Id, onClosed: Script, held: set<Id>)
    requires Inv(w0, held) && id in w0.vec && id !in held
    requires w == w0 || w == SetConnected(w0, id, false)
    ensures var r := SocketRemove(w, id, onClosed);
            && Inv(r, held) && id in r.del && id !in r.vec
            && Evolves(w0, r) && NoTurn(w0.trace, r.trace) && (w == w0 ==> Grows(w0, r))
    decreases onClosed, 2
  {
    var w1 := Shut(w, id).Log(Closed(id));
    ShutKeeps(w0, w, id, held, Closed(id));
    RemoveUnfolds(w, id, onClosed);
    ClosedHandlerKeeps(w1, id, onClosed, held);
    DetachedGrows(w0, w1, id, Closed(id), held);
    EvolvesTransitive(w0, w1, SocketRemove(w, id, onClosed));
    NoTurnTransitive(w0.trace, w1.trace, SocketRemove(w, id, onClosed).trace);
    if w == w0 {
      GrowsTransitive(w, w1, SocketRemove(w, id, onClosed));
    }
  }

  /** The onSockClosed handler, and the end of SocketRemove. */
  lemma {:induction false} ClosedHandlerKeeps(w: World, id: Id, onClosed: Script, held: set<Id>)
    requires Inv(w, held + {id}) && id !in held
    ensures var r := Defer(RunCalls(w, onClosed.calls), id);
            Inv(r, held) && id in r.del && id !in r.vec && Grows(w, r)
    decreases onClosed, 1
  {
    RunCallsKeeps(w, onClosed.calls, held + {id});
    var w1 := RunCalls(w, onClosed.calls);
    DeferKeeps(w1, id, held);
    GrowsTransitive(w, w1, Defer(w1, id));
  }

  lemma {:induction false} RunCallsKeeps(w: World, calls: seq<Call>, held: set<Id>)
    requires Inv(w, held)
    ensures Inv(RunCalls(w, calls), held) && Grows(w, RunCalls(w, calls))
    decreases calls, 0
  {
    if calls == [] {
      GrowsReflexive(w);
    } else {
      RunCallKeeps(w, calls[0], held);
      var w1 := RunCall(w, calls[0]);
      RunCallsKeeps(w1, calls[1..], held);
      GrowsTransitive(w, w1, RunCalls(w1, calls[1..]));
    }
  }

  lemma {:induction false} RunCallKeeps(w: World, c: Call, held: set<Id>)
    requires Inv(w, held)
    ensures Inv(RunCall(w, c), held) && Grows(w, RunCall(w, c))
    decreases c, 0
  {
    match c
    case Open(vm, io) => SockOpenKeeps(w, vm, io, held);
    case Write(userdata) => SockWriteKeeps(w, userdata, held);
    case StopResource(vm) => ResourceStoppedKeeps(w, vm, held);
    case Close(userdata, onClosed) =>
      ScanFinds(w, ByUserdata(userdata), 0, held);
      var (w1, found) := GetSocket(w, userdata);
      if found.Nothing? {
        GrowsReflexive(w);
      } else {
        SocketRemoveKeeps(w, w, found.id, onClosed, held);
      }
  }
}
