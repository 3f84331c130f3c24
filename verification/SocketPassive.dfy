/** What a pulse does when no handler calls back into the module: a filter of
    vecSockets by what the operating system says about each socket alone. */
module SocketPassive {
  import opened Lists
  import opened Text
  import opened SocketSpec
  import opened SocketInvariant
  import opened SocketHandlers
  import opened SocketTurns
  import opened SocketRuns
  import opened SocketTheorems

  predicate Passive(io: PulseIo) {
    io.onOpened.calls == [] && io.onData.calls == [] && io.onClosed.calls == []
  }

  /** recv() has brought data, or has nothing to report yet. */
  predicate Healthy(io: PulseIo) {
    io.recv.Length() > 0 || (Benign(io.err) && io.recv.Failed?)
  }

  /** The socket becomes connected in this turn. */
  predicate Opens(s: Sock, io: PulseIo) {
    !s.connected && io.select != 0 && io.select != -1 && Benign(io.err)
  }

  /** The socket is still there after its turn. */
  predicate Survives(s: Sock, io: PulseIo) {
    if s.connected || Opens(s, io) then Healthy(io)
    else io.select == 0 || (io.select != -1 && io.err == ERR_NOT_CONNECTED)
  }

  /** What the turn adds to the history. */
  function TurnEntries(id: Id, s: Sock, io: PulseIo): seq<Entry> {
    [Pulsed(id)]
    + (if Opens(s, io) then [Opened(id)] else [])
    + (if (s.connected || Opens(s, io)) && io.recv.Length() > 0 then [Data(id, CString(io.recv.bytes))] else [])
    + (if Survives(s, io) then [] else [Closed(id)])
  }

  lemma PassiveEvent(w: World, e: Entry, handler: Script)
    requires handler.calls == [] && w.Get(e.id).live
    ensures TriggerEvent(w, e, handler) == w.Log(e)
  {
  }

  lemma PassiveData(w: World, id: Id, io: PulseIo)
    requires w.Get(id).live && w.Get(id).connected && Passive(io)
    ensures var (r, ok) := HandleData(w, id, io);
            && ok == Healthy(io)
            && (ok ==> r == w.(trace := r.trace)) && (!ok ==> r == SetConnected(w, id, false))
            && r.trace == w.trace + (if io.recv.Length() > 0 then [Data(id, CString(io.recv.bytes))] else [])
  {
    if io.recv.Length() > 0 {
      PassiveEvent(w, Data(id, CString(io.recv.bytes)), io.onData);
    } else {
      assert w.trace + [] == w.trace;
    }
  }

  /** r differs from w in the front socket's connection and in the history only. */
  ghost predicate OnlyTurned(w: World, r: World, id: Id) {
    && r.vec == w.vec && r.queue == w.queue && r.del == w.del
    && r.Get(id).open && r.Get(id).live && (forall i: Id :: i != id ==> r.Get(i) == w.Get(i))
  }

  lemma PassiveSocketPulse(w: World, id: Id, io: PulseIo)
    requires w.Get(id).live && w.Get(id).open && Passive(io)
    ensures var (r, ok) := SocketPulse(w, id, io);
            && ok == Survives(w.Get(id), io) && OnlyTurned(w, r, id)
            && r.trace + (if ok then [] else [Closed(id)])
               == w.trace + TurnEntries(id, w.Get(id), io)[1..]
  {
    var s := w.Get(id);
    if s.connected {
      PassiveData(w, id, io);
    } else if Opens(s, io) {
      var w1 := SetConnected(w, id, true).Log(Opened(id));
      PassiveEvent(SetConnected(w, id, true), Opened(id), io.onOpened);
      PassiveData(w1, id, io);
    }
  }

  /** One turn with passive handlers. */
  lemma PassiveTurn(w: World, io: PulseIo)
    requires Inv(w, {}) && w.queue != [] && Passive(io)
    ensures var r := Turn(w, io);
            var id := w.queue[0];
            && r.trace == w.trace + TurnEntries(id, w.Get(id), io)
            && r.queue == w.queue[1..] && (forall i: Id :: i != id ==> r.Get(i) == w.Get(i))
            && (if Survives(w.Get(id), io) then r.vec == w.vec && r.del == w.del
                else r.vec == Without(w.vec, id) && r.del == w.del + [id])
  {
    var id := w.queue[0];
    var w1 := StartTurn(w);
    assert id in w.vec && w.Get(id).live && w.Get(id).open;
    assert id !in w.del by {
      assert id in Elems(w.vec);
    }
    PassiveSocketPulse(w1, id, io);
    var (w2, ok) := SocketPulse(w1, id, io);
    var entries := TurnEntries(id, w.Get(id), io);
    assert w1.Get(id) == w.Get(id) && w1.trace + entries[1..] == w.trace + entries;
    if ok {
      assert w2.trace + [] == w2.trace;
    } else {
      PassiveRemove(w2, id, io.onClosed);
      assert id !in w.queue[1..];
    }
  }

  lemma PassiveRemove(w: World, id: Id, onClosed: Script)
    requires w.Get(id).live && w.Get(id).open && onClosed.calls == []
    requires id !in w.queue && id !in w.del
    ensures var r := SocketRemove(w, id, onClosed);
            && r.vec == Without(w.vec, id) && r.queue == w.queue && r.del == w.del + [id]
            && r.trace == w.trace + [Closed(id)]
            && forall i: Id :: i != id ==> r.Get(i) == w.Get(i)
  {
    RemoveUnfolds(w, id, onClosed);
  }

  /** The sockets of q, pulsed from turn n on, that do not survive. */
  function Failing(w: World, q: seq<Id>, ios: nat -> PulseIo, n: nat): (r: seq<Id>)
    ensures forall id: Id :: id in r ==> id in q
  {
    if q == [] then []
    else (if Survives(w.Get(q[0]), ios(n)) then [] else [q[0]]) + Failing(w, q[1..], ios, n + 1)
  }

  function AllEntries(w: World, q: seq<Id>, ios: nat -> PulseIo, n: nat): seq<Entry> {
    if q == [] then []
    else TurnEntries(q[0], w.Get(q[0]), ios(n)) + AllEntries(w, q[1..], ios, n + 1)
  }

  lemma {:induction false} SameOutlook(w: World, w1: World, q: seq<Id>, ios: nat -> PulseIo, n: nat)
    requires forall id: Id :: id in q ==> w1.Get(id) == w.Get(id)
    ensures Failing(w1, q, ios, n) == Failing(w, q, ios, n)
    ensures AllEntries(w1, q, ios, n) == AllEntries(w, q, ios, n)
  {
    if q != [] {
      SameOutlook(w, w1, q[1..], ios, n + 1);
    }
  }

  lemma {:induction false} PassiveTurns(w: World, ios: nat -> PulseIo, n: nat)
    requires Inv(w, {}) && forall k: nat :: Passive(ios(k))
    ensures var r := Turns(w, ios, n);
            var failing := Failing(w, w.queue, ios, n);
            && r.trace == w.trace + AllEntries(w, w.queue, ios, n)
            && r.vec == Keep(w.vec, Elems(w.vec) - Elems(failing))
            && r.del == w.del + failing
    decreases |w.queue|
  {
    hide Linked, Counted, Evolves, Turn, TurnEntries, Survives, Without, Keep;
    if w.queue == [] {
      KeepAll(w.vec, Elems(w.vec) - Elems([]));
    } else {
      var id := w.queue[0];
      var w1 := Turn(w, ios(n));
      PassiveTurn(w, ios(n));
      TurnKeeps(w, ios(n));
      SameOutlook(w, w1, w.queue[1..], ios, n + 1);
      PassiveTurns(w1, ios, n + 1);
      JoinTurns(w, w1, Turns(w1, ios, n + 1), ios, n);
    }
  }

  lemma JoinTurns(w: World, w1: World, r: World, ios: nat -> PulseIo, n: nat)
    requires w.queue != [] && NoDup(w.vec)
    requires w1.trace == w.trace + TurnEntries(w.queue[0], w.Get(w.queue[0]), ios(n))
    requires if Survives(w.Get(w.queue[0]), ios(n)) then w1.vec == w.vec && w1.del == w.del
             else w1.vec == Without(w.vec, w.queue[0]) && w1.del == w.del + [w.queue[0]]
    requires var later := Failing(w, w.queue[1..], ios, n + 1);
             && r.trace == w1.trace + AllEntries(w, w.queue[1..], ios, n + 1)
             && r.vec == Keep(w1.vec, Elems(w1.vec) - Elems(later)) && r.del == w1.del + later
    ensures var failing := Failing(w, w.queue, ios, n);
            && r.trace == w.trace + AllEntries(w, w.queue, ios, n)
            && r.vec == Keep(w.vec, Elems(w.vec) - Elems(failing))
            && r.del == w.del + failing
  {
    var id := w.queue[0];
    var later := Failing(w, w.queue[1..], ios, n + 1);
    Assoc(w.trace, TurnEntries(id, w.Get(id), ios(n)), AllEntries(w, w.queue[1..], ios, n + 1));
    if !Survives(w.Get(id), ios(n)) {
      LosesOneMore(w.vec, w.del, id, later);
    } else {
      assert Failing(w, w.queue, ios, n) == later;
    }
  }

  lemma Assoc(t: seq<Entry>, a: seq<Entry>, b: seq<Entry>)
    ensures t + a + b == t + (a + b)
  {
  }

  lemma LosesOneMore(vec: seq<Id>, del: seq<Id>, id: Id, later: seq<Id>)
    requires NoDup(vec)
    ensures var rest := Without(vec, id);
            Keep(rest, Elems(rest) - Elems(later)) == Keep(vec, Elems(vec) - Elems([id] + later))
    ensures del + [id] + later == del + ([id] + later)
  {
    var rest := Without(vec, id);
    WithoutIsKeep(vec, id);
    assert Elems([id] + later) == {id} + Elems(later);
    KeepTwice(vec, Elems(vec) - {id}, Elems(rest) - Elems(later), Elems(vec) - Elems([id] + later));
  }

  /** A pulse with passive handlers: every socket has its turn in order; those
      that survive stay in vecSockets in order, and the others are reported
      closed and freed, after those already waiting. */
  lemma PassivePulse(w: World, ios: nat -> PulseIo)
    requires Inv(w, {}) && forall k: nat :: Passive(ios(k))
    ensures var r := DoPulse(w, ios);
            var failing := Failing(w, w.vec, ios, 0);
            && r.vec == Keep(w.vec, Elems(w.vec) - Elems(failing))
            && r.trace == w.trace + AllEntries(w, w.vec, ios, 0) + Frees(w.del + failing)
  {
    var w0 := w.(queue := w.vec);
    StartPulseKeeps(w);
    SameOutlook(w, w0, w.vec, ios, 0);
    PassiveTurns(w0, ios, 0);
    FlushFrees(Turns(w0, ios, 0));
  }

  lemma {:induction false} FlushFrees(w: World)
    ensures Flush(w).trace == w.trace + Frees(w.del)
    decreases |w.del|
  {
    if w.del == [] {
      assert Frees([]) == [];
    } else {
      FlushFrees(Delete(w.(del := w.del[1..]), w.del[0]));
      FreesCons(w.trace, w.del);
    }
  }

  lemma FreesCons(t: seq<Entry>, ids: seq<Id>)
    requires ids != []
    ensures t + [Freed(ids[0])] + Frees(ids[1..]) == t + Frees(ids)
  {
  }
}
