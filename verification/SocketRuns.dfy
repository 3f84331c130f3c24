/** What holds of every run of the module: any sequence of pulses, Lua code and
    resource stops, with any handlers and any answers of the operating system,
    and finally the shutdown. */
module SocketRuns {
  import opened Lists
  import opened SocketSpec
  import opened SocketInvariant
  import opened SocketHandlers
  import opened SocketTurns

  // ------------------------------------------------------------- pulse order

  /** The sockets whose turn came, in order. */
  function PulsedIds(t: seq<Entry>): (r: seq<Id>)
    ensures forall id: Id :: id in r <==> Pulsed(id) in t
  {
    if t == [] then []
    else (if t[0].Pulsed? then [t[0].id] else []) + PulsedIds(t[1..])
  }

  lemma {:induction false} PulsedIdsConcat(t: seq<Entry>, u: seq<Entry>)
    ensures PulsedIds(t + u) == PulsedIds(t) + PulsedIds(u)
  {
    if t == [] {
      assert t + u == u;
    } else {
      assert (t + u)[1..] == t[1..] + u;
      PulsedIdsConcat(t[1..], u);
    }
  }

  lemma {:induction false} NoPulsedIds(t: seq<Entry>)
    requires forall k :: 0 <= k < |t| ==> !t[k].Pulsed?
    ensures PulsedIds(t) == []
  {
    if t != [] {
      NoPulsedIds(t[1..]);
    }
  }

  /** One turn pulses one socket. */
  lemma TurnPulsesOne(w: World, r: World)
    requires w.queue != [] && NoTurn(StartTurn(w).trace, r.trace)
    ensures w.trace <= r.trace
    ensures PulsedIds(r.trace[|w.trace|..]) == [w.queue[0]]
  {
    var t := StartTurn(w).trace;
    assert t == w.trace + [Pulsed(w.queue[0])];
    assert r.trace[|w.trace|] == t[|w.trace|];
    var rest := r.trace[|w.trace|..][1..];
    assert forall k :: 0 <= k < |rest| ==> rest[k] == r.trace[|t| + k];
    NoPulsedIds(rest);
  }

  /** The order of turns, by induction over the pulse loop. */
  lemma {:induction false} TurnsKeep(w: World, ios: nat -> PulseIo, n: nat)
    requires Inv(w, {})
    ensures var r := Turns(w, ios, n);
            && Inv(r, {}) && Evolves(w.(queue := []), r)
            && var pulsed := PulsedIds(r.trace[|w.trace|..]);
            && pulsed == Keep(w.queue, Elems(pulsed))
            && forall id: Id :: id in w.queue && id !in pulsed ==> id !in r.vec
    decreases |w.queue|
  {
    hide Linked, Counted, Turn;
    var r := Turns(w, ios, n);
    if w.queue == [] {
      GrowsReflexive(w);
      assert w.trace[|w.trace|..] == [];
      assert w.(queue := []) == w;
    } else {
      TurnKeeps(w, ios(n));
      var w1 := Turn(w, ios(n));
      TurnPulsesOne(w, w1);
      TurnsKeep(w1, ios, n + 1);
      TurnsOrder(w, w1, r);
      QueueBlind(w, w1);
      EvolvesTransitive(w.(queue := []), w1.(queue := []), r);
    }
  }

  lemma QueueBlind(w: World, w1: World)
    requires w.queue != [] && Evolves(w.(queue := w.queue[1..]), w1)
    ensures Evolves(w.(queue := []), w1.(queue := []))
  {
    assert forall id: Id :: w.(queue := []).Get(id) == w.(queue := w.queue[1..]).Get(id);
    assert forall id: Id :: w1.(queue := []).Get(id) == w1.Get(id);
  }

  lemma TurnsOrder(w: World, w1: World, r: World)
    requires w.queue != [] && NoDup(w.queue)
    requires w.trace <= w1.trace <= r.trace
    requires w1.queue == Keep(w.queue[1..], Elems(w1.vec))
    requires PulsedIds(w1.trace[|w.trace|..]) == [w.queue[0]]
    requires var later := PulsedIds(r.trace[|w1.trace|..]);
             && later == Keep(w1.queue, Elems(later))
             && forall id: Id :: id in w1.queue && id !in later ==> id !in r.vec
    requires VecGrows(w1.vec, r.vec, |w1.socks|) && forall id: Id :: id in w.queue ==> id < |w1.socks|
    ensures var pulsed := PulsedIds(r.trace[|w.trace|..]);
            && pulsed == Keep(w.queue, Elems(pulsed))
            && forall id: Id :: id in w.queue && id !in pulsed ==> id !in r.vec
  {
    var id := w.queue[0];
    var rest := w.queue[1..];
    var later := PulsedIds(r.trace[|w1.trace|..]);
    var pulsed := PulsedIds(r.trace[|w.trace|..]);
    assert r.trace[|w.trace|..] == w1.trace[|w.trace|..] + r.trace[|w1.trace|..];
    PulsedIdsConcat(w1.trace[|w.trace|..], r.trace[|w1.trace|..]);
    assert pulsed == [id] + later;
    KeepTwice(rest, Elems(w1.vec), Elems(later), Elems(later));
    KeepAgree(rest, Elems(later), Elems(pulsed));
    forall i | i in w.queue && i !in pulsed ensures i !in r.vec {
      if i in r.vec {
        VecGrowsMember(w1.vec, r.vec, |w1.socks|, i);
      }
    }
  }

  // --------------------------------------------------------------- deletion

  lemma DeletedLinkedAt(w: World, id: Id, i: Id)
    requires LinkedAt(w, i) && w.Get(id).live && !w.Get(id).open
    ensures LinkedAt(Delete(w, id), i)
  {
    LoggedIn(w.trace, Freed(id));
  }

  lemma DeleteDeferredKeeps(w: World)
    requires Inv(w, {}) && w.del != []
    ensures var r := Delete(w.(del := w.del[1..]), w.del[0]);
            && Inv(r, {}) && r.trace == w.trace + [Freed(w.del[0])]
            && |r.socks| == |w.socks| && forall i: Id :: r.Get(i).vm == w.Get(i).vm
  {
    var id := w.del[0];
    var w0 := w.(del := w.del[1..]);
    var r := Delete(w0, id);
    assert id in w.del && w.Get(id).live;
    assert id in Elems(w.del) && id !in Elems(w.vec);
    DeleteDeferredSafe(w, r);
    SameLinks(w, w0);
    assert LinkedAt(w, id);
    LegalSnoc(w.trace, Freed(id));
    forall i: Id ensures LinkedAt(r, i) {
      assert LinkedAt(w0, i);
      DeletedLinkedAt(w0, id, i);
    }
  }

  lemma DeleteDeferredSafe(w: World, r: World)
    requires Safe(w, {}) && w.del != [] && r == Delete(w.(del := w.del[1..]), w.del[0])
    ensures Safe(r, {})
  {
    var id := w.del[0];
    assert Elems(w.del) == Elems(r.del) + {id};
    assert forall i: Id :: i != id ==> r.Get(i) == w.Get(i);
  }

  /** Cleaning up deleteList frees its sockets and changes nothing else. */
  lemma {:induction false} FlushKeeps(w: World)
    requires Inv(w, {})
    ensures var r := Flush(w);
            && Inv(r, {}) && w.trace <= r.trace
            && (forall k :: |w.trace| <= k < |r.trace| ==> r.trace[k].Freed?)
            && |r.socks| == |w.socks| && forall i: Id :: r.Get(i).vm == w.Get(i).vm
    decreases |w.del|
  {
    if w.del != [] {
      DeleteDeferredKeeps(w);
      FlushKeeps(Delete(w.(del := w.del[1..]), w.del[0]));
    }
  }

  // ----------------------------------------------------------------- a step

  /** How one operation changes the module, seen between operations. */
  ghost predicate StepGrows(w: World, r: World) {
    && |w.socks| <= |r.socks|
    && (forall id: Id :: id < |w.socks| ==> r.Get(id).vm == w.Get(id).vm)
    && VecGrows(w.vec, r.vec, |w.socks|)
    && w.trace <= r.trace
    && (forall k :: |w.trace| <= k < |r.trace| ==>
          r.trace[k].Freed? || r.trace[k].id in w.vec || r.trace[k].id >= |w.socks|)
  }

  lemma StartPulseKeeps(w: World)
    requires Inv(w, {})
    ensures Inv(w.(queue := w.vec), {})
  {
    var w0 := w.(queue := w.vec);
    assert forall i: Id :: w0.Get(i) == w.Get(i);
    SameLinks(w, w0);
  }

  /** A pulse ends with nothing left to delete: the live sockets are exactly
      those in vecSockets. Turns follow the order of vecSockets, one at most for
      each socket, and none for sockets added meanwhile; a socket without a turn
      has been removed. */
  lemma PulseKeeps(w: World, ios: nat -> PulseIo)
    requires Inv(w, {})
    ensures var r := DoPulse(w, ios);
            && Inv(r, {}) && StepGrows(w, r)
            && (forall id: Id :: r.Get(id).live <==> id in r.vec)
            && var pulsed := PulsedIds(r.trace[|w.trace|..]);
            && pulsed == Keep(w.vec, Elems(pulsed)) && NoDup(pulsed)
            && forall id: Id :: id in w.vec && id !in pulsed ==> id !in r.vec && Gone(r.trace, id)
  {
    hide Counted, Legal, VecGrows, StepGrows, PulsedIds, Keep, Turns, Flush;
    var w0 := w.(queue := w.vec);
    StartPulseKeeps(w);
    TurnsKeep(w0, ios, 0);
    var w1 := Turns(w0, ios, 0);
    FlushKeeps(w1);
    var r := Flush(w1);
    FlushPulsesNone(w.trace, w1.trace, r.trace);
    KeepNoDup(w.vec, Elems(PulsedIds(r.trace[|w.trace|..])));
    forall id: Id | id in w.vec && id !in r.vec ensures Gone(r.trace, id) {
      assert LinkedAt(w, id) && LinkedAt(r, id);
    }
    StepGrowsAfter(w, w1, r);
  }

  lemma FlushPulsesNone(t: seq<Entry>, t1: seq<Entry>, t2: seq<Entry>)
    requires t <= t1 <= t2 && forall k :: |t1| <= k < |t2| ==> t2[k].Freed?
    ensures PulsedIds(t2[|t|..]) == PulsedIds(t1[|t|..])
  {
    var flushed := t2[|t1|..];
    assert forall k :: 0 <= k < |flushed| ==> flushed[k] == t2[|t1| + k];
    NoPulsedIds(flushed);
    assert t2[|t|..] == t1[|t|..] + flushed;
    PulsedIdsConcat(t1[|t|..], flushed);
  }

  lemma StepGrowsAfter(w: World, w1: World, r: World)
    requires Evolves(w.(queue := []), w1) && r.vec == w1.vec && |r.socks| == |w1.socks|
    requires w1.trace <= r.trace && forall k :: |w1.trace| <= k < |r.trace| ==> r.trace[k].Freed?
    requires forall i: Id :: r.Get(i).vm == w1.Get(i).vm
    ensures StepGrows(w, r)
  {
    forall k | |w.trace| <= k < |r.trace|
      ensures r.trace[k].Freed? || r.trace[k].id in w.vec || r.trace[k].id >= |w.socks|
    {
      if k < |w1.trace| {
        assert r.trace[k] == w1.trace[k];
      }
    }
  }

  lemma StepKeeps(w: World, op: Op)
    requires Inv(w, {})
    ensures Inv(Step(w, op), {}) && StepGrows(w, Step(w, op))
  {
    match op
    case Pulse(ios) => PulseKeeps(w, ios);
    case Lua(calls) => RunCallsKeeps(w, calls, {});
    case Stop(vm) => ResourceStoppedKeeps(w, vm, {});
  }

  lemma StepGrowsTransitive(w: World, w1: World, w2: World)
    requires Inv(w, {}) && StepGrows(w, w1) && StepGrows(w1, w2)
    ensures StepGrows(w, w2)
  {
    assert forall id: Id :: id in w.vec ==> w.Get(id).live;
    forall id | id in w.vec && id in w2.vec ensures id in w1.vec {
      VecGrowsMember(w1.vec, w2.vec, |w1.socks|, id);
    }
    VecGrowsTransitive(w, w1, w2);
    forall k | |w.trace| <= k < |w2.trace|
      ensures w2.trace[k].Freed? || w2.trace[k].id in w.vec || w2.trace[k].id >= |w.socks|
    {
      if k < |w1.trace| {
        assert w2.trace[k] == w1.trace[k];
      } else if w2.trace[k].id < |w.socks| && w2.trace[k].id in w1.vec {
        VecGrowsMember(w.vec, w1.vec, |w.socks|, w2.trace[k].id);
      }
    }
  }

  lemma {:induction false} RunKeeps(w: World, ops: seq<Op>)
    requires Inv(w, {})
    ensures Inv(Run(w, ops), {}) && StepGrows(w, Run(w, ops))
    decreases |ops|
  {
    if ops == [] {
      KeepAll(w.vec, Elems(w.vec));
    } else {
      StepKeeps(w, ops[0]);
      var w1 := Step(w, ops[0]);
      RunKeeps(w1, ops[1..]);
      StepGrowsTransitive(w, w1, Run(w1, ops[1..]));
    }
  }
}
