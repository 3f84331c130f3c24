/** The invariant of the socket module and its preservation by every call a Lua
    handler can make, however deeply the handlers nest. */
module SocketInvariant {
  import opened Lists
  import opened SocketSpec

  // ---------------------------------------------------------------- history

  /** The socket has been removed, with or without an event. */
  ghost predicate Gone(t: seq<Entry>, id: Id) {
    Closed(id) in t || Silenced(id) in t
  }

  /** The history since the last turn of the pulse loop began. */
  function SinceTurn(t: seq<Entry>): (r: seq<Entry>)
    ensures |r| <= |t| && r == t[|t| - |r|..]
  {
    if t == [] then []
    else if t[|t| - 1].Pulsed? then [t[|t| - 1]]
    else SinceTurn(t[..|t| - 1]) + [t[|t| - 1]]
  }

  ghost predicate InTurnOf(t: seq<Entry>, id: Id) {
    SinceTurn(t) != [] && SinceTurn(t)[0] == Pulsed(id)
  }

  /** The life of a socket: what may happen next, given what has happened. */
  ghost predicate Allowed(t: seq<Entry>, e: Entry) {
    && Freed(e.id) !in t
    && match e
       case Added(id) => forall k :: 0 <= k < |t| ==> t[k].id != id
       case Pulsed(id) => Added(id) in t && !Gone(t, id)
       case Sent(id) => Added(id) in t && !Gone(t, id)
       case Opened(id) => InTurnOf(t, id) && Opened(id) !in t && Added(id) in t && !Gone(t, id)
       case Data(id, _) => InTurnOf(t, id) && Opened(id) in t &&
                           (Gone(t, id) ==> Opened(id) in SinceTurn(t))
       case Closed(id) => Added(id) in t && !Gone(t, id)
       case Silenced(id) => Added(id) in t && !Gone(t, id)
       case Freed(id) => true
  }

  ghost predicate Legal(t: seq<Entry>) {
    forall k :: 0 <= k < |t| ==> Allowed(t[..k], t[k])
  }

  lemma LegalSnoc(t: seq<Entry>, e: Entry)
    requires Legal(t) && Allowed(t, e)
    ensures Legal(t + [e])
  {
    var u := t + [e];
    forall k | 0 <= k < |u| ensures Allowed(u[..k], u[k]) {
      if k < |t| {
        assert u[..k] == t[..k] && u[k] == t[k];
      } else {
        assert u[..k] == t;
      }
    }
  }

  lemma {:induction false} SinceTurnExtends(t: seq<Entry>, more: seq<Entry>)
    requires forall k :: 0 <= k < |more| ==> !more[k].Pulsed?
    ensures SinceTurn(t + more) == SinceTurn(t) + more
  {
    var u := t + more;
    if more == [] {
      assert u == t;
    } else {
      var n := |more| - 1;
      assert u[..|u| - 1] == t + more[..n];
      SinceTurnExtends(t, more[..n]);
    }
  }

  // -------------------------------------------------------------- invariant

  /** Memory safety. `held` are the sockets on a SocketRemove frame: off
      vecSockets, not yet on deleteList. */
  ghost predicate Safe(w: World, held: set<Id>) {
    && !w.faulted
    && NoDup(w.vec) && NoDup(w.queue) && NoDup(w.del)
    && Elems(w.vec) !! Elems(w.del) !! held
    && (forall id: Id :: id in w.queue ==> id in w.vec)
    && (forall id: Id :: w.Get(id).live <==> id in w.vec || id in w.del || id in held)
    && (forall id: Id :: w.Get(id).open <==> id in w.vec)
  }

  /** The counter: every open descriptor and every failed close. */
  ghost predicate Counted(w: World) {
    w.count == |w.vec| + w.closeErrors && w.count <= MAX_OPEN_SOCKETS
  }

  /** The history agrees with the state of one socket. */
  ghost predicate LinkedAt(w: World, id: Id) {
    && (id in w.vec <==> Added(id) in w.trace && !Gone(w.trace, id))
    && (id in w.vec && Opened(id) in w.trace ==> w.Get(id).connected)
    && (w.Get(id).connected ==> Opened(id) in w.trace)
    && (Freed(id) in w.trace <==> id < |w.socks| && !w.Get(id).live)
  }

  /** The history is legal and agrees with the state. */
  ghost predicate Linked(w: World) {
    && Legal(w.trace)
    && (forall k :: 0 <= k < |w.trace| ==> w.trace[k].id < |w.socks|)
    && (forall id: Id :: LinkedAt(w, id))
  }

  ghost predicate Inv(w: World, held: set<Id>) {
    Safe(w, held) && Counted(w) && Linked(w)
  }

  /** How the module evolves: it appends to the history entries about sockets
      that are on vecSockets or new, adds new sockets at the back of vecSockets,
      and removes others, keeping the order of the rest. */
  ghost predicate Evolves(w: World, w': World) {
    && |w.socks| <= |w'.socks|
    && (forall id: Id :: id < |w.socks| ==> w'.Get(id).vm == w.Get(id).vm)
    && w'.queue == Keep(w.queue, Elems(w'.vec))
    && VecGrows(w.vec, w'.vec, |w.socks|)
    && w.trace <= w'.trace
    && (forall k :: |w.trace| <= k < |w'.trace| ==> w'.trace[k].id in w.vec || w'.trace[k].id >= |w.socks|)
  }

  /** What holds in addition of a handler: it never frees or reconnects a socket that
      existed before, fires no onSockOpened or onSockData, begins no turn, and only appends to deleteList. */
  ghost predicate Grows(w: World, w': World) {
    && Evolves(w, w')
    && (forall id: Id :: id < |w.socks| ==> w'.Get(id) == w.Get(id).(open := w'.Get(id).open))
    && w.del <= w'.del
    && NoTurn(w.trace, w'.trace)
    && (forall k :: |w.trace| <= k < |w'.trace| ==> !w'.trace[k].Opened? && !w'.trace[k].Data?)
  }

  /** No turn begins between the two histories. */
  ghost predicate NoTurn(t: seq<Entry>, t': seq<Entry>) {
    t <= t' && forall k :: |t| <= k < |t'| ==> !t'[k].Pulsed?
  }

  lemma NoTurnTransitive(t: seq<Entry>, t1: seq<Entry>, t2: seq<Entry>)
    requires NoTurn(t, t1) && NoTurn(t1, t2)
    ensures NoTurn(t, t2)
  {
    forall k | |t| <= k < |t2| ensures !t2[k].Pulsed? {
      if k < |t1| {
        assert t2[k] == t1[k];
      }
    }
  }

  lemma NoTurnSameTurn(t: seq<Entry>, t': seq<Entry>)
    requires NoTurn(t, t')
    ensures SinceTurn(t') == SinceTurn(t) + t'[|t|..]
  {
    assert t' == t + t'[|t|..];
    SinceTurnExtends(t, t'[|t|..]);
  }

  ghost predicate VecGrows(v: seq<Id>, v': seq<Id>, limit: nat) {
    var kept := Keep(v, Elems(v'));
    kept <= v' && forall i :: |kept| <= i < |v'| ==> v'[i] >= limit
  }

  lemma GrowsReflexive(w: World)
    requires forall id: Id :: id in w.queue ==> id in w.vec
    ensures Grows(w, w)
  {
    KeepAll(w.vec, Elems(w.vec));
    KeepAll(w.queue, Elems(w.vec));
  }

  lemma VecGrowsMember(v: seq<Id>, v': seq<Id>, limit: nat, id: Id)
    requires VecGrows(v, v', limit) && id in v' && id < limit
    ensures id in v
  {
    var i :| 0 <= i < |v'| && v'[i] == id;
    assert id in Keep(v, Elems(v'));
  }

  lemma EvolvesTransitive(w: World, w1: World, w2: World)
    requires Evolves(w, w1) && Evolves(w1, w2)
    requires forall id: Id :: id in w.vec ==> id < |w.socks|
    requires forall id: Id :: id in w.queue ==> id in w.vec
    ensures Evolves(w, w2)
  {
    forall id | id in w.vec && id in w2.vec ensures id in w1.vec {
      VecGrowsMember(w1.vec, w2.vec, |w1.socks|, id);
    }
    KeepTwice(w.queue, Elems(w1.vec), Elems(w2.vec), Elems(w2.vec));
    VecGrowsTransitive(w, w1, w2);
    forall k | |w.trace| <= k < |w2.trace|
      ensures w2.trace[k].id in w.vec || w2.trace[k].id >= |w.socks|
    {
      if k < |w1.trace| {
        assert w2.trace[k] == w1.trace[k];
      } else if w2.trace[k].id < |w.socks| {
        VecGrowsMember(w.vec, w1.vec, |w.socks|, w2.trace[k].id);
      }
    }
  }

  lemma GrowsTransitive(w: World, w1: World, w2: World)
    requires Grows(w, w1) && Grows(w1, w2)
    requires forall id: Id :: id in w.vec ==> id < |w.socks|
    requires forall id: Id :: id in w.queue ==> id in w.vec
    ensures Grows(w, w2)
  {
    EvolvesTransitive(w, w1, w2);
    NoTurnTransitive(w.trace, w1.trace, w2.trace);
    forall k | |w.trace| <= k < |w2.trace| ensures !w2.trace[k].Opened? && !w2.trace[k].Data? {
      if k < |w1.trace| {
        assert w2.trace[k] == w1.trace[k];
      }
    }
  }

  lemma VecGrowsTransitive(w: World, w1: World, w2: World)
    requires VecGrows(w.vec, w1.vec, |w.socks|) && VecGrows(w1.vec, w2.vec, |w1.socks|)
    requires |w.socks| <= |w1.socks|
    requires forall id: Id :: id in w.vec ==> id < |w.socks|
    requires forall id: Id :: id in w.vec && id in w2.vec ==> id in w1.vec
    ensures VecGrows(w.vec, w2.vec, |w.socks|)
  {
    var k1 := Keep(w.vec, Elems(w1.vec));
    var new1 := w1.vec[|k1|..];
    assert w1.vec == k1 + new1;
    KeepConcat(k1, new1, Elems(w2.vec));
    KeepTwice(w.vec, Elems(w1.vec), Elems(w2.vec), Elems(w2.vec));
    var k2 := Keep(w1.vec, Elems(w2.vec));
    assert k2 == Keep(w.vec, Elems(w2.vec)) + Keep(new1, Elems(w2.vec));
    var kept := Keep(w.vec, Elems(w2.vec));
    forall i | |kept| <= i < |w2.vec| ensures w2.vec[i] >= |w.socks| {
      if i < |k2| {
        assert w2.vec[i] == k2[i] == Keep(new1, Elems(w2.vec))[i - |kept|];
        assert w2.vec[i] in new1;
      }
    }
  }
}
