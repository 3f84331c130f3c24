/** The guarantees of the socket module, for every run. */
module SocketTheorems {
  import opened Lists
  import opened SocketSpec
  import opened SocketInvariant
  import opened SocketHandlers
  import opened SocketRuns

  lemma InitialInv()
    ensures Inv(INITIAL, {})
  {
  }

  /** Memory safety. However handlers nest, no deleted object is ever used;
      vecSockets and deleteList hold each socket once, no socket is on both, and
      the objects still allocated are exactly those on one of them. */
  lemma EveryRunIsSafe(ops: seq<Op>)
    ensures var w := Run(INITIAL, ops);
            && !w.faulted
            && NoDup(w.vec) && NoDup(w.del) && Elems(w.vec) !! Elems(w.del)
            && forall id: Id :: w.Get(id).live <==> id in w.vec || id in w.del
  {
    InitialInv();
    RunKeeps(INITIAL, ops);
  }

  /** What keeps the callers of a handler safe: whatever it does, every object
      that is live when it starts is live when it ends, be it the one being
      pulsed, one on a SocketRemove frame or any other. */
  lemma HandlersFreeNothing(w: World, e: Entry, handler: Script, held: set<Id>)
    requires Inv(w.Log(e), held) && w.Get(e.id).live
    ensures var r := TriggerEvent(w, e, handler);
            !r.faulted && forall id: Id :: w.Get(id).live ==> r.Get(id).live
  {
    RunCallsKeeps(w.Log(e), handler.calls, held);
    var r := TriggerEvent(w, e, handler);
    forall id: Id | w.Get(id).live ensures r.Get(id).live {
      assert r.Get(id) == w.Log(e).Get(id).(open := r.Get(id).open);
    }
  }

  /** After a pulse nothing waits for deletion. */
  lemma EveryPulseCleansUp(ops: seq<Op>, ios: nat -> PulseIo)
    ensures var w := Run(INITIAL, ops + [Pulse(ios)]);
            !w.faulted && w.del == [] && forall id: Id :: w.Get(id).live <==> id in w.vec
  {
    InitialInv();
    RunKeeps(INITIAL, ops);
    RunConcat(INITIAL, ops, [Pulse(ios)]);
    PulseKeeps(Run(INITIAL, ops), ios);
    assert [Pulse(ios)][1..] == [];
  }

  lemma {:induction false} RunConcat(w: World, ops: seq<Op>, more: seq<Op>)
    ensures Run(w, ops + more) == Run(Run(w, ops), more)
    decreases |ops|
  {
    if ops == [] {
      assert ops + more == more;
    } else {
      assert (ops + more)[1..] == ops[1..] + more;
      RunConcat(Step(w, ops[0]), ops[1..], more);
    }
  }

  // ---------------------------------------------------------------- handles

  function OpenIds(w: World): set<Id> {
    set id | 0 <= id < |w.socks| && w.socks[id].open
  }

  /** The counter is the number of open descriptors plus the number of failed
      closes, so it never understates the former, and it never passes the cap. */
  lemma HandleConservation(ops: seq<Op>)
    ensures var w := Run(INITIAL, ops);
            && w.count == |OpenIds(w)| + w.closeErrors
            && |OpenIds(w)| <= w.count <= MAX_OPEN_SOCKETS
  {
    InitialInv();
    RunKeeps(INITIAL, ops);
    var w := Run(INITIAL, ops);
    OpenIsListed(w, {});
  }

  lemma OpenIsListed(w: World, held: set<Id>)
    requires Safe(w, held)
    ensures OpenIds(w) == Elems(w.vec) && |OpenIds(w)| == |w.vec|
  {
    forall id: Id ensures id in OpenIds(w) <==> id in w.vec {
      assert w.Get(id).open <==> id in w.vec;
    }
    NoDupCardinality(w.vec);
  }

  // ----------------------------------------------------------------- events

  /** Whether two entries about one socket may come in this order. */
  ghost predicate MayFollow(first: Entry, second: Entry) {
    && !first.Freed?
    && !(first.Opened? && second.Opened?)
    && !(first.IsRemoval() && (second.IsRemoval() || second.Opened? || second.Pulsed? || second.Sent?))
  }

  /** At position j the socket's own turn is on, and it was opened in this turn,
      before i. */
  ghost predicate OpenedInThisTurn(t: seq<Entry>, i: nat, j: nat)
    requires i <= j < |t|
  {
    exists p, o :: 0 <= p < o < i && t[p] == Pulsed(t[j].id) && t[o] == Opened(t[j].id)
                   && forall q :: p < q <= j ==> !t[q].Pulsed?
  }

  /** The order of the entries about each socket, and what an event presupposes.
      A removed socket gets data only in the turn that reported it opened. */
  ghost predicate Protocol(t: seq<Entry>) {
    && (forall i, j :: 0 <= i < j < |t| && t[i].id == t[j].id ==> MayFollow(t[i], t[j]))
    && (forall i, j :: 0 <= i < j < |t| && t[i].id == t[j].id && t[i].IsRemoval() && t[j].Data? ==>
          OpenedInThisTurn(t, i, j))
    && (forall j :: 0 <= j < |t| && t[j].Data? ==> exists i :: 0 <= i < j && t[i] == Opened(t[j].id))
    && (forall j :: 0 <= j < |t| && !t[j].Added? && !t[j].Freed? ==> Added(t[j].id) in t[..j])
  }

  lemma LegalPair(t: seq<Entry>, i: nat, j: nat)
    requires Legal(t) && i < j < |t| && t[i].id == t[j].id
    ensures MayFollow(t[i], t[j])
  {
    assert Allowed(t[..j], t[j]);
    assert t[i] == t[..j][i];
    assert t[i] in t[..j];
  }

  lemma {:induction false} OneTurn(t: seq<Entry>)
    ensures forall k :: 0 < k < |SinceTurn(t)| ==> !SinceTurn(t)[k].Pulsed?
  {
    if t != [] && !t[|t| - 1].Pulsed? {
      OneTurn(t[..|t| - 1]);
    }
  }

  /** Where the current turn began, and where it reported its socket opened. */
  lemma TurnOf(t: seq<Entry>, id: Id) returns (p: nat, o: nat)
    requires InTurnOf(t, id) && Opened(id) in SinceTurn(t)
    ensures p < o < |t| && t[p] == Pulsed(id) && t[o] == Opened(id)
    ensures forall q :: p < q < |t| ==> !t[q].Pulsed?
  {
    var turn := SinceTurn(t);
    OneTurn(t);
    var x :| 0 <= x < |turn| && turn[x] == Opened(id);
    p := |t| - |turn|;
    o := p + x;
    forall q | p < q < |t| ensures !t[q].Pulsed? {
      assert t[q] == turn[q - p];
    }
  }

  lemma LateDataInTurn(t: seq<Entry>, i: nat, j: nat)
    requires Legal(t) && i < j < |t| && t[i].id == t[j].id && t[i].IsRemoval() && t[j].Data?
    ensures InTurnOf(t[..j], t[j].id) && Opened(t[j].id) in SinceTurn(t[..j])
  {
    hide SinceTurn, InTurnOf;
    assert Allowed(t[..j], t[j]);
    assert t[i] == t[..j][i] && t[i] in t[..j];
  }

  lemma LateDataPair(t: seq<Entry>, i: nat, j: nat)
    requires Legal(t) && i < j < |t| && t[i].id == t[j].id && t[i].IsRemoval() && t[j].Data?
    ensures OpenedInThisTurn(t, i, j)
  {
    hide Legal, SinceTurn, InTurnOf;
    LateDataInTurn(t, i, j);
    var p, o := TurnOf(t[..j], t[j].id);
    if i < o {
      LegalPair(t, i, o);
    }
    assert forall q :: 0 <= q < j ==> t[q] == t[..j][q];
  }

  lemma {:induction false} OpenedWasAdded(t: seq<Entry>, id: Id)
    requires Legal(t) && Opened(id) in t
    ensures Added(id) in t
  {
    var k :| 0 <= k < |t| && t[k] == Opened(id);
    assert Allowed(t[..k], t[k]);
    var i :| 0 <= i < k && t[..k][i] == Added(id);
    assert t[i] == Added(id);
  }

  lemma LegalPrefix(t: seq<Entry>, j: nat)
    requires Legal(t) && j <= |t|
    ensures Legal(t[..j])
  {
    forall k | 0 <= k < j ensures Allowed(t[..j][..k], t[..j][k]) {
      assert t[..j][..k] == t[..k];
    }
  }

  lemma LegalMeansProtocol(t: seq<Entry>)
    requires Legal(t)
    ensures Protocol(t)
  {
    hide SinceTurn, InTurnOf, OpenedInThisTurn, MayFollow;
    forall i, j | 0 <= i < j < |t| && t[i].id == t[j].id
      ensures MayFollow(t[i], t[j])
      ensures t[i].IsRemoval() && t[j].Data? ==> OpenedInThisTurn(t, i, j)
    {
      LegalPair(t, i, j);
      if t[i].IsRemoval() && t[j].Data? {
        LateDataPair(t, i, j);
      }
    }
    forall j | 0 <= j < |t| && t[j].Data? ensures exists i :: 0 <= i < j && t[i] == Opened(t[j].id) {
      assert Allowed(t[..j], t[j]);
      var i :| 0 <= i < j && t[..j][i] == Opened(t[j].id);
      assert t[i] == Opened(t[j].id);
    }
    forall j | 0 <= j < |t| && !t[j].Added? && !t[j].Freed? ensures Added(t[j].id) in t[..j] {
      assert Allowed(t[..j], t[j]);
      if t[j].Data? {
        LegalPrefix(t, j);
        OpenedWasAdded(t[..j], t[j].id);
      }
    }
  }

  /** In every run: at most one onSockOpened and one onSockClosed for each
      socket, no onSockData before onSockOpened, nothing after deletion, and no
      turn, write or opening once removed, and no data either, except in the turn
      that reported it opened. Every socket that has left vecSockets was removed
      once, either with onSockClosed or silently. */
  lemma EveryRunFollowsProtocol(ops: seq<Op>)
    ensures var w := Run(INITIAL, ops);
            && Protocol(w.trace)
            && (forall id: Id :: Added(id) in w.trace && id !in w.vec ==>
                  (Closed(id) in w.trace <==> Silenced(id) !in w.trace))
  {
    hide Legal, OpenedInThisTurn, Run;
    InitialInv();
    RunKeeps(INITIAL, ops);
    var w := Run(INITIAL, ops);
    LegalMeansProtocol(w.trace);
    forall id: Id | Added(id) in w.trace && id !in w.vec
      ensures Closed(id) in w.trace <==> Silenced(id) !in w.trace
    {
      assert LinkedAt(w, id);
    }
  }

  /** A socket that is off vecSockets between two operations stays silent: the
      only thing that can still happen to it is its deletion. */
  lemma SilentOnceRemoved(w: World, id: Id, ops: seq<Op>)
    requires Inv(w, {}) && id < |w.socks| && id !in w.vec
    ensures var t := Run(w, ops).trace;
            w.trace <= t && forall k :: |w.trace| <= k < |t| && t[k].id == id ==> t[k] == Freed(id)
  {
    RunKeeps(w, ops);
  }

  // -------------------------------------------------------- stopped resources

  function OfVm(w: World, vm: int): set<Id> {
    set id | 0 <= id < |w.socks| && w.socks[id].vm == vm
  }

  function OfOthers(w: World, vm: int): set<Id> {
    set id | 0 <= id < |w.socks| && w.socks[id].vm != vm
  }

  function Silences(ids: seq<Id>): (r: seq<Entry>)
    ensures |r| == |ids| && forall i :: 0 <= i < |ids| ==> r[i] == Silenced(ids[i])
  {
    seq(|ids|, i requires 0 <= i < |ids| => Silenced(ids[i]))
  }

  /** r is w without the sockets of vm, which have been closed and queued for
      deletion in the order of vecSockets. The stop is on record. */
  ghost predicate Filtered(w: World, r: World, vm: int) {
    var mine := Keep(w.vec, OfVm(w, vm));
    && r.vec == Keep(w.vec, OfOthers(w, vm)) && r.queue == Keep(w.queue, OfOthers(w, vm))
    && r.del == w.del + mine && r.trace == w.trace + Silences(mine)
    && r.halts == w.halts + [Halt(vm, |r.trace|)]
  }

  lemma FilteredNone(w: World, vm: int, held: set<Id>)
    requires Safe(w, held) && Scan(w, ByVm(vm), 0).1.Nothing?
    ensures Filtered(w, w.LogHalt(vm), vm)
  {
    ScanFinds(w, ByVm(vm), 0, held);
    forall id: Id | id in w.vec ensures id in OfOthers(w, vm) && id !in OfVm(w, vm) {
      var j :| 0 <= j < |w.vec| && w.vec[j] == id;
      assert !Matches(w.Get(w.vec[j]), ByVm(vm)) && w.Get(id).live;
    }
    KeepAll(w.vec, OfOthers(w, vm));
    KeepAll(w.queue, OfOthers(w, vm));
    KeepNone(w.vec, OfVm(w, vm));
  }

  lemma FilteredStep(w: World, w1: World, r: World, vm: int, id: Id)
    requires id < |w.socks| == |w1.socks| && w.socks[id].vm == vm
    requires forall i :: 0 <= i < |w.socks| ==> w1.socks[i].vm == w.socks[i].vm
    requires w1.del == w.del + [id] && w1.trace == w.trace + [Silenced(id)] && w1.halts == w.halts
    requires w1.vec == Keep(w.vec, Elems(w.vec) - {id}) && w1.queue == Keep(w.queue, Elems(w.queue) - {id})
    requires Keep(w.vec, OfVm(w, vm)) == [id] + Keep(w1.vec, OfVm(w, vm))
    requires Filtered(w1, r, vm)
    ensures Filtered(w, r, vm)
  {
    hide Keep, OfVm, OfOthers, Silences;
    SameOwners(w, w1, vm);
    NotOther(w, id, vm);
    var others := OfOthers(w, vm);
    KeepTwice(w.vec, Elems(w.vec) - {id}, others, others);
    KeepTwice(w.queue, Elems(w.queue) - {id}, others, others);
    var rest := Keep(w1.vec, OfVm(w, vm));
    SilencesCons(w.trace, id, rest);
    assert w.del + [id] + rest == w.del + ([id] + rest);
  }

  lemma NotOther(w: World, id: Id, vm: int)
    requires id < |w.socks| && w.socks[id].vm == vm
    ensures id !in OfOthers(w, vm)
  {
  }

  lemma SilencesCons(t: seq<Entry>, id: Id, rest: seq<Id>)
    ensures t + [Silenced(id)] + Silences(rest) == t + Silences([id] + rest)
  {
    assert Silences([id] + rest) == [Silenced(id)] + Silences(rest);
  }

  lemma SameOwners(w: World, w1: World, vm: int)
    requires |w.socks| == |w1.socks|
    requires forall i :: 0 <= i < |w.socks| ==> w1.socks[i].vm == w.socks[i].vm
    ensures OfVm(w1, vm) == OfVm(w, vm) && OfOthers(w1, vm) == OfOthers(w, vm)
  {
  }

  /** ResourceStopped is an order-preserving filter that fires no event: it
      removes exactly the sockets of the stopped VM, closes them and queues each
      for deletion once, in the order of vecSockets. */
  lemma {:induction false} ResourceStoppedFilters(w: World, vm: int, held: set<Id>)
    requires Inv(w, held)
    ensures var r := ResourceStopped(w, vm);
            && Filtered(w, r, vm)
            && forall id: Id :: id in w.vec && id in OfVm(w, vm) ==> !r.Get(id).open
    decreases |w.vec|
  {
    ScanFinds(w, ByVm(vm), 0, held);
    var found := Scan(w, ByVm(vm), 0).1;
    if found.Nothing? {
      FilteredNone(w, vm, held);
    } else {
      var id := found.id;
      var w1 := SilentRemove(w, id);
      FirstOfVm(w, vm, id, held);
      SilentRemoveKeeps(w, id, held);
      SilentRemoveOwners(w, id);
      ResourceStoppedFilters(w1, vm, held);
      FilteredStep(w, w1, ResourceStopped(w1, vm), vm, id);
    }
    ResourceStoppedKeeps(w, vm, held);
  }

  lemma SilentRemoveOwners(w: World, id: Id)
    ensures var r := SilentRemove(w, id);
            && |r.socks| == |w.socks| && r.halts == w.halts
            && forall i :: 0 <= i < |w.socks| ==> r.socks[i].vm == w.socks[i].vm
  {
  }

  lemma FirstOfVm(w: World, vm: int, id: Id, held: set<Id>)
    requires Safe(w, held) && Scan(w, ByVm(vm), 0).1 == Found(id)
    ensures id < |w.socks| && w.socks[id].vm == vm
    ensures Keep(w.vec, OfVm(w, vm)) == [id] + Keep(Keep(w.vec, Elems(w.vec) - {id}), OfVm(w, vm))
  {
    ScanFinds(w, ByVm(vm), 0, held);
    var j :| 0 <= j < |w.vec| && w.vec[j] == id && Matches(w.Get(id), ByVm(vm)) &&
             forall l :: 0 <= l < j ==> !Matches(w.Get(w.vec[l]), ByVm(vm));
    assert w.Get(id).live;
    assert forall l :: 0 <= l < j ==> w.vec[l] !in OfVm(w, vm);
    KeepFirst(w.vec, OfVm(w, vm), j);
    WithoutIsKeep(w.vec, id);
  }

  /** Once a resource has been stopped between pulses, an event on its VM can
      only concern a socket opened afterwards. */
  lemma StoppedVmStaysSilent(w: World, vm: int, ops: seq<Op>, k: nat)
    requires Inv(w, {})
    requires var t := Run(ResourceStopped(w, vm), ops).trace;
             |ResourceStopped(w, vm).trace| <= k < |t| && t[k].IsEvent()
    requires var r := Run(ResourceStopped(w, vm), ops); r.Get(r.trace[k].id).vm == vm
    ensures Added(Run(ResourceStopped(w, vm), ops).trace[k].id)
            in Run(ResourceStopped(w, vm), ops).trace[|ResourceStopped(w, vm).trace|..k]
  {
    var w1 := ResourceStopped(w, vm);
    var r := Run(w1, ops);
    var id := r.trace[k].id;
    ResourceStoppedKeeps(w, vm, {});
    RunKeeps(w1, ops);
    NoneOfVmLeft(w, vm, r, id);
    assert id >= |w1.socks|;
    LateEventWasAdded(w1, r, k);
  }

  lemma NoneOfVmLeft(w: World, vm: int, r: World, id: Id)
    requires Inv(w, {}) && StepGrows(ResourceStopped(w, vm), r) && r.Get(id).vm == vm
    ensures id !in ResourceStopped(w, vm).vec
  {
    var w1 := ResourceStopped(w, vm);
    ResourceStoppedFilters(w, vm, {});
    ResourceStoppedKeeps(w, vm, {});
  }

  lemma EventWasAdded(t: seq<Entry>, k: nat) returns (i: nat)
    requires Legal(t) && k < |t| && t[k].IsEvent()
    ensures i < k && t[i] == Added(t[k].id)
  {
    hide Legal;
    LegalMeansProtocol(t);
    assert Added(t[k].id) in t[..k];
    i :| 0 <= i < k && t[..k][i] == Added(t[k].id);
  }

  lemma LateEventWasAdded(w: World, r: World, k: nat)
    requires Linked(w) && Legal(r.trace) && w.trace <= r.trace
    requires |w.trace| <= k < |r.trace| && r.trace[k].IsEvent() && r.trace[k].id >= |w.socks|
    ensures Added(r.trace[k].id) in r.trace[|w.trace|..k]
  {
    hide Legal, LinkedAt;
    var id := r.trace[k].id;
    var i := EventWasAdded(r.trace, k);
    assert forall j :: 0 <= j < |w.trace| ==> r.trace[j] == w.trace[j];
    assert r.trace[|w.trace|..k][i - |w.trace|] == Added(id);
  }

  // --------------------------------------------------------------- shutdown

  function Frees(ids: seq<Id>): (r: seq<Entry>)
    ensures |r| == |ids| && forall i :: 0 <= i < |ids| ==> r[i] == Freed(ids[i])
  {
    seq(|ids|, i requires 0 <= i < |ids| => Freed(ids[i]))
  }

  /** r is w with the objects `ids` deleted, in this order. */
  ghost predicate DeletedFrom(w: World, r: World, ids: seq<Id>) {
    && r.faulted == w.faulted && |r.socks| == |w.socks|
    && (forall id: Id :: r.Get(id).live <==> w.Get(id).live && id !in ids)
    && OpenIds(r) == OpenIds(w) - Elems(ids)
    && r.trace == w.trace + Frees(ids)
    && r.count - r.closeErrors == w.count - w.closeErrors - |Keep(ids, OpenIds(w))|
  }

  lemma DeleteOne(w: World, id: Id)
    requires w.Get(id).live
    ensures DeletedFrom(w, Delete(w, id), [id])
  {
    var r := Delete(w, id);
    assert forall i: Id :: i in OpenIds(r) <==> r.Get(i).open;
    assert forall i: Id :: i in OpenIds(w) <==> w.Get(i).open;
    assert Frees([id]) == [Freed(id)];
    assert Keep([id], OpenIds(w)) == if w.Get(id).open then [id] else [];
  }

  lemma DeletedFromTransitive(w: World, w1: World, r: World, ids: seq<Id>, more: seq<Id>)
    requires DeletedFrom(w, w1, ids) && DeletedFrom(w1, r, more)
    requires Elems(ids) !! Elems(more)
    ensures DeletedFrom(w, r, ids + more)
  {
    assert Elems(ids + more) == Elems(ids) + Elems(more);
    assert forall id: Id :: id in ids + more <==> id in ids || id in more;
    assert w.trace + Frees(ids) + Frees(more) == w.trace + Frees(ids + more);
    KeepConcat(ids, more, OpenIds(w));
    forall id | id in more ensures id in OpenIds(w1) <==> id in OpenIds(w) {
      assert id in Elems(more);
    }
    KeepAgree(more, OpenIds(w1), OpenIds(w));
  }

  /** Deleting distinct live objects uses nothing dead, and closes those open. */
  lemma {:induction false} DeleteAllFrees(w: World, ids: seq<Id>)
    requires NoDup(ids) && forall id: Id :: id in ids ==> w.Get(id).live
    ensures DeletedFrom(w, DeleteAll(w, ids), ids)
    decreases |ids|
  {
    if ids != [] {
      var w1 := Delete(w, ids[0]);
      DeleteOne(w, ids[0]);
      DeleteAllFrees(w1, ids[1..]);
      DeletedFromTransitive(w, w1, DeleteAll(w, ids), ids[..1], ids[1..]);
      assert ids == ids[..1] + ids[1..];
    } else {
      assert w.trace == w.trace + Frees(ids);
    }
  }

  lemma BothListsFrees(w: World)
    requires Inv(w, {})
    ensures DeletedFrom(w, DeleteAll(DeleteAll(w, w.vec), w.del), w.vec + w.del)
    ensures Keep(w.vec + w.del, OpenIds(w)) == w.vec
  {
    var w1 := DeleteAll(w, w.vec);
    DeleteAllFrees(w, w.vec);
    forall id | id in w.del ensures w1.Get(id).live && id !in OpenIds(w) {
      assert id in Elems(w.del) && id !in Elems(w.vec);
      assert w.Get(id).live;
    }
    DeleteAllFrees(w1, w.del);
    DeletedFromTransitive(w, w1, DeleteAll(w1, w.del), w.vec, w.del);
    OpenIsListed(w, {});
    KeepConcat(w.vec, w.del, OpenIds(w));
    KeepAll(w.vec, OpenIds(w));
    KeepNone(w.del, OpenIds(w));
  }

  ghost predicate FreedOnce(t: seq<Entry>, id: Id) {
    exists i :: 0 <= i < |t| && t[i] == Freed(id) &&
      forall j :: 0 <= j < |t| && t[j] == Freed(id) ==> j == i
  }

  lemma HandleStopDeletes(w: World)
    requires Inv(w, {})
    ensures var r := HandleStop(w);
            && !r.faulted && r.vec == r.queue == r.del == [] && |r.socks| == |w.socks|
            && (forall id: Id :: !r.Get(id).live) && OpenIds(r) == {}
            && r.count == r.closeErrors && r.trace == w.trace + Frees(w.vec + w.del)
  {
    hide Safe, Linked, Counted, DeleteAll, DeletedFrom, Frees;
    BothListsFrees(w);
    EverythingDeleted(w, DeleteAll(DeleteAll(w, w.vec), w.del));
    var r := HandleStop(w);
    assert OpenIds(r) == OpenIds(DeleteAll(DeleteAll(w, w.vec), w.del));
    assert forall id: Id :: r.Get(id) == DeleteAll(DeleteAll(w, w.vec), w.del).Get(id);
  }

  lemma EverythingDeleted(w: World, r: World)
    requires Inv(w, {}) && DeletedFrom(w, r, w.vec + w.del) && Keep(w.vec + w.del, OpenIds(w)) == w.vec
    ensures !r.faulted && |r.socks| == |w.socks| && (forall id: Id :: !r.Get(id).live) && OpenIds(r) == {}
    ensures r.count == r.closeErrors && r.trace == w.trace + Frees(w.vec + w.del)
  {
    hide Linked, Keep, NoDup;
    OpenIsListed(w, {});
    forall id: Id ensures !r.Get(id).live {
      assert w.Get(id).live <==> id in w.vec || id in w.del;
    }
  }

  /** Shutting the module down frees everything: afterwards no object is left,
      every descriptor has been closed or its close has failed, and each object
      ever constructed has been freed exactly once. */
  lemma ShutdownFreesAll(ops: seq<Op>)
    ensures var r := HandleStop(Run(INITIAL, ops));
            && !r.faulted && r.vec == r.queue == r.del == []
            && (forall id: Id :: !r.Get(id).live) && OpenIds(r) == {}
            && r.count == r.closeErrors
            && forall id: Id :: id < |r.socks| ==> FreedOnce(r.trace, id)
  {
    InitialInv();
    RunKeeps(INITIAL, ops);
    var w := Run(INITIAL, ops);
    HandleStopDeletes(w);
    forall id: Id | id < |w.socks| ensures FreedOnce(HandleStop(w).trace, id) {
      assert LinkedAt(w, id);
      assert w.Get(id).live <==> id in w.vec || id in w.del;
      NoDupConcat(w.vec, w.del);
      FreedAtLast(w.trace, w.vec + w.del, HandleStop(w).trace, id);
    }
  }

  lemma OneFreed(t: seq<Entry>, i: nat)
    requires Legal(t) && i < |t| && t[i].Freed?
    ensures forall j :: 0 <= j < |t| && t[j] == t[i] ==> j == i
  {
    LegalMeansProtocol(t);
  }

  /** An object is freed either in the run or at the shutdown, and once. */
  lemma FreedAtLast(t: seq<Entry>, last: seq<Id>, r: seq<Entry>, id: Id)
    requires Legal(t) && NoDup(last) && r == t + Frees(last)
    requires Freed(id) in t <==> id !in last
    ensures FreedOnce(r, id)
  {
    hide Legal, Frees;
    assert forall j :: |t| <= j < |r| ==> r[j] == Freed(last[j - |t|]);
    assert forall j :: 0 <= j < |t| ==> r[j] == t[j];
    if id in last {
      var n :| 0 <= n < |last| && last[n] == id;
      assert r[|t| + n] == Freed(id);
    } else {
      var i :| 0 <= i < |t| && t[i] == Freed(id);
      OneFreed(t, i);
      assert r[i] == Freed(id);
    }
  }
}
