/** The one order of events a script may not expect: data after the close. */
module SocketLateData {
  import opened Lists
  import opened Text
  import opened SocketSpec
  import opened SocketInvariant
  import opened SocketHandlers
  import opened SocketTurns
  import opened SocketTheorems

  /** onSockData fires at position k of the history for a socket that has
      already been removed. */
  ghost predicate LateAt(t: seq<Entry>, k: nat) {
    k < |t| && t[k].Data? && Gone(t[..k], t[k].id)
  }

  ghost predicate LateSince(t: seq<Entry>, n: nat) {
    exists k: nat :: n <= k && LateAt(t, k)
  }

  /** Handlers fire no onSockData, so only the entry e itself can be late. */
  lemma OnlyDataIsLate(w: World, e: Entry, r: World)
    requires e.Data? && Grows(w.Log(e), r)
    ensures LateSince(r.trace, |w.trace|) <==> Gone(w.trace, e.id)
  {
    assert r.trace[|w.trace|] == w.Log(e).trace[|w.trace|] == e;
    assert r.trace[..|w.trace|] == w.trace;
    assert Gone(w.trace, e.id) ==> LateAt(r.trace, |w.trace|);
  }

  lemma NothingIsLate(t: seq<Entry>, n: nat)
    requires n >= |t|
    ensures !LateSince(t, n)
  {
  }

  /** What HandleData delivers is late iff there is data and the socket is gone. */
  lemma DataIsLate(w: World, id: Id, io: PulseIo)
    requires Inv(w, {}) && w.Get(id).live && w.Get(id).connected && InTurnOf(w.trace, id)
    requires Gone(w.trace, id) ==> Opened(id) in SinceTurn(w.trace)
    ensures w.trace <= HandleData(w, id, io).0.trace
    ensures LateSince(HandleData(w, id, io).0.trace, |w.trace|)
            <==> io.recv.Length() > 0 && Gone(w.trace, id)
  {
    hide Allowed, InTurnOf, SinceTurn, LinkedAt, Legal, Evolves;
    var r := HandleData(w, id, io).0;
    if io.recv.Length() > 0 {
      var e := Data(id, CString(io.recv.bytes));
      MayHear(w, id, e.payload);
      DataKeeps(w, e, io.onData);
      OnlyDataIsLate(w, e, r);
      assert w.Log(e).trace <= r.trace;
    } else {
      assert r.trace == w.trace;
      NothingIsLate(r.trace, |w.trace|);
    }
  }

  /** Reporting a socket opened logs no onSockData by itself. */
  lemma OpeningLogsNoData(w: World, id: Id, io: PulseIo)
    requires Inv(w, {}) && id in w.vec && !w.Get(id).connected && InTurnOf(w.trace, id) && Benign(io.err)
    ensures var r := HandleConnection(w, id, io).0;
            && r.Get(id).connected && w.trace <= r.trace
            && forall k :: |w.trace| <= k < |r.trace| ==> !r.trace[k].Data?
  {
    OpenedKeeps(w, id);
    var w1 := SetConnected(w, id, true).Log(Opened(id));
    RunCallsKeeps(w1, io.onOpened.calls, {});
    ConnectionUnfolds(w, id, io);
    OneMoreEntry(w, w1, RunCalls(w1, io.onOpened.calls), Opened(id));
  }

  lemma OneMoreEntry(w: World, w1: World, r: World, e: Entry)
    requires w1.trace == w.trace + [e] && Grows(w1, r) && e.Opened? && e.id < |w1.socks| && w1.Get(e.id).connected
    ensures r.Get(e.id).connected && w.trace <= r.trace
    ensures forall k :: |w.trace| <= k < |r.trace| ==> !r.trace[k].Data?
  {
    assert r.trace[|w.trace|] == w1.trace[|w.trace|];
  }

  lemma LateFromLater(t: seq<Entry>, u: seq<Entry>, n: nat)
    requires n <= |t| && t <= u && forall k :: n <= k < |t| ==> !t[k].Data?
    ensures LateSince(u, n) <==> LateSince(u, |t|)
  {
    assert forall k :: n <= k < |t| ==> u[k] == t[k];
  }

  lemma OpeningTurn(w: World, id: Id, io: PulseIo)
    requires Inv(w, {}) && id in w.vec && !w.Get(id).connected && InTurnOf(w.trace, id) && Benign(io.err)
    ensures var w2 := HandleConnection(w, id, io).0;
            LateSince(HandleData(w2, id, io).0.trace, |w.trace|) <==> io.recv.Length() > 0 && id !in w2.vec
  {
    var w2 := HandleConnection(w, id, io).0;
    OpenedOutcome(w, id, io);
    OpeningLogsNoData(w, id, io);
    DataIsLate(w2, id, io);
    LateFromLater(w2.trace, HandleData(w2, id, io).0.trace, |w.trace|);
    assert LinkedAt(w, id) && LinkedAt(w2, id);
    assert Added(id) in w2.trace by {
      var i :| 0 <= i < |w.trace| && w.trace[i] == Added(id);
      assert w2.trace[i] == Added(id);
    }
  }

  /** "No data after the close" fails exactly here: the turn that reports a
      socket opened delivers the data it has already received even when the
      onSockOpened handler has removed the socket. */
  lemma LateDataExactly(w: World, id: Id, io: PulseIo)
    requires Inv(w, {}) && id in w.vec && SinceTurn(w.trace) == [Pulsed(id)]
    ensures LateSince(SocketPulse(w, id, io).0.trace, |w.trace|)
            <==> (&& !w.Get(id).connected && io.select != 0 && io.select != -1
                  && Benign(io.err) && io.recv.Length() > 0
                  && id !in HandleConnection(w, id, io).0.vec)
  {
    StartOutcome(w, id);
    var r := SocketPulse(w, id, io).0;
    if w.Get(id).connected {
      DataIsLate(w, id, io);
    } else if io.select != 0 && io.select != -1 && Benign(io.err) {
      OpeningTurn(w, id, io);
    } else {
      assert r.trace == w.trace;
      NothingIsLate(r.trace, |w.trace|);
    }
  }

  // ----------------------------------------------------- a guard on handlers

  /** Some call of the handler, at any depth, closes this userdata or stops this VM. */
  predicate MayClose(calls: seq<Call>, userdata: int, vm: int)
    decreases calls, 0
  {
    calls != [] && (CallMayClose(calls[0], userdata, vm) || MayClose(calls[1..], userdata, vm))
  }

  predicate CallMayClose(c: Call, userdata: int, vm: int)
    decreases c, 0
  {
    match c
    case Open(_, _) => false
    case Write(_) => false
    case Close(u, onClosed) => u == userdata || MayClose(onClosed.calls, userdata, vm)
    case StopResource(v) => v == vm
  }

  /** A handler that names neither leaves the socket alone. */
  lemma {:induction false} RunCallsSpare(w: World, calls: seq<Call>, held: set<Id>, id: Id)
    requires Inv(w, held) && id in w.vec && !MayClose(calls, w.Get(id).userdata, w.Get(id).vm)
    ensures id in RunCalls(w, calls).vec
    decreases calls, 0
  {
    hide Inv;
    if calls != [] {
      RunCallKeeps(w, calls[0], held);
      RunCallSpares(w, calls[0], held, id);
      SameOwner(w, RunCall(w, calls[0]), held, id);
      RunCallsSpare(RunCall(w, calls[0]), calls[1..], held, id);
    }
  }

  lemma SameOwner(w: World, r: World, held: set<Id>, id: Id)
    requires Inv(w, held) && id in w.vec && Grows(w, r)
    ensures r.Get(id).userdata == w.Get(id).userdata && r.Get(id).vm == w.Get(id).vm
  {
    assert w.Get(id).live;
  }

  lemma {:induction false} RunCallSpares(w: World, c: Call, held: set<Id>, id: Id)
    requires Inv(w, held) && id in w.vec && !CallMayClose(c, w.Get(id).userdata, w.Get(id).vm)
    ensures id in RunCall(w, c).vec
    decreases c, 0
  {
    hide Linked, SocketRemove, SockOpen, MayClose;
    match c
    case Open(vm, io) => SockOpenOutcome(w, vm, io);
    case Write(userdata) =>
    case StopResource(vm) => StopSpares(w, vm, held, id);
    case Close(userdata, onClosed) =>
      ScanFinds(w, ByUserdata(userdata), 0, held);
      var found := GetSocket(w, userdata).1;
      if found.Found? {
        RemoveSpares(w, found.id, onClosed, held, id);
      }
  }

  lemma StopSpares(w: World, vm: int, held: set<Id>, id: Id)
    requires Inv(w, held) && id in w.vec && w.Get(id).vm != vm
    ensures id in ResourceStopped(w, vm).vec
  {
    ResourceStoppedFilters(w, vm, held);
    assert w.Get(id).live && id in OfOthers(w, vm);
  }

  lemma {:induction false} RemoveSpares(w: World, other: Id, onClosed: Script, held: set<Id>, id: Id)
    requires Inv(w, held) && id in w.vec && other in w.vec && id != other
    requires !MayClose(onClosed.calls, w.Get(id).userdata, w.Get(id).vm)
    ensures id in SocketRemove(w, other, onClosed).vec
    decreases onClosed, 1
  {
    var w1 := Shut(w, other).Log(Closed(other));
    ShutKeeps(w, w, other, held, Closed(other));
    WithoutIsKeep(w.vec, other);
    RemoveUnfolds(w, other, onClosed);
    RunCallsSpare(w1, onClosed.calls, held + {other}, id);
  }

  /** A script sees no late data if its onSockOpened handler nowhere closes the
      socket and nowhere stops its resource. */
  lemma NoCloseNoLateData(w: World, id: Id, io: PulseIo)
    requires Inv(w, {}) && id in w.vec && SinceTurn(w.trace) == [Pulsed(id)]
    requires !MayClose(io.onOpened.calls, w.Get(id).userdata, w.Get(id).vm)
    ensures !LateSince(SocketPulse(w, id, io).0.trace, |w.trace|)
  {
    hide Inv, MayClose, LateSince, SocketPulse, HandleConnection, RunCalls, SinceTurn;
    LateDataExactly(w, id, io);
    StartOutcome(w, id);
    if !w.Get(id).connected && Benign(io.err) {
      OpenedKeeps(w, id);
      ConnectionUnfolds(w, id, io);
      var w1 := SetConnected(w, id, true).Log(Opened(id));
      RunCallsSpare(w1, io.onOpened.calls, {}, id);
    }
  }

  // ------------------------------------------------------------ how it happens

  /** A script on VM 1 opens a socket. In its first turn the connection is there
      and one byte has arrived; the onSockOpened handler closes the socket, or
      stops the resource. */
  const OPENS := OpenIo(true, 3, ERR_CONNECT_SUCCESS, 0, 7, false)
  const CLOSES := Script([Close(7, Script([]))])
  const STOPS := Script([StopResource(1)])

  function Connected(onOpened: Script): PulseIo {
    PulseIo(1, Bytes("x"), ERR_NO_ERROR, onOpened, Script([]), Script([]))
  }

  function OpenedAndPulsed(onOpened: Script): seq<Op> {
    [Lua([Open(1, OPENS)]), Pulse(_ => Connected(onOpened))]
  }

  /** What the handler adds to the history. */
  function RemovedBy(onOpened: Script): Entry {
    if onOpened == CLOSES then Closed(0) else Silenced(0)
  }

  /** The byte still arrives. */
  lemma LateDataHappens(onOpened: Script)
    requires onOpened == CLOSES || onOpened == STOPS
    ensures var w := Run(INITIAL, OpenedAndPulsed(onOpened));
            && w.trace == [Added(0), Pulsed(0), Opened(0), RemovedBy(onOpened), Data(0, "x"), Freed(0)]
            && w.halts == (if onOpened == STOPS then [Halt(1, 4)] else [])
            && LateAt(w.trace, 4)
  {
    hide DoPulse, Run, RunCalls;
    var ops := OpenedAndPulsed(onOpened);
    RunTwo(INITIAL, ops);
    OpeningStep();
    PulsingStep(Step(INITIAL, ops[0]), ops[1].ios, onOpened);
    var w := Run(INITIAL, ops);
    assert w == DoPulse(Step(INITIAL, ops[0]), ops[1].ios);
    assert w.trace[..4][3] == RemovedBy(onOpened);
  }

  /** A module with one socket in it. */
  function OneSocket(vec: seq<Id>, del: seq<Id>, open: bool, connected: bool, t: seq<Entry>, halts: seq<Halt>): World {
    World(vec, [], del, [Sock(1, 7, open, connected, true, false)], if open then 1 else 0, 0, t, false, halts)
  }

  const NEWLY_OPENED := OneSocket([0], [], true, false, [Added(0)], [])

  lemma RunTwo(w: World, ops: seq<Op>)
    requires |ops| == 2
    ensures Run(w, ops) == Step(Step(w, ops[0]), ops[1])
  {
    var w1, rest := Step(w, ops[0]), ops[1..];
    assert Run(w, ops) == Run(w1, rest);
    assert Run(w1, rest) == Run(Step(w1, rest[0]), rest[1..]);
    assert rest[1..] == [];
  }

  lemma OpeningStep()
    ensures Step(INITIAL, Lua([Open(1, OPENS)])) == NEWLY_OPENED
  {
    hide SockOpen;
    SockOpenOutcome(INITIAL, 1, OPENS);
    OneCall(INITIAL, Open(1, OPENS));
  }

  lemma OneCall(w: World, c: Call)
    ensures RunCalls(w, [c]) == RunCall(w, c)
  {
    assert [c][1..] == [];
    assert RunCalls(RunCall(w, c), []) == RunCall(w, c);
  }

  const BEFORE := OneSocket([0], [], true, true, [Added(0), Pulsed(0), Opened(0)], [])

  /** The module after the handler. */
  function After(onOpened: Script): World {
    OneSocket([], [0], false, true, [Added(0), Pulsed(0), Opened(0), RemovedBy(onOpened)],
              if onOpened == STOPS then [Halt(1, 4)] else [])
  }

  lemma ClosingHandler(t: seq<Entry>)
    ensures RunCalls(OneSocket([0], [], true, true, t, []), CLOSES.calls)
            == OneSocket([], [0], false, true, t + [Closed(0)], [])
  {
    var w := OneSocket([0], [], true, true, t, []);
    OneCall(w, Close(7, Script([])));
    assert GetSocket(w, 7) == (w, Found(0));
    RemoveUnfolds(w, 0, Script([]));
    var w1 := Shut(w, 0).Log(Closed(0));
    assert RunCalls(w1, []) == w1;
    assert w1.socks == OneSocket([], [0], false, true, t + [Closed(0)], []).socks;
  }

  lemma AfterClosing()
    ensures RunCalls(BEFORE, CLOSES.calls) == After(CLOSES)
  {
    hide RunCalls;
    ClosingHandler(BEFORE.trace);
    assert BEFORE.trace + [Closed(0)] == [Added(0), Pulsed(0), Opened(0), Closed(0)];
  }

  lemma StoppingHandler()
    ensures RunCalls(BEFORE, STOPS.calls) == After(STOPS)
  {
    OneCall(BEFORE, StopResource(1));
    assert Scan(BEFORE, ByVm(1), 0) == (BEFORE, Found(0));
    var w1 := SilentRemove(BEFORE, 0);
    assert w1.socks == After(STOPS).socks && w1.trace == After(STOPS).trace;
    assert Scan(w1, ByVm(1), 0) == (w1, Nothing);
    assert ResourceStopped(w1, 1) == w1.LogHalt(1);
  }

  /** The only turn of the pulse: connecting, the handler, and then the data. */
  lemma ConnectingTurn(onOpened: Script)
    requires onOpened == CLOSES || onOpened == STOPS
    ensures Turn(NEWLY_OPENED.(queue := [0]), Connected(onOpened))
            == After(onOpened).Log(Data(0, "x"))
  {
    hide RunCalls, After;
    var io := Connected(onOpened);
    AfterClosing();
    StoppingHandler();
    var w := OneSocket([0], [], true, false, [Added(0), Pulsed(0)], []);
    var w1 := SetConnected(w, 0, true).Log(Opened(0));
    assert w1.socks == BEFORE.socks && w1.trace == BEFORE.trace;
    ConnectionUnfolds(w, 0, io);
    assert HandleConnection(w, 0, io) == (After(onOpened), 1);
    DataArrives(onOpened);
    assert SocketPulse(w, 0, io) == (After(onOpened).Log(Data(0, "x")), true);
    assert NEWLY_OPENED.Log(Pulsed(0)) == w;
  }

  lemma DataArrives(onOpened: Script)
    ensures HandleData(After(onOpened), 0, Connected(onOpened)) == (After(onOpened).Log(Data(0, "x")), true)
  {
    var w1 := After(onOpened).Log(Data(0, "x"));
    assert RunCalls(w1, []) == w1;
    CStringWhole("x");
  }

  lemma PulsingStep(w: World, ios: nat -> PulseIo, onOpened: Script)
    requires onOpened == CLOSES || onOpened == STOPS
    requires w == NEWLY_OPENED && ios(0) == Connected(onOpened)
    ensures var end := After(onOpened);
            var r := DoPulse(w, ios);
            && r.trace == end.trace + [Data(0, "x")] + [Freed(0)] && r.halts == end.halts
  {
    hide Turn;
    var w1 := After(onOpened).Log(Data(0, "x"));
    ConnectingTurn(onOpened);
    assert Turns(w.(queue := [0]), ios, 0) == Turns(w1, ios, 1) == w1;
    var w2 := Delete(w1.(del := []), 0);
    assert Flush(w1) == Flush(w2) == w2;
  }

  // ------------------------------------------------- closing on the first data

  /** The same socket, whose onSockData handler closes it. */
  const CLOSES_ON_DATA := PulseIo(1, Bytes("x"), ERR_NO_ERROR, Script([]), CLOSES, Script([]))

  lemma DataHandlerCloses()
    ensures var w := Run(INITIAL, [Lua([Open(1, OPENS)]), Pulse(_ => CLOSES_ON_DATA)]);
            && w.trace == [Added(0), Pulsed(0), Opened(0), Data(0, "x"), Closed(0), Freed(0)]
            && w.vec == [] && w.count == 0
  {
    hide DoPulse, Run, RunCalls;
    var ops := [Lua([Open(1, OPENS)]), Pulse(_ => CLOSES_ON_DATA)];
    RunTwo(INITIAL, ops);
    OpeningStep();
    PulseOfOne(Step(INITIAL, ops[0]), ops[1].ios);
  }

  lemma PulseOfOne(w: World, ios: nat -> PulseIo)
    requires w == NEWLY_OPENED && ios(0) == CLOSES_ON_DATA
    ensures var r := DoPulse(w, ios);
            && r.trace == [Added(0), Pulsed(0), Opened(0), Data(0, "x"), Closed(0)] + [Freed(0)]
            && r.vec == [] && r.count == 0
  {
    hide Turn;
    var w1 := OneSocket([], [0], false, true, [Added(0), Pulsed(0), Opened(0), Data(0, "x"), Closed(0)], []);
    TurnOfOne();
    assert Turns(w.(queue := [0]), ios, 0) == Turns(w1, ios, 1) == w1;
    var w2 := Delete(w1.(del := []), 0);
    assert Flush(w1) == Flush(w2) == w2;
  }

  lemma TurnOfOne()
    ensures Turn(NEWLY_OPENED.(queue := [0]), CLOSES_ON_DATA)
            == OneSocket([], [0], false, true, [Added(0), Pulsed(0), Opened(0), Data(0, "x"), Closed(0)], [])
  {
    hide RunCalls;
    var t := [Added(0), Pulsed(0), Opened(0), Data(0, "x")];
    ClosingHandler(t);
    assert t + [Closed(0)] == [Added(0), Pulsed(0), Opened(0), Data(0, "x"), Closed(0)];
    var w := OneSocket([0], [], true, false, [Added(0), Pulsed(0)], []);
    var w1 := SetConnected(w, 0, true).Log(Opened(0));
    assert w1.socks == BEFORE.socks && w1.trace == BEFORE.trace;
    ConnectionUnfolds(w, 0, CLOSES_ON_DATA);
    assert RunCalls(BEFORE, []) == BEFORE by {
      NoCalls(BEFORE);
    }
    assert HandleConnection(w, 0, CLOSES_ON_DATA) == (BEFORE, 1);
    DataUnfolds(BEFORE, 0, CLOSES_ON_DATA);
    CStringWhole("x");
    assert BEFORE.Log(Data(0, "x")) == OneSocket([0], [], true, true, t, []);
    assert NEWLY_OPENED.Log(Pulsed(0)) == w;
  }

  lemma NoCalls(w: World)
    ensures RunCalls(w, []) == w
  {
  }
}
