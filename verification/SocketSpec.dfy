/** What the socket module computes, on values.

    A World is the state of the module between two C++ statements that matter:
    the three containers, every CSocket ever constructed, the open-socket
    counter and a history of what happened. Each function below is one member
    of CSocket, CSocketManager or CFunctions; the classes in SocketModule are
    proved to compute exactly these functions.

    Results of the operating system and the behaviour of Lua handlers are inputs:
    a handler is an arbitrary finite tree of calls into the module. */
module SocketSpec {
  import opened Lists
  import opened Text

  type Id = nat

  // Values of errno on Linux.
  const ERR_NO_ERROR := 0
  const ERR_WOULD_BLOCK := 11
  const ERR_NOT_CONNECTED := 107
  const ERR_CONNECT_IN_PROGRESS := 115
  const MAX_OPEN_SOCKETS := 255
  const SOCK_RECV_LIMIT := 1024

  const ERR_INVALID_SOCKET := -1
  const ERR_CONNECT_SUCCESS := 0

  /** One CSocket object. `open` says that m_pSocket is not ERR_INVALID_SOCKET,
      `live` that the object has not been deleted. `closeFails` is what close()
      will report for its descriptor, which is closed at most once; userdata 0
      is the null pointer. */
  datatype Sock = Sock(vm: int, userdata: int, open: bool, connected: bool, live: bool, closeFails: bool)

  const NO_SOCK := Sock(0, 0, false, false, false, false)

  /** What has happened to a socket. Opened, Data and Closed are the Lua events
      onSockOpened, onSockData and onSockClosed; Silenced is a removal that
      fires no event; Pulsed marks the start of the socket's turn in DoPulse. */
  datatype Entry =
    | Added(id: Id)
    | Pulsed(id: Id)
    | Sent(id: Id)
    | Opened(id: Id)
    | Data(id: Id, payload: string)
    | Closed(id: Id)
    | Silenced(id: Id)
    | Freed(id: Id)
  {
    predicate IsEvent() {
      Opened? || Data? || Closed?
    }

    predicate IsRemoval() {
      Closed? || Silenced?
    }
  }

  /** The resource of this VM was stopped when the history had this length. */
  datatype Halt = Halt(vm: int, at: nat)

  /** `socks[id]` is the id-th object constructed. `closeErrors` counts failed
      close() calls; `faulted` records that a deleted object was used; `halts`
      records the stops of resources. */
  datatype World = World(
    vec: seq<Id>, queue: seq<Id>, del: seq<Id>,
    socks: seq<Sock>, count: int, closeErrors: nat, trace: seq<Entry>, faulted: bool,
    halts: seq<Halt>)
  {
    function Get(id: Id): Sock {
      if id < |socks| then socks[id] else NO_SOCK
    }

    function Put(id: Id, s: Sock): (w: World)
      ensures w.vec == vec && w.queue == queue && w.del == del && |w.socks| == |socks|
    {
      if id < |socks| then this.(socks := socks[id := s]) else this
    }

    function Log(e: Entry): (w: World)
      ensures w.vec == vec && w.queue == queue
    {
      this.(trace := trace + [e])
    }

    function LogHalt(vm: int): (w: World)
      ensures w.vec == vec && w.queue == queue
    {
      this.(halts := halts + [Halt(vm, |trace|)])
    }

    /** Any access to a member of the object. */
    function Touch(id: Id): (w: World)
      ensures w.vec == vec && w.queue == queue
    {
      if Get(id).live then this else this.(faulted := true)
    }
  }

  const INITIAL := World([], [], [], [], 0, 0, [], false, [])

  /** Results of the calls made by the constructor of CSocket. */
  datatype OpenIo = OpenIo(resolves: bool, fd: int, connect: int, connectErr: int,
                           userdata: int, closeFails: bool)
  {
    predicate Connecting() {
      connect == ERR_CONNECT_SUCCESS || connectErr == ERR_CONNECT_IN_PROGRESS
    }
  }

  /** A Lua handler: the calls it makes into the module, in order. A call that
      closes a socket carries the behaviour of the onSockClosed handler. */
  datatype Script = Script(calls: seq<Call>)
  datatype Call =
    | Open(vm: int, io: OpenIo)
    | Write(userdata: int)
    | Close(userdata: int, onClosed: Script)
    | StopResource(vm: int)

  type Received = s: string | |s| <= 1024 witness []

  /** Result of recv(): some bytes (none: the peer has closed) or a failure. */
  datatype Recv = Bytes(bytes: Received) | Failed
  {
    function Length(): int {
      if Bytes? then |bytes| else -1
    }
  }

  /** Results of the system calls of one CSocket::DoPulse, and the handlers of
      the events it may fire. */
  datatype PulseIo = PulseIo(select: int, recv: Recv, err: int,
                             onOpened: Script, onData: Script, onClosed: Script)

  // ---------------------------------------------------------------- CSocket

  function CloseSocket(w: World, id: Id): (r: World)
    ensures r.vec == w.vec && r.queue == w.queue
  {
    var s := w.Get(id);
    var w1 := w.Put(id, s.(open := false));
    if s.closeFails then w1.(closeErrors := w1.closeErrors + 1) else w1.(count := w1.count - 1)
  }

  /** The new object, with its descriptor if it gets one. */
  function Allocate(w: World, vm: int, io: OpenIo): World {
    var open := io.resolves && io.fd != ERR_INVALID_SOCKET;
    w.(socks := w.socks + [Sock(vm, 0, open, false, true, io.closeFails)],
       count := if open then w.count + 1 else w.count)
  }

  /** The constructor. The new object is open and has a userdata, or neither. */
  function Construct(w: World, vm: int, io: OpenIo): World {
    var id := |w.socks|;
    var w1 := Allocate(w, vm, io);
    if !w1.Get(id).open then w1
    else if io.Connecting() then w1.Put(id, w1.Get(id).(userdata := io.userdata))
    else CloseSocket(w1, id)
  }

  /** The destructor and the release of the object's memory. */
  function Delete(w: World, id: Id): (r: World)
    ensures r.vec == w.vec && r.queue == w.queue && r.del == w.del
  {
    var w1 := w.Touch(id);
    var w2 := if w1.Get(id).open then CloseSocket(w1, id) else w1;
    w2.Put(id, w2.Get(id).(live := false)).Log(Freed(id))
  }

  // --------------------------------------------------------- CSocketManager

  datatype Key = ByUserdata(userdata: int) | ByVm(vm: int)

  predicate Matches(s: Sock, k: Key) {
    match k
    case ByUserdata(userdata) => s.userdata == userdata
    case ByVm(vm) => s.vm == vm
  }

  datatype Found = Nothing | Found(id: Id)

  /** The linear search shared by GetSocket and GetSocketByLuaVM, from position i. */
  function Scan(w: World, k: Key, i: nat): (r: (World, Found))
    ensures r.0.vec == w.vec && r.0.queue == w.queue
    ensures r.1.Found? ==> r.1.id in w.vec
    decreases |w.vec| - i
  {
    if i >= |w.vec| then (w, Nothing)
    else
      var w1 := w.Touch(w.vec[i]);
      if Matches(w1.Get(w.vec[i]), k) then (w1, Found(w.vec[i])) else Scan(w1, k, i + 1)
  }

  function GetSocket(w: World, userdata: int): (r: (World, Found))
    ensures r.0.vec == w.vec && r.0.queue == w.queue
    ensures r.1.Found? ==> r.1.id in w.vec
  {
    if userdata == 0 then (w, Nothing) else Scan(w, ByUserdata(userdata), 0)
  }

  /** SocketRemove up to and including CloseSocket: erase from vecSockets and
      processQueue, then close the descriptor if it is still open. */
  function Shut(w: World, id: Id): (r: World)
    ensures r.vec == Without(w.vec, id) && r.queue == Without(w.queue, id)
  {
    var w1 := w.(vec := Without(w.vec, id), queue := Without(w.queue, id)).Touch(id);
    if w1.Get(id).open then CloseSocket(w1, id) else w1
  }

  /** The end of SocketRemove: move to the back of deleteList. */
  function Defer(w: World, id: Id): World {
    w.(del := Without(w.del, id) + [id])
  }

  function SilentRemove(w: World, id: Id): (r: World)
    ensures r.vec == Without(w.vec, id) && r.queue == Without(w.queue, id)
  {
    var w1 := Shut(w, id);
    Defer(if w.Get(id).open then w1.Log(Silenced(id)) else w1, id)
  }

  function SocketRemove(w: World, id: Id, onClosed: Script): (r: World)
    ensures |r.queue| <= |w.queue|
    decreases onClosed, 2
  {
    var w1 := Shut(w, id);
    Defer(if w.Get(id).open then TriggerEvent(w1, Closed(id), onClosed) else w1, id)
  }

  function ResourceStopped(w: World, vm: int): (r: World)
    ensures |r.queue| <= |w.queue|
    decreases |w.vec|
  {
    var (w1, found) := Scan(w, ByVm(vm), 0);
    if found.Nothing? then w1.LogHalt(vm) else ResourceStopped(SilentRemove(w1, found.id), vm)
  }

  // ------------------------------------------------- CFunctions and handlers

  function SockOpen(w: World, vm: int, io: OpenIo): (r: World)
    ensures r.queue == w.queue
  {
    if w.count >= MAX_OPEN_SOCKETS then w
    else
      var id := |w.socks|;
      var w1 := Construct(w, vm, io);
      if w1.Get(id).userdata == 0 then Delete(w1, id)
      else w1.(vec := w1.vec + [id]).Log(Added(id))
  }

  function SockWrite(w: World, userdata: int): (r: World)
    ensures r.queue == w.queue
  {
    var (w1, found) := GetSocket(w, userdata);
    if found.Nothing? then w1
    else
      var w2 := w1.Touch(found.id);
      if w2.Get(found.id).open then w2.Log(Sent(found.id)) else w2
  }

  function SockClose(w: World, userdata: int, onClosed: Script): (r: World)
    ensures |r.queue| <= |w.queue|
    decreases onClosed, 3
  {
    var (w1, found) := GetSocket(w, userdata);
    if found.Nothing? then w1 else SocketRemove(w1, found.id, onClosed)
  }

  /** Fires an event: its handler runs to completion before control returns. */
  function TriggerEvent(w: World, e: Entry, handler: Script): (r: World)
    ensures |r.queue| <= |w.queue|
    decreases handler, 1
  {
    RunCalls(w.Touch(e.id).Log(e), handler.calls)
  }

  function RunCalls(w: World, calls: seq<Call>): (r: World)
    ensures |r.queue| <= |w.queue|
    decreases calls, 0
  {
    if calls == [] then w else RunCalls(RunCall(w, calls[0]), calls[1..])
  }

  function RunCall(w: World, c: Call): (r: World)
    ensures |r.queue| <= |w.queue|
    decreases c, 0
  {
    match c
    case Open(vm, io) => SockOpen(w, vm, io)
    case Write(userdata) => SockWrite(w, userdata)
    case Close(userdata, onClosed) => SockClose(w, userdata, onClosed)
    case StopResource(vm) => ResourceStopped(w, vm)
  }

  // -------------------------------------------------------------- the pulse

  predicate Benign(err: int) {
    err == ERR_NO_ERROR || err == ERR_WOULD_BLOCK
  }

  function SetConnected(w: World, id: Id, connected: bool): (r: World)
    ensures r.vec == w.vec && r.queue == w.queue
  {
    w.Put(id, w.Get(id).(connected := connected))
  }

  /** CSocket::HandleConnection: 1 connected, 0 not yet, -1 failed. */
  function HandleConnection(w: World, id: Id, io: PulseIo): (r: (World, int))
    ensures |r.0.queue| <= |w.queue|
  {
    if Benign(io.err) then
      (TriggerEvent(SetConnected(w, id, true), Opened(id), io.onOpened), 1)
    else if io.err == ERR_NOT_CONNECTED then (w, 0)
    else (w, -1)
  }

  /** The part of CSocket::DoPulse that handles what recv() returned. */
  function HandleData(w: World, id: Id, io: PulseIo): (r: (World, bool))
    ensures |r.0.queue| <= |w.queue|
  {
    var w1 := w.Touch(id);
    if !w1.Get(id).connected then (w1, true)
    else if io.recv.Length() > 0 then
      (TriggerEvent(w1, Data(id, CString(io.recv.bytes)), io.onData), true)
    else if !Benign(io.err) || io.recv.Length() == 0 then
      (SetConnected(w1, id, false), false)
    else (w1, true)
  }

  function SocketPulse(w: World, id: Id, io: PulseIo): (r: (World, bool))
    ensures |r.0.queue| <= |w.queue|
  {
    var w1 := w.Touch(id);
    var s := w1.Get(id);
    if !s.open then (w1, false)
    else if s.connected then HandleData(w1, id, io)
    else if io.select == 0 then (w1, true)
    else if io.select == -1 then (w1, false)
    else
      var (w2, outcome) := HandleConnection(w1, id, io);
      if outcome == -1 then (w2, false) else HandleData(w2, id, io)
  }

  /** One turn of the pulse loop: pop the front of processQueue, pulse it, and
      remove it when the pulse reports failure. */
  function Turn(w: World, io: PulseIo): (r: World)
    requires w.queue != []
    ensures |r.queue| < |w.queue|
  {
    var id := w.queue[0];
    var (w1, ok) := SocketPulse(w.(queue := w.queue[1..]).Log(Pulsed(id)), id, io);
    if ok then w1 else SocketRemove(w1, id, io.onClosed)
  }

  /** Turns until processQueue is empty; `ios(n)` is the input of the n-th turn. */
  function Turns(w: World, ios: nat -> PulseIo, n: nat): (r: World)
    ensures r.queue == []
    decreases |w.queue|
  {
    if w.queue == [] then w else Turns(Turn(w, ios(n)), ios, n + 1)
  }

  /** Deletes everything on deleteList. */
  function Flush(w: World): (r: World)
    ensures r.vec == w.vec && r.queue == w.queue && r.del == []
    decreases |w.del|
  {
    if w.del == [] then w else Flush(Delete(w.(del := w.del[1..]), w.del[0]))
  }

  function DoPulse(w: World, ios: nat -> PulseIo): (r: World)
    ensures r.queue == [] && r.del == []
  {
    Flush(Turns(w.(queue := w.vec), ios, 0))
  }

  function DeleteAll(w: World, ids: seq<Id>): (r: World)
    ensures r.vec == w.vec && r.queue == w.queue && r.del == w.del
    decreases |ids|
  {
    if ids == [] then w else DeleteAll(Delete(w, ids[0]), ids[1..])
  }

  function HandleStop(w: World): World {
    DeleteAll(DeleteAll(w, w.vec), w.del).(vec := [], queue := [], del := [])
  }

  // ------------------------------------------------------------------- runs

  /** What the server can ask of the module between two pulses: a pulse, Lua
      code running outside any handler, or the end of a resource. */
  datatype Op =
    | Pulse(ios: nat -> PulseIo)
    | Lua(calls: seq<Call>)
    | Stop(vm: int)

  function Step(w: World, op: Op): World {
    match op
    case Pulse(ios) => DoPulse(w, ios)
    case Lua(calls) => RunCalls(w, calls)
    case Stop(vm) => ResourceStopped(w, vm)
  }

  function Run(w: World, ops: seq<Op>): World
    decreases |ops|
  {
    if ops == [] then w else Run(Step(w, ops[0]), ops[1..])
  }
}
