/** What the socket module means to a script, without its containers: a list of
    the open sockets, in the order in which they were opened. A socket that is
    removed is gone at once; there is no queue, no deferred deletion and no search
    that starts over. The numbers are those of the system and of the program. */
module SocketReference {
  import opened Text
  import opened SocketSpec

  datatype Conn = Conn(id: Id, vm: int, userdata: int, connected: bool, closeFails: bool)

  /** `constructed` counts the objects ever constructed, `count` is the program's
      counter of open sockets, `closeErrors` the number of failed close() calls. */
  datatype Registry = Registry(conns: seq<Conn>, constructed: nat, count: int, closeErrors: nat, history: seq<Entry>)
  {
    function Note(e: Entry): Registry {
      this.(history := history + [e])
    }

    /** The position of the socket, or the number of sockets. */
    function IndexOf(id: Id): nat {
      FirstId(conns, id)
    }

    function Has(id: Id): bool {
      IndexOf(id) < |conns|
    }
  }

  const NOTHING := Registry([], 0, 0, 0, [])

  function FirstId(conns: seq<Conn>, id: Id): (i: nat)
    ensures i <= |conns| && (i < |conns| ==> conns[i].id == id)
  {
    if conns == [] || conns[0].id == id then 0 else 1 + FirstId(conns[1..], id)
  }

  function FirstUserdata(conns: seq<Conn>, userdata: int): (i: nat)
    ensures i <= |conns| && (i < |conns| ==> conns[i].userdata == userdata)
  {
    if conns == [] || conns[0].userdata == userdata then 0 else 1 + FirstUserdata(conns[1..], userdata)
  }

  /** Closes the descriptor of the i-th socket and takes it off the list. */
  function TakeOff(r: Registry, i: nat): (s: Registry)
    requires i < |r.conns|
    ensures |s.conns| == |r.conns| - 1
  {
    var rest := r.conns[..i] + r.conns[i + 1..];
    if r.conns[i].closeFails then r.(conns := rest, closeErrors := r.closeErrors + 1)
    else r.(conns := rest, count := r.count - 1)
  }

  // ------------------------------------------------------------ calls from Lua

  function OpenSocket(r: Registry, vm: int, io: OpenIo): Registry {
    if r.count >= 255 then r
    else
      var id := r.constructed;
      var r1 := r.(constructed := id + 1);
      if !io.resolves || io.fd == -1 then r1
      else if (io.connect != 0 && io.connectErr != 115) || io.userdata == 0 then
        // closed again at once
        if io.closeFails then r1.(count := r.count + 1, closeErrors := r.closeErrors + 1) else r1
      else
        r1.(conns := r.conns + [Conn(id, vm, io.userdata, false, io.closeFails)], count := r.count + 1).Note(Added(id))
  }

  /** The first socket with this userdata; the null pointer finds none. */
  function Lookup(r: Registry, userdata: int): (i: nat)
    ensures i <= |r.conns|
  {
    if userdata == 0 then |r.conns| else FirstUserdata(r.conns, userdata)
  }

  function WriteTo(r: Registry, userdata: int): Registry {
    var i := Lookup(r, userdata);
    if i < |r.conns| then r.Note(Sent(r.conns[i].id)) else r
  }

  /** Removes the sockets of the VM from position i on. */
  function StopFrom(r: Registry, vm: int, i: nat): Registry
    decreases |r.conns| - i
  {
    if i >= |r.conns| then r
    else if r.conns[i].vm == vm then StopFrom(TakeOff(r, i).Note(Silenced(r.conns[i].id)), vm, i)
    else StopFrom(r, vm, i + 1)
  }

  /** Removes the i-th socket, and then tells the script. */
  function Remove(r: Registry, i: nat, onClosed: Script): Registry
    requires i < |r.conns|
    decreases onClosed, 2
  {
    Perform(TakeOff(r, i).Note(Closed(r.conns[i].id)), onClosed.calls)
  }

  function CloseOf(r: Registry, userdata: int, onClosed: Script): Registry
    decreases onClosed, 3
  {
    var i := Lookup(r, userdata);
    if i < |r.conns| then Remove(r, i, onClosed) else r
  }

  function Perform(r: Registry, calls: seq<Call>): Registry
    decreases calls, 0
  {
    if calls == [] then r else Perform(PerformOne(r, calls[0]), calls[1..])
  }

  function PerformOne(r: Registry, c: Call): Registry
    decreases c, 0
  {
    match c
    case Open(vm, io) => OpenSocket(r, vm, io)
    case Write(userdata) => WriteTo(r, userdata)
    case Close(userdata, onClosed) => CloseOf(r, userdata, onClosed)
    case StopResource(vm) => StopFrom(r, vm, 0)
  }

  // ------------------------------------------------------------------- pulses

  /** The socket is lost: removed, unless a handler has removed it already. */
  function Lose(r: Registry, id: Id, onClosed: Script): Registry {
    var i := r.IndexOf(id);
    if i < |r.conns| then Remove(r, i, onClosed) else r
  }

  /** What recv() has brought. */
  function Deliver(r: Registry, id: Id, io: PulseIo): Registry {
    match io.recv
    case Bytes(s) =>
      if s == [] then Lose(r, id, io.onClosed)
      else Perform(r.Note(Data(id, CString(s))), io.onData.calls)
    case Failed =>
      if io.err == 0 || io.err == 11 then r else Lose(r, id, io.onClosed)
  }

  /** The turn of the i-th socket. */
  function TakeTurn(r: Registry, i: nat, io: PulseIo): Registry
    requires i < |r.conns|
  {
    var c := r.conns[i];
    if c.connected then Deliver(r, c.id, io)
    else if io.select == 0 then r
    else if io.select == -1 then Lose(r, c.id, io.onClosed)
    else if io.err == 0 || io.err == 11 then
      var r1 := r.(conns := r.conns[i := c.(connected := true)]).Note(Opened(c.id));
      Deliver(Perform(r1, io.onOpened.calls), c.id, io)
    else if io.err == 107 then r
    else Lose(r, c.id, io.onClosed)
  }

  /** Turns for those of the sockets that are there when their turn comes. */
  function TakeTurns(r: Registry, ids: seq<Id>, ios: nat -> PulseIo, n: nat): Registry
    decreases |ids|
  {
    if ids == [] then r
    else
      var i := r.IndexOf(ids[0]);
      if i < |r.conns| then TakeTurns(TakeTurn(r, i, ios(n)), ids[1..], ios, n + 1)
      else TakeTurns(r, ids[1..], ios, n)
  }

  function IdsOf(conns: seq<Conn>): (ids: seq<Id>)
    ensures |ids| == |conns| && forall i :: 0 <= i < |ids| ==> ids[i] == conns[i].id
  {
    seq(|conns|, i requires 0 <= i < |conns| => conns[i].id)
  }

  function Perceive(r: Registry, op: Op): Registry {
    match op
    case Pulse(ios) => TakeTurns(r, IdsOf(r.conns), ios, 0)
    case Lua(calls) => Perform(r, calls)
    case Stop(vm) => StopFrom(r, vm, 0)
  }

  function PerceiveAll(r: Registry, ops: seq<Op>): Registry
    decreases |ops|
  {
    if ops == [] then r else PerceiveAll(Perceive(r, ops[0]), ops[1..])
  }

  /** Shutting down closes every socket, and tells nobody. */
  function CloseAll(r: Registry): Registry
    decreases |r.conns|
  {
    if r.conns == [] then r else CloseAll(TakeOff(r, 0))
  }
}
