/** The socket module as the program has it: CSocket objects shared by three
    containers, whose methods call each other and Lua handlers re-entrantly.
    Every method is proved to compute its function in SocketSpec; every method
    that uses an object requires it to be live, so no run uses a deleted one. */
module SocketModule {
  import opened Lists
  import opened Text
  import Spec = SocketSpec
  import opened SocketInvariant
  import opened SocketHandlers
  import opened SocketTurns
  import opened SocketRuns
  import opened SocketTheorems
  import Reference = SocketReference
  import Refinement = SocketRefinement

  type Id = Spec.Id
  type World = Spec.World
  type Script = Spec.Script

  // ------------------------------------------- how deep a handler's calls go

  function CallSize(c: Spec.Call): (n: nat)
    ensures n >= 1
  {
    match c
    case Close(_, onClosed) => 1 + CallsSize(onClosed.calls)
    case _ => 1
  }

  function CallsSize(calls: seq<Spec.Call>): nat {
    if calls == [] then 0 else CallSize(calls[0]) + CallsSize(calls[1..])
  }

  const NO_HANDLER := Spec.Script([])

  ghost function Ids(sockets: seq<CSocket>): (r: seq<Id>)
    ensures |r| == |sockets| && forall i :: 0 <= i < |r| ==> r[i] == sockets[i].id
  {
    seq(|sockets|, i requires 0 <= i < |sockets| => sockets[i].id)
  }

  class CSocket {
    /** The object's identity: its place in the order of construction. */
    ghost const id: Id
    const m_pLuaVM: int
    /** What close() will report for this object's descriptor. */
    const closeFails: bool

    var m_pUserdata: int
    var m_bConnected: bool
    var m_pSocket: int

    ghost predicate Represents(s: Spec.Sock)
      reads this
    {
      && s.vm == m_pLuaVM && s.closeFails == closeFails
      && s.userdata == m_pUserdata && s.connected == m_bConnected
      && s.open == (m_pSocket != Spec.ERR_INVALID_SOCKET)
    }

    ghost predicate Live(m: CSocketManager)
      reads m, m.Repr
    {
      m.Valid() && this in m.Repr && m.world.Get(id).live
    }

    constructor (m: CSocketManager, luaVM: int, io: Spec.OpenIo)
      requires m.Valid()
      modifies m
      ensures m.Valid() && m.Repr == old(m.Repr) + {this} && id == |old(m.world).socks|
      ensures m.world == Spec.Construct(old(m.world), luaVM, io)
      ensures m_pSocket == io.fd || m_pSocket == Spec.ERR_INVALID_SOCKET
    {
      hide Spec.CloseSocket;
      m_bConnected := false;
      m_pLuaVM := luaVM;
      m_pUserdata := 0;
      m_pSocket := Spec.ERR_INVALID_SOCKET;
      id := |m.created|;
      closeFails := io.closeFails;
      new;
      m.created := m.created + [this];
      m.Repr := m.Repr + {this};
      m.world := Spec.Allocate(m.world, luaVM, io);
      if !io.resolves {
        return;
      }
      m_pSocket := io.fd;
      if m_pSocket == Spec.ERR_INVALID_SOCKET {
        return;
      }
      m.ms_iTotalOpenSocketCount := m.ms_iTotalOpenSocketCount + 1;
      Connect(m, io);
    }

    /** The end of the constructor: connect(), and the userdata if that succeeds
        or is under way. */
    method Connect(m: CSocketManager, io: Spec.OpenIo)
      requires Live(m)
      modifies this, m
      ensures m.Valid() && m.Repr == old(m.Repr)
      ensures m.world == if io.Connecting() then
                           old(m.world).Put(id, old(m.world).Get(id).(userdata := io.userdata))
                         else Spec.CloseSocket(old(m.world), id)
      ensures m_pSocket == (if io.Connecting() then old(m_pSocket) else Spec.ERR_INVALID_SOCKET)
    {
      hide Spec.CloseSocket;
      if io.connect != Spec.ERR_CONNECT_SUCCESS {
        if io.connectErr != Spec.ERR_CONNECT_IN_PROGRESS {
          CloseSocket(m);
          return;
        }
      }
      m_pUserdata := io.userdata;
      m.world := m.world.Put(id, m.world.Get(id).(userdata := io.userdata));
    }

    method CloseSocket(m: CSocketManager)
      requires Live(m)
      modifies this, m
      ensures m.Valid() && m.Repr == old(m.Repr)
      ensures m.vecSockets == old(m.vecSockets) && m.deleteList == old(m.deleteList)
      ensures m.world == Spec.CloseSocket(old(m.world), id) && m_pSocket == Spec.ERR_INVALID_SOCKET
    {
      if !closeFails {
        m.ms_iTotalOpenSocketCount := m.ms_iTotalOpenSocketCount - 1;
      }
      m_pSocket := Spec.ERR_INVALID_SOCKET;
      m.world := Spec.CloseSocket(m.world, id);
    }

    /** The destructor, and the release of the object's memory. */
    method Delete(m: CSocketManager)
      requires Live(m)
      modifies this, m
      ensures m.Valid() && m.Repr == old(m.Repr)
      ensures m.vecSockets == old(m.vecSockets) && m.deleteList == old(m.deleteList)
      ensures m.world == Spec.Delete(old(m.world), id)
    {
      if m_pSocket != Spec.ERR_INVALID_SOCKET {
        CloseSocket(m);
      }
      m.world := m.world.Put(id, m.world.Get(id).(live := false)).Log(Spec.Freed(id));
    }

    /** `sent` is what send() answers. */
    method Send(m: CSocketManager, sent: bool) returns (ok: bool)
      requires Live(m)
      modifies m
      ensures m.Valid() && m.Repr == old(m.Repr)
      ensures var open := m_pSocket != Spec.ERR_INVALID_SOCKET;
              && ok == (open && sent)
              && m.world == if open then old(m.world).Log(Spec.Sent(id)) else old(m.world)
    {
      if m_pSocket == Spec.ERR_INVALID_SOCKET {
        return false;
      }
      m.world := m.world.Log(Spec.Sent(id));
      return sent;
    }

    method CloseSocketWithEvent(m: CSocketManager, bTriggerCloseEvent: bool, onClosed: Script, ghost held: set<Id>)
      requires Live(m) && (!bTriggerCloseEvent ==> onClosed == NO_HANDLER)
      requires bTriggerCloseEvent && m_pSocket != Spec.ERR_INVALID_SOCKET ==>
                 Inv(Spec.CloseSocket(m.world, id).Log(Spec.Closed(id)), held)
      modifies m, m.Repr
      ensures m.Valid() && old(m.Repr) <= m.Repr && fresh(m.Repr - old(m.Repr))
      ensures var w := old(m.world);
              m.world == if !w.Get(id).open then w
                         else if bTriggerCloseEvent then
                           Spec.TriggerEvent(Spec.CloseSocket(w, id), Spec.Closed(id), onClosed)
                         else Spec.CloseSocket(w, id).Log(Spec.Silenced(id))
      ensures !bTriggerCloseEvent ==> m.Repr == old(m.Repr)
      decreases CallsSize(onClosed.calls), 4
    {
      if m_pSocket != Spec.ERR_INVALID_SOCKET {
        CloseSocket(m);
        if bTriggerCloseEvent {
          TriggerEvent(m, Spec.Closed(id), onClosed, held);
        } else {
          m.world := m.world.Log(Spec.Silenced(id));
        }
      }
    }

    method HandleConnection(m: CSocketManager, io: Spec.PulseIo) returns (r: int)
      requires Live(m) && Inv(m.world, {}) && id in m.world.vec && !m.world.Get(id).connected
      requires InTurnOf(m.world.trace, id)
      modifies m, this, m.Repr
      ensures m.Valid() && old(m.Repr) <= m.Repr && fresh(m.Repr - old(m.Repr))
      ensures (m.world, r) == Spec.HandleConnection(old(m.world), id, io)
    {
      var iError := io.err;
      if iError == Spec.ERR_NO_ERROR || iError == Spec.ERR_WOULD_BLOCK {
        OpeningAllowed(m.world, id);
        m_bConnected := true;
        m.world := Spec.SetConnected(m.world, id, true);
        TriggerEvent(m, Spec.Opened(id), io.onOpened, {});
        return 1;
      } else if iError == Spec.ERR_NOT_CONNECTED {
        return 0;
      } else {
        return -1;
      }
    }

    method SetDisconnected(m: CSocketManager)
      requires Live(m)
      modifies this, m
      ensures m.Valid() && m.Repr == old(m.Repr)
      ensures m.world == Spec.SetConnected(old(m.world), id, false)
    {
      m_bConnected := false;
      m.world := Spec.SetConnected(m.world, id, false);
    }

    /** The part of DoPulse that deals with what recv() has returned. */
    method HandleData(m: CSocketManager, io: Spec.PulseIo, chBuffer: array<char>, iLength: int) returns (ok: bool)
      requires Live(m) && Inv(m.world, {})
      requires m_bConnected ==> Allowed(m.world.trace, Spec.Data(id, []))
      requires iLength == io.recv.Length() && chBuffer.Length == Spec.SOCK_RECV_LIMIT + 1
      requires io.recv.Bytes? ==> chBuffer[..iLength] == io.recv.bytes
      modifies m, this, m.Repr, chBuffer
      ensures m.Valid() && old(m.Repr) <= m.Repr && fresh(m.Repr - old(m.Repr))
      ensures (m.world, ok) == Spec.HandleData(old(m.world), id, io)
    {
      if m_bConnected {
        var iError := io.err;
        if iLength > 0 {
          // Put a NUL behind the data: Lua is handed a C string.
          chBuffer[iLength] := '\0';
          CStringStops(io.recv.bytes, chBuffer[..]);
          DataAllowed(m.world, id, CString(chBuffer[..]));
          TriggerEvent(m, Spec.Data(id, CString(chBuffer[..])), io.onData, {});
        } else if iError != Spec.ERR_NO_ERROR && iError != Spec.ERR_WOULD_BLOCK {
          SetDisconnected(m);
          return false;
        } else if iLength == 0 {
          SetDisconnected(m);
          return false;
        }
      }
      return true;
    }

    method DoPulse(m: CSocketManager, io: Spec.PulseIo) returns (ok: bool)
      requires Live(m) && Inv(m.world, {}) && id in m.world.vec && SinceTurn(m.world.trace) == [Spec.Pulsed(id)]
      modifies m, this, m.Repr
      ensures Live(m) && old(m.Repr) <= m.Repr && fresh(m.Repr - old(m.Repr))
      ensures (m.world, ok) == Spec.SocketPulse(old(m.world), id, io)
    {
      PulseFacts(m.world, id, io);
      if m_pSocket == Spec.ERR_INVALID_SOCKET {
        return false;
      }
      if !m_bConnected {
        var ret := io.select;
        if ret == 0 {
          return true;
        }
        if ret == -1 {
          return false;
        }
      }
      ok := Receive(m, io);
    }

    /** The rest of DoPulse: recv(), the end of connecting, and the data. */
    method Receive(m: CSocketManager, io: Spec.PulseIo) returns (ok: bool)
      requires Live(m) && Inv(m.world, {}) && id in m.world.vec && SinceTurn(m.world.trace) == [Spec.Pulsed(id)]
      modifies m, this, m.Repr
      ensures m.Valid() && old(m.Repr) <= m.Repr && fresh(m.Repr - old(m.Repr))
      ensures var w := old(m.world);
              (m.world, ok) == if w.Get(id).connected then Spec.HandleData(w, id, io)
                               else var (w2, outcome) := Spec.HandleConnection(w, id, io);
                                 if outcome == -1 then (w2, false) else Spec.HandleData(w2, id, io)
    {
      ReceiveFacts(m.world, id, io);
      // One character more than recv() may fill.
      var chBuffer := new char[Spec.SOCK_RECV_LIMIT + 1];
      var iLength := Recv(io.recv, chBuffer);
      if !m_bConnected {
        var outcome := HandleConnection(m, io);
        if outcome == -1 {
          return false;
        }
      }
      ok := HandleData(m, io, chBuffer, iLength);
    }

    /** Calls Lua: the handler may do anything to the module before returning. */
    method TriggerEvent(m: CSocketManager, ghost e: Spec.Entry, handler: Script, ghost held: set<Id>)
      requires Live(m) && e.id == id && Inv(m.world.Log(e), held)
      modifies m, m.Repr
      ensures m.Valid() && old(m.Repr) <= m.Repr && fresh(m.Repr - old(m.Repr))
      ensures m.world == Spec.TriggerEvent(old(m.world), e, handler)
      decreases CallsSize(handler.calls), 3
    {
      m.world := m.world.Log(e);
      m.RunCalls(handler.calls, held);
    }
  }

  /** The module's global variables, with the static methods over them. */
  class CSocketManager {
    var vecSockets: seq<CSocket>
    var processQueue: seq<CSocket>
    var deleteList: seq<CSocket>
    var ms_iTotalOpenSocketCount: int

    /** Every object ever constructed, deleted or not, by its identity; and the
        state they form. */
    ghost var created: seq<CSocket>
    ghost var Repr: set<CSocket>
    ghost var world: World

    ghost predicate Valid()
      reads this, Repr
    {
      && |world.socks| == |created|
      && (forall s :: s in Repr ==> s.id < |created| && created[s.id] == s && s.Represents(world.socks[s.id]))
      && (forall s :: s in vecSockets ==> s in Repr)
      && (forall s :: s in processQueue ==> s in Repr)
      && (forall s :: s in deleteList ==> s in Repr)
      && world.vec == Ids(vecSockets) && world.queue == Ids(processQueue) && world.del == Ids(deleteList)
      && world.count == ms_iTotalOpenSocketCount && !world.faulted
    }

    constructor ()
      ensures Valid() && world == Spec.INITIAL && Repr == {}
    {
      vecSockets, processQueue, deleteList := [], [], [];
      ms_iTotalOpenSocketCount := 0;
      created, Repr := [], {};
      world := Spec.INITIAL;
    }

    // ------------------------------------------------------ CSocketManager

    method SocketAdd(pSocket: CSocket)
      requires pSocket.Live(this)
      modifies this
      ensures Valid() && Repr == old(Repr)
      ensures world == old(world).(vec := old(world).vec + [pSocket.id]).Log(Spec.Added(pSocket.id))
    {
      vecSockets := vecSockets + [pSocket];
      world := world.(vec := world.vec + [pSocket.id]).Log(Spec.Added(pSocket.id));
    }

    method SocketRemove(pSocket: CSocket, bTriggerCloseEvent: bool, onClosed: Script, ghost held: set<Id>)
      requires pSocket.Live(this) && (!bTriggerCloseEvent ==> onClosed == NO_HANDLER)
      requires bTriggerCloseEvent && world.Get(pSocket.id).open ==>
                 Inv(Spec.Shut(world, pSocket.id).Log(Spec.Closed(pSocket.id)), held)
      modifies this, Repr
      ensures Valid() && old(Repr) <= Repr && fresh(Repr - old(Repr))
      ensures world == if bTriggerCloseEvent then Spec.SocketRemove(old(world), pSocket.id, onClosed)
                       else Spec.SilentRemove(old(world), pSocket.id)
      ensures !bTriggerCloseEvent ==> Repr == old(Repr)
      decreases CallsSize(onClosed.calls), 5
    {
      Erase(pSocket);
      pSocket.CloseSocketWithEvent(this, bTriggerCloseEvent, onClosed, held);
      Defer(pSocket);
    }

    /** The first two steps of SocketRemove. */
    method Erase(pSocket: CSocket)
      requires pSocket.Live(this)
      modifies this
      ensures pSocket.Live(this) && Repr == old(Repr)
      ensures var w := old(world);
              world == w.(vec := Without(w.vec, pSocket.id), queue := Without(w.queue, pSocket.id))
    {
      hide Without;
      vecSockets := ListRemove(vecSockets, pSocket);
      processQueue := ListRemove(processQueue, pSocket);
      world := world.(vec := Without(world.vec, pSocket.id), queue := Without(world.queue, pSocket.id));
    }

    /** The last two steps of SocketRemove. */
    method Defer(pSocket: CSocket)
      requires Valid() && pSocket in Repr
      modifies this
      ensures Valid() && Repr == old(Repr)
      ensures world == Spec.Defer(old(world), pSocket.id)
    {
      deleteList := ListRemove(deleteList, pSocket);
      deleteList := deleteList + [pSocket];
      world := Spec.Defer(world, pSocket.id);
    }

    /** The search has found pSocket, or nothing, and has used no deleted object. */
    ghost predicate Answers(pSocket: CSocket?, answer: (World, Spec.Found))
      reads this
    {
      && answer.0 == world
      && (if pSocket == null then answer.1 == Spec.Nothing
          else pSocket in vecSockets && answer.1 == Spec.Found(pSocket.id))
    }

    /** Looks a socket up by its userdata; touches live objects only. */
    method GetSocket(pUserdata: int, ghost held: set<Id>) returns (pSocket: CSocket?)
      requires Valid() && Safe(world, held)
      ensures Answers(pSocket, Spec.GetSocket(world, pUserdata))
      ensures pSocket == null <==> pUserdata == 0 || forall s :: s in vecSockets ==> s.m_pUserdata != pUserdata
      ensures pSocket != null ==>
                exists i :: 0 <= i < |vecSockets| && vecSockets[i] == pSocket && pSocket.m_pUserdata == pUserdata
                            && forall j :: 0 <= j < i ==> vecSockets[j].m_pUserdata != pUserdata
    {
      if pUserdata == 0 {
        return null;
      }
      var i := 0;
      while i < |vecSockets|
        invariant 0 <= i <= |vecSockets|
        invariant Spec.Scan(world, Spec.ByUserdata(pUserdata), 0) == Spec.Scan(world, Spec.ByUserdata(pUserdata), i)
        invariant forall j :: 0 <= j < i ==> vecSockets[j].m_pUserdata != pUserdata
      {
        assert vecSockets[i] in Repr && world.vec[i] == vecSockets[i].id && world.vec[i] in world.vec;
        if vecSockets[i].m_pUserdata == pUserdata {
          return vecSockets[i];
        }
        i := i + 1;
      }
      return null;
    }

    method GetSocketByLuaVM(luaVM: int, ghost held: set<Id>) returns (pSocket: CSocket?)
      requires Valid() && Safe(world, held)
      ensures Answers(pSocket, Spec.Scan(world, Spec.ByVm(luaVM), 0))
      ensures pSocket == null <==> forall s :: s in vecSockets ==> s.m_pLuaVM != luaVM
      ensures pSocket != null ==>
                exists i :: 0 <= i < |vecSockets| && vecSockets[i] == pSocket && pSocket.m_pLuaVM == luaVM
                            && forall j :: 0 <= j < i ==> vecSockets[j].m_pLuaVM != luaVM
    {
      var i := 0;
      while i < |vecSockets|
        invariant 0 <= i <= |vecSockets|
        invariant Spec.Scan(world, Spec.ByVm(luaVM), 0) == Spec.Scan(world, Spec.ByVm(luaVM), i)
        invariant forall j :: 0 <= j < i ==> vecSockets[j].m_pLuaVM != luaVM
      {
        assert vecSockets[i] in Repr && world.vec[i] == vecSockets[i].id && world.vec[i] in world.vec;
        if vecSockets[i].m_pLuaVM == luaVM {
          return vecSockets[i];
        }
        i := i + 1;
      }
      return null;
    }

    method ResourceStopped(luaVM: int, ghost held: set<Id>)
      requires Valid() && Inv(world, held)
      modifies this, Repr
      ensures Valid() && Repr == old(Repr)
      ensures world == Spec.ResourceStopped(old(world), luaVM)
      decreases 0, 6
    {
      var pSocket := GetSocketByLuaVM(luaVM, held);
      while pSocket != null
        invariant Valid() && Inv(world, held) && Repr == old(Repr)
        invariant Spec.ResourceStopped(world, luaVM) == Spec.ResourceStopped(old(world), luaVM)
        invariant Answers(pSocket, Spec.Scan(world, Spec.ByVm(luaVM), 0))
        decreases |world.vec|
      {
        StopStep(world, luaVM, pSocket.id, held);
        SocketRemove(pSocket, false, NO_HANDLER, held);
        pSocket := GetSocketByLuaVM(luaVM, held);
      }
      LogHalt(luaVM);
    }

    ghost method LogHalt(luaVM: int)
      requires Valid()
      modifies this
      ensures Valid() && Repr == old(Repr) && world == old(world).LogHalt(luaVM)
    {
      world := world.LogHalt(luaVM);
    }

    method DoPulse(ios: nat -> Spec.PulseIo)
      requires Valid() && Inv(world, {})
      modifies this, Repr
      ensures Valid() && old(Repr) <= Repr && fresh(Repr - old(Repr))
      ensures world == Spec.DoPulse(old(world), ios)
    {
      StartPulseKeeps(world);
      processQueue := vecSockets;
      world := world.(queue := world.vec);
      PulseQueue(ios);
      CleanUp();
    }

    /** The loop of DoPulse over processQueue. */
    method PulseQueue(ios: nat -> Spec.PulseIo)
      requires Valid() && Inv(world, {})
      modifies this, Repr
      ensures Valid() && Inv(world, {})
      ensures old(Repr) <= Repr && fresh(Repr - old(Repr))
      ensures world == Spec.Turns(old(world), ios, 0)
    {
      hide Safe, Linked, Counted, Spec.Turn;
      var n: nat := 0;
      while processQueue != []
        invariant Valid() && Inv(world, {})
        invariant old(Repr) <= Repr && fresh(Repr - old(Repr))
        invariant Spec.Turns(world, ios, n) == Spec.Turns(old(world), ios, 0)
        decreases |world.queue|
      {
        TurnKeeps(world, ios(n));
        Pulse(ios(n));
        n := n + 1;
      }
    }

    /** The loop of DoPulse over deleteList. */
    method CleanUp()
      requires Valid() && Inv(world, {})
      modifies this, Repr
      ensures Valid() && Repr == old(Repr)
      ensures world == Spec.Flush(old(world))
    {
      while deleteList != []
        invariant Valid() && Inv(world, {}) && Repr == old(Repr)
        invariant Spec.Flush(world) == Spec.Flush(old(world))
        decreases |world.del|
      {
        DeleteFirst();
      }
    }

    /** The body of the pulse loop. */
    method Pulse(io: Spec.PulseIo)
      requires Valid() && Inv(world, {}) && processQueue != []
      modifies this, Repr
      ensures Valid() && old(Repr) <= Repr && fresh(Repr - old(Repr))
      ensures old(world).queue != [] && world == Spec.Turn(old(world), io)
    {
      hide Spec.SocketPulse, Spec.SocketRemove, Spec.Shut, Inv, SinceTurn;
      TurnFacts(world, io);
      var pSocket := processQueue[0];
      ghost var id := pSocket.id;
      processQueue := processQueue[1..];
      world := StartTurn(world);
      var ok := pSocket.DoPulse(this, io);
      if !ok {
        SocketRemove(pSocket, true, io.onClosed, {id});
      }
    }

    /** The body of the loop over deleteList. */
    method DeleteFirst()
      requires Valid() && Inv(world, {}) && deleteList != []
      modifies this, Repr
      ensures Valid() && Inv(world, {}) && Repr == old(Repr)
      ensures old(world).del != []
      ensures world == Spec.Delete(old(world).(del := old(world).del[1..]), old(world).del[0])
    {
      DeleteDeferredKeeps(world);
      var pSocket := deleteList[0];
      assert pSocket in Repr && world.del[0] == pSocket.id && pSocket.id in world.del;
      deleteList := deleteList[1..];
      world := world.(del := world.del[1..]);
      pSocket.Delete(this);
    }

    method HandleStop()
      requires Valid() && Inv(world, {})
      modifies this, Repr
      ensures Valid() && Repr == old(Repr)
      ensures world == Spec.HandleStop(old(world))
    {
      StopFacts(world);
      DeleteSockets(vecSockets);
      DeleteSockets(deleteList);
      Clear();
    }

    method Clear()
      requires Valid()
      modifies this
      ensures Valid() && Repr == old(Repr)
      ensures world == old(world).(vec := [], queue := [], del := [])
    {
      vecSockets, processQueue, deleteList := [], [], [];
      world := world.(vec := [], queue := [], del := []);
    }

    /** Each of the two loops of HandleStop. */
    method DeleteSockets(sockets: seq<CSocket>)
      requires Valid() && (forall s :: s in sockets ==> s in Repr)
      requires NoDup(Ids(sockets)) && forall s :: s in sockets ==> world.Get(s.id).live
      modifies this, Repr
      ensures Valid() && Repr == old(Repr) && vecSockets == old(vecSockets) && deleteList == old(deleteList)
      ensures world == Spec.DeleteAll(old(world), Ids(sockets))
    {
      hide DeletedFrom;
      ghost var w := world;
      for i := 0 to |sockets|
        invariant Valid() && Repr == old(Repr) && vecSockets == old(vecSockets) && deleteList == old(deleteList)
        invariant Spec.DeleteAll(world, Ids(sockets)[i..]) == Spec.DeleteAll(w, Ids(sockets))
        invariant forall j :: i <= j < |sockets| ==> world.Get(sockets[j].id).live
      {
        ghost var rest := Ids(sockets)[i..];
        assert rest[0] == sockets[i].id && rest[1..] == Ids(sockets)[i + 1..];
        DeleteLeavesOthers(world, sockets[i].id);
        assert sockets[i] in Repr;
        sockets[i].Delete(this);
      }
    }

    // ----------------------------------------------------------- CFunctions

    /** Answers the userdata of the new socket, or 0 for Lua's false. */
    method SockOpen(luaVM: int, io: Spec.OpenIo) returns (pUserdata: int)
      requires Valid()
      modifies this, Repr
      ensures Valid() && old(Repr) <= Repr && fresh(Repr - old(Repr))
      ensures world == Spec.SockOpen(old(world), luaVM, io)
      ensures pUserdata == if |world.vec| > |old(world).vec| then io.userdata else 0
    {
      if ms_iTotalOpenSocketCount >= Spec.MAX_OPEN_SOCKETS {
        return 0;
      }
      var pSocket := new CSocket(this, luaVM, io);
      pUserdata := pSocket.m_pUserdata;
      if pUserdata == 0 {
        pSocket.Delete(this);
        return 0;
      }
      SocketAdd(pSocket);
    }

    method SockWrite(pUserdata: int, sent: bool, ghost held: set<Id>) returns (ok: bool)
      requires Valid() && Safe(world, held)
      modifies this
      ensures Valid() && Repr == old(Repr)
      ensures world == Spec.SockWrite(old(world), pUserdata)
      ensures ok <==> Spec.GetSocket(old(world), pUserdata).1.Found? && sent
    {
      var pSocket := GetSocket(pUserdata, held);
      if pSocket == null {
        return false;
      }
      assert pSocket.id in world.vec;
      ok := pSocket.Send(this, sent);
    }

    method SockClose(pUserdata: int, onClosed: Script, ghost held: set<Id>) returns (ok: bool)
      requires Valid() && Inv(world, held)
      modifies this, Repr
      ensures Valid() && old(Repr) <= Repr && fresh(Repr - old(Repr))
      ensures world == Spec.SockClose(old(world), pUserdata, onClosed)
      ensures ok <==> Spec.GetSocket(old(world), pUserdata).1.Found?
      decreases CallsSize(onClosed.calls), 6
    {
      var pSocket := GetSocket(pUserdata, held);
      if pSocket == null {
        return false;
      }
      assert pSocket.id in world.vec;
      ShutKeeps(world, world, pSocket.id, held, Spec.Closed(pSocket.id));
      SocketRemove(pSocket, true, onClosed, held + {pSocket.id});
      return true;
    }

    /** What a Lua handler does: calls into the module, one after another. */
    method RunCalls(calls: seq<Spec.Call>, ghost held: set<Id>)
      requires Valid() && Inv(world, held)
      modifies this, Repr
      ensures Valid() && old(Repr) <= Repr && fresh(Repr - old(Repr))
      ensures world == Spec.RunCalls(old(world), calls)
      decreases CallsSize(calls), 2
    {
      if calls != [] {
        RunCallKeeps(world, calls[0], held);
        RunCall(calls[0], held);
        RunCalls(calls[1..], held);
      }
    }

    method RunCall(c: Spec.Call, ghost held: set<Id>)
      requires Valid() && Inv(world, held)
      modifies this, Repr
      ensures Valid() && old(Repr) <= Repr && fresh(Repr - old(Repr))
      ensures world == Spec.RunCall(old(world), c)
      decreases CallSize(c), 1
    {
      match c
      case Open(luaVM, io) => var userdata := SockOpen(luaVM, io);
      case Write(userdata) => var ok := SockWrite(userdata, true, held);
      case Close(userdata, onClosed) => var ok := SockClose(userdata, onClosed, held);
      case StopResource(luaVM) => ResourceStopped(luaVM, held);
    }
  }

  /** The life of the module: it is loaded, serves any operations, and is shut down. */
  method Serve(ops: seq<Spec.Op>) returns (m: CSocketManager)
    ensures m.Valid() && m.world == Spec.HandleStop(Spec.Run(Spec.INITIAL, ops))
    ensures Refinement.Seen(m.world) == Reference.CloseAll(Reference.PerceiveAll(Reference.NOTHING, ops))
  {
    hide Inv, Spec.DoPulse, Spec.RunCalls, Spec.ResourceStopped, Spec.HandleStop;
    m := new CSocketManager();
    InitialInv();
    for i := 0 to |ops|
      invariant m.Valid() && Inv(m.world, {}) && fresh(m) && fresh(m.Repr)
      invariant Spec.Run(m.world, ops[i..]) == Spec.Run(Spec.INITIAL, ops)
    {
      StepKeeps(m.world, ops[i]);
      match ops[i] {
        case Pulse(ios) => m.DoPulse(ios);
        case Lua(calls) => m.RunCalls(calls, {});
        case Stop(luaVM) => m.ResourceStopped(luaVM, {});
      }
      assert ops[i..][1..] == ops[i + 1..];
    }
    m.HandleStop();
    Refinement.WholeLifeRefines(ops);
  }

  /** recv(): fills the buffer with what has arrived, and answers how much. */
  method Recv(result: Spec.Recv, chBuffer: array<char>) returns (iLength: int)
    requires chBuffer.Length == Spec.SOCK_RECV_LIMIT + 1
    modifies chBuffer
    ensures iLength == result.Length()
    ensures result.Bytes? ==> chBuffer[..iLength] == result.bytes
  {
    iLength := result.Length();
    if result.Bytes? {
      forall i | 0 <= i < |result.bytes| {
        chBuffer[i] := result.bytes[i];
      }
    }
  }

  /** ListRemove: erases the first match, if any. */
  method ListRemove(itemList: seq<CSocket>, item: CSocket) returns (r: seq<CSocket>)
    ensures r == Without(itemList, item)
    ensures (forall s :: s in itemList && s.id == item.id ==> s == item) ==> Ids(r) == Without(Ids(itemList), item.id)
  {
    if forall s :: s in itemList && s.id == item.id ==> s == item {
      IdsWithout(itemList, item);
    }
    var i := 0;
    while i < |itemList|
      invariant 0 <= i <= |itemList|
      invariant forall j :: 0 <= j < i ==> itemList[j] != item
    {
      if item == itemList[i] {
        WithoutAt(itemList, i);
        return itemList[..i] + itemList[i + 1..];
      }
      i := i + 1;
    }
    return itemList;
  }

  lemma DeleteLeavesOthers(w: World, id: Id)
    ensures forall i: Id :: i != id ==> Spec.Delete(w, id).Get(i) == w.Get(i)
  {
  }

  /** What HandleStop relies on: neither loop deletes a deleted object. */
  lemma StopFacts(w: World)
    requires Inv(w, {})
    ensures NoDup(w.vec) && NoDup(w.del)
    ensures forall id: Id :: id in w.vec ==> w.Get(id).live
    ensures forall id: Id :: id in w.del ==> Spec.DeleteAll(w, w.vec).Get(id).live
  {
    DeleteAllFrees(w, w.vec);
    forall id: Id | id in w.del ensures Spec.DeleteAll(w, w.vec).Get(id).live {
      assert id in Elems(w.del) && id !in Elems(w.vec);
      assert w.Get(id).live;
    }
  }

  /** What the pulse loop relies on: after a failed pulse the socket may be removed. */
  lemma TurnFacts(w: World, io: Spec.PulseIo)
    requires Inv(w, {}) && w.queue != []
    ensures Inv(StartTurn(w), {}) && w.queue[0] in StartTurn(w).vec && StartTurn(w).Get(w.queue[0]).live
    ensures SinceTurn(StartTurn(w).trace) == [Spec.Pulsed(w.queue[0])]
    ensures Inv(Spec.Turn(w, io), {})
    ensures var (r, ok) := Spec.SocketPulse(StartTurn(w), w.queue[0], io);
            !ok && r.Get(w.queue[0]).open ==>
              Inv(Spec.Shut(r, w.queue[0]).Log(Spec.Closed(w.queue[0])), {w.queue[0]})
  {
    StartTurnKeeps(w);
    TurnKeeps(w, io);
    var base := SocketPulseKeeps(StartTurn(w), w.queue[0], io);
    var (r, ok) := Spec.SocketPulse(StartTurn(w), w.queue[0], io);
    if !ok && r.Get(w.queue[0]).open {
      RemovalAllowed(StartTurn(w), base, r, w.queue[0]);
    }
  }

  lemma RemovalAllowed(w0: World, base: World, w: World, id: Id)
    requires Outcome(w0, base, w, id, false) && w.Get(id).open
    ensures Inv(Spec.Shut(w, id).Log(Spec.Closed(id)), {id})
  {
    assert base.Get(id).open;
    ShutKeeps(base, w, id, {}, Spec.Closed(id));
    assert {} + {id} == {id};
  }

  /** The socket stays live to the end of its turn, whatever the handlers do. */
  lemma PulseFacts(w: World, id: Id, io: Spec.PulseIo)
    requires Inv(w, {}) && id in w.vec && SinceTurn(w.trace) == [Spec.Pulsed(id)]
    ensures w.Get(id).live && w.Get(id).open && InTurnOf(w.trace, id)
    ensures Spec.SocketPulse(w, id, io).0.Get(id).live
  {
    StartOutcome(w, id);
    var base := SocketPulseKeeps(w, id, io);
  }

  /** Data may be delivered when recv() has answered, whether or not this turn
      reports the socket opened. */
  lemma ReceiveFacts(w: World, id: Id, io: Spec.PulseIo)
    requires Inv(w, {}) && id in w.vec && SinceTurn(w.trace) == [Spec.Pulsed(id)]
    ensures w.Get(id).connected ==> Allowed(w.trace, Spec.Data(id, []))
    ensures !w.Get(id).connected ==> var w2 := Spec.HandleConnection(w, id, io).0;
              && Inv(w2, {}) && w2.Get(id).live
              && (w2.Get(id).connected ==> Allowed(w2.trace, Spec.Data(id, [])))
  {
    StartOutcome(w, id);
    if w.Get(id).connected {
      MayHear(w, id, []);
    } else if Spec.Benign(io.err) {
      OpenedFacts(w, id, io);
    }
  }

  lemma OpenedFacts(w: World, id: Id, io: Spec.PulseIo)
    requires Inv(w, {}) && id in w.vec && !w.Get(id).connected && InTurnOf(w.trace, id) && Spec.Benign(io.err)
    ensures var w2 := Spec.HandleConnection(w, id, io).0;
            Inv(w2, {}) && w2.Get(id).live && Allowed(w2.trace, Spec.Data(id, []))
  {
    OpenedOutcome(w, id, io);
    var w2 := Spec.HandleConnection(w, id, io).0;
    assert LinkedAt(w2, id);
    var t := SinceTurn(w2.trace);
    assert Spec.Opened(id) in w2.trace[|w2.trace| - |t|..];
  }

  lemma OpeningAllowed(w: World, id: Id)
    requires Inv(w, {}) && id in w.vec && !w.Get(id).connected && InTurnOf(w.trace, id)
    ensures Inv(Spec.SetConnected(w, id, true).Log(Spec.Opened(id)), {})
  {
    OpenedKeeps(w, id);
  }

  lemma DataAllowed(w: World, id: Id, payload: string)
    requires Inv(w, {}) && w.Get(id).live && Allowed(w.trace, Spec.Data(id, []))
    ensures Inv(w.Log(Spec.Data(id, payload)), {})
  {
    DataLogged(w, Spec.Data(id, payload));
  }

  /** A C string ends at the NUL written behind it. */
  lemma {:induction false} CStringStops(s: string, buffer: string)
    requires |s| < |buffer| && buffer[..|s|] == s && buffer[|s|] == '\0'
    ensures CString(buffer) == CString(s)
  {
    if s != [] {
      assert buffer[0] == s[0] && buffer[1..][..|s| - 1] == s[1..];
      CStringStops(s[1..], buffer[1..]);
    }
  }

  /** One iteration of ResourceStopped. */
  lemma StopStep(w: World, luaVM: int, id: Id, held: set<Id>)
    requires Inv(w, held) && Spec.Scan(w, Spec.ByVm(luaVM), 0) == (w, Spec.Found(id))
    ensures id in w.vec && w.Get(id).live
    ensures var r := Spec.SilentRemove(w, id);
            Inv(r, held) && |r.vec| < |w.vec| && Spec.ResourceStopped(r, luaVM) == Spec.ResourceStopped(w, luaVM)
  {
    SilentRemoveKeeps(w, id, held);
  }

  lemma IdsCons(s: CSocket, rest: seq<CSocket>)
    ensures Ids([s] + rest) == [s.id] + Ids(rest)
  {
  }

  lemma {:induction false} IdsWithout(list: seq<CSocket>, item: CSocket)
    requires forall s :: s in list && s.id == item.id ==> s == item
    ensures Ids(Without(list, item)) == Without(Ids(list), item.id)
  {
    if list != [] {
      IdsCons(list[0], list[1..]);
      assert list == [list[0]] + list[1..];
      IdsWithout(list[1..], item);
      IdsCons(list[0], Without(list[1..], item));
    }
  }
}
