/** What it would look like if a deleted object were used: `faulted` is set, and
    nothing clears it. So a history without a fault is one without such a use. */
module SocketFaults {
  import opened Text
  import opened SocketSpec

  lemma {:induction false} ScanStaysFaulted(w: World, k: Key, i: nat)
    requires w.faulted || (i < |w.vec| && !w.Get(w.vec[i]).live)
    ensures Scan(w, k, i).0.faulted
    decreases |w.vec| - i
  {
    if i < |w.vec| && !Matches(w.Touch(w.vec[i]).Get(w.vec[i]), k) {
      ScanStaysFaulted(w.Touch(w.vec[i]), k, i + 1);
    }
  }

  lemma {:induction false} StopStaysFaulted(w: World, vm: int)
    requires w.faulted
    ensures ResourceStopped(w, vm).faulted
    decreases |w.vec|
  {
    ScanStaysFaulted(w, ByVm(vm), 0);
    var (w1, found) := Scan(w, ByVm(vm), 0);
    if found.Found? {
      StopStaysFaulted(SilentRemove(w1, found.id), vm);
    }
  }

  lemma {:induction false} CallsStayFaulted(w: World, calls: seq<Call>)
    requires w.faulted
    ensures RunCalls(w, calls).faulted
    decreases calls, 0
  {
    if calls != [] {
      CallStaysFaulted(w, calls[0]);
      CallsStayFaulted(RunCall(w, calls[0]), calls[1..]);
    }
  }

  lemma {:induction false} CallStaysFaulted(w: World, c: Call)
    requires w.faulted
    ensures RunCall(w, c).faulted
    decreases c, 0
  {
    hide SocketRemove, ResourceStopped, Scan;
    match c
    case Open(vm, io) =>
    case Write(userdata) => ScanStaysFaulted(w, ByUserdata(userdata), 0);
    case StopResource(vm) => StopStaysFaulted(w, vm);
    case Close(userdata, onClosed) =>
      ScanStaysFaulted(w, ByUserdata(userdata), 0);
      var (w1, found) := GetSocket(w, userdata);
      if found.Found? {
        RemovingFaults(w1, found.id, onClosed);
      }
  }

  /** Removing a deleted object is a fault. */
  lemma {:induction false} RemovingFaults(w: World, id: Id, onClosed: Script)
    requires w.faulted || !w.Get(id).live
    ensures SocketRemove(w, id, onClosed).faulted
    decreases onClosed, 1
  {
    hide RunCalls;
    var w1 := Shut(w, id);
    if w.Get(id).open {
      CallsStayFaulted(w1.Touch(id).Log(Closed(id)), onClosed.calls);
    }
  }

  /** So is firing an event on it, */
  lemma EventFaults(w: World, e: Entry, handler: Script)
    requires w.faulted || !w.Get(e.id).live
    ensures TriggerEvent(w, e, handler).faulted
  {
    hide RunCalls;
    CallsStayFaulted(w.Touch(e.id).Log(e), handler.calls);
  }

  /** pulsing it, deleting it again, and finding it in a search. */
  lemma UseAfterDeletionFaults(w: World, id: Id, io: PulseIo, k: Key)
    requires !w.Get(id).live
    ensures SocketPulse(w, id, io).0.faulted && Delete(w, id).faulted
    ensures SilentRemove(w, id).faulted && SocketRemove(w, id, io.onClosed).faulted
    ensures forall i: nat :: i < |w.vec| && w.vec[i] == id ==> Scan(w, k, i).0.faulted
  {
    hide RunCalls, TriggerEvent, SocketRemove;
    RemovingFaults(w, id, io.onClosed);
    forall i: nat | i < |w.vec| && w.vec[i] == id ensures Scan(w, k, i).0.faulted {
      ScanStaysFaulted(w, k, i);
    }
    var w1 := w.Touch(id);
    EventFaults(SetConnected(w1, id, true), Opened(id), io.onOpened);
    DataFaults(w1, id, io);
    DataFaults(HandleConnection(w1, id, io).0, id, io);
  }

  lemma DataFaults(w: World, id: Id, io: PulseIo)
    requires w.faulted
    ensures HandleData(w, id, io).0.faulted
  {
    hide RunCalls, TriggerEvent;
    if io.recv.Length() > 0 {
      EventFaults(w.Touch(id), Data(id, CString(io.recv.bytes)), io.onData);
    }
  }
}
