/**
 The Rust FFIConnection as the host drives it through the rc_conn_* calls, in a
 release build: a call in the wrong state returns InvalidState. `Conn` is the
 value of one connection, `Step` what a call does to it, and the class performs
 the calls on fields updated in place.
 */
module NativeConnection {

  datatype Phase = Init | Configured | Connected | Disconnected
  datatype Event = InitEvent | ConnectedEvent | DisconnectedEvent | ReleaseEvent
  datatype Ret = Success | InvalidState

  /** A payload of length zero returns before the state is looked at. */
  datatype Call = SetSendCallback | SetConnected | SetDisconnected | Recv(length: nat) | Free

  datatype Conn = Conn(phase: Phase, freed: bool, events: seq<Event>)

  /** rc_conn_new */
  function New(): Conn { Conn(Init, false, [InitEvent]) }

  /** set_disconnected up to the point where it joins the two tasks. */
  function BeginDisconnect(c: Conn): (Conn, Ret) {
    if c.phase.Connected? then (c.(phase := Disconnected), Success) else (c, InvalidState)
  }

  /** The rest of set_disconnected, with both tasks joined. */
  function EndDisconnect(c: Conn): Conn { c.(events := c.events + [DisconnectedEvent]) }

  /** The connection must not have been freed: its pointer is gone afterwards. */
  function Step(c: Conn, call: Call): (Conn, Ret)
    requires !c.freed
  {
    match call
    case SetSendCallback =>
      if c.phase.Init? || c.phase.Configured? then (c.(phase := Configured), Success) else (c, InvalidState)
    case SetConnected =>
      if c.phase.Configured? then (c.(phase := Connected, events := c.events + [ConnectedEvent]), Success)
      else (c, InvalidState)
    case SetDisconnected =>
      var (d, ret) := BeginDisconnect(c);
      if ret.Success? then (EndDisconnect(d), Success) else (c, InvalidState)
    case Recv(length) =>
      (c, if length == 0 || c.phase.Connected? then Success else InvalidState)
    case Free =>
      if c.phase.Connected? then (c, InvalidState)
      else (c.(freed := true, events := c.events + [ReleaseEvent]), Success)
  }

  /** A host that makes `calls` in turn, none of them after a successful free. */
  ghost predicate Host(c: Conn, calls: seq<Call>, d: Conn)
    decreases |calls|
  {
    if calls == [] then c == d else !c.freed && Host(Step(c, calls[0]).0, calls[1..], d)
  }

  /** The lifecycle documented for connection events, read off the trace alone. */
  const FULL_LIFE := [InitEvent, ConnectedEvent, DisconnectedEvent, ReleaseEvent]
  const NEVER_CONNECTED := [InitEvent, ReleaseEvent]

  ghost predicate TraceOk(c: Conn) {
    && (c.freed ==> !c.phase.Connected?)
    && c.events == [InitEvent]
                   + (if c.phase.Connected? || c.phase.Disconnected? then [ConnectedEvent] else [])
                   + (if c.phase.Disconnected? then [DisconnectedEvent] else [])
                   + (if c.freed then [ReleaseEvent] else [])
  }

  lemma StepKeepsTrace(c: Conn, call: Call)
    requires TraceOk(c) && !c.freed
    ensures TraceOk(Step(c, call).0)
    ensures Step(c, call).1.InvalidState? ==> Step(c, call).0 == c
  {
  }

  lemma {:induction false} HostKeepsTrace(c: Conn, calls: seq<Call>, d: Conn)
    requires TraceOk(c) && Host(c, calls, d)
    ensures TraceOk(d)
    decreases |calls|
  {
    if calls != [] {
      StepKeepsTrace(c, calls[0]);
      HostKeepsTrace(Step(c, calls[0]).0, calls[1..], d);
    }
  }

  /** A connection stays unconfigured exactly until the send callback is set. */
  lemma {:induction false} UnconfiguredUntilCallback(c: Conn, calls: seq<Call>, d: Conn)
    requires Host(c, calls, d)
    ensures d.phase.Init? <==> c.phase.Init? && SetSendCallback !in calls
    decreases |calls|
  {
    if calls != [] {
      assert calls == [calls[0]] + calls[1..];
      UnconfiguredUntilCallback(Step(c, calls[0]).0, calls[1..], d);
    }
  }

  lemma TraceOkMeansLifecycle(c: Conn)
    requires TraceOk(c)
    ensures c.events <= FULL_LIFE || c.events <= NEVER_CONNECTED
  {
    assert NEVER_CONNECTED[..1] == FULL_LIFE[..1] == [InitEvent];
    assert FULL_LIFE[..2] == [InitEvent, ConnectedEvent];
    assert FULL_LIFE[..3] == [InitEvent, ConnectedEvent, DisconnectedEvent];
  }

  /**
   Whatever calls a host makes, the events follow the documented lifecycle, and a
   call is refused exactly when the events so far do not allow it, or it connects
   without a send callback.
   */
  lemma EveryHostFollowsLifecycle(calls: seq<Call>, d: Conn)
    requires Host(New(), calls, d)
    ensures d.events <= FULL_LIFE || d.events <= NEVER_CONNECTED
    ensures d.freed <==> ReleaseEvent in d.events
    ensures !d.freed ==> (Step(d, SetDisconnected).1.Success? <==> d.events == FULL_LIFE[..2])
    ensures !d.freed ==> (Step(d, Free).1.Success? <==> d.events != FULL_LIFE[..2])
    ensures !d.freed ==>
              (Step(d, SetConnected).1.Success? <==> d.events == FULL_LIFE[..1] && SetSendCallback in calls)
    ensures !d.freed ==> (Step(d, SetSendCallback).1.Success? <==> d.events == FULL_LIFE[..1])
    ensures !d.freed ==> forall n :: Step(d, Recv(n)).1.Success? <==> n == 0 || d.events == FULL_LIFE[..2]
  {
    HostKeepsTrace(New(), calls, d);
    TraceOkMeansLifecycle(d);
    UnconfiguredUntilCallback(New(), calls, d);
    assert FULL_LIFE[..1] == [InitEvent] && FULL_LIFE[..2] == [InitEvent, ConnectedEvent];
  }

  class FFIConnection {
    var phase: Phase
    var freed: bool          // the box has been released
    var events: seq<Event>   // what has been published on the event sink

    ghost function View(): Conn reads this { Conn(phase, freed, events) }
    ghost predicate Valid() reads this { TraceOk(View()) }

    constructor ()
      ensures Valid() && View() == New()
    {
      phase, freed, events := Init, false, [InitEvent];
    }

    method SendCallback() returns (ret: Ret)
      requires Valid() && !freed
      modifies this
      ensures Valid() && (View(), ret) == Step(old(View()), SetSendCallback)
      ensures ret.Success? <==> events == FULL_LIFE[..1]
      ensures events == old(events) && freed == old(freed)
    {
      match phase {
        case Init =>
        case Configured =>
        case Connected => return InvalidState;
        case Disconnected => return InvalidState;
      }
      phase := Configured;
      ret := Success;
    }

    method Connect() returns (ret: Ret)
      requires Valid() && !freed
      modifies this
      ensures Valid() && (View(), ret) == Step(old(View()), SetConnected)
      ensures ret.Success? ==> old(events) == FULL_LIFE[..1] && events == FULL_LIFE[..2]
      ensures ret.InvalidState? ==> View() == old(View())
    {
      if !phase.Configured? { return InvalidState; }
      phase := Connected;
      events := events + [ConnectedEvent];
      ret := Success;
    }

    method Receive(length: nat) returns (ret: Ret)
      requires Valid() && !freed
      ensures (View(), ret) == Step(View(), Recv(length))
      ensures ret.Success? <==> length == 0 || events == FULL_LIFE[..2]
    {
      if length == 0 { return Success; }
      ret := if phase.Connected? then Success else InvalidState;
    }

    /** The state is replaced first and put back if the connection was not connected. */
    method Disconnect() returns (ret: Ret)
      requires Valid() && !freed
      modifies this
      ensures Valid() && (View(), ret) == Step(old(View()), SetDisconnected)
      ensures if old(events) == FULL_LIFE[..2] then ret.Success? && events == FULL_LIFE[..3]
              else ret.InvalidState? && View() == old(View())
    {
      var last := phase;
      phase := Disconnected;
      if !last.Connected? {
        phase := last;
        return InvalidState;
      }
      events := events + [DisconnectedEvent];
      ret := Success;
    }

    method Release() returns (ret: Ret)
      requires Valid() && !freed
      modifies this
      ensures Valid() && (View(), ret) == Step(old(View()), Free)
      ensures if old(events) == FULL_LIFE[..2] then ret.InvalidState? && View() == old(View())
              else ret.Success? && freed && (events == FULL_LIFE || events == NEVER_CONNECTED)
    {
      if phase.Connected? { return InvalidState; }
      freed, events := true, events + [ReleaseEvent];
      ret := Success;
    }
  }
}
