/**
 One connection end to end: the Go Connection and its invoke pool, the Rust
 FFIConnection it drives, and the two Rust tasks that call back into Go. Each
 atomic action of each of them is one labelled transition. A branch that would
 break the contract between the two sides sets a fault; the theorems are that no
 interleaving sets one, and that every payload handed to the dispatch callback is
 answered exactly once by the time Close returns.
 */
module Bridge {
  import Pool = InvokePool
  import Native = NativeConnection
  import Lifecycle
  import Interconnect

  /** Where the one successful call to Close is; it holds the connection lock from PoolDraining on. */
  datatype Close =
    | NotClosing | PoolDraining(wasConnected: bool) | Disconnecting | JoiningIo | JoiningDispatch
    | Freeing | ClosingOutgoing | Closed

  /** `IoGot` holds a payload just received and not yet passed to the send callback. */
  datatype IoTask = IoUnspawned | IoPolling | IoGot | IoInCallback | IoExited
  datatype DispatchTask =
    | Unspawned | Polling | Got | InCallback(t: nat) | Adding(t: nat) | Replying(t: nat) | Exited

  /** Who answers a payload: undecided while its callback runs, then the pool or the task. */
  datatype Route = Deciding | ByPool(job: nat) | ByTask

  /** A payload passed to the dispatch callback, and the results sent for it. */
  datatype Payload = Payload(route: Route, delivered: nat, lost: nat)

  datatype Refusal = UnknownPayload | NoDispatchHandler | QueueFull | UnknownError

  datatype Faults = Faults(
    invalidState: bool,    // a native call returned InvalidState
    droppedResult: bool,   // a result reached a connection that is not connected
    sendOnClosed: bool,    // the send callback ran with the outgoing channel closed
    useAfterFree: bool)    // a call or callback used a freed connection or a released handle

  datatype State = State(
    go: Lifecycle.Flags,
    close: Close,
    native: Native.Conn,
    pool: Pool.State,
    received: nat,         // payloads passed into the client library
    io: IoTask, ioStop: bool,
    task: DispatchTask, taskStop: bool,
    payloads: seq<Payload>,
    receiverAlive: bool,   // the client library still holds the reply stream
    replies: nat,          // results on the reply queue, not consumed yet
    handleReleased: bool,
    outgoingClosed: bool,
    disconnects: nat,      // calls to rc_conn_disconnected
    frees: nat,            // calls to rc_conn_free
    faults: Faults)

  datatype Label =
    | Connected | Recv | CloseBegin
    | PoolStep(l: Pool.Label)
    | DisconnectBegin | JoinIo | JoinDispatch | Free | CloseOutgoing
    | IoTake | IoStopSeen | IoStreamEnd | IoCall | IoReturn(ok: bool)
    | TaskTake | TaskStopSeen | TaskStreamEnd | TaskCall
    | Refuse(why: Refusal) | EnqueueSend | EnqueueAdd | Reply
    | Consume | SelfReport | DropReceiver   // the client library

  /** NewConnection: rc_conn_new, the send callback, and a started pool. */
  function Init(): State {
    State(Lifecycle.Flags(false, false), NotClosing,
          Native.Step(Native.New(), Native.SetSendCallback).0, Pool.Init(),
          0, IoUnspawned, false, Unspawned, false, [], true, 0, false, false, 0, 0,
          Faults(false, false, false, false))
  }

  /** A send to the client library waits for a slot while its receiver lives, and fails at once when it is gone. */
  predicate HasSlot(s: State) { !s.receiverAlive || s.replies < Interconnect.REPLY_CAP }

  predicate LockFree(s: State) { s.close.NotClosing? || s.close.Closed? }

  /** The pool labels that neither an enqueue nor Close takes. */
  predicate PoolOwn(l: Pool.Label) { l.Dequeue? || l.SeeStop? || l.Exit? || l.OnJob? }

  predicate Enabled(s: State, l: Label) {
    && !Pool.Crashed(s.pool)
    && match l
       case Connected => LockFree(s)
       case Recv => LockFree(s)
       case CloseBegin => LockFree(s)
       case PoolStep(p) =>
         && Pool.Enabled(s.pool, p)
         && (PoolOwn(p) || (s.close.PoolDraining? && (p.ClearAccepting? || p.CloseStop? || p.WaitReturn?)))
         && (p.OnJob? ==> s.pool.jobs[p.i].corr < |s.payloads|)
         && (Pool.IsSinkReturn(p) ==> HasSlot(s))
       case DisconnectBegin => s.close.Disconnecting?
       case JoinIo => s.close.JoiningIo? && s.io.IoExited?
       case JoinDispatch => s.close.JoiningDispatch? && s.task.Exited?
       case Free => s.close.Freeing?
       case CloseOutgoing => s.close.ClosingOutgoing?
       case IoTake => s.io.IoPolling? && !s.ioStop          // biased select: stop is polled first
       case IoStopSeen => s.io.IoPolling? && s.ioStop
       case IoStreamEnd => s.io.IoPolling?
       case IoCall => s.io.IoGot?
       case IoReturn(_) => s.io.IoInCallback?
       case TaskTake => s.task.Polling? && !s.taskStop
       case TaskStopSeen => s.task.Polling? && s.taskStop
       case TaskStreamEnd => s.task.Polling?
       case TaskCall => s.task.Got?
       case Refuse(why) =>
         s.task.InCallback? && s.task.t < |s.payloads|
         && (why.QueueFull? ==> !s.pool.pendingAdd && !Pool.CanAccept(s.pool))
       case EnqueueSend =>
         s.task.InCallback? && s.task.t < |s.payloads| && Pool.Enabled(s.pool, Pool.EnqueueSend(s.task.t))
       case EnqueueAdd => s.task.Adding? && Pool.Enabled(s.pool, Pool.EnqueueAdd)
       case Reply => s.task.Replying? && s.task.t < |s.payloads| && HasSlot(s)
       case Consume => s.receiverAlive && s.replies > 0
       case SelfReport => s.go.connected && s.receiverAlive && HasSlot(s)
       case DropReceiver => true
  }

  /** The faults after a call on the native connection that succeeds if `ok`. */
  function CallFaults(s: State, ok: bool): Faults {
    s.faults.(useAfterFree := s.faults.useAfterFree || s.native.freed, invalidState := s.faults.invalidState || !ok)
  }

  function NativeRet(c: Native.Conn, call: Native.Call): Native.Ret {
    if c.freed then Native.InvalidState else Native.Step(c, call).1
  }

  function AfterCall(c: Native.Conn, call: Native.Call): Native.Conn {
    if c.freed then c else Native.Step(c, call).0
  }

  /** A lifecycle call on the native connection, noting what must not happen. */
  function NativeCall(s: State, call: Native.Call): State {
    s.(native := AfterCall(s.native, call), faults := CallFaults(s, NativeRet(s.native, call).Success?))
  }

  /** send_response for payload `t` completes, on a reply stream that may be gone. */
  function SendResponse(s: State, t: nat): State
    requires t < |s.payloads|
  {
    s.(payloads := s.payloads[t := AddResult(s.payloads[t], s.receiverAlive)],
       replies := s.replies + if s.receiverAlive then 1 else 0)
  }

  function AddResult(p: Payload, receiverAlive: bool): Payload {
    if receiverAlive then p.(delivered := p.delivered + 1) else p.(lost := p.lost + 1)
  }

  predicate IsSink(p: Pool.Label) { Pool.IsSinkCall(p) || Pool.IsSinkReturn(p) }

  /**
   rc_conn_dispatch_result and rc_conn_dispatch_error use the connection from the start
   of the call to its return, and drop the result if it does not find it connected.
   */
  function SinkFaults(s: State, p: Pool.Label): Faults {
    if !IsSink(p) then s.faults
    else
      CallFaults(s, true).(droppedResult := s.faults.droppedResult || (Pool.IsSinkCall(p) && !s.native.phase.Connected?))
  }

  /** What goSendCb finds when it runs. */
  function SendCallback(s: State): State {
    s.(faults := s.faults.(sendOnClosed := s.faults.sendOnClosed || s.outgoingClosed,
                           useAfterFree := s.faults.useAfterFree || s.handleReleased))
  }

  function ApplyPool(s: State, p: Pool.Label): State
    requires Enabled(s, PoolStep(p))
  {
    s.(pool := Pool.Apply(s.pool, p), faults := SinkFaults(s, p),
       payloads := if Pool.IsSinkReturn(p) then SendResponse(s, s.pool.jobs[p.i].corr).payloads else s.payloads,
       replies := if Pool.IsSinkReturn(p) then SendResponse(s, s.pool.jobs[p.i].corr).replies else s.replies,
       close := if !p.WaitReturn? then s.close else if s.close.wasConnected then Disconnecting else Freeing)
  }

  function ApplyGo(s: State, l: Label): State
    requires Enabled(s, l)
  {
    match l
    case Connected =>
      var (go, e) := Lifecycle.MarkConnected(s.go);
      if !e.NoError? then s
      else
        var t := NativeCall(s.(go := go), Native.SetConnected);
        if t.native.phase.Connected? then t.(io := IoPolling, task := Polling) else t
    case Recv =>
      if !Lifecycle.CheckRecvable(s.go).NoError? then s
      else NativeCall(s, Native.Recv(1)).(received := s.received + if NativeRet(s.native, Native.Recv(1)).Success? then 1 else 0)
    case CloseBegin =>
      var (go, was, e) := Lifecycle.MarkClosed(s.go);
      if e.NoError? then s.(go := go, close := PoolDraining(was)) else s
    case DisconnectBegin =>
      // set_disconnected swaps the state, cancels both tokens, joins the tasks, and then publishes
      var ok := Native.BeginDisconnect(s.native).1.Success?;
      s.(disconnects := s.disconnects + 1, native := Native.BeginDisconnect(s.native).0, faults := CallFaults(s, ok),
         close := if ok then JoiningIo else Freeing, ioStop := s.ioStop || ok, taskStop := s.taskStop || ok)
    case JoinIo => s.(close := JoiningDispatch)
    case JoinDispatch => s.(close := Freeing, native := Native.EndDisconnect(s.native))
    case Free => NativeCall(s.(frees := s.frees + 1), Native.Free).(close := ClosingOutgoing, handleReleased := true)
    case CloseOutgoing => s.(close := Closed, outgoingClosed := true)
    case _ => s
  }

  function ApplyIo(s: State, l: Label): State
    requires Enabled(s, l)
  {
    match l
    case IoTake => s.(io := IoGot)
    case IoStopSeen => s.(io := IoExited)
    case IoStreamEnd => s.(io := IoExited)
    case IoCall => SendCallback(s.(io := IoInCallback))
    case IoReturn(ok) => SendCallback(s.(io := if ok then IoPolling else IoExited))
    case _ => s
  }

  function ApplyTask(s: State, l: Label): State
    requires Enabled(s, l)
  {
    match l
    case TaskTake => s.(task := Got)
    case TaskStopSeen => s.(task := Exited)
    case TaskStreamEnd => s.(task := Exited)
    case TaskCall =>
      s.(task := InCallback(|s.payloads|), payloads := s.payloads + [Payload(Deciding, 0, 0)],
         faults := s.faults.(useAfterFree := s.faults.useAfterFree || s.handleReleased))
    case Refuse(_) =>
      s.(task := Replying(s.task.t), payloads := s.payloads[s.task.t := s.payloads[s.task.t].(route := ByTask)])
    case EnqueueSend =>
      s.(task := Adding(s.task.t), pool := Pool.Apply(s.pool, Pool.EnqueueSend(s.task.t)),
         payloads := s.payloads[s.task.t := s.payloads[s.task.t].(route := ByPool(|s.pool.jobs|))])
    case EnqueueAdd => s.(task := Polling, pool := Pool.Apply(s.pool, Pool.EnqueueAdd))
    case Reply => SendResponse(s, s.task.t).(task := if s.receiverAlive then Polling else Exited)
    case _ => s
  }

  predicate IsIo(l: Label) { l.IoTake? || l.IoStopSeen? || l.IoStreamEnd? || l.IoCall? || l.IoReturn? }
  predicate IsTask(l: Label) {
    l.TaskTake? || l.TaskStopSeen? || l.TaskStreamEnd? || l.TaskCall? || l.Refuse? || l.EnqueueSend? || l.EnqueueAdd?
    || l.Reply?
  }

  predicate IsTeardown(l: Label) { l.DisconnectBegin? || l.JoinIo? || l.JoinDispatch? || l.Free? || l.CloseOutgoing? }

  /** The client library consumes a reply, reports a failed publish itself, or drops its receiver. */
  function ApplyLibrary(s: State, l: Label): State
    requires Enabled(s, l)
  {
    match l
    case Consume => s.(replies := s.replies - 1)
    case SelfReport => s.(replies := s.replies + 1)
    case DropReceiver => s.(receiverAlive := false, replies := 0)
    case _ => s
  }

  predicate IsLibrary(l: Label) { l.Consume? || l.SelfReport? || l.DropReceiver? }

  function Apply(s: State, l: Label): State
    requires Enabled(s, l)
  {
    if l.PoolStep? then ApplyPool(s, l.l)
    else if IsLibrary(l) then ApplyLibrary(s, l)
    else if IsIo(l) then ApplyIo(s, l)
    else if IsTask(l) then ApplyTask(s, l)
    else ApplyGo(s, l)
  }

  ghost predicate Reaches(s: State, ls: seq<Label>, t: State)
    decreases |ls|
  {
    if ls == [] then s == t else Enabled(s, ls[0]) && Reaches(Apply(s, ls[0]), ls[1..], t)
  }

  // ---- The invariant ----

  function Stage(c: Close): nat {
    match c
    case NotClosing => 0 case PoolDraining(_) => 1 case Disconnecting => 2 case JoiningIo => 3
    case JoiningDispatch => 4 case Freeing => 5 case ClosingOutgoing => 6 case Closed => 7
  }

  /** The native phase that the Go flags and the progress of Close stand for. */
  function ExpectedPhase(s: State): Native.Phase {
    if !s.go.connected then Native.Configured
    else if Stage(s.close) <= 2 then Native.Connected
    else Native.Disconnected
  }

  ghost predicate LifecycleOk(s: State) {
    var stage := Stage(s.close);
    && (s.go.closed <==> stage >= 1)
    && (s.close.PoolDraining? ==> s.close.wasConnected == s.go.connected)
    && (2 <= stage <= 4 ==> s.go.connected)
    && (stage == 0 ==> s.pool.shutdown.Serving?)
    && (stage == 1 ==> !s.pool.shutdown.ShutDown?)
    && (stage >= 2 ==> s.pool.shutdown.ShutDown?)
    && s.native.phase == ExpectedPhase(s)
    && Native.TraceOk(if 3 <= stage <= 4 then Native.EndDisconnect(s.native) else s.native)
    && (s.native.freed <==> stage >= 6)
    && s.disconnects == (if s.go.connected && stage >= 3 then 1 else 0)
    && s.frees == (if stage >= 6 then 1 else 0)
    && (s.handleReleased <==> stage >= 6)
    && (s.outgoingClosed <==> stage >= 7)
  }

  ghost predicate TasksOk(s: State) {
    var stage := Stage(s.close);
    && (s.go.connected <==> !s.io.IoUnspawned?)
    && (s.go.connected <==> !s.task.Unspawned?)
    && (s.ioStop <==> s.go.connected && stage >= 3)
    && (s.taskStop <==> s.ioStop)
    && (stage >= 4 ==> s.io.IoUnspawned? || s.io.IoExited?)
    && (stage >= 5 ==> s.task.Unspawned? || s.task.Exited?)
    && (s.pool.pendingAdd <==> s.task.Adding?)
  }

  /** The results a payload has had so far, given where its answer stands. */
  ghost predicate PayloadOk(s: State, t: nat)
    requires t < |s.payloads|
  {
    var p := s.payloads[t];
    && (s.receiverAlive ==> p.lost == 0)
    && match p.route
       case Deciding => s.task == InCallback(t) && p.delivered + p.lost == 0
       case ByPool(i) =>
         i < |s.pool.jobs| && s.pool.jobs[i].corr == t && p.delivered + p.lost == Pool.Returned(s.pool.jobs[i])
       case ByTask => p.delivered + p.lost == if s.task == Replying(t) then 0 else 1
  }

  ghost predicate PayloadsOk(s: State) {
    && (s.payloads != [] ==> s.go.connected)
    && (forall t :: 0 <= t < |s.payloads| ==> PayloadOk(s, t))
    && (forall i :: 0 <= i < |s.pool.jobs| ==>
          s.pool.jobs[i].corr < |s.payloads| && s.payloads[s.pool.jobs[i].corr].route == ByPool(i))
    && (s.task.InCallback? ==> s.task.t < |s.payloads| && s.payloads[s.task.t].route.Deciding?)
    && (s.task.Adding? ==> s.task.t < |s.payloads| && s.payloads[s.task.t].route.ByPool?)
    && (s.task.Replying? ==> s.task.t < |s.payloads| && s.payloads[s.task.t].route.ByTask?)
  }

  const NO_FAULTS := Faults(false, false, false, false)

  ghost predicate Inv(s: State) {
    && Pool.Inv(s.pool) && LifecycleOk(s) && TasksOk(s) && PayloadsOk(s) && s.faults == NO_FAULTS
    && s.replies <= Interconnect.REPLY_CAP && (!s.receiverAlive ==> s.replies == 0)
  }

  lemma InitInv()
    ensures Inv(Init())
  {
    Pool.InitInv();
  }

  // ---- Every step keeps it ----

  predicate Passive(task: DispatchTask) { !task.InCallback? && !task.Replying? }

  /** Steps that send no result and route no payload. */
  lemma PayloadsFrame(s: State, u: State)
    requires PayloadsOk(s) && u.payloads == s.payloads && (s.go.connected ==> u.go.connected)
    requires u.receiverAlive ==> s.receiverAlive
    requires |u.pool.jobs| == |s.pool.jobs|
    requires forall i :: 0 <= i < |s.pool.jobs| ==>
               u.pool.jobs[i].corr == s.pool.jobs[i].corr && Pool.Returned(u.pool.jobs[i]) == Pool.Returned(s.pool.jobs[i])
    requires u.task == s.task || (Passive(s.task) && Passive(u.task) && !u.task.Adding?)
    ensures PayloadsOk(u)
  {
    forall t | 0 <= t < |u.payloads| ensures PayloadOk(u, t) { assert PayloadOk(s, t); }
  }

  predicate IsGo(l: Label) { !l.PoolStep? && !IsLibrary(l) && !IsIo(l) && !IsTask(l) }

  /** What a step of the Go side leaves alone. */
  predicate GoFrame(s: State, u: State) {
    && u.pool == s.pool && u.payloads == s.payloads && u.receiverAlive == s.receiverAlive && u.replies == s.replies
    && (s.go.connected ==> u.go.connected) && (u.task == s.task || (s.task.Unspawned? && u.task.Polling?))
  }

  lemma TeardownStep(s: State, l: Label)
    requires LifecycleOk(s) && TasksOk(s) && s.faults == NO_FAULTS && Enabled(s, l) && IsTeardown(l)
    ensures var u := ApplyGo(s, l); LifecycleOk(u) && TasksOk(u) && u.faults == NO_FAULTS && GoFrame(s, u)
  {
    hide Pool.Enabled, Pool.Apply, Pool.CanAccept;
  }

  /** What a step of the teardown leaves alone. */
  predicate TeardownFrame(s: State, u: State) {
    && Stage(u.close) > Stage(s.close) && u.pool == s.pool && u.go == s.go && u.io == s.io && u.task == s.task
    && u.receiverAlive == s.receiverAlive && u.replies == s.replies
  }

  lemma TeardownShape(s: State, l: Label)
    requires Enabled(s, l) && IsTeardown(l)
    ensures TeardownFrame(s, ApplyGo(s, l))
  {
    hide Pool.Crashed, AfterCall, NativeRet;
  }

  lemma HostCallStep(s: State, l: Label)
    requires LifecycleOk(s) && TasksOk(s) && s.faults == NO_FAULTS && Enabled(s, l)
    requires l.Connected? || l.Recv? || l.CloseBegin?
    ensures var u := ApplyGo(s, l); LifecycleOk(u) && TasksOk(u) && u.faults == NO_FAULTS && GoFrame(s, u)
  {
    hide Pool.Enabled, Pool.Apply, Pool.CanAccept;
  }

  lemma IoStep(s: State, l: Label)
    requires LifecycleOk(s) && TasksOk(s) && s.faults == NO_FAULTS && Enabled(s, l) && IsIo(l)
    ensures var u := ApplyIo(s, l);
            && LifecycleOk(u) && TasksOk(u) && u.faults == NO_FAULTS
            && u == s.(io := u.io)
  {
  }

  /** The dispatch task moves without touching the pool. */
  lemma TaskStep(s: State, l: Label)
    requires LifecycleOk(s) && TasksOk(s) && s.faults == NO_FAULTS
    requires Enabled(s, l) && IsTask(l) && !l.EnqueueSend? && !l.EnqueueAdd?
    ensures var u := ApplyTask(s, l); LifecycleOk(u) && TasksOk(u) && u.faults == NO_FAULTS && u.pool == s.pool
    ensures var u := ApplyTask(s, l);
            && u.receiverAlive == s.receiverAlive && (s.replies <= Interconnect.REPLY_CAP ==> u.replies <= Interconnect.REPLY_CAP)
            && (!s.receiverAlive ==> u.replies == s.replies)
  {
  }

  lemma CallPayloads(s: State)
    requires PayloadsOk(s) && Enabled(s, TaskCall) && s.go.connected
    ensures PayloadsOk(ApplyTask(s, TaskCall))
  {
    var u := ApplyTask(s, TaskCall);
    forall t | 0 <= t < |u.payloads| ensures PayloadOk(u, t) {
      if t < |s.payloads| { assert PayloadOk(s, t); }
    }
  }

  lemma RefusePayloads(s: State, l: Label)
    requires PayloadsOk(s) && Enabled(s, l) && l.Refuse?
    ensures PayloadsOk(ApplyTask(s, l))
  {
    hide Pool.Enabled, Pool.Apply, Pool.CanAccept;
    var u := ApplyTask(s, l);
    forall t | 0 <= t < |u.payloads| ensures PayloadOk(u, t) { assert PayloadOk(s, t); }
  }

  lemma ReplyPayloads(s: State)
    requires PayloadsOk(s) && Enabled(s, Reply)
    ensures PayloadsOk(ApplyTask(s, Reply))
  {
    hide Pool.Crashed;
    var u := ApplyTask(s, Reply);
    forall t | 0 <= t < |u.payloads| ensures PayloadOk(u, t) { assert PayloadOk(s, t); }
  }

  lemma TaskPayloads(s: State, l: Label)
    requires PayloadsOk(s) && Enabled(s, l) && IsTask(l) && !l.EnqueueSend? && !l.EnqueueAdd?
    requires s.task.Got? ==> s.go.connected
    ensures PayloadsOk(ApplyTask(s, l))
  {
    hide Pool.Enabled, Pool.Apply, Pool.CanAccept, PayloadsOk;
    if l.TaskCall? {
      CallPayloads(s);
    } else if l.Refuse? {
      RefusePayloads(s, l);
    } else if l.Reply? {
      ReplyPayloads(s);
    } else {
      PayloadsFrame(s, ApplyTask(s, l));
    }
  }

  lemma EnqueuePayloads(s: State, u: State)
    requires PayloadsOk(s) && s.task.InCallback? && s.task.t < |s.payloads|
    requires u.task == Adding(s.task.t) && u.go == s.go && u.receiverAlive == s.receiverAlive
    requires u.payloads == s.payloads[s.task.t := s.payloads[s.task.t].(route := ByPool(|s.pool.jobs|))]
    requires |u.pool.jobs| == |s.pool.jobs| + 1 && u.pool.jobs[|s.pool.jobs|] == Pool.FreshJob(s.task.t)
    requires forall i :: 0 <= i < |s.pool.jobs| ==>
               u.pool.jobs[i].corr == s.pool.jobs[i].corr && Pool.Returned(u.pool.jobs[i]) == Pool.Returned(s.pool.jobs[i])
    ensures PayloadsOk(u)
  {
    forall t | 0 <= t < |u.payloads| ensures PayloadOk(u, t) { assert PayloadOk(s, t); }
  }

  lemma EnqueueStep(s: State, l: Label)
    requires Inv(s) && Enabled(s, l) && (l.EnqueueSend? || l.EnqueueAdd?)
    ensures Inv(ApplyTask(s, l))
  {
    hide Pool.Inv, Pool.Apply;
    var p := if l.EnqueueSend? then Pool.EnqueueSend(s.task.t) else Pool.EnqueueAdd;
    var u := ApplyTask(s, l);
    Pool.StepKeepsInv(s.pool, p);
    Pool.StepFrame(s.pool, p);
    if l.EnqueueSend? { EnqueuePayloads(s, u); } else { PayloadsFrame(s, u); }
  }

  lemma SinkIsConnected(s: State, p: Pool.Label)
    requires Inv(s) && Enabled(s, PoolStep(p)) && IsSink(p)
    ensures s.native.phase.Connected? && !s.native.freed && Stage(s.close) <= 1 && p.i < |s.pool.jobs|
  {
    Pool.SinkCallBeforeShutDown(s.pool, p);
  }

  lemma SinkPayloads(s: State, i: nat, u: State)
    requires PayloadsOk(s) && i < |s.pool.jobs| && u.payloads == SendResponse(s, s.pool.jobs[i].corr).payloads
    requires u.task == s.task && u.go == s.go && u.receiverAlive == s.receiverAlive
    requires |u.pool.jobs| == |s.pool.jobs|
    requires forall k :: 0 <= k < |s.pool.jobs| ==>
               && u.pool.jobs[k].corr == s.pool.jobs[k].corr
               && Pool.Returned(u.pool.jobs[k]) == Pool.Returned(s.pool.jobs[k]) + (if k == i then 1 else 0)
    ensures PayloadsOk(u)
  {
    forall t | 0 <= t < |u.payloads| ensures PayloadOk(u, t) { assert PayloadOk(s, t); }
  }

  lemma PoolLifecycle(s: State, p: Pool.Label, u: State)
    requires LifecycleOk(s) && TasksOk(s) && (u.close != s.close ==> p.WaitReturn? && s.close.PoolDraining?)
    requires u == s.(pool := u.pool, payloads := u.payloads, replies := u.replies, close := u.close)
    requires p.WaitReturn? ==> s.close.PoolDraining? && u.close == if s.close.wasConnected then Disconnecting else Freeing
    requires u.pool.pendingAdd == s.pool.pendingAdd
    requires p.ClearAccepting? || p.CloseStop? ==> s.close.PoolDraining?
    requires u.pool.shutdown == match p case ClearAccepting => Pool.Refusing case CloseStop => Pool.Stopped
                                        case WaitReturn => Pool.ShutDown case _ => s.pool.shutdown
    ensures LifecycleOk(u) && TasksOk(u)
  {
  }

  lemma NoSinkFaults(s: State, p: Pool.Label)
    requires s.faults == NO_FAULTS && (IsSink(p) ==> s.native.phase.Connected? && !s.native.freed)
    ensures SinkFaults(s, p) == NO_FAULTS
  {
  }

  lemma PoolStepKeepsInv(s: State, p: Pool.Label)
    requires Inv(s) && Enabled(s, PoolStep(p))
    ensures Inv(ApplyPool(s, p))
  {
    hide Pool.Inv, LifecycleOk, TasksOk, PayloadsOk, Pool.Apply, Pool.Enabled, SinkFaults;
    var u := ApplyPool(s, p);
    Pool.StepKeepsInv(s.pool, p);
    Pool.StepFrame(s.pool, p);
    if IsSink(p) { SinkIsConnected(s, p); }
    NoSinkFaults(s, p);
    if Pool.IsSinkReturn(p) {
      SinkPayloads(s, p.i, u);
    } else {
      PayloadsFrame(s, u);
    }
    PoolLifecycle(s, p, u);
  }

  lemma IoKeepsInv(s: State, l: Label)
    requires Inv(s) && Enabled(s, l) && IsIo(l)
    ensures Inv(ApplyIo(s, l))
  {
    hide Pool.Inv, LifecycleOk, TasksOk, PayloadsOk;
    IoStep(s, l);
    PayloadsFrame(s, ApplyIo(s, l));
  }

  lemma TaskKeepsInv(s: State, l: Label)
    requires Inv(s) && Enabled(s, l) && IsTask(l)
    ensures Inv(ApplyTask(s, l))
  {
    hide Pool.Inv, LifecycleOk, PayloadsOk, ApplyTask;
    if l.EnqueueSend? || l.EnqueueAdd? {
      EnqueueStep(s, l);
    } else {
      TaskStep(s, l);
      TaskPayloads(s, l);
    }
  }

  lemma GoKeepsInv(s: State, l: Label)
    requires Inv(s) && Enabled(s, l) && IsGo(l)
    ensures Inv(ApplyGo(s, l))
  {
    hide Pool.Inv, LifecycleOk, TasksOk, PayloadsOk, ApplyGo;
    if l.Connected? || l.Recv? || l.CloseBegin? { HostCallStep(s, l); } else { TeardownStep(s, l); }
    PayloadsFrame(s, ApplyGo(s, l));
  }

  lemma LibraryKeepsInv(s: State, l: Label)
    requires Inv(s) && Enabled(s, l) && IsLibrary(l)
    ensures Inv(ApplyLibrary(s, l))
  {
    hide Pool.Inv, PayloadsOk;
    PayloadsFrame(s, ApplyLibrary(s, l));
  }

  lemma StepKeepsInv(s: State, l: Label)
    requires Inv(s) && Enabled(s, l)
    ensures Inv(Apply(s, l))
  {
    hide Inv, ApplyPool, ApplyIo, ApplyTask, ApplyGo, ApplyLibrary;
    if l.PoolStep? {
      PoolStepKeepsInv(s, l.l);
    } else if IsLibrary(l) {
      LibraryKeepsInv(s, l);
    } else if IsIo(l) {
      IoKeepsInv(s, l);
    } else if IsTask(l) {
      TaskKeepsInv(s, l);
    } else {
      GoKeepsInv(s, l);
    }
  }

  lemma {:induction false} RunKeepsInv(s: State, ls: seq<Label>, t: State)
    requires Inv(s) && Reaches(s, ls, t)
    ensures Inv(t)
    decreases |ls|
  {
    if ls != [] {
      StepKeepsInv(s, ls[0]);
      RunKeepsInv(Apply(s, ls[0]), ls[1..], t);
    }
  }

  lemma ReachableInv(ls: seq<Label>, s: State)
    requires Reaches(Init(), ls, s)
    ensures Inv(s)
  {
    InitInv();
    RunKeepsInv(Init(), ls, s);
  }

  // ---- Theorems over every interleaving ----

  /**
   No interleaving makes a native call return InvalidState, drops a dispatch
   result, sends on the closed outgoing channel, or uses a freed connection.
   */
  lemma NeverFaults(ls: seq<Label>, s: State)
    requires Reaches(Init(), ls, s)
    ensures s.faults == NO_FAULTS
  {
    ReachableInv(ls, s);
  }

  /**
   The Go flags refine the native state: open and not connected is Configured,
   open and connected is Connected, and once Close returned it is freed. The native
   side is told to disconnect at most once and is freed at most once, in that order.
   */
  lemma GoRefinesNative(ls: seq<Label>, s: State)
    requires Reaches(Init(), ls, s)
    ensures !s.go.closed ==>
              !s.native.freed && s.native.phase == if s.go.connected then Native.Connected else Native.Configured
    ensures s.close.Closed? ==> s.native.freed && s.frees == 1 && s.disconnects == if s.go.connected then 1 else 0
    ensures s.frees <= 1 && s.disconnects <= 1 && (s.frees == 1 && s.go.connected ==> s.disconnects == 1)
    ensures s.native.events <= Native.FULL_LIFE || s.native.events <= Native.NEVER_CONNECTED
    ensures Native.DisconnectedEvent in s.native.events ==> s.io.IoExited? && s.task.Exited?
  {
    hide Pool.Inv, PayloadsOk, Reaches;
    ReachableInv(ls, s);
    Native.TraceOkMeansLifecycle(if 3 <= Stage(s.close) <= 4 then Native.EndDisconnect(s.native) else s.native);
  }

  /** Whenever an answer begins or completes, the native connection is connected and not freed. */
  lemma SinkCallFindsConnected(ls: seq<Label>, s: State, p: Pool.Label)
    requires Reaches(Init(), ls, s) && Enabled(s, PoolStep(p)) && IsSink(p)
    ensures s.native.phase.Connected? && !s.native.freed
  {
    ReachableInv(ls, s);
    SinkIsConnected(s, p);
  }

  /**
   When Close has returned, every payload ever passed to the dispatch callback has
   had exactly one result sent for it, accepted or refused, before or during the
   teardown; and it was delivered unless the client library dropped its receiver.
   */
  lemma CloseAnswersEveryPayload(ls: seq<Label>, s: State, t: nat)
    requires Reaches(Init(), ls, s) && s.close.Closed? && t < |s.payloads|
    ensures s.payloads[t].delivered + s.payloads[t].lost == 1
    ensures s.receiverAlive ==> s.payloads[t].delivered == 1
  {
    hide Pool.Inv, Reaches;
    ReachableInv(ls, s);
    assert PayloadOk(s, t);
    if s.payloads[t].route.ByPool? { Pool.SentOnce(s.pool, s.payloads[t].route.job); }
  }

  /** At no point has a payload had two results. */
  lemma AtMostOneResult(ls: seq<Label>, s: State, t: nat)
    requires Reaches(Init(), ls, s) && t < |s.payloads|
    ensures s.payloads[t].delivered + s.payloads[t].lost <= 1
  {
    ReachableInv(ls, s);
    assert PayloadOk(s, t);
    if s.payloads[t].route.ByPool? { Pool.SentOnce(s.pool, s.payloads[t].route.job); }
  }

  predicate IsCallback(l: Label) { l.IoCall? || l.TaskCall? }

  lemma {:induction false} StaysQuiet(s: State, ls: seq<Label>, t: State)
    requires Inv(s) && Stage(s.close) >= 5 && Reaches(s, ls, t)
    ensures forall k :: 0 <= k < |ls| ==> !IsCallback(ls[k])
    ensures t.payloads == s.payloads
    decreases |ls|
  {
    hide Pool.Inv, PayloadsOk, LifecycleOk, Apply, Enabled;
    if ls != [] {
      var u := Apply(s, ls[0]);
      StepKeepsInv(s, ls[0]);
      QuietStep(s, ls[0]);
      StaysQuiet(u, ls[1..], t);
      forall k | 0 <= k < |ls| ensures !IsCallback(ls[k]) {
        if k > 0 { assert ls[k] == ls[1..][k - 1]; }
      }
    }
  }

  /** Once rc_conn_disconnected has returned, no callback is running and none ever starts. */
  lemma NoCallbackAfterDisconnect(before: seq<Label>, s: State, ls: seq<Label>, t: State)
    requires Reaches(Init(), before, s) && Stage(s.close) >= 5 && Reaches(s, ls, t)
    ensures !s.io.IoInCallback? && !s.task.InCallback? && !s.task.Adding?
    ensures forall k :: 0 <= k < |ls| ==> !IsCallback(ls[k])
    ensures t.payloads == s.payloads
  {
    ReachableInv(before, s);
    hide Reaches;
    StaysQuiet(s, ls, t);
  }

  lemma QuietStep(s: State, l: Label)
    requires Inv(s) && Stage(s.close) >= 5 && Enabled(s, l)
    ensures Stage(Apply(s, l).close) >= 5 && Apply(s, l).payloads == s.payloads && !IsCallback(l)
  {
    hide Pool.Inv, PayloadsOk, Pool.Apply, Pool.Enabled;
    if l.PoolStep? && IsSink(l.l) { SinkIsConnected(s, l.l); }
  }

  // ---- Building runs ----

  lemma {:induction false} Extend(s: State, ls: seq<Label>, t: State, l: Label)
    requires Reaches(s, ls, t) && Enabled(t, l)
    ensures Reaches(s, ls + [l], Apply(t, l))
    decreases |ls|
  {
    hide Apply, Enabled;
    if ls == [] {
      assert (ls + [l])[1..] == [];
    } else {
      assert (ls + [l])[1..] == ls[1..] + [l];
      Extend(Apply(s, ls[0]), ls[1..], t, l);
    }
  }

  lemma Then(ls: seq<Label>, s: State, l: Label) returns (ls': seq<Label>, t: State)
    requires Reaches(Init(), ls, s) && Enabled(s, l)
    ensures Reaches(Init(), ls', t) && t == Apply(s, l)
  {
    Extend(Init(), ls, s, l);
    ls', t := ls + [l], Apply(s, l);
  }

  lemma ReachesItself(s: State)
    ensures Reaches(s, [], s)
  {
  }
}
