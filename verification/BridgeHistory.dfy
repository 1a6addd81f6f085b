/**
 What the labels of a run say about a connection: who ended its tasks, which calls
 were answered, how callbacks relate to the teardown, and that an open connection
 goes on.
 */
module BridgeHistory {
  import opened Base
  import opened Bridge
  import Pool = InvokePool
  import Native = NativeConnection

  // ---- The history ----

  function Count(h: seq<Label>, l: Label): nat { multiset(h)[l] }

  /** The dispatch task answered a payload after the receiver was gone. */
  predicate LostReply(h: seq<Label>) {
    h != [] && (LostReply(h[..|h| - 1]) || (h[|h| - 1].Reply? && DropReceiver in h[..|h| - 1]))
  }

  /** What ends the dispatch task: its stop token, the end of its stream, or a reply nobody receives. */
  predicate TaskEnded(h: seq<Label>) { TaskStopSeen in h || TaskStreamEnd in h || LostReply(h) }

  /** What ends the I/O task: its stop token, the end of its stream, or a send callback that failed. */
  predicate IoEnded(h: seq<Label>) { IoStopSeen in h || IoStreamEnd in h || IoReturn(false) in h }

  ghost predicate TasksFollow(s: State, h: seq<Label>) {
    && (s.receiverAlive <==> DropReceiver !in h)
    && (s.task.Exited? <==> TaskEnded(h))
    && (s.io.IoExited? <==> IoEnded(h))
    && (TaskStopSeen in h || IoStopSeen in h ==> s.taskStop)
  }

  /** Payloads received while connected. */
  function Received(h: seq<Label>): nat {
    if h == [] then 0
    else
      var k := h[..|h| - 1];
      Received(k) + if h[|h| - 1].Recv? && Connected in k && CloseBegin !in k then 1 else 0
  }

  ghost predicate CallsFollow(s: State, h: seq<Label>) {
    && (s.go.closed <==> CloseBegin in h) && (!s.go.closed ==> (s.go.connected <==> Connected in h))
    && |s.payloads| == Count(h, TaskCall)
    && s.disconnects == Count(h, DisconnectBegin) && s.frees == Count(h, Free)
    && (s.close.Closed? <==> CloseOutgoing in h)
    && s.received == Received(h)
  }

  lemma Longer(h: seq<Label>, l: Label)
    ensures (h + [l])[..|h|] == h && (h + [l])[|h|] == l
    ensures forall x :: Count(h + [l], x) == Count(h, x) + if x == l then 1 else 0
    ensures forall x :: x in h + [l] <==> x in h || x == l
  {
    assert multiset(h + [l]) == multiset(h) + multiset{l};
  }

  /** What a step does to the two tasks and the receiver. */
  ghost predicate TasksMove(s: State, l: Label, u: State) {
    && u.receiverAlive == (s.receiverAlive && !l.DropReceiver?)
    && (u.task.Exited? <==> s.task.Exited? || l.TaskStopSeen? || l.TaskStreamEnd? || (l.Reply? && !s.receiverAlive))
    && (u.io.IoExited? <==> s.io.IoExited? || l.IoStopSeen? || l.IoStreamEnd? || l == IoReturn(false))
    && (s.taskStop || l.TaskStopSeen? || l.IoStopSeen? ==> u.taskStop)
  }

  lemma TasksMoveStep(s: State, l: Label)
    requires Inv(s) && Enabled(s, l)
    ensures TasksMove(s, l, Apply(s, l))
  {
    hide Inv, Enabled, TasksMove, CallsMove, ApplyPool, ApplyTask, ApplyIo, ApplyLibrary, ApplyGo;
    if l.PoolStep? {
      PoolMoves(s, l.l);
    } else if IsTask(l) {
      TaskMoves(s, l);
    } else if IsIo(l) {
      StopsTogether(s);
      IoMoves(s, l);
    } else if IsLibrary(l) {
      LibraryMoves(s, l);
    } else {
      GoTasks(s, l);
    }
  }

  lemma PoolMoves(s: State, p: Pool.Label)
    requires Enabled(s, PoolStep(p))
    ensures TasksMove(s, PoolStep(p), ApplyPool(s, p)) && CallsMove(s, PoolStep(p), ApplyPool(s, p))
  {
    hide Pool.Apply, SinkFaults;
  }

  lemma StopsTogether(s: State)
    requires Inv(s)
    ensures s.ioStop <==> s.taskStop
  {
  }

  lemma IoMoves(s: State, l: Label)
    requires Enabled(s, l) && IsIo(l) && (s.ioStop <==> s.taskStop)
    ensures var u := ApplyIo(s, l); TasksMove(s, l, u) && CallsMove(s, l, u) && u.pool == s.pool
  {
    hide Pool.Enabled;
  }

  lemma LibraryMoves(s: State, l: Label)
    requires Enabled(s, l) && IsLibrary(l)
    ensures var u := ApplyLibrary(s, l); TasksMove(s, l, u) && CallsMove(s, l, u) && u.pool == s.pool
  {
    hide Pool.Enabled;
  }

  lemma TaskMoves(s: State, l: Label)
    requires Enabled(s, l) && IsTask(l)
    ensures TasksMove(s, l, ApplyTask(s, l)) && CallsMove(s, l, ApplyTask(s, l))
  {
    hide Pool.Apply, Pool.Enabled, Pool.CanAccept;
  }

  lemma GoTasks(s: State, l: Label)
    requires Inv(s) && Enabled(s, l) && IsGo(l)
    ensures TasksMove(s, l, ApplyGo(s, l))
  {
    hide Pool.Inv, PayloadsOk, ApplyGo;
    if IsTeardown(l) {
      TeardownShape(s, l);
      if s.taskStop { StopStays(s, l); }
    } else {
      HostCallStep(s, l);
      HostCallIo(s, l);
    }
  }

  lemma HostCallIo(s: State, l: Label)
    requires Inv(s) && Enabled(s, l) && (l.Connected? || l.Recv? || l.CloseBegin?)
    ensures var u := ApplyGo(s, l); (u.io == s.io || (s.io.IoUnspawned? && u.io.IoPolling?)) && u.taskStop == s.taskStop
  {
    hide Pool.Inv, PayloadsOk, Pool.Enabled;
  }

  lemma TasksFollowStep(s: State, h: seq<Label>, l: Label)
    requires Inv(s) && TasksFollow(s, h) && Enabled(s, l)
    ensures TasksFollow(Apply(s, l), h + [l])
  {
    hide Inv, Apply, Enabled, Count;
    TasksMoveStep(s, l);
    Longer(h, l);
  }

  /** What a step does to the flags, the payloads and the counts. */
  ghost predicate CallsMove(s: State, l: Label, u: State) {
    && (u.go.closed <==> s.go.closed || l.CloseBegin?)
    && (!u.go.closed ==> (u.go.connected <==> s.go.connected || l.Connected?))
    && |u.payloads| == |s.payloads| + (if l.TaskCall? then 1 else 0)
    && u.disconnects == s.disconnects + (if l.DisconnectBegin? then 1 else 0)
    && u.frees == s.frees + (if l.Free? then 1 else 0)
    && (u.close.Closed? <==> s.close.Closed? || l.CloseOutgoing?)
    && u.received == s.received + (if l.Recv? && s.go.connected && !s.go.closed then 1 else 0)
  }

  lemma CallsMoveStep(s: State, l: Label)
    requires Inv(s) && Enabled(s, l)
    ensures CallsMove(s, l, Apply(s, l))
  {
    hide Inv, Enabled, TasksMove, CallsMove, ApplyPool, ApplyTask, ApplyIo, ApplyLibrary, ApplyGo;
    if l.PoolStep? {
      PoolMoves(s, l.l);
    } else if IsTask(l) {
      TaskMoves(s, l);
    } else if IsIo(l) {
      StopsTogether(s);
      IoMoves(s, l);
    } else if IsLibrary(l) {
      LibraryMoves(s, l);
    } else {
      GoCalls(s, l);
    }
  }

  lemma GoCalls(s: State, l: Label)
    requires Inv(s) && Enabled(s, l) && IsGo(l)
    ensures CallsMove(s, l, ApplyGo(s, l))
  {
    hide Pool.Inv, PayloadsOk, TasksOk, Pool.Enabled, Native.BeginDisconnect;
  }

  lemma CallsFollowStep(s: State, h: seq<Label>, l: Label)
    requires Inv(s) && CallsFollow(s, h) && Enabled(s, l)
    ensures CallsFollow(Apply(s, l), h + [l])
  {
    hide Inv, Apply, Enabled, Count;
    CallsMoveStep(s, l);
    Longer(h, l);
  }

  lemma {:induction false} RunHistory(s: State, h: seq<Label>, ls: seq<Label>, t: State)
    requires Inv(s) && TasksFollow(s, h) && CallsFollow(s, h) && Reaches(s, ls, t)
    ensures TasksFollow(t, h + ls) && CallsFollow(t, h + ls)
    decreases |ls|
  {
    hide Inv, TasksFollow, CallsFollow, Apply, Enabled;
    if ls == [] {
      assert h + ls == h;
    } else {
      StepKeepsInv(s, ls[0]);
      TasksFollowStep(s, h, ls[0]);
      CallsFollowStep(s, h, ls[0]);
      assert h + ls == h + [ls[0]] + ls[1..];
      RunHistory(Apply(s, ls[0]), h + [ls[0]], ls[1..], t);
    }
  }

  /**
   The connection is what the labels of the run say: each task has exited exactly if
   something that ends it happened, the flags are those of the calls made, there is one
   payload per dispatch callback, and disconnect and free happened as often as recorded.
   */
  lemma StateFollowsHistory(ls: seq<Label>, s: State)
    requires Reaches(Init(), ls, s)
    ensures TasksFollow(s, ls) && CallsFollow(s, ls)
  {
    InitInv();
    hide Reaches;
    RunHistory(Init(), [], ls, s);
    assert [] + ls == ls;
  }

  // ---- Callbacks and the teardown, by labels ----

  /** The host's side of a callback runs at these steps. */
  predicate InHost(l: Label) { l.IoCall? || l.IoReturn? || l.TaskCall? || l.Refuse? || l.EnqueueSend? || l.EnqueueAdd? }

  lemma StageFollows(ls: seq<Label>, s: State)
    requires Reaches(Init(), ls, s)
    ensures Inv(s) && (Free in ls <==> Stage(s.close) >= 6) && (DisconnectBegin in ls <==> s.taskStop)
    ensures s.taskStop ==> s.ioStop
  {
    ReachableInv(ls, s);
    StateFollowsHistory(ls, s);
    hide Reaches, PayloadsOk, Pool.Inv;
    assert Free in ls <==> Count(ls, Free) > 0;
    assert DisconnectBegin in ls <==> Count(ls, DisconnectBegin) > 0;
  }

  /** No callback ever runs after rc_conn_free, so it finds its handle and the outgoing channel open. */
  lemma CallbackBeforeFree(ls: seq<Label>, s: State, l: Label)
    requires Reaches(Init(), ls, s) && Enabled(s, l) && InHost(l)
    ensures Free !in ls && CloseOutgoing !in ls && !s.handleReleased && !s.outgoingClosed
  {
    hide Reaches, Inv, Enabled, TasksFollow, Count, Received;
    StageFollows(ls, s);
    StateFollowsHistory(ls, s);
    CallbackStage(s, l);
  }

  lemma CallbackStage(s: State, l: Label)
    requires Inv(s) && Enabled(s, l) && InHost(l)
    ensures Stage(s.close) <= 4 && !s.handleReleased && !s.outgoingClosed
  {
    hide PayloadsOk, Pool.Inv, Pool.Enabled;
  }

  /** What each branch records that must not be taken, reachable or not. */
  lemma FaultsAreRecorded(s: State, l: Label)
    requires Enabled(s, l)
    ensures l.IoCall? && s.outgoingClosed ==> Apply(s, l).faults.sendOnClosed
    ensures (l.IoCall? || l.TaskCall?) && s.handleReleased ==> Apply(s, l).faults.useAfterFree
    ensures l.Free? && (s.native.freed || s.native.phase.Connected?) ==>
              Apply(s, l).faults.useAfterFree || Apply(s, l).faults.invalidState
    ensures l.DisconnectBegin? && !s.native.phase.Connected? ==> Apply(s, l).faults.invalidState
    ensures l.PoolStep? && Pool.IsSinkCall(l.l) && !s.native.phase.Connected? ==> Apply(s, l).faults.droppedResult
    ensures l.PoolStep? && IsSink(l.l) && s.native.freed ==> Apply(s, l).faults.useAfterFree
  {
    hide Pool.Apply, Pool.Enabled;
  }

  function Fetched(s: State): nat { if s.task.Got? then 1 else 0 }
  function IoFetched(s: State): nat { if s.io.IoGot? then 1 else 0 }

  lemma StoppedTasksStep(s: State, l: Label)
    requires Inv(s) && s.taskStop && Enabled(s, l)
    ensures var u := Apply(s, l);
            && u.taskStop && Fetched(u) + (if l.TaskCall? then 1 else 0) == Fetched(s)
            && IoFetched(u) + (if l.IoCall? then 1 else 0) == IoFetched(s)
  {
    hide Pool.Inv, PayloadsOk, Pool.Apply, Pool.Enabled, SinkFaults, ApplyGo;
    if IsTeardown(l) { TeardownShape(s, l); StopStays(s, l); }
    if l.Connected? || l.Recv? || l.CloseBegin? { RefusedCallChangesNothing(s, l); }
  }

  lemma StopStays(s: State, l: Label)
    requires Enabled(s, l) && IsTeardown(l) && s.taskStop
    ensures ApplyGo(s, l).taskStop
  {
    hide AfterCall, NativeRet;
  }

  lemma RefusedCallChangesNothing(s: State, l: Label)
    requires Enabled(s, l) && (l.Connected? || l.Recv? || l.CloseBegin?) && s.go.closed
    ensures ApplyGo(s, l) == s
  {
  }

  lemma {:induction false} StoppedTasksRun(s: State, ls: seq<Label>, t: State)
    requires Inv(s) && s.taskStop && Reaches(s, ls, t)
    ensures Count(ls, TaskCall) <= Fetched(s) && Count(ls, IoCall) <= IoFetched(s)
    decreases |ls|
  {
    hide Inv, Apply, Enabled;
    if ls != [] {
      StepKeepsInv(s, ls[0]);
      StoppedTasksStep(s, ls[0]);
      StoppedTasksRun(Apply(s, ls[0]), ls[1..], t);
      assert ls == [ls[0]] + ls[1..];
      assert multiset(ls) == multiset{ls[0]} + multiset(ls[1..]);
    }
  }

  /**
   Each task makes at most one more callback after its stop token is cancelled: for a
   payload it had already taken.
   */
  lemma AtMostOneCallbackAfterStop(before: seq<Label>, s: State, ls: seq<Label>, t: State)
    requires Reaches(Init(), before, s) && DisconnectBegin in before && Reaches(s, ls, t)
    ensures Count(ls, TaskCall) <= (if s.task.Got? then 1 else 0) && Count(ls, IoCall) <= if s.io.IoGot? then 1 else 0
  {
    StageFollows(before, s);
    hide Inv;
    StoppedTasksRun(s, ls, t);
  }

  /**
   Connected, Recv and Close are answered whenever none of them is under way, and change
   something only as allowed.
   */
  lemma HostCallsAnswered(ls: seq<Label>, s: State, l: Label)
    requires Reaches(Init(), ls, s) && !Pool.Crashed(s.pool) && (CloseBegin !in ls || CloseOutgoing in ls)
    requires l.Connected? || l.Recv? || l.CloseBegin?
    ensures Enabled(s, l) && (CloseBegin in ls ==> Apply(s, l) == s)
    ensures l.Connected? && CloseBegin !in ls ==>
              if Connected in ls then Apply(s, l) == s else Apply(s, l).native.phase.Connected?
    ensures l.Recv? && CloseBegin !in ls ==>
              if Connected in ls then Apply(s, l).received == s.received + 1 else Apply(s, l) == s
  {
    ReachableInv(ls, s);
    StateFollowsHistory(ls, s);
    hide Reaches, Count, Received, TasksFollow;
    HostCallAnswer(s, l);
    hide Inv, Enabled, Apply;
  }

  lemma HostCallAnswer(s: State, l: Label)
    requires Inv(s) && !Pool.Crashed(s.pool) && (!s.go.closed || s.close.Closed?)
    requires l.Connected? || l.Recv? || l.CloseBegin?
    ensures Enabled(s, l) && (s.go.closed ==> Apply(s, l) == s)
    ensures l.Connected? && !s.go.closed ==>
              if s.go.connected then Apply(s, l) == s else Apply(s, l).native.phase.Connected?
    ensures l.Recv? && !s.go.closed ==>
              if s.go.connected then Apply(s, l).received == s.received + 1 else Apply(s, l) == s
  {
    hide PayloadsOk, Pool.Inv, TasksOk;
  }

  /**
   While its receiver lives, the client library can consume exactly if a reply is queued,
   and report exactly if a slot is free.
   */
  lemma LibraryMayMove(ls: seq<Label>, s: State)
    requires Reaches(Init(), ls, s) && !Pool.Crashed(s.pool)
    requires Connected in ls && CloseBegin !in ls && DropReceiver !in ls
    ensures Enabled(s, Consume) <==> s.replies != 0
    ensures Enabled(s, SelfReport) <==> s.replies != 256
    ensures Enabled(s, DropReceiver)
  {
    hide Reaches, Inv;
    ReachableInv(ls, s);
    StateFollowsHistory(ls, s);
    RepliesFit(s);
  }

  lemma RepliesFit(s: State)
    requires Inv(s)
    ensures s.replies <= 256
  {
  }

  /** A callback that runs may return anything: a send may fail, a dispatch may be refused for any reason of its own. */
  lemma CallbacksMayFail(ls: seq<Label>, s: State, ok: bool, why: Refusal)
    requires Reaches(Init(), ls, s) && !Pool.Crashed(s.pool)
    ensures s.io.IoInCallback? ==> Enabled(s, IoReturn(ok))
    ensures s.task.InCallback? && !why.QueueFull? ==> Enabled(s, Refuse(why))
  {
    hide Reaches, Pool.Inv, LifecycleOk, TasksOk;
    ReachableInv(ls, s);
  }

  /** The goroutines of the pool run as the pool alone lets them, except that an answer returns only with a slot. */
  lemma PoolRunsFreely(ls: seq<Label>, s: State, p: Pool.Label)
    requires Reaches(Init(), ls, s) && (p.Dequeue? || p.SeeStop? || p.Exit? || p.OnJob?)
    ensures Enabled(s, PoolStep(p)) <==> Pool.Enabled(s.pool, p) && (Pool.IsSinkReturn(p) ==> HasSlot(s))
  {
    hide Reaches, Pool.Inv, LifecycleOk, TasksOk, HasSlot;
    ReachableInv(ls, s);
  }

  /** Results the pool handed over. */
  function Handed(h: seq<Label>): nat {
    if h == [] then 0
    else Handed(h[..|h| - 1]) + var l := h[|h| - 1]; if l.PoolStep? && Pool.IsSinkReturn(l.l) then 1 else 0
  }

  /** The reply queue holds what was handed over, answered and self-reported, and not consumed. */
  ghost predicate RepliesFollow(s: State, h: seq<Label>) {
    s.receiverAlive ==> s.replies + Count(h, Consume) == Count(h, SelfReport) + Count(h, Reply) + Handed(h)
  }

  /** A result or a report goes onto the reply queue. */
  predicate Fills(l: Label) { l.SelfReport? || l.Reply? || (l.PoolStep? && Pool.IsSinkReturn(l.l)) }

  ghost predicate RepliesMove(s: State, l: Label, u: State) {
    && (u.receiverAlive ==> s.receiverAlive)
    && (u.receiverAlive ==>
          u.replies + (if l.Consume? then 1 else 0) == s.replies + if Fills(l) then 1 else 0)
  }

  lemma RepliesMoveStep(s: State, l: Label)
    requires Inv(s) && Enabled(s, l)
    ensures RepliesMove(s, l, Apply(s, l))
  {
    hide Inv, ApplyPool, ApplyTask, ApplyGo;
    if l.PoolStep? {
      PoolReplies(s, l.l);
    } else if IsTask(l) {
      TaskReplies(s, l);
    } else if IsTeardown(l) {
      TeardownShape(s, l);
    } else if IsGo(l) {
      HostCallKeepsReplies(s, l);
    } else {
      hide Pool.Enabled, Pool.Crashed;
    }
  }

  lemma PoolReplies(s: State, p: Pool.Label)
    requires Enabled(s, PoolStep(p))
    ensures RepliesMove(s, PoolStep(p), ApplyPool(s, p))
  {
    hide Pool.Apply, SinkFaults;
  }

  lemma TaskReplies(s: State, l: Label)
    requires Enabled(s, l) && IsTask(l)
    ensures RepliesMove(s, l, ApplyTask(s, l))
  {
    hide Pool.Apply, Pool.Enabled, Pool.CanAccept;
  }

  lemma HostCallKeepsReplies(s: State, l: Label)
    requires Inv(s) && Enabled(s, l) && (l.Connected? || l.Recv? || l.CloseBegin?)
    ensures ApplyGo(s, l).replies == s.replies && ApplyGo(s, l).receiverAlive == s.receiverAlive
  {
    hide Pool.Inv, PayloadsOk, ApplyGo;
    HostCallStep(s, l);
  }

  lemma {:induction false} RepliesHistory(s: State, h: seq<Label>, ls: seq<Label>, t: State)
    requires Inv(s) && RepliesFollow(s, h) && Reaches(s, ls, t)
    ensures RepliesFollow(t, h + ls)
    decreases |ls|
  {
    hide Inv, Apply, Enabled;
    if ls == [] {
      assert h + ls == h;
    } else {
      StepKeepsInv(s, ls[0]);
      RepliesMoveStep(s, ls[0]);
      Longer(h, ls[0]);
      assert h + ls == h + [ls[0]] + ls[1..];
      hide Count;
      RepliesHistory(Apply(s, ls[0]), h + [ls[0]], ls[1..], t);
    }
  }

  /**
   While the receiver lives, replies queued plus consumed are the results handed over,
   replies and self-reports sent.
   */
  lemma RepliesAreConserved(ls: seq<Label>, s: State)
    requires Reaches(Init(), ls, s) && DropReceiver !in ls
    ensures s.replies + Count(ls, Consume) == Count(ls, SelfReport) + Count(ls, Reply) + Handed(ls)
  {
    hide Reaches, Inv;
    InitInv();
    StateFollowsHistory(ls, s);
    RepliesHistory(Init(), [], ls, s);
    assert [] + ls == ls;
  }

  lemma {:induction false} NothingDelivered(s: State, ls: seq<Label>, t: State)
    requires Inv(s) && !s.receiverAlive && Reaches(s, ls, t)
    ensures |t.payloads| >= |s.payloads|
    ensures forall k :: 0 <= k < |t.payloads| ==>
              t.payloads[k].delivered == if k < |s.payloads| then s.payloads[k].delivered else 0
    decreases |ls|
  {
    hide Inv, Apply, Enabled;
    if ls != [] {
      StepKeepsInv(s, ls[0]);
      UndeliveredStep(s, ls[0]);
      NothingDelivered(Apply(s, ls[0]), ls[1..], t);
    }
  }

  ghost predicate Undelivered(s: State, u: State) {
    && !u.receiverAlive && |u.payloads| >= |s.payloads|
    && forall k :: 0 <= k < |u.payloads| ==>
         u.payloads[k].delivered == if k < |s.payloads| then s.payloads[k].delivered else 0
  }

  lemma UndeliveredStep(s: State, l: Label)
    requires Inv(s) && Enabled(s, l) && !s.receiverAlive
    ensures Undelivered(s, Apply(s, l))
  {
    hide Pool.Inv, LifecycleOk, TasksOk, PayloadsOk, ApplyPool, ApplyTask, ApplyGo;
    if l.PoolStep? {
      UndeliveredPool(s, l.l);
    } else if IsTask(l) {
      UndeliveredTask(s, l);
    } else if IsGo(l) {
      UndeliveredGo(s, l);
    }
  }

  lemma UndeliveredPool(s: State, p: Pool.Label)
    requires Enabled(s, PoolStep(p)) && !s.receiverAlive
    ensures Undelivered(s, ApplyPool(s, p))
  {
    hide Pool.Apply, SinkFaults;
  }

  lemma UndeliveredTask(s: State, l: Label)
    requires Enabled(s, l) && IsTask(l) && !s.receiverAlive
    ensures Undelivered(s, ApplyTask(s, l))
  {
    hide Pool.Apply, Pool.Enabled, Pool.CanAccept;
  }

  lemma UndeliveredGo(s: State, l: Label)
    requires Inv(s) && Enabled(s, l) && IsGo(l) && !s.receiverAlive
    ensures Undelivered(s, ApplyGo(s, l))
  {
    hide Pool.Inv, PayloadsOk, ApplyGo;
    if IsTeardown(l) { TeardownStep(s, l); } else { HostCallStep(s, l); }
  }

  /** Once the receiver is gone, no payload is counted as delivered any more. */
  lemma NothingDeliveredAfterDrop(before: seq<Label>, s: State, ls: seq<Label>, t: State, k: nat)
    requires Reaches(Init(), before, s) && DropReceiver in before && Reaches(s, ls, t) && k < |t.payloads|
    ensures t.payloads[k].delivered == if k < |s.payloads| then s.payloads[k].delivered else 0
  {
    hide Inv, Reaches;
    ReachableInv(before, s);
    StateFollowsHistory(before, s);
    NothingDelivered(s, ls, t);
  }

  /**
   A payload in the dispatch callback is refused as "queue full" exactly if the pool
   refuses jobs or a hundred are queued.
   */
  lemma QueueFullIff(ls: seq<Label>, s: State)
    requires Reaches(Init(), ls, s) && !Pool.Crashed(s.pool) && s.task.InCallback?
    ensures Enabled(s, Refuse(QueueFull)) <==> PoolStep(Pool.ClearAccepting) in ls || |s.pool.queue| == 100
    ensures Enabled(s, EnqueueSend) <==> !Enabled(s, Refuse(QueueFull))
  {
    ReachableInv(ls, s);
    var ps := PoolRun(Init(), ls, s);
    Pool.StateFollowsHistory(ps, s.pool);
    QueueFullChoice(s);
    hide Reaches, Inv, Enabled, Pool.Reaches;
  }

  lemma QueueFullChoice(s: State)
    requires Inv(s) && !Pool.Crashed(s.pool) && s.task.InCallback?
    ensures Enabled(s, Refuse(QueueFull)) <==> !s.pool.accepting || |s.pool.queue| == 100
    ensures Enabled(s, EnqueueSend) <==> !Enabled(s, Refuse(QueueFull))
  {
  }

  /** The pool of a connection runs as the pool does by itself, with the same steps on the same jobs. */
  lemma {:induction false} PoolRun(s: State, ls: seq<Label>, t: State) returns (ps: seq<Pool.Label>)
    requires Reaches(s, ls, t)
    ensures Pool.Reaches(s.pool, ps, t.pool)
    ensures forall i, a :: Pool.OnJob(i, a) in ps <==> PoolStep(Pool.OnJob(i, a)) in ls
    ensures Pool.ClearAccepting in ps <==> PoolStep(Pool.ClearAccepting) in ls
    decreases |ls|
  {
    if ls == [] {
      ps := [];
    } else {
      var l := ls[0];
      assert ls == [l] + ls[1..];
      var rest := PoolRun(Apply(s, l), ls[1..], t);
      PoolLabelStep(s, l);
      var p := PoolLabel(s, l);
      ps := if p.None? then rest else [p.value] + rest;
      hide Apply, Enabled, Pool.Apply, Pool.Enabled;
      assert p.Some? ==> ps[1..] == rest;
    }
  }

  function PoolLabel(s: State, l: Label): Option<Pool.Label> {
    match l
    case PoolStep(p) => Some(p)
    case EnqueueSend => if s.task.InCallback? then Some(Pool.EnqueueSend(s.task.t)) else None
    case EnqueueAdd => Some(Pool.EnqueueAdd)
    case _ => None
  }

  lemma PoolLabelStep(s: State, l: Label)
    requires Enabled(s, l)
    ensures match PoolLabel(s, l)
            case None => Apply(s, l).pool == s.pool
            case Some(p) => Pool.Enabled(s.pool, p) && Apply(s, l).pool == Pool.Apply(s.pool, p)
  {
    hide Pool.Apply, SinkFaults, AfterCall, NativeRet;
  }

  /**
   A result handed to the client library carries what a handler produced, or a timeout
   after the deadline or a panic.
   */
  lemma AnswersAreHandlers(ls: seq<Label>, s: State, i: nat)
    requires Reaches(Init(), ls, s) && i < |s.pool.jobs|
    ensures forall o :: Pool.ResultOf(o) in s.pool.jobs[i].sent ==> PoolStep(Pool.OnJob(i, Pool.HandlerEnd(o))) in ls
    ensures Pool.TimeoutError in s.pool.jobs[i].sent ==>
              || PoolStep(Pool.OnJob(i, Pool.DeadlinePasses)) in ls
              || PoolStep(Pool.OnJob(i, Pool.HandlerEnd(Pool.HandlerPanic))) in ls
  {
    var ps := PoolRun(Init(), ls, s);
    Pool.AnsweredAtMostOnce(ps, s.pool, i);
  }

  /** A stream that ends takes its task with it: a connection can be open with no dispatch or no send left. */
  lemma StreamEndEndsTasks() returns (ls: seq<Label>, t: State)
    ensures Reaches(Init(), ls, t) && OpenConnection(t) && t.receiverAlive && t.task.Exited? && t.io.IoExited?
  {
    ReachesItself(Init());
    hide Reaches;
    ls, t := Then([], Init(), Connected);
    ls, t := Then(ls, t, TaskStreamEnd);
    ls, t := Then(ls, t, IoStreamEnd);
  }

  // ---- An open connection goes on ----

  ghost predicate CanDispatchAgain(s: State) { exists ls, t :: Reaches(s, ls, t) && TaskCall in ls }
  ghost predicate CanSendAgain(s: State) { exists ls, t :: Reaches(s, ls, t) && IoCall in ls }

  predicate OpenConnection(s: State) { s.go.connected && !s.go.closed && !Pool.Crashed(s.pool) }

  /** The next step of the dispatch task towards its next callback. */
  function TaskNext(s: State): Label {
    match s.task
    case Polling => TaskTake
    case InCallback(_) => Refuse(UnknownPayload)
    case Adding(_) => EnqueueAdd
    case Replying(_) => if HasSlot(s) then Reply else Consume
    case _ => TaskCall
  }

  function TaskDistance(s: State): nat {
    match s.task
    case InCallback(_) => 5
    case Replying(_) => if HasSlot(s) then 3 else 4
    case Adding(_) => 3
    case Polling => 2
    case _ => 1
  }

  lemma TaskNextStep(s: State)
    requires Inv(s) && OpenConnection(s) && s.receiverAlive && !s.task.Exited? && !s.task.Got?
    ensures Enabled(s, TaskNext(s))
    ensures var u := Apply(s, TaskNext(s));
            OpenConnection(u) && u.receiverAlive && !u.task.Exited? && TaskDistance(u) < TaskDistance(s)
  {
    hide Pool.Inv;
  }

  lemma {:induction false} NextDispatch(s: State) returns (ls: seq<Label>, t: State)
    requires Inv(s) && OpenConnection(s) && s.receiverAlive && !s.task.Exited?
    ensures Reaches(s, ls, t) && TaskCall in ls
    decreases TaskDistance(s)
  {
    if s.task.Got? {
      ls, t := [TaskCall], Apply(s, TaskCall);
      assert Reaches(t, [], t);
    } else {
      var l := TaskNext(s);
      TaskNextStep(s);
      StepKeepsInv(s, l);
      hide Inv, Apply, Enabled, OpenConnection, TaskDistance;
      var rest;
      rest, t := NextDispatch(Apply(s, l));
      ls := [l] + rest;
      assert ls[1..] == rest;
    }
  }

  lemma {:induction false} ExitedStays(s: State, ls: seq<Label>, t: State)
    requires Inv(s) && Reaches(s, ls, t)
    ensures s.task.Exited? ==> TaskCall !in ls
    ensures s.io.IoExited? ==> IoCall !in ls
    decreases |ls|
  {
    hide Inv, Apply;
    if ls != [] {
      StepKeepsInv(s, ls[0]);
      TasksMoveStep(s, ls[0]);
      ExitedStays(Apply(s, ls[0]), ls[1..], t);
      assert ls == [ls[0]] + ls[1..];
    }
  }

  /**
   As long as a connection is open and its receiver alive, another payload can reach the
   dispatch callback exactly if nothing that ends the dispatch task has happened.
   */
  lemma DispatchGoesOnIff(ls: seq<Label>, s: State)
    requires Reaches(Init(), ls, s) && !Pool.Crashed(s.pool)
    requires Connected in ls && CloseBegin !in ls && DropReceiver !in ls
    ensures CanDispatchAgain(s) <==> TaskStreamEnd !in ls
  {
    ReachableInv(ls, s);
    StateFollowsHistory(ls, s);
    NoLostReply(ls);
    OpenIsNotStopped(s);
    hide Reaches, Inv;
    if s.task.Exited? {
      forall rest, t | Reaches(s, rest, t) ensures TaskCall !in rest { ExitedStays(s, rest, t); }
    } else {
      var rest, t := NextDispatch(s);
    }
  }

  lemma OpenIsNotStopped(s: State)
    requires Inv(s) && !s.go.closed
    ensures !s.taskStop
  {
  }

  lemma {:induction false} NoLostReply(h: seq<Label>)
    requires DropReceiver !in h
    ensures !LostReply(h)
    decreases |h|
  {
    if h != [] { NoLostReply(h[..|h| - 1]); }
  }

  function IoNext(io: IoTask): Label {
    match io case IoPolling => IoTake case IoInCallback => IoReturn(true) case _ => IoCall
  }

  lemma IoNextStep(s: State)
    requires Inv(s) && OpenConnection(s) && !s.io.IoExited?
    ensures Enabled(s, IoNext(s.io))
    ensures var u := Apply(s, IoNext(s.io));
            OpenConnection(u) && u.io == match s.io case IoPolling => IoGot case IoGot => IoInCallback case _ => IoPolling
  {
    hide Pool.Inv, PayloadsOk, Pool.Crashed;
  }

  lemma {:induction false} NextSend(s: State) returns (ls: seq<Label>, t: State)
    requires Inv(s) && OpenConnection(s) && !s.io.IoExited?
    ensures Reaches(s, ls, t) && IoCall in ls
    decreases match s.io case IoInCallback => 3 case IoPolling => 2 case _ => 1
  {
    IoNextStep(s);
    var l := IoNext(s.io);
    var u := Apply(s, l);
    StepKeepsInv(s, l);
    hide Inv, Apply, Enabled, OpenConnection;
    if s.io.IoGot? {
      ls, t := [l], u;
      assert Reaches(u, [], u);
    } else {
      var rest;
      rest, t := NextSend(u);
      ls := [l] + rest;
      assert ls[1..] == rest;
    }
  }

  /** The same for the send callback, whatever becomes of the receiver. */
  lemma SendGoesOnIff(ls: seq<Label>, s: State)
    requires Reaches(Init(), ls, s) && !Pool.Crashed(s.pool) && Connected in ls && CloseBegin !in ls
    ensures CanSendAgain(s) <==> IoStreamEnd !in ls && IoReturn(false) !in ls
  {
    ReachableInv(ls, s);
    StateFollowsHistory(ls, s);
    OpenIsNotStopped(s);
    hide Reaches, Inv;
    if s.io.IoExited? {
      forall rest, t | Reaches(s, rest, t) ensures IoCall !in rest { ExitedStays(s, rest, t); }
    } else {
      var rest, t := NextSend(s);
    }
  }
}
