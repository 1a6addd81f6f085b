/**
 Connection.Close: that it never deadlocks by itself, how long it can take, when it
 needs the client library to consume replies, and a run in which it hangs.
 */
module BridgeClose {
  import opened Base
  import opened Bridge
  import opened BridgeHistory
  import Pool = InvokePool
  import Interconnect

  // ---- Close makes progress ----

  /**
   Steps that wait for nobody outside: no host call, no handler ending, and nothing the
   client library does. A result is handed over by such a step only if it has a slot.
   */
  predicate Own(l: Label) {
    && !l.Connected? && !l.Recv? && !l.CloseBegin? && !IsLibrary(l)
    && !l.IoTake? && !l.IoStreamEnd? && !l.TaskTake? && !l.TaskStreamEnd?
    && (l.Refuse? ==> l.why.QueueFull?)
    && (l.PoolStep? ==> Pool.Internal(l.l))
  }

  /** A result is being sent and the reply queue has no slot for it. */
  ghost predicate AwaitsSlot(s: State) {
    !HasSlot(s) && (s.task.Replying? || exists i :: 0 <= i < |s.pool.jobs| && Pool.CallInProgress(s.pool.jobs[i]))
  }

  lemma PoolMovesOn(s: State) returns (l: Label)
    requires Inv(s) && s.close.PoolDraining? && !Pool.Crashed(s.pool) && !Pool.Stuck(s.pool) && !AwaitsSlot(s)
    ensures Own(l) && Enabled(s, l)
  {
    hide Pool.Inv, Pool.Stuck;
    if s.pool.pendingAdd {
      l := EnqueueAdd;
    } else if s.pool.shutdown.Serving? {
      l := PoolStep(Pool.ClearAccepting);
    } else if s.pool.shutdown.Refusing? {
      l := PoolStep(Pool.CloseStop);
    } else {
      var p := Pool.StoppedPoolMovesOn(s.pool);
      l := PoolStep(p);
    }
  }

  lemma TasksMoveOn(s: State) returns (l: Label)
    requires TasksOk(s) && PayloadsOk(s) && !Pool.Crashed(s.pool) && !s.pool.pendingAdd && !s.pool.accepting
    requires s.go.connected && (s.close.JoiningIo? || s.close.JoiningDispatch?) && !AwaitsSlot(s)
    ensures Own(l) && Enabled(s, l)
  {
    if s.close.JoiningIo? {
      l := match s.io
           case IoExited => JoinIo
           case IoPolling => IoStopSeen
           case IoGot => IoCall
           case _ => IoReturn(true);
    } else {
      l := match s.task
           case Exited => JoinDispatch
           case Polling => TaskStopSeen
           case Got => TaskCall
           case InCallback(_) => Refuse(QueueFull)
           case _ => Reply;
    }
  }

  lemma ClosingMovesOn(s: State) returns (l: Label)
    requires Inv(s) && 1 <= Stage(s.close) <= 6 && !Pool.Crashed(s.pool) && !AwaitsSlot(s)
    requires s.close.PoolDraining? ==> !Pool.Stuck(s.pool)
    ensures Own(l) && Enabled(s, l)
  {
    hide Pool.Stuck, PayloadsOk, AwaitsSlot;
    match s.close {
      case PoolDraining(_) => l := PoolMovesOn(s);
      case Disconnecting => l := DisconnectBegin;
      case JoiningIo => l := TasksMoveOn(s);
      case JoiningDispatch => l := TasksMoveOn(s);
      case Freeing => l := Free;
      case ClosingOutgoing => l := CloseOutgoing;
    }
  }

  /**
   Close never deadlocks: while it is under way some step of the teardown, a task or
   the pool can be taken, unless a result waits for a slot in the full reply queue, or
   shutdown is stuck behind eight handlers that do not return.
   */
  lemma CloseMovesOn(ls: seq<Label>, s: State) returns (l: Label)
    requires Reaches(Init(), ls, s) && 1 <= Stage(s.close) <= 6 && !Pool.Crashed(s.pool) && !AwaitsSlot(s)
    requires s.close.PoolDraining? ==> !Pool.Stuck(s.pool)
    ensures Own(l) && Enabled(s, l)
  {
    ReachableInv(ls, s);
    l := ClosingMovesOn(s);
  }

  function IoRank(io: IoTask): nat {
    match io
    case IoUnspawned => 0 case IoExited => 0 case IoPolling => 1 case IoInCallback => 2 case IoGot => 3
  }

  /** A payload on its way to the pool may still become a job, with all the steps of a job. */
  function TaskRank(task: DispatchTask): nat {
    match task
    case Unspawned => 0 case Exited => 0 case Polling => 1 case Adding(_) => 2 case Replying(_) => 2
    case InCallback(_) => 3 + Pool.JobRank(Pool.FreshJob(0)) case Got => 4 + Pool.JobRank(Pool.FreshJob(0))
  }

  /** The steps left for the pool and for Close itself. */
  ghost function Teardown(s: State): nat { Pool.Remaining(s.pool) + (7 - Stage(s.close)) }

  /** The steps left until everything has come to rest, if nothing new comes in. */
  ghost function Remaining(s: State): nat { Teardown(s) + IoRank(s.io) + TaskRank(s.task) }

  /** Every step but a new call by the host, a new payload, and what the client library does. */
  predicate NothingNew(l: Label) {
    !l.Connected? && !l.Recv? && !l.CloseBegin? && !l.IoTake? && !l.TaskTake? && !IsLibrary(l)
  }

  lemma PoolStepDecreases(s: State, p: Pool.Label)
    requires Inv(s) && Enabled(s, PoolStep(p))
    ensures var u := ApplyPool(s, p);
            && Teardown(u) < Teardown(s) && (s.pool.stop ==> u.pool.stop)
            && u.go == s.go && u.io == s.io && u.task == s.task && u.replies <= s.replies + 1
  {
    hide Pool.Inv, LifecycleOk, TasksOk, PayloadsOk, SinkFaults, Pool.Apply, Pool.Enabled, Pool.Remaining;
    Pool.StepDecreasesRemaining(s.pool, p);
    if s.pool.stop { Pool.StopStays(s.pool, p); }
  }

  lemma TaskStepDecreases(s: State, l: Label)
    requires Enabled(s, l) && IsTask(l) && NothingNew(l)
    ensures var u := ApplyTask(s, l); Remaining(u) < Remaining(s) && u.go == s.go && u.replies <= s.replies + 1
  {
    if l.EnqueueSend? { Pool.SendAddsOneJob(s.pool, s.task.t); }
  }

  lemma IoStepDecreases(s: State, l: Label)
    requires Enabled(s, l) && IsIo(l) && NothingNew(l)
    ensures var u := ApplyIo(s, l); Remaining(u) < Remaining(s) && u.go == s.go && u.replies == s.replies
  {
    hide Pool.Remaining;
  }

  lemma TeardownStepDecreases(s: State, l: Label)
    requires Enabled(s, l) && IsTeardown(l)
    ensures var u := ApplyGo(s, l);
            && Teardown(u) < Teardown(s) && u.pool == s.pool && u.go == s.go && u.io == s.io && u.task == s.task
            && u.receiverAlive == s.receiverAlive && u.replies == s.replies
  {
    hide ApplyGo, Enabled, Pool.Remaining;
    TeardownShape(s, l);
  }

  lemma StepDecreases(s: State, l: Label)
    requires Inv(s) && Enabled(s, l) && NothingNew(l)
    ensures var u := Apply(s, l); Remaining(u) < Remaining(s) && u.go == s.go && u.replies <= s.replies + 1
  {
    hide Inv, Enabled, Teardown, ApplyPool, ApplyTask, ApplyIo, ApplyGo;
    if l.PoolStep? {
      PoolStepDecreases(s, l.l);
    } else if IsTask(l) {
      TaskStepDecreases(s, l);
    } else if IsIo(l) {
      IoStepDecreases(s, l);
    } else {
      TeardownStepDecreases(s, l);
    }
  }

  /** The steps left, and the replies that can be consumed meanwhile. */
  ghost function Budget(s: State): nat { 2 * Remaining(s) + s.replies }

  lemma BudgetStep(s: State, l: Label)
    requires Inv(s) && Enabled(s, l) && (NothingNew(l) || l.Consume?)
    ensures Budget(Apply(s, l)) < Budget(s) && Apply(s, l).go == s.go
  {
    hide Inv, Pool.Remaining;
    if NothingNew(l) {
      hide Apply, Enabled, Remaining;
      StepDecreases(s, l);
    }
  }

  lemma {:induction false} RunDecreases(s: State, ls: seq<Label>, t: State)
    requires Inv(s) && s.go.closed && Reaches(s, ls, t)
    requires forall k :: 0 <= k < |ls| ==> NothingNew(ls[k]) || ls[k].Consume?
    ensures |ls| + Budget(t) <= Budget(s) && Inv(t) && t.go.closed
    decreases |ls|
  {
    hide Inv, Apply, Enabled, Budget, NothingNew;
    if ls != [] {
      StepKeepsInv(s, ls[0]);
      BudgetStep(s, ls[0]);
      forall k | 0 <= k < |ls[1..]| ensures NothingNew(ls[1..][k]) || ls[1..][k].Consume? {
        assert ls[1..][k] == ls[k + 1];
      }
      RunDecreases(Apply(s, ls[0]), ls[1..], t);
    }
  }

  ghost predicate AtRest(s: State) { forall l :: Own(l) ==> !Enabled(s, l) }

  lemma ClosedAwaitsNothing(s: State)
    requires Inv(s) && s.close.Closed?
    ensures !Pool.Stuck(s.pool) && !AwaitsSlot(s)
  {
    Pool.ShutDownMeansAllReleased(s.pool);
    forall i | 0 <= i < |s.pool.jobs| ensures !Pool.CallInProgress(s.pool.jobs[i]) { Pool.SentOnce(s.pool, i); }
  }

  lemma RestIsClosedIff(s: State)
    requires Inv(s) && s.go.closed && AtRest(s) && !Pool.Crashed(s.pool)
    ensures s.close.Closed? <==> !Pool.Stuck(s.pool) && !AwaitsSlot(s)
  {
    hide Pool.Inv, PayloadsOk, TasksOk, Enabled, Own, Pool.Stuck, Pool.Crashed, AwaitsSlot;
    if s.close.Closed? {
      ClosedAwaitsNothing(s);
    } else if !Pool.Stuck(s.pool) && !AwaitsSlot(s) {
      var l := ClosingMovesOn(s);
    }
  }

  /**
   Close returns: if nothing new comes in, no run is longer than `Budget`, replies
   being consumed or not; and a run that has come to where no step of its own is left,
   and has not crashed, has Close returned exactly if no result waits for a slot in the
   full reply queue and shutdown is not stuck.
   */
  lemma CloseReturns(before: seq<Label>, s: State, ls: seq<Label>, t: State)
    requires Reaches(Init(), before, s) && s.go.closed && Reaches(s, ls, t)
    requires forall k :: 0 <= k < |ls| ==> NothingNew(ls[k]) || ls[k].Consume?
    ensures |ls| + Budget(t) <= Budget(s)
    ensures AtRest(t) && !Pool.Crashed(t.pool) ==> (t.close.Closed? <==> !Pool.Stuck(t.pool) && !AwaitsSlot(t))
  {
    hide Inv, Enabled, Budget, Own, AtRest, Pool.Stuck, Pool.Crashed, AwaitsSlot, NothingNew;
    ReachableInv(before, s);
    RunDecreases(s, ls, t);
    if AtRest(t) && !Pool.Crashed(t.pool) { RestIsClosedIff(t); }
  }

  /** Whatever else happens, a stopped pool and Close are moved only by their own steps. */
  lemma OtherStep(s: State, l: Label)
    requires Inv(s) && s.pool.stop && Enabled(s, l) && !l.PoolStep? && !IsTeardown(l)
    ensures Apply(s, l).pool == s.pool && Apply(s, l).close == s.close
  {
    hide ApplyPool;
    assert s.go.closed && !s.pool.accepting && !s.pool.pendingAdd;
    hide Inv, Pool.Apply;
  }

  lemma StoppedStep(s: State, l: Label)
    requires Inv(s) && s.pool.stop && Enabled(s, l)
    ensures Apply(s, l).pool.stop
    ensures Teardown(Apply(s, l)) + (if l.PoolStep? || IsTeardown(l) then 1 else 0) <= Teardown(s)
  {
    hide Inv, ApplyIo, ApplyTask, ApplyGo, ApplyLibrary, Teardown;
    if l.PoolStep? {
      PoolStepDecreases(s, l.l);
    } else if IsTeardown(l) {
      TeardownStepDecreases(s, l);
    } else {
      OtherStep(s, l);
      UnmovedTeardown(s, Apply(s, l));
    }
  }

  lemma UnmovedTeardown(s: State, u: State)
    requires u.pool == s.pool && u.close == s.close
    ensures Teardown(u) == Teardown(s)
  {
  }

  function TeardownSteps(ls: seq<Label>): nat {
    if ls == [] then 0 else (if ls[0].PoolStep? || IsTeardown(ls[0]) then 1 else 0) + TeardownSteps(ls[1..])
  }

  lemma {:induction false} StoppedRun(s: State, ls: seq<Label>, t: State)
    requires Inv(s) && s.pool.stop && Reaches(s, ls, t)
    ensures TeardownSteps(ls) + Teardown(t) <= Teardown(s)
    decreases |ls|
  {
    hide Inv, Apply, Enabled, Teardown;
    if ls != [] {
      StepKeepsInv(s, ls[0]);
      StoppedStep(s, ls[0]);
      StoppedRun(Apply(s, ls[0]), ls[1..], t);
    }
  }

  /**
   Nothing that comes in meanwhile prolongs Close: once the pool's stop channel is
   closed, no run at all has more steps of the pool and of the teardown than
   `Teardown`, however many payloads, replies and host calls it is mixed with.
   */
  lemma CloseIsBounded(before: seq<Label>, s: State, ls: seq<Label>, t: State)
    requires Reaches(Init(), before, s) && s.pool.stop && Reaches(s, ls, t)
    ensures TeardownSteps(ls) + Teardown(t) <= Teardown(s)
  {
    ReachableInv(before, s);
    StoppedRun(s, ls, t);
  }

  // ---- When Close needs the client library ----

  /** A payload the dispatch task has taken and not passed on to the pool or answered. */
  function InTask(task: DispatchTask): nat { if task.Got? || task.InCallback? || task.Replying? then 1 else 0 }

  /** Results still to be handed over, and results handed over and not consumed. */
  ghost function Load(s: State): nat { Pool.Owed(s.pool) + InTask(s.task) + s.replies }

  /** The client library neither consumes a reply nor drops its receiver. */
  predicate Unaided(l: Label) { !l.Consume? && !l.DropReceiver? }

  ghost predicate UnaidedRun(s: State, ls: seq<Label>, t: State) {
    Reaches(s, ls, t) && forall k :: 0 <= k < |ls| ==> Unaided(ls[k])
  }

  ghost predicate CanReturnUnaided(s: State) { exists ls, t :: UnaidedRun(s, ls, t) && t.close.Closed? }

  /** What a step does to the load while the receiver lives. */
  ghost predicate LoadKept(s: State, l: Label, u: State) {
    && u.receiverAlive == s.receiverAlive
    && (s.receiverAlive ==> Load(u) == Load(s) + if l.TaskTake? || l.SelfReport? then 1 else 0)
  }

  lemma PoolLoad(s: State, p: Pool.Label)
    requires Inv(s) && Enabled(s, PoolStep(p))
    ensures LoadKept(s, PoolStep(p), ApplyPool(s, p))
  {
    Pool.OwedStep(s.pool, p);
    hide Inv, Pool.Apply, Pool.Enabled, Pool.Owed, SinkFaults;
  }

  lemma EnqueueLoad(s: State, l: Label)
    requires Inv(s) && Enabled(s, l) && (l.EnqueueSend? || l.EnqueueAdd?)
    ensures LoadKept(s, l, ApplyTask(s, l))
  {
    Pool.OwedStep(s.pool, if l.EnqueueSend? then Pool.EnqueueSend(s.task.t) else Pool.EnqueueAdd);
    hide Inv, Pool.Apply, Pool.Enabled, Pool.CanAccept, Pool.Owed;
  }

  lemma TaskLoad(s: State, l: Label)
    requires Inv(s) && Enabled(s, l) && IsTask(l)
    ensures LoadKept(s, l, ApplyTask(s, l))
  {
    hide Inv, Pool.Apply, Pool.Enabled, Pool.CanAccept, Pool.Owed;
    if l.EnqueueSend? || l.EnqueueAdd? { EnqueueLoad(s, l); }
  }

  lemma HostCallLoad(s: State, l: Label)
    requires Inv(s) && Enabled(s, l) && IsGo(l)
    ensures LoadKept(s, l, ApplyGo(s, l))
  {
    hide Pool.Inv, LifecycleOk, PayloadsOk, Pool.Owed, ApplyGo, Enabled;
    if IsTeardown(l) { TeardownShape(s, l); } else { HostCallStep(s, l); }
  }

  lemma QuietLoad(s: State, l: Label)
    requires Enabled(s, l) && Unaided(l) && (IsIo(l) || IsLibrary(l))
    ensures LoadKept(s, l, Apply(s, l))
  {
    hide Pool.Enabled, Pool.Owed, ApplyPool, ApplyTask, ApplyGo;
  }

  lemma LoadStep(s: State, l: Label)
    requires Inv(s) && Enabled(s, l) && Unaided(l)
    ensures LoadKept(s, l, Apply(s, l))
  {
    hide Inv, ApplyPool, ApplyTask, ApplyGo, Pool.Owed;
    if l.PoolStep? {
      PoolLoad(s, l.l);
    } else if IsTask(l) {
      TaskLoad(s, l);
    } else if IsGo(l) {
      HostCallLoad(s, l);
    } else {
      hide Pool.Enabled, LoadKept;
      QuietLoad(s, l);
    }
  }

  lemma {:induction false} UnaidedLoad(s: State, ls: seq<Label>, t: State)
    requires Inv(s) && s.receiverAlive && UnaidedRun(s, ls, t)
    ensures Inv(t) && t.receiverAlive && Load(s) <= Load(t)
    decreases |ls|
  {
    hide Inv, Apply, Enabled, Load, Unaided, NothingNew;
    if ls != [] {
      StepKeepsInv(s, ls[0]);
      LoadStep(s, ls[0]);
      forall k | 0 <= k < |ls[1..]| ensures Unaided(ls[1..][k]) { assert ls[1..][k] == ls[k + 1]; }
      UnaidedLoad(Apply(s, ls[0]), ls[1..], t);
    }
  }

  /** Everything still to be handed over finds a slot. */
  ghost predicate Fits(s: State) { !s.receiverAlive || Load(s) <= Interconnect.REPLY_CAP }

  lemma FittingAwaitsNothing(s: State)
    requires Inv(s) && Fits(s)
    ensures !AwaitsSlot(s)
  {
    if i :| 0 <= i < |s.pool.jobs| && Pool.CallInProgress(s.pool.jobs[i]) {
      SumAtLeast(s.pool.jobs, Pool.Unreturned, i);
    }
  }

  lemma StuckHandlerReturns(s: State) returns (p: Pool.Label)
    requires Inv(s) && !Pool.Crashed(s.pool) && Pool.Stuck(s.pool)
    ensures Enabled(s, PoolStep(p)) && p.OnJob? && p.step.HandlerEnd?
  {
    p := Pool.OnJob(s.pool.workers[0].busy.value, Pool.HandlerEnd(Pool.HandlerError));
  }

  lemma PoolNoCrash(s: State, p: Pool.Label)
    requires Inv(s) && Enabled(s, PoolStep(p)) && !s.pool.pendingAdd
    ensures !Pool.Crashed(ApplyPool(s, p).pool)
  {
    Pool.StepCrashesIff(s.pool, p);
    hide Inv, Pool.Apply, Pool.Enabled, SinkFaults;
  }

  lemma KeepsPool(s: State, l: Label)
    requires Inv(s) && Enabled(s, l) && !l.PoolStep? && !IsTask(l)
    ensures Apply(s, l).pool == s.pool
  {
    hide Inv, Enabled, TasksMove, CallsMove, ApplyPool, ApplyTask, ApplyIo, ApplyLibrary, ApplyGo;
    if IsIo(l) {
      StopsTogether(s);
      IoMoves(s, l);
    } else if IsLibrary(l) {
      LibraryMoves(s, l);
    } else if IsTeardown(l) {
      TeardownShape(s, l);
    } else {
      HostCallKeepsPool(s, l);
    }
  }

  lemma NoCrash(s: State, l: Label)
    requires Inv(s) && Enabled(s, l) && (!s.pool.pendingAdd || l.EnqueueAdd?)
    ensures !Pool.Crashed(Apply(s, l).pool)
  {
    hide Inv, ApplyPool, ApplyTask, ApplyIo, ApplyLibrary, ApplyGo;
    if l.PoolStep? {
      PoolNoCrash(s, l.l);
    } else if IsTask(l) {
      TaskNoCrash(s, l);
    } else {
      KeepsPool(s, l);
    }
  }

  lemma HostCallKeepsPool(s: State, l: Label)
    requires Inv(s) && Enabled(s, l) && (l.Connected? || l.Recv? || l.CloseBegin?)
    ensures ApplyGo(s, l).pool == s.pool
  {
    hide Pool.Inv, PayloadsOk, ApplyGo;
    HostCallStep(s, l);
  }

  lemma TaskNoCrash(s: State, l: Label)
    requires Enabled(s, l) && IsTask(l)
    ensures !Pool.Crashed(ApplyTask(s, l).pool)
  {
  }

  /** The next step of Close if handlers return and every result has a slot. */
  lemma UnaidedStep(s: State) returns (l: Label)
    requires Inv(s) && Fits(s) && 1 <= Stage(s.close) <= 6 && !Pool.Crashed(s.pool)
    ensures Enabled(s, l) && NothingNew(l) && (!s.pool.pendingAdd || l.EnqueueAdd?)
  {
    FittingAwaitsNothing(s);
    hide Pool.Inv, PayloadsOk, LifecycleOk, Pool.Stuck, AwaitsSlot, Fits;
    if s.pool.pendingAdd {
      l := EnqueueAdd;
    } else if Pool.Stuck(s.pool) {
      var p := StuckHandlerReturns(s);
      l := PoolStep(p);
    } else {
      l := ClosingMovesOn(s);
    }
  }

  lemma {:induction false} UnaidedContinuation(s: State) returns (ls: seq<Label>, t: State)
    requires Inv(s) && s.go.closed && Fits(s) && !Pool.Crashed(s.pool)
    ensures UnaidedRun(s, ls, t) && t.close.Closed?
    decreases Remaining(s)
  {
    if s.close.Closed? {
      ls, t := [], s;
    } else {
      assert 1 <= Stage(s.close) <= 6;
      hide Inv;
      var l := UnaidedStep(s);
      assert Unaided(l);
      NoCrash(s, l);
      StepKeepsInv(s, l);
      StepDecreases(s, l);
      LoadStep(s, l);
      hide Apply, Enabled, Remaining, Load, NothingNew, Unaided, Pool.Crashed;
      var rest;
      rest, t := UnaidedContinuation(Apply(s, l));
      ls := [l] + rest;
      assert ls[1..] == rest;
    }
  }

  /**
   Exactly when a Close that has begun can still return, handlers returning, with the
   client library consuming no reply: if the receiver is gone, or the reply queue has room for every result still
   to come, of jobs accepted and of a payload in the dispatch task.
   */
  lemma CanReturnUnaidedIff(before: seq<Label>, s: State)
    requires Reaches(Init(), before, s) && s.go.closed && !Pool.Crashed(s.pool)
    ensures CanReturnUnaided(s) <==>
              !s.receiverAlive || Pool.Owed(s.pool) + InTask(s.task) + s.replies <= 256
  {
    ReachableInv(before, s);
    hide Reaches;
    if Fits(s) {
      var ls, t := UnaidedContinuation(s);
    } else if CanReturnUnaided(s) {
      var ls, t :| UnaidedRun(s, ls, t) && t.close.Closed?;
      UnaidedLoad(s, ls, t);
      ClosedOwesNothing(t);
    }
  }

  lemma ClosedOwesNothing(s: State)
    requires Inv(s) && s.close.Closed?
    ensures Load(s) == s.replies <= Interconnect.REPLY_CAP
  {
    Pool.ShutDownOwesNothing(s.pool);
  }

  // ---- A Close that hangs ----

  /** Connected, with `n` replies that the client library has not consumed. */
  predicate Unread(s: State, n: nat) {
    && !Pool.Crashed(s.pool) && s.close.NotClosing? && !s.go.closed && s.receiverAlive && s.replies == n
    && s.task.Polling? && !s.taskStop
  }

  /** A payload for which no handler is registered is taken, refused and answered. */
  lemma OneMoreUnread(ls: seq<Label>, s: State, n: nat) returns (ls': seq<Label>, t: State)
    requires Reaches(Init(), ls, s) && Unread(s, n) && n < Interconnect.REPLY_CAP
    ensures Reaches(Init(), ls', t) && Unread(t, n + 1)
  {
    hide Reaches, Pool.Crashed;
    ls', t := Then(ls, s, TaskTake);
    ls', t := Then(ls', t, TaskCall);
    ls', t := Then(ls', t, Refuse(NoDispatchHandler));
    ls', t := Then(ls', t, Reply);
  }

  lemma CloseBeforeReply(ls: seq<Label>, s: State, n: nat) returns (ls': seq<Label>, t: State)
    requires Reaches(Init(), ls, s) && Unread(s, n)
    ensures Reaches(Init(), ls', t) && t.go.closed && !Pool.Crashed(t.pool) && t.receiverAlive
    ensures t.task.Got? && t.replies == n
  {
    hide Reaches, Pool.Crashed;
    ls', t := Then(ls, s, TaskTake);
    ls', t := Then(ls', t, CloseBegin);
  }

  lemma {:induction false} PileUp(n: nat) returns (ls: seq<Label>, t: State)
    requires n <= Interconnect.REPLY_CAP
    ensures Reaches(Init(), ls, t) && Unread(t, n)
  {
    hide Reaches;
    if n == 0 {
      assert Reaches(Init(), [], Init()) by { ReachesItself(Init()); }
      ls, t := Then([], Init(), Connected);
    } else {
      ls, t := PileUp(n - 1);
      ls, t := OneMoreUnread(ls, t, n - 1);
    }
  }

  /**
   256 refused payloads whose replies are not consumed, one more payload, and a Close:
   it cannot return unless the client library consumes a reply or drops its receiver.
   */
  lemma CloseCanHang() returns (ls: seq<Label>, t: State)
    ensures Reaches(Init(), ls, t) && t.go.closed && !Pool.Crashed(t.pool) && t.receiverAlive
    ensures !CanReturnUnaided(t)
  {
    hide Reaches, Pool.Crashed, CanReturnUnaided;
    ls, t := PileUp(Interconnect.REPLY_CAP);
    ls, t := CloseBeforeReply(ls, t, Interconnect.REPLY_CAP);
    CanReturnUnaidedIff(ls, t);
  }
}
