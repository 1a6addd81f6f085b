/**
 What runs of the invoke pool can come to: how much it queues, a WaitGroup below zero,
 a shutdown held up by leaked handlers, who can still answer a job, and answers that
 come out of order or too early.
 */
module PoolRuns {
  import opened Base
  import opened InvokePool

  // ---- Building runs ----

  /** One more step at the end of a run. */
  lemma {:induction false} Extend(s: State, ls: seq<Label>, t: State, l: Label)
    requires Reaches(s, ls, t) && Enabled(t, l)
    ensures Reaches(s, ls + [l], Apply(t, l))
    decreases |ls|
  {
    hide Apply, Enabled;
    if ls == [] {
      assert (ls + [l])[1..] == [];
    } else {
      assert (ls + [l])[1..] == ls[1..] + [l];
      Extend(Apply(s, ls[0]), ls[1..], t, l);
    }
  }

  lemma Then(from: State, ls: seq<Label>, s: State, l: Label) returns (ls': seq<Label>, t: State)
    requires Reaches(from, ls, s) && Enabled(s, l)
    ensures t == Apply(s, l) && ls' == ls + [l] && Reaches(from, ls', t)
  {
    Extend(from, ls, s, l);
    ls', t := ls + [l], Apply(s, l);
  }

  lemma ThenStep(from: State, ls: seq<Label>, s: State, i: nat, a: JobStep) returns (ls': seq<Label>, t: State)
    requires Reaches(from, ls, s) && !Crashed(s) && i < |s.jobs| && s.jobs[i].w < |s.workers|
    requires CanStep(s.jobs[i], a) && !a.WatcherDone? && Active(s.jobs[i]) && Active(StepJob(s.jobs[i], a))
    ensures Reaches(from, ls', t) && t == s.(jobs := s.jobs[i := StepJob(s.jobs[i], a)])
  {
    hide Reaches;
    ls', t := Then(from, ls, s, OnJob(i, a));
  }

  /** A job whose handler returned an error before its deadline, answered by its worker. */
  function Answered(j: Job): Job {
    j.(worker := NeedDone, outcome := Some(HandlerError), completed := true, ctxDone := true,
       sent := j.sent + [ResultOf(HandlerError)])
  }

  lemma ThenAnswer(from: State, ls: seq<Label>, s: State, i: nat) returns (ls': seq<Label>, t: State)
    requires Reaches(from, ls, s) && !Crashed(s) && i < |s.jobs| && s.jobs[i].w < |s.workers|
    requires s.jobs[i].worker.Running? && !s.jobs[i].completed
    ensures Reaches(from, ls', t) && t == s.(jobs := s.jobs[i := Answered(s.jobs[i])])
  {
    hide Reaches, Stepped, Enabled, Apply;
    ls', t := ThenStep(from, ls, s, i, HandlerEnd(HandlerError));
    ls', t := ThenStep(from, ls', t, i, WorkerCas);
    ls', t := ThenStep(from, ls', t, i, WorkerCall);
    ls', t := ThenStep(from, ls', t, i, WorkerCallReturn);
  }

  /** A job whose handler outlived its deadline, answered by its watcher. */
  function TimedOut(j: Job): Job {
    j.(watcher := Gone(true), ctxDone := true, deadline := true, completed := true, sent := j.sent + [TimeoutError])
  }

  lemma ThenTimeOut(from: State, ls: seq<Label>, s: State, i: nat) returns (ls': seq<Label>, t: State)
    requires Reaches(from, ls, s) && !Crashed(s) && i < |s.jobs| && s.jobs[i].w < |s.workers|
    requires s.jobs[i].worker.Running? && s.jobs[i].watcher.Waiting? && !s.jobs[i].ctxDone && !s.jobs[i].completed
    ensures Reaches(from, ls', t) && t == s.(jobs := s.jobs[i := TimedOut(s.jobs[i])], wg := s.wg - 1)
  {
    hide Reaches, Stepped, Enabled, Apply;
    ls', t := ThenStep(from, ls, s, i, DeadlinePasses);
    ls', t := ThenStep(from, ls', t, i, WatcherCas);
    ls', t := ThenStep(from, ls', t, i, WatcherCall);
    ls', t := ThenStep(from, ls', t, i, WatcherCallReturn);
    ls', t := ThenWatcherDone(from, ls', t, i);
  }

  lemma ThenWatcherDone(from: State, ls: seq<Label>, s: State, i: nat) returns (ls': seq<Label>, t: State)
    requires Reaches(from, ls, s) && !Crashed(s) && i < |s.jobs| && s.jobs[i].w < |s.workers|
    requires s.jobs[i].watcher.WatcherNeedDone?
    ensures Reaches(from, ls', t) && t == s.(jobs := s.jobs[i := s.jobs[i].(watcher := Gone(true))], wg := s.wg - 1)
  {
    hide Reaches;
    ls', t := Then(from, ls, s, OnJob(i, WatcherDone));
  }

  // ---- What the queue holds ----

  /** A job is refused exactly if shutdown has begun or a hundred jobs are queued. */
  lemma AcceptsIff(ls: seq<Label>, s: State, c: nat)
    requires Reaches(Init(), ls, s) && !Crashed(s) && !s.pendingAdd
    ensures Enabled(s, EnqueueSend(c)) <==> ClearAccepting !in ls && |s.queue| != 100
  {
    ReachableInv(ls, s);
    StateFollowsHistory(ls, s);
  }

  /** A hundred jobs can be accepted with no worker taking one. */
  lemma {:induction false} QueueFills(n: nat) returns (ls: seq<Label>, t: State)
    requires n <= 100
    ensures Reaches(Init(), ls, t) && t.accepting && !t.pendingAdd && !Crashed(t) && |t.queue| == |t.jobs| == n
  {
    if n == 0 {
      ls, t := [], Init();
    } else {
      ls, t := QueueFills(n - 1);
      hide Reaches;
      ls, t := Then(Init(), ls, t, EnqueueSend(n));
      ls, t := Then(Init(), ls, t, EnqueueAdd);
    }
  }

  // ---- The WaitGroup can go negative ----

  /**
   The queue send precedes wg.Add, so a worker can take and finish the job in between
   and drive the WaitGroup to -1, which panics.
   */
  lemma WaitGroupCanGoNegative() returns (ls: seq<Label>, t: State)
    ensures Reaches(Init(), ls, t) && Crashed(t)
  {
    ls, t := [], Init();
    assert Reaches(t, ls, t);
    hide Reaches;
    ls, t := Then(Init(), ls, t, EnqueueSend(0));
    ls, t := Then(Init(), ls, t, Dequeue(0));
    ls, t := ThenAnswer(Init(), ls, t, 0);
    ls, t := Then(Init(), ls, t, OnJob(0, WorkerDone));
  }

  // ---- When the WaitGroup can still go negative ----

  ghost predicate CanCrash(s: State) { exists ls, t :: Reaches(s, ls, t) && Crashed(t) }

  /** One job races through an idle pool before its enqueue has added it. */
  lemma IdlePoolCanCrash(s: State, w: nat) returns (ls: seq<Label>, t: State)
    requires Inv(s) && s.accepting && !s.pendingAdd && s.queue == [] && w < WORKER_COUNT && s.workers[w].busy.None?
    requires forall i :: 0 <= i < |s.jobs| ==> Settled(s.jobs[i])
    ensures Reaches(s, ls, t) && Crashed(t)
  {
    SettledMeansReleased(s);
    ls, t := [], s;
    hide Reaches, Inv;
    ls, t := Then(s, ls, t, EnqueueSend(0));
    ls, t := Then(s, ls, t, Dequeue(w));
    ls, t := ThenAnswer(s, ls, t, |s.jobs|);
    ls, t := Then(s, ls, t, OnJob(|s.jobs|, WorkerDone));
  }

  /** The next step of a pool that still accepts jobs, on its way to idle. */
  lemma StepTowardsIdle(s: State) returns (l: Label)
    requires Inv(s) && !Crashed(s) && s.accepting && !s.pendingAdd
    requires !(s.queue == [] && (exists w :: 0 <= w < WORKER_COUNT && s.workers[w].busy.None?)
               && forall i :: 0 <= i < |s.jobs| ==> Settled(s.jobs[i]))
    ensures Enabled(s, l) && (l.OnJob? || l.Dequeue?)
  {
    if i :| 0 <= i < |s.jobs| && !Settled(s.jobs[i]) {
      var a := UnsettledJobSteps(s.jobs[i]);
      l := OnJob(i, a);
    } else if w :| 0 <= w < WORKER_COUNT && s.workers[w].busy.None? {
      l := Dequeue(w);
    } else {
      l := OnJob(s.workers[0].busy.value, HandlerEnd(HandlerError));
    }
  }

  lemma {:induction false} CrashingContinuation(s: State) returns (ls: seq<Label>, t: State)
    requires Inv(s) && !Crashed(s) && s.accepting && !s.pendingAdd
    ensures Reaches(s, ls, t) && Crashed(t)
    decreases Remaining(s)
  {
    if w :| 0 <= w < WORKER_COUNT && s.workers[w].busy.None? && s.queue == []
            && forall i :: 0 <= i < |s.jobs| ==> Settled(s.jobs[i]) {
      ls, t := IdlePoolCanCrash(s, w);
    } else {
      var l := StepTowardsIdle(s);
      var u := Apply(s, l);
      StepKeepsInv(s, l);
      StepFrame(s, l);
      StepCrashesIff(s, l);
      StepDecreasesRemaining(s, l);
      assert u.accepting;
      hide Inv, Apply, Enabled, Remaining;
      var rest;
      rest, t := CrashingContinuation(u);
      ls := [l] + rest;
      assert ls[1..] == rest;
    }
  }

  lemma {:induction false} RefusingNeverCrashes(s: State, ls: seq<Label>, t: State)
    requires Inv(s) && !s.accepting && !Crashed(s) && Reaches(s, ls, t)
    ensures !Crashed(t)
    decreases |ls|
  {
    if ls != [] {
      StepKeepsInv(s, ls[0]);
      StepFrame(s, ls[0]);
      StepCrashesIff(s, ls[0]);
      RefusingNeverCrashes(Apply(s, ls[0]), ls[1..], t);
    }
  }

  /**
   Exactly when some continuation crashes the pool: as long as it accepts jobs,
   whatever it is doing. Shutdown itself can no longer crash it.
   */
  lemma CanCrashIff(ls: seq<Label>, s: State)
    requires Reaches(Init(), ls, s) && !Crashed(s)
    ensures CanCrash(s) <==> s.accepting
  {
    ReachableInv(ls, s);
    if !s.accepting {
      forall rest, t | Reaches(s, rest, t) ensures !Crashed(t) { RefusingNeverCrashes(s, rest, t); }
    } else if s.pendingAdd {
      StepKeepsInv(s, EnqueueAdd);
      var rest, t := CrashingContinuation(Apply(s, EnqueueAdd));
      assert ([EnqueueAdd] + rest)[1..] == rest;
      assert Reaches(s, [EnqueueAdd] + rest, t);
    } else {
      var rest, t := CrashingContinuation(s);
    }
  }

  // ---- Leaked handlers can hold up shutdown ----

  /** The first `n` workers are in handlers that outlived their deadline; the rest are idle. */
  ghost predicate Leaking(s: State, n: nat) {
    && s.accepting && !s.stop && s.shutdown.Serving? && !s.pendingAdd && s.queue == [] && s.wg == 0
    && |s.workers| == WORKER_COUNT && |s.jobs| == n <= WORKER_COUNT
    && (forall w :: 0 <= w < WORKER_COUNT ==> s.workers[w] == Worker(Looping, if w < n then Some(w) else None))
    && (forall i :: 0 <= i < n ==> s.jobs[i].worker.Running? && s.jobs[i].watcher.Gone?)
  }

  lemma LeakOneMore(ls: seq<Label>, s: State, n: nat) returns (ls': seq<Label>, t: State)
    requires Reaches(Init(), ls, s) && Leaking(s, n) && n < WORKER_COUNT
    ensures Reaches(Init(), ls', t) && Leaking(t, n + 1)
  {
    hide Reaches;
    ls', t := Then(Init(), ls, s, EnqueueSend(n));
    ls', t := Then(Init(), ls', t, EnqueueAdd);
    ls', t := Then(Init(), ls', t, Dequeue(n));
    ls', t := ThenTimeOut(Init(), ls', t, n);
  }

  lemma {:induction false} Leak(n: nat) returns (ls: seq<Label>, t: State)
    requires n <= WORKER_COUNT
    ensures Reaches(Init(), ls, t) && Leaking(t, n)
  {
    if n == 0 {
      ls, t := [], Init();
    } else {
      ls, t := Leak(n - 1);
      ls, t := LeakOneMore(ls, t, n - 1);
    }
  }

  /** Eight handlers that ignore their context and one job behind them: shutdown waits for good. */
  lemma LeakedHandlersBlockShutdown() returns (ls: seq<Label>, t: State)
    ensures Reaches(Init(), ls, t) && t.shutdown.Stopped? && Stuck(t) && Quiescent(t)
  {
    ls, t := Leak(WORKER_COUNT);
    hide Reaches;
    ls, t := Then(Init(), ls, t, EnqueueSend(WORKER_COUNT));
    ls, t := Then(Init(), ls, t, EnqueueAdd);
    ls, t := Then(Init(), ls, t, ClearAccepting);
    ls, t := Then(Init(), ls, t, CloseStop);
    ShutdownBlockedIff(ls, t);
  }

  /** Some continuation leaves shutdown waiting with no step left but a handler returning. */
  ghost predicate CanBlock(s: State) { exists ls, t :: Reaches(s, ls, t) && t.shutdown.Stopped? && Stuck(t) }

  /** Jobs queued and handlers running. */
  ghost function Pressure(s: State): nat { |s.queue| + SumBy(s.jobs, RunningCount) }

  lemma PressureStep(s: State, l: Label)
    requires Inv(s) && !s.accepting && Enabled(s, l)
    ensures Pressure(Apply(s, l)) <= Pressure(s)
    ensures !(l.OnJob? && l.step.HandlerEnd?) ==> Pressure(Apply(s, l)) == Pressure(s)
  {
    match l
    case Dequeue(w) => SumUpdate(s.jobs, RunningCount, s.queue[0], Taken(s, w).jobs[s.queue[0]]);
    case OnJob(i, a) =>
      JobStepShape(s.jobs[i], a);
      SumUpdate(s.jobs, RunningCount, i, StepJob(s.jobs[i], a));
    case _ =>
  }

  lemma AtMostEightRunning(s: State)
    requires Inv(s)
    ensures Pressure(s) <= |s.queue| + WORKER_COUNT
    ensures Stuck(s) ==> Pressure(s) > WORKER_COUNT
  {
    SumAtMost(s.jobs, RunningCount, ActiveCount);
    SumOfOnes(s.workers, BusyCount);
    if Stuck(s) { SumAtMost(s.jobs, ActiveCount, RunningCount); }
  }

  lemma {:induction false} RefusingPressure(s: State, ls: seq<Label>, t: State)
    requires Inv(s) && !s.accepting && Reaches(s, ls, t)
    ensures Inv(t) && Pressure(t) <= Pressure(s)
    decreases |ls|
  {
    if ls != [] {
      StepKeepsInv(s, ls[0]);
      StepFrame(s, ls[0]);
      PressureStep(s, ls[0]);
      RefusingPressure(Apply(s, ls[0]), ls[1..], t);
    }
  }

  lemma StepTowardsBlock(s: State) returns (l: Label)
    requires Inv(s) && !s.accepting && Pressure(s) > WORKER_COUNT && !(s.shutdown.Stopped? && Stuck(s))
    ensures Enabled(s, l) && Internal(l) && !l.EnqueueAdd?
  {
    AtMostEightRunning(s);
    if s.shutdown.Refusing? {
      l := CloseStop;
    } else {
      if s.shutdown.ShutDown? { ShutDownMeansAllReleased(s); }
      l := StoppedPoolMovesOn(s);
    }
  }

  lemma {:induction false} BlockingContinuation(s: State) returns (ls: seq<Label>, t: State)
    requires Inv(s) && !s.accepting && Pressure(s) > WORKER_COUNT
    ensures Reaches(s, ls, t) && t.shutdown.Stopped? && Stuck(t)
    decreases Remaining(s)
  {
    if s.shutdown.Stopped? && Stuck(s) {
      ls, t := [], s;
    } else {
      var l := StepTowardsBlock(s);
      var u := Apply(s, l);
      StepKeepsInv(s, l);
      StepFrame(s, l);
      PressureStep(s, l);
      StepDecreasesRemaining(s, l);
      assert !u.accepting;
      hide Inv, Apply, Enabled, Remaining, Stuck, Pressure;
      var rest;
      rest, t := BlockingContinuation(u);
      ls := [l] + rest;
      assert ls[1..] == rest;
    }
  }

  /**
   Exactly when handlers that never return can hold up a shutdown that has begun:
   when more jobs are queued and running than there are workers.
   */
  lemma CanBlockIff(ls: seq<Label>, s: State)
    requires Reaches(Init(), ls, s) && !s.accepting
    ensures CanBlock(s) <==> |s.queue| + SumBy(s.jobs, RunningCount) > 8
  {
    ReachableInv(ls, s);
    if Pressure(s) > WORKER_COUNT {
      var rest, t := BlockingContinuation(s);
    } else if CanBlock(s) {
      var rest, t :| Reaches(s, rest, t) && t.shutdown.Stopped? && Stuck(t);
      RefusingPressure(s, rest, t);
      AtMostEightRunning(t);
    }
  }

  // ---- Who can still win the race ----

  ghost predicate CanReport(s: State, i: nat) {
    exists ls, t :: Reaches(s, ls, t) && i < |t.jobs| && t.jobs[i].sent != [] && t.jobs[i].sent[0].ResultOf?
  }

  ghost predicate CanTimeOut(s: State, i: nat) {
    exists ls, t :: Reaches(s, ls, t) && i < |t.jobs| && t.jobs[i].sent != [] && t.jobs[i].sent[0].TimeoutError?
  }

  /** The next step of a job towards an answer by its worker, or by its watcher. */
  function TowardsAnswer(j: Job, byWorker: bool): JobStep {
    if byWorker then
      match j.worker case Running => HandlerEnd(HandlerError) case Ended(_) => WorkerCas case _ => WorkerCall
    else if j.watcher.WatcherWon? then WatcherCall else if j.ctxDone then WatcherCas else DeadlinePasses
  }

  lemma AnswerStep(s: State, i: nat, byWorker: bool)
    requires Inv(s) && !Crashed(s) && i < |s.jobs| && !s.jobs[i].worker.Queued? && s.jobs[i].sent == []
    requires if byWorker then !WatcherOwns(s.jobs[i]) else !WorkerOwns(s.jobs[i])
    ensures Enabled(s, OnJob(i, TowardsAnswer(s.jobs[i], byWorker)))
    ensures var u := Apply(s, OnJob(i, TowardsAnswer(s.jobs[i], byWorker)));
            && !Crashed(u) && i < |u.jobs| && !u.jobs[i].worker.Queued? && JobRank(u.jobs[i]) < JobRank(s.jobs[i])
            && (if byWorker then !WatcherOwns(u.jobs[i]) else !WorkerOwns(u.jobs[i]))
  {
    assert JobOk(s.jobs[i]);
    JobStepDecreasesRank(s.jobs[i], TowardsAnswer(s.jobs[i], byWorker));
  }

  lemma {:induction false} AnswerPath(s: State, i: nat, byWorker: bool) returns (ls: seq<Label>, t: State)
    requires Inv(s) && !Crashed(s) && i < |s.jobs| && !s.jobs[i].worker.Queued?
    requires if byWorker then !WatcherOwns(s.jobs[i]) else !WorkerOwns(s.jobs[i])
    ensures Reaches(s, ls, t) && i < |t.jobs| && t.jobs[i].sent != [] && (t.jobs[i].sent[0].ResultOf? <==> byWorker)
    decreases JobRank(s.jobs[i])
  {
    var j := s.jobs[i];
    if j.sent != [] {
      assert JobOk(j);
      ls, t := [], s;
    } else {
      var l := OnJob(i, TowardsAnswer(j, byWorker));
      StepKeepsInv(s, l);
      AnswerStep(s, i, byWorker);
      var u := Apply(s, l);
      hide Inv, Apply, Enabled, JobRank, TowardsAnswer, WorkerOwns, WatcherOwns;
      var rest;
      rest, t := AnswerPath(u, i, byWorker);
      ls := [l] + rest;
      assert ls[1..] == rest;
    }
  }

  lemma {:induction false} OwnerStays(s: State, ls: seq<Label>, t: State, i: nat)
    requires Inv(s) && Reaches(s, ls, t) && i < |s.jobs|
    ensures Inv(t) && i < |t.jobs|
    ensures WorkerOwns(s.jobs[i]) ==> WorkerOwns(t.jobs[i])
    ensures WatcherOwns(s.jobs[i]) ==> WatcherOwns(t.jobs[i])
    decreases |ls|
  {
    if ls != [] {
      StepKeepsInv(s, ls[0]);
      OwnerStep(s, ls[0], i);
      hide Apply, Enabled, Inv;
      OwnerStays(Apply(s, ls[0]), ls[1..], t, i);
    }
  }

  lemma OwnerStep(s: State, l: Label, i: nat)
    requires Inv(s) && Enabled(s, l) && i < |s.jobs|
    ensures i < |Apply(s, l).jobs|
    ensures WorkerOwns(s.jobs[i]) ==> WorkerOwns(Apply(s, l).jobs[i])
    ensures WatcherOwns(s.jobs[i]) ==> WatcherOwns(Apply(s, l).jobs[i])
  {
    assert JobOk(s.jobs[i]);
  }

  /**
   The race for a job that has been taken up is open to each side exactly until the
   other has won it: its handler may still be reported, or it may still time out.
   */
  lemma RaceOpenIff(ls: seq<Label>, s: State, i: nat)
    requires Reaches(Init(), ls, s) && !Crashed(s) && i < |s.jobs| && !s.jobs[i].worker.Queued?
    ensures CanReport(s, i) <==> !WatcherOwns(s.jobs[i])
    ensures CanTimeOut(s, i) <==> !WorkerOwns(s.jobs[i])
  {
    ReachableInv(ls, s);
    hide Reaches;
    if !WatcherOwns(s.jobs[i]) { var rest, t := AnswerPath(s, i, true); }
    if !WorkerOwns(s.jobs[i]) { var rest, t := AnswerPath(s, i, false); }
    forall rest, t | Reaches(s, rest, t) && i < |t.jobs| && t.jobs[i].sent != []
      ensures WatcherOwns(s.jobs[i]) ==> t.jobs[i].sent[0].TimeoutError?
      ensures WorkerOwns(s.jobs[i]) ==> t.jobs[i].sent[0].ResultOf?
    {
      OwnerStays(s, rest, t, i);
      assert JobOk(t.jobs[i]);
    }
  }

  // ---- The workers ----

  /** A handler that is running may end at any moment, with any outcome, and only once. */
  lemma HandlerMayEnd(ls: seq<Label>, s: State, i: nat, o: Outcome)
    requires Reaches(Init(), ls, s) && !Crashed(s) && i < |s.jobs| && !s.jobs[i].worker.Queued?
    ensures Enabled(s, OnJob(i, HandlerEnd(o))) <==> forall p :: OnJob(i, HandlerEnd(p)) !in ls
  {
    ReachableInv(ls, s);
    StateFollowsHistory(ls, s);
    var j := s.jobs[i];
    assert JobOk(j) && Recorded(j, ls, i);
    forall p ensures OnJob(i, HandlerEnd(p)) in ls <==> j.outcome == Some(p) {
      assert HandlerEnded(ls, i, p) <==> j.outcome == Some(p);
    }
    if j.outcome.Some? { assert OnJob(i, HandlerEnd(j.outcome.value)) in ls; }
  }

  /** A looping worker with nothing to do chooses freely between the queue and the stop channel. */
  lemma IdleWorkerSelects(ls: seq<Label>, s: State, w: nat)
    requires Reaches(Init(), ls, s) && !Crashed(s) && w < |s.workers| && s.workers[w] == Worker(Looping, None)
    ensures Enabled(s, Dequeue(w)) <==> s.queue != []
    ensures Enabled(s, SeeStop(w)) <==> CloseStop in ls
  {
    ReachableInv(ls, s);
    StateFollowsHistory(ls, s);
  }

  /** When a stopped pool has come to rest, every worker has exited or is inside a handler that has not returned. */
  lemma WorkersExit(ls: seq<Label>, s: State, w: nat)
    requires Reaches(Init(), ls, s) && s.stop && Quiescent(s) && w < 8
    ensures w < |s.workers| && (s.workers[w].mode.Exited? || InHandler(s, w))
  {
    ReachableInv(ls, s);
    if !s.workers[w].mode.Exited? && !InHandler(s, w) { var l := WorkerMovesOn(s, w); }
  }

  lemma WorkerMovesOn(s: State, w: nat) returns (l: Label)
    requires Inv(s) && s.stop && w < WORKER_COUNT && !s.workers[w].mode.Exited? && !InHandler(s, w)
    ensures Internal(l) && Enabled(s, l)
  {
    var worker := s.workers[w];
    l := if worker.busy.Some? then OnJob(worker.busy.value, WorkerNext(s.jobs[worker.busy.value]))
         else if s.queue != [] then Dequeue(w)
         else if worker.mode.Looping? then SeeStop(w)
         else Exit(w);
  }

  // ---- Answers are not given in order ----

  /** Some continuation answers job `k` while job `i` is still unanswered. */
  ghost predicate CanOvertake(s: State, i: nat, k: nat) {
    exists ls, t :: Reaches(s, ls, t) && i < |t.jobs| && k < |t.jobs| && t.jobs[i].sent == [] && t.jobs[k].sent != []
  }

  /** Two jobs on two workers, and the second handler returns first. */
  lemma LaterJobAnsweredFirst() returns (ls: seq<Label>, t: State)
    ensures Reaches(Init(), ls, t)
    ensures |t.jobs| == 2 && t.jobs[0].sent == [] && t.jobs[1].sent == [ResultOf(HandlerError)]
  {
    ls, t := [], Init();
    assert Reaches(t, ls, t);
    hide Reaches;
    ls, t := Then(Init(), ls, t, EnqueueSend(0));
    ls, t := Then(Init(), ls, t, EnqueueAdd);
    ls, t := Then(Init(), ls, t, EnqueueSend(1));
    ls, t := Then(Init(), ls, t, EnqueueAdd);
    ls, t := Then(Init(), ls, t, Dequeue(0));
    ls, t := Then(Init(), ls, t, Dequeue(1));
    ls, t := ThenAnswer(Init(), ls, t, 1);
  }

  /** The next step of a worker inside invokeJob; a handler may always end. */
  function WorkerNext(j: Job): (a: JobStep)
    requires Active(j)
    ensures CanStep(j, a)
  {
    match j.worker
    case Running => HandlerEnd(HandlerError)
    case Ended(_) => WorkerCas
    case Won(_) => WorkerCall
    case InCall => WorkerCallReturn
    case NeedDone => WorkerDone
  }

  /** With eight workers there is always a step towards answering `k` that leaves `i` unanswered. */
  lemma StepTowards(s: State, i: nat, k: nat) returns (l: Label)
    requires Inv(s) && !Crashed(s) && !s.pendingAdd && i < |s.jobs| && k < |s.jobs| && i != k && s.jobs[k].sent == []
    ensures Enabled(s, l) && !l.EnqueueSend? && !l.EnqueueAdd? && !(IsSinkCall(l) && l.i == i)
  {
    assert JobOk(s.jobs[k]);
    if !s.jobs[k].worker.Queued? {
      var a := UnsettledJobSteps(s.jobs[k]);
      l := OnJob(k, a);
    } else if w :| 0 <= w < WORKER_COUNT && s.workers[w].busy.None? {
      l := Dequeue(w);
    } else {
      var w := if s.workers[0].busy.value == i then 1 else 0;
      var m := s.workers[w].busy.value;
      l := OnJob(m, WorkerNext(s.jobs[m]));
    }
  }

  lemma {:induction false} OvertakingContinuation(s: State, i: nat, k: nat) returns (ls: seq<Label>, t: State)
    requires Inv(s) && !Crashed(s) && !s.pendingAdd && i < |s.jobs| && k < |s.jobs| && i != k && s.jobs[i].sent == []
    ensures Reaches(s, ls, t) && |t.jobs| == |s.jobs| && t.jobs[i].sent == [] && t.jobs[k].sent != []
    decreases Remaining(s)
  {
    if s.jobs[k].sent != [] {
      ls, t := [], s;
    } else {
      var l := StepTowards(s, i, k);
      var u := Apply(s, l);
      StepKeepsInv(s, l);
      StepFrame(s, l);
      StepCrashesIff(s, l);
      StepDecreasesRemaining(s, l);
      hide Inv, Apply, Enabled, Remaining;
      var rest;
      rest, t := OvertakingContinuation(u, i, k);
      ls := [l] + rest;
      assert ls[1..] == rest;
    }
  }

  lemma {:induction false} AnswersStay(s: State, ls: seq<Label>, t: State, i: nat)
    requires Inv(s) && Reaches(s, ls, t) && i < |s.jobs| && s.jobs[i].sent != []
    ensures i < |t.jobs| && t.jobs[i].sent != []
    decreases |ls|
  {
    if ls != [] {
      StepKeepsInv(s, ls[0]);
      StepFrame(s, ls[0]);
      AnswersStay(Apply(s, ls[0]), ls[1..], t, i);
    }
  }

  /**
   Exactly when the order of answers is still open: of two accepted jobs, either may
   be answered while the other is not, if and only if the other is unanswered now.
   Being accepted first, or taken up first, protects a job from nothing.
   */
  lemma OvertakesIff(ls: seq<Label>, s: State, i: nat, k: nat)
    requires Reaches(Init(), ls, s) && !Crashed(s) && i < |s.jobs| && k < |s.jobs| && i != k
    ensures CanOvertake(s, i, k) <==> s.jobs[i].sent == []
  {
    ReachableInv(ls, s);
    if s.jobs[i].sent == [] {
      if s.pendingAdd {
        StepKeepsInv(s, EnqueueAdd);
        StepFrame(s, EnqueueAdd);
        var rest, t := OvertakingContinuation(Apply(s, EnqueueAdd), i, k);
        assert ([EnqueueAdd] + rest)[1..] == rest;
        assert Reaches(s, [EnqueueAdd] + rest, t);
      } else {
        var rest, t := OvertakingContinuation(s, i, k);
      }
    } else if CanOvertake(s, i, k) {
      var rest, t :| Reaches(s, rest, t) && i < |t.jobs| && k < |t.jobs| && t.jobs[i].sent == [] && t.jobs[k].sent != [];
      AnswersStay(s, rest, t, i);
    }
  }

  // ---- A panic may be reported as a timeout ----

  /** A handler panics before its deadline, and the watcher reaches its CAS first. */
  lemma PanicReportedAsTimeout() returns (ls: seq<Label>, t: State)
    ensures Reaches(Init(), ls, t)
    ensures |t.jobs| == 1 && t.jobs[0].sent == [TimeoutError] && !t.jobs[0].deadline
  {
    ls, t := [], Init();
    assert Reaches(t, ls, t);
    hide Reaches;
    ls, t := Then(Init(), ls, t, EnqueueSend(0));
    ls, t := Then(Init(), ls, t, EnqueueAdd);
    ls, t := Then(Init(), ls, t, Dequeue(0));
    ls, t := Then(Init(), ls, t, OnJob(0, HandlerEnd(HandlerPanic)));
    ls, t := Then(Init(), ls, t, OnJob(0, WatcherCas));
    ls, t := Then(Init(), ls, t, OnJob(0, WatcherCall));
  }

  /** Some continuation in which the deadline of job `i` does not pass reports it as timed out. */
  ghost predicate CanTimeOutEarly(s: State, i: nat) {
    exists ls, t :: Reaches(s, ls, t) && OnJob(i, DeadlinePasses) !in ls && i < |t.jobs| && TimeoutError in t.jobs[i].sent
  }

  /** Once a handler has ended, its outcome is final, and the deadline passes only by its own step. */
  lemma {:induction false} EndedStays(s: State, ls: seq<Label>, t: State, i: nat)
    requires Inv(s) && Reaches(s, ls, t) && i < |s.jobs| && s.jobs[i].outcome.Some? && OnJob(i, DeadlinePasses) !in ls
    ensures Inv(t) && i < |t.jobs| && t.jobs[i].outcome == s.jobs[i].outcome && t.jobs[i].deadline == s.jobs[i].deadline
    decreases |ls|
  {
    if ls != [] {
      assert JobOk(s.jobs[i]);
      EndedStep(s, ls[0], i);
      StepKeepsInv(s, ls[0]);
      EndedStays(Apply(s, ls[0]), ls[1..], t, i);
    }
  }

  lemma EndedJobStep(j: Job, a: JobStep)
    requires CanStep(j, a) && JobOk(j) && j.outcome.Some? && !a.DeadlinePasses?
    ensures StepJob(j, a).outcome == j.outcome && StepJob(j, a).deadline == j.deadline
  {
  }

  lemma EndedStep(s: State, l: Label, i: nat)
    requires QueueOk(s) && Enabled(s, l) && i < |s.jobs| && JobOk(s.jobs[i]) && s.jobs[i].outcome.Some?
    requires l != OnJob(i, DeadlinePasses)
    ensures i < |Apply(s, l).jobs|
    ensures Apply(s, l).jobs[i].outcome == s.jobs[i].outcome && Apply(s, l).jobs[i].deadline == s.jobs[i].deadline
  {
    if l.OnJob? && l.i == i {
      EndedJobStep(s.jobs[i], l.step);
    } else if l.Dequeue? {
      assert s.queue[0] != i;
    }
  }

  /**
   Exactly when a job whose handler has ended, and whose race is still open, may be
   reported as timed out though its deadline never passes: when the handler panicked.
   */
  lemma TimesOutEarlyIff(ls: seq<Label>, s: State, i: nat)
    requires Reaches(Init(), ls, s) && !Crashed(s) && i < |s.jobs|
    requires s.jobs[i].worker.Ended? && !s.jobs[i].completed && !s.jobs[i].deadline
    ensures CanTimeOutEarly(s, i) <==> s.jobs[i].worker.o.HandlerPanic?
  {
    ReachableInv(ls, s);
    assert JobOk(s.jobs[i]);
    if s.jobs[i].worker.o.HandlerPanic? {
      WatcherWinsRace(s, i);
    } else if CanTimeOutEarly(s, i) {
      var rest, t :| Reaches(s, rest, t) && OnJob(i, DeadlinePasses) !in rest && i < |t.jobs| && TimeoutError in t.jobs[i].sent;
      EndedStays(s, rest, t, i);
    }
  }

  lemma WatcherWinsRace(s: State, i: nat)
    requires !Crashed(s) && i < |s.jobs| && s.jobs[i].w < |s.workers|
    requires s.jobs[i].watcher.Waiting? && s.jobs[i].ctxDone && !s.jobs[i].completed
    ensures CanTimeOutEarly(s, i)
  {
    assert Reaches(s, [], s);
    hide Reaches;
    var cas, call := OnJob(i, WatcherCas), OnJob(i, WatcherCall);
    Extend(s, [], s, cas);
    var u := Apply(s, cas);
    Extend(s, [] + [cas], u, call);
    var t := Apply(u, call);
    assert t.jobs[i].sent == s.jobs[i].sent + [TimeoutError];
    assert Reaches(s, [] + [cas] + [call], t);
  }
}
