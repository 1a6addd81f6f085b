/**
 The Go invoke pool: eight workers draining a bounded queue, a mutex-guarded
 `accepting` flag, a WaitGroup, and per job a compare-and-swap race between the
 worker and a timeout watcher. Every atomic action of every goroutine is one
 labelled transition, so a run is any interleaving of them.
 */
module InvokePool {
  import opened Base

  const QUEUE_CAP := 100
  const WORKER_COUNT := 8

  /** What a handler call ended with. A panic is turned into a handler error. */
  datatype Outcome = Response(bytes: nat) | HandlerError | HandlerPanic

  /** One call on the result sink: sendDispatchResult or sendDispatchError. */
  datatype Answer = ResultOf(outcome: Outcome) | TimeoutError

  /** Where the worker side of a job is. `Ended` is just before its CAS. */
  datatype WorkerSide = Queued | Running | Ended(o: Outcome) | Won(o: Outcome) | InCall | NeedDone | Left(won: bool)

  /** Where the timeout watcher goroutine of a job is. */
  datatype WatcherSide = Unborn | Waiting | WatcherWon | WatcherInCall | WatcherNeedDone | Gone(won: bool)

  datatype Job = Job(
    corr: nat,                 // correlation id, only ever passed through
    w: nat,                    // the worker that took the job, once taken
    worker: WorkerSide,
    watcher: WatcherSide,
    completed: bool,           // the atomic flag both sides race on
    ctxDone: bool,             // handler context cancelled or expired
    deadline: bool,            // the handler context expired
    outcome: Option<Outcome>,  // what the handler produced, once it ended
    sent: seq<Answer>)         // sink calls begun for this job

  datatype JobStep =
    | HandlerEnd(o: Outcome) | DeadlinePasses
    | WorkerCas | WorkerCall | WorkerCallReturn | WorkerDone
    | WatcherCas | WatcherCall | WatcherCallReturn | WatcherDone

  predicate CanStep(j: Job, a: JobStep) {
    match a
    case HandlerEnd(_) => j.worker.Running?
    case DeadlinePasses => j.watcher.Waiting? && !j.ctxDone
    case WorkerCas => j.worker.Ended?
    case WorkerCall => j.worker.Won?
    case WorkerCallReturn => j.worker.InCall?
    case WorkerDone => j.worker.NeedDone?
    case WatcherCas => j.watcher.Waiting? && j.ctxDone
    case WatcherCall => j.watcher.WatcherWon?
    case WatcherCallReturn => j.watcher.WatcherInCall?
    case WatcherDone => j.watcher.WatcherNeedDone?
  }

  /**
   Go runs deferred calls last-in first-out, so a panic runs `cancel` before the
   recovering closure reaches its CAS: `HandlerEnd(HandlerPanic)` completes the
   context, and the watcher may then win. A returning handler reaches its CAS
   before `cancel` runs.
   */
  function StepJob(j: Job, a: JobStep): Job
    requires CanStep(j, a)
  {
    match a
    case HandlerEnd(o) => j.(worker := Ended(o), outcome := Some(o), ctxDone := j.ctxDone || o.HandlerPanic?)
    case DeadlinePasses => j.(ctxDone := true, deadline := true)
    case WorkerCas =>
      if j.completed then j.(worker := Left(false), ctxDone := true)
      else j.(worker := Won(j.worker.o), completed := true, ctxDone := true)
    case WorkerCall => j.(worker := InCall, sent := j.sent + [ResultOf(j.worker.o)])
    case WorkerCallReturn => j.(worker := NeedDone)
    case WorkerDone => j.(worker := Left(true))
    case WatcherCas =>
      if j.completed then j.(watcher := Gone(false)) else j.(watcher := WatcherWon, completed := true)
    case WatcherCall => j.(watcher := WatcherInCall, sent := j.sent + [TimeoutError])
    case WatcherCallReturn => j.(watcher := WatcherNeedDone)
    case WatcherDone => j.(watcher := Gone(true))
  }

  predicate WorkerOwns(j: Job) { j.worker.Won? || j.worker.InCall? || j.worker.NeedDone? || j.worker == Left(true) }
  predicate WatcherOwns(j: Job) {
    j.watcher.WatcherWon? || j.watcher.WatcherInCall? || j.watcher.WatcherNeedDone? || j.watcher == Gone(true)
  }

  /** The answering call has been made and wg.Done has been called for it. */
  predicate Released(j: Job) { j.worker == Left(true) || j.watcher == Gone(true) }
  predicate CallInProgress(j: Job) { j.worker.InCall? || j.watcher.WatcherInCall? }
  predicate CallMade(j: Job) {
    Released(j) || CallInProgress(j) || j.worker.NeedDone? || j.watcher.WatcherNeedDone?
  }

  /** The answering calls that have returned. */
  function Returned(j: Job): nat { if CallMade(j) && !CallInProgress(j) then 1 else 0 }
  function Unreturned(j: Job): nat { 1 - Returned(j) }

  /** A worker goroutine is still inside invokeJob for this job. */
  predicate Active(j: Job) { !j.worker.Queued? && !j.worker.Left? }
  function ActiveCount(j: Job): nat { if Active(j) then 1 else 0 }
  function RunningCount(j: Job): nat { if j.worker.Running? then 1 else 0 }

  /** Started and not yet released: one unit of the WaitGroup each. */
  function InFlight(j: Job): nat { if j.worker.Queued? || Released(j) then 0 else 1 }

  /** What every step of every side of one job keeps. */
  ghost predicate JobOk(j: Job) {
    && (j.worker.Queued? <==> j.watcher.Unborn?)
    && (j.worker.Queued? ==> !j.ctxDone && !j.completed)
    && (j.worker.Queued? || j.worker.Running? <==> j.outcome.None?)
    && (j.worker.Ended? || j.worker.Won? ==> j.outcome == Some(j.worker.o))
    // exactly one side owns the answer once the flag is set, and none before
    && (j.completed <==> WorkerOwns(j) || WatcherOwns(j))
    && !(WorkerOwns(j) && WatcherOwns(j))
    && (j.worker == Left(false) ==> WatcherOwns(j))
    && (j.watcher == Gone(false) ==> WorkerOwns(j))
    // the watcher owns only after the deadline or a panic
    && (j.ctxDone <==> j.deadline || j.outcome == Some(HandlerPanic) || WorkerOwns(j) || j.worker == Left(false))
    && (WatcherOwns(j) ==> j.deadline || j.outcome == Some(HandlerPanic))
    // the calls made
    && |j.sent| == (if CallMade(j) then 1 else 0)
    && (CallMade(j) && WatcherOwns(j) ==> j.sent == [TimeoutError])
    && (CallMade(j) && WorkerOwns(j) ==> j.outcome.Some? && j.sent == [ResultOf(j.outcome.value)])
  }

  lemma JobStepKeepsOk(j: Job, a: JobStep)
    requires JobOk(j) && CanStep(j, a)
    ensures JobOk(StepJob(j, a))
    ensures j.sent <= StepJob(j, a).sent
    ensures Released(j) ==> Released(StepJob(j, a))
    ensures InFlight(j) == InFlight(StepJob(j, a)) + (if a.WorkerDone? || a.WatcherDone? then 1 else 0)
  {
  }

  lemma JobStepShape(j: Job, a: JobStep)
    requires JobOk(j) && CanStep(j, a)
    ensures var j' := StepJob(j, a);
            && !j.worker.Queued? && !j'.worker.Queued? && j'.w == j.w && j'.corr == j.corr
            && (Active(j') ==> Active(j))
            && |j'.sent| == |j.sent| + (if a.WorkerCall? || a.WatcherCall? then 1 else 0)
            && Returned(j') == Returned(j) + (if a.WorkerCallReturn? || a.WatcherCallReturn? then 1 else 0)
            && (j'.worker.Running? <==> j.worker.Running? && !a.HandlerEnd?)
  {
  }

  // ---- The pool ----

  /** A worker loops on the queue and `stop`, then drains, then exits. */
  datatype Mode = Looping | Draining | Exited
  datatype Worker = Worker(mode: Mode, busy: Option<nat>)
  function BusyCount(w: Worker): nat { if w.busy.Some? then 1 else 0 }

  /** The progress of the one call to shutdown. */
  datatype Shutdown = Serving | Refusing | Stopped | ShutDown

  datatype State = State(
    accepting: bool,
    stop: bool,            // the stop channel is closed
    shutdown: Shutdown,
    pendingAdd: bool,      // dispatchMu is held between the queue send and wg.Add
    queue: seq<nat>,       // indices into jobs
    wg: int,
    workers: seq<Worker>,
    jobs: seq<Job>)        // every job ever accepted

  datatype Label =
    | EnqueueSend(corr: nat) | EnqueueAdd
    | ClearAccepting | CloseStop | WaitReturn
    | Dequeue(w: nat) | SeeStop(w: nat) | Exit(w: nat)
    | OnJob(i: nat, step: JobStep)

  function Init(): State {
    State(true, false, Serving, false, [], 0, seq(WORKER_COUNT, _ => Worker(Looping, None)), [])
  }

  /** enqueue returns true from here; it holds dispatchMu over the whole decision. */
  predicate CanAccept(s: State) { s.accepting && |s.queue| < QUEUE_CAP }

  function FreshJob(corr: nat): Job { Job(corr, 0, Queued, Unborn, false, false, false, None, []) }

  /** A negative WaitGroup panics and takes the process down: nothing runs after it. */
  predicate Crashed(s: State) { s.wg < 0 }

  predicate Enabled(s: State, l: Label) {
    && !Crashed(s)
    && match l
       case EnqueueSend(_) => !s.pendingAdd && CanAccept(s)
       case EnqueueAdd => s.pendingAdd
       case ClearAccepting => !s.pendingAdd && s.shutdown.Serving?
       case CloseStop => s.shutdown.Refusing?
       case WaitReturn => s.shutdown.Stopped? && s.wg == 0
       case Dequeue(w) =>
         w < |s.workers| && !s.workers[w].mode.Exited? && s.workers[w].busy.None?
         && s.queue != [] && s.queue[0] < |s.jobs|
       case SeeStop(w) => w < |s.workers| && s.workers[w] == Worker(Looping, None) && s.stop
       case Exit(w) => w < |s.workers| && s.workers[w] == Worker(Draining, None) && s.queue == []
       case OnJob(i, a) => i < |s.jobs| && CanStep(s.jobs[i], a) && s.jobs[i].w < |s.workers|
  }

  /** Worker `w` receives the head of the queue, starts its handler and its watcher. */
  function Taken(s: State, w: nat): State
    requires Enabled(s, Dequeue(w))
  {
    var i := s.queue[0];
    s.(queue := s.queue[1..],
       jobs := s.jobs[i := s.jobs[i].(w := w, worker := Running, watcher := Waiting)],
       workers := s.workers[w := s.workers[w].(busy := Some(i))])
  }

  /** One step of one job; its worker is free again once invokeJob returns. */
  function Stepped(s: State, i: nat, a: JobStep): State
    requires Enabled(s, OnJob(i, a))
  {
    var j := s.jobs[i];
    var j' := StepJob(j, a);
    s.(jobs := s.jobs[i := j'],
       wg := if a.WorkerDone? || a.WatcherDone? then s.wg - 1 else s.wg,
       workers := if Active(j) && !Active(j') then s.workers[j.w := s.workers[j.w].(busy := None)] else s.workers)
  }

  function Apply(s: State, l: Label): State
    requires Enabled(s, l)
  {
    match l
    case EnqueueSend(c) =>
      s.(queue := s.queue + [|s.jobs|], jobs := s.jobs + [FreshJob(c)], pendingAdd := true)
    case EnqueueAdd => s.(wg := s.wg + 1, pendingAdd := false)
    case ClearAccepting => s.(accepting := false, shutdown := Refusing)
    case CloseStop => s.(stop := true, shutdown := Stopped)
    case WaitReturn => s.(shutdown := ShutDown)
    case Dequeue(w) => Taken(s, w)
    case SeeStop(w) => s.(workers := s.workers[w := Worker(Draining, None)])
    case Exit(w) => s.(workers := s.workers[w := Worker(Exited, None)])
    case OnJob(i, a) => Stepped(s, i, a)
  }

  /** `t` is where the run `ls` leads from `s`. */
  ghost predicate Reaches(s: State, ls: seq<Label>, t: State)
    decreases |ls|
  {
    if ls == [] then s == t else Enabled(s, ls[0]) && Reaches(Apply(s, ls[0]), ls[1..], t)
  }

  // ---- The invariant ----

  /** The balance of the WaitGroup, with the add that is still owed. */
  ghost predicate Balanced(s: State) {
    s.wg + (if s.pendingAdd then 1 else 0) == |s.queue| + SumBy(s.jobs, InFlight)
  }

  /** The queue is first-in first-out: it holds exactly the last jobs accepted, in order. */
  ghost predicate QueueOk(s: State) {
    && |s.queue| <= QUEUE_CAP && |s.queue| <= |s.jobs|
    && (forall k :: 0 <= k < |s.queue| ==> s.queue[k] == |s.jobs| - |s.queue| + k)
    && (forall i :: 0 <= i < |s.jobs| ==> (s.jobs[i].worker.Queued? <==> i >= |s.jobs| - |s.queue|))
  }

  ghost predicate WorkersOk(s: State) {
    && |s.workers| == WORKER_COUNT
    && (forall i :: 0 <= i < |s.jobs| ==> s.jobs[i].w < WORKER_COUNT)
    && (forall i :: 0 <= i < |s.jobs| && Active(s.jobs[i]) ==> s.workers[s.jobs[i].w].busy == Some(i))
    && (forall w :: 0 <= w < WORKER_COUNT && s.workers[w].busy.Some? ==>
          var i := s.workers[w].busy.value; i < |s.jobs| && Active(s.jobs[i]) && s.jobs[i].w == w)
    && (forall w :: 0 <= w < WORKER_COUNT && !s.workers[w].mode.Looping? ==> s.stop)
    && (forall w :: 0 <= w < WORKER_COUNT && s.workers[w].mode.Exited? ==> s.queue == [] && s.workers[w].busy.None?)
  }

  /** As many workers are busy as jobs are being worked on. */
  ghost predicate Manned(s: State) { SumBy(s.jobs, ActiveCount) == SumBy(s.workers, BusyCount) }

  ghost predicate ShutdownOk(s: State) {
    && (s.accepting <==> s.shutdown.Serving?)
    && (s.stop <==> s.shutdown.Stopped? || s.shutdown.ShutDown?)
    && (s.pendingAdd ==> s.accepting)
    && (s.shutdown.ShutDown? ==> s.wg == 0)
  }

  ghost predicate Inv(s: State) {
    && Balanced(s) && QueueOk(s) && WorkersOk(s) && Manned(s) && ShutdownOk(s)
    && (forall i :: 0 <= i < |s.jobs| ==> JobOk(s.jobs[i]))
  }

  lemma InitInv()
    ensures Inv(Init())
  {
    SumOfZeros(Init().workers, BusyCount);
  }

  lemma BalancedStep(s: State, l: Label)
    requires Balanced(s) && QueueOk(s) && Enabled(s, l)
    requires l.OnJob? ==> JobOk(s.jobs[l.i])
    ensures Balanced(Apply(s, l))
  {
    match l
    case EnqueueSend(c) => SumAppend(s.jobs, InFlight, FreshJob(c));
    case Dequeue(w) => SumUpdate(s.jobs, InFlight, s.queue[0], Taken(s, w).jobs[s.queue[0]]);
    case OnJob(i, a) =>
      JobStepKeepsOk(s.jobs[i], a);
      SumUpdate(s.jobs, InFlight, i, StepJob(s.jobs[i], a));
    case _ =>
  }

  lemma QueueSend(s: State, c: nat)
    requires QueueOk(s) && Enabled(s, EnqueueSend(c))
    ensures QueueOk(Apply(s, EnqueueSend(c)))
  {
  }

  lemma QueueTake(s: State, w: nat)
    requires QueueOk(s) && Enabled(s, Dequeue(w))
    ensures QueueOk(Taken(s, w))
  {
  }

  lemma QueueOnJob(s: State, i: nat, a: JobStep)
    requires QueueOk(s) && Enabled(s, OnJob(i, a)) && JobOk(s.jobs[i])
    ensures QueueOk(Stepped(s, i, a))
  {
    JobStepShape(s.jobs[i], a);
    QueueJobUpdate(s, i, StepJob(s.jobs[i], a), Stepped(s, i, a));
  }

  lemma QueueJobUpdate(s: State, i: nat, j': Job, t: State)
    requires QueueOk(s) && i < |s.jobs| && !s.jobs[i].worker.Queued? && !j'.worker.Queued?
    requires t.jobs == s.jobs[i := j'] && t.queue == s.queue
    ensures QueueOk(t)
  {
  }

  lemma QueueStep(s: State, l: Label)
    requires QueueOk(s) && Enabled(s, l)
    requires l.OnJob? ==> JobOk(s.jobs[l.i])
    ensures QueueOk(Apply(s, l))
  {
    match l
    case EnqueueSend(c) => QueueSend(s, c);
    case Dequeue(w) => QueueTake(s, w);
    case OnJob(i, a) => QueueOnJob(s, i, a);
    case _ =>
  }

  lemma WorkersDequeue(s: State, w: nat)
    requires QueueOk(s) && WorkersOk(s) && Enabled(s, Dequeue(w))
    ensures WorkersOk(Taken(s, w))
  {
    var i := s.queue[0];
    assert !Active(s.jobs[i]);
  }

  /** Changing one job keeps the link, if its worker is freed exactly when it leaves. */
  lemma WorkersJobUpdate(s: State, i: nat, j': Job, t: State)
    requires WorkersOk(s) && i < |s.jobs| && j'.w == s.jobs[i].w && (Active(j') ==> Active(s.jobs[i]))
    requires t.jobs == s.jobs[i := j'] && t.queue == s.queue && t.stop == s.stop
    requires t.workers == if Active(s.jobs[i]) && !Active(j') then s.workers[j'.w := s.workers[j'.w].(busy := None)]
                          else s.workers
    ensures WorkersOk(t)
  {
    forall w | 0 <= w < WORKER_COUNT && t.workers[w].busy.Some?
      ensures var k := t.workers[w].busy.value; k < |t.jobs| && Active(t.jobs[k]) && t.jobs[k].w == w
    {
      assert t.workers[w] == s.workers[w];
    }
  }

  lemma WorkersOnJob(s: State, i: nat, a: JobStep)
    requires WorkersOk(s) && Enabled(s, OnJob(i, a)) && JobOk(s.jobs[i])
    ensures WorkersOk(Stepped(s, i, a))
  {
    var j' := StepJob(s.jobs[i], a);
    JobStepShape(s.jobs[i], a);
    WorkersJobUpdate(s, i, j', Stepped(s, i, a));
  }

  lemma WorkersModeChange(s: State, w: nat, m: Mode)
    requires WorkersOk(s) && w < |s.workers| && s.workers[w].busy.None? && s.stop && (m.Exited? ==> s.queue == [])
    ensures WorkersOk(s.(workers := s.workers[w := Worker(m, None)]))
  {
  }

  lemma WorkersStep(s: State, l: Label)
    requires QueueOk(s) && WorkersOk(s) && ShutdownOk(s) && Enabled(s, l)
    requires l.OnJob? ==> JobOk(s.jobs[l.i])
    ensures WorkersOk(Apply(s, l))
  {
    match l
    case Dequeue(w) => WorkersDequeue(s, w);
    case OnJob(i, a) => WorkersOnJob(s, i, a);
    case SeeStop(w) => WorkersModeChange(s, w, Draining);
    case Exit(w) => WorkersModeChange(s, w, Exited);
    case _ =>
  }

  lemma MannedStep(s: State, l: Label)
    requires QueueOk(s) && WorkersOk(s) && Manned(s) && Enabled(s, l)
    requires l.OnJob? ==> JobOk(s.jobs[l.i])
    ensures Manned(Apply(s, l))
  {
    match l
    case EnqueueSend(c) => SumAppend(s.jobs, ActiveCount, FreshJob(c));
    case Dequeue(w) =>
      SumUpdate(s.jobs, ActiveCount, s.queue[0], Taken(s, w).jobs[s.queue[0]]);
      SumUpdate(s.workers, BusyCount, w, s.workers[w].(busy := Some(s.queue[0])));
    case OnJob(i, a) =>
      JobStepShape(s.jobs[i], a);
      SumUpdate(s.jobs, ActiveCount, i, StepJob(s.jobs[i], a));
      SumUpdate(s.workers, BusyCount, s.jobs[i].w, s.workers[s.jobs[i].w].(busy := None));
    case SeeStop(w) => SumUpdate(s.workers, BusyCount, w, Worker(Draining, None));
    case Exit(w) => SumUpdate(s.workers, BusyCount, w, Worker(Exited, None));
    case _ =>
  }

  lemma ShutdownStep(s: State, l: Label)
    requires Inv(s) && Enabled(s, l)
    ensures ShutdownOk(Apply(s, l))
  {
    if s.shutdown.ShutDown? {
      match l
      case OnJob(i, a) =>
        SumAtLeast(s.jobs, InFlight, i);
        JobStepKeepsOk(s.jobs[i], a);
      case _ =>
    }
  }

  lemma JobsStep(s: State, l: Label, i: nat)
    requires QueueOk(s) && Enabled(s, l) && i < |Apply(s, l).jobs|
    requires i < |s.jobs| ==> JobOk(s.jobs[i])
    ensures JobOk(Apply(s, l).jobs[i])
  {
    if l.OnJob? && l.i == i { JobStepKeepsOk(s.jobs[i], l.step); }
  }

  lemma StepKeepsInv(s: State, l: Label)
    requires Inv(s) && Enabled(s, l)
    ensures Inv(Apply(s, l))
  {
    var t := Apply(s, l);
    assert Balanced(t) by { BalancedStep(s, l); }
    assert QueueOk(t) by { QueueStep(s, l); }
    assert WorkersOk(t) by { WorkersStep(s, l); }
    assert Manned(t) by { MannedStep(s, l); }
    assert ShutdownOk(t) by { ShutdownStep(s, l); }
    forall i | 0 <= i < |t.jobs| ensures JobOk(t.jobs[i]) { JobsStep(s, l, i); }
  }

  lemma {:induction false} RunKeepsInv(s: State, ls: seq<Label>, t: State)
    requires Inv(s) && Reaches(s, ls, t)
    ensures Inv(t)
    decreases |ls|
  {
    if ls != [] {
      StepKeepsInv(s, ls[0]);
      RunKeepsInv(Apply(s, ls[0]), ls[1..], t);
    }
  }

  lemma ReachableInv(ls: seq<Label>, t: State)
    requires Reaches(Init(), ls, t)
    ensures Inv(t)
  {
    InitInv();
    RunKeepsInv(Init(), ls, t);
  }

  /** A sink call begins for job `i`. */
  predicate IsSinkCall(l: Label) { l.OnJob? && (l.step.WorkerCall? || l.step.WatcherCall?) }

  /** A sink call of job `i` returns. */
  predicate IsSinkReturn(l: Label) { l.OnJob? && (l.step.WorkerCallReturn? || l.step.WatcherCallReturn?) }

  /** What a step changes, as the pool's owner sees it. */
  lemma StepFrame(s: State, l: Label)
    requires Inv(s) && Enabled(s, l)
    ensures var t := Apply(s, l);
            && |t.jobs| == |s.jobs| + (if l.EnqueueSend? then 1 else 0)
            && (l.EnqueueSend? ==> t.jobs[|s.jobs|] == FreshJob(l.corr))
            && (forall i :: 0 <= i < |s.jobs| ==> t.jobs[i].corr == s.jobs[i].corr)
            && (forall i :: 0 <= i < |s.jobs| ==>
                  && |t.jobs[i].sent| == |s.jobs[i].sent| + (if IsSinkCall(l) && l.i == i then 1 else 0)
                  && Returned(t.jobs[i]) == Returned(s.jobs[i]) + (if IsSinkReturn(l) && l.i == i then 1 else 0))
            && t.pendingAdd == (if l.EnqueueSend? then true else if l.EnqueueAdd? then false else s.pendingAdd)
            && t.shutdown == (match l case ClearAccepting => Refusing case CloseStop => Stopped
                                      case WaitReturn => ShutDown case _ => s.shutdown)
  {
    match l
    case OnJob(i, a) => JobStepShape(s.jobs[i], a);
    case Dequeue(w) => assert JobOk(s.jobs[s.queue[0]]);
    case _ =>
  }

  // ---- Theorems over every interleaving ----

  // What a run did to one job, read off its labels.
  predicate HandlerEnded(h: seq<Label>, i: nat, o: Outcome) { OnJob(i, HandlerEnd(o)) in h }
  predicate Expired(h: seq<Label>, i: nat) { OnJob(i, DeadlinePasses) in h }
  predicate Called(h: seq<Label>, i: nat) { OnJob(i, WorkerCall) in h || OnJob(i, WatcherCall) in h }
  predicate CameBack(h: seq<Label>, i: nat) { OnJob(i, WorkerCallReturn) in h || OnJob(i, WatcherCallReturn) in h }
  predicate Done(h: seq<Label>, i: nat) { OnJob(i, WorkerDone) in h || OnJob(i, WatcherDone) in h }

  /** The job is as the labels of the run `h` leave it. */
  ghost predicate Recorded(j: Job, h: seq<Label>, i: nat) {
    && (forall o :: j.outcome == Some(o) <==> HandlerEnded(h, i, o))
    && (j.deadline <==> Expired(h, i))
    && (j.sent != [] <==> Called(h, i))
    && (Returned(j) == 1 <==> CameBack(h, i))
    && (Released(j) <==> Done(h, i))
  }

  /** The correlation ids accepted over a run, in order. */
  function Accepted(h: seq<Label>): seq<nat> {
    if h == [] then []
    else Accepted(h[..|h| - 1]) + match h[|h| - 1] case EnqueueSend(c) => [c] case _ => []
  }

  function TakenUp(h: seq<Label>): nat {
    if h == [] then 0 else TakenUp(h[..|h| - 1]) + if h[|h| - 1].Dequeue? then 1 else 0
  }

  ghost predicate FlagsFollow(s: State, h: seq<Label>) {
    && (s.accepting <==> ClearAccepting !in h)
    && (s.stop <==> CloseStop in h)
    && (s.shutdown.ShutDown? <==> WaitReturn in h)
  }

  ghost predicate QueueFollows(s: State, h: seq<Label>) {
    && |s.jobs| == |Accepted(h)| && (forall i :: 0 <= i < |s.jobs| ==> s.jobs[i].corr == Accepted(h)[i])
    && |s.jobs| - |s.queue| == TakenUp(h)
  }

  ghost predicate History(s: State, h: seq<Label>) {
    && FlagsFollow(s, h) && QueueFollows(s, h)
    && (forall i :: 0 <= i < |s.jobs| ==> Recorded(s.jobs[i], h, i))
    && (forall k :: 0 <= k < |h| && h[k].OnJob? ==> h[k].i < |s.jobs|)
  }

  lemma StepRecorded(j: Job, h: seq<Label>, i: nat, a: JobStep)
    requires JobOk(j) && CanStep(j, a) && Recorded(j, h, i)
    ensures Recorded(StepJob(j, a), h + [OnJob(i, a)], i)
  {
    var j', h' := StepJob(j, a), h + [OnJob(i, a)];
    forall o ensures j'.outcome == Some(o) <==> HandlerEnded(h', i, o) {
      assert j.outcome == Some(o) <==> HandlerEnded(h, i, o);
    }
  }

  lemma OtherRecorded(j: Job, h: seq<Label>, i: nat, l: Label)
    requires Recorded(j, h, i) && !(l.OnJob? && l.i == i)
    ensures Recorded(j, h + [l], i)
  {
    forall o ensures HandlerEnded(h, i, o) <==> HandlerEnded(h + [l], i, o) {}
  }

  lemma FreshRecorded(j: Job, h: seq<Label>, i: nat)
    requires j.outcome.None? && !j.deadline && j.sent == [] && !CallMade(j)
    requires forall k :: 0 <= k < |h| && h[k].OnJob? ==> h[k].i < i
    ensures Recorded(j, h, i)
  {
  }

  lemma JobsHistoryStep(s: State, h: seq<Label>, l: Label, i: nat)
    requires Inv(s) && History(s, h) && Enabled(s, l) && i < |Apply(s, l).jobs|
    ensures Recorded(Apply(s, l).jobs[i], h + [l], i)
  {
    var u := Apply(s, l);
    if i == |s.jobs| {
      FreshRecorded(u.jobs[i], h + [l], i);
    } else if l.OnJob? && l.i == i {
      assert JobOk(s.jobs[i]) && Recorded(s.jobs[i], h, i);
      StepRecorded(s.jobs[i], h, i, l.step);
    } else {
      assert Recorded(s.jobs[i], h, i);
      OtherRecorded(s.jobs[i], h, i, l);
      if l.Dequeue? { assert JobOk(s.jobs[i]); }
    }
  }

  lemma FlagsStep(s: State, h: seq<Label>, l: Label)
    requires FlagsFollow(s, h) && Enabled(s, l)
    ensures FlagsFollow(Apply(s, l), h + [l])
  {
  }

  lemma QueueHistoryStep(s: State, h: seq<Label>, l: Label)
    requires Inv(s) && QueueFollows(s, h) && Enabled(s, l)
    ensures QueueFollows(Apply(s, l), h + [l])
  {
    StepFrame(s, l);
    assert (h + [l])[..|h|] == h;
    hide Inv;
  }

  lemma HistoryStep(s: State, h: seq<Label>, l: Label)
    requires Inv(s) && History(s, h) && Enabled(s, l)
    ensures History(Apply(s, l), h + [l])
  {
    var u := Apply(s, l);
    StepFrame(s, l);
    FlagsStep(s, h, l);
    QueueHistoryStep(s, h, l);
    forall i | 0 <= i < |u.jobs| ensures Recorded(u.jobs[i], h + [l], i) { JobsHistoryStep(s, h, l, i); }
    hide Recorded, Inv, FlagsFollow, QueueFollows, Apply;
  }

  lemma {:induction false} RunHistory(s: State, h: seq<Label>, ls: seq<Label>, t: State)
    requires Inv(s) && History(s, h) && Reaches(s, ls, t)
    ensures History(t, h + ls)
    decreases |ls|
  {
    hide Inv, History, Apply, Enabled;
    if ls == [] {
      assert h + ls == h;
    } else {
      StepKeepsInv(s, ls[0]);
      HistoryStep(s, h, ls[0]);
      assert h + ls == h + [ls[0]] + ls[1..];
      RunHistory(Apply(s, ls[0]), h + [ls[0]], ls[1..], t);
    }
  }

  /**
   The state is what the labels of the run say: what each handler ended with, which
   deadlines passed, which answers were begun, handed over and released, which jobs
   were accepted, in which order, how many were taken up, and how far shutdown is.
   */
  lemma StateFollowsHistory(ls: seq<Label>, t: State)
    requires Reaches(Init(), ls, t)
    ensures History(t, ls)
  {
    InitInv();
    RunHistory(Init(), [], ls, t);
    assert [] + ls == ls;
  }

  /**
   Every accepted job is answered at most once, by the side that won the race: with
   what its handler produced, or with a timeout only after the deadline or a panic.
   */
  lemma AnsweredAtMostOnce(ls: seq<Label>, t: State, i: nat)
    requires Reaches(Init(), ls, t) && i < |t.jobs|
    ensures |t.jobs[i].sent| <= 1 && (t.jobs[i].sent == [] <==> !Called(ls, i))
    ensures forall o :: ResultOf(o) in t.jobs[i].sent ==> OnJob(i, HandlerEnd(o)) in ls
    ensures TimeoutError in t.jobs[i].sent ==>
              OnJob(i, DeadlinePasses) in ls || OnJob(i, HandlerEnd(HandlerPanic)) in ls
  {
    ReachableInv(ls, t);
    StateFollowsHistory(ls, t);
    assert JobOk(t.jobs[i]) && Recorded(t.jobs[i], ls, i);
    forall o | ResultOf(o) in t.jobs[i].sent ensures OnJob(i, HandlerEnd(o)) in ls { assert HandlerEnded(ls, i, o); }
    assert t.jobs[i].outcome == Some(HandlerPanic) <==> HandlerEnded(ls, i, HandlerPanic);
  }

  lemma ShutDownMeansAllReleased(t: State)
    requires Inv(t) && t.shutdown.ShutDown?
    ensures t.queue == []
    ensures forall i :: 0 <= i < |t.jobs| ==> Released(t.jobs[i])
  {
    forall i | 0 <= i < |t.jobs| ensures Released(t.jobs[i]) {
      SumAtLeast(t.jobs, InFlight, i);
    }
  }

  lemma SentOnce(t: State, i: nat)
    requires Inv(t) && i < |t.jobs|
    ensures |t.jobs[i].sent| <= 1
    ensures t.shutdown.ShutDown? ==> |t.jobs[i].sent| == 1 && !CallInProgress(t.jobs[i]) && Returned(t.jobs[i]) == 1
  {
    assert JobOk(t.jobs[i]);
    if t.shutdown.ShutDown? { ShutDownMeansAllReleased(t); }
  }

  /**
   When shutdown has returned, every job ever accepted has been answered exactly
   once, no answer call is still running, and the queue is empty.
   */
  lemma ShutdownAnswersAll(ls: seq<Label>, t: State)
    requires Reaches(Init(), ls, t) && t.shutdown.ShutDown?
    ensures t.queue == []
    ensures forall i :: 0 <= i < |t.jobs| ==> |t.jobs[i].sent| == 1 && !CallInProgress(t.jobs[i])
  {
    ReachableInv(ls, t);
    ShutDownMeansAllReleased(t);
    forall i | 0 <= i < |t.jobs| ensures |t.jobs[i].sent| == 1 && !CallInProgress(t.jobs[i]) { SentOnce(t, i); }
  }

  /** A sink call only ever begins and returns while shutdown has not returned. */
  lemma SinkCallBeforeShutDown(s: State, l: Label)
    requires Inv(s) && Enabled(s, l) && (IsSinkCall(l) || IsSinkReturn(l))
    ensures !s.shutdown.ShutDown?
  {
    assert JobOk(s.jobs[l.i]);
    if s.shutdown.ShutDown? { ShutDownMeansAllReleased(s); }
  }

  lemma {:induction false} SinkStaysUntouched(s: State, ls: seq<Label>, t: State)
    requires Inv(s) && s.shutdown.ShutDown? && Reaches(s, ls, t)
    ensures t.shutdown.ShutDown? && |t.jobs| == |s.jobs|
    ensures forall i :: 0 <= i < |s.jobs| ==> t.jobs[i].sent == s.jobs[i].sent
    decreases |ls|
  {
    if ls != [] {
      ShutDownMeansAllReleased(s);
      StepKeepsInv(s, ls[0]);
      if ls[0].OnJob? { assert JobOk(s.jobs[ls[0].i]); }
      SinkStaysUntouched(Apply(s, ls[0]), ls[1..], t);
    }
  }

  /** After shutdown has returned, no continuation touches the sink or accepts a job. */
  lemma SinkUntouchedAfterShutdown(before: seq<Label>, s: State, ls: seq<Label>, t: State)
    requires Reaches(Init(), before, s) && s.shutdown.ShutDown? && Reaches(s, ls, t)
    ensures t.shutdown.ShutDown? && |t.jobs| == |s.jobs|
    ensures forall i :: 0 <= i < |s.jobs| ==> t.jobs[i].sent == s.jobs[i].sent
  {
    ReachableInv(before, s);
    SinkStaysUntouched(s, ls, t);
  }

  /** Jobs are taken up in the order they were accepted. */
  lemma TakenInOrder(ls: seq<Label>, t: State, i: nat, k: nat)
    requires Reaches(Init(), ls, t) && i < k < |t.jobs| && !t.jobs[k].worker.Queued?
    ensures !t.jobs[i].worker.Queued?
  {
    ReachableInv(ls, t);
  }

  /** Once one worker has exited, the queue is empty for good. */
  lemma ExitedWorkerMeansEmptyQueue(ls: seq<Label>, t: State, w: nat)
    requires Reaches(Init(), ls, t) && w < |t.workers| && t.workers[w].mode.Exited?
    ensures t.queue == [] && !t.accepting
  {
    ReachableInv(ls, t);
  }

  // ---- When a step crashes the pool ----

  /** The only job in the pool: nothing queued and nothing else in flight. */
  ghost predicate Alone(s: State, i: nat) {
    s.queue == [] && forall k :: 0 <= k < |s.jobs| && k != i ==> InFlight(s.jobs[k]) == 0
  }

  lemma AloneMeansOneInFlight(s: State, i: nat)
    requires i < |s.jobs| && InFlight(s.jobs[i]) == 1 && s.queue == []
    ensures Alone(s, i) <==> SumBy(s.jobs, InFlight) == 1
  {
    if Alone(s, i) {
      SumUpdate(s.jobs, InFlight, i, FreshJob(0));
      SumOfZeros(s.jobs[i := FreshJob(0)], InFlight);
    } else {
      var k :| 0 <= k < |s.jobs| && k != i && InFlight(s.jobs[k]) != 0;
      if i < k { SumAtLeastTwo(s.jobs, InFlight, i, k); } else { SumAtLeastTwo(s.jobs, InFlight, k, i); }
    }
  }

  predicate IsDone(l: Label) { l.OnJob? && (l.step.WorkerDone? || l.step.WatcherDone?) }

  lemma StepCrashesIff(s: State, l: Label)
    requires Inv(s) && Enabled(s, l)
    ensures Crashed(Apply(s, l)) <==> s.pendingAdd && IsDone(l) && Alone(s, l.i)
  {
    if IsDone(l) {
      var j := s.jobs[l.i];
      assert JobOk(j);
      assert InFlight(j) == 1;
      SumAtLeast(s.jobs, InFlight, l.i);
      assert Crashed(Apply(s, l)) <==> s.pendingAdd && s.queue == [] && SumBy(s.jobs, InFlight) == 1;
      if s.queue == [] { AloneMeansOneInFlight(s, l.i); }
    }
  }

  /**
   Exactly when a step crashes the pool: it is the wg.Done of a job that is alone
   in the pool, taken while an enqueue still owes its wg.Add.
   */
  lemma CrashesIff(ls: seq<Label>, s: State, l: Label)
    requires Reaches(Init(), ls, s) && Enabled(s, l)
    ensures Crashed(Apply(s, l)) <==> s.pendingAdd && IsDone(l) && Alone(s, l.i)
  {
    ReachableInv(ls, s);
    StepCrashesIff(s, l);
  }

  // ---- Shutdown progress ----

  function WorkerRank(w: WorkerSide): nat {
    match w
    case Queued => 7 case Running => 6 case Ended(_) => 5 case Won(_) => 4
    case InCall => 3 case NeedDone => 2 case Left(_) => 1
  }
  function WatcherRank(w: WatcherSide): nat {
    match w
    case Unborn => 5 case Waiting => 5 case WatcherWon => 4
    case WatcherInCall => 3 case WatcherNeedDone => 2 case Gone(_) => 1
  }
  function JobRank(j: Job): nat {
    WorkerRank(j.worker) + WatcherRank(j.watcher) + if j.ctxDone then 0 else 1
  }
  function ModeRank(w: Worker): nat {
    match w.mode case Looping => 2 case Draining => 1 case Exited => 0
  }
  function ShutdownRank(p: Shutdown): nat {
    match p case Serving => 3 case Refusing => 2 case Stopped => 1 case ShutDown => 0
  }

  /** The steps the pool still has in it if no more jobs are accepted. */
  ghost function Remaining(s: State): nat {
    SumBy(s.jobs, JobRank) + SumBy(s.workers, ModeRank) + ShutdownRank(s.shutdown)
  }

  lemma JobStepDecreasesRank(j: Job, a: JobStep)
    requires JobOk(j) && CanStep(j, a)
    ensures JobRank(StepJob(j, a)) < JobRank(j)
  {
  }

  lemma SteppedDecreasesRemaining(s: State, i: nat, a: JobStep)
    requires Enabled(s, OnJob(i, a)) && JobOk(s.jobs[i])
    ensures Remaining(Stepped(s, i, a)) < Remaining(s)
  {
    var j := s.jobs[i];
    JobStepDecreasesRank(j, a);
    SumUpdate(s.jobs, JobRank, i, StepJob(j, a));
    SumUpdate(s.workers, ModeRank, j.w, s.workers[j.w].(busy := None));
  }

  lemma TakenDecreasesRemaining(s: State, w: nat)
    requires QueueOk(s) && Enabled(s, Dequeue(w)) && JobOk(s.jobs[s.queue[0]])
    ensures Remaining(Taken(s, w)) < Remaining(s)
  {
    var i := s.queue[0];
    SumUpdate(s.jobs, JobRank, i, Taken(s, w).jobs[i]);
    SumUpdate(s.workers, ModeRank, w, s.workers[w].(busy := Some(i)));
  }

  lemma StopStays(s: State, l: Label)
    requires Enabled(s, l) && s.stop
    ensures Apply(s, l).stop
  {
  }

  /** Accepting a job adds exactly the steps of a fresh job. */
  lemma SendAddsOneJob(s: State, c: nat)
    requires Enabled(s, EnqueueSend(c))
    ensures Remaining(Apply(s, EnqueueSend(c))) == Remaining(s) + JobRank(FreshJob(0))
  {
    SumAppend(s.jobs, JobRank, FreshJob(c));
  }

  lemma StepDecreasesRemaining(s: State, l: Label)
    requires Inv(s) && Enabled(s, l) && !l.EnqueueSend? && !l.EnqueueAdd?
    ensures Remaining(Apply(s, l)) < Remaining(s)
  {
    match l
    case Dequeue(w) => TakenDecreasesRemaining(s, w);
    case SeeStop(w) => SumUpdate(s.workers, ModeRank, w, Worker(Draining, None));
    case Exit(w) => SumUpdate(s.workers, ModeRank, w, Worker(Exited, None));
    case OnJob(i, a) => SteppedDecreasesRemaining(s, i, a);
    case _ =>
  }

  lemma {:induction false} StoppedRunDecreases(s: State, ls: seq<Label>, t: State)
    requires Inv(s) && s.stop && Reaches(s, ls, t)
    ensures |ls| + Remaining(t) <= Remaining(s)
    decreases |ls|
  {
    if ls != [] {
      StepKeepsInv(s, ls[0]);
      StepDecreasesRemaining(s, ls[0]);
      StoppedRunDecreases(Apply(s, ls[0]), ls[1..], t);
    }
  }

  /** Once `stop` is closed no run is longer than `Remaining`, whatever the interleaving. */
  lemma StoppedRunsAreBounded(before: seq<Label>, s: State, ls: seq<Label>, t: State)
    requires Reaches(Init(), before, s) && s.stop && Reaches(s, ls, t)
    ensures |ls| + Remaining(t) <= Remaining(s)
  {
    ReachableInv(before, s);
    StoppedRunDecreases(s, ls, t);
  }

  /** Answers that have not been handed over yet. */
  ghost function Owed(s: State): nat { SumBy(s.jobs, Unreturned) }

  lemma OwedStep(s: State, l: Label)
    requires Inv(s) && Enabled(s, l)
    ensures Owed(Apply(s, l)) + (if IsSinkReturn(l) then 1 else 0) == Owed(s) + if l.EnqueueSend? then 1 else 0
  {
    match l
    case EnqueueSend(c) => SumAppend(s.jobs, Unreturned, FreshJob(c));
    case Dequeue(w) => SumUpdate(s.jobs, Unreturned, s.queue[0], Taken(s, w).jobs[s.queue[0]]);
    case OnJob(i, a) =>
      JobStepShape(s.jobs[i], a);
      SumUpdate(s.jobs, Unreturned, i, StepJob(s.jobs[i], a));
    case _ =>
  }

  lemma ShutDownOwesNothing(s: State)
    requires Inv(s) && s.shutdown.ShutDown?
    ensures Owed(s) == 0
  {
    forall i | 0 <= i < |s.jobs| ensures Unreturned(s.jobs[i]) == 0 { SentOnce(s, i); }
    SumOfZeros(s.jobs, Unreturned);
  }

  /** A step the pool takes by itself, without a handler returning or panicking. */
  predicate Internal(l: Label) { !l.EnqueueSend? && !(l.OnJob? && l.step.HandlerEnd?) }
  ghost predicate Quiescent(s: State) { forall l :: Internal(l) ==> !Enabled(s, l) }

  /** Nothing left to do for this job unless its handler returns or a worker takes it. */
  predicate Settled(j: Job) { j.worker.Queued? || ((j.worker.Running? || j.worker.Left?) && j.watcher.Gone?) }

  /** All eight workers sit in timed-out handlers and jobs are still queued. */
  ghost predicate Stuck(s: State) {
    && s.queue != []
    && (forall w :: 0 <= w < |s.workers| ==> s.workers[w].busy.Some?)
    && (forall i :: 0 <= i < |s.jobs| ==> Settled(s.jobs[i]))
  }

  /** The internal step of an unsettled job. */
  lemma UnsettledJobSteps(j: Job) returns (a: JobStep)
    requires JobOk(j) && !Settled(j)
    ensures CanStep(j, a) && !a.HandlerEnd?
  {
    a := if j.worker.Ended? then WorkerCas
         else if j.worker.Won? then WorkerCall
         else if j.worker.InCall? then WorkerCallReturn
         else if j.worker.NeedDone? then WorkerDone
         else if j.watcher.WatcherWon? then WatcherCall
         else if j.watcher.WatcherInCall? then WatcherCallReturn
         else if j.watcher.WatcherNeedDone? then WatcherDone
         else if j.ctxDone then WatcherCas else DeadlinePasses;
  }

  lemma SettledMeansReleased(s: State)
    requires Inv(s) && forall i :: 0 <= i < |s.jobs| ==> Settled(s.jobs[i])
    ensures SumBy(s.jobs, InFlight) == 0
  {
    forall i | 0 <= i < |s.jobs| ensures InFlight(s.jobs[i]) == 0 { assert JobOk(s.jobs[i]); }
    SumOfZeros(s.jobs, InFlight);
  }

  lemma SettledPoolMovesOn(s: State) returns (l: Label)
    requires Inv(s) && s.shutdown.Stopped? && !Stuck(s)
    requires forall i :: 0 <= i < |s.jobs| ==> Settled(s.jobs[i])
    ensures Internal(l) && Enabled(s, l) && (l.WaitReturn? || l.Dequeue?)
  {
    SettledMeansReleased(s);
    if s.queue == [] {
      l := WaitReturn;
    } else {
      var w :| 0 <= w < |s.workers| && s.workers[w].busy.None?;
      l := Dequeue(w);
    }
  }

  /** The next step of a stopped pool that is not stuck. */
  lemma StoppedPoolMovesOn(s: State) returns (l: Label)
    requires Inv(s) && s.shutdown.Stopped? && !Stuck(s)
    ensures Internal(l) && Enabled(s, l)
    ensures l.WaitReturn? || l.Dequeue? || l.OnJob?
  {
    if i :| 0 <= i < |s.jobs| && !Settled(s.jobs[i]) {
      var a := UnsettledJobSteps(s.jobs[i]);
      l := OnJob(i, a);
    } else {
      l := SettledPoolMovesOn(s);
    }
  }

  lemma SettledJobWaits(j: Job, a: JobStep)
    requires JobOk(j) && Settled(j) && !a.HandlerEnd?
    ensures !CanStep(j, a)
  {
  }

  lemma StuckMeansQuiescent(s: State, l: Label)
    requires Inv(s) && s.shutdown.Stopped? && Stuck(s) && Internal(l)
    ensures !Enabled(s, l)
  {
    assert s.wg > 0 && s.queue != [] && !s.pendingAdd;
    match l
    case OnJob(i, a) => if i < |s.jobs| { SettledJobWaits(s.jobs[i], a); }
    case _ =>
  }

  /**
   While shutdown waits, the pool can always take a step of its own, except in
   exactly one situation: every worker is in a handler that has outlived its
   deadline and does not return, and jobs are still queued behind them.
   */
  lemma ShutdownBlockedIff(ls: seq<Label>, s: State)
    requires Reaches(Init(), ls, s) && s.shutdown.Stopped?
    ensures Quiescent(s) <==> Stuck(s)
  {
    ReachableInv(ls, s);
    if !Stuck(s) { var l := StoppedPoolMovesOn(s); }
    if Stuck(s) {
      forall l | Internal(l) ensures !Enabled(s, l) { StuckMeansQuiescent(s, l); }
    }
  }

  /** In that situation every worker is in a handler whose job was already answered. */
  lemma StuckWorkersAreInHandlers(ls: seq<Label>, s: State, w: nat)
    requires Reaches(Init(), ls, s) && Stuck(s) && w < WORKER_COUNT
    ensures w < |s.workers| && s.workers[w].busy.Some? && s.workers[w].busy.value < |s.jobs|
    ensures var j := s.jobs[s.workers[w].busy.value]; j.worker.Running? && j.sent == [TimeoutError] && Released(j)
  {
    ReachableInv(ls, s);
    assert JobOk(s.jobs[s.workers[w].busy.value]);
  }

  /** Worker `w` is inside a handler call. */
  ghost predicate InHandler(s: State, w: nat) {
    w < |s.workers| && s.workers[w].busy.Some? && s.workers[w].busy.value < |s.jobs|
    && s.jobs[s.workers[w].busy.value].worker.Running?
  }

  /**
   Handlers that never return do not hold up shutdown as long as one worker is not
   in such a handler: a stopped pool takes at most `Remaining` more steps, and when it
   has none left to take by itself, shutdown has returned.
   */
  lemma OneFreeWorkerSuffices(ls: seq<Label>, s: State, w: nat)
    requires Reaches(Init(), ls, s) && s.stop && Quiescent(s)
    requires w < WORKER_COUNT && !InHandler(s, w)
    ensures s.shutdown.ShutDown?
  {
    ReachableInv(ls, s);
    if s.shutdown.Stopped? {
      ShutdownBlockedIff(ls, s);
      StuckWorkersAreInHandlers(ls, s, w);
    }
  }
}
