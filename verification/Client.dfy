/**
 The public Go client: Start, Close and the run loop it owns, over any interleaving
 of the goroutines that call them. Each FFI connection the loop opens publishes its
 lifecycle events, in order, to the Rust event loop.
 */
module Client {
  import opened NativeConnection
  import opened EventLoop

  /** The run loop; it owns FFI connection `c` from its creation until it closed it. */
  datatype Loop =
    | NotStarted | Top | Dialing(c: nat) | Marking(c: nat) | InSession(c: nat) | Deciding | Sleeping | Returning | Finished

  /** The first call to Close. */
  datatype Closer = NotClosing | Flagged(hasCancel: bool) | Waiting | Releasing | Released

  datatype State = State(
    started: bool, closed: bool,
    wg: nat,
    cancelled: bool,        // the run loop's context
    loop: Loop,
    closer: Closer,
    nextConn: nat,
    open: set<nat>,         // FFI connections created and not yet closed
    ffiCloses: nat,         // calls to ffiCtx.Close
    events: seq<Event>)

  datatype Label =
    | Start | NewConn | NewConnFails | DialOk | DialFails | MarkOk | MarkFails | SessionEnds
    | Continue | SleepOver | SeeCancel | RunReturns
    | CloseBegin | CloseCancel | CloseWait | CloseContext

  function Init(): State { State(false, false, 0, false, NotStarted, NotClosing, 0, {}, 0, []) }

  predicate Enabled(s: State, l: Label) {
    match l
    case Start => !s.closed && !s.started            // otherwise an error, and nothing changes
    case NewConn => s.loop.Top? && s.ffiCloses == 0
    case NewConnFails => s.loop.Top?
    case DialOk => s.loop.Dialing?
    case DialFails => s.loop.Dialing?
    case MarkOk => s.loop.Marking?
    case MarkFails => s.loop.Marking?
    case SessionEnds => s.loop.InSession?
    case Continue => s.loop.Deciding? && !s.cancelled
    case SleepOver => s.loop.Sleeping?
    case SeeCancel => (s.loop.Deciding? || s.loop.Sleeping?) && s.cancelled
    case RunReturns => s.loop.Returning? && s.wg > 0
    case CloseBegin => !s.closed
    case CloseCancel => s.closer.Flagged?
    case CloseWait => s.closer.Waiting? && s.wg == 0
    case CloseContext => s.closer.Releasing?
  }

  /** Connection.Close: the disconnect is published only for a connected connection. */
  function CloseConn(s: State, c: nat, connected: bool): State {
    s.(loop := Deciding, open := s.open - {c},
       events := s.events + (if connected then [DisconnectedEvent, ReleaseEvent] else [ReleaseEvent]))
  }

  function Apply(s: State, l: Label): State
    requires Enabled(s, l)
  {
    match l
    case Start => s.(started := true, wg := s.wg + 1, loop := Top)
    case NewConn =>
      s.(loop := Dialing(s.nextConn), nextConn := s.nextConn + 1, open := s.open + {s.nextConn},
         events := s.events + [InitEvent])
    case NewConnFails => s.(loop := Deciding)
    case DialOk => s.(loop := Marking(s.loop.c))
    case DialFails => CloseConn(s, s.loop.c, false)
    case MarkOk => s.(loop := InSession(s.loop.c), events := s.events + [ConnectedEvent])
    case MarkFails => CloseConn(s, s.loop.c, false)
    case SessionEnds => CloseConn(s, s.loop.c, true)
    case Continue => s.(loop := Sleeping)
    case SleepOver => s.(loop := Top)
    case SeeCancel => s.(loop := Returning)
    case RunReturns => s.(loop := Finished, wg := s.wg - 1)
    case CloseBegin => s.(closed := true, closer := Flagged(s.started))
    case CloseCancel => s.(closer := Waiting, cancelled := s.cancelled || s.closer.hasCancel)
    case CloseWait => s.(closer := Releasing)
    case CloseContext => s.(closer := Released, ffiCloses := s.ffiCloses + 1)
  }

  ghost predicate Reaches(s: State, ls: seq<Label>, t: State)
    decreases |ls|
  {
    if ls == [] then s == t else Enabled(s, ls[0]) && Reaches(Apply(s, ls[0]), ls[1..], t)
  }

  /** Where a stream of events is, if it consists of whole connection lifecycles one after another. */
  datatype Position = Between | Inited | Up | Down | Broken

  function Follow(p: Position, e: Event): Position {
    match e
    case InitEvent => if p.Between? then Inited else Broken
    case ConnectedEvent => if p.Inited? then Up else Broken
    case DisconnectedEvent => if p.Up? then Down else Broken
    case ReleaseEvent => if p.Inited? || p.Down? then Between else Broken
  }

  function Lifecycles(events: seq<Event>): Position {
    if events == [] then Between else Follow(Lifecycles(events[..|events| - 1]), events[|events| - 1])
  }

  /** Lifecycles one after another never have two connections up. */
  lemma {:induction false} LifecyclesOneAtATime(events: seq<Event>)
    requires !Lifecycles(events).Broken?
    ensures OneAtATime(events) && (IsOpen(events) <==> Lifecycles(events).Up?)
    decreases |events|
  {
    if events != [] {
      var n := |events| - 1;
      LifecyclesOneAtATime(events[..n]);
      OneAtATimeStep(events, n);
      assert events[..n + 1] == events;
    }
  }

  predicate LoopRuns(s: State) { !s.loop.NotStarted? && !s.loop.Finished? }
  predicate Owns(s: State) { s.loop.Dialing? || s.loop.Marking? || s.loop.InSession? }

  ghost predicate Inv(s: State) {
    && (s.started <==> !s.loop.NotStarted?)
    && s.wg == (if LoopRuns(s) then 1 else 0)
    && (s.closed <==> !s.closer.NotClosing?)
    && (s.closer.Flagged? ==> s.closer.hasCancel == s.started)
    && (s.closer.Waiting? && s.started ==> s.cancelled)
    && (s.cancelled ==> s.started && !s.closer.NotClosing? && !s.closer.Flagged?)
    && (s.loop.Returning? || s.loop.Finished? ==> s.cancelled)
    && (s.closer.Releasing? || s.closer.Released? ==> !LoopRuns(s))
    && s.ffiCloses == (if s.closer.Released? then 1 else 0)
    && s.open == (if Owns(s) then {s.loop.c} else {})
    && (Owns(s) ==> s.loop.c < s.nextConn)
    && Lifecycles(s.events) == (match s.loop case Dialing(_) => Inited case Marking(_) => Inited
                                             case InSession(_) => Up case _ => Between)
  }

  lemma EventPublished(events: seq<Event>, e: Event)
    ensures Lifecycles(events + [e]) == Follow(Lifecycles(events), e)
  {
    assert (events + [e])[..|events|] == events;
  }

  lemma StepKeepsInv(s: State, l: Label)
    requires Inv(s) && Enabled(s, l)
    ensures Inv(Apply(s, l))
  {
    hide Lifecycles;
    match l
    case NewConn => EventPublished(s.events, InitEvent);
    case MarkOk => EventPublished(s.events, ConnectedEvent);
    case DialFails => EventPublished(s.events, ReleaseEvent);
    case MarkFails => EventPublished(s.events, ReleaseEvent);
    case SessionEnds =>
      EventPublished(s.events, DisconnectedEvent);
      EventPublished(s.events + [DisconnectedEvent], ReleaseEvent);
      assert s.events + [DisconnectedEvent] + [ReleaseEvent] == s.events + [DisconnectedEvent, ReleaseEvent];
    case _ =>
  }

  lemma {:induction false} RunKeepsInv(s: State, ls: seq<Label>, t: State)
    requires Inv(s) && Reaches(s, ls, t)
    ensures Inv(t)
    decreases |ls|
  {
    if ls != [] {
      StepKeepsInv(s, ls[0]);
      RunKeepsInv(Apply(s, ls[0]), ls[1..], t);
    }
  }

  /** At most one FFI connection is open at any time, and none when the next is created. */
  lemma OneConnectionAtATime(ls: seq<Label>, s: State)
    requires Reaches(Init(), ls, s)
    ensures |s.open| <= 1
    ensures Enabled(s, NewConn) ==> s.open == {}
  {
    RunKeepsInv(Init(), ls, s);
  }

  /**
   The FFI context is closed at most once, with no connection open and no run loop
   active, and from then on none can be started.
   */
  lemma ContextClosedOnceAndLast(ls: seq<Label>, s: State)
    requires Reaches(Init(), ls, s)
    ensures s.ffiCloses <= 1
    ensures Enabled(s, CloseContext) || s.ffiCloses > 0 ==>
              s.open == {} && !LoopRuns(s) && s.wg == 0 && !Enabled(s, Start)
  {
    RunKeepsInv(Init(), ls, s);
  }

  /** The client publishes whole connection lifecycles, one after another. */
  lemma LifecyclesAreSequential(ls: seq<Label>, s: State)
    requires Reaches(Init(), ls, s)
    ensures !Lifecycles(s.events).Broken? && (Lifecycles(s.events).Between? <==> s.open == {})
  {
    RunKeepsInv(Init(), ls, s);
  }

  /** The run loop ends only when Close has told it to. */
  lemma LoopEndsOnlyIfCancelled(ls: seq<Label>, s: State)
    requires Reaches(Init(), ls, s)
    ensures s.loop.Returning? || s.loop.Finished? ==> s.cancelled && CloseCancel in ls
  {
    RunKeepsInv(Init(), ls, s);
    CancelIsRecorded(Init(), ls, s);
  }

  lemma {:induction false} CancelIsRecorded(s: State, ls: seq<Label>, t: State)
    requires Reaches(s, ls, t)
    ensures t.cancelled ==> s.cancelled || CloseCancel in ls
    decreases |ls|
  {
    if ls != [] { CancelIsRecorded(Apply(s, ls[0]), ls[1..], t); }
  }

  /** Some continuation in which Close is not called gets to a session over a new connection. */
  ghost predicate CanReconnect(s: State) {
    exists ls, t :: Reaches(s, ls, t) && CloseBegin !in ls && t.loop == InSession(s.nextConn)
  }

  /** The step that brings the loop nearer to a session over connection `c`. */
  function TowardsSession(loop: Loop, c: nat): (l: Label)
    requires !loop.Returning? && !loop.Finished?
  {
    match loop
    case NotStarted => Start
    case Top => NewConn
    case Dialing(k) => if k == c then DialOk else DialFails
    case Marking(k) => if k == c then MarkOk else MarkFails
    case InSession(_) => SessionEnds
    case Deciding => Continue
    case Sleeping => SleepOver
  }

  function SessionDistance(loop: Loop, c: nat): nat {
    match loop
    case Dialing(k) => if k == c then 2 else 6
    case Marking(k) => if k == c then 1 else 6
    case InSession(k) => if k == c then 0 else 6
    case Deciding => 5 case Sleeping => 4 case NotStarted => 4 case _ => 3
  }

  lemma {:induction false} NextSession(s: State, c: nat) returns (ls: seq<Label>, t: State)
    requires Inv(s) && !s.closed && (s.nextConn == c || (Owns(s) && s.loop.c == c))
    ensures Reaches(s, ls, t) && CloseBegin !in ls && t.loop == InSession(c)
    decreases SessionDistance(s.loop, c)
  {
    if s.loop == InSession(c) {
      ls, t := [], s;
    } else {
      hide Lifecycles;
      var l := TowardsSession(s.loop, c);
      var u := Apply(s, l);
      StepKeepsInv(s, l);
      var rest;
      rest, t := NextSession(u, c);
      ls := [l] + rest;
      assert ls[1..] == rest;
    }
  }

  /**
   As long as Close has not been called, whatever failed so far, the client can get to a
   session over a new connection.
   */
  lemma ClientKeepsReconnecting(ls: seq<Label>, s: State)
    requires Reaches(Init(), ls, s) && CloseBegin !in ls
    ensures CanReconnect(s)
  {
    RunKeepsInv(Init(), ls, s);
    ClosedIsRecorded(Init(), ls, s);
    var rest, t := NextSession(s, s.nextConn);
  }

  /** Some continuation in which no new call is made closes the FFI context. */
  ghost predicate CanClose(s: State) { exists ls, t :: Reaches(s, ls, t) && CloseContext in ls }

  lemma {:induction false} ClosingPath(s: State) returns (ls: seq<Label>, t: State)
    requires Inv(s) && Stopping(s) && !s.closer.Released?
    ensures Reaches(s, ls, t) && CloseContext in ls
    decreases Remaining(s)
  {
    hide Lifecycles;
    var l := if Owns(s) then (if s.loop.Dialing? then DialFails else if s.loop.Marking? then MarkFails else SessionEnds)
             else StoppingStep(s);
    var u := Apply(s, l);
    StepKeepsInv(s, l);
    if l.CloseContext? {
      ls, t := [l], u;
      assert Reaches(u, [], u);
    } else {
      var rest;
      rest, t := ClosingPath(u);
      ls := [l] + rest;
      assert ls[1..] == rest;
    }
  }

  /** Close can be called in any state, started or not, and can then close the FFI context. */
  lemma ClientCanAlwaysClose(ls: seq<Label>, s: State)
    requires Reaches(Init(), ls, s) && CloseBegin !in ls
    ensures CanClose(s)
  {
    RunKeepsInv(Init(), ls, s);
    ClosedIsRecorded(Init(), ls, s);
    var u := Apply(s, CloseBegin);
    StepKeepsInv(s, CloseBegin);
    var v := Apply(u, CloseCancel);
    StepKeepsInv(u, CloseCancel);
    var rest, t := ClosingPath(v);
    assert ([CloseCancel] + rest)[1..] == rest && Reaches(u, [CloseCancel] + rest, t);
    assert ([CloseBegin] + ([CloseCancel] + rest))[1..] == [CloseCancel] + rest;
    assert Reaches(s, [CloseBegin] + ([CloseCancel] + rest), t);
  }

  lemma {:induction false} ClosedIsRecorded(s: State, ls: seq<Label>, t: State)
    requires Reaches(s, ls, t)
    ensures t.closed <==> s.closed || CloseBegin in ls
    decreases |ls|
  {
    if ls != [] { ClosedIsRecorded(Apply(s, ls[0]), ls[1..], t); }
  }

  /** Close never waits for a run loop it has not told to stop. */
  lemma WaitingLoopIsCancelled(ls: seq<Label>, s: State)
    requires Reaches(Init(), ls, s) && s.closer.Waiting? && LoopRuns(s)
    ensures s.cancelled
  {
    RunKeepsInv(Init(), ls, s);
  }

  /** The steps the loop has left once its context is cancelled. */
  function LoopRank(loop: Loop): nat {
    match loop
    case Sleeping => 7 case Top => 6 case Dialing(_) => 5 case Marking(_) => 4 case InSession(_) => 3
    case Deciding => 2 case Returning => 1 case Finished => 0 case NotStarted => 0
  }

  function Remaining(s: State): nat {
    LoopRank(s.loop) + match s.closer case Waiting => 2 case Releasing => 1 case _ => 0
  }

  /** Close is past cancelling the loop's context. */
  predicate Stopping(s: State) { s.closer.Waiting? || s.closer.Releasing? || s.closer.Released? }

  lemma {:induction false} StoppingRun(s: State, ls: seq<Label>, t: State)
    requires Inv(s) && Stopping(s) && Reaches(s, ls, t)
    ensures Inv(t) && Stopping(t) && |ls| + Remaining(t) <= Remaining(s)
    decreases |ls|
  {
    hide Lifecycles;
    if ls != [] {
      StepKeepsInv(s, ls[0]);
      StoppingRun(Apply(s, ls[0]), ls[1..], t);
    }
  }

  lemma StoppingMovesOn(s: State) returns (l: Label)
    requires Inv(s) && Stopping(s) && !s.closer.Released? && !Owns(s)
    ensures Enabled(s, l) && !l.DialOk? && !l.DialFails? && !l.MarkOk? && !l.MarkFails? && !l.SessionEnds?
  {
    hide Lifecycles;
    l := StoppingStep(s);
  }

  /** The next step of the run loop or of Close where the network does not hold it up. */
  function StoppingStep(s: State): Label {
    if s.closer.Releasing? then CloseContext
    else if !LoopRuns(s) then CloseWait
    else if s.loop.Top? then NewConnFails
    else if s.loop.Returning? then RunReturns
    else SeeCancel
  }

  function Count(h: seq<Label>, l: Label): nat { multiset(h)[l] }

  /** Every attempt follows the start or a wait; every connection has its number. */
  ghost predicate History(s: State, h: seq<Label>) {
    && Count(h, NewConn) + Count(h, NewConnFails) + (if s.loop.Top? then 1 else 0) == Count(h, Start) + Count(h, SleepOver)
    && s.nextConn == Count(h, NewConn) && s.ffiCloses == Count(h, CloseContext)
    && (s.started <==> Start in h) && Count(h, Start) <= 1
  }

  lemma HistoryStep(s: State, h: seq<Label>, l: Label)
    requires Inv(s) && History(s, h) && Enabled(s, l)
    ensures History(Apply(s, l), h + [l])
  {
    hide Lifecycles;
    assert multiset(h + [l]) == multiset(h) + multiset{l};
    assert Start in h <==> Count(h, Start) > 0;
  }

  lemma {:induction false} RunHistory(s: State, h: seq<Label>, ls: seq<Label>, t: State)
    requires Inv(s) && History(s, h) && Reaches(s, ls, t)
    ensures History(t, h + ls)
    decreases |ls|
  {
    hide Inv, History, Apply, Enabled;
    if ls == [] {
      assert h + ls == h;
    } else {
      StepKeepsInv(s, ls[0]);
      HistoryStep(s, h, ls[0]);
      assert h + ls == h + [ls[0]] + ls[1..];
      RunHistory(Apply(s, ls[0]), h + [ls[0]], ls[1..], t);
    }
  }

  /** In every run each attempt but the first is preceded by a wait of its own. */
  lemma AttemptsAreSpaced(ls: seq<Label>, s: State)
    requires Reaches(Init(), ls, s)
    ensures Count(ls, NewConn) + Count(ls, NewConnFails) <= 1 + Count(ls, SleepOver)
    ensures s.nextConn == Count(ls, NewConn) && s.ffiCloses == Count(ls, CloseContext) && (s.started <==> Start in ls)
  {
    RunHistory(Init(), [], ls, s);
    assert [] + ls == ls;
  }

  lemma {:induction false} Then(from: State, ls: seq<Label>, s: State, l: Label) returns (ls': seq<Label>, t: State)
    requires Reaches(from, ls, s) && Enabled(s, l)
    ensures t == Apply(s, l) && |ls'| == |ls| + 1 && Reaches(from, ls', t)
    decreases |ls|
  {
    hide Apply, Enabled;
    t := Apply(s, l);
    if ls == [] {
      ls' := [l];
      assert ls'[1..] == [];
    } else {
      var rest;
      rest, t := Then(Apply(from, ls[0]), ls[1..], s, l);
      ls' := [ls[0]] + rest;
      assert ls'[1..] == rest;
    }
  }

  lemma CancelledAsleep() returns (ls: seq<Label>, s: State)
    ensures Reaches(Init(), ls, s) && s.closer.Waiting? && s.cancelled && s.loop.Sleeping? && s.wg == 1 && s.ffiCloses == 0
  {
    ls, s := [], Init();
    assert Reaches(Init(), ls, s);
    hide Reaches;
    ls, s := Then(Init(), ls, s, Start);
    ls, s := Then(Init(), ls, s, NewConnFails);
    ls, s := Then(Init(), ls, s, Continue);
    ls, s := Then(Init(), ls, s, CloseBegin);
    ls, s := Then(Init(), ls, s, CloseCancel);
  }

  lemma OneMoreSession(s: State) returns (ls: seq<Label>, t: State)
    requires s.closer.Waiting? && s.cancelled && s.loop.Sleeping? && s.wg == 1 && s.ffiCloses == 0
    ensures |ls| == 5 && Reaches(s, ls, t)
    ensures t.closer.Waiting? && t.cancelled && t.loop.Deciding? && t.wg == 1
  {
    ls, t := [], s;
    assert Reaches(s, ls, t);
    hide Reaches;
    ls, t := Then(s, ls, t, SleepOver);
    ls, t := Then(s, ls, t, NewConn);
    ls, t := Then(s, ls, t, DialOk);
    ls, t := Then(s, ls, t, MarkOk);
    ls, t := Then(s, ls, t, SessionEnds);
  }

  /** The bound below is attained: a loop cancelled while it sleeps may still run one whole session. */
  lemma NineStepsAfterCancel() returns (before: seq<Label>, s: State, ls: seq<Label>, t: State)
    ensures Reaches(Init(), before, s) && Stopping(s)
    ensures |ls| == 9 && Reaches(s, ls, t) && t.closer.Released?
  {
    hide Reaches;
    before, s := CancelledAsleep();
    ls, t := OneMoreSession(s);
    ls, t := Then(s, ls, t, SeeCancel);
    ls, t := Then(s, ls, t, RunReturns);
    ls, t := Then(s, ls, t, CloseWait);
    ls, t := Then(s, ls, t, CloseContext);
  }

  /**
   Close returns: once it has cancelled the run loop at most nine steps are left, in
   any order, and where none is left but the network's, either Close has returned or
   the loop is in a dial or a session that has not ended yet.
   */
  lemma CloseReturns(before: seq<Label>, s: State, ls: seq<Label>, t: State)
    requires Reaches(Init(), before, s) && Stopping(s) && Reaches(s, ls, t)
    ensures |ls| + Remaining(t) <= Remaining(s) <= 9
    ensures (forall l :: Enabled(t, l) ==> l.DialOk? || l.DialFails? || l.MarkOk? || l.MarkFails? || l.SessionEnds?) ==>
              t.closer.Released? || Owns(t)
  {
    RunKeepsInv(Init(), before, s);
    StoppingRun(s, ls, t);
    hide Reaches, Inv, Enabled;
    if !t.closer.Released? && !Owns(t) { var l := StoppingMovesOn(t); }
  }

  /**
   Fed with what any run of the client publishes, the event loop never replaces a
   live actor and never has two alive, which it assumes and does not enforce.
   */
  method EventLoopOverClient(ghost ls: seq<Label>, ghost s: State, events: seq<Event>, shutdownAfter: nat)
    returns (joined: seq<nat>, maxAlive: nat, replaced: nat)
    requires Reaches(Init(), ls, s) && events == s.events
    ensures replaced == 0 && maxAlive <= 1
    ensures shutdownAfter >= |events| ==> joined == UpTo(Connects(events))
  {
    RunKeepsInv(Init(), ls, s);
    LifecyclesOneAtATime(events);
    var handled;
    handled, joined, maxAlive, replaced := HandleConnectionEvents(events, shutdownAfter);
    assert events[..|events|] == events;
    PrefixOneAtATime(events, handled);
  }

  lemma PrefixOneAtATime(events: seq<Event>, n: nat)
    requires OneAtATime(events) && n <= |events|
    ensures OneAtATime(events[..n])
  {
    forall i | 0 <= i < n && events[..n][i].ConnectedEvent? ensures !IsOpen(events[..n][..i]) {
      assert events[..n][..i] == events[..i];
    }
  }
}
