/**
 The Go X509Context and the connections created from it. Any number of goroutines
 create connections, close them and close the context; each critical section is
 one labelled transition. A connection's lock is held from the moment its closed
 flag is set until it has been freed.
 */
module ContextRegistry {
  import opened Base

  /** How far the one successful Close of a connection has come. */
  datatype Teardown = Open | Locked | FreedLocked | Forgetting | Forgotten

  datatype Conn = Conn(teardown: Teardown, registered: bool, frees: nat)

  /** X509Context.Close: the snapshot still to close, and the one it is inside of. */
  datatype ContextClose = ContextOpen | Closing(todo: set<nat>, current: Option<nat>) | ContextFreed

  datatype State = State(conns: seq<Conn>, close: ContextClose, rcFrees: nat)

  datatype Label =
    | NewConnection
    | CloseBegin(c: nat) | FreeConn(c: nat) | Unlock(c: nat) | Forget(c: nat)
    | ContextCloseBegin | ContextPick(c: nat) | RcFree

  function Init(): State { State([], ContextOpen, 0) }

  predicate LockFree(c: Conn) { !c.teardown.Locked? && !c.teardown.FreedLocked? }

  predicate Enabled(s: State, l: Label) {
    match l
    case NewConnection => s.close.ContextOpen?          // refused once the context is closed
    case CloseBegin(c) => c < |s.conns| && s.conns[c].teardown.Open?
    case FreeConn(c) => c < |s.conns| && s.conns[c].teardown.Locked?
    case Unlock(c) => c < |s.conns| && s.conns[c].teardown.FreedLocked?
    case Forget(c) => c < |s.conns| && s.conns[c].teardown.Forgetting?
    case ContextCloseBegin => s.close.ContextOpen?
    case ContextPick(c) =>
      s.close.Closing? && s.close.current.None? && c in s.close.todo && c < |s.conns| && LockFree(s.conns[c])
    case RcFree => s.close.Closing? && s.close.current.None? && s.close.todo == {}
  }

  function SetConn(s: State, c: nat, v: Conn): State
    requires c < |s.conns|
  {
    s.(conns := s.conns[c := v])
  }

  function Apply(s: State, l: Label): State
    requires Enabled(s, l)
  {
    match l
    case NewConnection => s.(conns := s.conns + [Conn(Open, true, 0)])
    case CloseBegin(c) => SetConn(s, c, s.conns[c].(teardown := Locked))
    case FreeConn(c) => SetConn(s, c, s.conns[c].(teardown := FreedLocked, frees := s.conns[c].frees + 1))
    case Unlock(c) => SetConn(s, c, s.conns[c].(teardown := Forgetting))
    case Forget(c) =>
      var t := SetConn(s, c, s.conns[c].(teardown := Forgotten, registered := false));
      if s.close.Closing? && s.close.current == Some(c) then t.(close := Closing(s.close.todo - {c}, None)) else t
    case ContextCloseBegin =>
      s.(close := Closing((set c | 0 <= c < |s.conns| && s.conns[c].registered), None))
    case ContextPick(c) =>
      if s.conns[c].teardown.Open? then
        SetConn(s, c, s.conns[c].(teardown := Locked)).(close := s.close.(current := Some(c)))
      else  // ErrConnectionClosed
        s.(close := s.close.(todo := s.close.todo - {c}))
    case RcFree => s.(close := ContextFreed, rcFrees := s.rcFrees + 1)
  }

  ghost predicate Reaches(s: State, ls: seq<Label>, t: State)
    decreases |ls|
  {
    if ls == [] then s == t else Enabled(s, ls[0]) && Reaches(Apply(s, ls[0]), ls[1..], t)
  }

  ghost predicate ConnOk(c: Conn) {
    && c.frees == (if c.teardown.Open? || c.teardown.Locked? then 0 else 1)
    && (c.registered <==> !c.teardown.Forgotten?)
  }

  ghost predicate Inv(s: State) {
    && (forall c :: 0 <= c < |s.conns| ==> ConnOk(s.conns[c]))
    && s.rcFrees == (if s.close.ContextFreed? then 1 else 0)
    && (s.close.Closing? ==>
          && (forall c :: c in s.close.todo ==> c < |s.conns|)
          && (s.close.current.Some? ==> s.close.current.value in s.close.todo)
          && (forall c :: 0 <= c < |s.conns| && s.conns[c].frees == 0 ==> c in s.close.todo)
          && (s.close.current.Some? ==>
                var k := s.close.current.value; !s.conns[k].teardown.Open? && !s.conns[k].teardown.Forgotten?))
    && (s.close.ContextFreed? ==> forall c :: 0 <= c < |s.conns| ==> s.conns[c].frees == 1)
  }

  lemma StepKeepsInv(s: State, l: Label)
    requires Inv(s) && Enabled(s, l)
    ensures Inv(Apply(s, l))
  {
    var t := Apply(s, l);
    forall c | 0 <= c < |t.conns| ensures ConnOk(t.conns[c]) {
      if c < |s.conns| { assert ConnOk(s.conns[c]); }
    }
    if l.ContextPick? { assert ConnOk(s.conns[l.c]); }
    if l.ContextCloseBegin? {
      forall c | 0 <= c < |t.conns| && t.conns[c].frees == 0 ensures c in t.close.todo { assert ConnOk(s.conns[c]); }
    }
  }

  lemma {:induction false} RunKeepsInv(s: State, ls: seq<Label>, t: State)
    requires Inv(s) && Reaches(s, ls, t)
    ensures Inv(t)
    decreases |ls|
  {
    if ls != [] {
      StepKeepsInv(s, ls[0]);
      RunKeepsInv(Apply(s, ls[0]), ls[1..], t);
    }
  }

  /** When rc_free is called, every connection ever created has been freed exactly once. */
  lemma RcFreeFindsAllFreed(ls: seq<Label>, s: State, c: nat)
    requires Reaches(Init(), ls, s) && Enabled(s, RcFree) && c < |s.conns|
    ensures s.conns[c].frees == 1
  {
    RunKeepsInv(Init(), ls, s);
    assert ConnOk(s.conns[c]);
  }

  /** No connection is freed twice, and rc_free is called at most once. */
  lemma FreedAtMostOnce(ls: seq<Label>, s: State)
    requires Reaches(Init(), ls, s)
    ensures s.rcFrees <= 1
    ensures forall c :: 0 <= c < |s.conns| ==> s.conns[c].frees <= 1
  {
    RunKeepsInv(Init(), ls, s);
    forall c | 0 <= c < |s.conns| ensures s.conns[c].frees <= 1 { assert ConnOk(s.conns[c]); }
  }

  /** If the context's close meets a connection that is already closed, it has already been freed. */
  lemma AlreadyClosedMeansFreed(ls: seq<Label>, s: State, c: nat)
    requires Reaches(Init(), ls, s) && Enabled(s, ContextPick(c)) && !s.conns[c].teardown.Open?
    ensures s.conns[c].frees == 1
  {
    RunKeepsInv(Init(), ls, s);
    assert ConnOk(s.conns[c]);
  }

  lemma {:induction false} ContextStaysFreed(s: State, ls: seq<Label>, t: State)
    requires Inv(s) && s.close.ContextFreed? && Reaches(s, ls, t)
    ensures t.close.ContextFreed? && |t.conns| == |s.conns| && t.rcFrees == 1
    ensures forall k :: 0 <= k < |ls| ==> !ls[k].FreeConn? && !ls[k].NewConnection? && !ls[k].RcFree?
    decreases |ls|
  {
    if ls != [] {
      StepKeepsInv(s, ls[0]);
      ContextStaysFreed(Apply(s, ls[0]), ls[1..], t);
      forall k | 0 <= k < |ls| ensures !ls[k].FreeConn? && !ls[k].NewConnection? && !ls[k].RcFree? {
        if k > 0 { assert ls[k] == ls[1..][k - 1]; }
      }
    }
  }

  /** After rc_free, no connection is created and no native connection is freed any more. */
  lemma NothingNativeAfterRcFree(before: seq<Label>, s: State, ls: seq<Label>, t: State)
    requires Reaches(Init(), before, s) && s.close.ContextFreed? && Reaches(s, ls, t)
    ensures t.close.ContextFreed? && |t.conns| == |s.conns| && t.rcFrees == 1
    ensures forall k :: 0 <= k < |ls| ==> !ls[k].FreeConn? && !ls[k].NewConnection? && !ls[k].RcFree?
  {
    RunKeepsInv(Init(), before, s);
    ContextStaysFreed(s, ls, t);
  }

  // ---- The history ----

  function Count(h: seq<Label>, l: Label): nat { multiset(h)[l] }

  /** The connection is as the labels of the run `h` leave it. */
  ghost predicate Recorded(k: Conn, h: seq<Label>, c: nat) {
    && k.frees == Count(h, FreeConn(c))
    && (k.registered <==> Forget(c) !in h)
    && (k.teardown.Open? <==> CloseBegin(c) !in h && ContextPick(c) !in h)
    && (k.teardown.Locked? || k.teardown.FreedLocked? <==> !k.teardown.Open? && Unlock(c) !in h)
    && (k.teardown.Open? ==> Unlock(c) !in h)
  }

  ghost predicate History(s: State, h: seq<Label>) {
    && |s.conns| == Count(h, NewConnection) && s.rcFrees == Count(h, RcFree)
    && (s.close.ContextOpen? <==> ContextCloseBegin !in h)
    && (forall c: nat :: Recorded(ConnAt(s, c), h, c))
  }

  /** Connection `c`, or what it will be when it is created. */
  function ConnAt(s: State, c: nat): Conn { if c < |s.conns| then s.conns[c] else Conn(Open, true, 0) }

  lemma RecordedStep(s: State, h: seq<Label>, l: Label, c: nat)
    requires History(s, h) && Enabled(s, l)
    ensures Recorded(ConnAt(Apply(s, l), c), h + [l], c)
  {
    assert multiset(h + [l]) == multiset(h) + multiset{l};
    assert Recorded(ConnAt(s, c), h, c);
  }

  /** The connections the context's Close still has to pick are those it has not picked yet. */
  ghost predicate PicksFollow(s: State, h: seq<Label>) {
    && (forall c: nat :: Count(h, ContextPick(c)) <= 1)
    && (s.close.ContextOpen? ==> forall c: nat :: ContextPick(c) !in h)
    && (s.close.Closing? ==> forall c :: c in s.close.todo ==> (ContextPick(c) in h <==> s.close.current == Some(c)))
  }

  lemma PicksStep(s: State, h: seq<Label>, l: Label)
    requires PicksFollow(s, h) && Enabled(s, l)
    ensures PicksFollow(Apply(s, l), h + [l])
  {
    assert multiset(h + [l]) == multiset(h) + multiset{l};
    forall c: nat ensures ContextPick(c) in h <==> Count(h, ContextPick(c)) > 0 {}
  }

  lemma {:induction false} RunPicks(s: State, h: seq<Label>, ls: seq<Label>, t: State)
    requires PicksFollow(s, h) && Reaches(s, ls, t)
    ensures PicksFollow(t, h + ls)
    decreases |ls|
  {
    hide PicksFollow, Apply, Enabled;
    if ls == [] {
      assert h + ls == h;
    } else {
      PicksStep(s, h, ls[0]);
      assert h + ls == h + [ls[0]] + ls[1..];
      RunPicks(Apply(s, ls[0]), h + [ls[0]], ls[1..], t);
    }
  }

  lemma HistoryStep(s: State, h: seq<Label>, l: Label)
    requires History(s, h) && Enabled(s, l)
    ensures History(Apply(s, l), h + [l])
  {
    assert multiset(h + [l]) == multiset(h) + multiset{l};
    forall c: nat ensures Recorded(ConnAt(Apply(s, l), c), h + [l], c) { RecordedStep(s, h, l, c); }
    hide Recorded, ConnAt;
  }

  lemma {:induction false} RunHistory(s: State, h: seq<Label>, ls: seq<Label>, t: State)
    requires History(s, h) && Reaches(s, ls, t)
    ensures History(t, h + ls)
    decreases |ls|
  {
    hide History, Apply, Enabled;
    if ls == [] {
      assert h + ls == h;
    } else {
      HistoryStep(s, h, ls[0]);
      assert h + ls == h + [ls[0]] + ls[1..];
      RunHistory(Apply(s, ls[0]), h + [ls[0]], ls[1..], t);
    }
  }

  /** The registry is what the labels of the run say: who was created, freed and forgotten. */
  lemma StateFollowsHistory(ls: seq<Label>, s: State)
    requires Reaches(Init(), ls, s)
    ensures History(s, ls)
  {
    RunHistory(Init(), [], ls, s);
    assert [] + ls == ls;
  }

  // ---- The context's Close returns ----

  function ConnRank(c: Conn): nat {
    match c.teardown case Open => 4 case Locked => 3 case FreedLocked => 2 case Forgetting => 1 case Forgotten => 0
  }

  /** The steps left once the context is closing. */
  ghost function Remaining(s: State): nat {
    SumBy(s.conns, ConnRank) + match s.close case ContextOpen => 0 case Closing(todo, _) => 1 + |todo| case ContextFreed => 0
  }

  lemma ClosingStep(s: State, l: Label)
    requires Inv(s) && !s.close.ContextOpen? && Enabled(s, l)
    ensures !Apply(s, l).close.ContextOpen? && Remaining(Apply(s, l)) < Remaining(s)
  {
    match l
    case CloseBegin(c) => SumUpdate(s.conns, ConnRank, c, Apply(s, l).conns[c]);
    case FreeConn(c) => SumUpdate(s.conns, ConnRank, c, Apply(s, l).conns[c]);
    case Unlock(c) => SumUpdate(s.conns, ConnRank, c, Apply(s, l).conns[c]);
    case Forget(c) => SumUpdate(s.conns, ConnRank, c, Apply(s, l).conns[c]);
    case ContextPick(c) => SumUpdate(s.conns, ConnRank, c, Apply(s, l).conns[c]);
    case RcFree =>
  }

  lemma {:induction false} ClosingRun(s: State, ls: seq<Label>, t: State)
    requires Inv(s) && !s.close.ContextOpen? && Reaches(s, ls, t)
    ensures Inv(t) && !t.close.ContextOpen? && |ls| + Remaining(t) <= Remaining(s)
    decreases |ls|
  {
    hide Inv, Remaining, Apply, Enabled;
    if ls != [] {
      StepKeepsInv(s, ls[0]);
      ClosingStep(s, ls[0]);
      ClosingRun(Apply(s, ls[0]), ls[1..], t);
    }
  }

  /** The step that the teardown of a connection takes next, if it has begun. */
  function NextOf(c: nat, teardown: Teardown): (l: Label)
    requires !teardown.Open? && !teardown.Forgotten?
  {
    match teardown case Locked => FreeConn(c) case FreedLocked => Unlock(c) case Forgetting => Forget(c)
  }

  lemma ClosingMovesOn(s: State) returns (l: Label)
    requires Inv(s) && s.close.Closing?
    ensures Enabled(s, l) && !l.CloseBegin?
  {
    if s.close.current.Some? {
      l := NextOf(s.close.current.value, s.conns[s.close.current.value].teardown);
    } else if s.close.todo == {} {
      l := RcFree;
    } else {
      var c :| c in s.close.todo;
      l := if LockFree(s.conns[c]) then ContextPick(c) else NextOf(c, s.conns[c].teardown);
    }
  }

  /**
   The context's Close returns: once it has begun no run is longer than `Remaining`,
   and where no step is left but another connection being closed by its user, rc_free
   has been called.
   */
  lemma ContextCloseReturns(before: seq<Label>, s: State, ls: seq<Label>, t: State)
    requires Reaches(Init(), before, s) && ContextCloseBegin in before && Reaches(s, ls, t)
    ensures |ls| + Remaining(t) <= Remaining(s)
    ensures (forall l :: Enabled(t, l) ==> l.CloseBegin?) ==> t.close.ContextFreed? && RcFree in before + ls
  {
    RunKeepsInv(Init(), before, s);
    StateFollowsHistory(before, s);
    ClosingRun(s, ls, t);
    RunHistory(s, before, ls, t);
    hide Reaches, Enabled;
    if t.close.Closing? { var l := ClosingMovesOn(t); }
  }

  /** The context's Close closes no connection twice, and none that was forgotten before it began. */
  lemma PickedAtMostOnce(before: seq<Label>, s: State, ls: seq<Label>, t: State, c: nat)
    requires Reaches(Init(), before, s) && Reaches(s, ls, t)
    ensures Count(before + ls, ContextPick(c)) <= 1
    ensures ContextCloseBegin !in before && Forget(c) in before ==> ContextPick(c) !in ls
  {
    RunPicks(Init(), [], before, s);
    assert [] + before == before;
    RunPicks(s, before, ls, t);
    StateFollowsHistory(before, s);
    if ContextCloseBegin !in before && Forget(c) in before {
      RunKeepsInv(Init(), before, s);
      assert Recorded(ConnAt(s, c), before, c);
      assert ConnOk(s.conns[c]);
      ForgottenIsNotPicked(s, ls, t, c);
    }
  }

  lemma {:induction false} ForgottenIsNotPicked(s: State, ls: seq<Label>, t: State, c: nat)
    requires Reaches(s, ls, t) && c < |s.conns| && !s.conns[c].registered && s.conns[c].teardown.Forgotten?
    requires s.close.Closing? ==> c !in s.close.todo
    ensures ContextPick(c) !in ls
    decreases |ls|
  {
    if ls != [] {
      ForgottenIsNotPicked(Apply(s, ls[0]), ls[1..], t, c);
      assert ls == [ls[0]] + ls[1..];
    }
  }

  /** The context's Close takes up a connection exactly if no other Close of it holds the lock. */
  lemma PickWaitsForLock(ls: seq<Label>, s: State, c: nat)
    requires Reaches(Init(), ls, s) && s.close.Closing? && s.close.current.None? && c in s.close.todo
    ensures Enabled(s, ContextPick(c)) <==> (CloseBegin(c) in ls ==> Unlock(c) in ls)
  {
    RunKeepsInv(Init(), ls, s);
    StateFollowsHistory(ls, s);
    RunPicks(Init(), [], ls, s);
    assert [] + ls == ls;
    assert Recorded(ConnAt(s, c), ls, c);
  }

  /**
   What may be called when: new connections and the context's Close until it was closed,
   a connection's until it was.
   */
  lemma CallsAllowedIff(ls: seq<Label>, s: State, c: nat)
    requires Reaches(Init(), ls, s)
    ensures Enabled(s, NewConnection) <==> ContextCloseBegin !in ls
    ensures Enabled(s, ContextCloseBegin) <==> ContextCloseBegin !in ls
    ensures Enabled(s, CloseBegin(c)) <==> c < Count(ls, NewConnection) && CloseBegin(c) !in ls && ContextPick(c) !in ls
  {
    StateFollowsHistory(ls, s);
    assert Recorded(ConnAt(s, c), ls, c);
  }
}
