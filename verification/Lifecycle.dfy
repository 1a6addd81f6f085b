/** The Go connLifecycle: the guards Connection checks before crossing the FFI boundary. */
module Lifecycle {

  datatype Error = NoError | ConnectionClosed | NotConnected | AlreadyConnected

  datatype Flags = Flags(closed: bool, connected: bool)

  function MarkConnected(l: Flags): (Flags, Error) {
    if l.closed then (l, ConnectionClosed)
    else if l.connected then (l, AlreadyConnected)
    else (l.(connected := true), NoError)
  }

  /** The boolean reports whether the connection had been connected. */
  function MarkClosed(l: Flags): (Flags, bool, Error) {
    if l.closed then (l, false, ConnectionClosed) else (l.(closed := true), l.connected, NoError)
  }

  function CheckRecvable(l: Flags): Error {
    if l.closed then ConnectionClosed else if !l.connected then NotConnected else NoError
  }

  // ---- What the answers mean for a caller ----

  datatype Call = Connect | Close | Recv

  function Answer(l: Flags, call: Call): (Flags, Error) {
    match call
    case Connect => MarkConnected(l)
    case Close => var (m, _, e) := MarkClosed(l); (m, e)
    case Recv => (l, CheckRecvable(l))
  }

  /** The answers to `calls` made in turn. */
  function Answers(l: Flags, calls: seq<Call>): (es: seq<Error>)
    ensures |es| == |calls|
    decreases |calls|
  {
    if calls == [] then [] else var (m, e) := Answer(l, calls[0]); [e] + Answers(m, calls[1..])
  }

  /** The answer that the calls made before, whatever their answers, entitle a caller to. */
  function Entitled(before: seq<Call>, call: Call): Error {
    if Close in before then ConnectionClosed
    else match call
      case Connect => if Connect in before then AlreadyConnected else NoError
      case Close => NoError
      case Recv => if Connect in before then NoError else NotConnected
  }

  /** The flags after the calls of `history` on a new connection. */
  predicate Reflects(l: Flags, history: seq<Call>) {
    && (l.closed <==> Close in history)
    && (!l.closed ==> (l.connected <==> Connect in history))
  }

  lemma {:induction false} AnswersFromHistory(l: Flags, history: seq<Call>, calls: seq<Call>, k: nat)
    requires Reflects(l, history) && k < |calls|
    ensures Answers(l, calls)[k] == Entitled(history + calls[..k], calls[k])
    decreases k
  {
    if k == 0 {
      assert history + calls[..0] == history;
    } else {
      var m := Answer(l, calls[0]).0;
      assert Reflects(m, history + [calls[0]]);
      AnswersFromHistory(m, history + [calls[0]], calls[1..], k - 1);
      assert history + calls[..k] == history + [calls[0]] + calls[1..][..k - 1];
    }
  }

  /** Every answer in every sequence of calls on a new connection is decided by the calls before it. */
  lemma AnswersAreEntitled(calls: seq<Call>, k: nat)
    requires k < |calls|
    ensures Answers(Flags(false, false), calls)[k] == Entitled(calls[..k], calls[k])
  {
    AnswersFromHistory(Flags(false, false), [], calls, k);
    assert [] + calls[..k] == calls[..k];
  }

  /** Connect and Close succeed at most once each, and nothing succeeds after a Close. */
  lemma SucceedsAtMostOnce(calls: seq<Call>, i: nat, k: nat)
    requires i < k < |calls|
    requires var es := Answers(Flags(false, false), calls); es[i].NoError? && es[k].NoError?
    ensures !calls[i].Close? && (calls[i].Connect? ==> !calls[k].Connect?)
    ensures calls[i].Recv? ==> calls[k] != Connect
  {
    AnswersAreEntitled(calls, i);
    AnswersAreEntitled(calls, k);
    assert calls[i] in calls[..k];
    forall c | c in calls[..i] ensures c in calls[..k] {
      var j :| 0 <= j < i && calls[j] == c;
      assert calls[..k][j] == c;
    }
  }

  class ConnLifecycle {
    var closed: bool
    var connected: bool
    ghost var history: seq<Call>   // the calls made so far that may change the flags

    function View(): Flags reads this { Flags(closed, connected) }
    ghost predicate Valid() reads this { Reflects(View(), history) }

    constructor ()
      ensures Valid() && View() == Flags(false, false) && history == []
    {
      closed, connected, history := false, false, [];
    }

    method TryConnect() returns (e: Error)
      requires Valid()
      modifies this
      ensures Valid() && (View(), e) == MarkConnected(old(View()))
      ensures history == old(history) + [Connect]
      ensures e.NoError? <==> Close !in old(history) && Connect !in old(history)
      ensures e.AlreadyConnected? <==> Close !in old(history) && Connect in old(history)
      ensures !e.NoError? ==> View() == old(View())
    {
      history := history + [Connect];
      if closed { return ConnectionClosed; }
      if connected { return AlreadyConnected; }
      connected := true;
      e := NoError;
    }

    method TryClose() returns (wasConnected: bool, e: Error)
      requires Valid()
      modifies this
      ensures Valid() && (View(), wasConnected, e) == MarkClosed(old(View()))
      ensures history == old(history) + [Close]
      ensures if Close in old(history) then e.ConnectionClosed? && View() == old(View()) else e.NoError?
      ensures wasConnected <==> e.NoError? && Connect in old(history)
    {
      history := history + [Close];
      if closed { return false, ConnectionClosed; }
      wasConnected, closed, e := connected, true, NoError;
    }

    method TryRecv() returns (e: Error)
      requires Valid()
      ensures e == CheckRecvable(View())
      ensures e.NoError? <==> Connect in history && Close !in history
      ensures e.ConnectionClosed? <==> Close in history
    {
      if closed { return ConnectionClosed; }
      if !connected { return NotConnected; }
      e := NoError;
    }
  }
}
