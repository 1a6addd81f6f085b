/**
 The Rust dispatch interconnect: a bounded request queue towards the host, a
 bounded reply queue back, a publisher that reports its own failures through a
 weak sender, and the reference count that keeps the reply stream open.
 */
module Interconnect {

  const REQUEST_CAP := 255
  const REPLY_CAP := REQUEST_CAP + 1

  datatype State = State(
    request: seq<nat>,          // correlation ids on the request queue
    host: multiset<nat>,        // taken from the stream, answer still owed
    failing: multiset<nat>,     // refused by the request queue, weak sender not yet upgraded
    reporting: multiset<nat>,   // refused, holding an upgraded sender
    reply: seq<nat>,
    responder: bool,            // the Connected state holds its responder
    task: bool,                 // the dispatch task runs: it holds the stream and a responder
    senders: nat,               // strong senders of the reply queue
    receiverAlive: bool,
    // history
    published: multiset<nat>,
    accepted: seq<nat>,         // put on the request queue, in order
    taken: seq<nat>,            // taken by the task, in order
    replied: seq<nat>,          // put on the reply queue, in order
    consumed: seq<nat>,         // taken from the reply stream, in order
    lost: multiset<nat>,        // dropped with a queue or sent to a dropped receiver
    unreported: multiset<nat>)  // refused with no responder left

  datatype Label =
    | Publish(id: nat) | Upgrade(id: nat) | Report(id: nat)
    | Take | Answer(id: nat) | Consume
    | DropReceiver | TaskExit | Disconnect

  /** new_dispatcher_interconnect, and the clone of the responder given to the task. */
  function Init(): State {
    State([], multiset{}, multiset{}, multiset{}, [], true, true, 2, true,
          multiset{}, [], [], [], [], multiset{}, multiset{})
  }

  /** A send waits for a free slot while the receiver lives, and fails at once when it is gone. */
  predicate HasSlot(s: State) { !s.receiverAlive || |s.reply| < REPLY_CAP }

  predicate Enabled(s: State, l: Label) {
    match l
    case Publish(_) => true
    case Upgrade(id) => id in s.failing
    case Report(id) => id in s.reporting && HasSlot(s) && s.senders > 0
    case Take => s.task && s.request != []
    case Answer(id) => id in s.host && (s.responder || s.task) && HasSlot(s)
    case Consume => s.receiverAlive && s.reply != []
    case DropReceiver => s.receiverAlive
    case TaskExit => s.task && s.senders > 0
    case Disconnect => s.responder && s.senders > 0
  }

  function Send(s: State, id: nat): State {
    if s.receiverAlive then s.(reply := s.reply + [id], replied := s.replied + [id]) else s.(lost := s.lost + multiset{id})
  }

  function Apply(s: State, l: Label): State
    requires Enabled(s, l)
  {
    match l
    case Publish(id) =>
      var t := s.(published := s.published + multiset{id});
      if s.task && |s.request| < REQUEST_CAP then t.(request := s.request + [id], accepted := s.accepted + [id])
      else t.(failing := s.failing + multiset{id})
    case Upgrade(id) =>
      var t := s.(failing := s.failing - multiset{id});
      if s.senders > 0 then t.(reporting := s.reporting + multiset{id}, senders := s.senders + 1)
      else t.(unreported := s.unreported + multiset{id})
    case Report(id) => Send(s, id).(reporting := s.reporting - multiset{id}, senders := s.senders - 1)
    case Take =>
      s.(request := s.request[1..], host := s.host + multiset{s.request[0]}, taken := s.taken + [s.request[0]])
    case Answer(id) => Send(s, id).(host := s.host - multiset{id})
    case Consume => s.(reply := s.reply[1..], consumed := s.consumed + [s.reply[0]])
    case DropReceiver => s.(receiverAlive := false, reply := [], lost := s.lost + multiset(s.reply))
    case TaskExit => s.(task := false, senders := s.senders - 1, request := [], lost := s.lost + multiset(s.request))
    case Disconnect => s.(responder := false, senders := s.senders - 1)
  }

  ghost predicate Reaches(s: State, ls: seq<Label>, t: State)
    decreases |ls|
  {
    if ls == [] then s == t else Enabled(s, ls[0]) && Reaches(Apply(s, ls[0]), ls[1..], t)
  }

  /** How often `id` is found: queued, with the host, on its way back, consumed or given up. */
  ghost function Found(s: State, id: nat): nat {
    Queued(s.request, id) + s.host[id] + s.failing[id] + s.reporting[id] + Queued(s.reply, id)
    + Queued(s.consumed, id) + s.lost[id] + s.unreported[id]
  }

  ghost function Queued(q: seq<nat>, id: nat): nat { multiset(q)[id] }

  /** Everything published is in exactly one place. */
  ghost predicate Conserved(s: State) { forall id :: s.published[id] == Found(s, id) }

  ghost predicate SendersOk(s: State) {
    s.senders == (if s.responder then 1 else 0) + (if s.task then 1 else 0) + |s.reporting|
  }

  /** Both queues deliver in order; what a dropped end had not taken is lost. */
  ghost predicate InOrder(s: State) {
    && s.taken + s.request <= s.accepted && (s.task ==> s.taken + s.request == s.accepted)
    && s.consumed + s.reply <= s.replied && (s.receiverAlive ==> s.consumed + s.reply == s.replied)
  }

  ghost predicate Inv(s: State) {
    && Conserved(s) && SendersOk(s) && InOrder(s)
    && |s.request| <= REQUEST_CAP && |s.reply| <= REPLY_CAP
    && (!s.task ==> s.request == [])
    && (!s.receiverAlive ==> s.reply == [])
    && (s.receiverAlive && s.task ==> s.lost == multiset{})
    && (s.unreported != multiset{} ==> s.senders == 0)
  }

  lemma QueuedAfterPush(q: seq<nat>, x: nat, id: nat)
    ensures Queued(q + [x], id) == Queued(q, id) + (if x == id then 1 else 0)
  {
  }

  lemma QueuedAfterPop(q: seq<nat>, id: nat)
    requires q != []
    ensures Queued(q, id) == Queued(q[1..], id) + (if q[0] == id then 1 else 0)
  {
    assert q == [q[0]] + q[1..];
  }

  lemma QueuedAfterDrop(q: seq<nat>, lost: multiset<nat>, id: nat)
    ensures (lost + multiset(q))[id] == lost[id] + Queued(q, id) && Queued([], id) == 0
  {
  }

  lemma FoundPublish(s: State, x: nat, id: nat)
    ensures Found(Apply(s, Publish(x)), id) == Found(s, id) + (if x == id then 1 else 0)
  {
    hide Queued;
    QueuedAfterPush(s.request, x, id);
  }

  lemma FoundUpgrade(s: State, x: nat, id: nat)
    requires Enabled(s, Upgrade(x))
    ensures Found(Apply(s, Upgrade(x)), id) == Found(s, id)
  {
    hide Queued;
  }

  lemma FoundSend(s: State, l: Label, id: nat)
    requires (l.Report? || l.Answer?) && Enabled(s, l)
    ensures Found(Apply(s, l), id) == Found(s, id)
  {
    hide Queued;
    QueuedAfterPush(s.reply, l.id, id);
  }

  lemma FoundElsewhere(s: State, l: Label, id: nat)
    requires !l.Publish? && !l.Upgrade? && !l.Report? && !l.Answer? && Enabled(s, l)
    ensures Found(Apply(s, l), id) == Found(s, id)
  {
    hide Queued;
    match l
    case Take => QueuedAfterPop(s.request, id);
    case Consume =>
      QueuedAfterPop(s.reply, id);
      QueuedAfterPush(s.consumed, s.reply[0], id);
    case DropReceiver => QueuedAfterDrop(s.reply, s.lost, id);
    case TaskExit => QueuedAfterDrop(s.request, s.lost, id);
    case Disconnect =>
  }

  lemma FoundStep(s: State, l: Label, id: nat)
    requires Enabled(s, l)
    ensures Found(Apply(s, l), id) == Found(s, id) + (if l == Publish(id) then 1 else 0)
  {
    hide Found, Apply;
    match l
    case Publish(x) => FoundPublish(s, x, id);
    case Upgrade(x) => FoundUpgrade(s, x, id);
    case Report(_) => FoundSend(s, l, id);
    case Answer(_) => FoundSend(s, l, id);
    case _ => FoundElsewhere(s, l, id);
  }

  lemma ConservedStep(s: State, l: Label)
    requires Conserved(s) && Enabled(s, l)
    ensures Conserved(Apply(s, l))
  {
    var t := Apply(s, l);
    forall id ensures t.published[id] == Found(t, id) {
      FoundStep(s, l, id);
      assert s.published[id] == Found(s, id);
      assert t.published[id] == s.published[id] + (if l == Publish(id) then 1 else 0);
    }
  }

  lemma SendersStep(s: State, l: Label)
    requires SendersOk(s) && Enabled(s, l)
    ensures SendersOk(Apply(s, l))
  {
  }

  lemma StepKeepsInv(s: State, l: Label)
    requires Inv(s) && Enabled(s, l)
    ensures Inv(Apply(s, l))
  {
    hide Conserved, SendersOk, InOrder;
    ConservedStep(s, l);
    SendersStep(s, l);
    InOrderStep(s, l);
    assert s.senders == 0 ==> s.reporting == multiset{} && !s.responder && !s.task by { SendersZero(s); }
  }

  lemma InOrderStep(s: State, l: Label)
    requires InOrder(s) && Enabled(s, l) && (!s.receiverAlive ==> s.reply == [])
    ensures InOrder(Apply(s, l))
  {
    match l
    case Publish(id) => assert s.taken + (s.request + [id]) == s.taken + s.request + [id];
    case Take => assert s.taken + [s.request[0]] + s.request[1..] == s.taken + s.request;
    case Consume => assert s.consumed + [s.reply[0]] + s.reply[1..] == s.consumed + s.reply;
    case Report(id) => assert s.consumed + (s.reply + [id]) == s.consumed + s.reply + [id];
    case Answer(id) => assert s.consumed + (s.reply + [id]) == s.consumed + s.reply + [id];
    case _ =>
  }

  lemma SendersZero(s: State)
    requires SendersOk(s)
    ensures s.senders == 0 ==> s.reporting == multiset{} && !s.responder && !s.task
  {
  }

  lemma {:induction false} RunKeepsInv(s: State, ls: seq<Label>, t: State)
    requires Inv(s) && Reaches(s, ls, t)
    ensures Inv(t)
    decreases |ls|
  {
    if ls != [] {
      StepKeepsInv(s, ls[0]);
      RunKeepsInv(Apply(s, ls[0]), ls[1..], t);
    }
  }

  /**
   Over any run, what was published is what is queued, with the host, on its way
   back, consumed or lost, id by id; a publish goes unreported only after the last
   responder is gone, and nothing is lost while the task and the receiver live.
   */
  lemma PublishedIsConserved(ls: seq<Label>, s: State)
    requires Reaches(Init(), ls, s)
    ensures Conserved(s)
    ensures s.responder || s.task ==> s.unreported == multiset{}
    ensures s.receiverAlive && s.task ==> s.lost == multiset{}
    ensures s.taken <= s.accepted && s.consumed <= s.replied
  {
    RunKeepsInv(Init(), ls, s);
  }

  // ---- The history ----

  /** The ids published, consumed and taken over a run. */
  function Published(h: seq<Label>): multiset<nat> {
    if h == [] then multiset{}
    else Published(h[..|h| - 1]) + match h[|h| - 1] case Publish(id) => multiset{id} case _ => multiset{}
  }

  function Count(h: seq<Label>, l: Label): nat { multiset(h)[l] }

  ghost predicate History(s: State, h: seq<Label>) {
    && s.published == Published(h)
    && |s.taken| == Count(h, Take) && |s.consumed| == Count(h, Consume)
    && (s.task <==> TaskExit !in h) && (s.responder <==> Disconnect !in h) && (s.receiverAlive <==> DropReceiver !in h)
  }

  lemma HistoryStep(s: State, h: seq<Label>, l: Label)
    requires History(s, h) && Enabled(s, l)
    ensures History(Apply(s, l), h + [l])
  {
    assert (h + [l])[..|h|] == h && multiset(h + [l]) == multiset(h) + multiset{l};
  }

  lemma {:induction false} RunHistory(s: State, h: seq<Label>, ls: seq<Label>, t: State)
    requires History(s, h) && Reaches(s, ls, t)
    ensures History(t, h + ls)
    decreases |ls|
  {
    hide History, Apply, Enabled;
    if ls == [] {
      assert h + ls == h;
    } else {
      HistoryStep(s, h, ls[0]);
      assert h + ls == h + [ls[0]] + ls[1..];
      RunHistory(Apply(s, ls[0]), h + [ls[0]], ls[1..], t);
    }
  }

  /** The state is what the labels of the run say: what was published, taken and consumed, and who is gone. */
  lemma StateFollowsHistory(ls: seq<Label>, s: State)
    requires Reaches(Init(), ls, s)
    ensures History(s, ls)
  {
    RunHistory(Init(), [], ls, s);
    assert [] + ls == ls;
  }

  // ---- What a publish meets ----

  /** A publish is refused exactly if the task has exited or 255 requests are queued, and queued last otherwise. */
  lemma PublishRefusedIff(ls: seq<Label>, s: State, id: nat)
    requires Reaches(Init(), ls, s)
    ensures var t := Apply(s, Publish(id));
            if TaskExit in ls || |s.request| == 255 then t.request == s.request && t.failing == s.failing + multiset{id}
            else t.request == s.request + [id] && t.failing == s.failing
  {
    RunKeepsInv(Init(), ls, s);
    StateFollowsHistory(ls, s);
  }

  function Publishes(ids: seq<nat>): seq<Label> { seq(|ids|, k requires 0 <= k < |ids| => Publish(ids[k])) }

  /** Up to 255 dispatches published in a row are all queued, in order; the next one is not. */
  lemma {:induction false} RequestsQueueUp(ids: seq<nat>) returns (t: State)
    requires |ids| <= 255
    ensures Reaches(Init(), Publishes(ids), t) && t.task && t.request == ids && t.failing == multiset{}
    ensures |ids| == 255 ==> forall id: nat :: Apply(t, Publish(id)).failing == multiset{id}
  {
    if ids == [] {
      t := Init();
    } else {
      var n := |ids| - 1;
      var s := RequestsQueueUp(ids[..n]);
      t := Apply(s, Publish(ids[n]));
      assert Publishes(ids) == Publishes(ids[..n]) + [Publish(ids[n])];
      assert Reaches(s, [Publish(ids[n])], t);
      ExtendRun(Init(), Publishes(ids[..n]), s, [Publish(ids[n])], t);
      assert ids == ids[..n] + [ids[n]];
    }
  }

  /** Which ends can go, at any time, and what is lost with them. */
  lemma EndsMayGo(ls: seq<Label>, s: State)
    requires Reaches(Init(), ls, s)
    ensures TaskExit !in ls ==> Enabled(s, TaskExit) && Apply(s, TaskExit).lost == s.lost + multiset(s.request)
    ensures DropReceiver !in ls ==> Enabled(s, DropReceiver) && Apply(s, DropReceiver).lost == s.lost + multiset(s.reply)
    ensures Disconnect !in ls ==> Enabled(s, Disconnect) && Apply(s, Disconnect).lost == s.lost
  {
    RunKeepsInv(Init(), ls, s);
    StateFollowsHistory(ls, s);
  }

  /**
   A refused publish is reported, by its own send, exactly if a responder still lives or
   another report is in progress; otherwise it goes unreported.
   */
  lemma RefusedIsReportedIff(ls: seq<Label>, s: State, id: nat)
    requires Reaches(Init(), ls, s) && id in s.failing
    ensures Enabled(s, Upgrade(id))
    ensures var t := Apply(s, Upgrade(id));
            if Disconnect !in ls || TaskExit !in ls || s.reporting != multiset{}
            then t.reporting == s.reporting + multiset{id} && t.unreported == s.unreported
            else t.unreported == s.unreported + multiset{id} && t.reporting == s.reporting
  {
    RunKeepsInv(Init(), ls, s);
    StateFollowsHistory(ls, s);
    SendersZero(s);
  }

  /** The steps by which what is on its way gets through. */
  predicate Moves(l: Label) { HostSide(l) || l.Consume? }

  /** What is still on its way. */
  ghost function InTransit(s: State): nat { 4 * |s.request| + 3 * |s.host| + 4 * |s.failing| + 3 * |s.reporting| + |s.reply| }

  lemma TransitStep(s: State, l: Label)
    requires Inv(s) && Enabled(s, l) && Moves(l)
    ensures InTransit(Apply(s, l)) < InTransit(s)
  {
    hide Conserved, InOrder;
    match l
    case Take => assert |s.request[1..]| == |s.request| - 1;
    case Upgrade(id) => assert |s.failing - multiset{id}| == |s.failing| - 1;
    case Report(id) => assert |s.reporting - multiset{id}| == |s.reporting| - 1;
    case Answer(id) => assert |s.host - multiset{id}| == |s.host| - 1;
    case Consume =>
  }

  lemma {:induction false} TransitRun(s: State, ls: seq<Label>, t: State)
    requires Inv(s) && Reaches(s, ls, t) && forall k :: 0 <= k < |ls| ==> Moves(ls[k])
    ensures Inv(t) && |ls| + InTransit(t) <= InTransit(s)
    decreases |ls|
  {
    hide Inv, InTransit, Apply, Enabled, Moves;
    if ls != [] {
      StepKeepsInv(s, ls[0]);
      TransitStep(s, ls[0]);
      forall k | 0 <= k < |ls[1..]| ensures Moves(ls[1..][k]) { assert ls[1..][k] == ls[k + 1]; }
      TransitRun(Apply(s, ls[0]), ls[1..], t);
    }
  }

  lemma TransitMovesOn(s: State) returns (l: Label)
    requires Inv(s) && (s.responder || s.task || s.host == multiset{})
    requires s.request != [] || s.host != multiset{} || s.failing != multiset{} || s.reporting != multiset{}
             || s.reply != []
    ensures Moves(l) && Enabled(s, l)
  {
    hide Conserved, InOrder;
    if s.reply != [] {
      l := Consume;
    } else if s.failing != multiset{} {
      var id :| id in s.failing;
      l := Upgrade(id);
    } else if s.reporting != multiset{} {
      var id :| id in s.reporting;
      l := Report(id);
    } else if s.request != [] {
      l := Take;
    } else {
      var id :| id in s.host;
      l := Answer(id);
    }
  }

  /**
   Everything gets through: if nothing more is published, the host answers and replies
   are consumed, no run is longer than `InTransit`; and where none of these steps is
   left, every id published has been consumed, was lost with a dropped end, or went
   unreported, unless the host still owes an answer and no responder is left.
   */
  lemma EverythingGetsThrough(before: seq<Label>, s: State, ls: seq<Label>, t: State)
    requires Reaches(Init(), before, s) && Reaches(s, ls, t) && forall k :: 0 <= k < |ls| ==> Moves(ls[k])
    ensures |ls| + InTransit(t) <= InTransit(s)
    ensures (forall l :: Moves(l) ==> !Enabled(t, l)) && (t.responder || t.task || t.host == multiset{}) ==>
              Published(before + ls) == multiset(t.consumed) + t.lost + t.unreported
  {
    RunKeepsInv(Init(), before, s);
    StateFollowsHistory(before, s);
    RunHistory(s, before, ls, t);
    TransitRun(s, ls, t);
    hide Reaches;
    if (forall l :: Moves(l) ==> !Enabled(t, l)) && (t.responder || t.task || t.host == multiset{}) {
      if t.request != [] || t.host != multiset{} || t.failing != multiset{} || t.reporting != multiset{} || t.reply != [] {
        var l := TransitMovesOn(t);
      }
      NothingInTransit(t);
    }
  }

  lemma NothingInTransit(s: State)
    requires Conserved(s) && s.request == s.reply == [] && s.host == s.failing == s.reporting == multiset{}
    ensures s.published == multiset(s.consumed) + s.lost + s.unreported
  {
    forall id ensures s.published[id] == (multiset(s.consumed) + s.lost + s.unreported)[id] {
      assert s.published[id] == Found(s, id);
    }
  }

  // ---- The reference count ----

  /** The reply stream yields None: it is drained and no strong sender is left. */
  predicate StreamEnds(s: State) { s.senders == 0 && s.reply == [] }

  /**
   Strong senders are exactly the connected state's, the task's and those of
   reports in progress. So the publisher does not hold the stream open, and after
   the disconnect the stream ends once it is drained and the reports are through.
   */
  lemma StrongSenders(ls: seq<Label>, s: State)
    requires Reaches(Init(), ls, s)
    ensures s.senders == (if s.responder then 1 else 0) + (if s.task then 1 else 0) + |s.reporting|
    ensures !s.responder && !s.task && s.reporting == multiset{} ==> (StreamEnds(s) <==> s.reply == [])
  {
    RunKeepsInv(Init(), ls, s);
  }

  lemma {:induction false} SendersStayGone(s: State, ls: seq<Label>, t: State)
    requires Inv(s) && s.senders == 0 && Reaches(s, ls, t)
    ensures t.senders == 0
    ensures StreamEnds(s) ==> StreamEnds(t)
    decreases |ls|
  {
    if ls != [] {
      StepKeepsInv(s, ls[0]);
      SendersStayGone(Apply(s, ls[0]), ls[1..], t);
    }
  }

  /** Once no strong sender is left none ever comes back, so an ended stream stays ended. */
  lemma NoSenderComesBack(before: seq<Label>, s: State, ls: seq<Label>, t: State)
    requires Reaches(Init(), before, s) && s.senders == 0 && Reaches(s, ls, t)
    ensures t.senders == 0
    ensures StreamEnds(s) ==> StreamEnds(t)
  {
    RunKeepsInv(Init(), before, s);
    SendersStayGone(s, ls, t);
  }

  // ---- Does a reply ever wait for a slot? ----

  /** An answer or a report is owed and the reply queue has no slot for it. */
  predicate Waits(s: State) { !HasSlot(s) && (s.host != multiset{} || s.reporting != multiset{}) }

  /** Published and not yet consumed, wherever it is. */
  ghost function Outstanding(s: State): nat { |s.request| + |s.host| + |s.failing| + |s.reporting| + |s.reply| }

  /** The steps of the sending side: nothing new is published and nothing is consumed. */
  predicate HostSide(l: Label) { l.Take? || l.Answer? || l.Upgrade? || l.Report? }

  ghost predicate HostRun(s: State, ls: seq<Label>, t: State) {
    Reaches(s, ls, t) && forall k :: 0 <= k < |ls| ==> HostSide(ls[k])
  }

  ghost predicate CanWait(s: State) { exists ls, t :: HostRun(s, ls, t) && Waits(t) }

  ghost predicate Serving(s: State) { Inv(s) && (s.task || s.responder) && s.receiverAlive }

  /** What the sending side can still move towards the reply queue. */
  ghost function ToMove(s: State): nat { 2 * |s.request| + |s.host| + 2 * |s.failing| + |s.reporting| }

  lemma HostStepMoves(s: State, l: Label)
    requires Enabled(s, l) && HostSide(l) && s.receiverAlive && s.senders > 0
    ensures Outstanding(Apply(s, l)) == Outstanding(s)
  {
    match l
    case Take => assert |s.request[1..]| == |s.request| - 1;
    case Upgrade(id) => assert |s.failing - multiset{id}| == |s.failing| - 1;
    case Report(id) => assert |s.reporting - multiset{id}| == |s.reporting| - 1;
    case Answer(id) => assert |s.host - multiset{id}| == |s.host| - 1;
  }

  lemma HostStepNearer(s: State, l: Label)
    requires Enabled(s, l) && HostSide(l) && s.receiverAlive && s.senders > 0
    ensures var t := Apply(s, l); t.task == s.task && t.responder == s.responder && t.receiverAlive
    ensures ToMove(Apply(s, l)) < ToMove(s)
  {
    match l
    case Take => assert |s.request[1..]| == |s.request| - 1;
    case Upgrade(id) => assert |s.failing - multiset{id}| == |s.failing| - 1;
    case Report(id) => assert |s.reporting - multiset{id}| == |s.reporting| - 1;
    case Answer(id) => assert |s.host - multiset{id}| == |s.host| - 1;
  }

  lemma HostStepKeepsOutstanding(s: State, l: Label)
    requires Serving(s) && Enabled(s, l) && HostSide(l)
    ensures Serving(Apply(s, l)) && Outstanding(Apply(s, l)) == Outstanding(s) && ToMove(Apply(s, l)) < ToMove(s)
  {
    hide Conserved, InOrder, SendersOk, Apply, Enabled, Outstanding, ToMove, HostSide;
    SendersZero(s);
    StepKeepsInv(s, l);
    HostStepMoves(s, l);
    HostStepNearer(s, l);
  }

  lemma {:induction false} HostRunKeepsOutstanding(s: State, ls: seq<Label>, t: State)
    requires Serving(s) && HostRun(s, ls, t)
    ensures Serving(t) && Outstanding(t) == Outstanding(s)
    decreases |ls|
  {
    if ls != [] {
      HostStepKeepsOutstanding(s, ls[0]);
      forall k | 0 <= k < |ls[1..]| ensures HostSide(ls[1..][k]) { assert ls[1..][k] == ls[k + 1]; }
      HostRunKeepsOutstanding(Apply(s, ls[0]), ls[1..], t);
    }
  }

  lemma NextHostStep(s: State) returns (l: Label)
    requires Serving(s) && Outstanding(s) > REPLY_CAP && !Waits(s)
    ensures HostSide(l) && Enabled(s, l)
  {
    hide Conserved, InOrder, SendersOk;
    SendersZero(s);
    if s.host != multiset{} {
      var id :| id in s.host;
      l := Answer(id);
    } else if s.reporting != multiset{} {
      var id :| id in s.reporting;
      l := Report(id);
    } else if s.failing != multiset{} {
      var id :| id in s.failing;
      l := Upgrade(id);
    } else {
      l := Take;
    }
  }

  lemma {:induction false} OverfullReachesWait(s: State) returns (ls: seq<Label>, t: State)
    requires Serving(s) && Outstanding(s) > REPLY_CAP
    ensures HostRun(s, ls, t) && Waits(t)
    decreases ToMove(s)
  {
    hide Serving, Outstanding, Waits, ToMove, Apply, Enabled, HostSide;
    if Waits(s) {
      ls, t := [], s;
    } else {
      var l := NextHostStep(s);
      HostStepKeepsOutstanding(s, l);
      var rest;
      rest, t := OverfullReachesWait(Apply(s, l));
      ls := [l] + rest;
      assert ls[1..] == rest;
    }
  }

  /**
   Exactly when a reply can be made to wait by the host answering one to one: when
   more than 256 dispatches are outstanding. The capacity of the reply queue alone
   does not rule it out.
   */
  lemma CanWaitIffOverfull(ls: seq<Label>, s: State)
    requires Reaches(Init(), ls, s) && (s.task || s.responder) && s.receiverAlive
    ensures CanWait(s) <==> Outstanding(s) > 256
  {
    RunKeepsInv(Init(), ls, s);
    if CanWait(s) {
      var hs, t :| HostRun(s, hs, t) && Waits(t);
      HostRunKeepsOutstanding(s, hs, t);
      assert |t.reply| == REPLY_CAP && |t.host| + |t.reporting| > 0;
    }
    if Outstanding(s) > REPLY_CAP {
      var hs, t := OverfullReachesWait(s);
    }
  }

  /** If published exceeds consumed by at most 256, no reply waits. */
  lemma NoWaitWithinCapacity(ls: seq<Label>, s: State)
    requires Reaches(Init(), ls, s) && |s.published| - |s.consumed| <= 256
    ensures !Waits(s)
  {
    RunKeepsInv(Init(), ls, s);
    PublishedCoversQueues(s);
  }

  lemma PublishedCoversQueues(s: State)
    requires Conserved(s)
    ensures |s.published| >= |s.host| + |s.reporting| + |s.reply| + |s.consumed|
  {
    var rest := multiset(s.request) + s.failing + s.lost + s.unreported;
    var all := s.host + s.reporting + multiset(s.reply) + multiset(s.consumed) + rest;
    forall id ensures s.published[id] == all[id] { assert s.published[id] == Found(s, id); }
    assert s.published == all;
  }

  lemma {:induction false} ExtendRun(s: State, ls: seq<Label>, t: State, more: seq<Label>, u: State)
    requires Reaches(s, ls, t) && Reaches(t, more, u)
    ensures Reaches(s, ls + more, u)
    decreases |ls|
  {
    hide Apply, Enabled;
    if ls == [] {
      assert ls + more == more;
    } else {
      assert (ls + more)[1..] == ls[1..] + more;
      ExtendRun(Apply(s, ls[0]), ls[1..], t, more, u);
    }
  }

  function Ids(n: nat): seq<nat> { seq(n, i => i) }

  /** `n` dispatches published one after another, each taken and answered at once, no reply consumed. */
  function Unread(n: nat): State {
    Init().(reply := Ids(n), published := multiset(Ids(n)), accepted := Ids(n), taken := Ids(n), replied := Ids(n))
  }

  lemma OneMoreUnread(n: nat)
    requires n < REPLY_CAP
    ensures Reaches(Unread(n), [Publish(n), Take, Answer(n)], Unread(n + 1))
  {
    OneRoundTrip(n);
    hide Apply, Enabled, Unread;
    var a := Apply(Unread(n), Publish(n));
    var b := Apply(a, Take);
    assert [Answer(n)][1..] == [] && Reaches(b, [Answer(n)], Unread(n + 1));
    assert [Take, Answer(n)][1..] == [Answer(n)] && Reaches(a, [Take, Answer(n)], Unread(n + 1));
    assert [Publish(n), Take, Answer(n)][1..] == [Take, Answer(n)];
  }

  lemma OneRoundTrip(n: nat)
    requires n < REPLY_CAP
    ensures var a := Apply(Unread(n), Publish(n));
            && Enabled(a, Take) && Enabled(Apply(a, Take), Answer(n))
            && Apply(Apply(a, Take), Answer(n)) == Unread(n + 1)
  {
    assert Ids(n + 1) == Ids(n) + [n];
  }

  lemma {:induction false} RepliesPileUp(n: nat) returns (ls: seq<Label>)
    requires n <= REPLY_CAP
    ensures Reaches(Init(), ls, Unread(n))
  {
    hide Apply, Enabled;
    if n == 0 {
      ls := [];
      assert Unread(0) == Init();
    } else {
      var before := RepliesPileUp(n - 1);
      OneMoreUnread(n - 1);
      ls := before + [Publish(n - 1), Take, Answer(n - 1)];
      ExtendRun(Init(), before, Unread(n - 1), [Publish(n - 1), Take, Answer(n - 1)], Unread(n));
    }
  }

  /**
   The documented guarantee that a slot is always free fails: a host that answers
   every dispatch at once, one to one, ends up waiting when replies are not consumed.
   */
  lemma SlotIsNotAlwaysFree() returns (ls: seq<Label>, t: State)
    ensures Reaches(Init(), ls, t) && Waits(t)
    ensures |t.host| == 1 && t.request == [] && t.failing == t.reporting == multiset{}
  {
    var before := RepliesPileUp(REPLY_CAP);
    var s := Unread(REPLY_CAP);
    var u := Apply(s, Publish(REPLY_CAP));
    t := Apply(u, Take);
    assert Reaches(u, [Take], t);
    assert [Publish(REPLY_CAP), Take][1..] == [Take] && Reaches(s, [Publish(REPLY_CAP), Take], t);
    ls := before + [Publish(REPLY_CAP), Take];
    ExtendRun(Init(), before, s, [Publish(REPLY_CAP), Take], t);
  }
}
