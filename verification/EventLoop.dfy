/**
 The Rust connection event loop: one actor is spawned per Connected event and
 joined when its connection goes away, when another replaces it, or on the way out.
 */
module EventLoop {
  import opened Base
  import opened NativeConnection

  /** A Connected event has not been followed by a Disconnected event yet. */
  predicate IsOpen(events: seq<Event>) {
    if events == [] then false
    else
      match events[|events| - 1]
      case ConnectedEvent => true
      case DisconnectedEvent => false
      case _ => IsOpen(events[..|events| - 1])
  }

  /** No connection is reported connected while another one still is. */
  ghost predicate OneAtATime(events: seq<Event>) {
    forall i :: 0 <= i < |events| && events[i].ConnectedEvent? ==> !IsOpen(events[..i])
  }

  function Connects(events: seq<Event>): nat {
    if events == [] then 0
    else Connects(events[..|events| - 1]) + if events[|events| - 1].ConnectedEvent? then 1 else 0
  }

  function UpTo(n: nat): seq<nat> { seq(n, i => i) }

  lemma OneAtATimeStep(events: seq<Event>, i: nat)
    requires i < |events|
    ensures events[..i + 1][..i] == events[..i]
    ensures OneAtATime(events[..i + 1]) <==>
              OneAtATime(events[..i]) && (events[i].ConnectedEvent? ==> !IsOpen(events[..i]))
  {
    var a, b := events[..i], events[..i + 1];
    assert forall k :: 0 <= k <= i ==> a[..k] == b[..k];
    if OneAtATime(b) {
      assert b[i] == events[i];
      forall k | 0 <= k < i && a[k].ConnectedEvent? ensures !IsOpen(a[..k]) { assert b[k] == a[k]; }
    }
  }

  /**
   handle_connection_events over the stream `events`; the shutdown signal is seen
   after `shutdownAfter` of them, or not at all before the stream closes. Actors are
   numbered as they are spawned. For any stream, every actor spawned is joined,
   once, in the order they were spawned, before the loop returns; at most two are
   ever alive, and a live actor is replaced exactly when the stream reports two
   connections at a time.
   */
  method HandleConnectionEvents(events: seq<Event>, shutdownAfter: nat)
    returns (handled: nat, joined: seq<nat>, maxAlive: nat, replaced: nat)
    ensures handled == if shutdownAfter < |events| then shutdownAfter else |events|
    ensures joined == UpTo(Connects(events[..handled]))
    ensures maxAlive <= 2
    ensures replaced == 0 <==> OneAtATime(events[..handled])
    ensures OneAtATime(events[..handled]) ==> maxAlive <= 1
  {
    var active: Option<nat> := None;
    var spawned := 0;
    handled, joined, maxAlive, replaced := 0, [], 0, 0;
    while handled < |events| && handled != shutdownAfter
      invariant handled <= |events| && handled <= shutdownAfter
      invariant spawned == Connects(events[..handled])
      invariant active.Some? <==> IsOpen(events[..handled])
      invariant active.Some? ==> spawned > 0 && active.value == spawned - 1
      invariant joined == UpTo(if active.Some? then spawned - 1 else spawned)
      invariant maxAlive <= 2
      invariant replaced == 0 <==> OneAtATime(events[..handled])
      invariant replaced == 0 ==> maxAlive <= 1
    {
      OneAtATimeStep(events, handled);
      match events[handled] {
        case InitEvent =>
        case ConnectedEvent =>
          var last := active;
          active := Some(spawned);
          spawned := spawned + 1;
          var alive := if last.Some? then 2 else 1;
          if alive > maxAlive { maxAlive := alive; }
          if last.Some? {
            joined := joined + [last.value];
            replaced := replaced + 1;
          }
        case DisconnectedEvent =>
          if active.Some? {
            joined := joined + [active.value];
            active := None;
          }
        case ReleaseEvent =>
      }
      handled := handled + 1;
    }
    if active.Some? {
      joined := joined + [active.value];
    }
  }
}
