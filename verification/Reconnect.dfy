/**
 The reconnect loop of the Go client and its jittered exponential backoff, over
 ideal real seconds. A run is given by its attempts, in order; how long dialling
 takes is not counted.
 */
module Reconnect {

  const INITIAL := 1.0
  const MAX_BACKOFF := 30.0
  const MULTIPLIER := 2.0
  const RESET_THRESHOLD := 5.0

  function Power(b: real, n: nat): real { if n == 0 then 1.0 else Power(b, n - 1) * b }

  /** The delay before jitter: exponential, capped. */
  function Base(initial: real, max: real, multiplier: real, attempt: nat): real {
    var d := initial * Power(multiplier, attempt);
    if d > max then max else d
  }

  function DefaultBase(attempt: nat): real { Base(INITIAL, MAX_BACKOFF, MULTIPLIER, attempt) }

  /** Half of the base is fixed and half is scaled by a random factor in [0, 1). */
  predicate InJitterRange(delay: real, base: real) { base / 2.0 <= delay <= base }

  function Jittered(base: real, random: real): real { (1.0 + random) * base / 2.0 }

  class Backoff {
    const initial: real
    const max: real
    const multiplier: real
    var attempt: nat

    constructor (initial: real, max: real, multiplier: real)
      ensures this.initial == initial && this.max == max && this.multiplier == multiplier && attempt == 0
    {
      this.initial, this.max, this.multiplier, this.attempt := initial, max, multiplier, 0;
    }

    method Next(random: real) returns (delay: real)
      requires 0.0 <= random < 1.0
      modifies this
      ensures attempt == old(attempt) + 1
      ensures initial >= 0.0 && max >= 0.0 && multiplier >= 0.0 ==>
                InJitterRange(delay, Base(initial, max, multiplier, old(attempt)))
      ensures delay == Jittered(Base(initial, max, multiplier, old(attempt)), random)
    {
      if multiplier >= 0.0 { PowerNonNegative(multiplier, attempt); }
      var d := initial * Power(multiplier, attempt);
      if d > max { d := max; }
      attempt := attempt + 1;
      if d >= 0.0 { JitterBounds(d, random); }
      delay := d / 2.0 + random * d / 2.0;
    }

    method Reset()
      modifies this
      ensures attempt == 0
    {
      attempt := 0;
    }
  }

  lemma {:induction false} PowerNonNegative(b: real, n: nat)
    requires b >= 0.0
    ensures Power(b, n) >= 0.0
  {
    if n > 0 { PowerNonNegative(b, n - 1); }
  }

  lemma JitterBounds(d: real, random: real)
    requires d >= 0.0 && 0.0 <= random < 1.0
    ensures 0.0 <= random * d <= d
  {
    assert (1.0 - random) * d >= 0.0;
  }

  /** With a multiplier of at least one the base never decreases between resets. */
  lemma BaseIsMonotone(initial: real, max: real, multiplier: real, n: nat)
    requires initial >= 0.0 && multiplier >= 1.0
    ensures Base(initial, max, multiplier, n) <= Base(initial, max, multiplier, n + 1) <= max
  {
    PowerNonNegative(multiplier, n);
    var p := Power(multiplier, n);
    assert p * multiplier - p == p * (multiplier - 1.0) >= 0.0;
    assert initial * (p * multiplier) - initial * p == initial * (p * multiplier - p) >= 0.0;
  }

  lemma {:induction false} DefaultBases(n: nat)
    ensures DefaultBase(n) == if n == 0 then 1.0 else if n == 1 then 2.0 else if n == 2 then 4.0
                              else if n == 3 then 8.0 else if n == 4 then 16.0 else 30.0
  {
    assert Power(2.0, 1) == 2.0 && Power(2.0, 2) == 4.0 && Power(2.0, 3) == 8.0 && Power(2.0, 4) == 16.0;
    if n > 5 {
      DefaultBases(n - 1);
      assert Power(2.0, n) == Power(2.0, n - 1) * 2.0;
    } else if n == 5 {
      assert Power(2.0, 5) == 32.0;
    }
  }

  // ---- The loop ----

  /** One turn of the loop: the connection was not established, or a session ran for `seconds`. */
  datatype Attempt = NotEstablished(random: real) | Session(seconds: real, random: real)

  predicate ValidAttempt(a: Attempt) { 0.0 <= a.random < 1.0 && (a.Session? ==> a.seconds >= 0.0) }
  predicate Healthy(a: Attempt) { a.Session? && a.seconds >= RESET_THRESHOLD }
  function Uptime(a: Attempt): real { if a.Session? then a.seconds else 0.0 }

  /** How many waits since the last reset there were before the wait of turn `i`. */
  function WaitsBefore(turns: seq<Attempt>, i: nat): nat
    requires i < |turns|
  {
    if Healthy(turns[i]) || i == 0 then 0 else WaitsBefore(turns, i - 1) + 1
  }

  function Sum(s: seq<real>): real { if s == [] then 0.0 else Sum(s[..|s| - 1]) + s[|s| - 1] }
  function TotalUptime(turns: seq<Attempt>): real {
    if turns == [] then 0.0 else TotalUptime(turns[..|turns| - 1]) + Uptime(turns[|turns| - 1])
  }

  /** The delays a run may wait: each in the jitter range of the base its position gives. */
  ghost predicate RunDelays(turns: seq<Attempt>, delays: seq<real>) {
    && |delays| == |turns|
    && (forall i :: 0 <= i < |turns| ==> ValidAttempt(turns[i]))
    && forall i :: 0 <= i < |turns| ==> InJitterRange(delays[i], DefaultBase(WaitsBefore(turns, i)))
  }

  /** Client.run until it is cancelled: reset after a healthy session, then wait for Next. */
  method Run(turns: seq<Attempt>) returns (delays: seq<real>)
    requires forall i :: 0 <= i < |turns| ==> ValidAttempt(turns[i])
    ensures RunDelays(turns, delays)
    ensures forall i :: 0 <= i < |turns| ==> delays[i] == Jittered(DefaultBase(WaitsBefore(turns, i)), turns[i].random)
  {
    hide Base, Jittered;
    var backoff := new Backoff(INITIAL, MAX_BACKOFF, MULTIPLIER);
    delays := [];
    for i := 0 to |turns|
      invariant backoff.initial == INITIAL && backoff.max == MAX_BACKOFF && backoff.multiplier == MULTIPLIER
      invariant backoff.attempt == if i == 0 then 0 else WaitsBefore(turns, i - 1) + 1
      invariant |delays| == i
      invariant forall k :: 0 <= k < i ==> InJitterRange(delays[k], DefaultBase(WaitsBefore(turns, k)))
      invariant forall k :: 0 <= k < i ==> delays[k] == Jittered(DefaultBase(WaitsBefore(turns, k)), turns[k].random)
    {
      if turns[i].Session? && turns[i].seconds >= RESET_THRESHOLD { backoff.Reset(); }
      var d := backoff.Next(turns[i].random);
      delays := delays + [d];
    }
  }

  // ---- Bounds over whole runs ----

  /** The least that `n` waits without a reset add up to. */
  function Floor(n: nat): real { if n == 0 then 0.0 else Floor(n - 1) + DefaultBase(n - 1) / 2.0 }

  lemma {:induction false} FloorBounds(n: nat)
    ensures n >= 5 ==> Floor(n) == 15.5 + 15.0 * (n - 5) as real
    ensures 6.0 * (Floor(n) + RESET_THRESHOLD) >= 17.0 * n as real
  {
    DefaultBases(0);
    DefaultBases(1);
    DefaultBases(2);
    DefaultBases(3);
    DefaultBases(4);
    assert Floor(1) == 0.5 && Floor(2) == 1.5 && Floor(3) == 3.5 && Floor(4) == 7.5 && Floor(5) == 15.5;
    if n > 5 {
      FloorBounds(n - 1);
      DefaultBases(n - 1);
    }
  }

  lemma DefaultBaseMonotone(m: nat, n: nat)
    requires m <= n
    ensures DefaultBase(m) <= DefaultBase(n)
  {
    DefaultBases(m);
    DefaultBases(n);
  }

  /** Any k consecutive waits with no reset after the first of them total at least `Floor(k)`. */
  lemma {:induction false} WaitsWithoutReset(turns: seq<Attempt>, delays: seq<real>, i: nat, k: nat)
    requires RunDelays(turns, delays) && i < |turns| && k <= WaitsBefore(turns, i) + 1
    ensures k <= i + 1 && Sum(delays[i + 1 - k..i + 1]) >= Floor(k)
    decreases k
  {
    if k > 0 {
      DefaultBaseMonotone(k - 1, WaitsBefore(turns, i));
      if k > 1 { WaitsWithoutReset(turns, delays, i - 1, k - 1); }
      var window := delays[i + 1 - k..i + 1];
      assert window[..k - 1] == delays[i + 1 - k..i];
    }
  }

  /**
   Without a reset the client backs off: any k consecutive waits, k at least five, of
   which none but possibly the first follows a healthy session, take at least
   15.5 + 15 (k - 5) seconds.
   */
  lemma BackoffWithoutReset(turns: seq<Attempt>, delays: seq<real>, i: nat, k: nat)
    requires RunDelays(turns, delays) && 5 <= k <= i + 1 <= |turns|
    requires forall m :: i + 1 - k < m <= i ==> turns[m].NotEstablished? || turns[m].seconds < 5.0
    ensures Sum(delays[i + 1 - k..i + 1]) >= 15.5 + 15.0 * (k - 5) as real
  {
    UnhealthyStretch(turns, i, k);
    WaitsWithoutReset(turns, delays, i, k);
    FloorBounds(k);
  }

  lemma {:induction false} UnhealthyStretch(turns: seq<Attempt>, i: nat, k: nat)
    requires 1 <= k <= i + 1 <= |turns| && forall m :: i + 1 - k < m <= i ==> !Healthy(turns[m])
    ensures WaitsBefore(turns, i) + 1 >= k
  {
    if k > 1 { UnhealthyStretch(turns, i - 1, k - 1); }
  }

  function Doubled(base: real): real { if 2.0 * base > 30.0 then 30.0 else 2.0 * base }

  /**
   The wait after each attempt, from the attempts alone: back to between half a second
   and one second after any session of five seconds or more, and otherwise in the range
   twice as high as before, up to thirty seconds.
   */
  lemma WaitAfterAttempt(turns: seq<Attempt>, delays: seq<real>, i: nat)
    requires RunDelays(turns, delays) && i < |turns|
    ensures i == 0 || (turns[i].Session? && turns[i].seconds >= 5.0) ==> 0.5 <= delays[i] <= 1.0
    ensures i > 0 && (turns[i].NotEstablished? || turns[i].seconds < 5.0) ==>
              var last, next := delays[i - 1], delays[i];
              exists b :: InJitterRange(last, b) && InJitterRange(next, Doubled(b))
  {
    DefaultBases(WaitsBefore(turns, i));
    if i > 0 {
      DefaultBases(WaitsBefore(turns, i - 1));
      var b := DefaultBase(WaitsBefore(turns, i - 1));
      assert InJitterRange(delays[i - 1], b);
      if !Healthy(turns[i]) { assert DefaultBase(WaitsBefore(turns, i)) == Doubled(b); }
    }
  }

  /** Waits before the n-th turn that belong to the stretch since the last reset. */
  function Stretch(turns: seq<Attempt>): nat {
    if turns == [] then 0 else WaitsBefore(turns, |turns| - 1) + 1
  }

  lemma WaitsBeforePrefix(turns: seq<Attempt>, n: nat, i: nat)
    requires i < n <= |turns|
    ensures WaitsBefore(turns[..n], i) == WaitsBefore(turns, i)
  {
  }

  lemma RunDelaysPrefix(turns: seq<Attempt>, delays: seq<real>, n: nat)
    requires RunDelays(turns, delays) && n <= |turns|
    ensures RunDelays(turns[..n], delays[..n])
  {
    forall i | 0 <= i < n ensures InJitterRange(delays[i], DefaultBase(WaitsBefore(turns[..n], i))) {
      WaitsBeforePrefix(turns, n, i);
    }
  }

  /** Time spent is paid for in full by every finished stretch, and by `Floor` in the current one. */
  lemma {:induction false} TimePaid(turns: seq<Attempt>, delays: seq<real>)
    requires RunDelays(turns, delays)
    ensures Stretch(turns) <= |turns|
    ensures 6.0 * (Sum(delays) + TotalUptime(turns) - Floor(Stretch(turns)))
            >= 17.0 * (|turns| - Stretch(turns)) as real
    decreases |turns|
  {
    if turns != [] {
      var n := |turns| - 1;
      RunDelaysPrefix(turns, delays, n);
      TimePaid(turns[..n], delays[..n]);
      var before := Stretch(turns[..n]);
      if n > 0 { WaitsBeforePrefix(turns, n, n - 1); }
      if Healthy(turns[n]) {
        FloorBounds(before);
        assert Stretch(turns) == 1;
      } else {
        assert Stretch(turns) == before + 1;
      }
    }
  }

  /**
   However sessions come and go, n turns of the loop take at least 17n/6 - 5 seconds
   of waiting and session time: the backend sees at most one attempt every 17/6
   seconds in the long run, resets included.
   */
  lemma AttemptRateIsBounded(turns: seq<Attempt>, delays: seq<real>)
    requires RunDelays(turns, delays)
    ensures Sum(delays) + TotalUptime(turns) >= 17.0 * |turns| as real / 6.0 - 5.0
  {
    TimePaid(turns, delays);
    FloorBounds(Stretch(turns));
  }

  /** A session just long enough to reset, then two failed attempts, with no jitter. */
  const CYCLE := [Session(RESET_THRESHOLD, 0.0), NotEstablished(0.0), NotEstablished(0.0)]
  const CYCLE_DELAYS := [0.5, 1.0, 2.0]

  function Flapping(m: nat): seq<Attempt> { if m == 0 then [] else Flapping(m - 1) + CYCLE }
  function FlappingDelays(m: nat): seq<real> { if m == 0 then [] else FlappingDelays(m - 1) + CYCLE_DELAYS }

  lemma AddTurn(turns: seq<Attempt>, delays: seq<real>, a: Attempt, d: real)
    ensures Sum(delays + [d]) == Sum(delays) + d
    ensures TotalUptime(turns + [a]) == TotalUptime(turns) + Uptime(a)
  {
    assert (delays + [d])[..|delays|] == delays && (turns + [a])[..|turns|] == turns;
  }

  lemma AddThreeTurns(turns: seq<Attempt>, delays: seq<real>, a: seq<Attempt>, d: seq<real>)
    requires |a| == 3 && |d| == 3
    ensures Sum(delays + d) == Sum(delays) + d[0] + d[1] + d[2]
    ensures TotalUptime(turns + a) == TotalUptime(turns) + Uptime(a[0]) + Uptime(a[1]) + Uptime(a[2])
  {
    var t1, d1 := turns + [a[0]], delays + [d[0]];
    var t2, d2 := t1 + [a[1]], d1 + [d[1]];
    AddTurn(turns, delays, a[0], d[0]);
    AddTurn(t1, d1, a[1], d[1]);
    AddTurn(t2, d2, a[2], d[2]);
    assert turns + a == t2 + [a[2]] && delays + d == d2 + [d[2]];
  }

  lemma OneMoreCycle(turns: seq<Attempt>, delays: seq<real>)
    requires RunDelays(turns, delays)
    ensures RunDelays(turns + CYCLE, delays + CYCLE_DELAYS)
  {
    var t, d, n := turns + CYCLE, delays + CYCLE_DELAYS, |turns|;
    DefaultBases(0);
    DefaultBases(1);
    DefaultBases(2);
    assert t[n] == CYCLE[0] && t[n + 1] == CYCLE[1] && t[n + 2] == CYCLE[2];
    assert WaitsBefore(t, n) == 0 && WaitsBefore(t, n + 1) == 1 && WaitsBefore(t, n + 2) == 2;
    forall i | 0 <= i < n ensures InJitterRange(d[i], DefaultBase(WaitsBefore(t, i))) {
      assert t[..n] == turns && d[i] == delays[i];
      WaitsBeforePrefix(t, n, i);
    }
  }

  /** The bound cannot be improved: a flapping backend is tried exactly every 17/6 seconds. */
  lemma {:induction false} AttemptRateIsAttained(m: nat)
    ensures |Flapping(m)| == 3 * m && RunDelays(Flapping(m), FlappingDelays(m))
    ensures Sum(FlappingDelays(m)) + TotalUptime(Flapping(m)) == 17.0 * (3 * m) as real / 6.0
  {
    if m > 0 {
      AttemptRateIsAttained(m - 1);
      OneMoreCycle(Flapping(m - 1), FlappingDelays(m - 1));
      AddThreeTurns(Flapping(m - 1), FlappingDelays(m - 1), CYCLE, CYCLE_DELAYS);
    }
  }
}
