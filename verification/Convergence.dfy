/** The convergence poller: probe with capped exponential backoff until a deadline. Durations are
    whole microseconds. */
module Convergence {
  import opened Prelude
  import opened Domain

  function Min(a: int, b: int): int { if a <= b then a else b }

  function Max(a: int, b: int): int { if a >= b then a else b }

  /** One wait: the clock reading before it and its length. */
  datatype Wait = Wait(from: Time, length: int)

  /** The world the poller runs in. `delay(k)` is the time that passes before clock reading `k`,
      observation latency included; the marker answers by the instant alone. */
  class Environment {
    const delay: nat -> nat
    const visible: Time -> bool
    var now: Time
    var readings: nat
    var probes: seq<Time>
    var waits: seq<Wait>

    constructor (now: Time, delay: nat -> nat, visible: Time -> bool)
      ensures this.now == now && this.readings == 0 && this.probes == [] && this.waits == []
      ensures this.delay == delay && this.visible == visible
    {
      this.now, this.readings, this.probes, this.waits := now, 0, [], [];
      this.delay, this.visible := delay, visible;
    }

    method Clock() returns (t: Time)
      modifies this`now, this`readings
      ensures t == now == old(now) + delay(old(readings)) && readings == old(readings) + 1
    {
      now := now + delay(readings);
      readings := readings + 1;
      t := now;
    }

    method Observe() returns (seen: bool)
      modifies this`probes
      ensures seen == visible(now) && probes == old(probes) + [now]
    {
      probes := probes + [now];
      seen := visible(now);
    }

    method Pause(length: nat)
      modifies this`now, this`waits
      ensures now == old(now) + length && waits == old(waits) + [Wait(old(now), length)]
    {
      waits := waits + [Wait(now, length)];
      now := now + length;
    }
  }

  datatype ConvergenceEvidence = ConvergenceEvidence(
    system: string, markerId: string, sourceWriteAt: Time, observedAt: Option<Time>,
    timeout: int, attempts: nat, completed: bool)
  {
    /** `measured_lag_ms`, in microseconds. */
    function MeasuredLag(): Option<int> {
      if observedAt.None? then None else Some(observedAt.value - sourceWriteAt)
    }
  }

  /** The length of wait number `k` on the schedule. */
  function Backoff(initial: nat, maximum: nat, k: nat): nat {
    if k == 0 then initial else Min(Backoff(initial, maximum, k - 1) * 2, maximum)
  }

  /** Total length of the first `k` waits. */
  function Scheduled(initial: nat, maximum: nat, k: nat): nat {
    if k == 0 then 0 else Scheduled(initial, maximum, k - 1) + Backoff(initial, maximum, k - 1)
  }

  lemma BackoffAtMost(initial: nat, maximum: nat, k: nat)
    ensures Backoff(initial, maximum, k) <= Max(initial, maximum)
  {}

  lemma {:induction false} BackoffBounds(initial: nat, maximum: nat, k: nat)
    requires initial > 0 && maximum > 0
    ensures Min(initial, maximum) <= Backoff(initial, maximum, k) <= Max(initial, maximum)
  {
    if k > 0 { BackoffBounds(initial, maximum, k - 1); }
  }

  lemma {:induction false} ScheduleGrows(initial: nat, maximum: nat, k: nat)
    requires initial > 0 && maximum > 0
    ensures k * Min(initial, maximum) <= Scheduled(initial, maximum, k)
  {
    if k > 0 {
      ScheduleGrows(initial, maximum, k - 1);
      BackoffBounds(initial, maximum, k - 1);
      assert k * Min(initial, maximum) == (k - 1) * Min(initial, maximum) + Min(initial, maximum);
    }
  }

  function Pow2(k: nat): nat { if k == 0 then 1 else 2 * Pow2(k - 1) }

  lemma {:induction false} Pow2AtLeast(k: nat)
    ensures Pow2(k) >= k + 1
  {
    if k > 0 { Pow2AtLeast(k - 1); }
  }

  /** After the first wait the schedule is the doubled initial backoff, capped. */
  lemma {:induction false} BackoffClosedForm(initial: nat, maximum: nat, k: nat)
    requires k > 0
    ensures Backoff(initial, maximum, k) == Min(initial * Pow2(k), maximum)
  {
    if k == 1 {
      assert Pow2(1) == 2 * Pow2(0);
    } else {
      BackoffClosedForm(initial, maximum, k - 1);
      assert initial * Pow2(k) == 2 * (initial * Pow2(k - 1));
    }
  }

  lemma ScheduleSteps(initial: nat, maximum: nat, k: nat)
    ensures Backoff(initial, maximum, 0) == initial && Scheduled(initial, maximum, 0) == 0
    ensures Backoff(initial, maximum, k + 1) == Min(Backoff(initial, maximum, k) * 2, maximum)
    ensures Scheduled(initial, maximum, k + 1) == Scheduled(initial, maximum, k) + Backoff(initial, maximum, k)
  {}

  /** From `T` on the marker stays visible. */
  ghost predicate VisibleFrom(visible: Time -> bool, T: Time) {
    forall t: Time :: T <= t ==> visible(t)
  }

  ghost predicate HiddenBefore(visible: Time -> bool, T: Time) {
    forall t: Time :: t < T ==> !visible(t)
  }

  /** No clock reading is preceded by more than `D`. */
  ghost predicate Latency(delay: nat -> nat, D: nat) {
    forall k: nat :: delay(k) <= D
  }

  /** Time passes between one probe and the next: either the backoffs are positive or every reading takes
      time. Otherwise polling a marker that never shows need not end. */
  ghost predicate Advances(delay: nat -> nat, initial: nat, maximum: nat) {
    (initial > 0 && maximum > 0) || forall k: nat :: delay(k) > 0
  }

  /** One poll: its arguments, the marker, and the clock: its value and the number of readings before the
      first one, and the time before each. `T` and `D` are instants a claim may speak of. */
  datatype Poll = Poll(
    system: string, markerId: string, source: Time, timeout: int, initial: nat, maximum: nat,
    visible: Time -> bool, delay: nat -> nat, start: Time, readings: nat, T: Time, D: nat)
  {
    function Deadline(): int { source + timeout }

    function Longest(): int { Max(initial, maximum) }

    /** What the first reading shows. */
    function First(): Time { start + delay(readings) }

    /** What the clock shows after probe `k`. */
    function After(probe: Time, k: nat): Time { probe + delay(readings + 1 + 2 * k) }

    /** What it shows before probe `k`. */
    function Before(waits: seq<Wait>, k: nat): Time
      requires k <= |waits|
    {
      if k == 0 then First() else waits[k - 1].from + waits[k - 1].length + delay(readings + 2 * k)
    }
  }

  ghost predicate ProbeInPlace(p: Poll, probes: seq<Time>, waits: seq<Wait>, k: nat)
    requires k < |probes| && k <= |waits|
  {
    probes[k] == p.Before(waits, k) && probes[k] <= p.Deadline()
  }

  ghost predicate WaitInPlace(p: Poll, probes: seq<Time>, waits: seq<Wait>, k: nat)
    requires k < |probes| && k < |waits|
  {
    && waits[k] == Wait(p.After(probes[k], k), Backoff(p.initial, p.maximum, k))
    && waits[k].from + waits[k].length <= p.Deadline()
  }

  /** The course of a poll: every probe and every wait is where the clock puts it, the waits follow the
      schedule, and neither a probe nor the end of a wait is past the deadline. */
  ghost predicate Course(p: Poll, probes: seq<Time>, waits: seq<Wait>) {
    && |waits| <= |probes| <= |waits| + 1
    && (forall k | 0 <= k < |probes| :: ProbeInPlace(p, probes, waits, k))
    && (forall k | 0 <= k < |waits| :: WaitInPlace(p, probes, waits, k))
  }

  /** What has happened by the time the clock before the next probe reads `t`: every probe missed, and the
      waits taken fit between the start and `t`. */
  ghost predicate Polling(p: Poll, probes: seq<Time>, waits: seq<Wait>, t: Time) {
    && Course(p, probes, waits) && |waits| == |probes| && t == p.Before(waits, |waits|)
    && (forall k | 0 <= k < |probes| :: !p.visible(probes[k]))
    && p.start + Scheduled(p.initial, p.maximum, |waits|) <= t
    && (probes != [] ==>
          && p.First() <= p.Deadline() && p.start + Scheduled(p.initial, p.maximum, |waits|) <= p.Deadline()
          && (VisibleFrom(p.visible, p.T) ==> probes[|probes| - 1] < p.T)
          && (Latency(p.delay, p.D) ==> t <= probes[|probes| - 1] + p.Longest() + 2 * p.D))
  }

  /** What a poll promises. It keeps to its course and ends in one of three ways: its last probe saw the
      marker, and the reading after it is what is reported; the wait after a last failed probe would pass the
      deadline; or the clock before the next probe has. Every earlier probe failed. The waits taken fit
      between the start and the deadline, which bounds the attempts. If readings take at most `D`, the marker
      is visible from some `T` not before the first probe, and a probe after `T` plus the longest backoff
      still meets the deadline, then it completes and its measured lag exceeds the true one by less than
      that backoff and three readings. A marker hidden before `T` is never reported earlier than `T`. */
  ghost predicate Promised(p: Poll, probes: seq<Time>, waits: seq<Wait>, e: ConvergenceEvidence) {
    && Course(p, probes, waits)
    && e == ConvergenceEvidence(
              p.system, p.markerId, p.source, e.observedAt, p.timeout, |probes|, e.observedAt.Some?)
    && (forall k | 0 <= k < |probes| - 1 :: !p.visible(probes[k]))
    && (e.completed <==> probes != [] && p.visible(probes[|probes| - 1]))
    && (e.completed ==> |waits| == |probes| - 1 && e.observedAt.value == p.After(probes[|probes| - 1], |waits|))
    && (!e.completed && |waits| < |probes| ==>
          p.After(probes[|waits|], |waits|) + Backoff(p.initial, p.maximum, |waits|) > p.Deadline())
    && (!e.completed && |waits| == |probes| ==> p.Before(waits, |waits|) > p.Deadline())
    && (e.attempts > 0 ==> p.start + Scheduled(p.initial, p.maximum, |waits|) <= p.Deadline())
    && (VisibleFrom(p.visible, p.T) && Latency(p.delay, p.D) && p.First() <= p.T
        && p.T + p.Longest() + 2 * p.D <= p.Deadline() ==>
          e.completed && e.MeasuredLag().value < (p.T - p.source) + p.Longest() + 3 * p.D)
    && (HiddenBefore(p.visible, p.T) && e.completed ==>
          p.T <= e.observedAt.value && p.T - p.source <= e.MeasuredLag().value)
  }

  lemma Readings(p: Poll)
    ensures p.First() == p.start + p.delay(p.readings)
    ensures forall t: Time, k: nat :: p.After(t, k) == t + p.delay(p.readings + 1 + 2 * k)
  {}

  lemma PollingStarts(p: Poll)
    ensures Polling(p, [], [], p.First())
  {}

  lemma CourseGrows(p: Poll, probes: seq<Time>, waits: seq<Wait>, t: Time)
    requires Course(p, probes, waits) && |waits| == |probes| && t == p.Before(waits, |waits|) <= p.Deadline()
    ensures Course(p, probes + [t], waits)
    ensures var w := Wait(p.After(t, |waits|), Backoff(p.initial, p.maximum, |waits|));
            w.from + w.length <= p.Deadline() ==> Course(p, probes + [t], waits + [w])
  {
    hide Backoff, Poll.After, Poll.Before;
    var w := Wait(p.After(t, |waits|), Backoff(p.initial, p.maximum, |waits|));
    var probes', waits' := probes + [t], waits + [w];
    forall k | 0 <= k < |probes'|
      ensures ProbeInPlace(p, probes', waits, k) && ProbeInPlace(p, probes', waits', k)
    {
      if k < |probes| { assert ProbeInPlace(p, probes, waits, k); }
      BeforeSame(p, waits, w, k);
    }
    forall k | 0 <= k < |waits| ensures WaitInPlace(p, probes', waits, k) && WaitInPlace(p, probes', waits', k) {
      assert WaitInPlace(p, probes, waits, k);
    }
    hide ProbeInPlace;
  }

  lemma BeforeSame(p: Poll, waits: seq<Wait>, w: Wait, k: nat)
    requires k <= |waits|
    ensures p.Before(waits + [w], k) == p.Before(waits, k)
  {}

  lemma NextReading(p: Poll, waits: seq<Wait>, w: Wait)
    ensures p.Before(waits + [w], |waits| + 1) == w.from + w.length + p.delay(p.readings + 2 * |waits| + 2)
  {
    assert 2 * (|waits| + 1) == 2 * |waits| + 2;
  }

  lemma PollingGrows(p: Poll, probes: seq<Time>, waits: seq<Wait>, t: Time)
    requires Polling(p, probes, waits, t) && t <= p.Deadline() && !p.visible(t)
    requires p.After(t, |waits|) + Backoff(p.initial, p.maximum, |waits|) <= p.Deadline()
    ensures var w := Wait(p.After(t, |waits|), Backoff(p.initial, p.maximum, |waits|));
            Polling(p, probes + [t], waits + [w], p.Before(waits + [w], |waits| + 1))
  {
    hide Backoff, Scheduled, Course;
    CourseGrows(p, probes, waits, t);
    ScheduleSteps(p.initial, p.maximum, |waits|);
    BackoffAtMost(p.initial, p.maximum, |waits|);
    if Latency(p.delay, p.D) {
      assert p.delay(p.readings + 1 + 2 * |waits|) <= p.D && p.delay(p.readings + 2 * (|waits| + 1)) <= p.D;
    }
  }

  lemma SomethingPositive(p: Poll)
    requires Advances(p.delay, p.initial, p.maximum) && Latency(p.delay, p.D)
    ensures p.Longest() + p.D > 0
  {
    assert p.delay(0) <= p.D;
  }

  /** Each round takes time. */
  lemma RoundAdvances(delay: nat -> nat, initial: nat, maximum: nat, k: nat, reading: nat)
    requires Advances(delay, initial, maximum)
    ensures Backoff(initial, maximum, k) + delay(reading) > 0
  {
    hide Backoff;
    if initial > 0 && maximum > 0 { BackoffBounds(initial, maximum, k); }
  }

  /** The last probe saw the marker. */
  lemma PollSaw(p: Poll, probes: seq<Time>, waits: seq<Wait>, t: Time)
    requires Polling(p, probes, waits, t) && t <= p.Deadline() && p.visible(t)
    requires Advances(p.delay, p.initial, p.maximum)
    ensures Promised(p, probes + [t], waits,
                     ConvergenceEvidence(p.system, p.markerId, p.source, Some(p.After(t, |waits|)), p.timeout,
                                         |probes| + 1, true))
  {
    hide Backoff, Scheduled, Course, Advances;
    CourseGrows(p, probes, waits, t);
    if Latency(p.delay, p.D) {
      SomethingPositive(p);
      assert p.delay(p.readings + 1 + 2 * |waits|) <= p.D;
    }
  }

  /** After a last failed probe the next wait would pass the deadline. */
  lemma PollGaveUp(p: Poll, probes: seq<Time>, waits: seq<Wait>, t: Time)
    requires Polling(p, probes, waits, t) && t <= p.Deadline() && !p.visible(t)
    requires p.After(t, |waits|) + Backoff(p.initial, p.maximum, |waits|) > p.Deadline()
    ensures Promised(p, probes + [t], waits,
                     ConvergenceEvidence(p.system, p.markerId, p.source, None, p.timeout, |probes| + 1, false))
  {
    hide Backoff, Scheduled, Course;
    CourseGrows(p, probes, waits, t);
    BackoffAtMost(p.initial, p.maximum, |waits|);
    if Latency(p.delay, p.D) { assert p.delay(p.readings + 1 + 2 * |waits|) <= p.D; }
  }

  /** The deadline passed before the next probe. */
  lemma PollExpired(p: Poll, probes: seq<Time>, waits: seq<Wait>, t: Time)
    requires Polling(p, probes, waits, t) && t > p.Deadline()
    ensures Promised(p, probes, waits,
                     ConvergenceEvidence(p.system, p.markerId, p.source, None, p.timeout, |probes|, false))
  {
    hide Backoff, Scheduled, Course;
  }

  /** The poller probes at once, then after each scheduled wait; in every environment in which time
      advances it terminates with what it promises. */
  method MeasureConvergence(system: string, markerId: string, source: Time, env: Environment, timeout: int,
                            initial: nat, maximum: nat, ghost T: Time, ghost D: nat)
    returns (e: ConvergenceEvidence)
    requires Advances(env.delay, initial, maximum)
    requires env.probes == [] && env.waits == []
    modifies env
    ensures Promised(Poll(system, markerId, source, timeout, initial, maximum, env.visible, env.delay, old(env.now),
                          old(env.readings), T, D),
                     env.probes, env.waits, e)
  {
    hide Backoff, Scheduled, Polling, Promised, Advances, Poll.Before, Poll.After, Poll.First;
    ghost var p := Poll(system, markerId, source, timeout, initial, maximum, env.visible, env.delay, env.now,
                        env.readings, T, D);
    var deadline := source + timeout;
    var attempts: nat := 0;
    var backoff := initial;
    PollingStarts(p);
    Readings(p);
    ScheduleSteps(initial, maximum, 0);
    var t := env.Clock();
    while t <= deadline
      invariant |env.probes| == |env.waits| == attempts && backoff == Backoff(initial, maximum, attempts)
      invariant t == env.now && env.readings == p.readings + 1 + 2 * attempts
      invariant Polling(p, env.probes, env.waits, t)
      decreases deadline - t
    {
      ScheduleSteps(initial, maximum, attempts);
      RoundAdvances(env.delay, initial, maximum, attempts, env.readings);
      ghost var probes, waits := env.probes, env.waits;
      var seen := env.Observe();
      attempts := attempts + 1;
      if seen {
        var observed := env.Clock();
        PollSaw(p, probes, waits, t);
        return ConvergenceEvidence(system, markerId, source, Some(observed), timeout, attempts, true);
      }
      var now := env.Clock();
      if now + backoff > deadline {
        PollGaveUp(p, probes, waits, t);
        return ConvergenceEvidence(system, markerId, source, None, timeout, attempts, false);
      }
      PollingGrows(p, probes, waits, t);
      NextReading(p, waits, Wait(now, backoff));
      env.Pause(backoff);
      backoff := Min(backoff * 2, maximum);
      t := env.Clock();
    }
    PollExpired(p, env.probes, env.waits, t);
    e := ConvergenceEvidence(system, markerId, source, None, timeout, attempts, false);
  }

  lemma NoBackoff(maximum: nat, k: nat)
    ensures Backoff(0, maximum, k) == 0
  {}

  /** Why time must advance: with no initial backoff, a clock that stands still and a marker that does not
      show, the loop is before the deadline with another probe to make after any number of missed ones. */
  lemma {:induction false} StillClockNeverEnds(p: Poll, n: nat)
    requires p.initial == 0 && Latency(p.delay, 0) && p.start <= p.Deadline() && !p.visible(p.start)
    ensures Polling(p, Times(p.start, n), Times(Wait(p.start, 0), n), p.start)
  {
    if n == 0 {
      StillReadings(p, [], 0);
      PollingStarts(p);
    } else {
      hide Polling, Backoff, Poll.Before, Poll.After, Latency;
      var probes, waits := Times(p.start, n - 1), Times(Wait(p.start, 0), n - 1);
      StillClockNeverEnds(p, n - 1);
      NoBackoff(p.maximum, n - 1);
      StillReadings(p, waits + [Wait(p.start, 0)], n);
      StillReadings(p, waits + [Wait(p.start, 0)], n - 1);
      PollingGrows(p, probes, waits, p.start);
    }
  }

  /** `x`, `n` times. */
  function Times<X>(x: X, n: nat): (r: seq<X>)
    ensures |r| == n && forall y | y in r :: y == x
  {
    if n == 0 then [] else Times(x, n - 1) + [x]
  }

  lemma StillReadings(p: Poll, waits: seq<Wait>, k: nat)
    requires Latency(p.delay, 0) && k <= |waits| && forall w | w in waits :: w == Wait(p.start, 0)
    ensures p.After(p.start, k) == p.start && p.Before(waits, k) == p.start
  {
    assert p.delay(p.readings) == 0 && p.delay(p.readings + 1 + 2 * k) == 0 && p.delay(p.readings + 2 * k) == 0;
    if k > 0 { assert waits[k - 1] in waits; }
  }

  /** So the attempts never exceed one more than the time left divided by the shortest backoff. */
  lemma AttemptsBounded(initial: nat, maximum: nat, waits: nat, attempts: nat, start: Time, deadline: int)
    requires initial > 0 && maximum > 0 && attempts <= waits + 1
    requires start + Scheduled(initial, maximum, waits) <= deadline
    ensures (attempts - 1) * Min(initial, maximum) <= deadline - start
  {
    ScheduleGrows(initial, maximum, waits);
    Scales(attempts - 1, waits, Min(initial, maximum));
  }

  lemma Scales(a: int, b: int, c: int)
    requires a <= b && 0 <= c
    ensures a * c <= b * c
  {}
}
