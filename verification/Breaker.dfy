/**
 The generation-stamped circuit breaker: the in-process one and the one kept in
 Redis by two Lua scripts, as values, as the code that updates them in place, and
 the proof that the two behave alike until a half-open lease lapses.
 */
module Breaker {

  datatype Circuit = Closed | Open | HalfOpen

  /** Pool settings; `validatePool` rejects thresholds and cooldowns that are not positive. */
  datatype Config = Config(threshold: int, cooldown: int, lease: int) {
    predicate Valid() {
      threshold >= 1 && cooldown > 0
    }
  }

  datatype Grant = Grant(generation: nat, allowed: bool, state: Circuit, changed: bool)

  datatype Report = Report(state: Circuit, changed: bool)

  datatype Memory = Memory(state: Circuit, failures: int, openedAt: int, inFlight: bool, generation: nat)

  const NEW_MEMORY := Memory(Closed, 0, 0, false, 0)

  function MemoryAcquire(c: Config, b: Memory, now: int): (Memory, Grant) {
    if b.state.Open? && now - b.openedAt < c.cooldown then
      (b, Grant(0, false, Open, false))
    else
      var b1 := if b.state.Open? then b.(state := HalfOpen) else b;
      if b1.state.HalfOpen? && b1.inFlight then
        (b1, Grant(0, false, b1.state, b.state != b1.state))
      else
        var b2 := if b1.state.HalfOpen? then b1.(inFlight := true) else b1;
        (b2, Grant(b2.generation, true, b2.state, b.state != b2.state))
  }

  function MemoryComplete(c: Config, b: Memory, generation: nat, success: bool, now: int): (Memory, Report) {
    if generation != b.generation then (b, Report(b.state, false))
    else
      match b.state
      case HalfOpen =>
        var b1 := b.(inFlight := false, generation := b.generation + 1);
        if success then (b1.(state := Closed, failures := 0), Report(Closed, true))
        else (b1.(state := Open, openedAt := now), Report(Open, true))
      case Closed =>
        if success then (b.(failures := 0), Report(Closed, false))
        else if b.failures + 1 >= c.threshold then
          (b.(failures := b.failures + 1, state := Open, openedAt := now, generation := b.generation + 1),
           Report(Open, true))
        else (b.(failures := b.failures + 1), Report(Closed, false))
      case Open => (b, Report(Open, false))
  }

  /** The Redis hash; a missing field reads as its default, so deleting one is resetting it. */
  datatype Redis = Redis(state: Circuit, failures: int, openedAt: int, leaseUntil: int, generation: nat)

  const NEW_REDIS := Redis(Closed, 0, 0, 0, 0)

  function RedisAcquire(c: Config, r: Redis, now: int): (Redis, Grant) {
    match r.state
    case Open =>
      if now - r.openedAt < c.cooldown then (r, Grant(r.generation, false, Open, false))
      else (r.(state := HalfOpen, leaseUntil := now + c.lease), Grant(r.generation, true, HalfOpen, true))
    case HalfOpen =>
      if r.leaseUntil > now then (r, Grant(r.generation, false, HalfOpen, false))
      else
        (r.(generation := r.generation + 1, leaseUntil := now + c.lease),
         Grant(r.generation + 1, true, HalfOpen, false))
    case Closed => (r, Grant(r.generation, true, Closed, false))
  }

  function RedisComplete(c: Config, r: Redis, generation: nat, success: bool, now: int): (Redis, Report) {
    if generation != r.generation then (r, Report(r.state, false))
    else
      match r.state
      case HalfOpen =>
        if success then
          (Redis(Closed, 0, 0, 0, r.generation + 1), Report(Closed, true))
        else
          (r.(state := Open, openedAt := now, leaseUntil := 0, generation := r.generation + 1), Report(Open, true))
      case Closed =>
        if success then (r.(failures := 0), Report(Closed, false))
        else if r.failures + 1 >= c.threshold then
          (r.(failures := r.failures + 1, state := Open, openedAt := now, generation := r.generation + 1),
           Report(Open, true))
        else (r.(failures := r.failures + 1), Report(Closed, false))
      case Open => (r, Report(Open, false))
  }

  // ---------- the code that updates them in place ----------

  class CircuitBreaker {
    const config: Config
    var state: Circuit
    var failures: int
    var openedAt: int
    var halfOpenInFlight: bool
    var generation: nat

    function Value(): Memory
      reads this
    {
      Memory(state, failures, openedAt, halfOpenInFlight, generation)
    }

    constructor (config: Config)
      ensures Value() == NEW_MEMORY && this.config == config
    {
      this.config := config;
      state, failures, openedAt, halfOpenInFlight, generation := Closed, 0, 0, false, 0;
    }

    method Acquire(now: int) returns (g: Grant)
      modifies this
      ensures (Value(), g) == MemoryAcquire(config, old(Value()), now)
      ensures g.state == state && (g.changed <==> old(state) != state) && (g.allowed ==> g.generation == generation)
      ensures failures == old(failures) && openedAt == old(openedAt) && generation == old(generation)
      ensures old(state).Closed? ==> g.allowed && unchanged(this)
      ensures old(state).Open? && now < old(openedAt) + config.cooldown ==> !g.allowed && unchanged(this)
      ensures old(state).HalfOpen? || (old(state).Open? && old(openedAt) + config.cooldown <= now) ==>
        state.HalfOpen? && halfOpenInFlight && (g.allowed <==> !old(halfOpenInFlight))
    {
      var previous := state;
      if state == Open {
        if now - openedAt < config.cooldown {
          return Grant(0, false, state, false);
        }
        state := HalfOpen;
      }
      if state == HalfOpen {
        if halfOpenInFlight {
          return Grant(0, false, state, previous != state);
        }
        halfOpenInFlight := true;
      }
      return Grant(generation, true, state, previous != state);
    }

    method Complete(permit: nat, success: bool, now: int) returns (r: Report)
      modifies this
      ensures (Value(), r) == MemoryComplete(config, old(Value()), permit, success, now)
      ensures r.state == state && (r.changed <==> old(state) != state)
      ensures permit != old(generation) || old(state).Open? ==> unchanged(this)
      ensures permit == old(generation) && old(state).HalfOpen? ==>
        && !halfOpenInFlight && generation == old(generation) + 1
        && (if success then state.Closed? && failures == 0 else state.Open? && openedAt == now)
      ensures permit == old(generation) && old(state).Closed? ==>
        && failures == (if success then 0 else old(failures) + 1)
        && (state.Open? <==> !success && failures >= config.threshold) && !state.HalfOpen?
        && (state.Open? ==> openedAt == now) && generation == old(generation) + if state.Open? then 1 else 0
    {
      if permit != generation {
        return Report(state, false);
      }
      var previous := state;
      match state {
        case HalfOpen =>
          halfOpenInFlight := false;
          generation := generation + 1;
          if success {
            state := Closed;
            failures := 0;
          } else {
            state := Open;
            openedAt := now;
          }
        case Closed =>
          if success {
            failures := 0;
          } else {
            failures := failures + 1;
            if failures >= config.threshold {
              state := Open;
              openedAt := now;
              generation := generation + 1;
            }
          }
        case Open =>
      }
      return Report(state, previous != state);
    }
  }

  datatype Field<T> = Absent | Present(value: T) {
    /** HGET with a default. */
    function Or(default: T): T {
      if Present? then value else default
    }
  }

  class RedisCircuit {
    const config: Config
    var state: Field<Circuit>
    var generation: Field<nat>
    var failures: Field<int>
    var openedAt: Field<int>
    var halfOpenUntil: Field<int>

    function Value(): Redis
      reads this
    {
      Redis(state.Or(Closed), failures.Or(0), openedAt.Or(0), halfOpenUntil.Or(0), generation.Or(0))
    }

    constructor (config: Config)
      ensures Value() == NEW_REDIS && this.config == config
    {
      this.config := config;
      state, generation, failures, openedAt, halfOpenUntil := Absent, Absent, Absent, Absent, Absent;
    }

    /** The acquire script. */
    method Acquire(now: int) returns (g: Grant)
      modifies this
      ensures (Value(), g) == RedisAcquire(config, old(Value()), now)
      ensures g.state == Value().state && (g.changed <==> old(Value().state) != Value().state)
      ensures g.generation == Value().generation
      ensures Value().failures == old(Value().failures) && Value().openedAt == old(Value().openedAt)
      ensures old(Value().state).Closed? ==> g.allowed && unchanged(this)
      ensures old(Value().state).Open? ==>
        if now < old(Value().openedAt) + config.cooldown then !g.allowed && unchanged(this)
        else g.allowed && Value().state.HalfOpen?
             && Value().leaseUntil == now + config.lease && g.generation == old(Value().generation)
      ensures old(Value().state).HalfOpen? ==>
        if now < old(Value().leaseUntil) then !g.allowed && unchanged(this)
        else g.allowed && Value().state.HalfOpen?
             && Value().leaseUntil == now + config.lease && g.generation == old(Value().generation) + 1
    {
      var current := generation.Or(0);
      if state.Or(Closed) == Open {
        if now - openedAt.Or(0) < config.cooldown {
          return Grant(current, false, Open, false);
        }
        state, halfOpenUntil := Present(HalfOpen), Present(now + config.lease);
        return Grant(current, true, HalfOpen, true);
      }
      if state.Or(Closed) == HalfOpen {
        if halfOpenUntil.Or(0) > now {
          return Grant(current, false, HalfOpen, false);
        }
        current := current + 1;
        generation, halfOpenUntil := Present(current), Present(now + config.lease);
        return Grant(current, true, HalfOpen, false);
      }
      return Grant(current, true, Closed, false);
    }

    /** The complete script. */
    method Complete(permit: nat, success: bool, now: int) returns (r: Report)
      modifies this
      ensures (Value(), r) == RedisComplete(config, old(Value()), permit, success, now)
      ensures r.state == Value().state && (r.changed <==> old(Value().state) != Value().state)
      ensures permit != old(Value().generation) || old(Value().state).Open? ==> unchanged(this)
      ensures permit == old(Value().generation) && old(Value().state).HalfOpen? ==>
        && Value().generation == permit + 1
        && (if success then Value().state.Closed? && Value().failures == 0
            else Value().state.Open? && Value().openedAt == now)
      ensures permit == old(Value().generation) && old(Value().state).Closed? ==>
        && Value().failures == (if success then 0 else old(Value().failures) + 1)
        && (Value().state.Open? <==> !success && Value().failures >= config.threshold) && !Value().state.HalfOpen?
        && (Value().state.Open? ==> Value().openedAt == now)
        && Value().generation == permit + if Value().state.Open? then 1 else 0
    {
      var current := generation.Or(0);
      var s := state.Or(Closed);
      if current != permit {
        return Report(s, false);
      }
      if s == HalfOpen {
        current := current + 1;
        if success {
          state, failures, generation := Present(Closed), Present(0), Present(current);
          openedAt, halfOpenUntil := Absent, Absent;
          return Report(Closed, true);
        }
        state, openedAt, generation := Present(Open), Present(now), Present(current);
        halfOpenUntil := Absent;
        return Report(Open, true);
      }
      if s == Closed {
        if success {
          failures := Present(0);
          return Report(Closed, false);
        }
        failures := Present(failures.Or(0) + 1);
        if failures.Or(0) >= config.threshold {
          current := current + 1;
          state, openedAt, generation := Present(Open), Present(now), Present(current);
          return Report(Open, true);
        }
      }
      return Report(s, false);
    }
  }

  // ---------- bisimulation ----------

  datatype Event = Acquire(now: int) | Complete(generation: nat, success: bool, now: int)

  datatype Output = Granted(g: Grant) | Reported(r: Report)

  function MemoryStep(c: Config, b: Memory, e: Event): (Memory, Output) {
    match e
    case Acquire(now) => var (b', g) := MemoryAcquire(c, b, now); (b', Granted(g))
    case Complete(gen, ok, now) => var (b', r) := MemoryComplete(c, b, gen, ok, now); (b', Reported(r))
  }

  function RedisStep(c: Config, r: Redis, e: Event): (Redis, Output) {
    match e
    case Acquire(now) => var (r', g) := RedisAcquire(c, r, now); (r', Granted(g))
    case Complete(gen, ok, now) => var (r', p) := RedisComplete(c, r, gen, ok, now); (r', Reported(p))
  }

  function MemoryRun(c: Config, b: Memory, es: seq<Event>): (Memory, seq<Output>)
    decreases |es|
  {
    if es == [] then (b, [])
    else
      var (b1, o) := MemoryStep(c, b, es[0]);
      var (b2, os) := MemoryRun(c, b1, es[1..]);
      (b2, [o] + os)
  }

  function RedisRun(c: Config, r: Redis, es: seq<Event>): (Redis, seq<Output>)
    decreases |es|
  {
    if es == [] then (r, [])
    else
      var (r1, o) := RedisStep(c, r, es[0]);
      var (r2, os) := RedisRun(c, r1, es[1..]);
      (r2, [o] + os)
  }

  /** A sender cannot tell two answers apart: a denied acquire's generation is never used. */
  predicate SameAnswer(a: Output, b: Output) {
    match (a, b)
    case (Granted(g), Granted(h)) =>
      && g.allowed == h.allowed && g.state == h.state && g.changed == h.changed
      && (g.allowed ==> g.generation == h.generation)
    case (Reported(p), Reported(q)) => p == q
    case _ => false
  }

  predicate SameAnswers(xs: seq<Output>, ys: seq<Output>) {
    |xs| == |ys| && forall i :: 0 <= i < |xs| ==> SameAnswer(xs[i], ys[i])
  }

  /** Half-open holds exactly while a probe is in flight, and closed means below the threshold. */
  predicate MemoryInv(c: Config, b: Memory) {
    && (b.state.HalfOpen? <==> b.inFlight)
    && 0 <= b.failures
    && (b.state.Closed? ==> b.failures < c.threshold)
  }

  predicate Related(c: Config, b: Memory, r: Redis) {
    && MemoryInv(c, b)
    && b.state == r.state && b.failures == r.failures && b.generation == r.generation
    && (b.state.Open? ==> b.openedAt == r.openedAt)
  }

  /** This event acquires after the current probe's lease has run out. */
  predicate Lapses(r: Redis, e: Event) {
    e.Acquire? && r.state.HalfOpen? && r.leaseUntil <= e.now
  }

  predicate NoLapse(c: Config, r: Redis, es: seq<Event>)
    decreases |es|
  {
    es == [] || (!Lapses(r, es[0]) && NoLapse(c, RedisStep(c, r, es[0]).0, es[1..]))
  }

  lemma MemoryStepInv(c: Config, b: Memory, e: Event)
    requires c.Valid() && MemoryInv(c, b)
    ensures MemoryInv(c, MemoryStep(c, b, e).0)
  {
  }

  /**
   Over every run of the memory breaker, whatever permits its completions carry and whatever leases
   the other implementation would find lapsed: half-open holds iff a probe is in flight, and
   closed means below the threshold.
   */
  lemma {:induction false} MemoryRunInv(c: Config, b: Memory, es: seq<Event>)
    requires c.Valid() && MemoryInv(c, b)
    ensures MemoryInv(c, MemoryRun(c, b, es).0)
    decreases |es|
  {
    hide MemoryStep, MemoryInv;
    if es != [] {
      MemoryStepInv(c, b, es[0]);
      MemoryRunInv(c, MemoryStep(c, b, es[0]).0, es[1..]);
    }
  }

  /** One event is answered alike by both breakers if and only if it does not find a lapsed lease. */
  lemma StepBisimilar(c: Config, b: Memory, r: Redis, e: Event)
    requires c.Valid() && Related(c, b, r)
    ensures SameAnswer(MemoryStep(c, b, e).1, RedisStep(c, r, e).1) <==> !Lapses(r, e)
    ensures !Lapses(r, e) ==> Related(c, MemoryStep(c, b, e).0, RedisStep(c, r, e).0)
  {
  }

  /**
   The two breakers are bisimilar: over any sequence of acquires and completions,
   in any order and with any permits, they give the same answers throughout if
   and only if no acquire of the run finds a half-open lease lapsed.
   */
  lemma {:induction false} Bisimilar(c: Config, b: Memory, r: Redis, es: seq<Event>)
    requires c.Valid() && Related(c, b, r)
    ensures SameAnswers(MemoryRun(c, b, es).1, RedisRun(c, r, es).1) <==> NoLapse(c, r, es)
    ensures NoLapse(c, r, es) ==> Related(c, MemoryRun(c, b, es).0, RedisRun(c, r, es).0)
    decreases |es|
  {
    hide MemoryStep, RedisStep, Related, SameAnswer, Lapses;
    if es != [] {
      var (b1, o) := MemoryStep(c, b, es[0]);
      var (r1, p) := RedisStep(c, r, es[0]);
      var (_, os) := MemoryRun(c, b1, es[1..]);
      var (_, ps) := RedisRun(c, r1, es[1..]);
      StepBisimilar(c, b, r, es[0]);
      assert ([o] + os)[0] == o && ([p] + ps)[0] == p;
      if !Lapses(r, es[0]) {
        Bisimilar(c, b1, r1, es[1..]);
        SameAnswersCons(o, os, p, ps);
      }
    }
  }

  lemma SameAnswersCons(o: Output, os: seq<Output>, p: Output, ps: seq<Output>)
    ensures SameAnswers([o] + os, [p] + ps) <==> SameAnswer(o, p) && SameAnswers(os, ps)
  {
    var xs, ys := [o] + os, [p] + ps;
    if SameAnswers(xs, ys) {
      assert SameAnswer(xs[0], ys[0]);
      forall i | 0 <= i < |os|
        ensures SameAnswer(os[i], ps[i])
      {
        assert SameAnswer(xs[i + 1], ys[i + 1]);
      }
    }
  }

  lemma InitiallyRelated(c: Config)
    requires c.Valid()
    ensures Related(c, NEW_MEMORY, NEW_REDIS)
  {
  }

  /** From the start, the two breakers give the same answers throughout exactly if no lease lapses. */
  lemma BisimilarFromStart(c: Config, es: seq<Event>)
    requires c.Valid()
    ensures SameAnswers(MemoryRun(c, NEW_MEMORY, es).1, RedisRun(c, NEW_REDIS, es).1) <==> NoLapse(c, NEW_REDIS, es)
  {
    InitiallyRelated(c);
    Bisimilar(c, NEW_MEMORY, NEW_REDIS, es);
  }

  // ---------- a run in which a lease lapses ----------

  /** Events at times that do not decrease. */
  predicate Ordered(es: seq<Event>) {
    forall i, j :: 0 <= i < j < |es| ==> es[i].now <= es[j].now
  }

  /** The probe's acquire and the one after its lease. */
  function ProbeAndLapse(c: Config, t: int): seq<Event> {
    [Acquire(t + c.cooldown), Acquire(t + c.cooldown + if c.lease < 0 then 0 else c.lease)]
  }

  lemma OpenThenLapse(c: Config, r: Redis, t: int)
    requires r.state.Open? && r.openedAt == t
    ensures !NoLapse(c, r, ProbeAndLapse(c, t))
  {
    var es := ProbeAndLapse(c, t);
    var r1 := RedisStep(c, r, es[0]).0;
    assert Lapses(r1, es[1]);
    assert es[1..] == [es[1]];
  }

  /** A sender asks at time t and its send fails. */
  function FailedSend(r: Redis, t: int): seq<Event> {
    [Acquire(t), Complete(r.generation, false, t)]
  }

  lemma AfterFailedSend(c: Config, r: Redis, t: int, rest: seq<Event>)
    requires r.state.Closed? && !NoLapse(c, RedisComplete(c, r, r.generation, false, t).0, rest)
    ensures !NoLapse(c, r, FailedSend(r, t) + rest)
  {
    var es := FailedSend(r, t) + rest;
    assert es[1..][1..] == rest;
    assert RedisStep(c, r, es[0]).0 == r;
  }

  lemma {:induction false} TripAndLapse(c: Config, r: Redis, t: int) returns (es: seq<Event>)
    requires c.Valid() && r.state.Closed? && r.failures < c.threshold
    ensures !NoLapse(c, r, es) && Ordered(es) && forall i :: 0 <= i < |es| ==> t <= es[i].now
    decreases c.threshold - r.failures
  {
    hide NoLapse;
    var r1 := RedisComplete(c, r, r.generation, false, t).0;
    var rest;
    if r1.state.Open? {
      rest := ProbeAndLapse(c, t);
      OpenThenLapse(c, r1, t);
    } else {
      rest := TripAndLapse(c, r1, t);
    }
    AfterFailedSend(c, r, t, rest);
    es := FailedSend(r, t) + rest;
  }

  /**
   Leases do lapse, whatever the settings: failed sends up to the threshold, a probe after the cooldown
   and an acquire after its lease make a run that the two breakers answer differently.
   */
  lemma LapseIsReachable(c: Config, t: int) returns (es: seq<Event>)
    requires c.Valid()
    ensures Ordered(es) && !SameAnswers(MemoryRun(c, NEW_MEMORY, es).1, RedisRun(c, NEW_REDIS, es).1)
  {
    hide NoLapse, SameAnswers, MemoryRun, RedisRun;
    es := TripAndLapse(c, NEW_REDIS, t);
    BisimilarFromStart(c, es);
  }
}
