/**
 Whole runs of the shared Redis circuit: which permits are out, what a late
 completion can do, how many probes there are, when the circuit trips, and why it
 can never get stuck.
 */
module BreakerRuns {
  import opened Breaker

  /** A permit a sender holds: its generation, whether it is a half-open probe, and when it was granted. */
  datatype Permit = Permit(generation: nat, probe: bool, at: int)

  /** The circuit, the permits out, the clock, and the completions accepted since the circuit last closed. */
  datatype Pool = Pool(circuit: Redis, permits: map<nat, Permit>, clock: int, streak: seq<bool>)

  /** Senders ask for a permit under a fresh id, complete one, or crash and lose it. */
  datatype Move =
    | Ask(id: nat, now: int)
    | Done(id: nat, success: bool, now: int)
    | Lose(id: nat, now: int)

  predicate Enabled(p: Pool, e: Move) {
    p.clock <= e.now && (if e.Ask? then e.id !in p.permits else e.id in p.permits)
  }

  predicate Granted(c: Config, p: Pool, now: int) {
    RedisAcquire(c, p.circuit, now).1.allowed
  }

  function Next(c: Config, p: Pool, e: Move): Pool
    requires Enabled(p, e)
  {
    match e
    case Ask(id, now) =>
      var (r, g) := RedisAcquire(c, p.circuit, now);
      var permits := if g.allowed then p.permits[id := Permit(g.generation, g.state.HalfOpen?, now)] else p.permits;
      Pool(r, permits, now, p.streak)
    case Done(id, success, now) =>
      var gen := p.permits[id].generation;
      var (r, _) := RedisComplete(c, p.circuit, gen, success, now);
      var streak :=
        if gen != p.circuit.generation || p.circuit.state.Open? then p.streak
        else if p.circuit.state.Closed? then p.streak + [success]
        else [];
      Pool(r, p.permits - {id}, now, streak)
    case Lose(id, now) => p.(permits := p.permits - {id}, clock := now)
  }

  predicate Run(c: Config, p: Pool, es: seq<Move>, p': Pool)
    decreases |es|
  {
    if es == [] then p == p'
    else Enabled(p, es[0]) && Run(c, Next(c, p, es[0]), es[1..], p')
  }

  function Start(now: int): Pool {
    Pool(NEW_REDIS, map[], now, [])
  }

  // ---------- permits and generations ----------

  predicate Current(p: Pool, i: nat) {
    i in p.permits && p.permits[i].generation == p.circuit.generation
  }

  /** Permits are never ahead of the circuit; none is current while open; one at most is while half-open. */
  ghost predicate PermitsOk(p: Pool) {
    && (forall i :: i in p.permits ==> p.permits[i].generation <= p.circuit.generation)
    && (p.circuit.state.Open? ==> forall i :: i in p.permits ==> p.permits[i].generation != p.circuit.generation)
    && (p.circuit.state.HalfOpen? ==>
          forall i, j :: Current(p, i) && Current(p, j) ==> i == j)
  }

  ghost predicate TimesOk(c: Config, p: Pool) {
    && (p.circuit.state.Open? ==> p.circuit.openedAt <= p.clock)
    && (p.circuit.state.HalfOpen? ==> p.circuit.leaseUntil <= p.clock + c.lease)
  }

  /** The failure count is the number of failures since the last accepted success. */
  ghost predicate StreakOk(c: Config, p: Pool) {
    p.circuit.state.Closed? ==> p.circuit.failures == Trailing(p.streak) < c.threshold
  }

  ghost predicate Inv(c: Config, p: Pool) {
    PermitsOk(p) && TimesOk(c, p) && StreakOk(c, p)
  }

  function Trailing(s: seq<bool>): nat {
    if s == [] || s[|s| - 1] then 0 else 1 + Trailing(s[..|s| - 1])
  }

  lemma StepInv(c: Config, p: Pool, e: Move)
    requires c.Valid() && Inv(c, p) && Enabled(p, e)
    ensures Inv(c, Next(c, p, e))
  {
    var p' := Next(c, p, e);
    forall i, j | p'.circuit.state.HalfOpen? && Current(p', i) && Current(p', j)
      ensures i == j
    {
      assert i in p.permits && j in p.permits && p.circuit == p'.circuit ==> Current(p, i) && Current(p, j);
    }
    if e.Done? {
      assert (p.streak + [e.success])[..|p.streak|] == p.streak;
    }
  }

  lemma {:induction false} RunInv(c: Config, p: Pool, es: seq<Move>, p': Pool)
    requires c.Valid() && Inv(c, p) && Run(c, p, es, p')
    ensures Inv(c, p') && p.clock <= p'.clock && p.circuit.generation <= p'.circuit.generation
    decreases |es|
  {
    hide Inv;
    if es != [] {
      StepInv(c, p, es[0]);
      RunInv(c, Next(c, p, es[0]), es[1..], p');
    }
  }

  /**
   Stale isolation. A permit that was out when the circuit was open, or that the
   circuit's generation has passed, can never again change the circuit: whatever
   happens in between, completing it has no effect.
   */
  lemma StaleForever(c: Config, p: Pool, es: seq<Move>, p': Pool, i: nat, success: bool, now: int)
    requires c.Valid() && Inv(c, p) && Run(c, p, es, p')
    requires i in p.permits && (p.circuit.state.Open? || !Current(p, i))
    requires i in p'.permits && p'.permits[i] == p.permits[i]
    ensures RedisComplete(c, p'.circuit, p'.permits[i].generation, success, now)
         == (p'.circuit, Report(p'.circuit.state, false))
  {
    RunInv(c, p, es, p');
  }

  /** In every reachable state: no permit is ahead, none is current while open, at most one while half-open. */
  lemma SingleCurrentProbe(c: Config, t: int, es: seq<Move>, p: Pool, i: nat, j: nat)
    requires c.Valid() && Run(c, Start(t), es, p) && i in p.permits && j in p.permits
    ensures p.permits[i].generation <= p.circuit.generation
    ensures p.circuit.state.Open? ==> !Current(p, i)
    ensures p.circuit.state.HalfOpen? && Current(p, i) && Current(p, j) ==> i == j
  {
    RunInv(c, Start(t), es, p);
  }

  // ---------- probes ----------

  /** Every probe that is out belongs to the current half-open episode and its lease. */
  ghost predicate ProbesOk(c: Config, p: Pool) {
    forall i :: i in p.permits && p.permits[i].probe ==>
      p.circuit.state.HalfOpen? && Current(p, i) && p.circuit.leaseUntil == p.permits[i].at + c.lease
  }

  /** At this move, no probe that is out has outlived its lease. */
  ghost predicate Prompt(c: Config, p: Pool, e: Move) {
    forall i :: i in p.permits && p.permits[i].probe ==> e.now < p.permits[i].at + c.lease
  }

  ghost predicate PromptRun(c: Config, p: Pool, es: seq<Move>)
    decreases |es|
  {
    es == [] || (Enabled(p, es[0]) && Prompt(c, p, es[0]) && PromptRun(c, Next(c, p, es[0]), es[1..]))
  }

  lemma StepProbes(c: Config, p: Pool, e: Move)
    requires c.Valid() && Inv(c, p) && ProbesOk(c, p) && Enabled(p, e) && Prompt(c, p, e)
    ensures ProbesOk(c, Next(c, p, e))
  {
    var p' := Next(c, p, e);
    forall i | i in p'.permits && p'.permits[i].probe && i in p.permits && p.permits[i] == p'.permits[i]
      ensures p'.circuit == p.circuit
    {
      assert Current(p, i);
      assert e.Done? ==> !Current(p, e.id);
    }
  }

  lemma {:induction false} RunProbes(c: Config, p: Pool, es: seq<Move>, p': Pool)
    requires c.Valid() && Inv(c, p) && ProbesOk(c, p) && Run(c, p, es, p') && PromptRun(c, p, es)
    ensures Inv(c, p') && ProbesOk(c, p')
    decreases |es|
  {
    hide Inv, ProbesOk, Prompt, Next;
    if es != [] {
      StepInv(c, p, es[0]);
      StepProbes(c, p, es[0]);
      RunProbes(c, Next(c, p, es[0]), es[1..], p');
    }
  }

  /** If every probe ends within its lease, two probes are never out at once. */
  lemma ProbesNeverOverlap(c: Config, t: int, es: seq<Move>, p: Pool, i: nat, j: nat)
    requires c.Valid() && Run(c, Start(t), es, p) && PromptRun(c, Start(t), es)
    requires i in p.permits && p.permits[i].probe && j in p.permits && p.permits[j].probe
    ensures i == j
  {
    RunProbes(c, Start(t), es, p);
  }

  /** While a probe is out, another permit is granted exactly when the probe has outlived its lease. */
  lemma SecondProbeIffLapsed(c: Config, t: int, es: seq<Move>, p: Pool, i: nat, now: int)
    requires c.Valid() && Run(c, Start(t), es, p) && PromptRun(c, Start(t), es)
    requires i in p.permits && p.permits[i].probe
    ensures Granted(c, p, now) <==> p.permits[i].at + c.lease <= now
  {
    RunProbes(c, Start(t), es, p);
  }

  // ---------- tripping and recovering ----------

  predicate LastFailed(s: seq<bool>, n: nat) {
    n <= |s| && forall i :: |s| - n <= i < |s| ==> !s[i]
  }

  lemma {:induction false} TrailingIsLastFailed(s: seq<bool>, n: nat)
    ensures Trailing(s) >= n <==> LastFailed(s, n)
  {
    if n > 0 && s != [] && !s[|s| - 1] {
      var t := s[..|s| - 1];
      TrailingIsLastFailed(t, n - 1);
      if LastFailed(t, n - 1) {
        assert forall i :: |s| - n <= i < |s| - 1 ==> t[i] == s[i];
      }
      if LastFailed(s, n) {
        assert forall i :: |t| - (n - 1) <= i < |t| ==> t[i] == s[i];
      }
    }
  }

  /**
   A closed circuit opens exactly when a completion is accepted that makes the last
   `threshold` completions accepted since it closed all failures; nothing else moves it.
   */
  lemma TripsExactly(c: Config, t: int, es: seq<Move>, p: Pool, e: Move)
    requires c.Valid() && Run(c, Start(t), es, p) && Enabled(p, e) && p.circuit.state.Closed?
    ensures p.circuit.failures < c.threshold
    ensures Next(c, p, e).circuit.state.Open? <==>
              e.Done? && Current(p, e.id) && LastFailed(p.streak + [e.success], c.threshold)
    ensures Next(c, p, e).circuit.state.Open? || Next(c, p, e).circuit.state.Closed?
  {
    RunInv(c, Start(t), es, p);
    if e.Done? {
      TrailingIsLastFailed(p.streak + [e.success], c.threshold);
      assert (p.streak + [e.success])[..|p.streak|] == p.streak;
    }
  }

  /** The completions that a memory breaker has accepted since it last closed, after one more event. */
  function Accepted(b: Memory, streak: seq<bool>, e: Event): seq<bool> {
    if e.Acquire? || e.generation != b.generation || b.state.Open? then streak
    else if b.state.Closed? then streak + [e.success]
    else []
  }

  function AcceptedInRun(c: Config, b: Memory, streak: seq<bool>, es: seq<Event>): seq<bool>
    decreases |es|
  {
    if es == [] then streak else AcceptedInRun(c, MemoryStep(c, b, es[0]).0, Accepted(b, streak, es[0]), es[1..])
  }

  ghost predicate MemoryStreakOk(c: Config, b: Memory, streak: seq<bool>) {
    MemoryInv(c, b) && (b.state.Closed? ==> b.failures == Trailing(streak))
  }

  lemma MemoryStreakStep(c: Config, b: Memory, streak: seq<bool>, e: Event)
    requires c.Valid() && MemoryStreakOk(c, b, streak)
    ensures MemoryStreakOk(c, MemoryStep(c, b, e).0, Accepted(b, streak, e))
  {
    MemoryStepInv(c, b, e);
    if e.Complete? {
      assert (streak + [e.success])[..|streak|] == streak;
    }
  }

  lemma {:induction false} MemoryStreakRun(c: Config, b: Memory, streak: seq<bool>, es: seq<Event>)
    requires c.Valid() && MemoryStreakOk(c, b, streak)
    ensures MemoryStreakOk(c, MemoryRun(c, b, es).0, AcceptedInRun(c, b, streak, es))
    decreases |es|
  {
    hide MemoryStep, MemoryStreakOk, Accepted;
    if es != [] {
      MemoryStreakStep(c, b, streak, es[0]);
      MemoryStreakRun(c, MemoryStep(c, b, es[0]).0, Accepted(b, streak, es[0]), es[1..]);
    }
  }

  /** The memory breaker trips on exactly the same condition, after every run of events. */
  lemma MemoryTripsExactly(c: Config, es: seq<Event>, e: Event)
    requires c.Valid() && MemoryRun(c, NEW_MEMORY, es).0.state.Closed?
    ensures var b, streak := MemoryRun(c, NEW_MEMORY, es).0, AcceptedInRun(c, NEW_MEMORY, [], es);
      var next := MemoryStep(c, b, e).0.state;
      && b.failures < c.threshold
      && (next.Open? <==> e.Complete? && e.generation == b.generation && LastFailed(streak + [e.success], c.threshold))
      && (next.Open? || next.Closed?)
  {
    var b, streak := MemoryRun(c, NEW_MEMORY, es).0, AcceptedInRun(c, NEW_MEMORY, [], es);
    MemoryStreakRun(c, NEW_MEMORY, [], es);
    hide MemoryRun, AcceptedInRun;
    if e.Complete? {
      TrailingIsLastFailed(streak + [e.success], c.threshold);
      assert (streak + [e.success])[..|streak|] == streak;
    }
  }

  // ---------- when a permit is granted ----------

  /** The last move of a run. */
  lemma {:induction false} RunLast(c: Config, p: Pool, es: seq<Move>, p': Pool) returns (q: Pool)
    requires es != [] && Run(c, p, es, p')
    ensures Run(c, p, es[..|es| - 1], q) && Enabled(q, es[|es| - 1]) && p' == Next(c, q, es[|es| - 1])
    decreases |es|
  {
    hide Next, Enabled;
    var rest := es[1..];
    if rest == [] {
      q := p;
      assert es[..0] == [];
    } else {
      q := RunLast(c, Next(c, p, es[0]), rest, p');
      assert es[..|es| - 1][1..] == rest[..|rest| - 1];
    }
  }

  /** The circuit is in this state after every move of the run. */
  ghost predicate Remains(c: Config, p: Pool, es: seq<Move>, state: Circuit)
    decreases |es|
  {
    p.circuit.state == state && (es == [] || (Enabled(p, es[0]) && Remains(c, Next(c, p, es[0]), es[1..], state)))
  }

  lemma {:induction false} RemainsSnoc(c: Config, p: Pool, es: seq<Move>, q: Pool, e: Move, state: Circuit)
    requires Remains(c, p, es, state) && Run(c, p, es, q) && Enabled(q, e) && Next(c, q, e).circuit.state == state
    ensures Remains(c, p, es + [e], state) && Run(c, p, es + [e], Next(c, q, e))
    decreases |es|
  {
    hide Next, Enabled;
    if es == [] {
      assert es + [e] == [e] && [e][1..] == [];
      assert Run(c, Next(c, q, e), [], Next(c, q, e)) && Remains(c, Next(c, q, e), [], state);
    } else {
      RemainsSnoc(c, Next(c, p, es[0]), es[1..], q, e, state);
      assert (es + [e])[1..] == es[1..] + [e];
    }
  }

  /** Move e, made in state q, is a failed completion that is accepted and opens the circuit. */
  predicate Opens(c: Config, q: Pool, e: Move) {
    && Enabled(q, e) && e.Done? && !e.success && Current(q, e.id)
    && !q.circuit.state.Open? && Next(c, q, e).circuit.state.Open?
  }

  /** An open circuit was opened by the i-th move of the run, made in state q, and is open ever since. */
  ghost predicate OpenSince(c: Config, start: Pool, es: seq<Move>, p: Pool, i: nat, q: Pool) {
    && i < |es| && Run(c, start, es[..i], q) && Enabled(q, es[i]) && Opens(c, q, es[i])
    && Run(c, Next(c, q, es[i]), es[i + 1..], p) && Remains(c, Next(c, q, es[i]), es[i + 1..], Open)
  }

  lemma OpenStep(c: Config, q: Pool, e: Move)
    requires Enabled(q, e) && Next(c, q, e).circuit.state.Open?
    ensures if q.circuit.state.Open? then Next(c, q, e).circuit.openedAt == q.circuit.openedAt
            else Opens(c, q, e) && Next(c, q, e).circuit.openedAt == e.now
  {
  }

  lemma {:induction false} OpenedBy(c: Config, start: Pool, es: seq<Move>, p: Pool) returns (i: nat, q: Pool)
    requires Run(c, start, es, p) && !start.circuit.state.Open? && p.circuit.state.Open?
    ensures OpenSince(c, start, es, p, i, q) && p.circuit.openedAt == es[i].now
    decreases |es|
  {
    hide Next, Enabled, Opens;
    var init, last := es[..|es| - 1], es[|es| - 1];
    var q1 := RunLast(c, start, es, p);
    OpenStep(c, q1, last);
    if q1.circuit.state.Open? {
      i, q := OpenedBy(c, start, init, q1);
      assert init[i] == es[i];
      RemainsSnoc(c, Next(c, q, es[i]), init[i + 1..], q1, last, Open);
      assert init[..i] == es[..i];
      assert init[i + 1..] + [last] == es[i + 1..];
    } else {
      i, q := |es| - 1, q1;
      assert es[i + 1..] == [];
    }
  }

  /** Move e, made in state q, is an acquire that is granted a probe. */
  predicate Probes(c: Config, q: Pool, e: Move) {
    Enabled(q, e) && e.Ask? && Granted(c, q, e.now) && Next(c, q, e).circuit.state.HalfOpen?
  }

  /** No move of the run is granted a probe. */
  ghost predicate NoProbe(c: Config, p: Pool, es: seq<Move>)
    decreases |es|
  {
    es == [] || (Enabled(p, es[0]) && !Probes(c, p, es[0]) && NoProbe(c, Next(c, p, es[0]), es[1..]))
  }

  lemma {:induction false} NoProbeSnoc(c: Config, p: Pool, es: seq<Move>, q: Pool, e: Move)
    requires NoProbe(c, p, es) && Run(c, p, es, q) && Enabled(q, e) && !Probes(c, q, e)
    ensures NoProbe(c, p, es + [e]) && Run(c, p, es + [e], Next(c, q, e))
    decreases |es|
  {
    hide Next, Enabled, Probes;
    if es == [] {
      assert es + [e] == [e] && [e][1..] == [];
      assert Run(c, Next(c, q, e), [], Next(c, q, e)) && NoProbe(c, Next(c, q, e), []);
    } else {
      NoProbeSnoc(c, Next(c, p, es[0]), es[1..], q, e);
      assert (es + [e])[1..] == es[1..] + [e];
    }
  }

  /** The i-th move, made in state q, was granted the last probe of the run. */
  ghost predicate ProbedLast(c: Config, start: Pool, es: seq<Move>, p: Pool, i: nat, q: Pool) {
    && i < |es| && Run(c, start, es[..i], q) && Enabled(q, es[i]) && Probes(c, q, es[i])
    && Run(c, Next(c, q, es[i]), es[i + 1..], p) && NoProbe(c, Next(c, q, es[i]), es[i + 1..])
  }

  lemma HalfOpenStep(c: Config, q: Pool, e: Move)
    requires Enabled(q, e) && Next(c, q, e).circuit.state.HalfOpen?
    ensures if Probes(c, q, e) then Next(c, q, e).circuit.leaseUntil == e.now + c.lease
            else q.circuit.state.HalfOpen? && Next(c, q, e).circuit.leaseUntil == q.circuit.leaseUntil
  {
  }

  lemma {:induction false} ProbedBy(c: Config, start: Pool, es: seq<Move>, p: Pool) returns (i: nat, q: Pool)
    requires Run(c, start, es, p) && !start.circuit.state.HalfOpen? && p.circuit.state.HalfOpen?
    ensures ProbedLast(c, start, es, p, i, q) && p.circuit.leaseUntil == es[i].now + c.lease
    decreases |es|
  {
    hide Next, Enabled, Probes;
    var init, last := es[..|es| - 1], es[|es| - 1];
    var q1 := RunLast(c, start, es, p);
    HalfOpenStep(c, q1, last);
    if Probes(c, q1, last) {
      i, q := |es| - 1, q1;
      assert es[i + 1..] == [];
    } else {
      i, q := ProbedBy(c, start, init, q1);
      assert init[i] == es[i];
      NoProbeSnoc(c, Next(c, q, es[i]), init[i + 1..], q1, last);
      assert init[..i] == es[..i];
      assert init[i + 1..] + [last] == es[i + 1..];
    }
  }

  /**
   Exactly when a permit is granted, in every reachable state. A closed circuit always grants. An open one
   was opened by an accepted failure and grants iff the cooldown has passed since. A half-open
   one has granted a probe and grants another iff the lease of the last one has passed.
   */
  lemma GrantedExactly(c: Config, t: int, es: seq<Move>, p: Pool, now: int) returns (i: nat, q: Pool)
    requires Run(c, Start(t), es, p)
    ensures p.circuit.state.Closed? ==> Granted(c, p, now)
    ensures p.circuit.state.Open? ==>
      OpenSince(c, Start(t), es, p, i, q) && (Granted(c, p, now) <==> es[i].now + c.cooldown <= now)
    ensures p.circuit.state.HalfOpen? ==>
      ProbedLast(c, Start(t), es, p, i, q) && (Granted(c, p, now) <==> es[i].now + c.lease <= now)
  {
    hide Run, OpenSince, ProbedLast;
    match p.circuit.state
    case Closed => i, q := 0, p;
    case Open => i, q := OpenedBy(c, Start(t), es, p);
    case HalfOpen => i, q := ProbedBy(c, Start(t), es, p);
  }

  /**
   What a probe decides: an accepted completion in half-open closes the circuit with no failures on record
   iff it succeeded, and otherwise opens it from then on; all other permits are stale afterwards.
   */
  lemma ProbeDecides(c: Config, t: int, es: seq<Move>, p: Pool, e: Move)
    requires c.Valid() && Run(c, Start(t), es, p) && p.circuit.state.HalfOpen?
    requires Enabled(p, e) && e.Done? && Current(p, e.id)
    ensures var p' := Next(c, p, e);
      && (p'.circuit.state.Closed? <==> e.success) && (p'.circuit.state.Open? <==> !e.success)
      && (e.success ==> p'.circuit.failures == 0 && p'.streak == [])
      && (!e.success ==> p'.circuit.openedAt == e.now)
      && forall j :: j in p'.permits ==> !Current(p', j)
  {
    RunInv(c, Start(t), es, p);
  }

  // ---------- the same for the memory breaker ----------

  lemma {:induction false} MemoryRunSnoc(c: Config, b: Memory, es: seq<Event>, e: Event)
    ensures MemoryRun(c, b, es + [e]).0 == MemoryStep(c, MemoryRun(c, b, es).0, e).0
    decreases |es|
  {
    hide MemoryStep;
    if es == [] {
      assert es + [e] == [e] && [e][1..] == [];
    } else {
      MemoryRunSnoc(c, MemoryStep(c, b, es[0]).0, es[1..], e);
      assert (es + [e])[1..] == es[1..] + [e];
    }
  }

  /** Event e is a failed completion that breaker b accepts and that opens it. */
  predicate MemoryOpens(c: Config, b: Memory, e: Event) {
    && e.Complete? && !e.success && e.generation == b.generation
    && !b.state.Open? && MemoryStep(c, b, e).0.state.Open?
  }

  /** The breaker was opened by the i-th event of the run and is open ever since. */
  ghost predicate MemoryOpenSince(c: Config, es: seq<Event>, i: nat) {
    && i < |es| && MemoryOpens(c, MemoryRun(c, NEW_MEMORY, es[..i]).0, es[i])
    && forall j :: i < j <= |es| ==> MemoryRun(c, NEW_MEMORY, es[..j]).0.state.Open?
  }

  lemma MemoryOpenStep(c: Config, b: Memory, e: Event)
    requires MemoryStep(c, b, e).0.state.Open?
    ensures if b.state.Open? then MemoryStep(c, b, e).0.openedAt == b.openedAt
            else MemoryOpens(c, b, e) && MemoryStep(c, b, e).0.openedAt == e.now
  {
  }

  lemma {:induction false} MemoryOpenedBy(c: Config, es: seq<Event>) returns (i: nat)
    requires MemoryRun(c, NEW_MEMORY, es).0.state.Open?
    ensures MemoryOpenSince(c, es, i) && MemoryRun(c, NEW_MEMORY, es).0.openedAt == es[i].now
    decreases |es|
  {
    hide MemoryStep, MemoryOpens;
    var init, last := es[..|es| - 1], es[|es| - 1];
    assert es == init + [last] && es[..|es|] == es;
    var b := MemoryRun(c, NEW_MEMORY, init).0;
    MemoryRunSnoc(c, NEW_MEMORY, init, last);
    MemoryOpenStep(c, b, last);
    hide MemoryRun;
    if b.state.Open? {
      i := MemoryOpenedBy(c, init);
      assert forall j :: 0 <= j <= |init| ==> init[..j] == es[..j];
    } else {
      i := |es| - 1;
    }
  }

  /**
   Exactly when the memory breaker grants, after every run of events: closed always; open iff the
   cooldown has passed since the accepted failure that opened it; half-open never, as its probe is out.
   */
  lemma MemoryGrantsExactly(c: Config, es: seq<Event>, now: int) returns (i: nat)
    requires c.Valid()
    ensures var b := MemoryRun(c, NEW_MEMORY, es).0; var granted := MemoryAcquire(c, b, now).1.allowed;
      && (b.state.Closed? ==> granted)
      && (b.state.Open? ==> MemoryOpenSince(c, es, i) && (granted <==> es[i].now + c.cooldown <= now))
      && (b.state.HalfOpen? ==> !granted)
  {
    MemoryRunInv(c, NEW_MEMORY, es);
    hide MemoryRun, MemoryOpenSince;
    i := 0;
    if MemoryRun(c, NEW_MEMORY, es).0.state.Open? {
      i := MemoryOpenedBy(c, es);
    }
  }

  /** And what a probe decides there. */
  lemma MemoryProbeDecides(c: Config, es: seq<Event>, e: Event)
    requires c.Valid() && e.Complete?
    requires var b := MemoryRun(c, NEW_MEMORY, es).0; b.state.HalfOpen? && e.generation == b.generation
    ensures var b' := MemoryRun(c, NEW_MEMORY, es + [e]).0;
      && (b'.state.Closed? <==> e.success) && (b'.state.Open? <==> !e.success) && !b'.inFlight
      && (e.success ==> b'.failures == 0)
      && (!e.success ==> b'.openedAt == e.now)
      && b'.generation == e.generation + 1
  {
    MemoryRunSnoc(c, NEW_MEMORY, es, e);
    hide MemoryRun;
  }

  /** Never stuck: once cooldown and lease have passed, the next acquire is granted, even if every permit was lost. */
  lemma NeverStuck(c: Config, t: int, es: seq<Move>, p: Pool, now: int)
    requires c.Valid() && Run(c, Start(t), es, p)
    requires p.clock + c.cooldown <= now && p.clock + c.lease <= now
    ensures Granted(c, p, now)
  {
    RunInv(c, Start(t), es, p);
  }
}
