/** The round-robin sender on top of the circuit breakers. */
module Sender {
  import opened Breaker
  import opened Arithmetic

  /** One more than the largest uint64. */
  const WORD: nat := 0x1_0000_0000_0000_0000

  datatype Outcome = AllUnavailable | Attempted(provider: nat, ok: bool)

  /** The provider looked at in step `offset` of a send whose cursor value is `start`; uint64 addition wraps. */
  function Visit(start: nat, offset: nat, n: nat): (i: nat)
    requires 0 < n
    ensures i < n
  {
    VisitIn(WORD, start, offset, n)
  }

  function VisitIn(word: nat, start: nat, offset: nat, n: nat): (i: nat)
    requires 0 < n && 0 < word
    ensures i < n
  {
    (start + offset) % word % n
  }

  lemma FirstVisit(start: nat, n: nat)
    requires 0 < n && start < WORD
    ensures Visit(start, 0, n) == start % n
  {
  }

  /** A denied acquire leaves the circuit as it was. */
  lemma DeniedUnchanged(c: Config, b: Memory, now: int)
    requires MemoryInv(c, b) && !MemoryAcquire(c, b, now).1.allowed
    ensures MemoryAcquire(c, b, now).0 == b
  {
  }

  /** The circuit after it granted a permit, the provider was tried, and the permit was completed. */
  function Tried(c: Config, b: Memory, asked: int, ok: bool, done: int): Memory {
    var (b1, g) := MemoryAcquire(c, b, asked);
    MemoryComplete(c, b1, g.generation, ok, done).0
  }

  lemma TriedInv(c: Config, b: Memory, asked: int, ok: bool, done: int)
    requires c.Valid() && MemoryInv(c, b)
    ensures MemoryInv(c, Tried(c, b, asked, ok, done))
  {
  }

  /** What a completed attempt leaves behind. */
  lemma TriedMeans(c: Config, b: Memory, asked: int, ok: bool, done: int)
    requires c.Valid() && MemoryInv(c, b) && MemoryAcquire(c, b, asked).1.allowed
    ensures var t := Tried(c, b, asked, ok, done);
      && !t.inFlight
      && (ok ==> t.state.Closed? && t.failures == 0)
      && t.generation == b.generation + (if t.state.Closed? && b.state.Closed? then 0 else 1)
      && (!ok && b.state.Closed? ==> t.failures == b.failures + 1 && (t.state.Open? <==> b.failures + 1 >= c.threshold))
      && (!ok && !b.state.Closed? ==> t.state.Open?)
      && (t.state.Open? ==> t.openedAt == done)
      && !t.state.HalfOpen?
  {
  }

  /** Ask one provider's circuit for a permit and, if it is granted, try the provider and complete the permit. */
  method TryProvider(b: CircuitBreaker, asked: int, ok: bool, doneAt: int) returns (granted: bool)
    requires b.config.Valid() && MemoryInv(b.config, b.Value())
    modifies b
    ensures granted <==> MemoryAcquire(b.config, old(b.Value()), asked).1.allowed
    ensures !granted ==> b.Value() == old(b.Value())
    ensures granted ==> b.Value() == Tried(b.config, old(b.Value()), asked, ok, doneAt)
    ensures MemoryInv(b.config, b.Value())
  {
    ghost var before := b.Value();
    var g := b.Acquire(asked);
    granted := g.allowed;
    if granted {
      var _ := b.Complete(g.generation, ok, doneAt);
      TriedInv(b.config, before, asked, ok, doneAt);
    } else {
      DeniedUnchanged(b.config, before, asked);
    }
  }

  class RoundRobinSender {
    const breakers: seq<CircuitBreaker>
    const config: Config
    var cursor: nat

    ghost predicate Valid()
      reads this, breakers
    {
      && config.Valid() && 0 < |breakers| && cursor < WORD
      && (forall i, j :: 0 <= i < j < |breakers| ==> breakers[i] != breakers[j])
      && (forall i :: 0 <= i < |breakers| ==>
            breakers[i].config == config && MemoryInv(config, breakers[i].Value()))
    }

    constructor (breakers: seq<CircuitBreaker>, config: Config)
      requires config.Valid() && 0 < |breakers|
      requires forall i, j :: 0 <= i < j < |breakers| ==> breakers[i] != breakers[j]
      requires forall i :: 0 <= i < |breakers| ==> breakers[i].config == config && breakers[i].Value() == NEW_MEMORY
      ensures Valid() && cursor == 0 && this.breakers == breakers
    {
      this.breakers, this.config, cursor := breakers, config, 0;
    }

    /** Provider i would be granted a permit at this time. */
    ghost predicate Grants(i: nat, now: int)
      reads this, breakers
      requires i < |breakers|
    {
      MemoryAcquire(config, breakers[i].Value(), now).1.allowed
    }

    /**
     `Send`. At most one provider is tried: the first one in visiting order that
     grants a permit, and its permit is completed. Every other circuit is left as it
     was. Nobody is tried exactly if every visited circuit denies.
     */
    method Send(times: nat -> int, ok: bool, doneAt: int) returns (r: Outcome, ghost at: nat)
      requires Valid()
      modifies this`cursor, breakers
      ensures Valid() && cursor == (old(cursor) + 1) % WORD
      ensures var n := |breakers|;
        r.AllUnavailable? <==> forall o :: 0 <= o < n ==> !old(Grants(Visit(cursor, o, n), times(o)))
      ensures r.AllUnavailable? ==> forall j :: 0 <= j < |breakers| ==> breakers[j].Value() == old(breakers[j].Value())
      ensures r.Attempted? ==>
        var n := |breakers|;
        && r.ok == ok && at < n && r.provider == Visit(old(cursor), at, n)
        && old(Grants(r.provider, times(at)))
        && (forall o :: 0 <= o < at ==> !old(Grants(Visit(cursor, o, n), times(o))))
        && breakers[r.provider].Value() == Tried(config, old(breakers[r.provider].Value()), times(at), ok, doneAt)
        && (forall j :: 0 <= j < n && j != r.provider ==> breakers[j].Value() == old(breakers[j].Value()))
      // the permit has been completed: no probe is left in flight, and the circuit knows the answer
      ensures r.Attempted? ==> !breakers[r.provider].halfOpenInFlight && !breakers[r.provider].state.HalfOpen?
      ensures r.Attempted? && ok ==> breakers[r.provider].state.Closed? && breakers[r.provider].failures == 0
      ensures r.Attempted? && !ok && old(breakers[r.provider].state.Closed?) ==>
        && breakers[r.provider].failures == old(breakers[r.provider].failures) + 1
        && (breakers[r.provider].state.Open? <==> breakers[r.provider].failures >= config.threshold)
      ensures r.Attempted? && !ok && !old(breakers[r.provider].state.Closed?) ==> breakers[r.provider].state.Open?
      ensures r.Attempted? && breakers[r.provider].state.Open? ==> breakers[r.provider].openedAt == doneAt
      ensures r.Attempted? ==>
        breakers[r.provider].generation == old(breakers[r.provider].generation)
          + if breakers[r.provider].state.Closed? && old(breakers[r.provider].state.Closed?) then 0 else 1
    {
      hide MemoryAcquire, Tried, MemoryInv, VisitIn;
      ghost var before := seq(|breakers|, i requires 0 <= i < |breakers| reads this, breakers => breakers[i].Value());
      r, at := Scan(times, ok, doneAt);
      if r.Attempted? {
        TriedMeans(config, before[r.provider], times(at), ok, doneAt);
      }
    }

    /** The loop of `Send` over the providers. */
    method Scan(times: nat -> int, ok: bool, doneAt: int) returns (r: Outcome, ghost at: nat)
      requires Valid()
      modifies this`cursor, breakers
      ensures Valid() && cursor == (old(cursor) + 1) % WORD
      ensures var n := |breakers|;
        r.AllUnavailable? <==> forall o :: 0 <= o < n ==> !old(Grants(Visit(cursor, o, n), times(o)))
      ensures r.AllUnavailable? ==> forall j :: 0 <= j < |breakers| ==> breakers[j].Value() == old(breakers[j].Value())
      ensures r.Attempted? ==>
        var n := |breakers|;
        && r.ok == ok && at < n && r.provider == Visit(old(cursor), at, n)
        && old(Grants(r.provider, times(at)))
        && (forall o :: 0 <= o < at ==> !old(Grants(Visit(cursor, o, n), times(o))))
        && breakers[r.provider].Value() == Tried(config, old(breakers[r.provider].Value()), times(at), ok, doneAt)
        && (forall j :: 0 <= j < n && j != r.provider ==> breakers[j].Value() == old(breakers[j].Value()))
    {
      hide MemoryAcquire, Tried, MemoryInv;
      var start, n := cursor, |breakers|;
      cursor := (cursor + 1) % WORD;
      for offset := 0 to n
        invariant cursor == (start + 1) % WORD
        invariant forall j :: 0 <= j < n ==> breakers[j].Value() == old(breakers[j].Value())
        invariant forall o :: 0 <= o < offset ==> !old(Grants(Visit(start, o, n), times(o)))
      {
        var i := (start + offset) % WORD % n;
        assert i == Visit(start, offset, n);
        var granted := TryProvider(breakers[i], times(offset), ok, doneAt);
        if granted {
          at := offset;
          return Attempted(i, ok), at;
        }
      }
      at := 0;
      return AllUnavailable, at;
    }

    ghost predicate AllClosed()
      reads this, breakers
    {
      forall i :: 0 <= i < |breakers| ==> breakers[i].state.Closed?
    }

    /** A send through closed circuits goes to the provider under the cursor, and only a failure can open a circuit. */
    method SendClosed(times: nat -> int, ok: bool, doneAt: int) returns (provider: nat)
      requires Valid() && AllClosed() && cursor + 1 < WORD
      modifies this`cursor, breakers
      ensures Valid() && cursor == old(cursor) + 1
      ensures provider == old(cursor) % |breakers|
      ensures forall j :: 0 <= j < |breakers| && j != provider ==> breakers[j].state.Closed?
      ensures breakers[provider].state.Closed?
         <==> ok || old(breakers[cursor % |breakers|].failures) + 1 < config.threshold
    {
      hide VisitIn;
      assert Visit(cursor, 0, |breakers|) == cursor % |breakers| by { FirstVisit(cursor, |breakers|); }
      assert Grants(Visit(cursor, 0, |breakers|), times(0));
      ghost var before := breakers[cursor % |breakers|].Value();
      assert before.state.Closed?;
      var r, at := Send(times, ok, doneAt);
      provider := r.provider;
      assert breakers[provider].Value() == Tried(config, before, times(0), ok, doneAt);
      forall j | 0 <= j < |breakers| && j != provider
        ensures breakers[j].state.Closed?
      {
        assert breakers[j].Value() == old(breakers[j].Value()) && old(breakers[j].Value().state.Closed?);
      }
    }

    /**
     Rounds of sends, successful or not, until they are done or a circuit opens: as long as all circuits
     are closed, every full round hits every provider exactly once, if the cursor does not wrap.
     */
    method SendRounds(rounds: nat, times: nat -> nat -> int, ok: nat -> bool, doneAt: nat -> int)
      returns (hits: seq<nat>, sent: nat)
      requires Valid() && AllClosed() && cursor + rounds * |breakers| < WORD
      modifies this`cursor, breakers
      ensures Valid() && sent <= rounds * |breakers| && cursor == old(cursor) + sent
      ensures |hits| == |breakers| && forall i :: 0 <= i < |hits| ==> hits[i] == Hits(old(cursor), sent, |breakers|, i)
      ensures AllClosed() ==> sent == rounds * |breakers|
      ensures sent == rounds * |breakers| ==> forall i :: 0 <= i < |hits| ==> hits[i] == rounds
      ensures (forall k :: 0 <= k < sent ==> ok(k)) ==> AllClosed()
    {
      var n, start, total := |breakers|, cursor, rounds * |breakers|;
      hits, sent := seq(n, _ => 0), 0;
      while sent < total
        invariant Valid() && AllClosed() && cursor == start + sent && |hits| == n && sent <= total
        invariant forall i :: 0 <= i < n ==> hits[i] == Hits(start, sent, n, i)
      {
        var provider := SendClosed(times(sent), ok(sent), doneAt(sent));
        hits, sent := hits[provider := hits[provider] + 1], sent + 1;
        if breakers[provider].state != Closed { break; }
      }
      forall i | sent == total && 0 <= i < n
        ensures Hits(start, sent, n, i) == rounds
      {
        EvenHits(start, rounds, n, i);
      }
    }
  }

  // ---------- cyclic order ----------

  /** How many of k consecutive cursor values from start fall on provider i. */
  function Hits(start: nat, k: nat, n: nat, i: nat): nat
    requires 0 < n
  {
    if k == 0 then 0 else Hits(start, k - 1, n, i) + (if (start + k - 1) % n == i then 1 else 0)
  }

  /** The offset at which provider i comes up when counting from start. */
  function OffsetOf(start: nat, n: nat, i: nat): (o: nat)
    requires i < n
    ensures o < n
  {
    if start % n <= i then i - start % n else i + n - start % n
  }

  lemma OffsetIsUnique(start: nat, n: nat, i: nat, o: nat)
    requires i < n && o < n
    ensures (start + o) % n == i <==> o == OffsetOf(start, n, i)
  {
    var q, r := start / n, start % n;
    assert start == q * n + r;
    if r + o < n {
      ModUnique(start + o, q, n, r + o);
    } else {
      assert start + o == (q + 1) * n + (r + o - n);
      ModUnique(start + o, q + 1, n, r + o - n);
    }
  }

  lemma {:induction false} HitsInRound(start: nat, k: nat, n: nat, i: nat)
    requires i < n && k <= n
    ensures Hits(start, k, n, i) == if OffsetOf(start, n, i) < k then 1 else 0
  {
    if k > 0 {
      HitsInRound(start, k - 1, n, i);
      OffsetIsUnique(start, n, i, k - 1);
    }
  }

  lemma {:induction false} HitsSplit(start: nat, a: nat, b: nat, n: nat, i: nat)
    requires 0 < n
    ensures Hits(start, a + b, n, i) == Hits(start, a, n, i) + Hits(start + a, b, n, i)
  {
    if b > 0 {
      HitsSplit(start, a, b - 1, n, i);
    }
  }

  lemma OneMoreRound(start: nat, before: nat, n: nat, i: nat)
    requires i < n
    ensures Hits(start, before + n, n, i) == Hits(start, before, n, i) + 1
  {
    HitsSplit(start, before, n, n, i);
    HitsInRound(start + before, n, n, i);
  }

  /** Any m * n consecutive cursor values fall on each of n providers exactly m times. */
  lemma {:induction false} EvenHits(start: nat, m: nat, n: nat, i: nat)
    requires i < n
    ensures Hits(start, m * n, n, i) == m
  {
    if m > 0 {
      EvenHits(start, m - 1, n, i);
      var before := (m - 1) * n;
      assert before >= 0 && m * n == before + n;
      OneMoreRound(start, before, n, i);
    }
  }

  /** Every provider is looked at during one scan of n steps. */
  ghost predicate VisitsAll(word: nat, start: nat, n: nat)
    requires 0 < n && 0 < word
  {
    forall i :: 0 <= i < n ==> Visited(word, start, n, i)
  }

  ghost predicate Visited(word: nat, start: nat, n: nat, i: int)
    requires 0 < n && 0 < word
  {
    exists o :: 0 <= o < n && VisitIn(word, start, o, n) == i
  }

  /** Wrapping at a multiple of n does not disturb residues. */
  lemma SameResidue(a: nat, w: nat, n: nat)
    requires 0 < n && w % n == 0 && w <= a < 2 * w
    ensures a % w % n == a % n
  {
    ModUnique(a, 1, w, a - w);
    var q, p := w / n, (a - w) / n;
    assert a - w == p * n + (a - w) % n && w == q * n;
    assert a == (q + p) * n + (a - w) % n;
    ModUnique(a, q + p, n, (a - w) % n);
  }

  lemma NoWrapVisitsAll(w: nat, start: nat, n: nat)
    requires 0 < n < w && start < w && (start + n <= w || w % n == 0)
    ensures VisitsAll(w, start, n)
  {
    forall i | 0 <= i < n
      ensures Visited(w, start, n, i)
    {
      var o := OffsetOf(start, n, i);
      OffsetIsUnique(start, n, i, o);
      if start + o >= w {
        SameResidue(start + o, w, n);
      } else {
        ModUnique(start + o, 0, w, start + o);
      }
      assert VisitIn(w, start, o, n) == i;
    }
  }

  /** The provider that a wrapping scan skips. */
  function Skipped(w: nat, start: nat, n: nat): int
    requires 0 < n
  {
    if w % n >= w - start then n - 1 else n - (w - start) + w % n - 1
  }

  lemma WrapMisses(w: nat, start: nat, n: nat, o: nat)
    requires 0 < n < w && start < w < start + n && w % n != 0 && o < n
    ensures VisitIn(w, start, o, n) != Skipped(w, start, n)
  {
    var k, r, q := w - start, w % n, w / n;
    assert w == q * n + r;
    if o >= k {
      ModUnique(start + o, 1, w, o - k);
      ModUnique(o - k, 0, n, o - k);
    } else {
      ModUnique(start + o, 0, w, start + o);
      if r - k + o >= 0 {
        ModUnique(start + o, q, n, r - k + o);
      } else {
        assert start + o == (q - 1) * n + (r - k + o + n);
        ModUnique(start + o, q - 1, n, r - k + o + n);
      }
    }
  }

  /**
   One send looks at every provider if and only if the cursor does not wrap during
   its scan, or the number of providers divides the word size.
   */
  lemma VisitsAllExactly(w: nat, start: nat, n: nat)
    requires 0 < n < w && start < w
    ensures VisitsAll(w, start, n) <==> start + n <= w || w % n == 0
  {
    if start + n <= w || w % n == 0 {
      NoWrapVisitsAll(w, start, n);
    } else {
      var i := Skipped(w, start, n);
      forall o | 0 <= o < n
        ensures VisitIn(w, start, o, n) != i
      {
        WrapMisses(w, start, n, o);
      }
      assert 0 <= i < n && !Visited(w, start, n, i);
    }
  }
}
