/**
 The round-robin sender over the circuits that all workers share in Redis. Between any two of its
 calls to Redis other senders may ask for permits, complete them or crash; every circuit goes
 through a run of `BreakerRuns`, so everything proved there holds of it at every point.
 */
module SharedSender {
  import opened Breaker
  import opened Sender
  import R = BreakerRuns

  /** What a call to Redis does: nothing wrong, an error before any effect, or an error after it. */
  datatype Fault = Succeeds | FailsBefore | FailsAfter

  /** What the outside world answers during one send; acquires are numbered by their offset. */
  datatype Answers = Answers(nextFails: bool, acquire: nat -> Fault, accepted: bool, completion: Fault)

  datatype Result = Unavailable | Tried(provider: nat, ok: bool) | StoreError

  /** The n-th move of this log is sender id asking for a permit, and it is granted or not. */
  ghost predicate Asked(c: Config, start: int, log: seq<R.Move>, n: nat, id: nat, granted: bool) {
    && n < |log| && log[n].Ask? && log[n].id == id
    && exists p :: R.Run(c, R.Start(start), log[..n], p) && R.Granted(c, p, log[n].now) == granted
  }

  lemma AskedGrows(c: Config, start: int, log: seq<R.Move>, log': seq<R.Move>, n: nat, id: nat, granted: bool)
    requires Asked(c, start, log, n, id, granted) && log <= log'
    ensures Asked(c, start, log', n, id, granted)
  {
    assert log'[..n] == log[..n] && log'[n] == log[n];
  }

  lemma {:induction false} RunSnoc(c: Config, p: R.Pool, es: seq<R.Move>, p': R.Pool, e: R.Move)
    requires R.Run(c, p, es, p') && R.Enabled(p', e)
    ensures R.Run(c, p, es + [e], R.Next(c, p', e))
    decreases |es|
  {
    hide R.Next, R.Enabled;
    if es == [] {
      assert [e][1..] == [] && es + [e] == [e];
    } else {
      RunSnoc(c, R.Next(c, p, es[0]), es[1..], p', e);
      assert (es + [e])[1..] == es[1..] + [e];
    }
  }

  /** A sender has the same permit, or none, as before. */
  ghost predicate SamePermit(p: R.Pool, p': R.Pool, id: nat) {
    (id in p.permits <==> id in p'.permits) && (id in p.permits ==> p'.permits[id] == p.permits[id])
  }

  /** Nobody takes away the permit of another sender, however many moves they make. */
  lemma {:induction false} OthersKeepPermit(c: Config, p: R.Pool, es: seq<R.Move>, p': R.Pool, id: nat)
    requires R.Run(c, p, es, p') && forall e :: e in es ==> e.id != id
    ensures SamePermit(p, p', id)
    decreases |es|
  {
    if es != [] {
      assert es[0].id != id;
      OthersKeepPermit(c, R.Next(c, p, es[0]), es[1..], p', id);
    }
  }

  class SharedPool {
    const circuits: seq<RedisCircuit>
    const config: Config
    var counter: nat                    // the round-robin key
    var time: int                       // the clock of the Redis server
    ghost const start: int
    ghost var pools: seq<R.Pool>
    ghost var logs: seq<seq<R.Move>>

    /** Circuit i has gone through the moves of its log. */
    ghost predicate CircuitOk(i: nat)
      requires i < |circuits| == |pools| == |logs|
      reads this, circuits
    {
      && circuits[i].config == config && circuits[i].Value() == pools[i].circuit && pools[i].clock <= time
      && R.Run(config, R.Start(start), logs[i], pools[i]) && R.Inv(config, pools[i])
    }

    ghost predicate Valid()
      reads this, circuits
    {
      && config.Valid() && 0 < |circuits| == |pools| == |logs|
      && (forall i, j :: 0 <= i < j < |circuits| ==> circuits[i] != circuits[j])
      && (forall i :: 0 <= i < |circuits| ==> CircuitOk(i))
    }

    constructor (circuits: seq<RedisCircuit>, config: Config, time: int)
      requires config.Valid() && 0 < |circuits|
      requires forall i, j :: 0 <= i < j < |circuits| ==> circuits[i] != circuits[j]
      requires forall i :: 0 <= i < |circuits| ==> circuits[i].config == config && circuits[i].Value() == NEW_REDIS
      ensures Valid() && this.circuits == circuits
    {
      this.circuits, this.config, counter := circuits, config, 0;
      this.time, start := time, time;
      pools, logs := seq(|circuits|, _ => R.Start(time)), seq(|circuits|, _ => []);
    }

    /** Sender id holds no permit. */
    ghost predicate Idle(id: nat)
      reads this
    {
      forall i :: 0 <= i < |pools| ==> id !in pools[i].permits
    }

    /**
     A point at which any other senders may run and time may pass. The body takes no move, which is
     one possibility; callers rely on the postcondition alone, and that holds of all of them: the
     logs grew by moves none of which is sender id's.
     */
    method Others(ghost id: nat)
      requires Valid()
      modifies this, circuits
      ensures Valid() && old(time) <= time && old(counter) <= counter && Extends(old(logs), logs)
      ensures forall i :: 0 <= i < |logs| ==>
        && R.Run(config, old(pools[i]), logs[i][|old(logs[i])|..], pools[i])
        && (forall e :: e in logs[i][|old(logs[i])|..] ==> e.id != id)
        && SamePermit(old(pools[i]), pools[i], id)
    {
      forall i | 0 <= i < |logs|
        ensures logs[i][|logs[i]|..] == [] && SamePermit(pools[i], pools[i], id)
      {
        OthersKeepPermit(config, pools[i], [], pools[i], id);
      }
    }

    /** Record one move of circuit i, whose hash has already been updated. */
    ghost method Record(i: nat, e: R.Move)
      requires |circuits| == |pools| == |logs| && i < |circuits| && config.Valid() && e.now == time
      requires R.Run(config, R.Start(start), logs[i], pools[i]) && R.Inv(config, pools[i]) && R.Enabled(pools[i], e)
      requires circuits[i].config == config && circuits[i].Value() == R.Next(config, pools[i], e).circuit
      modifies this`pools, this`logs
      ensures pools == old(pools)[i := R.Next(config, old(pools[i]), e)] && logs == old(logs)[i := old(logs[i]) + [e]]
      ensures CircuitOk(i)
    {
      R.StepInv(config, pools[i], e);
      RunSnoc(config, R.Start(start), logs[i], pools[i], e);
      pools, logs := pools[i := R.Next(config, pools[i], e)], logs[i := logs[i] + [e]];
    }

    /** `next`: INCR, minus one. */
    method TakeNumber() returns (cursor: nat)
      requires Valid()
      modifies this`counter
      ensures Valid() && cursor == old(counter) && counter == cursor + 1
    {
      cursor := counter;
      counter := counter + 1;
      forall j | 0 <= j < |circuits|
        ensures CircuitOk(j)
      {
        assert old(CircuitOk(j));
      }
    }

    /** The acquire script on circuit i. */
    method Acquire(i: nat, ghost id: nat) returns (g: Grant)
      requires Valid() && i < |circuits| && id !in pools[i].permits
      modifies this`pools, this`logs, circuits[i]
      ensures Valid() && |pools| == |old(pools)| && pools == old(pools)[i := pools[i]]
      ensures logs == old(logs)[i := old(logs[i]) + [R.Ask(id, time)]]
      ensures Asked(config, start, logs[i], |old(logs[i])|, id, g.allowed)
      ensures id in pools[i].permits <==> g.allowed
      ensures g.allowed ==> pools[i].permits[id].generation == g.generation
      ensures !g.allowed ==> circuits[i].Value() == old(circuits[i].Value())
    {
      assert CircuitOk(i);
      g := circuits[i].Acquire(time);
      ghost var before := logs[i];
      Record(i, R.Ask(id, time));
      assert logs[i][..|before|] == before;
      forall j | 0 <= j < |circuits| && j != i
        ensures CircuitOk(j)
      {
        assert old(CircuitOk(j));
      }
    }

    /** The complete script on circuit i. If it fails before its effect, the permit is lost. */
    method Complete(i: nat, ghost id: nat, generation: nat, ok: bool, fault: Fault)
      requires Valid() && i < |circuits| && id in pools[i].permits && pools[i].permits[id].generation == generation
      modifies this`pools, this`logs, circuits[i]
      ensures Valid() && |pools| == |old(pools)| && pools == old(pools)[i := pools[i]] && id !in pools[i].permits
      ensures var e := if fault.FailsBefore? then R.Lose(id, time) else R.Done(id, ok, time);
        logs == old(logs)[i := old(logs[i]) + [e]]
      ensures fault.FailsBefore? ==> circuits[i].Value() == old(circuits[i].Value())
    {
      assert CircuitOk(i);
      if !fault.FailsBefore? {
        var _ := circuits[i].Complete(generation, ok, time);
      }
      Record(i, if fault.FailsBefore? then R.Lose(id, time) else R.Done(id, ok, time));
      forall j | 0 <= j < |circuits| && j != i
        ensures CircuitOk(j)
      {
        assert old(CircuitOk(j));
      }
    }

    /** The reply of a granted acquire is lost, and with it the permit. */
    ghost method Lose(i: nat, id: nat)
      requires Valid() && i < |circuits| && id in pools[i].permits
      modifies this`pools, this`logs
      ensures Valid() && |pools| == |old(pools)| && pools == old(pools)[i := pools[i]] && id !in pools[i].permits
      ensures logs == old(logs)[i := old(logs[i]) + [R.Lose(id, time)]]
    {
      assert CircuitOk(i);
      Record(i, R.Lose(id, time));
      forall j | 0 <= j < |circuits| && j != i
        ensures CircuitOk(j)
      {
        assert old(CircuitOk(j));
      }
    }

    /** The provider call and the completion of the permit; others may run meanwhile. */
    method Attempt(i: nat, ghost id: nat, generation: nat, answers: Answers, ghost position: nat)
      requires Valid() && i < |circuits| && id in pools[i].permits && pools[i].permits[id].generation == generation
      requires forall j :: 0 <= j < |pools| && j != i ==> id !in pools[j].permits
      requires |logs[i]| == position + 1
      modifies this, circuits
      ensures Valid() && Idle(id) && Extends(old(logs), logs) && old(counter) <= counter
      ensures answers.completion.FailsBefore? || Completed(logs[i], position, id, answers.accepted)
    {
      Others(id);
      ghost var before := logs[i];
      assert forall j :: position < j < |before| ==> before[j] in before[position + 1..];
      Complete(i, id, generation, answers.accepted, answers.completion);
      if !answers.completion.FailsBefore? {
        assert logs[i] == before + [R.Done(id, answers.accepted, time)];
        CompletedLast(before, position, id, answers.accepted, time);
      }
    }

    /**
     `Send`, with other senders running between its calls to Redis. At most one provider is tried:
     the first one in visiting order whose circuit grants a permit when it is asked. All circuits
     asked before have denied; `Unavailable` means that every provider's circuit has. The permit is
     completed with the provider's answer unless Redis fails, and in no case does the sender hold
     a permit afterwards. `asked` has the position of each request in its circuit's log.
     */
    method Send(ghost id: nat, answers: Answers) returns (r: Result, ghost asked: seq<nat>)
      requires Valid() && Idle(id)
      modifies this, circuits
      ensures Valid() && Idle(id) && Extends(old(logs), logs) && |asked| <= |circuits|
      ensures !answers.nextFails ==> old(counter) < counter
      ensures r.Unavailable? ==> |asked| == |circuits| && Denied(config, start, logs, old(counter), asked, |asked|, id)
      ensures r.Tried? ==>
        && 0 < |asked| && r.ok == answers.accepted && r.provider == Visit(old(counter), |asked| - 1, |circuits|)
        && Denied(config, start, logs, old(counter), asked, |asked| - 1, id)
        && Asked(config, start, logs[r.provider], asked[|asked| - 1], id, true)
        && (answers.completion.FailsBefore? || Completed(logs[r.provider], asked[|asked| - 1], id, answers.accepted))
      ensures r.StoreError? ==>
        || answers.nextFails
        || (&& |asked| < |circuits| && !answers.acquire(|asked|).Succeeds?
            && Denied(config, start, logs, old(counter), asked, |asked|, id))
    {
      hide Asked, Completed, VisitIn;
      asked := [];
      if answers.nextFails { return StoreError, asked; }
      var n := |circuits|;
      var cursor := TakeNumber();
      for offset := 0 to n
        invariant Valid() && Idle(id) && Extends(old(logs), logs) && |asked| == offset && cursor < counter
        invariant Denied(config, start, logs, cursor, asked, offset, id)
      {
        ghost var before := logs;
        var i := (cursor + offset) % WORD % n;
        assert i == Visit(cursor, offset, n) by { VisitIs(cursor, offset, n); }
        ghost var position;
        var verdict;
        verdict, position := AskOne(i, id, answers.acquire(offset), answers);
        DeniedGrows(config, start, before, logs, cursor, asked, offset, id);
        if verdict.Failed? { return StoreError, asked; }
        asked := asked + [position];
        if verdict.Used? { return Tried(i, answers.accepted), asked; }
      }
      return Unavailable, asked;
    }

    /** One visit of the loop: ask circuit i for a permit and, if it is granted, use it. */
    method AskOne(i: nat, ghost id: nat, fault: Fault, answers: Answers) returns (verdict: Verdict, ghost position: nat)
      requires Valid() && Idle(id) && i < |circuits|
      modifies this, circuits
      ensures Valid() && Idle(id) && Extends(old(logs), logs) && old(counter) <= counter
      ensures verdict.Failed? <==> !fault.Succeeds?
      ensures !verdict.Failed? ==> Asked(config, start, logs[i], position, id, verdict.Used?)
      ensures verdict.Used? ==> answers.completion.FailsBefore? || Completed(logs[i], position, id, answers.accepted)
    {
      hide Asked, Completed;
      Others(id);
      position := |logs[i]|;
      if fault.FailsBefore? { return Failed, position; }
      var g := Acquire(i, id);
      if fault.FailsAfter? {
        if g.allowed { Lose(i, id); }
        return Failed, position;
      }
      if !g.allowed { return Skipped, position; }
      ghost var before := logs[i];
      Attempt(i, id, g.generation, answers, position);
      AskedGrows(config, start, before, logs[i], position, id, true);
      return Used, position;
    }
  }

  datatype Verdict = Skipped | Used | Failed

  lemma VisitIs(cursor: nat, offset: nat, n: nat)
    requires 0 < n
    ensures Visit(cursor, offset, n) == (cursor + offset) % WORD % n
  {
  }

  ghost predicate Extends(before: seq<seq<R.Move>>, after: seq<seq<R.Move>>) {
    |before| == |after| && forall i :: 0 <= i < |before| ==> before[i] <= after[i]
  }

  /** The first n circuits that a send with this cursor value visits have denied sender id a permit. */
  ghost predicate Denied(c: Config, start: int, logs: seq<seq<R.Move>>, cursor: nat, asked: seq<nat>, n: nat, id: nat)
    requires 0 < |logs| && n <= |asked|
  {
    forall o :: 0 <= o < n ==> Asked(c, start, logs[Visit(cursor, o, |logs|)], asked[o], id, false)
  }

  lemma DeniedGrows(c: Config, start: int, logs: seq<seq<R.Move>>, logs': seq<seq<R.Move>>,
                    cursor: nat, asked: seq<nat>, n: nat, id: nat)
    requires 0 < |logs| && n <= |asked| && Extends(logs, logs') && Denied(c, start, logs, cursor, asked, n, id)
    ensures Denied(c, start, logs', cursor, asked, n, id)
  {
    hide Asked;
    forall o | 0 <= o < n
      ensures Asked(c, start, logs'[Visit(cursor, o, |logs'|)], asked[o], id, false)
    {
      var i := Visit(cursor, o, |logs|);
      AskedGrows(c, start, logs[i], logs'[i], asked[o], id, false);
    }
  }

  lemma CompletedLast(log: seq<R.Move>, n: nat, id: nat, ok: bool, now: int)
    requires n < |log| && forall j :: n < j < |log| ==> log[j].id != id
    ensures Completed(log + [R.Done(id, ok, now)], n, id, ok)
  {
    var log' := log + [R.Done(id, ok, now)];
    assert log'[|log|] == R.Done(id, ok, now);
    assert forall j :: n < j < |log| ==> log'[j].id != id;
  }

  /** After its request at position n, the sender's next step in this log completes the permit. */
  ghost predicate Completed(log: seq<R.Move>, n: nat, id: nat, ok: bool) {
    exists k :: n < k < |log| && log[k].Done? && log[k].id == id && log[k].success == ok
      && forall j :: n < j < k ==> log[j].id != id
  }
}
