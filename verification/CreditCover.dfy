/**
 When reserved credit can be debited. Over all futures of a state, no debit of a wallet is ever
 rejected for lack of funds if and only if Redis promises no more than PostgreSQL holds; and what
 a cache write does to that, however long after its top-up it arrives.
 */
module CreditCover {
  import opened Options
  import opened CreditProtocol
  import opened CreditSafety
  import opened CreditDrift
  import opened CreditHistory
  import opened CreditLimits

  /** Every worker about to debit wallet w can. */
  ghost predicate DebitsPass(s: State, w: WalletId) {
    forall k :: At(s, k, ToDebit) && s.messages[s.jobs[k].message].wallet == w ==> Affords(s, s.jobs[k].message)
  }

  /** However the run goes on, no debit of w is rejected, as long as cache writes leave room for reservations. */
  ghost predicate NeverRejected(s: State, w: WalletId) {
    forall acts, s' :: Run(s, acts, s') && CalmWrites(s, acts, w) ==> DebitsPass(s', w)
  }

  /** The run neither tops the wallet up nor writes its cache. */
  predicate Untouched(acts: seq<Action>, w: WalletId) {
    forall a :: a in acts ==> !TopsUp(a, w)
  }

  lemma {:induction false} UntouchedIsCalm(s: State, acts: seq<Action>, s': State, w: WalletId)
    requires Run(s, acts, s') && Untouched(acts, w)
    ensures CalmWrites(s, acts, w)
    decreases |acts|
  {
    hide Next, Enabled, Admissible;
    if acts != [] {
      assert !TopsUp(acts[0], w);
      UntouchedIsCalm(Next(s, acts[0]), acts[1..], s', w);
    }
  }

  // ---------- from positive drift to a rejected debit ----------

  /** All workers crash. */
  lemma {:induction false} FailAll(s: State, w: WalletId) returns (acts: seq<Action>, s': State)
    ensures Run(s, acts, s') && Untouched(acts, w) && s'.jobs == map[]
    decreases |s.jobs|
  {
    if s.jobs == map[] {
      acts, s' := [], s;
    } else {
      var k :| k in s.jobs;
      var s1 := s.(jobs := s.jobs - {k});
      var rest;
      rest, s' := FailAll(s1, w);
      assert Next(s, Fail(k)) == s1;
      OneStep(s, Fail(k));
      hide Next, Enabled;
      RunConcat(s, [Fail(k)], s1, rest, s');
      acts := [Fail(k)] + rest;
    }
  }

  function Giving(s: State): set<MessageId> {
    set m | m in s.messages && s.messages[m].stage.Compensating?
  }

  lemma FewerGiving(s: State, s': State, m: MessageId)
    requires m in Giving(s) && Giving(s') <= Giving(s) - {m}
    ensures |Giving(s')| < |Giving(s)|
  {
    var rest := Giving(s) - {m} - Giving(s');
    assert Giving(s) - {m} == Giving(s') + rest;
    assert |Giving(s) - {m}| == |Giving(s)| - 1;
  }

  /** A request that is giving up does so. */
  lemma GiveBack(s: State, m: MessageId, w: WalletId) returns (s': State)
    requires Inv(s) && m in Giving(s)
    ensures Run(s, [Compensate(m)], s') && Untouched([Compensate(m)], w)
    ensures s'.jobs == s.jobs && s'.pg == s.pg && |Giving(s')| < |Giving(s)|
  {
    hide LedgerOk, JobsOk, Run;
    assert MessageOk(s.messages[m]) && s.messages[m].wallet in s.available;
    hide Inv;
    s' := Next(s, Compensate(m));
    CompensateEffect(s, m);
    OneStep(s, Compensate(m));
    hide Next, Enabled;
    FewerGiving(s, s', m);
  }

  /** One more request reserves everything that Redis still promises. */
  lemma ReserveRest(s: State, w: WalletId) returns (acts: seq<Action>, s': State)
    requires w in s.available && 0 < s.available[w]
    ensures Run(s, acts, s') && Untouched(acts, w) && s'.jobs == s.jobs && s'.pg == s.pg
    ensures w in s'.available && s'.available[w] == 0 && Giving(s') == Giving(s)
  {
    hide WorkerNext, WorkerEnabled;
    var m := FreshId(s);
    var a := Reserve(m, w, s.available[w]);
    acts, s' := [a], Next(s, a);
    OneStep(s, a);
  }

  /** A message of w whose credit is reserved and not debited. */
  lemma {:induction false} SomeHeld(ms: map<MessageId, Message>, w: WalletId) returns (m: MessageId)
    requires HeldSum(ms, w) > 0
    ensures m in ms && Held(ms[m], w) > 0
    decreases |ms|
  {
    var x :| x in ms && HeldSum(ms, w) == Held(ms[x], w) + HeldSum(ms - {x}, w);
    if Held(ms[x], w) > 0 {
      m := x;
    } else {
      m := SomeHeld(ms - {x}, w);
    }
  }

  /** Where a launched message stands. */
  predicate Launched(s: State, s': State, l: WorkerId, m: MessageId)
    requires m in s.messages
  {
    var r := s.messages[m].(stage := Enqueued, status := Some(Processing));
    s' == Put(s, m, r).(jobs := map[l := Job(m, ToDebit)])
  }

  /** With no worker busy, a reserved message that its request has not given up can be brought to its debit. */
  lemma Launch(s: State, l: WorkerId, m: MessageId, w: WalletId) returns (acts: seq<Action>, s': State)
    requires Inv(s) && s.jobs == map[] && m in s.messages && Held(s.messages[m], w) > 0
    requires !s.messages[m].stage.Compensating?
    ensures Run(s, acts, s') && Untouched(acts, w) && Launched(s, s', l, m)
  {
    hide Run, LedgerOk, BalancesOk;
    var r := s.messages[m];
    assert MessageOk(r) && !InFlight(s, m);
    HeldIsOpen(r, w);
    hide Inv;
    if r.stage.Accepted? {
      acts, s' := Dispatch(s, l, m);
    } else {
      var s1 := Next(s, Begin(l, m));
      OneStep(s, Begin(l, m));
      assert s1.messages == s.messages[m := r.(stage := Enqueued, status := Some(Processing))];
      hide Next, Enabled;
      var rest;
      rest, s' := Carry(s1, l, m);
      RunConcat(s, [Begin(l, m)], s1, rest, s');
      acts := [Begin(l, m)] + rest;
    }
  }

  lemma HeldIsOpen(r: Message, w: WalletId)
    requires MessageOk(r) && Held(r, w) > 0
    ensures r.status == None || r.status == Some(Processing)
  {
    match r.status
    case None =>
    case Some(v) => assert v.Processing? || v.Delivered? || v.Refunded?;
  }

  /** A wallet that nobody is working on, and more of which is promised than PostgreSQL holds. */
  ghost predicate Overdrawn(s: State, w: WalletId) {
    Inv(s) && s.jobs == map[] && w in s.available && w in s.pg && Drift(s, w) > 0
  }

  /** A run that leaves the wallet's balances to requests and workers leaves it overdrawn. */
  lemma StaysOverdrawn(s: State, acts: seq<Action>, s': State, w: WalletId)
    requires Overdrawn(s, w) && Run(s, acts, s') && Untouched(acts, w) && s'.jobs == map[]
    ensures Overdrawn(s', w)
  {
    hide Run, Inv, Drift;
    RunInv(s, acts, s');
    DriftLaw(s, acts, s', w);
  }

  lemma UntouchedConcat(xs: seq<Action>, ys: seq<Action>, w: WalletId)
    requires Untouched(xs, w) && Untouched(ys, w)
    ensures Untouched(xs + ys, w)
  {
  }

  /** With nothing left to promise, some message is held whose debit is rejected or can be taken out. */
  lemma SpendOne(s: State, l: WorkerId, w: WalletId) returns (acts: seq<Action>, s': State)
    requires Overdrawn(s, w) && s.available[w] == 0 && Giving(s) == {}
    ensures Run(s, acts, s') && Untouched(acts, w)
    ensures !DebitsPass(s', w)
         || (s'.jobs == map[] && w in s'.pg && 0 <= s'.pg[w] < s.pg[w] && Giving(s') == {})
  {
    hide Run, HeldSum, LedgerOk, JobsOk;
    var m := SomeHeld(s.messages, w);
    assert m !in Giving(s);
    var xs, s1 := Launch(s, l, m, w);
    assert MessageOk(s.messages[m]);
    hide Inv, Drift;
    if !Affords(s1, m) {
      acts, s' := xs, s1;
      assert At(s1, l, ToDebit);
    } else {
      s' := DebitAndCommit(s1, l);
      hide Next, Enabled;
      RunConcat(s, xs, s1, [Debit(l), Commit(l)], s');
      acts := xs + [Debit(l), Commit(l)];
      UntouchedConcat(xs, [Debit(l), Commit(l)], w);
      assert s'.jobs == map[];
    }
  }

  /**
   If more of a wallet is promised than PostgreSQL holds, some debit can be rejected without any
   top-up: requests that are giving up do so, one more request reserves what is left, and then
   the held messages are sent and debited one by one until one of them finds too little.
   */
  lemma {:induction false} OverdrawnRejects(s: State, l: WorkerId, w: WalletId) returns (acts: seq<Action>, s': State)
    requires Overdrawn(s, w)
    ensures Run(s, acts, s') && Untouched(acts, w) && !DebitsPass(s', w)
    decreases |Giving(s)|, s.pg[w], s.available[w]
  {
    assert 0 <= s.pg[w] && 0 <= s.available[w] by { hide LedgerOk, JobsOk, MessagesOk; }
    hide Run, Inv, Drift, DebitsPass;
    var xs, s1;
    if m :| m in Giving(s) {
      s1 := GiveBack(s, m, w);
      xs := [Compensate(m)];
    } else if 0 < s.available[w] {
      xs, s1 := ReserveRest(s, w);
    } else {
      xs, s1 := SpendOne(s, l, w);
      if !DebitsPass(s1, w) {
        return xs, s1;
      }
    }
    StaysOverdrawn(s, xs, s1, w);
    var ys;
    ys, s' := OverdrawnRejects(s1, l, w);
    RunConcat(s, xs, s1, ys, s');
    UntouchedConcat(xs, ys, w);
    acts := xs + ys;
  }

  lemma DriftRejects(s: State, w: WalletId) returns (acts: seq<Action>, s': State)
    requires Inv(s) && w in s.available && w in s.pg && Drift(s, w) > 0
    ensures Run(s, acts, s') && Untouched(acts, w) && !DebitsPass(s', w)
  {
    hide Run, Inv, Drift, DebitsPass;
    var xs, s1 := FailAll(s, w);
    RunInv(s, xs, s1);
    DriftLaw(s, xs, s1, w);
    var ys;
    ys, s' := OverdrawnRejects(s1, 0, w);
    RunConcat(s, xs, s1, ys, s');
    UntouchedConcat(xs, ys, w);
    acts := xs + ys;
  }

  // ---------- the exact condition ----------

  /**
   Reserved credit can be debited, exactly when: in every reachable state, no debit of a wallet can be
   rejected in any calm future if and only if Redis promises no more of it than PostgreSQL holds.
   */
  lemma DebitsSafeExactly(s: State, w: WalletId)
    requires Inv(s)
    ensures Covered(s, w) <==> NeverRejected(s, w)
  {
    hide Run, Next, Enabled, Inv, HeldSum, CalmWrites, Untouched, At, Affords;
    if Covered(s, w) {
      forall acts, s' | Run(s, acts, s') && CalmWrites(s, acts, w)
        ensures DebitsPass(s', w)
      {
        ReservedIsAffordable(s, acts, s', w);
      }
    } else {
      var acts, s' := DriftRejects(s, w);
      UntouchedIsCalm(s, acts, s', w);
      assert Run(s, acts, s') && CalmWrites(s, acts, w);
    }
  }

  /**
   A cache write is safe, exactly when: no debit can be rejected in a calm future of it if and only if it
   leaves room for the reservations it forgets.
   */
  lemma WriteIsSafeExactly(s: State, w: WalletId, u: int)
    requires Inv(s) && Enabled(s, SetAvailable(w, u))
    ensures w in s.pg && (NeverRejected(Next(s, SetAvailable(w, u)), w) <==> u + HeldSum(s.messages, w) <= s.pg[w])
  {
    assert w in s.pg by { hide LedgerOk, JobsOk, MessagesOk; }
    hide Inv, HeldSum, NeverRejected;
    StepInv(s, SetAvailable(w, u));
    WriteCoversExactly(s, w, u);
    DebitsSafeExactly(Next(s, SetAvailable(w, u)), w);
  }

  // ---------- cache writes that come late ----------

  lemma TopUpEffect(s: State, w: WalletId, u: int, ref: MessageId)
    requires Enabled(s, TopUp(w, u, ref))
    ensures var s' := Next(s, TopUp(w, u, ref));
      && w in s.pg && s'.pg == s.pg[w := s.pg[w] + u] && Write(w, s.pg[w] + u) in s'.writes
      && s'.messages == s.messages && s'.jobs == s.jobs && s'.available == s.available
  {
    hide WorkerNext, WorkerEnabled;
  }

  lemma WriteEffect(s: State, w: WalletId, u: int)
    requires Enabled(s, SetAvailable(w, u))
    ensures var s' := Next(s, SetAvailable(w, u));
      s'.pg == s.pg && s'.messages == s.messages && s'.jobs == s.jobs && s'.available == s.available[w := u]
  {
    hide WorkerNext, WorkerEnabled;
  }

  /**
   The last cache write decides: until the wallet is topped up or written again, its drift is the
   balance written, plus what was reserved at that moment, minus what PostgreSQL held.
   */
  lemma LastWriteDecides(s: State, w: WalletId, u: int, acts: seq<Action>, s': State)
    requires Inv(s) && Enabled(s, SetAvailable(w, u))
    requires Run(Next(s, SetAvailable(w, u)), acts, s') && Untouched(acts, w)
    ensures w in s.pg && w in s'.available && w in s'.pg && Drift(s', w) == u + HeldSum(s.messages, w) - s.pg[w]
  {
    hide Run, Next, HeldSum, LedgerOk, JobsOk, MessagesOk;
    StepInv(s, SetAvailable(w, u));
    WriteEffect(s, w, u);
    hide Enabled;
    DriftLaw(Next(s, SetAvailable(w, u)), acts, s', w);
  }

  /**
   The drift after a cache write that comes any number of steps after s0, where its balance was read
   (for a top-up, when it committed), until the wallet is topped up or written again: what was
   reserved at the write, minus what the ledger recorded for the wallet since s0. If the write
   follows at once it is the reserved sum alone.
   */
  lemma LateWriteDrift(s0: State, w: WalletId, mid: seq<Action>, s1: State, acts: seq<Action>, s': State)
    requires Inv(s0) && w in s0.pg && Run(s0, mid, s1) && Enabled(s1, SetAvailable(w, s0.pg[w]))
    requires Run(Next(s1, SetAvailable(w, s0.pg[w])), acts, s') && Untouched(acts, w)
    ensures w in s'.available && w in s'.pg
    ensures Drift(s', w) == HeldSum(s1.messages, w) - (Flow(s1.ledger, w) - Flow(s0.ledger, w))
  {
    hide Next, Enabled, Inv, Run, HeldSum, Flow, Untouched;
    RunInv(s0, mid, s1);
    LedgerConservation(s0, mid, s1, w);
    LastWriteDecides(s1, w, s0.pg[w], acts, s');
  }

  /** A top-up that commits while a worker stands at a debit, and whose cache write comes after it. */
  lemma OvertakenWrite(s: State, w: WalletId, u: int, l: WorkerId) returns (acts: seq<Action>, s': State)
    requires w in s.pg && 0 < u && At(s, l, ToDebit) && Affords(s, s.jobs[l].message) && s.writes == multiset{}
    requires s.messages[s.jobs[l].message].wallet == w
    ensures var m := s.jobs[l].message; var r := s.messages[m];
      && Run(s, acts, s') && s'.jobs == s.jobs - {l}
      && m in s'.messages && s'.messages == s.messages[m := s'.messages[m]] && s'.messages[m].reservation.None?
      && s'.pg == s.pg[w := s.pg[w] + u - r.cost] && s'.available == s.available[w := s.pg[w] + u]
  {
    hide Run, Enabled, Next;
    var ref, m := s.jobs[l].message, s.jobs[l].message;
    assert Enabled(s, TopUp(w, u, ref)) by { CanTopUp(s, w, u, ref); }
    TopUpEffect(s, w, u, ref);
    var s1 := Next(s, TopUp(w, u, ref));
    OneStep(s, TopUp(w, u, ref));
    var s2 := DebitAndCommit(s1, l);
    var write := SetAvailable(w, s.pg[w] + u);
    assert Enabled(s2, write) by { CanWrite(s2, w, s.pg[w] + u); }
    WriteEffect(s2, w, s.pg[w] + u);
    s' := Next(s2, write);
    OneStep(s2, write);
    RunConcat(s, [TopUp(w, u, ref)], s1, [Debit(l), Commit(l)], s2);
    RunConcat(s, [TopUp(w, u, ref)] + [Debit(l), Commit(l)], s2, [write], s');
    acts := [TopUp(w, u, ref)] + [Debit(l), Commit(l)] + [write];
  }

  lemma CanTopUp(s: State, w: WalletId, u: int, ref: MessageId)
    requires w in s.pg && 0 < u
    ensures Enabled(s, TopUp(w, u, ref))
  {
  }

  lemma CanWrite(s: State, w: WalletId, u: int)
    requires Write(w, u) in s.writes
    ensures Enabled(s, SetAvailable(w, u))
  {
  }

  /**
   So a write that comes late can leave positive drift although nothing is reserved and nobody is busy,
   and a later debit can be rejected: for any cost and any top-up, from the very start.
   */
  lemma LateWriteStrands(w: WalletId, cost: int, u: int, m: MessageId, l: WorkerId)
    returns (acts: seq<Action>, s: State)
    requires 0 < cost && 0 < u
    ensures Run(INITIAL, acts, s) && s.jobs == map[] && w in s.available && w in s.pg
    ensures (forall x :: x in s.messages ==> s.messages[x].reservation.None?) && Drift(s, w) == cost
    ensures !NeverRejected(s, w)
  {
    hide Run, HeldSum, NeverRejected;
    var xs, s1 := OpenWallet(w, cost);
    var s2 := Next(s1, Reserve(m, w, cost));
    OneStep(s1, Reserve(m, w, cost));
    assert s2.messages == map[m := Message(w, cost, Accepted, Some(cost), None, false)];
    assert s2.jobs == map[] && s2.pg == map[w := cost] && s2.writes == multiset{} && !InFlight(s2, m);
    hide Next, Enabled;
    var ys, s3 := Dispatch(s2, l, m);
    RunConcat(INITIAL, xs, s1, [Reserve(m, w, cost)], s2);
    RunConcat(INITIAL, xs + [Reserve(m, w, cost)], s2, ys, s3);
    var zs;
    zs, s := OvertakenWrite(s3, w, u, l);
    RunConcat(INITIAL, xs + [Reserve(m, w, cost)] + ys, s3, zs, s);
    acts := xs + [Reserve(m, w, cost)] + ys + zs;
    InitialInv();
    RunInv(INITIAL, acts, s);
    NothingHeld(s, w);
    hide Inv;
    DebitsSafeExactly(s, w);
  }

  lemma NothingHeld(s: State, w: WalletId)
    requires Inv(s) && forall x :: x in s.messages ==> s.messages[x].reservation.None?
    ensures HeldSum(s.messages, w) == 0
  {
    hide HeldSum, LedgerOk, JobsOk, BalancesOk;
    HeldSumBounds(s.messages, w);
  }
}
