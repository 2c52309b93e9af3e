/**
 The relation between the two stores: how far the Redis view of a wallet is from
 the PostgreSQL balance, which steps can move it, and what follows for debits.
 */
module CreditDrift {
  import opened Options
  import opened CreditProtocol
  import opened CreditSafety

  /** Credit of wallet w that a message holds back and that PostgreSQL has not debited. */
  function Held(r: Message, w: WalletId): int {
    if r.wallet == w && r.reservation.Some? && r.status != Some(Delivered) then r.reservation.value else 0
  }

  /** The undelivered reserved sum of a wallet, over all messages. */
  ghost function HeldSum(ms: map<MessageId, Message>, w: WalletId): int
    decreases |ms|
  {
    if ms == map[] then 0
    else
      var m :| m in ms;
      Held(ms[m], w) + HeldSum(ms - {m}, w)
  }

  /** The sum does not depend on the order in which messages are visited. */
  lemma {:induction false} HeldSumSplit(ms: map<MessageId, Message>, m: MessageId, w: WalletId)
    requires m in ms
    ensures HeldSum(ms, w) == Held(ms[m], w) + HeldSum(ms - {m}, w)
    decreases |ms|
  {
    var x :| x in ms && HeldSum(ms, w) == Held(ms[x], w) + HeldSum(ms - {x}, w);
    if x != m {
      HeldSumSplit(ms - {x}, m, w);
      HeldSumSplit(ms - {m}, x, w);
      assert ms - {x} - {m} == ms - {m} - {x};
    }
  }

  lemma HeldSumPut(ms: map<MessageId, Message>, m: MessageId, r: Message, w: WalletId)
    ensures HeldSum(ms[m := r], w)
         == HeldSum(ms, w) + Held(r, w) - (if m in ms then Held(ms[m], w) else 0)
  {
    HeldSumSplit(ms[m := r], m, w);
    if m in ms {
      HeldSumSplit(ms, m, w);
      assert ms[m := r] - {m} == ms - {m};
    } else {
      assert ms[m := r] - {m} == ms;
    }
  }

  lemma {:induction false} HeldSumBounds(ms: map<MessageId, Message>, w: WalletId)
    requires forall m :: m in ms ==> MessageOk(ms[m])
    ensures 0 <= HeldSum(ms, w)
    ensures forall m :: m in ms ==> Held(ms[m], w) <= HeldSum(ms, w)
    ensures HeldSum(ms, w) == 0 <==> forall m :: m in ms ==> Held(ms[m], w) == 0
    decreases |ms|
  {
    if ms != map[] {
      var x :| x in ms && HeldSum(ms, w) == Held(ms[x], w) + HeldSum(ms - {x}, w);
      assert MessageOk(ms[x]) && 0 <= Held(ms[x], w);
      HeldSumBounds(ms - {x}, w);
      forall m | m in ms
        ensures Held(ms[m], w) <= HeldSum(ms, w)
      {
        if m != x {
          assert Held((ms - {x})[m], w) <= HeldSum(ms - {x}, w);
        }
      }
      assert forall m :: m in ms - {x} ==> m in ms && (ms - {x})[m] == ms[m];
    }
  }

  /** Redis balance plus undelivered reservations, minus the PostgreSQL balance. */
  ghost function Drift(s: State, w: WalletId): int
    requires w in s.available && w in s.pg
  {
    s.available[w] + HeldSum(s.messages, w) - s.pg[w]
  }

  /** How a step moves the drift of w: only a top-up and its cache write do. */
  function DriftEffect(s: State, a: Action, w: WalletId): int
    requires w in s.available
  {
    if a.TopUp? && a.w == w then -a.units
    else if a.SetAvailable? && a.w == w then a.units - s.available[w]
    else 0
  }

  /** A step that touches one message moves the drift by what it moves for that message. */
  lemma DriftPut(s: State, s': State, m: MessageId, w: WalletId)
    requires w in s.available && w in s.pg && w in s'.available && w in s'.pg && m in s'.messages
    requires s'.messages == s.messages[m := s'.messages[m]]
    ensures Drift(s', w) - Drift(s, w)
         == s'.available[w] - s.available[w] - (s'.pg[w] - s.pg[w])
            + Held(s'.messages[m], w) - (if m in s.messages then Held(s.messages[m], w) else 0)
  {
    HeldSumPut(s.messages, m, s'.messages[m], w);
  }

  lemma AdminDrift(s: State, a: Action, w: WalletId)
    requires BalancesOk(s) && Enabled(s, a) && w in s.available
    requires !WorkerStep(a) && !a.Reserve? && !a.Enqueue? && !a.EnqueueFails? && !a.Compensate?
    ensures w in Next(s, a).available && w in Next(s, a).pg
    ensures Drift(Next(s, a), w) == Drift(s, w) + DriftEffect(s, a, w)
  {
    hide HeldSum;
  }

  lemma RequestDrift(s: State, a: Action, w: WalletId)
    requires s.available.Keys <= s.pg.Keys && Enabled(s, a) && w in s.available
    requires a.Reserve? || a.Enqueue? || a.EnqueueFails? || a.Compensate?
    requires !a.Reserve? ==> MessageOk(s.messages[a.m]) && s.messages[a.m].wallet in s.available
    ensures w in Next(s, a).available && w in Next(s, a).pg
    ensures Drift(Next(s, a), w) == Drift(s, w)
  {
    hide HeldSum;
    var s' := Next(s, a);
    assert s'.messages == s.messages[a.m := s'.messages[a.m]];
    DriftPut(s, s', a.m, w);
  }

  /** Steps by which a worker decides where to go next change neither store's credit. */
  lemma MoveDrift(s: State, a: Action, w: WalletId)
    requires s.available.Keys <= s.pg.Keys && Enabled(s, a) && w in s.available
    requires a.Begin? || a.Expire? || a.Check? || a.Send? || a.DebitFails? || a.Fail?
    ensures w in Next(s, a).available && w in Next(s, a).pg
    ensures Drift(Next(s, a), w) == Drift(s, w)
  {
    hide HeldSum;
    if a.Begin? {
      var s' := Next(s, a);
      assert s'.messages == s.messages[a.m := s'.messages[a.m]];
      DriftPut(s, s', a.m, w);
    }
  }

  lemma EffectDrift(s: State, a: Action, w: WalletId)
    requires s.available.Keys <= s.pg.Keys && Enabled(s, a) && w in s.available
    requires a.Debit? || a.Refund? || a.Mark? || a.Commit?
    requires var r := s.messages[s.jobs[a.k].message];
      MessageOk(r) && JobOk(r, s.jobs[a.k].pc) && r.wallet in s.available
    ensures w in Next(s, a).available && w in Next(s, a).pg
    ensures Drift(Next(s, a), w) == Drift(s, w)
  {
    hide HeldSum;
    var s', m := Next(s, a), s.jobs[a.k].message;
    assert s'.messages == s.messages[m := s'.messages[m]];
    DriftPut(s, s', m, w);
  }

  /** The drift law for one step. */
  lemma StepDrift(s: State, a: Action, w: WalletId)
    requires Inv(s) && Enabled(s, a) && w in s.available
    ensures w in Next(s, a).available && w in Next(s, a).pg
    ensures Drift(Next(s, a), w) == Drift(s, w) + DriftEffect(s, a, w)
  {
    hide Next, HeldSum, MessageOk, JobOk, LedgerOk;
    if a.Debit? || a.Refund? || a.Mark? || a.Commit? {
      EffectDrift(s, a, w);
    } else if WorkerStep(a) {
      MoveDrift(s, a, w);
    } else if a.Reserve? || a.Enqueue? || a.EnqueueFails? || a.Compensate? {
      RequestDrift(s, a, w);
    } else {
      AdminDrift(s, a, w);
    }
  }

  predicate TopsUp(a: Action, w: WalletId) {
    (a.TopUp? || a.SetAvailable?) && a.w == w
  }

  /**
   The drift law. However requests, workers, crashes and other wallets' top-ups
   interleave, the drift of a wallet stays what it was until the wallet itself is topped up.
   */
  lemma {:induction false} DriftLaw(s: State, acts: seq<Action>, s': State, w: WalletId)
    requires Inv(s) && Run(s, acts, s') && w in s.available
    requires forall a :: a in acts ==> !TopsUp(a, w)
    ensures w in s'.available && w in s'.pg && w in s.pg && Drift(s', w) == Drift(s, w)
    decreases |acts|
  {
    hide Next, Enabled, Admissible, HeldSum, LedgerOk, MessagesOk, JobsOk;
    if acts != [] {
      assert !TopsUp(acts[0], w);
      StepInv(s, acts[0]);
      StepDrift(s, acts[0], w);
      DriftLaw(Next(s, acts[0]), acts[1..], s', w);
    }
  }

  /** A top-up whose cache write follows at once, as two steps. */
  predicate AtomicTopUp(s: State, w: WalletId, u: int, ref: MessageId, s': State) {
    && Enabled(s, TopUp(w, u, ref))
    && var s1 := Next(s, TopUp(w, u, ref));
       Enabled(s1, SetAvailable(w, s.pg[w] + u)) && s' == Next(s1, SetAvailable(w, s.pg[w] + u))
  }

  /**
   A top-up overwrites the Redis balance and forgets the reservations: the drift
   becomes exactly the undelivered reserved sum, hence zero iff nothing is reserved.
   */
  lemma TopUpDrift(s: State, w: WalletId, u: int, ref: MessageId, s': State)
    requires Inv(s) && AtomicTopUp(s, w, u, ref, s')
    ensures w in s'.available && w in s'.pg && Drift(s', w) == HeldSum(s.messages, w)
    ensures Drift(s', w) == 0 <==> forall m :: m in s.messages ==> Held(s.messages[m], w) == 0
    ensures s'.messages == s.messages && s'.jobs == s.jobs
  {
    hide LedgerOk, JobsOk, HeldSum, WorkerNext, WorkerEnabled;
    HeldSumBounds(s.messages, w);
  }

  /** Every top-up of w in the run is atomic and happens while no undelivered reservation of w exists. */
  ghost predicate QuietTopUps(s: State, acts: seq<Action>, w: WalletId)
    decreases |acts|
  {
    if acts == [] then true
    else if acts[0].TopUp? && acts[0].w == w then
      && |acts| > 1
      && w in s.pg && acts[1] == SetAvailable(w, s.pg[w] + acts[0].units)
      && HeldSum(s.messages, w) == 0
      && Enabled(s, acts[0]) && Enabled(Next(s, acts[0]), acts[1])
      && QuietTopUps(Next(Next(s, acts[0]), acts[1]), acts[2..], w)
    else
      && !TopsUp(acts[0], w) && Enabled(s, acts[0]) && QuietTopUps(Next(s, acts[0]), acts[1..], w)
  }

  /** Runs that top a wallet up only while nothing is reserved on it keep the two stores in step. */
  lemma {:induction false} QuietRunsHaveNoDrift(s: State, acts: seq<Action>, s': State, w: WalletId)
    requires Inv(s) && Run(s, acts, s') && w in s.available && QuietTopUps(s, acts, w)
    requires w in s.pg && Drift(s, w) == 0
    ensures w in s'.available && w in s'.pg && Drift(s', w) == 0
    decreases |acts|
  {
    hide Next, Enabled, Admissible, HeldSum, LedgerOk, MessagesOk, JobsOk;
    if acts == [] {
    } else if acts[0].TopUp? && acts[0].w == w {
      var s1 := Next(s, acts[0]);
      var s2 := Next(s1, acts[1]);
      assert acts[1..][1..] == acts[2..];
      StepInv(s, acts[0]);
      StepInv(s1, acts[1]);
      assert acts[0] == TopUp(w, acts[0].units, acts[0].reference);
      assert AtomicTopUp(s, w, acts[0].units, acts[0].reference, s2);
      TopUpDrift(s, w, acts[0].units, acts[0].reference, s2);
      QuietRunsHaveNoDrift(s2, acts[2..], s', w);
    } else {
      StepInv(s, acts[0]);
      StepDrift(s, acts[0], w);
      QuietRunsHaveNoDrift(Next(s, acts[0]), acts[1..], s', w);
    }
  }

  // ---------- affordability ----------

  /** Redis never promises more of w than PostgreSQL holds. */
  ghost predicate Covered(s: State, w: WalletId) {
    w in s.available && w in s.pg ==> Drift(s, w) <= 0
  }

  lemma UncachedHoldsNothing(s: State, w: WalletId)
    requires Inv(s) && w !in s.available
    ensures HeldSum(s.messages, w) == 0
  {
    hide LedgerOk, JobsOk, BalancesOk, HeldSum;
    HeldSumBounds(s.messages, w);
  }

  /** Without positive drift, every reserved and undelivered message can be debited. */
  lemma CoveredAffords(s: State, m: MessageId)
    requires Inv(s) && m in s.messages && Covered(s, s.messages[m].wallet)
    requires s.messages[m].reservation.Some? && s.messages[m].status != Some(Delivered)
    ensures Affords(s, m)
  {
    hide LedgerOk, JobsOk, HeldSum;
    HeldSumBounds(s.messages, s.messages[m].wallet);
  }

  /** Every cache write of w in the run leaves room for the reservations it forgets. */
  ghost predicate CalmWrites(s: State, acts: seq<Action>, w: WalletId)
    decreases |acts|
  {
    if acts == [] then true
    else
      && Enabled(s, acts[0])
      && (acts[0].SetAvailable? && acts[0].w == w ==> w in s.pg && acts[0].units + HeldSum(s.messages, w) <= s.pg[w])
      && CalmWrites(Next(s, acts[0]), acts[1..], w)
  }

  /** Refunds go to wallets that are cached already, so no worker and no refund adds a balance key. */
  lemma WorkersAddNoKey(s: State, a: Action)
    requires MessagesOk(s) && Enabled(s, a) && WorkerStep(a)
    ensures Next(s, a).available.Keys == s.available.Keys
  {
    hide MessageOk, RequestNext, RequestEnabled, BeginNext, DebitNext;
    match a
    case Begin(k, m) => AvailableKept(s, k, m);
    case Debit(k) => AvailableKept(s, k, s.jobs[k].message);
    case Refund(k) => assert s.messages[s.jobs[k].message].wallet in s.available;
    case _ =>
  }

  lemma AvailableKept(s: State, k: WorkerId, m: MessageId)
    requires m in s.messages
    ensures BeginNext(s, k, m).available == s.available
    ensures k in s.jobs && s.jobs[k].message == m ==> DebitNext(s, k).available == s.available
  {
  }

  /** The step that first caches a wallet: lazy initialisation can only promise too little. */
  lemma FirstCached(s: State, a: Action, w: WalletId)
    requires Inv(s) && Enabled(s, a) && w !in s.available && w in Next(s, a).available
    ensures w in s.pg && w in Next(s, a).pg && Next(s, a).pg == s.pg && Next(s, a).messages == s.messages
    ensures (a.SetAvailable? && a.w == w && Next(s, a).available[w] == a.units)
         || (a.SetNX? && Next(s, a).available[w] <= s.pg[w])
  {
    hide LedgerOk, JobsOk, WorkerNext, WorkerEnabled;
    if WorkerStep(a) { WorkersAddNoKey(s, a); }
    assert a.SetAvailable? || a.SetNX?;
  }

  /** A cache write leaves the wallet covered if and only if it leaves room for the reservations it forgets. */
  lemma WriteCoversExactly(s: State, w: WalletId, u: int)
    requires Inv(s) && Enabled(s, SetAvailable(w, u))
    ensures Covered(Next(s, SetAvailable(w, u)), w) <==> u + HeldSum(s.messages, w) <= s.pg[w]
  {
    hide HeldSum, LedgerOk, MessagesOk, JobsOk, WorkerNext, WorkerEnabled;
  }

  lemma StepCovered(s: State, a: Action, w: WalletId)
    requires Inv(s) && Enabled(s, a) && Covered(s, w)
    requires a.SetAvailable? && a.w == w ==> w in s.pg && a.units + HeldSum(s.messages, w) <= s.pg[w]
    ensures Covered(Next(s, a), w)
  {
    hide Next, HeldSum, LedgerOk, MessagesOk, JobsOk;
    if w in s.available {
      StepDrift(s, a, w);
    } else if w in Next(s, a).available {
      FirstCached(s, a, w);
      UncachedHoldsNothing(s, w);
    }
  }

  /**
   Reservation implies affordability. As long as cache writes leave room for the
   reservations they forget, no debit of the wallet is ever rejected, however the
   steps interleave: wherever the run stands, a worker about to debit can.
   */
  lemma {:induction false} ReservedIsAffordable(s: State, acts: seq<Action>, s': State, w: WalletId)
    requires Inv(s) && Run(s, acts, s') && CalmWrites(s, acts, w) && Covered(s, w)
    ensures Covered(s', w)
    ensures forall k :: At(s', k, ToDebit) && s'.messages[s'.jobs[k].message].wallet == w ==>
              Affords(s', s'.jobs[k].message)
    decreases |acts|
  {
    hide Next, Enabled, Admissible, HeldSum, LedgerOk, MessagesOk, BalancesOk;
    if acts == [] {
      forall k | At(s, k, ToDebit) && s.messages[s.jobs[k].message].wallet == w {
        CoveredAffords(s, s.jobs[k].message);
      }
    } else {
      StepInv(s, acts[0]);
      StepCovered(s, acts[0], w);
      ReservedIsAffordable(Next(s, acts[0]), acts[1..], s', w);
    }
  }
}
