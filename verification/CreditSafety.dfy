/**
 What every step of the credit protocol keeps, and what therefore holds in every
 state that a run reaches whose redeliveries overlap only where it is admissible.
 */
module CreditSafety {
  import opened Options
  import opened CreditProtocol

  /** Number of debit rows that the ledger holds for a message. */
  function Debits(ledger: seq<LedgerRow>, m: MessageId): nat {
    if ledger == [] then 0
    else
      var last := ledger[|ledger| - 1];
      Debits(ledger[..|ledger| - 1], m) + (if last.reference == m && last.amount < 0 then 1 else 0)
  }

  lemma DebitsSnoc(ledger: seq<LedgerRow>, row: LedgerRow, m: MessageId)
    ensures Debits(ledger + [row], m)
         == Debits(ledger, m) + (if row.reference == m && row.amount < 0 then 1 else 0)
  {
    assert (ledger + [row])[..|ledger|] == ledger;
  }

  /** Balances are never negative and every cached wallet exists. */
  ghost predicate BalancesOk(s: State) {
    && s.available.Keys <= s.pg.Keys
    && (forall w :: w in s.available ==> 0 <= s.available[w])
    && (forall w :: w in s.pg ==> 0 <= s.pg[w])
    && (forall x :: x in s.writes ==> x.wallet in s.pg && 0 <= x.units)
    && (forall m :: m in s.loads ==> s.loads[m].wallet in s.pg && 0 <= s.loads[m].units)
    // a wallet without a Redis key has not been debited since it was loaded
    && (forall m :: m in s.loads && s.loads[m].wallet !in s.available ==> s.loads[m].units <= s.pg[s.loads[m].wallet])
  }

  /** What the two stores may hold together about one message. */
  ghost predicate MessageOk(r: Message) {
    && r.cost > 0
    && (r.reservation.Some? ==> r.reservation.value == r.cost)
    && (match r.stage
        case Accepted => r.reservation.Some? && r.status.None?
        case Compensating => r.reservation.Some? && r.status.None?
        case Abandoned => r.reservation.None? && r.status.None?
        case Enqueued => r.status.None? ==> r.reservation.Some?)
    && (r.status == Some(Status.Refunded) ==> r.reservation.None?)
    && (r.finished <==> r.Settled())
  }

  ghost predicate MessagesOk(s: State) {
    forall m :: m in s.messages ==> MessageOk(s.messages[m]) && s.messages[m].wallet in s.available
  }

  /** A message is delivered exactly when the ledger holds its one debit. */
  ghost predicate LedgerOk(s: State) {
    forall m ::
      Debits(s.ledger, m) == if m in s.messages && s.messages[m].status == Some(Delivered) then 1 else 0
  }

  /** What a worker at pc relies on about its message. */
  ghost predicate JobOk(r: Message, pc: Pc) {
    && r.stage.Enqueued?
    && (if pc == ToCommit then r.Terminal() else r.status == Some(Processing) || r.status == Some(Status.Refunded))
    && (pc == ToSend || pc == ToDebit ==> r.status == Some(Processing) && r.reservation.Some?)
    && (pc == ToMark ==> r.reservation.None?)
  }

  ghost predicate JobsOk(s: State) {
    && (forall k :: k in s.jobs ==>
          s.jobs[k].message in s.messages && JobOk(s.messages[s.jobs[k].message], s.jobs[k].pc))
    && (forall k, l :: k in s.jobs && l in s.jobs && k != l && s.jobs[k].message == s.jobs[l].message ==>
          s.messages[s.jobs[k].message].Concluded())
  }

  ghost predicate Inv(s: State) {
    BalancesOk(s) && MessagesOk(s) && LedgerOk(s) && JobsOk(s)
  }

  lemma InitialInv()
    ensures Inv(INITIAL)
  {
  }

  /** The jobs stay in order when only message m and worker k change. */
  lemma JobsStep(s: State, s': State, k: WorkerId, m: MessageId)
    requires JobsOk(s) && m in s.messages
    requires s'.messages.Keys == s.messages.Keys
    requires forall x :: x in s.messages && x != m ==> s'.messages[x] == s.messages[x]
    requires s'.jobs - {k} == s.jobs - {k}
    requires k in s'.jobs ==> s'.jobs[k].message == m && JobOk(s'.messages[m], s'.jobs[k].pc)
    requires forall l :: l in s.jobs && l != k && s.jobs[l].message == m ==>
               s'.messages[m].Concluded() && JobOk(s'.messages[m], s.jobs[l].pc)
    ensures JobsOk(s')
  {
    forall l | l in s'.jobs
      ensures l != k ==> l in s.jobs && s'.jobs[l] == s.jobs[l]
    {
      if l != k {
        assert l in s'.jobs - {k};
      }
    }
  }

  lemma ReserveKeeps(s: State, m: MessageId, w: WalletId, cost: int)
    requires Inv(s) && Enabled(s, Reserve(m, w, cost))
    ensures Inv(ReserveNext(s, m, w, cost))
  {
  }

  /** Any update of a message's record that suits its workers keeps the invariant. */
  lemma PutKeeps(s: State, m: MessageId, r: Message)
    requires Inv(s) && m in s.messages && MessageOk(r) && r.wallet in s.available
    requires r.status == Some(Delivered) <==> s.messages[m].status == Some(Delivered)
    requires s.messages[m].Concluded() ==> r.Concluded()
    requires forall l :: l in s.jobs && s.jobs[l].message == m ==> JobOk(r, s.jobs[l].pc)
    ensures Inv(Put(s, m, r))
  {
  }

  /** So does any non-negative balance under the key of a known wallet. */
  lemma AvailableKeeps(s: State, w: WalletId, u: int)
    requires Inv(s) && w in s.pg && 0 <= u
    ensures Inv(s.(available := s.available[w := u]))
  {
    hide Debits, JobOk, MessageOk;
  }

  lemma CompensateEffect(s: State, m: MessageId)
    requires StageIs(s, m, Compensating) && s.messages[m].reservation.Some? && s.messages[m].wallet in s.available
    ensures var r := s.messages[m];
      Next(s, Compensate(m)) == Put(s, m, r.(reservation := None, stage := Abandoned))
        .(available := s.available[r.wallet := s.available[r.wallet] + r.reservation.value])
  {
    hide WorkerNext, WorkerEnabled;
    var r := s.messages[m];
    assert s.messages[m := r.(reservation := None)][m := r.(reservation := None, stage := Abandoned)]
        == s.messages[m := r.(reservation := None, stage := Abandoned)];
  }

  lemma CompensateKeeps(s: State, m: MessageId)
    requires Inv(s) && StageIs(s, m, Compensating)
    ensures Inv(Next(s, Compensate(m)))
  {
    hide Next, LedgerOk;
    var r := s.messages[m];
    assert MessageOk(r) && r.wallet in s.available && r.wallet in s.pg && 0 <= s.available[r.wallet];
    assert forall l :: l in s.jobs ==> s.jobs[l].message != m;
    hide BalancesOk, MessagesOk, JobsOk;
    CompensateEffect(s, m);
    var r' := r.(reservation := None, stage := Abandoned);
    PutKeeps(s, m, r');
    AvailableKeeps(Put(s, m, r'), r.wallet, s.available[r.wallet] + r.reservation.value);
  }

  lemma StageKeeps(s: State, a: Action)
    requires Inv(s) && (a.Enqueue? || a.EnqueueFails?) && Enabled(s, a)
    ensures Inv(Next(s, a))
  {
    hide WorkerNext, WorkerEnabled, BalancesOk;
    PutKeeps(s, a.m, s.messages[a.m].(stage := if a.Enqueue? then Enqueued else Compensating));
  }

  lemma LoadKeeps(s: State, m: MessageId, w: WalletId)
    requires Inv(s) && w in s.pg
    ensures Inv(s.(loads := s.loads[m := Write(w, s.pg[w])]))
  {
    hide Debits, JobOk, MessageOk;
  }

  lemma SetNXKeeps(s: State, m: MessageId)
    requires Inv(s) && m in s.loads
    ensures Inv(Next(s, SetNX(m)))
  {
    hide WorkerNext, WorkerEnabled;
    var x, s1 := s.loads[m], s.(loads := s.loads - {m});
    assert Inv(s1) by { hide Debits, JobOk, MessageOk; }
    if x.wallet !in s.available {
      AvailableKeeps(s1, x.wallet, x.units);
    }
  }

  lemma ForgetWrite(s: State, x: Write)
    requires Inv(s)
    ensures Inv(s.(writes := s.writes - multiset{x}))
  {
    hide Debits, JobOk, MessageOk;
  }

  lemma SetAvailableKeeps(s: State, w: WalletId, u: int)
    requires Inv(s) && Write(w, u) in s.writes
    ensures Inv(Next(s, SetAvailable(w, u)))
  {
    hide WorkerNext, WorkerEnabled;
    AvailableKeeps(s, w, u);
    hide Inv;
    ForgetWrite(s.(available := s.available[w := u]), Write(w, u));
  }

  /** Steps that leave the messages, the jobs and the debit rows alone only have to keep the balances. */
  lemma FrameKeeps(s: State, s': State)
    requires Inv(s) && BalancesOk(s') && LedgerOk(s')
    requires s'.messages == s.messages && s'.jobs == s.jobs && s.available.Keys <= s'.available.Keys
    ensures Inv(s')
  {
    hide BalancesOk, LedgerOk, MessageOk, JobOk;
  }

  lemma CreateWalletKeeps(s: State, w: WalletId, u: int)
    requires Inv(s) && Enabled(s, CreateWallet(w, u))
    ensures Inv(Next(s, CreateWallet(w, u)))
  {
    hide WorkerNext, WorkerEnabled, Debits, JobsOk, MessagesOk;
    var s' := Next(s, CreateWallet(w, u));
    assert BalancesOk(s') by { hide LedgerOk; }
    assert LedgerOk(s') by { hide BalancesOk; }
    hide Inv, BalancesOk, LedgerOk;
    FrameKeeps(s, s');
  }

  lemma TopUpLedger(s: State, w: WalletId, u: int, ref: MessageId)
    requires LedgerOk(s) && 0 < u
    ensures LedgerOk(s.(ledger := s.ledger + [LedgerRow(w, u, ref)]))
  {
    forall m {
      DebitsSnoc(s.ledger, LedgerRow(w, u, ref), m);
    }
    hide Debits;
  }

  lemma LedgerFrame(s: State, s': State)
    requires LedgerOk(s) && s'.ledger == s.ledger && s'.messages == s.messages
    ensures LedgerOk(s')
  {
    hide Debits;
  }

  lemma TopUpKeeps(s: State, w: WalletId, u: int, ref: MessageId)
    requires Inv(s) && Enabled(s, TopUp(w, u, ref))
    ensures Inv(Next(s, TopUp(w, u, ref)))
  {
    hide WorkerNext, WorkerEnabled, LedgerOk, JobsOk, MessagesOk;
    var s' := Next(s, TopUp(w, u, ref));
    assert BalancesOk(s');
    hide BalancesOk;
    TopUpLedger(s, w, u, ref);
    LedgerFrame(s.(ledger := s.ledger + [LedgerRow(w, u, ref)]), s');
    hide Inv;
    FrameKeeps(s, s');
  }

  lemma GotoKeeps(s: State, k: WorkerId, pc: Pc)
    requires Inv(s) && k in s.jobs && JobOk(s.messages[s.jobs[k].message], pc)
    ensures Inv(Goto(s, k, pc))
  {
  }

  lemma LeaveKeeps(s: State, k: WorkerId)
    requires Inv(s)
    ensures Inv(s.(jobs := s.jobs - {k}))
  {
  }

  lemma StartKeeps(s: State, k: WorkerId, m: MessageId, pc: Pc)
    requires Inv(s) && k !in s.jobs && m in s.messages && JobOk(s.messages[m], pc)
    requires s.messages[m].Concluded() || forall l :: l in s.jobs ==> s.jobs[l].message != m
    ensures Inv(s.(jobs := s.jobs[k := Job(m, pc)]))
  {
    var s' := s.(jobs := s.jobs[k := Job(m, pc)]);
    JobsStep(s, s', k, m);
  }

  lemma BeginKeeps(s: State, k: WorkerId, m: MessageId)
    requires Inv(s) && k !in s.jobs && StageIs(s, m, Enqueued) && (InFlight(s, m) ==> s.messages[m].Concluded())
    ensures Inv(BeginNext(s, k, m))
  {
    hide BalancesOk, LedgerOk;
    var r := s.messages[m];
    assert r.Concluded() || forall l :: l in s.jobs ==> s.jobs[l].message != m;
    if r.status.None? {
      PutKeeps(s, m, r.(status := Some(Processing)));
      StartKeeps(Put(s, m, r.(status := Some(Processing))), k, m, ToDecide);
    } else {
      assert r.status.value.Processing? || r.Terminal();
      StartKeeps(s, k, m, if r.Terminal() then ToCommit else ToDecide);
    }
  }

  lemma DebitLedger(s: State, s': State, m: MessageId, row: LedgerRow)
    requires LedgerOk(s) && m in s.messages && s.messages[m].status != Some(Delivered)
    requires row.reference == m && row.amount < 0 && s'.ledger == s.ledger + [row]
    requires s'.messages == s.messages[m := s.messages[m].(status := Some(Delivered))]
    ensures LedgerOk(s')
  {
    forall x {
      DebitsSnoc(s.ledger, row, x);
    }
  }

  lemma DebitBalances(s: State, w: WalletId, cost: int)
    requires BalancesOk(s) && w in s.available && 0 <= cost <= s.pg[w]
    ensures BalancesOk(s.(pg := s.pg[w := s.pg[w] - cost]))
  {
  }

  lemma DebitMessages(s: State, s': State, m: MessageId)
    requires MessagesOk(s) && m in s.messages
    requires s.messages[m].status == Some(Processing) && s.messages[m].reservation.Some?
    requires s'.messages == s.messages[m := s.messages[m].(status := Some(Delivered))] && s'.available == s.available
    ensures MessagesOk(s')
  {
  }

  lemma DebitJobs(s: State, k: WorkerId)
    requires JobsOk(s) && At(s, k, ToDebit) && Affords(s, s.jobs[k].message)
    ensures JobsOk(DebitNext(s, k))
  {
    var m := s.jobs[k].message;
    assert JobOk(s.messages[m], ToDebit) && !s.messages[m].Concluded();
    JobsStep(s, DebitNext(s, k), k, m);
  }

  lemma DebitKeeps(s: State, k: WorkerId)
    requires Inv(s) && At(s, k, ToDebit) && Affords(s, s.jobs[k].message)
    ensures Inv(DebitNext(s, k))
  {
    hide LedgerOk, BalancesOk;
    DebitJobs(s, k);
    var s', m := DebitNext(s, k), s.jobs[k].message;
    var r := s.messages[m];
    assert JobOk(r, ToDebit) && r.cost > 0 && r.wallet in s.available;
    hide MessagesOk, MessageOk, JobsOk, JobOk;
    DebitBalances(s, r.wallet, r.cost);
    BalancesFrame(s.(pg := s'.pg), s');
    DebitMessages(s, s', m);
    DebitLedger(s, s', m, LedgerRow(r.wallet, -r.cost, m));
  }

  lemma BalancesFrame(s: State, s': State)
    requires BalancesOk(s) && s'.available == s.available && s'.pg == s.pg
    requires s'.loads == s.loads && s'.writes == s.writes
    ensures BalancesOk(s')
  {
  }

  lemma RefundKeeps(s: State, k: WorkerId)
    requires Inv(s) && At(s, k, ToRefund)
    ensures Inv(Goto(RefundNext(s, s.jobs[k].message), k, ToMark))
  {
    var m := s.jobs[k].message;
    var s1 := RefundNext(s, m);
    assert Inv(s1) by {
      var r := s.messages[m];
      PutKeeps(s, m, r.(reservation := None));
    }
    GotoKeeps(s1, k, ToMark);
  }

  lemma ReturnJobs(s: State, k: WorkerId, r: Message)
    requires JobsOk(s) && k in s.jobs && r.Settled()
    requires forall l :: l in s.jobs && s.jobs[l].message == s.jobs[k].message && l != k ==> JobOk(r, s.jobs[l].pc)
    ensures JobsOk(Return(s, k, r))
  {
    JobsStep(s, Return(s, k, r), k, s.jobs[k].message);
  }

  lemma ReturnMessages(s: State, k: WorkerId, r: Message)
    requires MessagesOk(s) && k in s.jobs && s.jobs[k].message in s.messages
    requires MessageOk(r.(finished := true)) && r.wallet in s.available
    ensures MessagesOk(Return(s, k, r))
  {
    hide MessageOk;
  }

  lemma ReturnLedger(s: State, k: WorkerId, r: Message)
    requires LedgerOk(s) && k in s.jobs && s.jobs[k].message in s.messages
    requires r.status == Some(Delivered) <==> s.messages[s.jobs[k].message].status == Some(Delivered)
    ensures LedgerOk(Return(s, k, r))
  {
    hide Debits;
  }

  lemma ReturnKeeps(s: State, k: WorkerId, r: Message)
    requires Inv(s) && k in s.jobs && MessageOk(r.(finished := true)) && r.wallet in s.available
    requires r.status == Some(Delivered) <==> s.messages[s.jobs[k].message].status == Some(Delivered)
    requires forall l :: l in s.jobs && s.jobs[l].message == s.jobs[k].message && l != k ==> JobOk(r, s.jobs[l].pc)
    ensures Inv(Return(s, k, r))
  {
    assert r.Settled() && s.jobs[k].message in s.messages;
    hide JobsOk, JobOk, BalancesOk, LedgerOk, MessagesOk, MessageOk;
    ReturnJobs(s, k, r);
    ReturnMessages(s, k, r);
    ReturnLedger(s, k, r);
    BalancesFrame(s, Return(s, k, r));
  }

  lemma RequestInv(s: State, a: Action)
    requires Inv(s) && Enabled(s, a) && !WorkerStep(a)
    ensures Inv(Next(s, a))
  {
    hide Inv, WorkerNext, WorkerEnabled;
    match a
    case Reserve(m, w, cost) => ReserveKeeps(s, m, w, cost);
    case Load(m, w) => LoadKeeps(s, m, w);
    case SetNX(m) => SetNXKeeps(s, m);
    case Enqueue(_) => StageKeeps(s, a);
    case EnqueueFails(_) => StageKeeps(s, a);
    case Compensate(m) => CompensateKeeps(s, m);
    case CreateWallet(w, u) => CreateWalletKeeps(s, w, u);
    case TopUp(w, u, ref) => TopUpKeeps(s, w, u, ref);
    case SetAvailable(w, u) => SetAvailableKeeps(s, w, u);
    case SetAvailableLost(w, u) => ForgetWrite(s, Write(w, u));
  }

  /** A worker's decisions go where its message allows. */
  lemma DecisionInv(s: State, a: Action)
    requires Inv(s) && Enabled(s, a) && (a.Expire? || a.Check? || a.Send? || a.DebitFails?)
    ensures Inv(Next(s, a))
  {
    hide BalancesOk, LedgerOk, RequestNext, RequestEnabled;
    var k := a.k;
    assert JobOk(s.messages[s.jobs[k].message], s.jobs[k].pc) && MessageOk(s.messages[s.jobs[k].message]);
    hide JobsOk, MessagesOk;
    match a
    case Expire(_) => GotoKeeps(s, k, ToRefund);
    case Check(_) =>
      var r := s.messages[s.jobs[k].message];
      GotoKeeps(s, k, if r.reservation.Some? then ToSend else ToMark);
    case Send(_, ok) => GotoKeeps(s, k, if ok then ToDebit else ToRefund);
    case DebitFails(_) => GotoKeeps(s, k, ToRefund);
  }

  lemma ReturnInv(s: State, a: Action)
    requires Inv(s) && Enabled(s, a) && (a.Mark? || a.Commit?)
    ensures Inv(Next(s, a))
  {
    hide BalancesOk, LedgerOk, RequestNext, RequestEnabled;
    var r := s.messages[s.jobs[a.k].message];
    assert JobOk(r, s.jobs[a.k].pc) && MessageOk(r) && r.wallet in s.available;
    assert forall l :: l in s.jobs && s.jobs[l].message == s.jobs[a.k].message ==> JobOk(r, s.jobs[l].pc);
    hide JobsOk, MessagesOk;
    if a.Mark? {
      ReturnKeeps(s, a.k, r.(status := Some(Status.Refunded)));
    } else {
      ReturnKeeps(s, a.k, r.(reservation := None));
    }
  }

  lemma DebitInv(s: State, k: WorkerId)
    requires Inv(s) && At(s, k, ToDebit)
    ensures Inv(DebitNext(s, k))
  {
    if Affords(s, s.jobs[k].message) {
      DebitKeeps(s, k);
    } else {
      GotoKeeps(s, k, ToRefund);
    }
  }

  lemma WorkerInv(s: State, a: Action)
    requires Inv(s) && Enabled(s, a) && Admissible(s, a) && WorkerStep(a)
    ensures Inv(Next(s, a))
  {
    hide Inv, RequestNext, RequestEnabled, InFlight;
    match a
    case Begin(k, m) => BeginKeeps(s, k, m);
    case Expire(_) => DecisionInv(s, a);
    case Check(_) => DecisionInv(s, a);
    case Send(_, _) => DecisionInv(s, a);
    case Debit(k) => DebitInv(s, k);
    case DebitFails(_) => DecisionInv(s, a);
    case Refund(k) => RefundKeeps(s, k);
    case Mark(_) => ReturnInv(s, a);
    case Commit(_) => ReturnInv(s, a);
    case Fail(k) => LeaveKeeps(s, k);
  }

  /** Every step keeps the invariant, unless it begins a message that holds credit and that another worker holds. */
  lemma StepInv(s: State, a: Action)
    requires Inv(s) && Enabled(s, a) && Admissible(s, a)
    ensures Inv(Next(s, a))
  {
    hide Inv, Next, Enabled, Admissible;
    if WorkerStep(a) { WorkerInv(s, a); } else { RequestInv(s, a); }
  }

  lemma {:induction false} RunInv(s: State, acts: seq<Action>, s': State)
    requires Inv(s) && Run(s, acts, s')
    ensures Inv(s')
    decreases |acts|
  {
    hide Next, Enabled, Admissible, Inv;
    if acts != [] {
      StepInv(s, acts[0]);
      RunInv(Next(s, acts[0]), acts[1..], s');
    }
  }

  /**
   Exactly one settlement. Whatever crashes, errors and admissible
   redeliveries occur, a message is delivered iff the ledger debits it, never
   more than once; a refunded one has neither debit nor reservation; and a
   worker can only return nil once its message is settled.
   */
  lemma ExactlyOneSettlement(acts: seq<Action>, s: State, m: MessageId)
    requires Run(INITIAL, acts, s) && m in s.messages
    ensures var r := s.messages[m];
      && Debits(s.ledger, m) <= 1
      && (r.status == Some(Delivered) <==> Debits(s.ledger, m) == 1)
      && (r.status == Some(Status.Refunded) ==> Debits(s.ledger, m) == 0 && r.reservation.None?)
      && (r.finished <==> r.Settled())
    ensures forall w :: w in s.pg ==> 0 <= s.pg[w]
  {
    hide Next, Enabled;
    InitialInv();
    RunInv(INITIAL, acts, s);
  }

  /** The terminal shortcut's `Commit` can only ever discard a delivered message's reservation. */
  lemma CommitDiscardsOnlyDelivered(acts: seq<Action>, s: State, k: WorkerId)
    requires Run(INITIAL, acts, s) && At(s, k, ToCommit)
    ensures var r := s.messages[s.jobs[k].message];
      r.reservation.Some? ==> r.status == Some(Delivered) && Debits(s.ledger, s.jobs[k].message) == 1
  {
    hide Next, Enabled;
    InitialInv();
    RunInv(INITIAL, acts, s);
  }

  /** What no step may do to a message's record. */
  predicate Follows(r: Message, r': Message) {
    && r'.wallet == r.wallet && r'.cost == r.cost
    && (r.Terminal() ==> r'.status == r.status)
    && (r.reservation.None? ==> r'.reservation.None?)
    && (r.finished ==> r'.finished)
  }

  lemma RequestStable(s: State, a: Action, m: MessageId)
    requires !WorkerStep(a) && Enabled(s, a) && m in s.messages
    ensures m in Next(s, a).messages && Follows(s.messages[m], Next(s, a).messages[m])
  {
    hide WorkerNext, WorkerEnabled, RefundNext;
    match a
    case Reserve(_, _, _) =>
    case Load(_, _) =>
    case SetNX(_) =>
    case Enqueue(_) =>
    case EnqueueFails(_) =>
    case Compensate(x) => RefundStable(s, x);
    case CreateWallet(_, _) =>
    case TopUp(_, _, _) =>
    case SetAvailable(_, _) =>
    case SetAvailableLost(_, _) =>
  }

  lemma RefundStable(s: State, m: MessageId)
    requires m in s.messages
    ensures RefundNext(s, m).messages == s.messages[m := s.messages[m].(reservation := None)]
  {
  }

  lemma WorkerStable(s: State, a: Action, m: MessageId)
    requires WorkerStep(a) && Enabled(s, a) && m in s.messages
    requires !a.Begin? ==> s.jobs[a.k].message in s.messages && JobOk(s.messages[s.jobs[a.k].message], s.jobs[a.k].pc)
    ensures m in Next(s, a).messages && Follows(s.messages[m], Next(s, a).messages[m])
  {
    hide RequestNext, RequestEnabled;
  }

  /** One step never changes what a message costs whom, a terminal status, or a settlement. */
  lemma StepStable(s: State, a: Action, m: MessageId)
    requires Inv(s) && Enabled(s, a) && m in s.messages
    ensures m in Next(s, a).messages && Follows(s.messages[m], Next(s, a).messages[m])
  {
    hide BalancesOk, LedgerOk, MessagesOk, Next, Follows, JobOk;
    if WorkerStep(a) { WorkerStable(s, a, m); } else { RequestStable(s, a, m); }
  }

  /** Terminal statuses never change, and a settled message stays settled. */
  lemma {:induction false} TerminalForever(s: State, acts: seq<Action>, s': State, m: MessageId)
    requires Inv(s) && Run(s, acts, s') && m in s.messages && s.messages[m].Terminal()
    ensures m in s'.messages && s'.messages[m].status == s.messages[m].status
    ensures s.messages[m].Settled() ==> s'.messages[m].Settled()
    decreases |acts|
  {
    hide Next, Enabled, Admissible, Inv;
    if acts != [] {
      StepInv(s, acts[0]);
      StepStable(s, acts[0], m);
      TerminalForever(Next(s, acts[0]), acts[1..], s', m);
    }
  }

  /** Processing a settled message again changes nothing at all. */
  lemma ReplayIsNoOp(s: State, k: WorkerId, m: MessageId)
    requires Inv(s) && k !in s.jobs && m in s.messages && s.messages[m].Settled()
    ensures Enabled(s, Begin(k, m)) && Enabled(Next(s, Begin(k, m)), Commit(k))
    ensures Next(Next(s, Begin(k, m)), Commit(k)) == s
  {
    hide LedgerOk, BalancesOk, JobsOk;
    var s1 := Next(s, Begin(k, m));
    assert s1.messages == s.messages && At(s1, k, ToCommit);
    assert Next(s1, Commit(k)).messages == s.messages;
    assert Next(s1, Commit(k)).jobs == s.jobs;
  }

  // ---------- recovery ----------

  /** How many more of its own steps a worker needs at most. */
  function Rank(pc: Pc): nat {
    match pc
    case ToDecide => 5
    case ToSend => 4
    case ToDebit => 3
    case ToRefund => 2
    case ToMark => 1
    case ToCommit => 1
  }

  predicate By(a: Action, k: WorkerId) {
    WorkerStep(a) && a.k == k
  }

  function OwnSteps(acts: seq<Action>, k: WorkerId): nat {
    if acts == [] then 0 else (if By(acts[0], k) then 1 else 0) + OwnSteps(acts[1..], k)
  }

  /** Steps of others leave a worker's job alone. */
  lemma OthersStep(s: State, a: Action, k: WorkerId)
    requires Enabled(s, a) && k in s.jobs && !By(a, k)
    ensures k in Next(s, a).jobs && Next(s, a).jobs[k] == s.jobs[k]
  {
    if WorkerStep(a) { hide RequestNext, RequestEnabled; } else { hide WorkerNext, WorkerEnabled; }
  }

  /** Any step of a worker other than a failure brings it closer to settling its message, or settles it. */
  lemma OwnStep(s: State, a: Action, k: WorkerId)
    requires Enabled(s, a) && k in s.jobs && By(a, k) && a != Fail(k)
    ensures var s', m := Next(s, a), s.jobs[k].message;
      if k in s'.jobs then s'.jobs[k].message == m && Rank(s'.jobs[k].pc) < Rank(s.jobs[k].pc)
      else m in s'.messages && s'.messages[m].finished
  {
    hide RequestNext, RequestEnabled;
  }

  /** A worker that holds a message always has a next step other than failing. */
  lemma NeverBlocked(s: State, k: WorkerId)
    requires Inv(s) && k in s.jobs
    ensures exists a :: By(a, k) && a != Fail(k) && Enabled(s, a)
  {
    var a := match s.jobs[k].pc
      case ToDecide => Check(k)
      case ToSend => Send(k, true)
      case ToDebit => Debit(k)
      case ToRefund => Refund(k)
      case ToMark => Mark(k)
      case ToCommit => Commit(k);
    assert By(a, k) && a != Fail(k) && Enabled(s, a);
  }

  /**
   Recovery. From every reachable state, a worker that holds a message and does
   not fail has settled it after at most Rank of its own steps, however the steps
   of all other processes interleave with them.
   */
  lemma {:induction false} Recovery(s: State, acts: seq<Action>, s': State, k: WorkerId)
    requires Inv(s) && Run(s, acts, s') && k in s.jobs
    requires Fail(k) !in acts && Rank(s.jobs[k].pc) <= OwnSteps(acts, k)
    ensures s.jobs[k].message in s'.messages && s'.messages[s.jobs[k].message].Settled()
    decreases |acts|
  {
    hide Next, Enabled, Admissible, By, BalancesOk, LedgerOk, MessagesOk, MessageOk;
    var a, m := acts[0], s.jobs[k].message;
    var s1 := Next(s, a);
    StepInv(s, a);
    if By(a, k) { OwnStep(s, a, k); } else { OthersStep(s, a, k); }
    if k in s1.jobs {
      Recovery(s1, acts[1..], s', k);
    } else {
      FinishedSettled(s1, m);
      TerminalForever(s1, acts[1..], s', m);
    }
  }

  lemma FinishedSettled(s: State, m: MessageId)
    requires Inv(s) && m in s.messages && s.messages[m].finished
    ensures s.messages[m].Settled()
  {
  }
}
