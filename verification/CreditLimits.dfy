/**
 Where the protocol's promises stop. The assumptions that the safety results make are needed,
 and not because of one contrived input: an inadmissible overlap, a top-up while credit is
 reserved, or a lost reply of the reserve script breaks the promise from every state of its kind.
 */
module CreditLimits {
  import opened Options
  import opened CreditProtocol
  import opened CreditSafety
  import opened CreditDrift
  import opened CreditHistory
  import Gateway

  lemma OneStep(s: State, a: Action)
    requires Enabled(s, a) && Admissible(s, a)
    ensures Run(s, [a], Next(s, a))
  {
    hide Next, Enabled, Admissible;
    assert Run(Next(s, a), [], Next(s, a));
  }

  /** Steps that are not begins are always admissible. */
  lemma TwoSteps(s: State, a: Action, b: Action)
    requires Enabled(s, a) && !a.Begin? && Enabled(Next(s, a), b) && Admissible(Next(s, a), b)
    ensures Run(s, [a, b], Next(Next(s, a), b))
  {
    hide Next, Enabled;
    OneStep(s, a);
    RunSnoc(s, [a], Next(s, a), b);
    assert [a] + [b] == [a, b];
  }

  /** A worker that finds credit reserved sends the message and comes to its debit. */
  lemma Carry(s: State, l: WorkerId, m: MessageId) returns (acts: seq<Action>, s': State)
    requires At(s, l, ToDecide) && s.jobs[l].message == m && s.messages[m].reservation.Some?
    ensures Run(s, acts, s') && s' == s.(jobs := s.jobs[l := Job(m, ToDebit)])
    ensures forall a :: a in acts ==> !a.TopUp? && !a.SetAvailable?
  {
    hide Run, RequestNext, RequestEnabled;
    acts, s' := [Check(l), Send(l, true)], Next(Next(s, Check(l)), Send(l, true));
    assert s'.jobs == s.jobs[l := Job(m, ToDebit)];
    TwoSteps(s, Check(l), Send(l, true));
  }

  // ---------- overlapping deliveries ----------

  /** A top-up, if the wallet needs one, that makes the debit of a message affordable. */
  lemma Fund(s: State, m: MessageId) returns (acts: seq<Action>, s': State)
    requires m in s.messages && 0 < s.messages[m].cost
    requires s.messages[m].wallet in s.pg && 0 <= s.pg[s.messages[m].wallet]
    ensures Run(s, acts, s') && s'.messages == s.messages && s'.jobs == s.jobs && Affords(s', m)
    ensures Debits(s'.ledger, m) == Debits(s.ledger, m) && s'.pg.Keys == s.pg.Keys
  {
    var w, cost := s.messages[m].wallet, s.messages[m].cost;
    if cost <= s.pg[w] {
      acts, s' := [], s;
    } else {
      var a := TopUp(w, cost, m);
      acts, s' := [a], Next(s, a);
      DebitsSnoc(s.ledger, LedgerRow(w, cost, m), m);
      OneStep(s, a);
    }
  }

  lemma DebitsOnce(s: State, l: WorkerId) returns (s': State)
    requires At(s, l, ToDebit) && Affords(s, s.jobs[l].message) && s.messages[s.jobs[l].message].cost > 0
    ensures Enabled(s, Debit(l)) && s' == Next(s, Debit(l)) && Run(s, [Debit(l)], s')
    ensures var m := s.jobs[l].message;
      && Debits(s'.ledger, m) == Debits(s.ledger, m) + 1
      && s'.messages == s.messages[m := s.messages[m].(status := Some(Delivered))]
    ensures s'.jobs == s.jobs[l := Job(s.jobs[l].message, ToCommit)]
    ensures var w := s.messages[s.jobs[l].message].wallet; w in s'.pg && 0 <= s'.pg[w]
  {
    hide RequestNext, RequestEnabled;
    s' := Next(s, Debit(l));
    var m := s.jobs[l].message;
    DebitsSnoc(s.ledger, LedgerRow(s.messages[m].wallet, -s.messages[m].cost, m), m);
    OneStep(s, Debit(l));
  }

  lemma FundAndDebit(s: State, l: WorkerId, m: MessageId) returns (acts: seq<Action>, s': State)
    requires At(s, l, ToDebit) && s.jobs[l].message == m
    requires s.messages[m].wallet in s.pg && 0 <= s.pg[s.messages[m].wallet] && 0 < s.messages[m].cost
    ensures Run(s, acts, s') && Debits(s'.ledger, m) == Debits(s.ledger, m) + 1
    ensures s'.messages == s.messages[m := s.messages[m].(status := Some(Delivered))]
    ensures s'.jobs == s.jobs[l := Job(m, ToCommit)]
    ensures s.messages[m].wallet in s'.pg && 0 <= s'.pg[s.messages[m].wallet]
  {
    hide Run, Next, Enabled, Affords;
    var xs, s1 := Fund(s, m);
    s' := DebitsOnce(s1, l);
    RunConcat(s, xs, s1, [Debit(l)], s');
    acts := xs + [Debit(l)];
  }

  /** A worker that has not come past its debit can still fail on the way and turn to refund. */
  lemma Withdraw(s: State, k: WorkerId) returns (acts: seq<Action>, s': State)
    requires k in s.jobs && s.jobs[k].message in s.messages && s.jobs[k].pc in {ToDecide, ToSend, ToDebit, ToRefund}
    ensures Run(s, acts, s') && s' == s.(jobs := s.jobs[k := Job(s.jobs[k].message, ToRefund)])
  {
    hide RequestNext, RequestEnabled;
    if s.jobs[k].pc == ToRefund {
      acts, s' := [], s;
      assert s.jobs[k := s.jobs[k]] == s.jobs;
    } else {
      var a := match s.jobs[k].pc
        case ToDecide => Expire(k)
        case ToSend => Send(k, false)
        case _ => DebitFails(k);
      acts, s' := [a], Next(s, a);
      OneStep(s, a);
    }
  }

  /** It gives back whatever is reserved and marks the message refunded, whatever the status was. */
  lemma RefundsBlindly(s: State, k: WorkerId) returns (acts: seq<Action>, s': State)
    requires At(s, k, ToRefund)
    ensures Run(s, acts, s') && s'.ledger == s.ledger
    ensures var m := s.jobs[k].message; m in s'.messages && s'.messages[m].status == Some(Status.Refunded)
  {
    hide Run, RequestNext, RequestEnabled;
    acts, s' := [Action.Refund(k), Mark(k)], Next(Next(s, Action.Refund(k)), Mark(k));
    TwoSteps(s, Action.Refund(k), Mark(k));
  }

  /** Two workers before their debits on one message: it can end up charged and refunded. */
  lemma ChargedAndRefunded(s: State, k: WorkerId, l: WorkerId, m: MessageId) returns (acts: seq<Action>, s': State)
    requires k in s.jobs && l in s.jobs && k != l && s.jobs[k].message == m && s.jobs[l] == Job(m, ToDecide)
    requires m in s.messages && s.messages[m].reservation.Some? && s.jobs[k].pc in {ToDecide, ToSend, ToDebit, ToRefund}
    requires s.messages[m].wallet in s.pg && 0 <= s.pg[s.messages[m].wallet] && 0 < s.messages[m].cost
    ensures Run(s, acts, s') && m in s'.messages && s'.messages[m].status == Some(Status.Refunded)
    ensures Debits(s'.ledger, m) == Debits(s.ledger, m) + 1
  {
    hide Run, Next, Enabled, Affords;
    var xs, s1 := Carry(s, l, m);
    var ys, s2 := FundAndDebit(s1, l, m);
    var zs, s3 := Withdraw(s2, k);
    RunConcat(s, xs, s1, ys, s2);
    RunConcat(s, xs + ys, s2, zs, s3);
    var us;
    us, s' := RefundsBlindly(s3, k);
    RunConcat(s, xs + ys + zs, s3, us, s');
    acts := xs + ys + zs + us;
  }

  /** What an inadmissible begin finds. */
  lemma Overlaps(s: State, l: WorkerId, m: MessageId) returns (k: WorkerId)
    requires Inv(s) && Enabled(s, Begin(l, m)) && !Admissible(s, Begin(l, m))
    ensures k in s.jobs && k != l && s.jobs[k].message == m && s.jobs[k].pc in {ToDecide, ToSend, ToDebit, ToRefund}
    ensures Next(s, Begin(l, m)) == s.(jobs := s.jobs[l := Job(m, ToDecide)])
    ensures m in s.messages && s.messages[m].reservation.Some? && s.messages[m].status == Some(Processing)
    ensures s.messages[m].wallet in s.pg && 0 <= s.pg[s.messages[m].wallet] && 0 < s.messages[m].cost
  {
    hide LedgerOk, RequestNext, RequestEnabled;
    k :| k in s.jobs && s.jobs[k].message == m;
    assert MessageOk(s.messages[m]) && JobOk(s.messages[m], s.jobs[k].pc);
  }

  /**
   Beginning a message that another worker holds while credit is reserved for it breaks
   exactly-once settlement: from every such state, the message can end up charged by one
   worker and refunded by the other, although everybody behaves from then on.
   */
  lemma OverlapBreaksSettlement(s: State, l: WorkerId, m: MessageId) returns (acts: seq<Action>, s': State)
    requires Inv(s) && Enabled(s, Begin(l, m)) && !Admissible(s, Begin(l, m))
    ensures Run(Next(s, Begin(l, m)), acts, s')
    ensures m in s'.messages && s'.messages[m].status == Some(Status.Refunded) && Debits(s'.ledger, m) == 1
  {
    hide Run, Next, Enabled;
    var k := Overlaps(s, l, m);
    assert Debits(s.ledger, m) == 0;
    hide Inv, Admissible;
    acts, s' := ChargedAndRefunded(Next(s, Begin(l, m)), k, l, m);
  }

  /** Every admissible future of this state debits exactly the delivered messages, once. */
  ghost predicate SettlesOnce(s: State) {
    forall acts, s' :: Run(s, acts, s') ==> LedgerOk(s')
  }

  /**
   The assumption about overlaps is exact: a delivery may begin a message, in any reachable state
   and however the run goes on, if and only if nobody holds the message or it is concluded.
   */
  lemma OverlapIsSafeExactly(s: State, l: WorkerId, m: MessageId)
    requires Inv(s) && Enabled(s, Begin(l, m))
    ensures Admissible(s, Begin(l, m)) <==> SettlesOnce(Next(s, Begin(l, m)))
  {
    hide Next, Enabled, Admissible, Run, Debits;
    var t := Next(s, Begin(l, m));
    if Admissible(s, Begin(l, m)) {
      StepInv(s, Begin(l, m));
      forall acts, s' | Run(t, acts, s')
        ensures LedgerOk(s')
      {
        RunInv(t, acts, s');
      }
    } else {
      var acts, s' := OverlapBreaksSettlement(s, l, m);
      assert !LedgerOk(s');
    }
  }

  /** A worker that has not turned to refund can still come to its debit. */
  lemma Advance(s: State, k: WorkerId, m: MessageId) returns (acts: seq<Action>, s': State)
    requires k in s.jobs && s.jobs[k].message == m && m in s.messages && s.messages[m].reservation.Some?
    requires s.jobs[k].pc in {ToDecide, ToSend, ToDebit}
    ensures Run(s, acts, s') && s' == s.(jobs := s.jobs[k := Job(m, ToDebit)])
  {
    hide RequestNext, RequestEnabled;
    if s.jobs[k].pc == ToDecide {
      acts, s' := Carry(s, k, m);
    } else if s.jobs[k].pc == ToSend {
      acts, s' := [Send(k, true)], Next(s, Send(k, true));
      OneStep(s, Send(k, true));
    } else {
      acts, s' := [], s;
      assert s.jobs[k := s.jobs[k]] == s.jobs;
    }
  }

  /** If the first worker has not turned to refund, the message can also be charged twice. */
  lemma OverlapDebitsTwice(s: State, k: WorkerId, l: WorkerId, m: MessageId) returns (acts: seq<Action>, s': State)
    requires Inv(s) && Enabled(s, Begin(l, m)) && !Admissible(s, Begin(l, m))
    requires k in s.jobs && s.jobs[k].message == m && s.jobs[k].pc in {ToDecide, ToSend, ToDebit}
    ensures Run(Next(s, Begin(l, m)), acts, s') && Debits(s'.ledger, m) == 2
  {
    hide Run, Next;
    var _ := Overlaps(s, l, m);
    assert Debits(s.ledger, m) == 0 && k != l;
    hide Inv, Admissible, Enabled;
    var s0 := Next(s, Begin(l, m));
    var xs, s1 := Carry(s0, l, m);
    var ys, s2 := Advance(s1, k, m);
    var zs, s3 := FundAndDebit(s2, k, m);
    RunConcat(s0, xs, s1, ys, s2);
    RunConcat(s0, xs + ys, s2, zs, s3);
    var us;
    us, s' := FundAndDebit(s3, l, m);
    RunConcat(s0, xs + ys + zs, s3, us, s');
    acts := xs + ys + zs + us;
  }

  // ---------- such states are reached ----------

  /** A fresh request is enqueued and carried up to its debit. */
  lemma Dispatch(s: State, l: WorkerId, m: MessageId) returns (acts: seq<Action>, s': State)
    requires l !in s.jobs && StageIs(s, m, Accepted) && !InFlight(s, m)
    requires s.messages[m].status.None? && s.messages[m].reservation.Some?
    ensures Run(s, acts, s')
    ensures s' == Put(s, m, s.messages[m].(stage := Enqueued, status := Some(Processing)))
                    .(jobs := s.jobs[l := Job(m, ToDebit)])
    ensures forall a :: a in acts ==> !a.TopUp? && !a.SetAvailable?
  {
    hide Run;
    var s1 := Next(s, Enqueue(m));
    var s2 := Next(s1, Begin(l, m));
    assert s2.messages == s.messages[m := s.messages[m].(stage := Enqueued, status := Some(Processing))];
    TwoSteps(s, Enqueue(m), Begin(l, m));
    hide Next, Enabled;
    var rest;
    rest, s' := Carry(s2, l, m);
    RunConcat(s, [Enqueue(m), Begin(l, m)], s2, rest, s');
    acts := [Enqueue(m), Begin(l, m)] + rest;
    assert s'.jobs == s.jobs[l := Job(m, ToDebit)];
  }

  lemma OpenWallet(w: WalletId, units: int) returns (acts: seq<Action>, s: State)
    requires 0 <= units
    ensures Run(INITIAL, acts, s) && s == INITIAL.(pg := map[w := units], available := map[w := units])
  {
    hide WorkerNext, WorkerEnabled, Run;
    acts := [CreateWallet(w, units), SetAvailable(w, units)];
    s := Next(Next(INITIAL, acts[0]), acts[1]);
    TwoSteps(INITIAL, CreateWallet(w, units), SetAvailable(w, units));
  }

  /** From the very start, a worker can come to a debit, and then an inadmissible begin is possible. */
  lemma OverlapIsReachable(w: WalletId, units: int, m: MessageId, cost: int, k: WorkerId, l: WorkerId)
    returns (acts: seq<Action>, s: State)
    requires 0 < cost <= units && k != l
    ensures Run(INITIAL, acts, s) && At(s, k, ToDebit) && s.jobs[k].message == m
    ensures Enabled(s, Begin(l, m)) && !Admissible(s, Begin(l, m))
  {
    hide Run;
    var xs, s1 := OpenWallet(w, units);
    var s2 := Next(s1, Reserve(m, w, cost));
    OneStep(s1, Reserve(m, w, cost));
    var zs;
    zs, s := Dispatch(s2, k, m);
    RunConcat(INITIAL, xs, s1, [Reserve(m, w, cost)], s2);
    RunConcat(INITIAL, xs + [Reserve(m, w, cost)], s2, zs, s);
    acts := xs + [Reserve(m, w, cost)] + zs;
    assert k in s.jobs && s.jobs[k].message == m;
  }

  // ---------- failures after a send ----------

  lemma AcceptancesCons(s: State, a: Action, rest: seq<Action>, m: MessageId)
    requires Enabled(s, a)
    ensures Acceptances(s, [a] + rest, m) == (if Accepts(s, a, m) then 1 else 0) + Acceptances(Next(s, a), rest, m)
  {
    hide Next, Enabled, Accepts;
    assert ([a] + rest)[1..] == rest;
  }

  lemma FailAndBegin(s: State, k: WorkerId, m: MessageId)
    requires Inv(s) && At(s, k, ToDebit) && s.jobs[k].message == m
    ensures Enabled(s, Fail(k)) && s.messages[m].reservation.Some?
    ensures var s1 := Next(s, Fail(k));
      && Enabled(s1, Begin(k, m)) && Admissible(s1, Begin(k, m))
      && Next(s1, Begin(k, m)) == s.(jobs := s.jobs[k := Job(m, ToDecide)])
  {
    hide LedgerOk, BalancesOk, RequestNext, RequestEnabled;
    assert JobOk(s.messages[m], ToDebit) && !s.messages[m].Concluded();
    assert forall l :: l in s.jobs && s.jobs[l].message == m ==> l == k;
    hide JobsOk, MessagesOk;
    assert (s.jobs - {k})[k := Job(m, ToDecide)] == s.jobs[k := Job(m, ToDecide)];
  }

  lemma CheckAndSend(s: State, k: WorkerId, m: MessageId)
    requires At(s, k, ToDecide) && s.jobs[k].message == m && s.messages[m].reservation.Some?
    ensures Enabled(s, Check(k)) && Enabled(Next(s, Check(k)), Send(k, true))
    ensures Accepts(Next(s, Check(k)), Send(k, true), m)
    ensures Next(Next(s, Check(k)), Send(k, true)) == s.(jobs := s.jobs[k := Job(m, ToDebit)])
  {
    hide RequestNext, RequestEnabled;
  }

  /** A worker that fails at its debit and begins again comes back to it by sending the message again. */
  lemma FailureSendsAgain(s: State, k: WorkerId, m: MessageId) returns (acts: seq<Action>)
    requires Inv(s) && At(s, k, ToDebit) && s.jobs[k].message == m
    ensures Run(s, acts, s) && Acceptances(s, acts, m) == 1 && acts[..1] == [Fail(k)]
  {
    hide Inv, Next, Enabled, Run, Acceptances;
    FailAndBegin(s, k, m);
    TwoSteps(s, Fail(k), Begin(k, m));
    var s2 := s.(jobs := s.jobs[k := Job(m, ToDecide)]);
    CheckAndSend(s2, k, m);
    TwoSteps(s2, Check(k), Send(k, true));
    assert s2.(jobs := s2.jobs[k := Job(m, ToDebit)]) == s;
    RunConcat(s, [Fail(k), Begin(k, m)], s2, [Check(k), Send(k, true)], s);
    SendsOnce(s, k, m);
    acts := [Fail(k), Begin(k, m)] + [Check(k), Send(k, true)];
    assert acts == [Fail(k)] + ([Begin(k, m)] + ([Check(k)] + ([Send(k, true)] + [])));
  }

  lemma SendsOnce(s: State, k: WorkerId, m: MessageId)
    requires Enabled(s, Fail(k)) && Enabled(Next(s, Fail(k)), Begin(k, m))
    requires var s2 := Next(Next(s, Fail(k)), Begin(k, m));
      && Enabled(s2, Check(k)) && Enabled(Next(s2, Check(k)), Send(k, true))
      && Accepts(Next(s2, Check(k)), Send(k, true), m)
    ensures Acceptances(s, [Fail(k)] + ([Begin(k, m)] + ([Check(k)] + ([Send(k, true)] + []))), m) == 1
  {
    var s1 := Next(s, Fail(k));
    var s2 := Next(s1, Begin(k, m));
    var s3 := Next(s2, Check(k));
    assert Acceptances(Next(s3, Send(k, true)), [], m) == 0;
    hide Next, Enabled, Acceptances;
    AcceptancesCons(s3, Send(k, true), [], m);
    AcceptancesCons(s2, Check(k), [Send(k, true)] + [], m);
    AcceptancesCons(s1, Begin(k, m), [Check(k)] + ([Send(k, true)] + []), m);
    AcceptancesCons(s, Fail(k), [Begin(k, m)] + ([Check(k)] + ([Send(k, true)] + [])), m);
  }

  // ---------- top-ups over reserved credit ----------

  /** There is always an unused message id. */
  lemma {:induction false} LongerThanAll(ids: set<MessageId>) returns (n: nat)
    ensures forall m :: m in ids ==> |m| < n
  {
    if ids == {} {
      n := 0;
    } else {
      var m :| m in ids;
      n := LongerThanAll(ids - {m});
      n := if n <= |m| then |m| + 1 else n;
    }
  }

  lemma FreshId(s: State) returns (m: MessageId)
    ensures m !in s.messages
  {
    var n := LongerThanAll(s.messages.Keys);
    m := seq(n, _ => 'x');
  }

  /** The balance of w and the messages after one more request of this cost has been accepted, sent and charged. */
  predicate Charged(s: State, s': State, w: WalletId, cost: int)
    requires w in s.pg && w in s.available
  {
    && s'.pg == s.pg[w := s.pg[w] - cost] && s'.available == s.available[w := s.available[w] - cost]
    && s'.jobs == s.jobs && forall m :: m in s.messages ==> m in s'.messages && s'.messages[m] == s.messages[m]
  }

  lemma DebitAndCommit(s: State, l: WorkerId) returns (s': State)
    requires At(s, l, ToDebit) && Affords(s, s.jobs[l].message)
    ensures Run(s, [Debit(l), Commit(l)], s')
    ensures var m := s.jobs[l].message; var r := s.messages[m];
      && s'.pg == s.pg[r.wallet := s.pg[r.wallet] - r.cost] && s'.available == s.available && s'.jobs == s.jobs - {l}
      && m in s'.messages && s'.messages == s.messages[m := s'.messages[m]]
      && s'.messages[m].stage == r.stage && s'.messages[m].reservation.None? && s'.writes == s.writes
  {
    hide Run, RequestNext, RequestEnabled;
    s' := Next(Next(s, Debit(l)), Commit(l));
    TwoSteps(s, Debit(l), Commit(l));
  }

  /** Worker l handles a new request of the given cost from acceptance to commit. */
  lemma ChargeOne(s: State, l: WorkerId, w: WalletId, cost: int) returns (acts: seq<Action>, s': State)
    requires Inv(s) && l !in s.jobs && w in s.available && w in s.pg && 0 < cost <= s.available[w] && cost <= s.pg[w]
    ensures Run(s, acts, s') && Charged(s, s', w, cost)
  {
    hide Run, LedgerOk, BalancesOk;
    var m := FreshId(s);
    assert !InFlight(s, m);
    hide Inv;
    var s1 := Next(s, Reserve(m, w, cost));
    OneStep(s, Reserve(m, w, cost));
    hide Next, Enabled;
    var ys, s2 := Dispatch(s1, l, m);
    s' := DebitAndCommit(s2, l);
    RunConcat(s, [Reserve(m, w, cost)], s1, ys, s2);
    RunConcat(s, [Reserve(m, w, cost)] + ys, s2, [Debit(l), Commit(l)], s');
    acts := [Reserve(m, w, cost)] + ys + [Debit(l), Commit(l)];
    assert s'.jobs == s.jobs;
  }

  /** If Redis promises at least what PostgreSQL holds, requests of any one cost can use the wallet up. */
  lemma {:induction false} Drain(s: State, l: WorkerId, w: WalletId, cost: int) returns (acts: seq<Action>, s': State)
    requires Inv(s) && l !in s.jobs && w in s.available && w in s.pg && 0 < cost
    requires 0 <= s.pg[w] <= s.available[w]
    ensures Run(s, acts, s') && s'.jobs == s.jobs && w in s'.pg && s'.pg[w] < cost
    ensures forall m :: m in s.messages ==> m in s'.messages && s'.messages[m] == s.messages[m]
    decreases s.pg[w]
  {
    hide Next, Enabled, Admissible, Inv;
    if s.pg[w] < cost {
      acts, s' := [], s;
    } else {
      var xs, s1 := ChargeOne(s, l, w, cost);
      RunInv(s, xs, s1);
      var ys;
      ys, s' := Drain(s1, l, w, cost);
      RunConcat(s, xs, s1, ys, s');
      acts := xs + ys;
    }
  }

  lemma TopUpAtOnce(s: State, w: WalletId, u: int, ref: MessageId) returns (acts: seq<Action>, s': State)
    requires w in s.pg && 0 < u
    ensures Run(s, acts, s') && s'.messages == s.messages && s'.jobs == s.jobs
    ensures w in s'.pg && w in s'.available && s'.available[w] == s'.pg[w] == s.pg[w] + u
  {
    hide Run, WorkerNext, WorkerEnabled;
    acts := [TopUp(w, u, ref), SetAvailable(w, s.pg[w] + u)];
    s' := Next(Next(s, acts[0]), acts[1]);
    TwoSteps(s, TopUp(w, u, ref), SetAvailable(w, s.pg[w] + u));
  }

  /**
   A top-up strands sent messages: from every reachable state with a worker about
   to debit, a top-up of the same wallet (even with its cache write at once) lets new requests
   of the same cost use the wallet up first. The message has been sent, its credit was
   reserved, and its debit is rejected.
   */
  lemma TopUpStrandsSentMessage(s: State, k: WorkerId, l: WorkerId, u: int, ref: MessageId)
    returns (acts: seq<Action>, s': State)
    requires Inv(s) && At(s, k, ToDebit) && l !in s.jobs && 0 < u
    ensures Run(s, acts, s') && At(s', k, ToDebit) && s'.jobs[k] == s.jobs[k]
    ensures s'.messages[s.jobs[k].message] == s.messages[s.jobs[k].message]
    ensures !Affords(s', s'.jobs[k].message)
  {
    hide Run, LedgerOk;
    var r := s.messages[s.jobs[k].message];
    assert r.wallet in s.pg && 0 <= s.pg[r.wallet] && 0 < r.cost;
    hide Inv, Next, Enabled;
    var xs, s1 := TopUpAtOnce(s, r.wallet, u, ref);
    RunInv(s, xs, s1);
    var ys;
    ys, s' := Drain(s1, l, r.wallet, r.cost);
    RunConcat(s, xs, s1, ys, s');
    acts := xs + ys;
  }

  // ---------- reservations without an owner ----------

  /**
   A reservation that its request has left behind stays for good: whatever all other processes do,
   nobody gives it back, sends it or debits it, and the wallet's undelivered reserved sum keeps it.
   */
  lemma DanglingForever(s: State, acts: seq<Action>, s': State, m: MessageId)
    requires Inv(s) && Run(s, acts, s') && Gateway.Dangling(s, m)
    requires forall a :: a in acts ==> !Gateway.Owns(Gateway.Request(m), a)
    ensures Gateway.Dangling(s', m) && s'.messages[m] == s.messages[m]
    ensures s.messages[m].cost <= HeldSum(s'.messages, s.messages[m].wallet)
  {
    hide Run, Next, Enabled, HeldSum, LedgerOk, JobsOk;
    Gateway.ForeignRun(Gateway.Request(m), s, acts, s');
    RunInv(s, acts, s');
    var w := s.messages[m].wallet;
    assert MessageOk(s'.messages[m]);
    HeldSumBounds(s'.messages, w);
    assert Held(s'.messages[m], w) <= HeldSum(s'.messages, w);
  }

  /** So every reserve whose reply is lost costs its wallet the credit, from every reachable state. */
  lemma LostReplyStrandsCredit(s: State, m: MessageId, w: WalletId, cost: int, acts: seq<Action>, s': State)
    requires Inv(s) && Enabled(s, Reserve(m, w, cost)) && Run(Next(s, Reserve(m, w, cost)), acts, s')
    requires forall a :: a in acts ==> !Gateway.Owns(Gateway.Request(m), a)
    ensures m in s'.messages && s'.messages[m].reservation == Some(cost) && s'.messages[m].status.None?
    ensures cost <= HeldSum(s'.messages, w)
  {
    var s1 := Next(s, Reserve(m, w, cost));
    StepInv(s, Reserve(m, w, cost));
    assert Gateway.Dangling(s1, m) && s1.messages[m] == Message(w, cost, Accepted, Some(cost), None, false);
    hide Run, Next, Enabled, Inv, HeldSum;
    DanglingForever(s1, acts, s', m);
  }
}
