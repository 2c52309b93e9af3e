/** What the order of events guarantees: no charge without a send, and no change of balance without a ledger row. */
module CreditHistory {
  import opened Options
  import opened CreditProtocol
  import opened CreditSafety

  /** The message has been debited, or a worker is about to debit it. */
  ghost predicate Charging(s: State, m: MessageId) {
    || (m in s.messages && s.messages[m].status == Some(Delivered))
    || exists k :: k in s.jobs && s.jobs[k] == Job(m, ToDebit)
  }

  /** This step is a provider accepting message m. */
  predicate Accepts(s: State, a: Action, m: MessageId) {
    a.Send? && a.ok && a.k in s.jobs && s.jobs[a.k].message == m
  }

  /** A provider accepts message m somewhere in the run. */
  ghost predicate Sent(s: State, acts: seq<Action>, m: MessageId)
    decreases |acts|
  {
    acts != [] && Enabled(s, acts[0]) && (Accepts(s, acts[0], m) || Sent(Next(s, acts[0]), acts[1..], m))
  }

  lemma WorkerCharges(s: State, a: Action, m: MessageId)
    requires WorkerStep(a) && Enabled(s, a) && Charging(Next(s, a), m) && !Accepts(s, a, m)
    ensures Charging(s, m)
  {
    hide RequestNext, RequestEnabled;
    if a.Debit? {
      assert s.jobs[a.k] == Job(s.jobs[a.k].message, ToDebit);
    }
  }

  lemma RequestCharges(s: State, a: Action, m: MessageId)
    requires !WorkerStep(a) && Enabled(s, a) && Charging(Next(s, a), m)
    ensures Charging(s, m)
  {
    hide WorkerNext, WorkerEnabled;
  }

  lemma {:induction false} ChargedInRun(s: State, acts: seq<Action>, s': State, m: MessageId)
    requires Run(s, acts, s') && Charging(s', m)
    ensures Charging(s, m) || Sent(s, acts, m)
    decreases |acts|
  {
    hide Next, Enabled, Admissible, Charging, Accepts;
    if acts != [] {
      var a := acts[0];
      ChargedInRun(Next(s, a), acts[1..], s', m);
      if !Accepts(s, a, m) && Charging(Next(s, a), m) {
        if WorkerStep(a) { WorkerCharges(s, a, m); } else { RequestCharges(s, a, m); }
      }
    }
  }

  /** A wallet is charged for a message only if a provider accepted the message first. */
  lemma NoChargeWithoutSend(acts: seq<Action>, s: State, m: MessageId)
    requires Run(INITIAL, acts, s) && Debits(s.ledger, m) > 0 && m in s.messages
    ensures Sent(INITIAL, acts, m)
  {
    hide Next, Enabled;
    InitialInv();
    RunInv(INITIAL, acts, s);
    ChargedInRun(INITIAL, acts, s, m);
  }

  // ---------- how often a message is sent ----------

  /** How often providers accept message m in the run. */
  function Acceptances(s: State, acts: seq<Action>, m: MessageId): nat
    decreases |acts|
  {
    if acts == [] || !Enabled(s, acts[0]) then 0
    else (if Accepts(s, acts[0], m) then 1 else 0) + Acceptances(Next(s, acts[0]), acts[1..], m)
  }

  /** This step is a worker that holds message m crashing or returning an error. */
  predicate Drops(s: State, a: Action, m: MessageId) {
    a.Fail? && a.k in s.jobs && s.jobs[a.k].message == m
  }

  /** How often that happens in the run. */
  function Failures(s: State, acts: seq<Action>, m: MessageId): nat
    decreases |acts|
  {
    if acts == [] || !Enabled(s, acts[0]) then 0
    else (if Drops(s, acts[0], m) then 1 else 0) + Failures(Next(s, acts[0]), acts[1..], m)
  }

  /** A worker that will not send m any more still holds it. */
  ghost predicate PastSend(s: State, m: MessageId) {
    exists k :: k in s.jobs && s.jobs[k].message == m && (s.jobs[k].pc == ToDebit || s.jobs[k].pc == ToRefund)
  }

  /** Unless a worker fails, message m is not sent again. */
  ghost predicate Spent(s: State, m: MessageId) {
    (m in s.messages && s.messages[m].Concluded()) || PastSend(s, m)
  }

  /** A provider is only called for a message that is not spent, and its acceptance spends the message. */
  lemma AcceptSpends(s: State, a: Action, m: MessageId)
    requires Inv(s) && Enabled(s, a) && Accepts(s, a, m)
    ensures !Spent(s, m) && Spent(Next(s, a), m)
  {
    hide BalancesOk, LedgerOk, MessagesOk, RequestNext, RequestEnabled;
    assert JobOk(s.messages[m], ToSend) && !s.messages[m].Concluded();
    assert forall k :: k in s.jobs && s.jobs[k].message == m ==> k == a.k;
    assert Next(s, a).jobs[a.k] == Job(m, ToDebit);
  }

  /** The step of a worker past its send either concludes the message, keeps it past its send, or drops it. */
  lemma PastSendStep(s: State, a: Action, k: WorkerId, m: MessageId)
    requires Enabled(s, a) && k in s.jobs && s.jobs[k].message == m && m in s.messages
    requires s.jobs[k].pc == ToDebit || s.jobs[k].pc == ToRefund
    requires By(a, k) && !Drops(s, a, m)
    ensures Spent(Next(s, a), m)
  {
    hide RequestNext, RequestEnabled;
    var s' := Next(s, a);
    assert a.Debit? || a.DebitFails? || a.Refund?;
    assert k in s'.jobs && s'.jobs[k].message == m;
    if a.Refund? {
      assert s'.messages[m].reservation.None?;
    }
  }

  lemma SpentStays(s: State, a: Action, m: MessageId)
    requires Inv(s) && Enabled(s, a) && Spent(s, m) && !Drops(s, a, m)
    ensures Spent(Next(s, a), m)
  {
    hide Next, Enabled, BalancesOk, LedgerOk, MessagesOk, Drops, By;
    if m in s.messages && s.messages[m].Concluded() {
      StepStable(s, a, m);
    } else {
      var k :| k in s.jobs && s.jobs[k].message == m && (s.jobs[k].pc == ToDebit || s.jobs[k].pc == ToRefund);
      if By(a, k) { PastSendStep(s, a, k, m); } else { OthersStep(s, a, k); }
    }
  }

  /** Acceptances are paid for by failures, up to the one that the message is spent on. */
  lemma {:induction false} AcceptancesInRun(s: State, acts: seq<Action>, s': State, m: MessageId)
    requires Inv(s) && Run(s, acts, s')
    ensures Acceptances(s, acts, m) + (if Spent(s, m) then 1 else 0)
         <= Failures(s, acts, m) + (if Spent(s', m) then 1 else 0)
    decreases |acts|
  {
    hide Next, Enabled, Admissible, Inv, Accepts, Drops, Spent;
    if acts != [] {
      var a := acts[0];
      StepInv(s, a);
      AcceptancesInRun(Next(s, a), acts[1..], s', m);
      if Accepts(s, a, m) {
        AcceptSpends(s, a, m);
      } else if Spent(s, m) && !Drops(s, a, m) {
        SpentStays(s, a, m);
      }
    }
  }

  /**
   Providers accept a message at most once more than workers that hold it fail: without failures it is
   sent at most once, however often it is redelivered.
   */
  lemma SentOncePerFailure(acts: seq<Action>, s: State, m: MessageId)
    requires Run(INITIAL, acts, s)
    ensures Acceptances(INITIAL, acts, m) <= Failures(INITIAL, acts, m) + 1
  {
    hide Next, Enabled;
    InitialInv();
    AcceptancesInRun(INITIAL, acts, s, m);
  }

  // ---------- conservation ----------

  /** Sum of the ledger rows of a wallet. */
  function Flow(ledger: seq<LedgerRow>, w: WalletId): int {
    if ledger == [] then 0
    else
      var last := ledger[|ledger| - 1];
      Flow(ledger[..|ledger| - 1], w) + (if last.wallet == w then last.amount else 0)
  }

  lemma FlowSnoc(ledger: seq<LedgerRow>, row: LedgerRow, w: WalletId)
    ensures Flow(ledger + [row], w) == Flow(ledger, w) + (if row.wallet == w then row.amount else 0)
  {
    assert (ledger + [row])[..|ledger|] == ledger;
  }

  lemma StepFlow(s: State, a: Action, w: WalletId)
    requires Enabled(s, a) && w in s.pg
    ensures w in Next(s, a).pg && Next(s, a).pg[w] - s.pg[w] == Flow(Next(s, a).ledger, w) - Flow(s.ledger, w)
  {
    hide Flow;
    if a.TopUp? {
      FlowSnoc(s.ledger, LedgerRow(a.w, a.units, a.reference), w);
    } else if a.Debit? {
      var m := s.jobs[a.k].message;
      var r := s.messages[m];
      FlowSnoc(s.ledger, LedgerRow(r.wallet, -r.cost, m), w);
    }
  }

  /** Over any run, a PostgreSQL balance changes by exactly what the ledger records for the wallet. */
  lemma {:induction false} LedgerConservation(s: State, acts: seq<Action>, s': State, w: WalletId)
    requires Run(s, acts, s') && w in s.pg
    ensures w in s'.pg && s'.pg[w] - s.pg[w] == Flow(s'.ledger, w) - Flow(s.ledger, w)
    decreases |acts|
  {
    hide Next, Enabled, Admissible, Flow;
    if acts != [] {
      StepFlow(s, acts[0], w);
      LedgerConservation(Next(s, acts[0]), acts[1..], s', w);
    }
  }
}
