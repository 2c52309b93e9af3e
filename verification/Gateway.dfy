/**
 The code that moves credit, step by step over the two stores: the reservation
 store's scripts, the accepting request, and the worker's `processReserved`.

 The object carries the protocol state as ghost data. `Valid()` says that the
 stores mirror it and that it was reached by a run of the protocol, so every
 method that keeps `Valid()` refines the state machine, and everything proved
 about runs holds of the object.
 */
module Gateway {
  import opened Options
  import opened CreditProtocol
  import opened CreditSafety

  /** What an infrastructure call does: nothing wrong, an error before any effect, or an error after it. */
  datatype Fault = Succeeds | FailsBefore | FailsAfter

  /** The transaction of `beginDelivery` commits, fails before it has read the row, or fails when it commits. */
  datatype BeginFault = Begins | FailsToRead | FailsToCommit

  /** What the outside world answers during one `processReserved` call. */
  datatype Answers = Answers(
    begin: BeginFault, expired: bool, existsFails: bool, sent: bool, debitFails: bool,
    refund: Fault, mark: Fault, commit: Fault)
  {
    predicate NoFaults() {
      begin.Begins? && !existsFails && refund.Succeeds? && mark.Succeeds? && commit.Succeeds?
    }
  }

  /** What the infrastructure does during one request; `again` is about the second run of the reserve script. */
  datatype RequestFaults = RequestFaults(
    reserve: Fault, loadFails: bool, setNX: Fault, again: Fault, enqueueFails: bool, refund: Fault)
  {
    predicate ReserveWorks() {
      reserve.Succeeds? && !loadFails && setNX.Succeeds? && again.Succeeds?
    }
  }

  /** What `Reserve` and `Execute` return: the remaining balance, a refusal, or an infrastructure error. */
  datatype Reply = Remaining(units: int) | Refused | Broken

  datatype Loading = Loaded | NoWallet | LoadFailed

  /** The reserve script, run in state s, takes the credit; whether its reply arrives is another matter. */
  predicate Takes(s: State, w: WalletId, cost: int, fault: Fault) {
    !fault.FailsBefore? && w in s.available && cost <= s.available[w]
  }

  /**
   From position `from` on, worker k calls the provider only if `sends` and then with answer `ok`,
   and runs the debit transaction only if `debits`.
   */
  ghost predicate Calls(log: seq<Action>, from: nat, k: WorkerId, sends: bool, ok: bool, debits: bool) {
    forall i :: from <= i < |log| && By(log[i], k) ==>
      (log[i].Send? ==> sends && log[i].ok == ok) && (log[i].Debit? ==> debits)
  }

  lemma CallsJoin(before: seq<Action>, log: seq<Action>, from: nat, k: WorkerId, sends: bool, ok: bool, debits: bool)
    requires from <= |before| && before <= log
    requires Calls(before, from, k, sends, ok, debits) && Calls(log, |before|, k, sends, ok, debits)
    ensures Calls(log, from, k, sends, ok, debits)
  {
  }

  lemma CallsMean(log: seq<Action>, from: nat, k: WorkerId, sends: bool, ok: bool, debits: bool)
    requires Calls(log, from, k, sends, ok, debits)
    ensures !sends && !debits ==> forall i :: from <= i < |log| && By(log[i], k) ==> !log[i].Send? && !log[i].Debit?
    ensures !debits ==> forall i :: from <= i < |log| && By(log[i], k) ==> !log[i].Debit?
    ensures forall i :: from <= i < |log| && By(log[i], k) && log[i].Send? ==> log[i].ok == ok
  {
  }

  /** From position `from` on, worker k neither calls the provider nor debits. */
  ghost predicate Quiet(log: seq<Action>, from: nat, k: WorkerId) {
    forall i :: from <= i < |log| && By(log[i], k) ==> !log[i].Send? && !log[i].Debit?
  }

  lemma QuietJoin(before: seq<Action>, log: seq<Action>, from: nat, k: WorkerId)
    requires from <= |before| && before <= log && Quiet(before, from, k) && Quiet(log, |before|, k)
    ensures Quiet(log, from, k)
  {
  }

  lemma QuietCalls(log: seq<Action>, from: nat, k: WorkerId, sends: bool, ok: bool, debits: bool)
    requires Quiet(log, from, k)
    ensures Calls(log, from, k, sends, ok, debits)
  {
  }

  const NOT_ENOUGH := -1
  const NOT_INITIALISED := -2
  const ALREADY_RESERVED := -3

  /** The per-message keys and rows of the stores say what the protocol state says. */
  ghost predicate MirrorsMessages(reservation: map<MessageId, int>, delivery: map<MessageId, Status>,
                                  outbox: set<MessageId>, ms: map<MessageId, Message>)
  {
    && reservation.Keys <= ms.Keys && delivery.Keys <= ms.Keys && outbox <= ms.Keys
    && (forall m :: m in ms ==> MirrorsMessage(reservation, delivery, outbox, m, ms[m]))
  }

  ghost predicate MirrorsMessage(reservation: map<MessageId, int>, delivery: map<MessageId, Status>,
                                 outbox: set<MessageId>, m: MessageId, r: Message)
  {
    && r.reservation == (if m in reservation then Some(reservation[m]) else None)
    && r.status == (if m in delivery then Some(delivery[m]) else None)
    && (r.stage.Enqueued? <==> m in outbox)
  }

  lemma MirrorsPut(reservation: map<MessageId, int>, delivery: map<MessageId, Status>, outbox: set<MessageId>,
                   reservation': map<MessageId, int>, delivery': map<MessageId, Status>, outbox': set<MessageId>,
                   ms: map<MessageId, Message>, m: MessageId, r: Message)
    requires MirrorsMessages(reservation, delivery, outbox, ms)
    requires reservation' - {m} == reservation - {m} && delivery' - {m} == delivery - {m}
    requires outbox' - {m} == outbox - {m}
    requires MirrorsMessage(reservation', delivery', outbox', m, r)
    ensures MirrorsMessages(reservation', delivery', outbox', ms[m := r])
  {
    forall x | x != m
      ensures x in reservation' <==> x in reservation
      ensures x in reservation ==> reservation'[x] == reservation[x]
      ensures x in delivery' <==> x in delivery
      ensures x in delivery ==> delivery'[x] == delivery[x]
      ensures x in outbox' <==> x in outbox
    {
      assert x in reservation' - {m} <==> x in reservation - {m};
      assert x in delivery' - {m} <==> x in delivery - {m};
      assert x in outbox' - {m} <==> x in outbox - {m};
    }
  }

  /** The process whose code is running: a worker, or the request that accepts a message. */
  datatype Process = Worker(k: WorkerId) | Request(m: MessageId)

  predicate Owns(p: Process, a: Action) {
    match p
    case Worker(k) => By(a, k)
    case Request(m) => (a.Reserve? || a.Load? || a.SetNX? || a.Enqueue? || a.EnqueueFails? || a.Compensate?) && a.m == m
  }

  predicate RecordKept(s: State, s': State, m: MessageId) {
    m in s.messages ==> m in s'.messages && s'.messages[m] == s.messages[m]
  }

  /**
   What can become of the record of a message while one worker holds it: nothing, as long as there
   is credit for a debit; afterwards another delivery may mark or commit the message first.
   */
  predicate Kept(r: Message, r': Message) {
    && Follows(r, r') && r'.stage == r.stage
    && (r'.status == r.status || (r.status == Some(Processing) && r'.status == Some(Status.Refunded)))
    && (!r.Concluded() ==> r' == r)
  }

  predicate HeldRecordKept(s: State, s': State, m: MessageId) {
    m in s.messages ==> m in s'.messages && Kept(s.messages[m], s'.messages[m])
  }

  /** What no other process can take away from the running one. */
  predicate Undisturbed(p: Process, s: State, s': State) {
    && s.available.Keys <= s'.available.Keys
    && (forall m :: m in s.messages ==> m in s'.messages && Follows(s.messages[m], s'.messages[m]))
    && match p
       case Worker(k) =>
         && (k in s.jobs <==> k in s'.jobs)
         && (k in s.jobs ==> s'.jobs[k] == s.jobs[k] && HeldRecordKept(s, s', s.jobs[k].message))
       case Request(m) =>
         && (m in s.messages <==> m in s'.messages)
         && (m in s.loads <==> m in s'.loads) && (m in s.loads ==> s'.loads[m] == s.loads[m])
         && (m in s.messages ==> s.messages[m].stage.Enqueued? || s'.messages[m] == s.messages[m])
  }

  /** No step removes a balance key. */
  lemma KeysPersist(s: State, a: Action)
    requires Enabled(s, a)
    ensures s.available.Keys <= Next(s, a).available.Keys
  {
    if WorkerStep(a) { hide RequestNext, RequestEnabled; } else { hide WorkerNext, WorkerEnabled; }
  }

  /** Requests and administrators leave the jobs alone. */
  lemma RequestsKeepJobs(s: State, a: Action)
    requires Enabled(s, a) && !WorkerStep(a)
    ensures Next(s, a).jobs == s.jobs
  {
    hide WorkerNext, WorkerEnabled, RefundNext;
    if a.Compensate? { RefundKeepsJobs(s, a.m); }
  }

  lemma RefundKeepsJobs(s: State, m: MessageId)
    requires m in s.messages
    ensures RefundNext(s, m).jobs == s.jobs && m in RefundNext(s, m).messages
  {
  }

  /** Workers leave loaded balances alone and never create a message. */
  lemma WorkersKeepLoads(s: State, a: Action)
    requires Enabled(s, a) && WorkerStep(a)
    ensures Next(s, a).loads == s.loads && Next(s, a).messages.Keys == s.messages.Keys
  {
    hide RequestNext, RequestEnabled;
  }

  lemma WorkerJobs(s: State, a: Action, k: WorkerId)
    requires Enabled(s, a) && WorkerStep(a) && a.k != k
    ensures k in s.jobs <==> k in Next(s, a).jobs
    ensures k in s.jobs ==> Next(s, a).jobs[k] == s.jobs[k]
  {
    hide RequestNext, RequestEnabled;
  }

  lemma JobUndisturbed(s: State, a: Action, k: WorkerId)
    requires Enabled(s, a) && !By(a, k)
    ensures k in s.jobs <==> k in Next(s, a).jobs
    ensures k in s.jobs ==> Next(s, a).jobs[k] == s.jobs[k]
  {
    hide Next, Enabled;
    if WorkerStep(a) { WorkerJobs(s, a, k); } else { RequestsKeepJobs(s, a); }
  }

  /** Steps that are not about message m leave its record alone. */
  lemma RecordUndisturbed(s: State, a: Action, m: MessageId)
    requires Enabled(s, a) && StageIs(s, m, Enqueued)
    requires a.Begin? ==> a.m != m
    requires WorkerStep(a) && !a.Begin? ==> s.jobs[a.k].message != m
    ensures RecordKept(s, Next(s, a), m)
  {
    if WorkerStep(a) { hide RequestNext, RequestEnabled; } else { hide WorkerNext, WorkerEnabled; }
  }

  lemma RequestRecord(s: State, a: Action, m: MessageId)
    requires Enabled(s, a) && !WorkerStep(a) && !Owns(Request(m), a)
    ensures m in s.messages <==> m in Next(s, a).messages
    ensures m in s.loads <==> m in Next(s, a).loads
    ensures m in s.loads ==> Next(s, a).loads[m] == s.loads[m]
    ensures RecordKept(s, Next(s, a), m)
  {
    hide WorkerNext, WorkerEnabled;
  }

  lemma WorkerRecord(s: State, a: Action, m: MessageId)
    requires Enabled(s, a) && WorkerStep(a) && m in s.messages && !s.messages[m].stage.Enqueued?
    requires !a.Begin? ==> StageIs(s, s.jobs[a.k].message, Enqueued)
    ensures RecordKept(s, Next(s, a), m)
  {
    hide RequestNext, RequestEnabled;
  }

  lemma RequestUndisturbed(s: State, a: Action, m: MessageId)
    requires Enabled(s, a) && !Owns(Request(m), a)
    requires WorkerStep(a) && !a.Begin? ==> StageIs(s, s.jobs[a.k].message, Enqueued)
    ensures m in s.messages <==> m in Next(s, a).messages
    ensures m in s.messages ==> s.messages[m].stage.Enqueued? || Next(s, a).messages[m] == s.messages[m]
    ensures m in s.loads <==> m in Next(s, a).loads
    ensures m in s.loads ==> Next(s, a).loads[m] == s.loads[m]
  {
    hide Next, Enabled;
    if WorkerStep(a) {
      WorkersKeepLoads(s, a);
      if m in s.messages && !s.messages[m].stage.Enqueued? { WorkerRecord(s, a, m); }
    } else {
      RequestRecord(s, a, m);
    }
  }

  /** A second worker on a message that holds no credit for a debit can only conclude it the same way. */
  lemma SharedRecord(s: State, a: Action, m: MessageId)
    requires Enabled(s, a) && WorkerStep(a) && m in s.messages
    requires s.messages[m].Concluded() && s.messages[m].status.Some?
    requires if a.Begin? then a.m == m else s.jobs[a.k].message == m && JobOk(s.messages[m], s.jobs[a.k].pc)
    requires MessageOk(s.messages[m])
    ensures HeldRecordKept(s, Next(s, a), m)
  {
    hide RequestNext, RequestEnabled;
  }

  lemma RecordKeptIsKept(s: State, s': State, m: MessageId)
    requires RecordKept(s, s', m)
    ensures HeldRecordKept(s, s', m)
  {
  }

  /** What other processes can do to the record of a message that worker k holds. */
  lemma HolderUndisturbed(s: State, a: Action, k: WorkerId)
    requires Inv(s) && Enabled(s, a) && Admissible(s, a) && !By(a, k) && k in s.jobs
    ensures HeldRecordKept(s, Next(s, a), s.jobs[k].message)
  {
    hide Next, BalancesOk, LedgerOk, RecordKept, HeldRecordKept;
    var m := s.jobs[k].message;
    assert MessageOk(s.messages[m]) && JobOk(s.messages[m], s.jobs[k].pc);
    if a.Begin? && a.m == m {
      assert InFlight(s, m);
      SharedRecord(s, a, m);
    } else if WorkerStep(a) && !a.Begin? && s.jobs[a.k].message == m {
      assert a.k != k;
      SharedRecord(s, a, m);
    } else {
      RecordUndisturbed(s, a, m);
      RecordKeptIsKept(s, Next(s, a), m);
    }
  }

  lemma ForeignStep(p: Process, s: State, a: Action)
    requires Inv(s) && Enabled(s, a) && Admissible(s, a) && !Owns(p, a)
    ensures Undisturbed(p, s, Next(s, a))
  {
    hide Next, BalancesOk, LedgerOk, MessagesOk, Follows;
    assert WorkerStep(a) && !a.Begin? ==> StageIs(s, s.jobs[a.k].message, Enqueued);
    hide JobsOk, Enabled, By;
    forall m | m in s.messages
      ensures m in Next(s, a).messages && Follows(s.messages[m], Next(s, a).messages[m])
    {
      StepStable(s, a, m);
    }
    KeysPersist(s, a);
    match p
    case Worker(k) =>
      JobUndisturbed(s, a, k);
      if k in s.jobs { HolderUndisturbed(s, a, k); }
    case Request(m) => RequestUndisturbed(s, a, m);
  }

  /** However many steps the others take, the running process finds its own work as it left it. */
  lemma {:induction false} ForeignRun(p: Process, s: State, acts: seq<Action>, s': State)
    requires Inv(s) && Run(s, acts, s') && forall a :: a in acts ==> !Owns(p, a)
    ensures Undisturbed(p, s, s')
    decreases |acts|
  {
    hide Next, Enabled, Admissible, BalancesOk, LedgerOk, MessagesOk, JobsOk, Owns;
    if acts != [] {
      assert !Owns(p, acts[0]);
      StepInv(s, acts[0]);
      ForeignStep(p, s, acts[0]);
      ForeignRun(p, Next(s, acts[0]), acts[1..], s');
    }
  }

  /** A reservation whose request has returned without giving it back or handing it to the outbox. */
  predicate Dangling(s: State, m: MessageId) {
    && m in s.messages && s.messages[m].reservation.Some?
    && (s.messages[m].stage.Accepted? || s.messages[m].stage.Compensating?)
  }

  /** What the refund script does to the stores, whoever runs it. */
  lemma RefundEffect(s: State, a: Action, m: MessageId)
    requires Enabled(s, a) && m in s.messages
    requires a == Compensate(m) || (a.Refund? && s.jobs[a.k].message == m)
    ensures Next(s, a).pg == s.pg && Next(s, a).ledger == s.ledger && Admissible(s, a)
    ensures var r := s.messages[m];
      Next(s, a).messages
      == s.messages[m := r.(reservation := None, stage := if a.Compensate? then Abandoned else r.stage)]
    ensures var r := s.messages[m];
      var base := if r.wallet in s.available then s.available[r.wallet] else 0;
      Next(s, a).available
      == if r.reservation.None? then s.available else s.available[r.wallet := base + r.reservation.value]
    ensures a.Compensate? ==> !s.messages[m].stage.Enqueued?
  {
  }

  lemma RefundMoves(s: State, k: WorkerId, m: MessageId)
    requires At(s, k, ToRefund) && s.jobs[k].message == m
    ensures var s' := Next(s, Action.Refund(k)); At(s', k, ToMark) && s'.jobs[k].message == m
  {
  }

  /** What the debit transaction does to the protocol state. */
  lemma DebitEffect(s: State, k: WorkerId)
    requires At(s, k, ToDebit)
    ensures var m, s' := s.jobs[k].message, Next(s, Debit(k));
      var r := s.messages[m];
      && s'.available == s.available && k in s'.jobs && s'.jobs[k].message == m
      && if Affords(s, m) then
           && At(s', k, ToCommit) && s'.pg == s.pg[r.wallet := s.pg[r.wallet] - r.cost]
           && s'.ledger == s.ledger + [LedgerRow(r.wallet, -r.cost, m)]
           && s'.messages == s.messages[m := r.(status := Some(Delivered))]
         else
           At(s', k, ToRefund) && s'.pg == s.pg && s'.ledger == s.ledger && s'.messages == s.messages
  {
  }

  lemma EnqueueEffect(s: State, m: MessageId, fails: bool)
    requires StageIs(s, m, Accepted)
    ensures var a := if fails then EnqueueFails(m) else Enqueue(m);
      && Enabled(s, a) && Admissible(s, a)
      && Next(s, a) == Put(s, m, s.messages[m].(stage := if fails then Compensating else Enqueued))
  {
    hide WorkerNext, WorkerEnabled;
  }

  lemma CachedExists(s: State)
    requires Inv(s)
    ensures s.available.Keys <= s.pg.Keys
  {
  }

  class Stores {
    var available: map<WalletId, int>        // Redis balance keys
    var reservation: map<MessageId, int>     // Redis reservation keys
    var pg: map<WalletId, int>               // wallets
    var ledger: seq<LedgerRow>               // wallet_transactions
    var delivery: map<MessageId, Status>     // sms_deliveries
    var outbox: set<MessageId>               // sms_outbox

    ghost var model: State
    ghost var log: seq<Action>

    ghost predicate Mirrors()
      reads this
    {
      && available == model.available && pg == model.pg && ledger == model.ledger
      && MirrorsMessages(reservation, delivery, outbox, model.messages)
    }

    ghost predicate Valid()
      reads this
    {
      Run(INITIAL, log, model) && Inv(model) && Mirrors()
    }

    constructor ()
      ensures Valid() && model == INITIAL
    {
      available, reservation, pg, ledger, delivery, outbox := map[], map[], map[], [], map[], {};
      model, log := INITIAL, [];
      new;
      InitialInv();
    }

    /** Extend the protocol run by one action. */
    ghost method Take(a: Action)
      requires Run(INITIAL, log, model) && Inv(model) && Enabled(model, a) && Admissible(model, a)
      modifies this`model, this`log
      ensures Run(INITIAL, log, model) && Inv(model)
      ensures model == Next(old(model), a) && log == old(log) + [a]
    {
      StepInv(model, a);
      RunSnoc(INITIAL, log, model, a);
      model, log := Next(model, a), log + [a];
    }

    /**
     A point at which any other processes may run. The body takes no step, which is
     one possible interleaving; callers rely on the postcondition alone, and that
     holds of every one of them: the log grew by a run of steps none of which is p's.
     */
    method Yield(ghost p: Process)
      requires Valid()
      modifies this
      ensures Valid() && old(log) <= log
      ensures Run(old(model), log[|old(log)|..], model)
      ensures forall a :: a in log[|old(log)|..] ==> !Owns(p, a)
      ensures Undisturbed(p, old(model), model)
    {
      ForeignRun(p, model, [], model);
    }

    // ---------- reservation store ----------

    /** The stores follow a step of the protocol that rewrote the record of message m. */
    ghost method Written(m: MessageId, reservation0: map<MessageId, int>, delivery0: map<MessageId, Status>,
                         outbox0: set<MessageId>, ms: map<MessageId, Message>)
      requires MirrorsMessages(reservation0, delivery0, outbox0, ms)
      requires m in model.messages && model.messages == ms[m := model.messages[m]]
      requires reservation - {m} == reservation0 - {m} && delivery - {m} == delivery0 - {m}
      requires outbox - {m} == outbox0 - {m}
      requires MirrorsMessage(reservation, delivery, outbox, m, model.messages[m])
      ensures MirrorsMessages(reservation, delivery, outbox, model.messages)
    {
      MirrorsPut(reservation0, delivery0, outbox0, reservation, delivery, outbox, ms, m, model.messages[m]);
    }

    /** The reserve script: its negative codes never collide with a remaining balance. */
    method EvalReserve(w: WalletId, amount: int, m: MessageId) returns (code: int)
      requires Valid() && 0 < amount && (m in model.messages ==> m in reservation)
      modifies this
      ensures Valid() && old(log) <= log
      ensures code == NOT_INITIALISED <==> w !in old(available)
      ensures code == ALREADY_RESERVED <==> w in old(available) && m in old(reservation)
      ensures code == NOT_ENOUGH <==> w in old(available) && m !in old(reservation) && old(available[w]) < amount
      ensures code < 0 ==> code in {NOT_ENOUGH, NOT_INITIALISED, ALREADY_RESERVED} && unchanged(this)
      ensures code >= 0 ==> w in old(available) && code == old(available[w]) - amount && m !in old(model.messages)
      ensures code >= 0 ==>
        && m in model.messages && model.messages[m] == Message(w, amount, Accepted, Some(amount), None, false)
        && model == ReserveNext(old(model), m, w, amount) && log == old(log) + [Action.Reserve(m, w, amount)]
    {
      hide Run, Inv, MirrorsMessages;
      if w !in available { return NOT_INITIALISED; }
      if m in reservation { return ALREADY_RESERVED; }
      assert m !in delivery && m !in outbox by { FreshIsAbsent(m); }
      if available[w] < amount { return NOT_ENOUGH; }
      code := available[w] - amount;
      Take(Action.Reserve(m, w, amount));
      available := available[w := code];
      reservation := reservation[m := amount];
      Written(m, old(reservation), old(delivery), old(outbox), old(model.messages));
    }

    lemma FreshIsAbsent(m: MessageId)
      requires MirrorsMessages(reservation, delivery, outbox, model.messages) && m !in model.messages
      ensures m !in reservation && m !in delivery && m !in outbox
    {
    }

    /** Load the wallet and set its balance key if it is still missing. */
    method Initialise(w: WalletId, m: MessageId, loadFails: bool, setNX: Fault) returns (r: Loading)
      requires Valid() && m !in model.messages
      modifies this
      ensures Valid() && old(log) <= log && m !in model.messages
      ensures r.Loaded? ==> w in available && !loadFails && setNX.Succeeds?
      ensures r.NoWallet? ==> w !in pg && w !in available
      ensures r.LoadFailed? ==> loadFails || !setNX.Succeeds?
    {
      hide Run, Inv, Follows, MirrorsMessages;
      Yield(Request(m));
      if loadFails { return LoadFailed; }
      if w !in pg {
        CachedExists(model);
        return NoWallet;
      }
      var units := LoadBalance(w, m);
      Yield(Request(m));
      if !setNX.FailsBefore? { SetIfMissing(w, m, units); }
      if !setNX.Succeeds? { return LoadFailed; }
      Yield(Request(m));
      r := Loaded;
    }

    method LoadBalance(w: WalletId, m: MessageId) returns (units: int)
      requires Valid() && w in pg
      modifies this`model, this`log
      ensures Valid() && log == old(log) + [Load(m, w)] && units == pg[w]
      ensures model == old(model).(loads := old(model.loads)[m := Write(w, units)])
    {
      hide Run, Inv, MirrorsMessages, WorkerNext, WorkerEnabled;
      units := pg[w];
      Take(Load(m, w));
    }

    /** SETNX. */
    method SetIfMissing(w: WalletId, m: MessageId, units: int)
      requires Valid() && m in model.loads && model.loads[m] == Write(w, units)
      modifies this
      ensures Valid() && log == old(log) + [SetNX(m)] && model.messages == old(model.messages)
      ensures available == if w in old(available) then old(available) else old(available)[w := units]
    {
      hide Run, Inv, MirrorsMessages, WorkerNext, WorkerEnabled;
      Take(SetNX(m));
      if w !in available { available := available[w := units]; }
    }

    /** The protocol state that the run had reached after its first n actions. */
    ghost predicate Reached(n: nat, s: State)
      reads this
    {
      n <= |log| && Run(INITIAL, log[..n], s)
    }

    /**
     `Reserve`: initialise a missing balance key from PostgreSQL and try again. The
     recursion is at most one deep because no step of any process removes a key.
     The script last ran in state `at`, the n-th of the run, and met `fault`. The credit is
     taken exactly if it was there in that state, even if the caller sees an error.
     */
    method Reserve(w: WalletId, amount: int, m: MessageId, hasLoader: bool, faults: RequestFaults)
      returns (r: Reply, ghost at: State, ghost n: nat, ghost fault: Fault)
      requires Valid() && 0 < amount && m !in model.messages
      modifies this
      ensures Valid() && old(log) <= log && |old(log)| <= n && Reached(n, at)
      ensures m in model.messages <==> Takes(at, w, amount, fault)
      ensures m in model.messages ==> model.messages[m] == Message(w, amount, Accepted, Some(amount), None, false)
      ensures r.Remaining? <==> m in model.messages && fault.Succeeds?
      ensures r.Remaining? ==> r.units == at.available[w] - amount >= 0
      ensures r.Refused? ==> if w in available then available[w] < amount else !hasLoader || w !in pg
      ensures faults.ReserveWorks() ==> !r.Broken?
      ensures (fault == faults.reserve && at == old(model))
           || (fault == faults.again && w !in old(available) && w in at.available)
      decreases if w in available then 0 else 1
    {
      hide Run, Inv, Follows, MirrorsMessages, ReserveNext;
      at, n, fault := model, |log|, faults.reserve;
      assert log[..n] == log;
      if faults.reserve.FailsBefore? { return Broken, at, n, fault; }
      assert m !in reservation by { FreshIsAbsent(m); }
      var code := EvalReserve(w, amount, m);
      assert log[..n] == old(log);
      if faults.reserve.FailsAfter? { return Broken, at, n, fault; }
      if code == NOT_INITIALISED {
        if !hasLoader { return Refused, at, n, fault; }
        var loading := Initialise(w, m, faults.loadFails, faults.setNX);
        assert log[..n] == old(log);
        if loading.NoWallet? { return Refused, at, n, fault; }
        if loading.LoadFailed? { return Broken, at, n, fault; }
        r, at, n, fault := Reserve(w, amount, m, hasLoader, faults.(reserve := faults.again));
      } else if code < 0 {
        r := Refused;
      } else {
        r := Remaining(code);
      }
    }

    /** The refund script, run by a worker or by a request that gives up. */
    method EvalRefund(w: WalletId, m: MessageId, ghost a: Action)
      requires Valid() && Enabled(model, a) && m in model.messages && model.messages[m].wallet == w
      requires a == Compensate(m) || (a.Refund? && model.jobs[a.k].message == m)
      modifies this
      ensures Valid() && model == Next(old(model), a) && log == old(log) + [a]
      ensures m in model.messages && model.messages[m].reservation.None?
      ensures model.messages[m].status == old(model.messages[m].status)
      ensures a.Compensate? ==> model.messages[m].stage.Abandoned?
    {
      hide Run, Inv, MirrorsMessages, Next, Enabled, Admissible;
      RefundEffect(model, a, m);
      assert MirrorsMessage(reservation, delivery, outbox, m, model.messages[m]) by { Recorded(m); }
      Take(a);
      if m in reservation {
        available := available[w := (if w in available then available[w] else 0) + reservation[m]];
        reservation := reservation - {m};
      }
      Written(m, old(reservation), old(delivery), old(outbox), old(model.messages));
    }

    lemma Recorded(m: MessageId)
      requires MirrorsMessages(reservation, delivery, outbox, model.messages) && m in model.messages
      ensures MirrorsMessage(reservation, delivery, outbox, m, model.messages[m])
    {
    }

    /** The outbox insert of an accepted request. A failed insert has no effect. */
    method Enqueue(m: MessageId, fails: bool)
      requires Valid() && StageIs(model, m, Accepted)
      modifies this
      ensures Valid() && old(log) <= log
      ensures model == Put(old(model), m, old(model.messages[m]).(stage := if fails then Compensating else Enqueued))
    {
      hide Run, Inv, MirrorsMessages, Next, Enabled;
      EnqueueEffect(model, m, fails);
      assert MirrorsMessage(reservation, delivery, outbox, m, model.messages[m]) by { Recorded(m); }
      Take(if fails then EnqueueFails(m) else Action.Enqueue(m));
      if !fails { outbox := outbox + {m}; }
      Written(m, old(reservation), old(delivery), old(outbox), old(model.messages));
    }

    /**
     The reservation path of `Execute`, with other processes running between any two
     steps. A request that fails leaves no outbox row. It leaves a reservation behind exactly
     if the reserve script took the credit and either its reply was lost, in which case nobody
     gives the credit back, or the compensating refund had no effect.
     */
    method Execute(w: WalletId, cost: int, m: MessageId, hasLoader: bool, faults: RequestFaults)
      returns (r: Reply, ghost at: State, ghost n: nat, ghost fault: Fault)
      requires Valid() && 0 < cost && m !in model.messages
      modifies this
      ensures Valid() && old(log) <= log && |old(log)| <= n && Reached(n, at)
      ensures (fault == faults.reserve && at == old(model))
           || (fault == faults.again && w !in old(available) && w in at.available)
      ensures r.Remaining? <==> Takes(at, w, cost, fault) && fault.Succeeds? && !faults.enqueueFails
      ensures r.Remaining? ==> m in outbox && m in reservation && reservation[m] == cost
      ensures r.Remaining? ==> r.units == at.available[w] - cost
      ensures r.Refused? ==> if w in available then available[w] < cost else !hasLoader || w !in pg
      ensures !r.Remaining? ==> m !in outbox && m !in delivery
      ensures !r.Remaining? ==>
        (m in reservation <==> Takes(at, w, cost, fault) && (fault.FailsAfter? || faults.refund.FailsBefore?))
      ensures !r.Remaining? && m in reservation ==> Dangling(model, m)
    {
      hide Run, Inv, MirrorsMessages, Follows, Next, WorkerEnabled;
      r, at, n, fault := Reserve(w, cost, m, hasLoader, faults);
      if !r.Remaining? {
        if m in model.messages { Recorded(m); } else { FreshIsAbsent(m); }
        return;
      }
      ghost var before := log[..n];
      HandOver(w, m, faults.enqueueFails, faults.refund);
      assert log[..n] == before;
      if faults.enqueueFails { r := Broken; }
    }

    /** The second half of `Execute`: hand the message to the outbox, or give the credit back. */
    method HandOver(w: WalletId, m: MessageId, enqueueFails: bool, refund: Fault)
      requires Valid() && m in model.messages && model.messages[m].wallet == w
      requires model.messages[m].stage.Accepted? && model.messages[m].status.None?
      requires model.messages[m].reservation == Some(model.messages[m].cost)
      modifies this
      ensures Valid() && old(log) <= log
      ensures m in outbox <==> !enqueueFails
      ensures m in reservation <==> !enqueueFails || refund.FailsBefore?
      ensures m in reservation ==> reservation[m] == old(model.messages[m].cost)
      ensures enqueueFails ==> m !in delivery && (m in reservation ==> Dangling(model, m))
    {
      hide Run, Inv, MirrorsMessages, Follows, Next, WorkerEnabled;
      Yield(Request(m));
      Enqueue(m, enqueueFails);
      if enqueueFails {
        Yield(Request(m));
        if !refund.FailsBefore? { EvalRefund(w, m, Compensate(m)); }
      }
      Recorded(m);
    }

    // ---------- worker ----------

    /** Others run while worker k holds message m: they leave its job alone, and the record as far as it matters. */
    method Pause(k: WorkerId, m: MessageId)
      requires Valid() && k in model.jobs && model.jobs[k].message == m && m in model.messages
      modifies this
      ensures Valid() && old(log) <= log
      ensures k in model.jobs && model.jobs[k] == old(model.jobs[k])
      ensures m in model.messages && Kept(old(model.messages[m]), model.messages[m])
      ensures Quiet(log, |old(log)|, k)
    {
      hide Run, Inv, MirrorsMessages, Follows, Kept;
      Yield(Worker(k));
      assert forall i :: |old(log)| <= i < |log| ==> log[i] in log[|old(log)|..];
    }

    /** Worker k is about to perform the step at pc for message m. */
    ghost predicate Ready(k: WorkerId, m: MessageId, pc: Pc)
      reads this
    {
      At(model, k, pc) && model.jobs[k].message == m
    }

    /** `beginDelivery`: insert the row if it is missing and report whether it is terminal. */
    method BeginDelivery(k: WorkerId, m: MessageId) returns (terminal: bool)
      requires Valid() && k !in model.jobs && StageIs(model, m, Enqueued) && Admissible(model, Begin(k, m))
      modifies this
      ensures Valid() && log == old(log) + [Begin(k, m)] && model == BeginNext(old(model), k, m)
      ensures Ready(k, m, if terminal then ToCommit else ToDecide) && (terminal <==> old(model.messages[m].Terminal()))
      ensures var r := old(model.messages[m]);
        model.messages[m] == if r.status.None? then r.(status := Some(Processing)) else r
    {
      hide Run, Inv, MirrorsMessages, InFlight, RequestNext, RequestEnabled;
      assert MirrorsMessage(reservation, delivery, outbox, m, model.messages[m]) by { Recorded(m); }
      Take(Begin(k, m));
      if m !in delivery { delivery := delivery[m := Processing]; }
      terminal := delivery[m] != Processing;
      assert model.messages == old(model.messages)[m := model.messages[m]];
      Written(m, old(reservation), old(delivery), old(outbox), old(model.messages));
    }

    /** `IsReserved`, once the deadline test has passed. */
    method IsReserved(k: WorkerId, m: MessageId) returns (reserved: bool)
      requires Valid() && Ready(k, m, ToDecide)
      modifies this`model, this`log
      ensures Valid() && log == old(log) + [Check(k)]
      ensures (reserved <==> m in reservation) && model.messages == old(model.messages)
      ensures Ready(k, m, if reserved then ToSend else ToMark)
    {
      hide Run, Inv, MirrorsMessages;
      assert MirrorsMessage(reservation, delivery, outbox, m, model.messages[m]) by { Recorded(m); }
      reserved := m in reservation;
      Take(Check(k));
    }

    /** A step of the worker that touches no store. */
    ghost method Decide(k: WorkerId, m: MessageId, a: Action)
      requires Valid() && k in model.jobs && model.jobs[k].message == m && Enabled(model, a)
      requires a == Expire(k) || a == Send(k, true) || a == Send(k, false) || a == DebitFails(k) || a == Fail(k)
      modifies this`model, this`log
      ensures Valid() && log == old(log) + [a]
      ensures a == Fail(k) ==> k !in model.jobs
      ensures a == Send(k, true) ==> Ready(k, m, ToDebit)
      ensures a == Expire(k) || a == Send(k, false) || a == DebitFails(k) ==> Ready(k, m, ToRefund)
      ensures model.messages == old(model.messages)
    {
      hide Run, Inv, MirrorsMessages;
      Take(a);
    }

    /** The debit transaction: balance, ledger row and delivery status together, or none of them. */
    method DebitTransaction(k: WorkerId, m: MessageId, w: WalletId, cost: int) returns (ok: bool)
      requires Valid() && Ready(k, m, ToDebit) && model.messages[m].wallet == w && model.messages[m].cost == cost
      modifies this
      ensures Valid() && log == old(log) + [Debit(k)]
      ensures ok <==> w in old(pg) && 0 <= cost <= old(pg[w])
      ensures ok ==> pg == old(pg)[w := old(pg[w]) - cost] && ledger == old(ledger) + [LedgerRow(w, -cost, m)]
      ensures ok ==> Ready(k, m, ToCommit) && delivery == old(delivery)[m := Delivered]
      ensures !ok ==> Ready(k, m, ToRefund) && pg == old(pg) && ledger == old(ledger) && delivery == old(delivery)
      ensures available == old(available) && reservation == old(reservation) && outbox == old(outbox)
      ensures m in model.messages && model.messages[m].wallet == w
      ensures ok ==> model.messages[m].status == Some(Delivered)
    {
      hide Run, Inv, MirrorsMessages, Next;
      DebitEffect(model, k);
      assert MirrorsMessage(reservation, delivery, outbox, m, model.messages[m]) by { Recorded(m); }
      ok := w in pg && 0 <= cost <= pg[w];
      Take(Debit(k));
      if ok {
        pg := pg[w := pg[w] - cost];
        ledger := ledger + [LedgerRow(w, -cost, m)];
        delivery := delivery[m := Delivered];
        Written(m, old(reservation), old(delivery), old(outbox), old(model.messages));
      }
    }

    /** `markDelivery` with status refunded; the worker returns nil iff it succeeds. */
    method MarkRefunded(k: WorkerId, m: MessageId, fault: Fault) returns (done: bool)
      requires Valid() && Ready(k, m, ToMark)
      modifies this
      ensures Valid() && old(log) <= log && k !in model.jobs
      ensures done <==> fault.Succeeds?
      ensures Quiet(log, |old(log)|, k)
      ensures done ==> m in model.messages && model.messages[m].finished
      ensures done ==> delivery == old(delivery)[m := Status.Refunded]
      ensures done ==> model.messages[m].status == Some(Status.Refunded)
      ensures available == old(available) && reservation == old(reservation) && pg == old(pg) && ledger == old(ledger)
    {
      hide Run, Inv, MirrorsMessages;
      assert MirrorsMessage(reservation, delivery, outbox, m, model.messages[m]) by { Recorded(m); }
      done := fault.Succeeds?;
      if fault.FailsBefore? {
        Decide(k, m, Fail(k));
      } else {
        Take(Mark(k));
        delivery := delivery[m := Status.Refunded];
        Written(m, old(reservation), old(delivery), old(outbox), old(model.messages));
      }
    }

    /** The commit script; the worker returns nil iff it succeeds. */
    method CommitReservation(k: WorkerId, m: MessageId, fault: Fault) returns (done: bool)
      requires Valid() && Ready(k, m, ToCommit)
      modifies this
      ensures Valid() && old(log) <= log && k !in model.jobs
      ensures done <==> fault.Succeeds?
      ensures Quiet(log, |old(log)|, k)
      ensures done ==> m in model.messages && model.messages[m].finished && reservation == old(reservation) - {m}
      ensures done ==> model.messages[m].status == old(model.messages[m].status)
      ensures available == old(available) && delivery == old(delivery) && pg == old(pg) && ledger == old(ledger)
    {
      hide Run, Inv, MirrorsMessages;
      assert MirrorsMessage(reservation, delivery, outbox, m, model.messages[m]) by { Recorded(m); }
      done := fault.Succeeds?;
      if fault.FailsBefore? {
        Decide(k, m, Fail(k));
      } else {
        Take(Commit(k));
        reservation := reservation - {m};
        Written(m, old(reservation), old(delivery), old(outbox), old(model.messages));
      }
    }

    /** Give the credit back, then record the refund; others may run in between. */
    method RefundAndMark(k: WorkerId, m: MessageId, w: WalletId, refund: Fault, mark: Fault) returns (done: bool)
      requires Valid() && Ready(k, m, ToRefund) && model.messages[m].wallet == w
      modifies this
      ensures Valid() && old(log) <= log && k !in model.jobs
      ensures done ==> Finished(m) && model.messages[m].status == Some(Status.Refunded)
      ensures done <==> refund.Succeeds? && mark.Succeeds?
      ensures Quiet(log, |old(log)|, k)
    {
      hide Run, Inv, MirrorsMessages, Next;
      if refund.FailsBefore? {
        Decide(k, m, Fail(k));
        return false;
      }
      RefundMoves(model, k, m);
      EvalRefund(w, m, Action.Refund(k));
      assert log == old(log) + [Action.Refund(k)];
      if refund.FailsAfter? {
        Decide(k, m, Fail(k));
        return false;
      }
      Pause(k, m);
      assert Quiet(log, |old(log)|, k);
      ghost var before := log;
      done := MarkRefunded(k, m, mark);
      QuietJoin(before, log, |old(log)|, k);
    }

    ghost predicate Finished(m: MessageId)
      reads this
    {
      m in model.messages && model.messages[m].finished
    }

    /**
     `processReserved`, with any other processes running between its steps. A nil return means that the
     message is settled; what decides its status, whether the call returns nil, and whether the provider
     is called and the debit transaction run is spelled out case by case. If the call got as far as
     the debit, `at` is the state in which the debit transaction ran, the n-th of the run.
     */
    method ProcessReserved(k: WorkerId, m: MessageId, w: WalletId, cost: int, answers: Answers)
      returns (done: bool, ghost n: nat, ghost at: State)
      requires Valid() && k !in model.jobs && StageIs(model, m, Enqueued) && Admissible(model, Begin(k, m))
      requires model.messages[m].wallet == w && model.messages[m].cost == cost
      modifies this
      ensures Valid() && old(log) <= log && k !in model.jobs
      ensures done ==> m in delivery && m !in reservation
      ensures answers.NoFaults() ==> done
      // the row cannot be read, or the new row cannot be written
      ensures answers.begin.FailsToRead? || (answers.begin.FailsToCommit? && !old(model.messages[m].Terminal())) ==>
        !done && unchanged(this)
      // terminal before
      ensures !answers.begin.FailsToRead? && old(model.messages[m].Terminal()) ==> done == answers.commit.Succeeds?
      ensures done && old(model.messages[m].Terminal()) ==> Some(delivery[m]) == old(model.messages[m].status)
      // past its deadline
      ensures done && answers.expired && old(model.messages[m].status) != Some(Delivered) ==>
        delivery[m] == Status.Refunded
      ensures answers.begin.Begins? && !old(model.messages[m].Terminal()) && answers.expired ==>
        done == (answers.refund.Succeeds? && answers.mark.Succeeds?)
      // the reservation cannot be read, or is missing
      ensures !old(model.messages[m].Terminal()) && !answers.expired && answers.existsFails ==> !done
      ensures done && old(model.messages[m].reservation).None? && old(model.messages[m].status) != Some(Delivered) ==>
        delivery[m] == Status.Refunded
      ensures answers.begin.Begins? && !old(model.messages[m].Terminal()) && !answers.expired && !answers.existsFails
              && old(model.messages[m].reservation).None? ==>
        done == answers.mark.Succeeds?
      // not sent, or the debit transaction fails
      ensures done && (!answers.sent || answers.debitFails) && old(model.messages[m].status) != Some(Delivered) ==>
        delivery[m] == Status.Refunded
      // sent, and the debit transaction runs
      ensures answers.begin.Begins? && !old(model.messages[m].Terminal()) && !answers.expired && !answers.existsFails
              && old(model.messages[m].reservation).Some? && answers.sent && !answers.debitFails ==>
        && Reached(n, at) && |old(log)| < n < |log| && log[n] == Debit(k) && Send(k, true) in log[|old(log)|..n]
        && (if w in at.pg && 0 <= cost <= at.pg[w] then
              done == answers.commit.Succeeds? && (done ==> delivery[m] == Delivered)
            else
              && done == (answers.refund.Succeeds? && answers.mark.Succeeds?)
              && (done ==> delivery[m] == Status.Refunded))
      // who is called
      ensures old(model.messages[m].Terminal()) || answers.expired || answers.existsFails
              || old(model.messages[m].reservation).None? ==>
        forall i :: |old(log)| <= i < |log| && By(log[i], k) ==> !log[i].Send? && !log[i].Debit?
      ensures forall i :: |old(log)| <= i < |log| && By(log[i], k) && log[i].Send? ==> log[i].ok == answers.sent
      ensures answers.begin.Begins? && !old(model.messages[m].Terminal()) && !answers.expired && !answers.existsFails
              && old(model.messages[m].reservation).Some? ==>
        Send(k, answers.sent) in log[|old(log)|..]
      ensures !answers.sent || answers.debitFails ==>
        forall i :: |old(log)| <= i < |log| && By(log[i], k) ==> !log[i].Debit?
    {
      hide Run, Inv, MirrorsMessages, Next, InFlight, Admissible, Calls, Quiet, By;
      n, at := 0, model;
      if answers.begin.FailsToRead? { return false, n, at; }
      assert MirrorsMessage(reservation, delivery, outbox, m, model.messages[m]) by { Recorded(m); }
      if answers.begin.FailsToCommit? && (m !in delivery || delivery[m] == Processing) { return false, n, at; }
      var terminal := Start(k, m);
      ghost var before := log;
      if terminal {
        done := CommitReservation(k, m, answers.commit);
        QuietJoin(before, log, |old(log)|, k);
        QuietCalls(log, |old(log)|, k, false, answers.sent, false);
        CallsMean(log, |old(log)|, k, false, answers.sent, false);
      } else {
        done, n, at := Attempt(k, m, w, cost, answers);
        ghost var sends := !answers.expired && !answers.existsFails && old(model.messages[m].reservation).Some?;
        ghost var debits := sends && answers.sent && !answers.debitFails;
        QuietCalls(before, |old(log)|, k, sends, answers.sent, debits);
        CallsJoin(before, log, |old(log)|, k, sends, answers.sent, debits);
        CallsMean(log, |old(log)|, k, sends, answers.sent, debits);
        assert log[|before|..] == log[|old(log)|..][|before| - |old(log)|..];
        if debits {
          assert log[|before|..n] == log[|old(log)|..n][|before| - |old(log)|..];
        }
      }
      if done { SettledInStores(m); }
    }

    /** Begin the delivery, and let others run. */
    method Start(k: WorkerId, m: MessageId) returns (terminal: bool)
      requires Valid() && k !in model.jobs && StageIs(model, m, Enqueued) && Admissible(model, Begin(k, m))
      modifies this
      ensures Valid() && old(log) <= log && |old(log)| < |log|
      ensures Ready(k, m, if terminal then ToCommit else ToDecide) && (terminal <==> old(model.messages[m].Terminal()))
      ensures var r, r' := old(model.messages[m]), model.messages[m];
        && r'.wallet == r.wallet && r'.cost == r.cost
        && (terminal ==> r'.status == r.status)
        && (!terminal ==> r'.status == Some(Processing) || (r'.status == Some(Status.Refunded) && r.reservation.None?))
        && (!terminal ==> r'.reservation == r.reservation)
      ensures Quiet(log, |old(log)|, k)
    {
      hide Run, Inv, MirrorsMessages, Next, BeginNext, InFlight, Kept;
      OpenStatus(model.messages[m]);
      terminal := BeginDelivery(k, m);
      ghost var r, before := model.messages[m], log;
      Pause(k, m);
      KeptFacts(r, model.messages[m]);
      QuietJoin(before, log, |old(log)|, k);
    }

    lemma OpenStatus(r: Message)
      ensures r.Terminal() || r.status == None || r.status == Some(Processing)
    {
      match r.status
      case None =>
      case Some(v) => assert v.Processing? || v.Delivered? || v.Refunded?;
    }

    lemma KeptFacts(r: Message, r': Message)
      requires Kept(r, r')
      ensures r'.wallet == r.wallet && r'.cost == r.cost && (r.Terminal() ==> r'.status == r.status)
      ensures r.status == Some(Processing) ==> r'.status == Some(Processing) || r'.status == Some(Status.Refunded)
      ensures !r.Concluded() ==> r' == r
      ensures r.reservation.None? ==> r'.reservation.None?
    {
    }

    lemma SettledInStores(m: MessageId)
      requires Valid() && Finished(m)
      ensures m in delivery && Some(delivery[m]) == model.messages[m].status && m !in reservation
    {
      hide Run;
      FinishedSettled(model, m);
      Recorded(m);
    }

    /** The part of `processReserved` after a message has been found not to be terminal. */
    method Attempt(k: WorkerId, m: MessageId, w: WalletId, cost: int, answers: Answers)
      returns (done: bool, ghost n: nat, ghost at: State)
      requires Valid() && Ready(k, m, ToDecide) && model.messages[m].wallet == w && model.messages[m].cost == cost
      requires model.messages[m].status != Some(Delivered)
      requires model.messages[m].reservation.Some? ==> !model.messages[m].Terminal()
      modifies this
      ensures Valid() && old(log) <= log && k !in model.jobs
      ensures done ==> Finished(m)
      ensures answers.expired ==>
        && done == (answers.refund.Succeeds? && answers.mark.Succeeds?)
        && (done ==> model.messages[m].status == Some(Status.Refunded))
      ensures !answers.expired && answers.existsFails ==> !done
      ensures !answers.expired && !answers.existsFails && old(model.messages[m].reservation).None? ==>
        && done == answers.mark.Succeeds?
        && (done ==> model.messages[m].status == Some(Status.Refunded))
      ensures !answers.expired && !answers.existsFails && old(model.messages[m].reservation).Some? ==>
        SettledAsAnswered(|old(log)|, k, m, w, cost, answers, done, n, at)
      ensures var sends := !answers.expired && !answers.existsFails && old(model.messages[m].reservation).Some?;
        Calls(log, |old(log)|, k, sends, answers.sent, sends && answers.sent && !answers.debitFails)
    {
      hide Run, Inv, Next, CanAfford, MirrorsMessages, Calls, Kept;
      n, at := 0, model;
      ghost var debits := answers.sent && !answers.debitFails;
      if answers.expired {
        Decide(k, m, Expire(k));
        ghost var before := log;
        done := RefundAndMark(k, m, w, answers.refund, answers.mark);
        QuietJoin(before, log, |old(log)|, k);
        QuietCalls(log, |old(log)|, k, false, answers.sent, false);
        return;
      }
      if answers.existsFails {
        Decide(k, m, Fail(k));
        QuietCalls(log, |old(log)|, k, false, answers.sent, false);
        return false, n, at;
      }
      var reserved := Look(k, m);
      ghost var before := log;
      if !reserved {
        done := MarkRefunded(k, m, answers.mark);
        QuietJoin(before, log, |old(log)|, k);
        QuietCalls(log, |old(log)|, k, false, answers.sent, false);
        return;
      }
      done, n, at := SendAndSettle(k, m, w, cost, answers);
      QuietCalls(before, |old(log)|, k, true, answers.sent, debits);
      CallsJoin(before, log, |old(log)|, k, true, answers.sent, debits);
      assert log[|before|..] == log[|old(log)|..][|before| - |old(log)|..];
      if debits {
        assert log[|before|..n] == log[|old(log)|..n][|before| - |old(log)|..];
      }
    }

    /** Look for the reservation, and let others run. */
    method Look(k: WorkerId, m: MessageId) returns (reserved: bool)
      requires Valid() && Ready(k, m, ToDecide)
      modifies this
      ensures Valid() && old(log) <= log && Ready(k, m, if reserved then ToSend else ToMark)
      ensures reserved <==> old(model.messages[m].reservation).Some?
      ensures model.messages[m].wallet == old(model.messages[m].wallet)
      ensures model.messages[m].cost == old(model.messages[m].cost)
      ensures Quiet(log, |old(log)|, k)
    {
      hide Run, Inv, Next, MirrorsMessages, Kept;
      assert (m in reservation <==> model.messages[m].reservation.Some?) by { Recorded(m); }
      reserved := IsReserved(k, m);
      ghost var r, before := model.messages[m], log;
      Pause(k, m);
      KeptFacts(r, model.messages[m]);
      QuietJoin(before, log, |old(log)|, k);
    }

    lemma OneCall(log: seq<Action>, a: Action, k: WorkerId, sends: bool, ok: bool, debits: bool)
      requires a.Send? ==> sends && a.ok == ok
      requires a.Debit? ==> debits
      ensures Calls(log + [a], |log|, k, sends, ok, debits)
    {
    }

    /** What a call that has found its message reserved comes to. */
    ghost predicate SettledAsAnswered(from: nat, k: WorkerId, m: MessageId, w: WalletId, cost: int, answers: Answers,
                                      done: bool, n: nat, at: State)
      reads this
    {
      && from <= |log| && Send(k, answers.sent) in log[from..]
      && if answers.sent && !answers.debitFails then
           && Reached(n, at) && from < n < |log| && log[n] == Debit(k) && Send(k, true) in log[from..n]
           && (if CanAfford(at, w, cost) then
                 done == answers.commit.Succeeds? && (done ==> StatusIs(m, Delivered))
               else
                 && done == (answers.refund.Succeeds? && answers.mark.Succeeds?)
                 && (done ==> StatusIs(m, Status.Refunded)))
         else
           done == (answers.refund.Succeeds? && answers.mark.Succeeds?) && (done ==> StatusIs(m, Status.Refunded))
    }

    ghost predicate StatusIs(m: MessageId, status: Status)
      reads this
    {
      m in model.messages && model.messages[m].status == Some(status)
    }

    /** The provider call, then debit and commit, or give the credit back. */
    method SendAndSettle(k: WorkerId, m: MessageId, w: WalletId, cost: int, answers: Answers)
      returns (done: bool, ghost n: nat, ghost at: State)
      requires Valid() && Ready(k, m, ToSend) && model.messages[m].wallet == w && model.messages[m].cost == cost
      modifies this
      ensures Valid() && old(log) <= log && k !in model.jobs
      ensures done ==> Finished(m)
      ensures SettledAsAnswered(|old(log)|, k, m, w, cost, answers, done, n, at)
      ensures Calls(log, |old(log)|, k, true, answers.sent, answers.sent && !answers.debitFails)
    {
      hide Run, Inv, MirrorsMessages, Next, CanAfford, Calls, Kept;
      n, at := 0, model;
      Decide(k, m, Send(k, answers.sent));
      OneCall(old(log), Send(k, answers.sent), k, true, answers.sent, answers.sent && !answers.debitFails);
      ghost var r, before := model.messages[m], log;
      Pause(k, m);
      KeptFacts(r, model.messages[m]);
      QuietCalls(log, |before|, k, true, answers.sent, answers.sent && !answers.debitFails);
      CallsJoin(before, log, |old(log)|, k, true, answers.sent, answers.sent && !answers.debitFails);
      before := log;
      if !answers.sent {
        done := RefundAndMark(k, m, w, answers.refund, answers.mark);
        QuietCalls(log, |before|, k, true, answers.sent, false);
      } else {
        done, n, at := DebitAndSettle(k, m, w, cost, answers);
        if !answers.debitFails {
          assert log[|old(log)|..n][0] == Send(k, true);
        }
      }
      CallsJoin(before, log, |old(log)|, k, true, answers.sent, answers.sent && !answers.debitFails);
      assert log[|old(log)|..][0] == Send(k, answers.sent);
    }

    /** After a successful send: debit and commit, or give the credit back. */
    method DebitAndSettle(k: WorkerId, m: MessageId, w: WalletId, cost: int, answers: Answers)
      returns (done: bool, ghost n: nat, ghost at: State)
      requires Valid() && Ready(k, m, ToDebit) && model.messages[m].wallet == w && model.messages[m].cost == cost
      modifies this
      ensures Valid() && old(log) <= log && k !in model.jobs
      ensures done ==> Finished(m)
      ensures !answers.debitFails ==> Reached(n, at) && n == |old(log)| < |log| && log[n] == Debit(k)
      ensures !answers.debitFails && CanAfford(at, w, cost) ==>
        done == answers.commit.Succeeds? && (done ==> StatusIs(m, Delivered))
      ensures answers.debitFails || !CanAfford(at, w, cost) ==>
        done == (answers.refund.Succeeds? && answers.mark.Succeeds?) && (done ==> StatusIs(m, Status.Refunded))
      ensures Calls(log, |old(log)|, k, true, answers.sent, !answers.debitFails)
    {
      hide Run, Inv, MirrorsMessages, Next, Calls, Quiet, CanAfford;
      n, at := |log|, model;
      var debited := TryDebit(k, m, w, cost, answers);
      ghost var middle := log;
      if debited {
        done := CommitReservation(k, m, answers.commit);
      } else {
        done := RefundAndMark(k, m, w, answers.refund, answers.mark);
      }
      assert log[..n] == old(log);
      QuietCalls(log, |middle|, k, true, answers.sent, !answers.debitFails);
      CallsJoin(middle, log, |old(log)|, k, true, answers.sent, !answers.debitFails);
    }

    /** Run the debit transaction, which may fail, and let others run. */
    method TryDebit(k: WorkerId, m: MessageId, w: WalletId, cost: int, answers: Answers) returns (debited: bool)
      requires Valid() && Ready(k, m, ToDebit) && model.messages[m].wallet == w && model.messages[m].cost == cost
      modifies this
      ensures Valid() && old(log) <= log && |old(log)| < |log|
      ensures Ready(k, m, if debited then ToCommit else ToRefund) && model.messages[m].wallet == w
      ensures debited <==> !answers.debitFails && CanAfford(old(model), w, cost)
      ensures debited ==> model.messages[m].status == Some(Delivered)
      ensures !answers.debitFails ==> log[|old(log)|] == Debit(k)
      ensures Calls(log, |old(log)|, k, true, answers.sent, !answers.debitFails)
    {
      hide Run, Inv, MirrorsMessages, Next, Calls, Quiet, Kept;
      debited := false;
      if answers.debitFails {
        Decide(k, m, DebitFails(k));
      } else {
        debited := DebitTransaction(k, m, w, cost);
      }
      ghost var r, before := model.messages[m], log;
      OneCall(old(log), log[|old(log)|], k, true, answers.sent, !answers.debitFails);
      Pause(k, m);
      KeptFacts(r, model.messages[m]);
      QuietCalls(log, |before|, k, true, answers.sent, !answers.debitFails);
      CallsJoin(before, log, |old(log)|, k, true, answers.sent, !answers.debitFails);
    }
  }
}
