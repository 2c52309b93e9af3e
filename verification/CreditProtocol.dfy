/**
 The reserve / send / commit-or-refund credit protocol as a state machine.

 One action is one atomic step of the system: a Redis Lua script or command, a
 PostgreSQL transaction, or a local decision of one process. Any number of
 requests, administrators and workers interleave at this granularity, and a
 worker may crash or return an error (`Fail`) between any two of its steps.
 A request process that dies after `Reserve` simply takes no further action.
 */
module CreditProtocol {
  import opened Options

  type WalletId = int
  type MessageId = string
  type WorkerId = nat

  /** The status column of `sms_deliveries`. */
  datatype Status = Processing | Delivered | Refunded

  /** How far the accepting request has come with a message it reserved credit for. */
  datatype Stage = Accepted | Compensating | Enqueued | Abandoned

  /**
   Everything the stores hold about one message: its delivery event, the Redis
   reservation key, the `sms_deliveries` row, and whether a worker has taken the last
   step of `processReserved` for it, without which no worker can return nil.
   */
  datatype Message = Message(
    wallet: WalletId,
    cost: int,
    stage: Stage,
    reservation: Option<int>,
    status: Option<Status>,
    finished: bool)
  {
    predicate Terminal() {
      status == Some(Delivered) || status == Some(Refunded)
    }

    /** Terminal, and no credit is held for the message any more. */
    predicate Settled() {
      Terminal() && reservation == None
    }

    /** Terminal, or without reserved credit: no worker can come to debit the message any more. */
    predicate Concluded() {
      Terminal() || reservation == None
    }
  }

  /** Where a worker stands in `processReserved`. */
  datatype Pc = ToDecide | ToSend | ToDebit | ToRefund | ToMark | ToCommit

  datatype Job = Job(message: MessageId, pc: Pc)

  /** A row of `wallet_transactions`; debits carry a negative amount. */
  datatype LedgerRow = LedgerRow(wallet: WalletId, amount: int, reference: MessageId)

  /** A balance on its way from PostgreSQL to a Redis key. */
  datatype Write = Write(wallet: WalletId, units: int)

  datatype State = State(
    available: map<WalletId, int>,        // Redis: spendable balance
    messages: map<MessageId, Message>,    // every message ever reserved
    pg: map<WalletId, int>,               // PostgreSQL: wallet balance
    ledger: seq<LedgerRow>,               // PostgreSQL: wallet_transactions
    jobs: map<WorkerId, Job>,
    loads: map<MessageId, Write>,         // balances read by `Reserve`, not yet SETNX'd
    writes: multiset<Write>)              // balances of committed top-ups, not yet SET

  datatype Action =
    // accepting request
    | Reserve(m: MessageId, w: WalletId, cost: int)
    | Load(m: MessageId, w: WalletId)
    | SetNX(m: MessageId)
    | Enqueue(m: MessageId)
    | EnqueueFails(m: MessageId)
    | Compensate(m: MessageId)
    // administrator
    | CreateWallet(w: WalletId, units: int)
    | TopUp(w: WalletId, units: int, reference: MessageId)
    | SetAvailable(w: WalletId, units: int)
    | SetAvailableLost(w: WalletId, units: int)
    // worker
    | Begin(k: WorkerId, m: MessageId)
    | Expire(k: WorkerId)
    | Check(k: WorkerId)
    | Send(k: WorkerId, ok: bool)
    | Debit(k: WorkerId)
    | DebitFails(k: WorkerId)
    | Refund(k: WorkerId)
    | Mark(k: WorkerId)
    | Commit(k: WorkerId)
    | Fail(k: WorkerId)

  const INITIAL := State(map[], map[], map[], [], map[], map[], multiset{})

  /** Worker k is processing a known message and stands at pc. */
  predicate At(s: State, k: WorkerId, pc: Pc) {
    k in s.jobs && s.jobs[k].pc == pc && s.jobs[k].message in s.messages
  }

  predicate InFlight(s: State, m: MessageId) {
    exists k :: k in s.jobs && s.jobs[k].message == m
  }

  predicate StageIs(s: State, m: MessageId, g: Stage) {
    m in s.messages && s.messages[m].stage == g
  }

  /** A worker takes this step; otherwise a request or an administrator does. */
  predicate WorkerStep(a: Action) {
    || a.Begin? || a.Expire? || a.Check? || a.Send? || a.Debit?
    || a.DebitFails? || a.Refund? || a.Mark? || a.Commit? || a.Fail?
  }

  /** When an action can occur. */
  predicate Enabled(s: State, a: Action) {
    if WorkerStep(a) then WorkerEnabled(s, a) else RequestEnabled(s, a)
  }

  /** Message ids are fresh and costs are positive on `Reserve`. */
  predicate RequestEnabled(s: State, a: Action)
    requires !WorkerStep(a)
  {
    match a
    case Reserve(m, w, cost) => m !in s.messages && w in s.available && 0 < cost <= s.available[w]
    case Load(_, w) => w in s.pg
    case SetNX(m) => m in s.loads
    case Enqueue(m) => StageIs(s, m, Accepted)
    case EnqueueFails(m) => StageIs(s, m, Accepted)
    case Compensate(m) => StageIs(s, m, Compensating)
    case CreateWallet(w, u) => w !in s.pg && 0 <= u
    case TopUp(w, u, _) => w in s.pg && 0 < u
    case SetAvailable(w, u) => Write(w, u) in s.writes
    case SetAvailableLost(w, u) => Write(w, u) in s.writes
  }

  predicate WorkerEnabled(s: State, a: Action)
    requires WorkerStep(a)
  {
    match a
    case Begin(k, m) => k !in s.jobs && StageIs(s, m, Enqueued)
    case Expire(k) => At(s, k, ToDecide)
    case Check(k) => At(s, k, ToDecide)
    case Send(k, _) => At(s, k, ToSend)
    case Debit(k) => At(s, k, ToDebit)
    case DebitFails(k) => At(s, k, ToDebit)
    case Refund(k) => At(s, k, ToRefund)
    case Mark(k) => At(s, k, ToMark)
    case Commit(k) => At(s, k, ToCommit)
    case Fail(k) => k in s.jobs
  }

  function Goto(s: State, k: WorkerId, pc: Pc): State
    requires k in s.jobs
  {
    s.(jobs := s.jobs[k := s.jobs[k].(pc := pc)])
  }

  function Put(s: State, m: MessageId, r: Message): State {
    s.(messages := s.messages[m := r])
  }

  /** The reserve script's success branch. */
  function ReserveNext(s: State, m: MessageId, w: WalletId, cost: int): State
    requires w in s.available
  {
    Put(s, m, Message(w, cost, Accepted, Some(cost), None, false))
      .(available := s.available[w := s.available[w] - cost])
  }

  /** The refund script: give the reserved amount back if the reservation still exists. */
  function RefundNext(s: State, m: MessageId): State
    requires m in s.messages
  {
    var r := s.messages[m];
    if r.reservation.None? then s
    else
      var base := if r.wallet in s.available then s.available[r.wallet] else 0;  // INCRBY on a missing key
      Put(s, m, r.(reservation := None)).(available := s.available[r.wallet := base + r.reservation.value])
  }

  /** The row lookup of `beginDelivery`: create it if missing, and take the shortcut if it is terminal. */
  function BeginNext(s: State, k: WorkerId, m: MessageId): State
    requires m in s.messages
  {
    var r := s.messages[m];
    var s1 := if r.status.None? then Put(s, m, r.(status := Some(Processing))) else s;
    s1.(jobs := s.jobs[k := Job(m, if r.Terminal() then ToCommit else ToDecide)])
  }

  predicate CanAfford(s: State, w: WalletId, cost: int) {
    w in s.pg && 0 <= cost <= s.pg[w]
  }

  /** The wallet can pay for message m. */
  predicate Affords(s: State, m: MessageId)
    requires m in s.messages
  {
    CanAfford(s, s.messages[m].wallet, s.messages[m].cost)
  }

  /** The debit transaction: balance, ledger row and status change together, or not at all. */
  function DebitNext(s: State, k: WorkerId): State
    requires k in s.jobs && s.jobs[k].message in s.messages
  {
    var m := s.jobs[k].message;
    var r := s.messages[m];
    if !Affords(s, m) then Goto(s, k, ToRefund)
    else Goto(Put(s, m, r.(status := Some(Delivered))), k, ToCommit).(
           pg := s.pg[r.wallet := s.pg[r.wallet] - r.cost],
           ledger := s.ledger + [LedgerRow(r.wallet, -r.cost, m)])
  }

  /** Worker k stores r as its last step for the message. */
  function Return(s: State, k: WorkerId, r: Message): State
    requires k in s.jobs
  {
    Put(s, s.jobs[k].message, r.(finished := true)).(jobs := s.jobs - {k})
  }

  function Next(s: State, a: Action): State
    requires Enabled(s, a)
  {
    if WorkerStep(a) then WorkerNext(s, a) else RequestNext(s, a)
  }

  function RequestNext(s: State, a: Action): State
    requires !WorkerStep(a) && RequestEnabled(s, a)
  {
    match a
    case Reserve(m, w, cost) => ReserveNext(s, m, w, cost)
    case Load(m, w) => s.(loads := s.loads[m := Write(w, s.pg[w])])
    case SetNX(m) =>
      var x := s.loads[m];
      s.(loads := s.loads - {m},
         available := if x.wallet in s.available then s.available else s.available[x.wallet := x.units])
    case Enqueue(m) => Put(s, m, s.messages[m].(stage := Enqueued))
    case EnqueueFails(m) => Put(s, m, s.messages[m].(stage := Compensating))
    case Compensate(m) => var t := RefundNext(s, m); Put(t, m, t.messages[m].(stage := Abandoned))
    case CreateWallet(w, u) =>
      s.(pg := s.pg[w := u], writes := s.writes + multiset{Write(w, u)})
    case TopUp(w, u, ref) =>
      s.(pg := s.pg[w := s.pg[w] + u],
         ledger := s.ledger + [LedgerRow(w, u, ref)],
         writes := s.writes + multiset{Write(w, s.pg[w] + u)})
    case SetAvailable(w, u) =>
      s.(writes := s.writes - multiset{Write(w, u)}, available := s.available[w := u])
    case SetAvailableLost(w, u) => s.(writes := s.writes - multiset{Write(w, u)})
  }

  function WorkerNext(s: State, a: Action): State
    requires WorkerStep(a) && WorkerEnabled(s, a)
  {
    match a
    case Begin(k, m) => BeginNext(s, k, m)
    case Expire(k) => Goto(s, k, ToRefund)
    case Check(k) => Goto(s, k, if s.messages[s.jobs[k].message].reservation.Some? then ToSend else ToMark)
    case Send(k, ok) => Goto(s, k, if ok then ToDebit else ToRefund)
    case Debit(k) => DebitNext(s, k)
    case DebitFails(k) => Goto(s, k, ToRefund)
    case Refund(k) => Goto(RefundNext(s, s.jobs[k].message), k, ToMark)
    case Mark(k) => Return(s, k, s.messages[s.jobs[k].message].(status := Some(Refunded)))
    case Commit(k) => Return(s, k, s.messages[s.jobs[k].message].(reservation := None))
    case Fail(k) => s.(jobs := s.jobs - {k})
  }

  /** A message that still holds credit for its debit is never begun while another worker holds it. */
  predicate Admissible(s: State, a: Action) {
    a.Begin? && a.m in s.messages && InFlight(s, a.m) ==> s.messages[a.m].Concluded()
  }

  /** The actions lead from s to s', and redeliveries overlap only where it is admissible. */
  predicate Run(s: State, acts: seq<Action>, s': State)
    decreases |acts|
  {
    if acts == [] then s == s'
    else Enabled(s, acts[0]) && Admissible(s, acts[0]) && Run(Next(s, acts[0]), acts[1..], s')
  }

  /** Runs compose. */
  lemma {:induction false} RunConcat(s: State, xs: seq<Action>, s1: State, ys: seq<Action>, s2: State)
    requires Run(s, xs, s1) && Run(s1, ys, s2)
    ensures Run(s, xs + ys, s2)
    decreases |xs|
  {
    hide Next, Enabled, Admissible;
    if xs == [] {
      assert xs + ys == ys;
    } else {
      RunConcat(Next(s, xs[0]), xs[1..], s1, ys, s2);
      assert (xs + ys)[1..] == xs[1..] + ys;
    }
  }

  /** One more step. */
  lemma RunSnoc(s: State, xs: seq<Action>, s1: State, a: Action)
    requires Run(s, xs, s1) && Enabled(s1, a) && Admissible(s1, a)
    ensures Run(s, xs + [a], Next(s1, a))
  {
    assert Run(Next(s1, a), [], Next(s1, a));
    RunConcat(s, xs, s1, [a], Next(s1, a));
  }
}
