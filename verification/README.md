# A verified model of the SMS gateway's credit, dispatch and provider logic

The gateway accepts SMS requests, reserves credit for them, hands them to workers through an outbox
and a broker, sends them through a pool of providers, and settles the credit. This project models
the parts of it where a mistake costs money, order or availability, and proves what they guarantee:

- **The reserve / send / commit-or-refund protocol.** Credit lives in two stores with no common
  transaction: Redis holds a spendable balance per wallet and a reservation per message, PostgreSQL
  holds the balance, the ledger and the delivery row. `CreditProtocol` is the state machine: one
  action is one Lua script, one transaction or one local decision, any number of processes
  interleave, and a worker may crash between any two steps. `CreditSafety`, `CreditDrift` and
  `CreditHistory` prove what holds over all runs; `CreditLimits` and `CreditCover` prove exactly where
  the guarantees end; `Gateway` is the code itself, with other processes running between its steps and infrastructure
  errors before or after the effect of a call, proved to be a run of the machine.
- **The circuit breaker.** `Breaker` holds the in-process and the Redis breaker, as values and as the
  code that updates them, and proves them bisimilar exactly as long as no half-open lease lapses.
  `BreakerRuns` is about whole runs with outstanding permits and a clock; `Sender` is the
  round-robin sender over breakers of one process, `SharedSender` the one over the circuits in Redis,
  with other senders at work between its calls.
- **The fair outbox dispatcher.** `FairRows` is the bounded round-robin selection, `Outbox` the runs
  of inserts and passes with FIFO order and a bound on waiting, `Dispatcher` the code.
- **Money.** `Money` is the float column round trip for any rounding with float64's relative error,
  `Binary64` the rounding of binary formats, float64 among them, which is such a rounding;
  `WalletLedger` is the wallet row and its ledger on top of it, `Legacy` the path without reservations.

`dafny verify dfyconfig.toml` checks everything.

## Assumptions

- Message ids are unique (`generateMessageID` draws them at random); on the legacy path the unique
  index of the outbox is modelled instead.
- A transaction or an outbox insert that reports an error had no effect. An error of a Redis script
  or of `markDelivery` may come before or after its effect.
- The delivery event carries the wallet and the cost that were reserved.
- A message that is neither terminal nor without reserved credit is not begun while another worker
  holds it (`CreditProtocol.Admissible`). The row lock of `beginDelivery` ends with its transaction
  (internal/infrastructure/messaging/rabbitmq.go:343-363), so the code does not enforce this, although
  README.md of the repository (lines 120-122) calls duplicate deliveries safe across replicas. The
  assumption is exact: `CreditLimits.OverlapIsSafeExactly`. All other overlaps are part of the runs.
- New outbox rows get larger ids than all rows a pass can see.
- One dispatcher runs at a time: query, publishing and marking of a pass are one step of the outbox runs.

## What turned out not to hold

- Overlapping deliveries of one message are not always safe. Beginning a message that another worker
  holds keeps settlement exactly-once, however the run goes on, if and only if the message is terminal
  or has no credit reserved (`CreditLimits.OverlapIsSafeExactly`). Otherwise it can end up charged and
  refunded (`CreditLimits.OverlapBreaksSettlement`) or charged twice (`CreditLimits.OverlapDebitsTwice`),
  from every reachable state of that kind, and there are such states (`CreditLimits.OverlapIsReachable`).
- A failed request can leave its reservation behind. It does exactly if the reserve script took the
  credit and either its reply was lost, after which nobody gives the credit back
  (internal/application/sms/service.go:136-139), or the compensating refund had no effect
  (`Gateway.Stores.Execute`). Such a reservation has no outbox row, and no run of all other processes
  ever releases it (`CreditLimits.DanglingForever`, `CreditLimits.LostReplyStrandsCredit`).
- Reserved credit cannot always be debited. In every reachable state, no debit of a wallet can be rejected,
  in any future whose cache writes leave room for the reservations they forget (calm ones), if and only if
  Redis promises no more of the wallet than PostgreSQL holds, that is, if the drift is not positive
  (`CreditCover.DebitsSafeExactly`).
- A top-up breaks this. It overwrites the Redis balance with the PostgreSQL balance and forgets the
  reservations. An atomic top-up, whose cache write follows at once, leaves a drift of exactly the
  undelivered reserved sum, hence zero iff nothing is reserved (`CreditDrift.TopUpDrift`); then requests
  of the same cost can use the wallet up, so that a sent message's debit is rejected
  (`CreditLimits.TopUpStrandsSentMessage`). A cache write is safe iff it leaves room for the
  reservations (`CreditCover.WriteIsSafeExactly`).
- The cache write is not atomic with its top-up
  (internal/infrastructure/persistence/wallet_repository.go:150-152), and a late one can do harm with nothing
  reserved. The drift it leaves is the reserved sum at the write minus the wallet's ledger flow since the
  top-up committed (`CreditCover.LateWriteDrift`). If a debit overtakes the write, this is positive
  although nothing is reserved and nobody is busy, for any cost and top-up
  (`CreditCover.LateWriteStrands`).
- A message can be sent more than once, once per failure of a worker that holds it and once more
  (`CreditHistory.SentOncePerFailure`); a worker that fails at its debit can come back to exactly the same
  state by sending again, so the bound cannot be improved (`CreditLimits.FailureSendsAgain`).
- A channel can starve. A pass takes a row of a channel in its window exactly if the window fits into the
  limit or fewer than `limit` of its channels sort before that channel (`Outbox.ServedExactly`). Successful
  passes that do not read a row or have such room for it bound its wait, whatever the others do
  (`Outbox.NoStarvation`); passes without room need never serve it, for every limit
  (`Outbox.CrowdedStarves`).
- An express line whose passes keep failing holds the normal line up: it gets a pass exactly if the
  express pass succeeds (`Dispatcher.Table.PublishFairBatch`).
- The memory and the Redis breaker differ exactly when an acquire finds a lapsed lease
  (`Breaker.Bisimilar`), and for all settings there is a run in which one does (`Breaker.LapseIsReachable`).
- A scan whose cursor wraps at 2^64 skips a provider, unless the number of providers divides 2^64
  (`Sender.VisitsAllExactly`).

## Model

| member | source | states |
|---|---|---|
| CreditSafety.StepInv | internal/infrastructure/messaging/rabbitmq.go:278-324 | every step of every process keeps the invariant, unless it begins a message that holds credit and that another worker holds |
| CreditSafety.RunInv | internal/infrastructure/messaging/rabbitmq.go:278-324 | so does every run with crashes anywhere and redeliveries that overlap only on terminal or unreserved messages |
| CreditSafety.ExactlyOneSettlement | internal/infrastructure/messaging/rabbitmq.go:278-324 | in every reachable state a message is delivered iff the ledger has its one debit, a refunded one has no debit and no reservation, the settled messages are exactly those a worker has finished, and no PostgreSQL balance is negative |
| CreditSafety.CommitDiscardsOnlyDelivered | internal/infrastructure/messaging/rabbitmq.go:279-283 | the terminal shortcut's commit only ever drops a reservation whose message is delivered and debited |
| CreditSafety.TerminalForever | internal/infrastructure/messaging/rabbitmq.go:356-359 | terminal statuses never change and settled messages stay settled, over any run |
| CreditSafety.ReplayIsNoOp | internal/infrastructure/messaging/rabbitmq.go:279-283 | processing a settled message again returns to exactly the same state |
| CreditSafety.NeverBlocked | internal/infrastructure/messaging/rabbitmq.go:278-324 | a worker that holds a message always has a next step other than failing |
| CreditSafety.Recovery | internal/infrastructure/messaging/rabbitmq.go:258-262 | from every reachable state, a worker that does not fail settles its message within at most five of its own steps, however all other processes interleave |
| CreditDrift.StepDrift | internal/infrastructure/reservation/redis.go:16-29 | no step except a top-up of the wallet and its cache write changes available + undelivered reservations - PostgreSQL balance |
| CreditDrift.DriftLaw | internal/infrastructure/messaging/rabbitmq.go:278-324 | over any run that does not top the wallet up its drift is unchanged; in particular an abandoned request nets to nothing |
| CreditDrift.TopUpDrift | internal/infrastructure/persistence/wallet_repository.go:150-152 | an atomic top-up, with its cache write at once, leaves a drift of exactly the undelivered reserved sum, zero iff nothing is reserved |
| CreditDrift.QuietRunsHaveNoDrift | internal/infrastructure/reservation/redis.go:98-100 | runs whose top-ups are atomic and happen only while nothing is reserved keep the drift at zero |
| CreditDrift.FirstCached | internal/infrastructure/reservation/redis.go:66-77 | lazy initialisation can only promise at most what PostgreSQL holds, even with a stale load |
| CreditDrift.CoveredAffords | internal/infrastructure/persistence/wallet_repository.go:119-126 | without positive drift every reserved undelivered message can be debited |
| CreditDrift.ReservedIsAffordable | internal/infrastructure/messaging/rabbitmq.go:307-317 | if cache writes leave room for the reservations they forget, no debit is ever rejected for lack of funds, at any point of any interleaving |
| CreditCover.DebitsSafeExactly | internal/infrastructure/messaging/rabbitmq.go:307-317 | in every reachable state, no debit of a wallet is rejected in any future with calm cache writes iff Redis promises no more of it than PostgreSQL holds; from positive drift a rejected debit is reached without any further top-up |
| CreditCover.WriteIsSafeExactly | internal/infrastructure/reservation/redis.go:98-100 | after a cache write no debit is rejected in any such future iff the written balance plus the reserved sum is at most what PostgreSQL holds |
| CreditCover.LastWriteDecides | internal/infrastructure/reservation/redis.go:98-100 | until the wallet is topped up or written again, its drift is what the last cache write wrote, plus what was reserved then, minus what PostgreSQL held then |
| CreditCover.LateWriteDrift | internal/infrastructure/persistence/wallet_repository.go:150-152 | for a cache write any number of steps after its balance was read, as when its top-up committed, the drift is the reserved sum at the write minus the ledger flow of the wallet since then |
| CreditCover.LateWriteStrands | internal/infrastructure/persistence/wallet_repository.go:150-152 | for any cost and top-up a run from the empty system ends, by a debit overtaking the cache write, with nothing reserved, nobody busy, a drift of the cost and a debit that can be rejected |
| CreditHistory.NoChargeWithoutSend | internal/infrastructure/messaging/rabbitmq.go:301-317 | a debit for a message exists only if a provider accepted the message earlier in the run |
| CreditHistory.SentOncePerFailure | internal/infrastructure/messaging/rabbitmq.go:301-306 | over every run providers accept a message at most once more than workers holding it fail |
| CreditHistory.LedgerConservation | internal/infrastructure/persistence/wallet_repository.go:128-145 | over any run a PostgreSQL balance changes by exactly what the ledger records for the wallet |
| CreditLimits.OverlapBreaksSettlement | internal/infrastructure/messaging/rabbitmq.go:343-363 | from every reachable state, beginning a processing and reserved message that another worker holds can end with the message refunded although the ledger charges it |
| CreditLimits.OverlapIsSafeExactly | internal/infrastructure/messaging/rabbitmq.go:343-363 | a begin keeps debits exactly-once over all continuations iff nobody holds the message or it is terminal or unreserved |
| CreditLimits.OverlapDebitsTwice | internal/infrastructure/messaging/rabbitmq.go:307-317 | if the first worker has not turned to refund, the overlap can also end with two debits |
| CreditLimits.OverlapIsReachable | internal/infrastructure/messaging/rabbitmq.go:278-324 | for any wallet, cost and workers a run from the empty system reaches a worker about to debit and an unsafe overlapping begin |
| CreditLimits.FailureSendsAgain | internal/infrastructure/messaging/rabbitmq.go:258-262 | a worker that fails at its debit can return to exactly the same state by sending the message again |
| CreditLimits.TopUpStrandsSentMessage | internal/infrastructure/reservation/redis.go:98-100 | from every reachable state with a worker about to debit, a top-up lets requests of the same cost use the wallet up, and that debit is rejected |
| CreditLimits.DanglingForever | internal/application/sms/service.go:135-149 | a reservation its request has left behind keeps its record and its share of the reserved sum over every run of all other processes |
| CreditLimits.LostReplyStrandsCredit | internal/application/sms/service.go:136-139 | a reserve whose reply is lost withholds its cost from the wallet for good, from every reachable state |
| Gateway.HolderUndisturbed | internal/infrastructure/messaging/rabbitmq.go:278-324 | no other process touches the record of a message a worker holds while there is credit for its debit; afterwards it can only be concluded the same way |
| Gateway.ForeignRun | internal/infrastructure/messaging/rabbitmq.go:278-324 | however many steps others take, a process finds its own work as it left it, and no balance key disappears |
| Gateway.Stores.EvalReserve | internal/infrastructure/reservation/redis.go:16-23 | the four codes say exactly which condition holds, an existing reservation included, and never collide with a remaining balance; on success it is the protocol's reserve step |
| Gateway.Stores.Initialise | internal/infrastructure/reservation/redis.go:66-77 | afterwards the balance key exists, or the wallet does not, or the load or SETNX failed |
| Gateway.Stores.Reserve | internal/infrastructure/reservation/redis.go:58-83 | terminates after at most one recursion although others run in between; takes the credit iff it was there in the state the script last ran in and the script ran, even if the caller sees an error; returns the remaining balance iff the reply arrives; a refusal has the stated reason |
| Gateway.Stores.EvalRefund | internal/infrastructure/reservation/redis.go:25-29 | gives back exactly the reserved amount if the reservation still exists, once |
| Gateway.Stores.Enqueue | internal/infrastructure/persistence/wallet_repository.go:58-67 | the outbox row appears, or nothing does |
| Gateway.Stores.Execute | internal/application/sms/service.go:135-149 | success means outbox row and reservation of the cost; failure leaves no outbox row, and leaves a reservation iff the script took the credit and its reply was lost or the compensating refund had no effect |
| Gateway.Stores.BeginDelivery | internal/infrastructure/messaging/rabbitmq.go:343-363 | creates a missing row and reports terminal exactly for delivered and refunded messages |
| Gateway.Stores.IsReserved | internal/infrastructure/reservation/redis.go:89-92 | the worker goes on to send exactly if the reservation key exists |
| Gateway.Stores.DebitTransaction | internal/infrastructure/messaging/rabbitmq.go:307-317 | balance, ledger row and status change together iff the wallet can afford the cost, otherwise nothing does |
| Gateway.Stores.MarkRefunded | internal/infrastructure/messaging/rabbitmq.go:365-371 | records the refund and reports success iff the update succeeds |
| Gateway.Stores.CommitReservation | internal/infrastructure/reservation/redis.go:24-24 | drops the reservation and reports success iff the script succeeds, touching nothing else |
| Gateway.Stores.RefundAndMark | internal/infrastructure/messaging/rabbitmq.go:301-306 | returns nil iff both calls succeed, and then the message is refunded and settled |
| Gateway.Stores.DebitAndSettle | internal/infrastructure/messaging/rabbitmq.go:307-324 | delivered iff the debit ran and the wallet could pay in the state it ran in, refunded otherwise; returns nil iff the calls of that path succeed |
| Gateway.Stores.Attempt | internal/infrastructure/messaging/rabbitmq.go:286-324 | for a non-terminal message, case by case: an expired one is refunded unsent, an unreserved one marked refunded, a reserved one sent and settled by the answers; the provider is called and the debit run in no other case |
| Gateway.Stores.ProcessReserved | internal/infrastructure/messaging/rabbitmq.go:278-324 | with other processes between its steps, admissible overlaps included, the call is a run of the protocol; spelled out for a terminal, expired, unreserved, unsent, undebited, unaffordable and affordable message: the final status, exactly when nil is returned, and whether the provider is called and the debit run; nil means settled, and a failed begin changes nothing unless a terminal row was read |
| Breaker.CircuitBreaker.Acquire | internal/infrastructure/sms/provider_pool.go:63-81 | grants when closed, denies an open circuit until its cooldown has passed and then grants one probe, denies while a probe is in flight; reports the new state and whether it changed |
| Breaker.CircuitBreaker.Complete | internal/infrastructure/sms/provider_pool.go:83-115 | a stale permit changes nothing; a probe closes or opens the circuit; a failure counts and trips at the threshold, a success resets the count |
| Breaker.RedisCircuit.Acquire | internal/infrastructure/sms/redis_provider_state.go:14-35 | the same on a hash whose fields may be missing, with a lease on the probe instead of a flag: after it another probe is granted under a new generation |
| Breaker.RedisCircuit.Complete | internal/infrastructure/sms/redis_provider_state.go:37-73 | the same decisions as in memory on the hash |
| Breaker.MemoryRunInv | internal/infrastructure/sms/provider_pool.go:63-115 | over every run of the memory breaker half-open holds iff a probe is in flight, and closed means below the threshold |
| Breaker.StepBisimilar | internal/infrastructure/sms/redis_provider_state.go:26-34 | one event is answered alike by related breakers iff it does not find a lapsed lease |
| Breaker.Bisimilar | internal/infrastructure/sms/redis_provider_state.go:14-73 | over every sequence of acquires and completions, with any permits, the two breakers give the same answers iff no acquire finds a lapsed lease |
| Breaker.LapseIsReachable | internal/infrastructure/sms/redis_provider_state.go:26-34 | for all settings there is a run in the order of time in which a lease lapses and the answers differ |
| BreakerRuns.SingleCurrentProbe | internal/infrastructure/sms/redis_provider_state.go:14-73 | in every reachable state no permit is ahead of the circuit, none is current while open, at most one while half-open |
| BreakerRuns.StaleForever | internal/infrastructure/sms/redis_provider_state.go:39-45 | a permit from before a trip, or of a superseded probe, never changes the circuit again, whatever happens in between |
| BreakerRuns.ProbesNeverOverlap | internal/infrastructure/sms/redis_provider_state.go:18-34 | then two probes are never out at once |
| BreakerRuns.SecondProbeIffLapsed | internal/infrastructure/sms/redis_provider_state.go:26-33 | while a probe is out another permit is granted iff its lease has run out |
| BreakerRuns.TrailingIsLastFailed | internal/infrastructure/sms/redis_provider_state.go:59-70 | the failure count reaches n iff the last n accepted completions failed |
| BreakerRuns.TripsExactly | internal/infrastructure/sms/redis_provider_state.go:59-70 | a closed circuit opens exactly on an accepted completion that makes the last threshold accepted ones since it closed all failures; nothing else moves it |
| BreakerRuns.MemoryTripsExactly | internal/infrastructure/sms/provider_pool.go:83-115 | the memory breaker trips on exactly the same condition after every run of events |
| BreakerRuns.NeverStuck | internal/infrastructure/sms/redis_provider_state.go:18-35 | once cooldown and lease have passed since the last step, the next acquire is granted even if every permit was lost |
| BreakerRuns.GrantedExactly | internal/infrastructure/sms/redis_provider_state.go:14-35 | in every reachable state a closed circuit grants, an open one was opened by an accepted failure of the run and grants iff the cooldown has passed since that move, a half-open one iff the lease of the last probe granted in the run has passed |
| BreakerRuns.ProbeDecides | internal/infrastructure/sms/redis_provider_state.go:48-58 | an accepted completion in half-open closes the circuit with no failures iff it succeeded, opens it at that time otherwise, and makes every permit stale |
| BreakerRuns.MemoryGrantsExactly | internal/infrastructure/sms/provider_pool.go:63-81 | after every run of events the memory breaker grants when closed, iff the cooldown has passed since the accepted failure that opened it when open, and never when half-open |
| BreakerRuns.MemoryProbeDecides | internal/infrastructure/sms/provider_pool.go:92-101 | after every run of events a probe of the memory breaker decides in the same way |
| Sender.DeniedUnchanged | internal/infrastructure/sms/provider_pool.go:68-77 | a denied acquire leaves the circuit as it was |
| Sender.RoundRobinSender.Send | internal/infrastructure/sms/provider_pool.go:230-264 | tries only the first provider in visiting order that grants a permit, leaves all other circuits alone, and reports unavailability iff all deny; the tried circuit has no probe left in flight, is closed without failures after a success, and after a failure counts it, trips at the threshold or reopens |
| Sender.RoundRobinSender.SendClosed | internal/infrastructure/sms/provider_pool.go:231-237 | through closed circuits a send goes to the provider under the cursor, and its circuit stays closed iff the send succeeds or the threshold is not reached |
| Sender.RoundRobinSender.SendRounds | internal/infrastructure/sms/provider_pool.go:130-132 | sends of any outcome, until done or a circuit opens, follow the cursor; m rounds through closed circuits hit each provider exactly m times |
| SharedSender.OthersKeepPermit | internal/infrastructure/sms/redis_provider_state.go:37-73 | no moves of other senders take a sender's permit away |
| SharedSender.SharedPool.Send | internal/infrastructure/sms/provider_pool.go:230-264 | over the Redis circuits with other senders and store errors in between: tries only the first provider in visiting order whose circuit grants a permit when asked, completes that permit unless Redis fails, reports unavailability only if every circuit denied when asked, and holds no permit afterwards; every circuit stays on a run of the shared breaker |
| Sender.EvenHits | internal/infrastructure/sms/provider_pool.go:236-237 | any m * n consecutive cursor values fall on each of n providers exactly m times |
| Sender.VisitsAllExactly | internal/infrastructure/sms/provider_pool.go:235-237 | one scan looks at every provider iff the cursor does not wrap in it or the number of providers divides the word size |
| FairRows.FairSelectionIsUnique | internal/infrastructure/messaging/rabbitmq.go:129-169 | size, per-channel prefixes and max-min fairness determine exactly which rows are taken |
| FairRows.SelectionIsDetermined | internal/infrastructure/messaging/rabbitmq.go:129-169 | with the order by rounds and within a round by channel name, the selected sequence is determined |
| FairRows.BeforeIsLexicographic | internal/infrastructure/messaging/rabbitmq.go:145-149 | channels are visited in dictionary order |
| FairRows.LevelIsFair | internal/infrastructure/messaging/rabbitmq.go:151-167 | stopping anywhere in a round of round-robin is fair |
| FairRows.GroupByChannel | internal/infrastructure/messaging/rabbitmq.go:136-144 | each group is its channel's rows in order, and every row is in a group |
| FairRows.SortedKeys | internal/infrastructure/messaging/rabbitmq.go:145-149 | the channel names in strictly ascending order, all of them and no others |
| FairRows.ServeRound | internal/infrastructure/messaging/rabbitmq.go:152-166 | one round serves each channel with rows left once, stops at the limit, and makes no progress only when everything was taken |
| FairRows.SelectFairRows | internal/infrastructure/messaging/rabbitmq.go:132-169 | all rows as they are if they fit, otherwise exactly limit rows, a prefix of every channel, no channel behind another by more than the round-robin order explains unless it is exhausted, ordered by rounds and within a round by channel name; terminates |
| Outbox.MarkedInOrder | internal/infrastructure/messaging/rabbitmq.go:117-125 | a marked row's older pending rows of its line and channel are marked in the same pass, however early the pass stopped |
| Outbox.RunInv | internal/infrastructure/messaging/rabbitmq.go:85-127 | order and confirmation of published rows hold after any inserts and passes |
| Outbox.PublishedInOrder | internal/infrastructure/messaging/rabbitmq.go:85-127 | at every point of every run a published row was confirmed, and so were all older rows of its line and channel |
| Outbox.InWindow | internal/infrastructure/messaging/rabbitmq.go:87-87 | a pending row is read by a pass iff fewer than 10 * limit pending rows of its line are older |
| Outbox.EveryChannelServed | internal/infrastructure/messaging/rabbitmq.go:151-167 | with at most limit channels in the window the selection has room for each of them |
| Outbox.ServedExactly | internal/infrastructure/messaging/rabbitmq.go:145-167 | a channel of the window gets a row iff the window fits into the limit or fewer than limit of its channels sort before it |
| Outbox.PassHelps | internal/infrastructure/messaging/rabbitmq.go:85-127 | a successful pass publishes a pending row or lowers its bound |
| Outbox.WaitIsCeiling | internal/infrastructure/messaging/rabbitmq.go:85-90 | the bound counts the fewest batches that bring the row into the window, plus the older rows of its channel, plus one |
| Outbox.NoStarvation | internal/infrastructure/messaging/rabbitmq.go:85-169 | with p older pending rows on the line and q in the channel, a row is published within max(0, ceil((p - 10 * limit + 1) / limit)) + q + 1 successful passes that do not read it or have room for its channel, whatever arrives, fails or is crowded meanwhile |
| Outbox.CrowdedStarves | internal/infrastructure/messaging/rabbitmq.go:145-167 | for every limit, line, channel, limit channels sorting before it and every n there is a run of n successful passes with that limit that never publishes the oldest row of the line |
| Dispatcher.Table.Enqueue | internal/infrastructure/persistence/wallet_repository.go:58-67 | an insert appends a row with a larger id |
| Dispatcher.Table.Fetch | internal/infrastructure/messaging/rabbitmq.go:86-89 | returns the 10 * limit oldest pending rows of the line |
| Dispatcher.Table.PublishLineBatch | internal/infrastructure/messaging/rabbitmq.go:85-127 | is a pass of the outbox runs unless the query fails, which changes nothing; selects the fair sequence from the window, marks exactly the selected rows before the first one not confirmed or not markable, none if publishing fails, and succeeds iff all are marked |
| Dispatcher.Table.PublishFairBatch | internal/infrastructure/messaging/rabbitmq.go:71-83 | one bounded pass per line, the second iff the first succeeded |
| Money.ColumnIsExact | internal/infrastructure/persistence/base_model.go:19-19 | the decimal(15,4) column keeps exactly the units written, for every rounding with relative error 2^-53 on amounts of money |
| Money.ReadIsExact | internal/domain/wallet/entity.go:21-26 | scaling and rounding a stored amount gives its units back |
| Money.NewMoneyExactly | internal/domain/wallet/entity.go:21-26 | accepts exactly the amounts from zero to the largest int64 of units; the units are never negative and the whole number nearest to the scaled float, halves upwards |
| Money.FloatIsTheAmount | internal/domain/wallet/entity.go:44-44 | the float of an amount is the amount in whole currency to within a quarter of a unit |
| Money.RoundTrip | internal/domain/wallet/entity.go:21-44 | writing Float64() and reading through NewMoney is the identity for every amount the column holds and every rounding with relative error at most 2^-53 between 10^-6 and 10^16 |
| Binary64.FormatIsNearest | internal/domain/wallet/entity.go:44-44 | every binary format with float64's precision and range, with finitely many numbers, gradual underflow and ties to even, rounds that way |
| Binary64.RoundToIsRepresentable | internal/domain/wallet/entity.go:44-44 | its rounding only gives numbers of the finite format |
| Binary64.FloatRoundTrip | internal/domain/wallet/entity.go:21-44 | the round trip for float64 and every larger binary format, with no hypothesis on the rounding |
| Binary64.RoundTripNeedsTheBound | internal/domain/wallet/entity.go:21-44 | less than three times above the column's limit float64 accepts an amount and reads it back as one unit more |
| WalletLedger.DeductNeedsTheGuard | internal/domain/wallet/entity.go:50-93 | Deduct subtracts iff the wallet can afford the amount; otherwise it wipes the balance, so the guard is needed |
| WalletLedger.RowIsExact | internal/infrastructure/persistence/wallet_repository.go:133-145 | a recorded amount reads back as its signed units |
| WalletLedger.Wallet.constructor | internal/infrastructure/persistence/wallet_repository.go:85-99 | a new wallet reads back its initial balance, with an empty ledger |
| WalletLedger.Wallet.MutateAndRecord | internal/infrastructure/persistence/wallet_repository.go:109-154 | refuses a debit iff unaffordable; otherwise the balance moves by the amount, and the balance read through the floats is always the opening balance plus the ledger, and not negative |
| Legacy.Database.DeductAndEnqueue | internal/infrastructure/persistence/wallet_repository.go:24-51 | debit and outbox row appear together or not at all, refused iff unknown wallet, too little credit, duplicate id or a transaction that does not commit |
| Legacy.Database.ProcessLegacy | internal/infrastructure/messaging/rabbitmq.go:373-408 | under any duplicates and rollbacks a message has one debit, at most one refund, and a net of minus its cost until refunded and zero after; reported done iff the transaction commits |

## Left out

- HTTP handlers, routing, configuration, migrations, logging, admission slots and process start-up: no hard property.
- RabbitMQ, GORM and the Redis client: a transaction and a script are one atomic step, a confirmation is an arbitrary answer, a redelivery is an arbitrary repetition.
- JSON payloads: a row carries its decoded channel name, with one fixed name for payloads that cannot be decoded.
- Wall clocks: one integer clock per circuit, without millisecond truncation or skew; "deadline passed" and the provider's answer are inputs.
- Machine integers: wallet units, generations and ids are unbounded; only the uint64 cursor of the sender wraps explicitly. The conversion of an amount of exactly 2^63 units in NewMoney, and NaN and infinities, are not modelled; beyond the largest float64 the rounding saturates.
- Ambiguous transaction outcomes: a commit that takes effect although an error is reported is excluded by assumption.
- Cancellation of contexts and provider timeouts: a send that is cut off is a failed send.
- Sender.RoundRobinSender.Send: without other senders between its steps, so that its effect on all circuits can be stated outright; SharedSender.SharedPool.Send has them, over the Redis store.
- Gateway.Stores.EvalReserve: an id whose reservation is already gone is not reserved again, because ids are unique.
- Gateway.Stores.BeginDelivery: the begins that the assumption on overlaps excludes are not run through the code but through the protocol, in CreditLimits.
- Gateway.Stores.ProcessReserved: the same.
- WalletLedger.Wallet.MutateAndRecord: one wallet at a time; missing wallets are covered by the protocol and by Legacy.
- Legacy.Database.ProcessLegacy: the provider may be called again after a rollback; only the accounting is exactly-once.
