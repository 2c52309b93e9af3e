/**
 The path without reservations: the request debits the wallet and writes the outbox row in one
 transaction, and the worker settles the message in one transaction that holds the row lock
 throughout. Transactions are serialised by their locks, so every interleaving is a sequence of calls.
 */
module Legacy {

  import opened Options
  import opened CreditProtocol
  import opened CreditHistory

  datatype Event = Event(wallet: WalletId, cost: int)

  /** What happened to a message in total: the sum of its ledger rows. */
  function Net(ledger: seq<LedgerRow>, m: MessageId): int {
    if ledger == [] then 0
    else
      var last := ledger[|ledger| - 1];
      Net(ledger[..|ledger| - 1], m) + (if last.reference == m then last.amount else 0)
  }

  /** Number of debit or credit rows of a message. */
  function Count(ledger: seq<LedgerRow>, m: MessageId, debit: bool): nat {
    if ledger == [] then 0
    else
      var last := ledger[|ledger| - 1];
      Count(ledger[..|ledger| - 1], m, debit) + (if last.reference == m && (last.amount < 0) == debit then 1 else 0)
  }

  lemma NetSnoc(ledger: seq<LedgerRow>, row: LedgerRow, m: MessageId)
    ensures Net(ledger + [row], m) == Net(ledger, m) + (if row.reference == m then row.amount else 0)
    ensures forall d :: Count(ledger + [row], m, d)
                     == Count(ledger, m, d) + (if row.reference == m && (row.amount < 0) == d then 1 else 0)
  {
    assert (ledger + [row])[..|ledger|] == ledger;
  }

  /** Exactly-once accounting of a message: one debit iff it is in the outbox, one refund iff it is refunded. */
  ghost predicate Accounted(ledger: seq<LedgerRow>, event: Option<Event>, status: Option<Status>, m: MessageId) {
    && Count(ledger, m, true) == (if event.Some? then 1 else 0)
    && Count(ledger, m, false) == (if status == Some(Refunded) then 1 else 0)
    && Net(ledger, m) == (if event.Some? && status != Some(Refunded) then -event.value.cost else 0)
  }

  ghost predicate BalancesOk(opening: map<WalletId, int>, balances: map<WalletId, int>, ledger: seq<LedgerRow>) {
    && balances.Keys == opening.Keys
    && forall w :: w in balances ==> 0 <= balances[w] == opening[w] + Flow(ledger, w)
  }

  ghost predicate MessagesOk(ledger: seq<LedgerRow>, outbox: map<MessageId, Event>, delivery: map<MessageId, Status>) {
    forall m :: Accounted(ledger, Get(outbox, m), Get(delivery, m), m)
  }

  /** A recorded change of a balance keeps balances and ledger in step. */
  lemma BalanceMoves(opening: map<WalletId, int>, balances: map<WalletId, int>, ledger: seq<LedgerRow>, row: LedgerRow)
    requires BalancesOk(opening, balances, ledger) && row.wallet in balances && 0 <= balances[row.wallet] + row.amount
    ensures BalancesOk(opening, balances[row.wallet := balances[row.wallet] + row.amount], ledger + [row])
  {
    forall w {
      FlowSnoc(ledger, row, w);
    }
  }

  /** A row about one message changes the accounts of that message only. */
  lemma MessageMoves(ledger: seq<LedgerRow>, row: LedgerRow,
                     outbox: map<MessageId, Event>, delivery: map<MessageId, Status>,
                     outbox': map<MessageId, Event>, delivery': map<MessageId, Status>)
    requires MessagesOk(ledger, outbox, delivery)
    requires forall m :: m != row.reference ==>
               Get(outbox', m) == Get(outbox, m) && Get(delivery', m) == Get(delivery, m)
    requires Accounted(ledger + [row], Get(outbox', row.reference), Get(delivery', row.reference), row.reference)
    ensures MessagesOk(ledger + [row], outbox', delivery')
  {
    forall m
      ensures Accounted(ledger + [row], Get(outbox', m), Get(delivery', m), m)
    {
      if m != row.reference {
        NetSnoc(ledger, row, m);
        assert Accounted(ledger, Get(outbox, m), Get(delivery, m), m);
      }
    }
  }

  class Database {
    var balances: map<WalletId, int>
    var ledger: seq<LedgerRow>
    var outbox: map<MessageId, Event>
    var delivery: map<MessageId, Status>
    ghost const opening: map<WalletId, int>

    ghost predicate Valid()
      reads this
    {
      && BalancesOk(opening, balances, ledger)
      && MessagesOk(ledger, outbox, delivery)
      && (forall m :: m in outbox ==> outbox[m].cost > 0 && outbox[m].wallet in balances)
      && delivery.Keys <= outbox.Keys
    }

    constructor (opening: map<WalletId, int>)
      requires forall w :: w in opening ==> 0 <= opening[w]
      ensures Valid() && outbox == map[] && balances == opening
    {
      balances, ledger, outbox, delivery := opening, [], map[], map[];
      this.opening := opening;
    }

    /**
     `DeductAndEnqueue`: debit and outbox row appear together. It is refused for an unknown wallet,
     insufficient funds, a message id that is already in the outbox, or a transaction that does not
     commit, and then changes nothing.
     */
    method DeductAndEnqueue(m: MessageId, w: WalletId, cost: int, commits: bool) returns (ok: bool)
      requires Valid() && 0 < cost
      modifies this
      ensures Valid()
      ensures ok <==> commits && w in old(balances) && cost <= old(balances[w]) && m !in old(outbox)
      ensures ok ==> outbox == old(outbox)[m := Event(w, cost)]
      ensures ok ==> balances == old(balances)[w := old(balances[w]) - cost]
      ensures ok ==> delivery == old(delivery) && ledger == old(ledger) + [LedgerRow(w, -cost, m)]
      ensures !ok ==> unchanged(this)
    {
      hide Net, Count, Flow, BalancesOk, MessagesOk;
      assert balances.Keys == opening.Keys by { KnownWallets(); }
      if w !in balances || balances[w] < cost || m in outbox || !commits {
        return false;
      }
      var row := LedgerRow(w, -cost, m);
      AccountsOf(m);
      NetSnoc(ledger, row, m);
      BalanceMoves(opening, balances, ledger, row);
      MessageMoves(ledger, row, outbox, delivery, outbox[m := Event(w, cost)], delivery);
      balances := balances[w := balances[w] - cost];
      ledger := ledger + [row];
      outbox := outbox[m := Event(w, cost)];
      return true;
    }

    lemma KnownWallets()
      requires BalancesOk(opening, balances, ledger)
      ensures balances.Keys == opening.Keys && forall w :: w in balances ==> 0 <= balances[w]
    {
    }

    lemma AccountsOf(m: MessageId)
      requires MessagesOk(ledger, outbox, delivery)
      ensures Accounted(ledger, Get(outbox, m), Get(delivery, m), m)
    {
    }

    lemma StatusOnly(m: MessageId, status: Status)
      requires MessagesOk(ledger, outbox, delivery)
      requires status != Refunded && Get(delivery, m) != Some(Refunded)
      ensures MessagesOk(ledger, outbox, delivery[m := status])
    {
      hide Net, Count;
      forall x
        ensures Accounted(ledger, Get(outbox, x), Get(delivery[m := status], x), x)
      {
        assert Accounted(ledger, Get(outbox, x), Get(delivery, x), x);
      }
    }

    /**
     `processLegacy`, including duplicate deliveries and rollbacks. A terminal message is left alone;
     otherwise it is delivered, or refunded in the same transaction that records the refund. If the
     transaction does not commit, nothing changed, and the delivery is not acknowledged.
     */
    method ProcessLegacy(m: MessageId, expired: bool, sent: bool, commits: bool) returns (done: bool)
      requires Valid() && m in outbox
      modifies this
      ensures Valid() && outbox == old(outbox) && done == commits
      ensures !done || old(Get(delivery, m)) in {Some(Delivered), Some(Refunded)} ==> unchanged(this)
      ensures done && old(Get(delivery, m)) !in {Some(Delivered), Some(Refunded)} ==>
        if expired || !sent then
          && delivery == old(delivery)[m := Refunded]
          && ledger == old(ledger) + [LedgerRow(outbox[m].wallet, outbox[m].cost, m)]
        else
          delivery == old(delivery)[m := Delivered] && balances == old(balances) && ledger == old(ledger)
    {
      hide Net, Count, Flow, BalancesOk, MessagesOk;
      var status := if m in delivery then delivery[m] else Processing;
      if !commits { return false; }
      if status != Processing { return true; }
      KnownWallets();
      if expired || !sent {
        var e := outbox[m];
        var row := LedgerRow(e.wallet, e.cost, m);
        AccountsOf(m);
        NetSnoc(ledger, row, m);
        BalanceMoves(opening, balances, ledger, row);
        MessageMoves(ledger, row, outbox, delivery, outbox, delivery[m := Refunded]);
        balances := balances[e.wallet := balances[e.wallet] + e.cost];
        ledger := ledger + [row];
        delivery := delivery[m := Refunded];
      } else {
        StatusOnly(m, Delivered);
        delivery := delivery[m := Delivered];
      }
      return true;
    }
  }
}
