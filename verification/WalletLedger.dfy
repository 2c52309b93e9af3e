/**
 One wallet row and its ledger as `mutateAndRecord` keeps them, with balance and
 amounts in float columns.
 */
module WalletLedger {
  import opened Money

  datatype Kind = Credit | Debit

  /** `Wallet.Deduct` drops the error of `Subtract` and keeps its zero result. */
  function Deduct(balance: Money, amount: Money): Money {
    match Subtract(balance, amount)
    case Ok(m) => m
    case _ => Money(0)
  }

  function CanAfford(balance: Money, cost: Money): bool {
    balance.units > cost.units || balance.units == cost.units
  }

  /** `Deduct` subtracts exactly when the wallet can afford the amount; otherwise it wipes the balance. */
  lemma DeductNeedsTheGuard(balance: Money, amount: Money)
    ensures CanAfford(balance, amount) <==> Deduct(balance, amount).units == balance.units - amount.units
    ensures !CanAfford(balance, amount) ==> Deduct(balance, amount) == Money(0)
  {
  }

  /** Units of a ledger row whose column holds a signed float. */
  function RowUnits(rnd: real -> real, amount: real): int {
    match NewMoney(rnd, Abs(amount))
    case Ok(m) => if amount < 0.0 then -m.units else m.units
    case _ => 0
  }

  function LedgerUnits(rnd: real -> real, ledger: seq<real>): int {
    if ledger == [] then 0
    else LedgerUnits(rnd, ledger[..|ledger| - 1]) + RowUnits(rnd, ledger[|ledger| - 1])
  }

  lemma LedgerSnoc(rnd: real -> real, ledger: seq<real>, amount: real)
    ensures LedgerUnits(rnd, ledger + [amount]) == LedgerUnits(rnd, ledger) + RowUnits(rnd, amount)
  {
    assert (ledger + [amount])[..|ledger|] == ledger;
  }

  /** What the amount column holds after writing an amount: four decimals, negated for debits. */
  function StoredAmount(rnd: real -> real, amount: Money, kind: Kind): real {
    var x := Stored(rnd, Float64(rnd, amount));
    if kind.Debit? then -x else x
  }

  lemma ZeroReadsZero(rnd: real -> real)
    requires Nearest(rnd)
    ensures NewMoney(rnd, 0.0) == Ok(Money(0))
  {
    ReadIsExact(rnd, 0);
  }

  lemma StoredSign(rnd: real -> real, amount: Money)
    requires Nearest(rnd) && 0 <= amount.units < COLUMN_LIMIT
    ensures 0.0 <= Stored(rnd, Float64(rnd, amount))
  {
    hide Nearest;
    ColumnIsExact(rnd, amount.units);
    SignKept(rnd, amount.units as real / SCALE);
  }

  /** A recorded amount reads back as its signed units. */
  lemma RowIsExact(rnd: real -> real, amount: Money, kind: Kind)
    requires Nearest(rnd) && 0 <= amount.units < COLUMN_LIMIT
    ensures RowUnits(rnd, StoredAmount(rnd, amount, kind)) == if kind.Debit? then -amount.units else amount.units
  {
    hide Nearest, Stored, Float64, NewMoney;
    RoundTrip(rnd, amount.units);
    StoredSign(rnd, amount);
    ZeroReadsZero(rnd);
  }

  class Wallet {
    const rnd: real -> real
    var balance: real
    var ledger: seq<real>
    ghost const opening: int

    /** The balance as `toWalletModel` reads it. */
    ghost function Units(): int
      reads this
    {
      match NewMoney(rnd, balance)
      case Ok(m) => m.units
      case _ => -1
    }

    /** The balance is a stored amount, and is the opening balance plus everything in the ledger. */
    ghost predicate Valid()
      reads this
    {
      && Nearest(rnd)
      && 0 <= Units() < COLUMN_LIMIT
      && balance == Stored(rnd, Float64(rnd, Money(Units())))
      && Units() == opening + LedgerUnits(rnd, ledger)
    }

    /** `Create`: the initial balance is written without a ledger row. */
    constructor (rnd: real -> real, initial: Money)
      requires Nearest(rnd) && 0 <= initial.units < COLUMN_LIMIT
      ensures Valid() && Units() == opening == initial.units && ledger == []
    {
      this.rnd := rnd;
      balance := Stored(rnd, Float64(rnd, initial));
      ledger := [];
      opening := initial.units;
      new;
      RoundTrip(rnd, initial.units);
    }

    /**
     `mutateAndRecord` on non-negative amounts. Balance and ledger change together or not at
     all; a debit is refused exactly if the wallet cannot afford it; a result that does not fit the
     column is refused by the database. `Valid()` says that nothing is ever lost to the floats.
     */
    method MutateAndRecord(amount: Money, kind: Kind) returns (r: Result<Money>)
      requires Valid() && 0 <= amount.units < COLUMN_LIMIT
      modifies this
      ensures Valid()
      ensures kind.Debit? ==> (r.Ok? <==> amount.units <= old(Units())) && (!r.Ok? ==> r.InsufficientFunds?)
      ensures kind.Credit? ==> (r.Ok? <==> old(Units()) + amount.units < COLUMN_LIMIT) && (!r.Ok? ==> r.ColumnOverflow?)
      ensures r.Ok? ==> Units() == r.value.units
                     == old(Units()) + (if kind.Debit? then -amount.units else amount.units)
      ensures r.Ok? ==> ledger == old(ledger) + [StoredAmount(rnd, amount, kind)]
      ensures !r.Ok? ==> unchanged(this)
    {
      var read := NewMoney(rnd, balance);
      var w := read.value;
      if kind == Debit && !CanAfford(w, amount) {
        return InsufficientFunds;
      }
      w := if kind == Debit then Deduct(w, amount) else Add(w, amount);
      if w.units >= COLUMN_LIMIT {
        return ColumnOverflow;
      }
      RoundTrip(rnd, w.units);
      RowIsExact(rnd, amount, kind);
      LedgerSnoc(rnd, ledger, StoredAmount(rnd, amount, kind));
      balance := Stored(rnd, Float64(rnd, w));
      ledger := ledger + [StoredAmount(rnd, amount, kind)];
      return Ok(w);
    }
  }
}
