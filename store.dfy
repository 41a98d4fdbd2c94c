/**
 * The ledger service: one `FinanceData` record kept in memory and written
 * through to the browser's local storage after every change.
 *
 * Every mutator changes memory first and saves afterwards, so when the
 * storage write throws the in-memory ledger has already changed; the
 * mutators report the throw as `Failure(WriteFailed)`.
 */
module Store {
  import opened Wrappers
  import opened Ledger

  datatype StorageError = WriteFailed

  /**
   * The storage entry that holds the serialised ledger. Serialisation is a
   * faithful round trip here, so the entry holds the record itself.
   */
  class LocalStorage {
    var item: Option<FinanceData>
    /** Whether `setItem` succeeds (it throws when the quota is exceeded or storage is disabled). */
    var writable: bool

    constructor(item: Option<FinanceData>, writable: bool)
      ensures this.item == item && this.writable == writable
    {
      this.item := item;
      this.writable := writable;
    }

    method SetItem(d: FinanceData) returns (ok: bool)
      modifies this
      ensures ok == old(writable) && writable == old(writable)
      ensures item == if ok then Some(d) else old(item)
    {
      ok := writable;
      if ok {
        item := Some(d);
      }
    }
  }

  class FinanceService {
    var balance: int
    var transactions: seq<Transaction>
    var recurringPayments: seq<RecurringPayment>
    var budgets: seq<Budget>
    const storage: LocalStorage

    /** The record the service holds. */
    function Data(): FinanceData
      reads this
    {
      FinanceData(balance, transactions, recurringPayments, budgets)
    }

    /** Loads the stored ledger, or starts from the empty one when nothing is stored. */
    constructor(storage: LocalStorage)
      ensures this.storage == storage
      ensures storage.item.Some? ==> Data() == storage.item.value
      ensures storage.item.None? ==> Data() == EmptyData && Consistent(Data())
    {
      this.storage := storage;
      var d := storage.item.GetOr(EmptyData);
      balance := d.balance;
      transactions := d.transactions;
      recurringPayments := d.recurringPayments;
      budgets := d.budgets;
    }

    method SaveData() returns (ok: bool)
      modifies storage
      ensures ok == old(storage.writable) && storage.writable == old(storage.writable)
      ensures storage.item == if ok then Some(Data()) else old(storage.item)
    {
      ok := storage.SetItem(Data());
    }

    /**
     * Appends the transaction with the clock reading `now` as its id and
     * moves the balance by its signed amount; the gap between the cached
     * balance and the log's Σ income − Σ expense is unchanged.
     */
    method AddTransaction(amount: int, category: string, description: string, date: int, kind: TransactionKind, now: int)
      returns (r: Result<Transaction, StorageError>)
      modifies this, storage
      ensures var t := Transaction(now, amount, category, description, date, kind);
        && transactions == old(transactions) + [t]
        && balance == old(balance) + (if kind == Income then amount else -amount)
        && Data() == Step(old(Data()), Record(t))
        && r == (if old(storage.writable) then Success(t) else Failure(WriteFailed))
      ensures recurringPayments == old(recurringPayments) && budgets == old(budgets)
      ensures balance - BalanceOf(transactions) == old(balance - BalanceOf(transactions))
      ensures storage.writable == old(storage.writable)
      ensures storage.item == if old(storage.writable) then Some(Data()) else old(storage.item)
    {
      var t := Transaction(now, amount, category, description, date, kind);
      transactions := transactions + [t];
      if kind == Income {
        balance := balance + amount;
      } else {
        balance := balance - amount;
      }
      BalanceOfAppend(old(transactions), t);
      var ok := SaveData();
      r := if ok then Success(t) else Failure(WriteFailed);
    }

    /** Appends the payment; balance, transactions and budgets are unchanged. */
    method AddRecurringPayment(name: string, amount: int, frequency: Frequency, nextDue: int, category: string, now: int)
      returns (r: Result<RecurringPayment, StorageError>)
      modifies this, storage
      ensures var p := RecurringPayment(now, name, amount, frequency, nextDue, category);
        && recurringPayments == old(recurringPayments) + [p]
        && Data() == Step(old(Data()), Schedule(p))
        && r == (if old(storage.writable) then Success(p) else Failure(WriteFailed))
      ensures balance == old(balance) && transactions == old(transactions) && budgets == old(budgets)
      ensures storage.writable == old(storage.writable)
      ensures storage.item == if old(storage.writable) then Some(Data()) else old(storage.item)
    {
      var p := RecurringPayment(now, name, amount, frequency, nextDue, category);
      recurringPayments := recurringPayments + [p];
      var ok := SaveData();
      r := if ok then Success(p) else Failure(WriteFailed);
    }

    /** The cached balance; on a consistent ledger it is Σ income − Σ expense. */
    function GetBalance(): (b: int)
      reads this
      ensures Consistent(Data()) ==> b == SumOfKind(transactions, Income) - SumOfKind(transactions, Expense)
    {
      balance
    }

    /** The sorted copy of the log, cut to `limit` when it is truthy; the log itself keeps its order. */
    function GetTransactions(limit: Option<int>): seq<Transaction>
      reads this
    {
      RecentTransactions(transactions, limit)
    }

    function GetRecurringPayments(): seq<RecurringPayment>
      reads this
    {
      recurringPayments
    }

    function GetBudgets(): seq<Budget>
      reads this
    {
      budgets
    }

    /** Accumulates the qualifying expenses per category in log order. */
    method GetSpendingByCategory(w: Window, clock: Clock) returns (totals: Totals)
      ensures totals == Tally(transactions, Cutoff(w, clock))
    {
      var cutoff := Cutoff(w, clock);
      totals := [];
      for i := 0 to |transactions|
        invariant totals == Tally(transactions[..i], cutoff)
      {
        var t := transactions[i];
        assert transactions[..i + 1][..i] == transactions[..i];
        if t.kind == Expense && t.date >= cutoff {
          totals := AddTo(totals, t.category, t.amount);
        }
      }
      assert transactions[..|transactions|] == transactions;
    }

    /** The payments due within the next seven days, overdue ones included. */
    function GetUpcomingRecurring(clock: Clock): seq<RecurringPayment>
      reads this
    {
      Upcoming(Data(), clock)
    }

    /**
     * Replaces the first budget of `category` in place, or appends one,
     * with `spent` set to the category's spending in the budget's window.
     */
    method SetBudget(category: string, limit: int, period: BudgetPeriod, clock: Clock)
      returns (r: Result<Budget, StorageError>)
      modifies this, storage
      ensures var b := Budget(category, limit, BudgetSpent(old(transactions), category, period, clock), period);
        && budgets == UpsertBudget(old(budgets), b)
        && Data() == Step(old(Data()), PutBudget(b))
        && r == (if old(storage.writable) then Success(b) else Failure(WriteFailed))
      ensures balance == old(balance) && transactions == old(transactions) && recurringPayments == old(recurringPayments)
      ensures storage.writable == old(storage.writable)
      ensures storage.item == if old(storage.writable) then Some(Data()) else old(storage.item)
    {
      var existing := FindBudget(budgets, category);
      var spending := GetSpendingByCategory(WindowOf(period), clock);
      var spent := Lookup(spending, category).GetOr(0);
      var b := Budget(category, limit, spent, period);
      if existing.Some? {
        budgets := budgets[existing.value := b];
      } else {
        budgets := budgets + [b];
      }
      var ok := SaveData();
      r := if ok then Success(b) else Failure(WriteFailed);
    }

    function GetFinancialSummary(clock: Clock): Summary
      reads this
    {
      SummaryOf(Data(), clock)
    }
  }
}
