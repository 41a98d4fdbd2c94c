/**
 * The records of the personal-finance ledger and the pure queries over
 * them: balance arithmetic, the date-ordered transaction list, spending
 * per category over a time window, payments due soon, budget upserts and
 * the composite summary.
 *
 * Time is an integer number of milliseconds. Calendar-month shifting is an
 * abstract function carried by the `Clock`.
 */
module Ledger {
  import opened Wrappers

  const DAY: int := 86_400_000
  const WEEK: int := 7 * DAY

  /** The current time and the calendar's "shift by k months" (`Date.setMonth`). */
  datatype Clock = Clock(now: int, addMonths: (int, int) -> int)

  datatype TransactionKind = Income | Expense
  datatype Frequency = Daily | Weekly | Monthly | Yearly
  datatype BudgetPeriod = MonthlyPeriod | WeeklyPeriod
  /** The window argument of the spending query: `'week'` or `'month'`. */
  datatype Window = Week | Month

  /** `id` is the clock reading at which the record was stored. */
  datatype Transaction = Transaction(
    id: int, amount: int, category: string, description: string, date: int, kind: TransactionKind)

  datatype RecurringPayment = RecurringPayment(
    id: int, name: string, amount: int, frequency: Frequency, nextDue: int, category: string)

  datatype Budget = Budget(category: string, limit: int, spent: int, period: BudgetPeriod)

  datatype FinanceData = FinanceData(
    balance: int,
    transactions: seq<Transaction>,
    recurringPayments: seq<RecurringPayment>,
    budgets: seq<Budget>)

  /** The ledger a first run starts from, when nothing is stored yet. */
  const EmptyData: FinanceData := FinanceData(0, [], [], [])

  // ---------------------------------------------------------------- balance

  /** The effect of one transaction on the balance. */
  function Signed(t: Transaction): int {
    if t.kind == Income then t.amount else -t.amount
  }

  /** The sum of the amounts of the transactions of kind `k`. */
  function SumOfKind(txs: seq<Transaction>, k: TransactionKind): int
    decreases |txs|
  {
    if txs == [] then 0
    else SumOfKind(txs[..|txs| - 1], k) + (if txs[|txs| - 1].kind == k then txs[|txs| - 1].amount else 0)
  }

  /** Σ income − Σ expense over the log. */
  function BalanceOf(txs: seq<Transaction>): int {
    SumOfKind(txs, Income) - SumOfKind(txs, Expense)
  }

  lemma BalanceOfAppend(txs: seq<Transaction>, t: Transaction)
    ensures BalanceOf(txs + [t]) == BalanceOf(txs) + Signed(t)
  {
    assert (txs + [t])[..|txs|] == txs;
  }

  /** The cached balance agrees with the transaction log. */
  predicate Consistent(d: FinanceData) {
    d.balance == BalanceOf(d.transactions)
  }

  // ---------------------------------------------------------------- mutations

  /** The three ways the ledger changes. */
  datatype Mutation =
    | Record(t: Transaction)
    | Schedule(p: RecurringPayment)
    | PutBudget(b: Budget)

  function Step(d: FinanceData, op: Mutation): FinanceData {
    match op
    case Record(t) => d.(transactions := d.transactions + [t], balance := d.balance + Signed(t))
    case Schedule(p) => d.(recurringPayments := d.recurringPayments + [p])
    case PutBudget(b) => d.(budgets := UpsertBudget(d.budgets, b))
  }

  /** The ledger after the mutations `ops`, in order. */
  function Replay(d: FinanceData, ops: seq<Mutation>): FinanceData
    decreases |ops|
  {
    if ops == [] then d else Replay(Step(d, ops[0]), ops[1..])
  }

  lemma StepKeepsConsistent(d: FinanceData, op: Mutation)
    requires Consistent(d)
    ensures Consistent(Step(d, op))
  {
    if op.Record? {
      BalanceOfAppend(d.transactions, op.t);
    }
  }

  /** Any sequence of mutations keeps a consistent ledger consistent. */
  lemma {:induction false} ReplayKeepsConsistent(d: FinanceData, ops: seq<Mutation>)
    requires Consistent(d)
    decreases |ops|
    ensures Consistent(Replay(d, ops))
  {
    if ops != [] {
      StepKeepsConsistent(d, ops[0]);
      ReplayKeepsConsistent(Step(d, ops[0]), ops[1..]);
    }
  }

  /** Starting from the empty ledger, the balance is always Σ income − Σ expense. */
  lemma BalanceFromEmpty(ops: seq<Mutation>)
    ensures Replay(EmptyData, ops).balance == BalanceOf(Replay(EmptyData, ops).transactions)
  {
    ReplayKeepsConsistent(EmptyData, ops);
  }

  // ---------------------------------------------------------------- ordering

  predicate SortedByDateDesc(xs: seq<Transaction>) {
    forall i, j :: 0 <= i < j < |xs| ==> xs[i].date >= xs[j].date
  }

  /** `x` placed before the first element whose date is not later than its own. */
  function InsertByDate(x: Transaction, xs: seq<Transaction>): (r: seq<Transaction>)
    ensures multiset(r) == multiset(xs) + multiset{x}
  {
    if xs == [] || x.date >= xs[0].date then [x] + xs
    else
      assert xs == [xs[0]] + xs[1..];
      [xs[0]] + InsertByDate(x, xs[1..])
  }

  lemma {:induction false} InsertKeepsSorted(x: Transaction, xs: seq<Transaction>)
    requires SortedByDateDesc(xs)
    ensures SortedByDateDesc(InsertByDate(x, xs))
  {
    if xs != [] && x.date < xs[0].date {
      InsertKeepsSorted(x, xs[1..]);
      var rest := InsertByDate(x, xs[1..]);
      InsertNotLater(x, xs[1..], xs[0].date);
      var r := InsertByDate(x, xs);
      assert r == [xs[0]] + rest;
      forall i, j | 0 <= i < j < |r|
        ensures r[i].date >= r[j].date
      {
        assert r[j] == rest[j - 1];
        if i > 0 {
          assert r[i] == rest[i - 1];
        }
      }
    }
  }

  /** Inserting into a log dated no later than `d` an entry dated no later than `d` keeps every date at most `d`. */
  lemma {:induction false} InsertNotLater(x: Transaction, xs: seq<Transaction>, d: int)
    requires x.date <= d && forall i :: 0 <= i < |xs| ==> xs[i].date <= d
    ensures forall k :: 0 <= k < |InsertByDate(x, xs)| ==> InsertByDate(x, xs)[k].date <= d
  {
    if xs != [] && x.date < xs[0].date {
      InsertNotLater(x, xs[1..], d);
      var rest := InsertByDate(x, xs[1..]);
      assert InsertByDate(x, xs) == [xs[0]] + rest;
    }
  }

  /**
   * The stable sort by date, latest first, that `Array.prototype.sort`
   * performs with the comparator `b.date - a.date`.
   */
  function SortByDateDesc(xs: seq<Transaction>): (r: seq<Transaction>)
    ensures multiset(r) == multiset(xs) && |r| == |xs|
    ensures SortedByDateDesc(r)
  {
    if xs == [] then []
    else
      assert xs == [xs[0]] + xs[1..];
      var rest := SortByDateDesc(xs[1..]);
      InsertKeepsSorted(xs[0], rest);
      InsertByDate(xs[0], rest)
  }

  /** The transactions dated `d`, in their order in `xs`. */
  function WithDate(xs: seq<Transaction>, d: int): seq<Transaction> {
    if xs == [] then []
    else (if xs[0].date == d then [xs[0]] else []) + WithDate(xs[1..], d)
  }

  lemma {:induction false} InsertWithDate(x: Transaction, xs: seq<Transaction>, d: int)
    ensures WithDate(InsertByDate(x, xs), d) == (if x.date == d then [x] else []) + WithDate(xs, d)
  {
    if xs == [] || x.date >= xs[0].date {
      assert ([x] + xs)[1..] == xs;
    } else {
      var r := [xs[0]] + InsertByDate(x, xs[1..]);
      assert r[1..] == InsertByDate(x, xs[1..]);
      InsertWithDate(x, xs[1..], d);
    }
  }

  /** Transactions with equal dates keep their stored order. */
  lemma {:induction false} SortIsStable(xs: seq<Transaction>, d: int)
    ensures WithDate(SortByDateDesc(xs), d) == WithDate(xs, d)
  {
    if xs != [] {
      InsertWithDate(xs[0], SortByDateDesc(xs[1..]), d);
      SortIsStable(xs[1..], d);
    }
  }

  /** `xs.slice(0, end)`: a negative `end` counts from the end. */
  function SliceTo<T>(xs: seq<T>, end: int): (r: seq<T>)
    ensures |r| <= |xs| && r == xs[..|r|]
    ensures end >= 0 ==> |r| == if end < |xs| then end else |xs|
    ensures end < 0 ==> |r| == if |xs| + end > 0 then |xs| + end else 0
  {
    if end >= 0 then (if end < |xs| then xs[..end] else xs)
    else (if |xs| + end > 0 then xs[..|xs| + end] else [])
  }

  /**
   * `getTransactions(limit)`: the sorted copy, cut to `limit` when the limit
   * is truthy (present and non-zero).
   */
  function RecentTransactions(txs: seq<Transaction>, limit: Option<int>): (r: seq<Transaction>)
    ensures |r| <= |txs| && r == SortByDateDesc(txs)[..|r|]
    ensures limit.None? || limit.value == 0 ==> |r| == |txs|
    ensures limit.Some? && limit.value > 0 ==> |r| == if limit.value < |txs| then limit.value else |txs|
    ensures limit.Some? && limit.value < 0 ==> |r| == if |txs| + limit.value > 0 then |txs| + limit.value else 0
  {
    var sorted := SortByDateDesc(txs);
    if limit.None? || limit.value == 0 then sorted else SliceTo(sorted, limit.value)
  }

  // ---------------------------------------------------------------- spending

  /** The earliest date the spending query counts. */
  function Cutoff(w: Window, clock: Clock): int {
    match w
    case Week => clock.now - WEEK
    case Month => clock.addMonths(clock.now, -1)
  }

  /** An expense dated at or after the cutoff. */
  predicate Qualifies(t: Transaction, cutoff: int) {
    t.kind == Expense && t.date >= cutoff
  }

  /** A string-keyed object; entries keep their order of first assignment. */
  type Totals = seq<(string, int)>

  predicate DistinctKeys(m: Totals) {
    forall i, j :: 0 <= i < j < |m| ==> m[i].0 != m[j].0
  }

  function Keys(m: Totals): set<string> {
    set i | 0 <= i < |m| :: m[i].0
  }

  lemma KeysCons(m: Totals)
    requires m != []
    ensures Keys(m) == {m[0].0} + Keys(m[1..])
  {
    forall k | k in Keys(m)
      ensures k in {m[0].0} + Keys(m[1..])
    {
      var i :| 0 <= i < |m| && m[i].0 == k;
      if i > 0 {
        assert m[1..][i - 1].0 == k;
      }
    }
    forall k | k in Keys(m[1..])
      ensures k in Keys(m)
    {
      var i :| 0 <= i < |m[1..]| && m[1..][i].0 == k;
      assert m[i + 1].0 == k;
    }
  }

  /** `m[key]`, `undefined` when absent. */
  function Lookup(m: Totals, key: string): (r: Option<int>)
    ensures r.Some? <==> key in Keys(m)
  {
    if m == [] then None
    else if m[0].0 == key then Some(m[0].1)
    else
      KeysCons(m);
      Lookup(m[1..], key)
  }

  /** `m[key] = (m[key] || 0) + amount`. */
  function AddTo(m: Totals, key: string, amount: int): Totals {
    if m == [] then [(key, amount)]
    else if m[0].0 == key then [(key, m[0].1 + amount)] + m[1..]
    else [m[0]] + AddTo(m[1..], key, amount)
  }

  function SumValues(m: Totals): int {
    if m == [] then 0 else m[0].1 + SumValues(m[1..])
  }

  /** The per-category totals the spending query accumulates, in log order. */
  function Tally(txs: seq<Transaction>, cutoff: int): Totals
    decreases |txs|
  {
    if txs == [] then []
    else
      var acc := Tally(txs[..|txs| - 1], cutoff);
      var t := txs[|txs| - 1];
      if Qualifies(t, cutoff) then AddTo(acc, t.category, t.amount) else acc
  }

  /** Σ amount over the qualifying expenses of category `c`. */
  function SpentOn(txs: seq<Transaction>, cutoff: int, c: string): int
    decreases |txs|
  {
    if txs == [] then 0
    else
      var t := txs[|txs| - 1];
      SpentOn(txs[..|txs| - 1], cutoff, c) + (if Qualifies(t, cutoff) && t.category == c then t.amount else 0)
  }

  /** Σ amount over all qualifying expenses. */
  function TotalSpent(txs: seq<Transaction>, cutoff: int): int
    decreases |txs|
  {
    if txs == [] then 0
    else
      var t := txs[|txs| - 1];
      TotalSpent(txs[..|txs| - 1], cutoff) + (if Qualifies(t, cutoff) then t.amount else 0)
  }

  /** Some qualifying expense has category `c`. */
  predicate HasSpending(txs: seq<Transaction>, cutoff: int, c: string) {
    exists i :: 0 <= i < |txs| && Qualifies(txs[i], cutoff) && txs[i].category == c
  }

  lemma {:induction false} AddToKeys(m: Totals, key: string, amount: int)
    requires DistinctKeys(m)
    ensures DistinctKeys(AddTo(m, key, amount))
    ensures Keys(AddTo(m, key, amount)) == Keys(m) + {key}
  {
    if m != [] {
      KeysCons(m);
      var r := AddTo(m, key, amount);
      KeysCons(r);
      if m[0].0 == key {
        assert r[1..] == m[1..];
      } else {
        AddToKeys(m[1..], key, amount);
        assert r[1..] == AddTo(m[1..], key, amount);
      }
    } else {
      var r := AddTo(m, key, amount);
      KeysCons(r);
      assert Keys(r[1..]) == {};
    }
  }

  lemma {:induction false} AddToLookup(m: Totals, key: string, amount: int, c: string)
    requires DistinctKeys(m)
    ensures Lookup(AddTo(m, key, amount), c) == if c == key then Some(Lookup(m, key).GetOr(0) + amount) else Lookup(m, c)
  {
    if m != [] {
      var r := AddTo(m, key, amount);
      if m[0].0 == key {
        assert r[1..] == m[1..];
      } else {
        AddToLookup(m[1..], key, amount, c);
        assert r[1..] == AddTo(m[1..], key, amount);
      }
    }
  }

  lemma {:induction false} AddToSum(m: Totals, key: string, amount: int)
    ensures SumValues(AddTo(m, key, amount)) == SumValues(m) + amount
  {
    if m != [] {
      var r := AddTo(m, key, amount);
      if m[0].0 == key {
        assert r[1..] == m[1..];
      } else {
        AddToSum(m[1..], key, amount);
        assert r[1..] == AddTo(m[1..], key, amount);
      }
    }
  }

  /**
   * Exactly the categories with a qualifying expense appear, each once,
   * holding the sum of their qualifying amounts; income and expenses before
   * the cutoff are never counted, and the values add up to the total spent.
   */
  lemma TallySpec(txs: seq<Transaction>, cutoff: int)
    ensures DistinctKeys(Tally(txs, cutoff))
    ensures forall c :: c in Keys(Tally(txs, cutoff)) <==> HasSpending(txs, cutoff, c)
    ensures forall c :: Lookup(Tally(txs, cutoff), c) ==
                        (if HasSpending(txs, cutoff, c) then Some(SpentOn(txs, cutoff, c)) else None)
    ensures SumValues(Tally(txs, cutoff)) == TotalSpent(txs, cutoff)
  {
    TallyKeys(txs, cutoff);
    forall c
      ensures Lookup(Tally(txs, cutoff), c) == (if HasSpending(txs, cutoff, c) then Some(SpentOn(txs, cutoff, c)) else None)
    {
      TallyLookup(txs, cutoff, c);
    }
    TallySum(txs, cutoff);
  }

  /** The keys of the tally are distinct and are exactly the categories with spending. */
  lemma {:induction false} TallyKeys(txs: seq<Transaction>, cutoff: int)
    decreases |txs|
    ensures DistinctKeys(Tally(txs, cutoff))
    ensures forall c :: c in Keys(Tally(txs, cutoff)) <==> HasSpending(txs, cutoff, c)
  {
    if txs != [] {
      var init := txs[..|txs| - 1];
      var t := txs[|txs| - 1];
      TallyKeys(init, cutoff);
      if Qualifies(t, cutoff) {
        AddToKeys(Tally(init, cutoff), t.category, t.amount);
      }
      forall c
        ensures HasSpending(txs, cutoff, c) <==> HasSpending(init, cutoff, c) || (Qualifies(t, cutoff) && t.category == c)
      {
        HasSpendingLast(txs, cutoff, c);
      }
    }
  }

  /** The tally holds, for a category with spending, its qualifying sum, and nothing otherwise. */
  lemma {:induction false} TallyLookup(txs: seq<Transaction>, cutoff: int, c: string)
    decreases |txs|
    ensures Lookup(Tally(txs, cutoff), c) == (if HasSpending(txs, cutoff, c) then Some(SpentOn(txs, cutoff, c)) else None)
  {
    if txs != [] {
      var init := txs[..|txs| - 1];
      var t := txs[|txs| - 1];
      TallyLookup(init, cutoff, c);
      TallyKeys(init, cutoff);
      HasSpendingLast(txs, cutoff, c);
      NoSpendingSumsToZero(init, cutoff, c);
      assert SpentOn(txs, cutoff, c) == SpentOn(init, cutoff, c) + (if Qualifies(t, cutoff) && t.category == c then t.amount else 0);
      if Qualifies(t, cutoff) {
        assert Tally(txs, cutoff) == AddTo(Tally(init, cutoff), t.category, t.amount);
        AddToLookup(Tally(init, cutoff), t.category, t.amount, c);
      }
    }
  }

  /** The values of the tally add up to the total spent. */
  lemma {:induction false} TallySum(txs: seq<Transaction>, cutoff: int)
    decreases |txs|
    ensures SumValues(Tally(txs, cutoff)) == TotalSpent(txs, cutoff)
  {
    if txs != [] {
      var init := txs[..|txs| - 1];
      var t := txs[|txs| - 1];
      TallySum(init, cutoff);
      if Qualifies(t, cutoff) {
        AddToSum(Tally(init, cutoff), t.category, t.amount);
      }
    }
  }

  /** A category has spending in a log exactly when it has some before the last entry or the last entry is one. */
  lemma HasSpendingLast(txs: seq<Transaction>, cutoff: int, c: string)
    requires txs != []
    ensures var init := txs[..|txs| - 1]; var t := txs[|txs| - 1];
      HasSpending(txs, cutoff, c) <==> HasSpending(init, cutoff, c) || (Qualifies(t, cutoff) && t.category == c)
  {
    var init := txs[..|txs| - 1];
    if HasSpending(txs, cutoff, c) {
      var i :| 0 <= i < |txs| && Qualifies(txs[i], cutoff) && txs[i].category == c;
      if i < |txs| - 1 {
        assert init[i] == txs[i];
      }
    }
    if HasSpending(init, cutoff, c) {
      var i :| 0 <= i < |init| && Qualifies(init[i], cutoff) && init[i].category == c;
      assert txs[i] == init[i];
    }
  }

  lemma {:induction false} NoSpendingSumsToZero(txs: seq<Transaction>, cutoff: int, c: string)
    decreases |txs|
    ensures !HasSpending(txs, cutoff, c) ==> SpentOn(txs, cutoff, c) == 0
  {
    if txs != [] {
      var init := txs[..|txs| - 1];
      assert forall i :: 0 <= i < |init| ==> init[i] == txs[i];
      NoSpendingSumsToZero(init, cutoff, c);
    }
  }

  /** The spending window a budget period looks at. */
  function WindowOf(period: BudgetPeriod): Window {
    match period
    case MonthlyPeriod => Month
    case WeeklyPeriod => Week
  }

  /** `getSpendingByCategory(window)[category] || 0`. */
  function BudgetSpent(txs: seq<Transaction>, category: string, period: BudgetPeriod, clock: Clock): int {
    Lookup(Tally(txs, Cutoff(WindowOf(period), clock)), category).GetOr(0)
  }

  /** A new budget's `spent` is the category's qualifying spending in its window (0 when none). */
  lemma BudgetSpentSpec(txs: seq<Transaction>, category: string, period: BudgetPeriod, clock: Clock)
    ensures BudgetSpent(txs, category, period, clock) == SpentOn(txs, Cutoff(WindowOf(period), clock), category)
  {
    var cutoff := Cutoff(WindowOf(period), clock);
    TallySpec(txs, cutoff);
    NoSpendingSumsToZero(txs, cutoff, category);
  }

  // ---------------------------------------------------------------- recurring payments

  /** The payments due at or before `bound`, in stored order. */
  function DueBy(ps: seq<RecurringPayment>, bound: int): (r: seq<RecurringPayment>)
    ensures |r| <= |ps|
    ensures forall p :: p in r <==> p in ps && p.nextDue <= bound
  {
    if ps == [] then []
    else (if ps[0].nextDue <= bound then [ps[0]] else []) + DueBy(ps[1..], bound)
  }

  /** Filtering commutes with concatenation, so stored order is kept. */
  lemma {:induction false} DueByAppend(a: seq<RecurringPayment>, b: seq<RecurringPayment>, bound: int)
    ensures DueBy(a + b, bound) == DueBy(a, bound) + DueBy(b, bound)
  {
    if a != [] {
      assert (a + b)[0] == a[0];
      assert (a + b)[1..] == a[1..] + b;
      DueByAppend(a[1..], b, bound);
    } else {
      assert a + b == b;
    }
  }

  /** `getUpcomingRecurring`: due within the next seven days, overdue included. */
  function Upcoming(d: FinanceData, clock: Clock): seq<RecurringPayment> {
    DueBy(d.recurringPayments, clock.now + WEEK)
  }

  function SumPayments(ps: seq<RecurringPayment>): int {
    if ps == [] then 0 else ps[0].amount + SumPayments(ps[1..])
  }

  // ---------------------------------------------------------------- budgets

  /** `findIndex(b => b.category === c)`. */
  function FindBudget(bs: seq<Budget>, c: string): (r: Option<nat>)
    ensures r.Some? ==> r.value < |bs| && bs[r.value].category == c
    ensures r.Some? ==> forall i :: 0 <= i < r.value ==> bs[i].category != c
    ensures r.None? ==> forall i :: 0 <= i < |bs| ==> bs[i].category != c
  {
    if bs == [] then None
    else if bs[0].category == c then Some(0)
    else match FindBudget(bs[1..], c)
      case None => None
      case Some(i) => Some(i + 1)
  }

  lemma {:induction false} FindBudgetAt(bs: seq<Budget>, c: string, k: nat)
    requires k < |bs| && bs[k].category == c
    requires forall i :: 0 <= i < k ==> bs[i].category != c
    ensures FindBudget(bs, c) == Some(k)
  {
    if k > 0 {
      FindBudgetAt(bs[1..], c, k - 1);
    }
  }

  /** Replace the first budget of `b`'s category, or append `b` when there is none. */
  function UpsertBudget(bs: seq<Budget>, b: Budget): seq<Budget> {
    match FindBudget(bs, b.category)
    case Some(i) => bs[i := b]
    case None => bs + [b]
  }

  /** The budgets of category `c`, in order. */
  function BudgetsFor(bs: seq<Budget>, c: string): seq<Budget> {
    if bs == [] then [] else (if bs[0].category == c then [bs[0]] else []) + BudgetsFor(bs[1..], c)
  }

  predicate UniqueCategories(bs: seq<Budget>) {
    forall i, j :: 0 <= i < j < |bs| ==> bs[i].category != bs[j].category
  }

  lemma {:induction false} BudgetsForUpdate(bs: seq<Budget>, i: nat, b: Budget, c: string)
    requires i < |bs| && bs[i].category == b.category && c != b.category
    ensures BudgetsFor(bs[i := b], c) == BudgetsFor(bs, c)
  {
    if i > 0 {
      assert bs[i := b][1..] == bs[1..][i - 1 := b];
      BudgetsForUpdate(bs[1..], i - 1, b, c);
    } else {
      assert bs[i := b][1..] == bs[1..];
    }
  }

  lemma {:induction false} BudgetsForAppend(bs: seq<Budget>, b: Budget, c: string)
    ensures BudgetsFor(bs + [b], c) == BudgetsFor(bs, c) + (if b.category == c then [b] else [])
  {
    if bs != [] {
      assert (bs + [b])[1..] == bs[1..] + [b];
      BudgetsForAppend(bs[1..], b, c);
    }
  }

  /**
   * The upsert finds `b` under its category afterwards, never adds a second
   * budget for a category that has one, leaves every other category's
   * budgets as they were, and keeps categories unique.
   */
  lemma UpsertBudgetSpec(bs: seq<Budget>, b: Budget)
    ensures var r := UpsertBudget(bs, b);
      && (exists i :: FindBudget(r, b.category) == Some(i) && r[i] == b)
      && |r| == (if FindBudget(bs, b.category).Some? then |bs| else |bs| + 1)
      && (forall c :: c != b.category ==> BudgetsFor(r, c) == BudgetsFor(bs, c))
      && (UniqueCategories(bs) ==> UniqueCategories(r))
  {
    var r := UpsertBudget(bs, b);
    match FindBudget(bs, b.category)
    case Some(i) =>
      FindBudgetAt(r, b.category, i);
      forall c | c != b.category
        ensures BudgetsFor(r, c) == BudgetsFor(bs, c)
      {
        BudgetsForUpdate(bs, i, b, c);
      }
    case None =>
      FindBudgetAt(r, b.category, |bs|);
      forall c | c != b.category
        ensures BudgetsFor(r, c) == BudgetsFor(bs, c)
      {
        BudgetsForAppend(bs, b, c);
      }
  }

  // ---------------------------------------------------------------- summary

  datatype Summary = Summary(
    balance: int,
    thisMonthSpending: int,
    thisWeekSpending: int,
    upcomingPayments: nat,
    totalUpcomingAmount: int,
    recentTransactions: seq<Transaction>)

  /** `getFinancialSummary`, assembled from the other queries. */
  function SummaryOf(d: FinanceData, clock: Clock): Summary {
    var upcoming := Upcoming(d, clock);
    Summary(
      d.balance,
      SumValues(Tally(d.transactions, Cutoff(Month, clock))),
      SumValues(Tally(d.transactions, Cutoff(Week, clock))),
      |upcoming|,
      SumPayments(upcoming),
      RecentTransactions(d.transactions, Some(5)))
  }

  /**
   * The spending figures are the totals of the qualifying expenses, and the
   * recent list is the five latest transactions (all of them when fewer).
   */
  lemma SummarySpec(d: FinanceData, clock: Clock)
    ensures SummaryOf(d, clock).thisMonthSpending == TotalSpent(d.transactions, Cutoff(Month, clock))
    ensures SummaryOf(d, clock).thisWeekSpending == TotalSpent(d.transactions, Cutoff(Week, clock))
    ensures var recent := SummaryOf(d, clock).recentTransactions;
      |recent| == (if |d.transactions| < 5 then |d.transactions| else 5)
      && recent == SortByDateDesc(d.transactions)[..|recent|]
  {
    TallySpec(d.transactions, Cutoff(Month, clock));
    TallySpec(d.transactions, Cutoff(Week, clock));
  }

  /** The empty ledger summarises to zeros. */
  lemma SummaryOfEmpty(clock: Clock)
    ensures SummaryOf(EmptyData, clock) == Summary(0, 0, 0, 0, 0, [])
  {
  }
}
