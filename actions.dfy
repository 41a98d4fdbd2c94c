/**
 * The dispatch shared by the chat service and the message-processing hook:
 * the expense patterns are tried in order, then the income patterns, then
 * the subscription patterns; the first that matches performs its one store
 * operation and ends the search.
 */
module Actions {
  import opened Wrappers
  import opened Regex
  import opened Ledger
  import opened Store
  import opened Classifier

  /**
   * Runs the three pattern loops over `message`. `intent` is what the first
   * matching pattern asked for (`None` when no pattern matches, in which
   * case the store is untouched); `saved` says whether the store operation
   * reached storage. The store changes in memory even when saving fails.
   */
  method Perform(store: FinanceService, message: string, clock: Clock) returns (intent: Option<Intent>, saved: bool)
    modifies store, store.storage
    ensures intent == Classify(message)
    ensures store.storage.writable == old(store.storage.writable)
    ensures intent.None? ==>
      && !saved
      && store.Data() == old(store.Data())
      && store.storage.item == old(store.storage.item)
    ensures intent.Some? ==>
      && store.Data() == Step(old(store.Data()), Effect(intent.value, clock))
      && saved == old(store.storage.writable)
      && store.storage.item == if saved then Some(store.Data()) else old(store.storage.item)
  {
    intent, saved := TryExpenses(store, message, clock);
    if intent.None? {
      intent, saved := TryIncomes(store, message, clock);
      if intent.None? {
        intent, saved := TrySubscriptions(store, message, clock);
      }
    }
  }

  /** The expense loop: the first matching expense pattern records its expense. */
  method TryExpenses(store: FinanceService, message: string, clock: Clock) returns (intent: Option<Intent>, saved: bool)
    modifies store, store.storage
    ensures store.storage.writable == old(store.storage.writable)
    ensures FirstMatch(ExpensePatterns, message, 0).None? ==>
      && intent.None? && !saved
      && store.Data() == old(store.Data())
      && store.storage.item == old(store.storage.item)
    ensures FirstMatch(ExpensePatterns, message, 0).Some? ==>
      var h := FirstMatch(ExpensePatterns, message, 0).value;
      && intent == Some(ExpenseFrom(h.index, message, h.m))
      && store.Data() == Step(old(store.Data()), Effect(intent.value, clock))
      && saved == old(store.storage.writable)
      && store.storage.item == if saved then Some(store.Data()) else old(store.storage.item)
  {
    for i := 0 to |ExpensePatterns|
      invariant forall j :: 0 <= j < i ==> Search(ExpensePatterns[j], message).None?
      invariant store.Data() == old(store.Data())
      invariant store.storage.item == old(store.storage.item) && store.storage.writable == old(store.storage.writable)
    {
      var m := Search(ExpensePatterns[i], message);
      if m.Some? {
        FirstMatchAt(ExpensePatterns, message, 0, i);
        var e := ExpenseFrom(i, message, m.value);
        var t := store.AddTransaction(e.amount, e.category, e.description, clock.now, Expense, clock.now);
        return Some(e), t.Success?;
      }
    }
    return None, false;
  }

  /** The income loop: the first matching income pattern records its income. */
  method TryIncomes(store: FinanceService, message: string, clock: Clock) returns (intent: Option<Intent>, saved: bool)
    modifies store, store.storage
    ensures store.storage.writable == old(store.storage.writable)
    ensures FirstMatch(IncomePatterns, message, 0).None? ==>
      && intent.None? && !saved
      && store.Data() == old(store.Data())
      && store.storage.item == old(store.storage.item)
    ensures FirstMatch(IncomePatterns, message, 0).Some? ==>
      var h := FirstMatch(IncomePatterns, message, 0).value;
      && intent == Some(IncomeFrom(h.index, message, h.m))
      && store.Data() == Step(old(store.Data()), Effect(intent.value, clock))
      && saved == old(store.storage.writable)
      && store.storage.item == if saved then Some(store.Data()) else old(store.storage.item)
  {
    for i := 0 to |IncomePatterns|
      invariant forall j :: 0 <= j < i ==> Search(IncomePatterns[j], message).None?
      invariant store.Data() == old(store.Data())
      invariant store.storage.item == old(store.storage.item) && store.storage.writable == old(store.storage.writable)
    {
      var m := Search(IncomePatterns[i], message);
      if m.Some? {
        FirstMatchAt(IncomePatterns, message, 0, i);
        var inc := IncomeFrom(i, message, m.value);
        var t := store.AddTransaction(inc.amount, IncomeCategory, inc.description, clock.now, Income, clock.now);
        return Some(inc), t.Success?;
      }
    }
    return None, false;
  }

  /** The subscription loop: the first matching subscription pattern schedules a monthly payment. */
  method TrySubscriptions(store: FinanceService, message: string, clock: Clock) returns (intent: Option<Intent>, saved: bool)
    modifies store, store.storage
    ensures store.storage.writable == old(store.storage.writable)
    ensures FirstMatch(SubscriptionPatterns, message, 0).None? ==>
      && intent.None? && !saved
      && store.Data() == old(store.Data())
      && store.storage.item == old(store.storage.item)
    ensures FirstMatch(SubscriptionPatterns, message, 0).Some? ==>
      var h := FirstMatch(SubscriptionPatterns, message, 0).value;
      && intent == Some(SubscriptionFrom(h.index, message, h.m))
      && store.Data() == Step(old(store.Data()), Effect(intent.value, clock))
      && saved == old(store.storage.writable)
      && store.storage.item == if saved then Some(store.Data()) else old(store.storage.item)
  {
    for i := 0 to |SubscriptionPatterns|
      invariant forall j :: 0 <= j < i ==> Search(SubscriptionPatterns[j], message).None?
      invariant store.Data() == old(store.Data())
      invariant store.storage.item == old(store.storage.item) && store.storage.writable == old(store.storage.writable)
    {
      var m := Search(SubscriptionPatterns[i], message);
      if m.Some? {
        FirstMatchAt(SubscriptionPatterns, message, 0, i);
        var sub := SubscriptionFrom(i, message, m.value);
        var nextDue := clock.addMonths(clock.now, 1);
        var p := store.AddRecurringPayment(sub.name, sub.amount, Monthly, nextDue, SubscriptionCategory, clock.now);
        return Some(sub), p.Success?;
      }
    }
    return None, false;
  }
}
