/**
 * The message-processing hook: the same command recognition as the chat
 * service, but every store failure is caught and reported as an
 * unsuccessful result with a message for its group.
 */
module MessageProcessor {
  import opened Wrappers
  import opened Ledger
  import opened Store
  import opened Classifier
  import Actions

  datatype ProcessedAction = ProcessedAction(message: string, success: bool)

  /**
   * `None` when no pattern matches (the store is untouched); otherwise the
   * one store operation of the first matching pattern is performed, and
   * the result is its confirmation, or its group's error message when
   * saving throws.
   */
  method ProcessFinanceAction(operations: FinanceService, message: string, clock: Clock)
    returns (r: Option<ProcessedAction>)
    modifies operations, operations.storage
    ensures operations.storage.writable == old(operations.storage.writable)
    ensures r.None? <==> Classify(message).None?
    ensures Classify(message).None? ==>
      && operations.Data() == old(operations.Data())
      && operations.storage.item == old(operations.storage.item)
    ensures Classify(message).Some? ==>
      var intent := Classify(message).value;
      && operations.Data() == Step(old(operations.Data()), Effect(intent, clock))
      && r == Some(if old(operations.storage.writable) then ProcessedAction(Confirmation(intent), true)
                   else ProcessedAction(FailureMessage(intent), false))
  {
    var intent, saved := Actions.Perform(operations, message, clock);
    match intent
    case None => r := None;
    case Some(i) =>
      r := Some(if saved then ProcessedAction(Confirmation(i), true) else ProcessedAction(FailureMessage(i), false));
  }
}
