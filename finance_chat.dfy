/**
 * The finance chat service: its own conversation history, the recognition
 * of ledger commands in a user message, and the post-processing of the
 * assistant's reply. The call to the language model is not part of this
 * model.
 */
module FinanceChat {
  import opened Wrappers
  import opened Ledger
  import opened Store
  import opened Classifier
  import opened Conversation
  import Actions
  import ResponseParser

  class FinanceChatService {
    var history: seq<Entry>

    /** The history starts with the finance assistant's system prompt alone. */
    constructor(systemPrompt: string)
      ensures history == [Entry(System, systemPrompt)] && StartsWithSystem(history)
    {
      history := [Entry(System, systemPrompt)];
    }

    /**
     * Performs the ledger command `message` asks for, if any, and returns
     * its confirmation; `Success(None)` when no pattern matches, in which
     * case the store is untouched. The service does not catch the storage
     * write failing: that surfaces as `Failure(WriteFailed)` after memory
     * has changed.
     */
    method ProcessFinanceAction(store: FinanceService, message: string, clock: Clock)
      returns (r: Result<Option<string>, StorageError>)
      modifies store, store.storage
      ensures store.storage.writable == old(store.storage.writable)
      ensures Classify(message).None? ==>
        && r == Success(None)
        && store.Data() == old(store.Data())
        && store.storage.item == old(store.storage.item)
      ensures Classify(message).Some? ==>
        var intent := Classify(message).value;
        && store.Data() == Step(old(store.Data()), Effect(intent, clock))
        && r == (if old(store.storage.writable) then Success(Some(Confirmation(intent))) else Failure(WriteFailed))
        && store.storage.item == if old(store.storage.writable) then Some(store.Data()) else old(store.storage.item)
    {
      var intent, saved := Actions.Perform(store, message, clock);
      match intent
      case None => r := Success(None);
      case Some(i) =>
        r := if saved then Success(Some(Confirmation(i))) else Failure(WriteFailed);
    }

    /** The same extraction as the stand-alone response parser. */
    method ParseResponse(response: string) returns (text: string, snippets: seq<ResponseParser.Snippet>)
      ensures snippets == ResponseParser.Snippets(response) && text == ResponseParser.TextOf(response)
    {
      text, snippets := ResponseParser.ParseResponse(response);
    }

    /** Keeps only the system prompt. */
    method ClearHistory()
      requires StartsWithSystem(history)
      modifies this
      ensures history == Cleared(old(history)) && StartsWithSystem(history)
    {
      var systemPrompt := history[0];
      history := [systemPrompt];
    }
  }
}
