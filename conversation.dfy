/**
 * The chat history sent to the language model: a list of role-tagged
 * entries that always starts with the system prompt. User messages may
 * carry a summary of the ledger and of the action just performed.
 */
module Conversation {
  import opened Wrappers
  import opened Text
  import opened Ledger

  datatype Role = System | User | Assistant

  datatype Entry = Entry(role: Role, content: string)

  /** A history as the model expects it: the system prompt first. */
  predicate StartsWithSystem(h: seq<Entry>) {
    |h| >= 1 && h[0].role == System
  }

  /** What clearing keeps: the first entry only. */
  function Cleared(h: seq<Entry>): (r: seq<Entry>)
    requires |h| >= 1
    ensures |r| == 1 && r[0] == h[0]
  {
    [h[0]]
  }

  /** Clearing a cleared history changes nothing, and keeps the system prompt in front. */
  lemma ClearedIdempotent(h: seq<Entry>)
    requires StartsWithSystem(h)
    ensures StartsWithSystem(Cleared(h)) && Cleared(Cleared(h)) == Cleared(h)
  {
  }

  // ---------------------------------------------------------------- context

  /**
   * Renders values the way `JSON.stringify(value, null, 2)` does; the
   * rendering itself is not part of this model.
   */
  datatype Json = Json(transactions: seq<Transaction> -> string, totals: Totals -> string)

  /** The context a user message may carry: the action just performed and a snapshot of the ledger. */
  datatype ContextData = ContextData(
    processedAction: string,
    balance: int,
    transactions: seq<Transaction>,
    categorySpending: Totals,
    recurringPayments: seq<RecurringPayment>)

  const ActionHeader: string := "\n\nВыполнено действие: "

  /** At most the first `n` elements (`slice(0, n)`). */
  function Prefix<T>(s: seq<T>, n: nat): (r: seq<T>)
    ensures |r| <= n && r <= s
    ensures |s| >= n ==> |r| == n
    ensures |s| <= n ==> r == s
  {
    if |s| <= n then s else s[..n]
  }

  /** The ledger summary appended after the action line. */
  function DataSummary(ctx: ContextData, json: Json): string {
    "\n\nТекущие финансовые данные:\n- Баланс: " + IntToDecimal(ctx.balance)
      + "₽\n- Последние транзакции: " + json.transactions(Prefix(ctx.transactions, 3))
      + "\n- Траты за месяц по категориям: " + json.totals(ctx.categorySpending)
      + "\n- Регулярные платежи: " + IntToDecimal(|ctx.recurringPayments|)
  }

  /**
   * The content of a user entry: the message itself without context;
   * with context, the message followed by the action line and the ledger
   * summary.
   */
  function UserContent(content: string, ctx: Option<ContextData>, json: Json): (r: string)
    ensures ctx.None? ==> r == content
    ensures ctx.Some? ==>
      && |r| > |content| + |ActionHeader| + |ctx.value.processedAction|
      && r[..|content|] == content
      && r[|content|..|content| + |ActionHeader|] == ActionHeader
      && r[|content| + |ActionHeader|..|content| + |ActionHeader| + |ctx.value.processedAction|]
         == ctx.value.processedAction
  {
    match ctx
    case None => content
    case Some(c) =>
      var summary := DataSummary(c, json);
      ConcatParts(content, ActionHeader, c.processedAction, summary);
      content + ActionHeader + c.processedAction + summary
  }

  /** The first three parts of a four-part concatenation can be read back by position. */
  lemma ConcatParts(a: string, b: string, c: string, d: string)
    ensures var r := a + b + c + d;
      && |r| == |a| + |b| + |c| + |d|
      && r[..|a|] == a
      && r[|a|..|a| + |b|] == b
      && r[|a| + |b|..|a| + |b| + |c|] == c
  {
    var r := a + b + c + d;
    assert r[..|a|] == a;
    assert r[|a|..|a| + |b|] == b;
    assert r[|a| + |b|..|a| + |b| + |c|] == c;
  }

  // ---------------------------------------------------------------- the manager

  class ConversationManager {
    var history: seq<Entry>

    predicate Valid()
      reads this
    {
      StartsWithSystem(history)
    }

    /** The history starts with the system prompt alone. */
    constructor(systemPrompt: string)
      ensures history == [Entry(System, systemPrompt)] && Valid()
    {
      history := [Entry(System, systemPrompt)];
    }

    /** Appends one user entry; without context its content is the message unchanged. */
    method AddUserMessage(content: string, ctx: Option<ContextData>, json: Json)
      requires Valid()
      modifies this
      ensures history == old(history) + [Entry(User, UserContent(content, ctx, json))]
      ensures Valid() && history[0] == old(history[0])
    {
      var message := content;
      if ctx.Some? {
        var c := ctx.value;
        message := message + ActionHeader + c.processedAction;
        message := message + DataSummary(c, json);
      }
      history := history + [Entry(User, message)];
    }

    /** Appends one assistant entry; earlier entries are unchanged. */
    method AddAssistantMessage(content: string)
      requires Valid()
      modifies this
      ensures history == old(history) + [Entry(Assistant, content)]
      ensures Valid() && history[0] == old(history[0])
    {
      history := history + [Entry(Assistant, content)];
    }

    /**
     * A copy of the history: appending to or removing from the returned
     * list does not change the manager's history.
     */
    method GetHistory() returns (h: seq<Entry>)
      ensures h == history
    {
      h := history;
    }

    /** Keeps only the system prompt. */
    method ClearHistory()
      requires Valid()
      modifies this
      ensures history == Cleared(old(history)) && |history| == 1
      ensures Valid() && history[0] == old(history[0])
    {
      var systemPrompt := history[0];
      history := [systemPrompt];
    }
  }
}
