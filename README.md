# ai-wallet: the ledger, the command recogniser and the reply post-processing

ai-wallet is a chat-driven personal-finance assistant. This project models
the parts of it that are logic rather than UI or network plumbing:

- **The ledger store** (`FinanceService`). It holds a balance and the lists
  of transactions, recurring payments and budgets, and it writes the whole
  record to local storage after every change. It answers queries: the
  date-sorted transaction list, spending per category over a week or month
  window, payments due within seven days, and a composite summary.
- **The command recogniser.** This is `processFinanceAction` in the finance
  chat service and in the message-processing hook. Three ordered groups of
  case-insensitive regular expressions are tried: expense, then income,
  then subscription. The first pattern that matches performs exactly one
  store operation and returns a confirmation. The keyword table that files
  an expense under a category is part of it.
- **The code-fence extraction.** `ResponseParser.parseResponse` and the
  finance chat's copy of it use a global `exec` loop over
  ```` ```jsx\n … ``` ```` blocks. The UI-builder chat service takes the
  first fence, picks a description for it, and chooses a stock widget by
  keyword when the model cannot be reached.
- **The conversation history.** It always starts with the system prompt,
  takes appends, and can be cleared back to that prompt.

Modules:

| module | what it holds |
|---|---|
| `Wrappers` | `Option` and `Result` |
| `Text` | the JavaScript string operations the code relies on: `toLowerCase`, `indexOf`, `includes`, `trim`, `split`, `parseInt`, number rendering |
| `Regex` | a backtracking matcher for the regular-expression fragment the patterns use; the patterns are data |
| `Ledger` | the records, balance arithmetic, sorting, spending totals, due payments, budget upsert, the summary |
| `Store` | `LocalStorage` and the `FinanceService` class; mutators change memory first and then save |
| `Classifier` | the patterns, first-match search, capture reading, categories, intents, their effects and replies |
| `Actions` | the three pattern loops, with the store calls they make |
| `FinanceChat` | the finance chat service: its history, `processFinanceAction`, `parseResponse`, `clearHistory` |
| `MessageProcessor` | the hook's `processFinanceAction`, which catches store failures |
| `ResponseParser` | the `exec` loop over fenced blocks and the text left once they are removed |
| `Conversation` | `ConversationManager` and the context suffix of user messages |
| `ChatService` | first-fence extraction, `extractDescriptionFromResponse`, `getFallbackResponse` |
| `ClassifierExamples` | concrete messages run through the patterns step by step |

Timestamps are integers (milliseconds). The calendar-month shift
(`setMonth(getMonth() ± k)`) is an abstract function carried by `Clock`,
together with the current time.

Three behaviours of the regular expressions are worth knowing, and each is
proved:

- The currency token is the literal stem `рубл`. So "заработал 3000 рублей
  фрилансом" is an income described as "ей фрилансом".
- "потратил 500 рублей на продукты" is not recognised at all, because `на`
  must follow the currency token directly.
- "Потратил 500₽ на продукты" is an expense of 500 in category Продукты.

## Model

| member | source | states |
|---|---|---|
| `Ledger.BalanceOfAppend` | src/services/financeService.ts:45-52 | appending a transaction moves Σ income − Σ expense by its signed amount |
| `Ledger.StepKeepsConsistent` | src/services/financeService.ts:45-52 | each ledger mutation keeps the cached balance equal to Σ income − Σ expense |
| `Ledger.ReplayKeepsConsistent` | src/services/financeService.ts:39-67 | any sequence of mutations keeps a consistent ledger consistent |
| `Ledger.BalanceFromEmpty` | src/services/financeService.ts:27-32 | from the empty ledger, after any mutations, balance = Σ income − Σ expense |
| `Ledger.InsertByDate` | src/services/financeService.ts:74-76 | one insertion step of the sort adds exactly the inserted transaction (multiset) |
| `Ledger.InsertKeepsSorted` | src/services/financeService.ts:74-76 | inserting into a list sorted latest-first keeps it sorted |
| `Ledger.InsertNotLater` | src/services/financeService.ts:74-76 | insertion introduces no date later than the bound already met by the list and the element |
| `Ledger.SortByDateDesc` | src/services/financeService.ts:74-76 | the sorted copy is a permutation of the log, ordered by date with the latest first |
| `Ledger.InsertWithDate` | src/services/financeService.ts:74-76 | insertion keeps the relative order of transactions with equal dates |
| `Ledger.SortIsStable` | src/services/financeService.ts:74-76 | transactions with equal dates keep their stored order after sorting |
| `Ledger.SliceTo` | src/services/financeService.ts:77 | `slice(0, end)` gives a prefix, of length `min(end, n)`, or `n + end` for a negative `end` |
| `Ledger.RecentTransactions` | src/services/financeService.ts:73-78 | a prefix of the sorted copy; a missing or zero limit returns all, a positive one `min(limit, n)` items |
| `Ledger.KeysCons` | src/services/financeService.ts:102-105 | the keys of a totals object are its first key and the keys of the rest |
| `Ledger.Lookup` | src/services/financeService.ts:104 | a key has a value exactly when it is one of the object's keys |
| `Ledger.AddToKeys` | src/services/financeService.ts:104 | adding to a key keeps keys distinct and adds exactly that key |
| `Ledger.AddToLookup` | src/services/financeService.ts:104 | adding to a key changes its value by the amount (from 0 when absent) and no other value |
| `Ledger.AddToSum` | src/services/financeService.ts:104 | adding to a key raises the sum of values by the amount |
| `Ledger.TallySpec` | src/services/financeService.ts:88-108 | the categories present are exactly those with a qualifying expense, each once, holding its qualifying sum; income never counts; values add up to the total spent |
| `Ledger.TallyKeys` | src/services/financeService.ts:98-105 | the totals' keys are distinct and are exactly the categories with a qualifying expense |
| `Ledger.TallyLookup` | src/services/financeService.ts:98-105 | a category's total is its qualifying sum when it has spending, and absent otherwise |
| `Ledger.TallySum` | src/services/financeService.ts:98-105 | the totals add up to the sum of all qualifying expenses |
| `Ledger.HasSpendingLast` | src/services/financeService.ts:98-100 | a category has qualifying spending exactly when the log before the last entry has some or the last entry is one |
| `Ledger.NoSpendingSumsToZero` | src/services/financeService.ts:98-105 | a category without qualifying expenses has spending 0 |
| `Ledger.BudgetSpentSpec` | src/services/financeService.ts:122 | a new budget's `spent` is the category's qualifying spending in the period's window, 0 when there is none |
| `Ledger.DueBy` | src/services/financeService.ts:115-117 | keeps exactly the payments with `nextDue <= bound`, overdue ones included |
| `Ledger.DueByAppend` | src/services/financeService.ts:115-117 | filtering commutes with concatenation, so stored order is kept |
| `Ledger.FindBudget` | src/services/financeService.ts:121 | `findIndex`: the first budget of the category, or none when no budget has it |
| `Ledger.FindBudgetAt` | src/services/financeService.ts:121 | the first index holding the category is what `findIndex` returns |
| `Ledger.BudgetsForUpdate` | src/services/financeService.ts:131-132 | replacing a budget in place leaves every other category's budgets unchanged |
| `Ledger.BudgetsForAppend` | src/services/financeService.ts:133-134 | appending a budget adds it to its own category's budgets only |
| `Ledger.UpsertBudgetSpec` | src/services/financeService.ts:120-139 | after the upsert the category's first budget is the new one; the length grows only when the category was new; other categories are untouched; unique categories stay unique |
| `Ledger.SummarySpec` | src/services/financeService.ts:141-154 | month and week spending are the totals of qualifying expenses; recent transactions are the first `min(5, n)` of the sorted copy |
| `Ledger.SummaryOfEmpty` | src/services/financeService.ts:141-154 | the empty ledger summarises to all zeros and no transactions |
| `Store.LocalStorage.SetItem` | src/services/financeService.ts:36 | the write succeeds exactly when storage is writable, and then stores the record |
| `Store.FinanceService.constructor` | src/services/financeService.ts:7-33 | loads the stored record, or the empty ledger (balance 0, empty lists) when nothing is stored |
| `Store.FinanceService.SaveData` | src/services/financeService.ts:35-37 | storage holds the current record afterwards when writable, and is unchanged otherwise |
| `Store.FinanceService.AddTransaction` | src/services/financeService.ts:39-56 | appends exactly one transaction with the given fields and the clock as id; balance moves by +amount for income, −amount otherwise; payments and budgets are unchanged; memory changes even when saving fails |
| `Store.FinanceService.AddRecurringPayment` | src/services/financeService.ts:58-67 | appends exactly one payment; balance, transactions and budgets are unchanged |
| `Store.FinanceService.GetBalance` | src/services/financeService.ts:69-71 | on a consistent ledger the balance is Σ income − Σ expense |
| `Store.FinanceService.GetSpendingByCategory` | src/services/financeService.ts:88-108 | the `forEach` accumulation equals the tally whose properties `Ledger.TallySpec` proves |
| `Store.FinanceService.SetBudget` | src/services/financeService.ts:120-139 | the budget list becomes the upsert of the new budget, with `spent` from the window's spending; balance, transactions and payments are unchanged |
| `Text.LowerChar` | src/services/financeChatService.ts:248 | lower-casing changes only Latin and Cyrillic capitals |
| `Text.LowerCharLowers` | src/services/financeChatService.ts:248 | the lower case of a character is never a capital, and every capital is changed |
| `Text.ToLower` | src/services/financeChatService.ts:248 | `toLowerCase` keeps the length, leaves no capital in the result, and changes exactly the positions that held a capital |
| `Text.ToLowerOfLower` | src/services/chatService.ts:155 | a text without capitals is its own lower case |
| `Text.ToLowerAppend` | src/services/financeChatService.ts:248 | lower-casing distributes over concatenation |
| `Text.ToLowerIdempotent` | src/services/chatService.ts:155 | lower-casing a lower-cased text changes nothing |
| `Text.IndexOfFrom` | src/services/financeChatService.ts:250 | `indexOf` finds the first occurrence at or after the start, and none exists when it fails |
| `Text.ContainsIff` | src/services/financeChatService.ts:250 | `includes` holds exactly when the text occurs somewhere |
| `Text.TrimStart` | src/services/ResponseParser.ts:22 | the leading run of whitespace ends at the first other character |
| `Text.TrimEnd` | src/services/ResponseParser.ts:22 | the trailing run of whitespace starts after the last other character |
| `Text.Trim` | src/services/ResponseParser.ts:22 | `trim` is the slice between the runs of whitespace; it is empty exactly when the text is all whitespace |
| `Text.TrimIdempotent` | src/services/ResponseParser.ts:22 | trimming twice is trimming once |
| `Text.Split` | src/services/chatService.ts:135 | `split` always yields at least one piece |
| `Text.SplitPiecesAreSeparatorFree` | src/services/chatService.ts:135-136 | no piece of a split contains the separator |
| `Text.JoinSplit` | src/services/chatService.ts:135-136 | joining the pieces with the separator gives the text back |
| `Text.NatToDecimal` | src/services/financeChatService.ts:190 | a number renders as a non-empty run of digits |
| `Text.DecimalValueOfNatToDecimal` | src/services/financeChatService.ts:190 | the rendered digits read back as the number |
| `Text.DigitRun` | src/services/financeChatService.ts:178 | the leading digit run that `parseInt` reads, and no longer |
| `Text.ParseIntDigits` | src/services/financeChatService.ts:178 | `parseInt` of a non-empty digit run is its decimal value |
| `Text.ParseIntOfDecimal` | src/services/financeChatService.ts:178 | `parseInt` reads back the rendering of any natural number |
| `Regex.RunEnd` | src/services/financeChatService.ts:156 | a class run ends at the first character outside the class |
| `Regex.RepStatesLazy` | src/services/financeChatService.ts:157 | a lazy repetition such as `(.+?)` tries the shortest end first, then each longer one |
| `Regex.SearchFrom` | src/services/financeChatService.ts:176 | `match` reports the match at the leftmost start where the pattern matches |
| `Regex.MatchSound` | src/services/financeChatService.ts:155-172 | every capture of a match lies inside the subject and consists of its group's class; every top-level group takes part |
| `Regex.LeadingLiteral` | src/services/financeChatService.ts:156 | a pattern opening with a keyword matches only where the keyword occurs, in any case |
| `Regex.MatchesFromStart` | src/services/financeChatService.ts:176 | the first complete path from the start of the subject is the reported match |
| `Regex.AbsentLiteral` | src/services/financeChatService.ts:176 | a pattern whose keyword does not occur in the message does not match |
| `Classifier.ExpensePatternsWellFormed` | src/services/financeChatService.ts:155-160 | in every expense pattern the amount group is digits; `купил … за N` has it second |
| `Classifier.IncomePatternsWellFormed` | src/services/financeChatService.ts:162-167 | in every income pattern group 1 is the digit amount |
| `Classifier.SubscriptionPatternsWellFormed` | src/services/financeChatService.ts:169-172 | in both subscription patterns group 2 is the digit amount |
| `Classifier.FirstMatch` | src/services/financeChatService.ts:175-177 | the first pattern in list order that matches, with every earlier one failing; none exactly when no pattern matches |
| `Classifier.FirstMatchAt` | src/services/financeChatService.ts:175-177 | a pattern that matches after all earlier ones fail is the hit |
| `Classifier.CategoryFrom` | src/services/financeChatService.ts:249-255 | the category of the first table row with a keyword in the text; `Прочее` exactly when no row has one |
| `Classifier.CategorizeExpense` | src/services/financeChatService.ts:238-256 | the loop returns the first-hit category of the lower-cased description, and `Прочее` exactly when no keyword occurs; the hook in `src/hooks/useMessageProcessor.ts` (lines 133-151) scans the same table in the same order |
| `Classifier.AmountCaptured` | src/services/financeChatService.ts:178 | the amount group of a match is a non-empty digit string, so `parseInt` succeeds on it |
| `Classifier.AmountOf` | src/services/financeChatService.ts:178 | the amount is the `parseInt` value of the digit capture |
| `Classifier.ExpenseFrom` | src/services/financeChatService.ts:176-190 | an expense whose amount is the digit capture, whose description is the description capture or `Разное`, and whose category is that description's |
| `Classifier.AsWrittenAgrees` | src/services/financeChatService.ts:178-179 | for every expense pattern except `купил … за N`, reading groups 1 and 2 as written gives the modelled expense |
| `Classifier.IncomeFrom` | src/services/financeChatService.ts:195-209 | an income of `parseInt(group 1)`, described by group 2, or `зарплата`/`доход` by whether the matched text contains `зарплата` |
| `Classifier.SubscriptionFrom` | src/services/financeChatService.ts:214-231 | a subscription named by group 1 with amount `parseInt(group 2)` |
| `Classifier.ClassifyOrder` | src/services/financeChatService.ts:174-235 | expense iff some expense pattern matches; income iff none does and an income pattern does; no intent iff no pattern of any group matches |
| `Classifier.EffectSpec` | src/services/financeChatService.ts:182-188 | an expense or income appends one transaction and moves the balance by the signed amount; a subscription appends one monthly payment due a month ahead and leaves the log and balance alone; budgets never change |
| `Actions.Perform` | src/services/financeChatService.ts:174-235 | the intent is the classification; with none the store is untouched; otherwise memory changes by exactly that intent's effect, and it is saved exactly when storage is writable |
| `Actions.TryExpenses` | src/services/financeChatService.ts:175-192 | the loop stops at the first matching expense pattern and records its expense; the store is unchanged when none matches |
| `Actions.TryIncomes` | src/services/financeChatService.ts:195-211 | the loop stops at the first matching income pattern and records its income; the store is unchanged when none matches |
| `Actions.TrySubscriptions` | src/services/financeChatService.ts:214-233 | the loop stops at the first matching subscription pattern and schedules it monthly, a month ahead; the store is unchanged when none matches |
| `FinanceChat.FinanceChatService.constructor` | src/services/financeChatService.ts:13-16 | the history is the system prompt alone |
| `FinanceChat.FinanceChatService.ProcessFinanceAction` | src/services/financeChatService.ts:153-236 | no match gives `null` and an untouched store; a match performs its one mutation and returns its confirmation, or fails with the storage error after memory has changed |
| `FinanceChat.FinanceChatService.ParseResponse` | src/services/financeChatService.ts:258-278 | the same snippets and text as the stand-alone parser |
| `FinanceChat.FinanceChatService.ClearHistory` | src/services/financeChatService.ts:280-284 | the history becomes its first entry, the system prompt, alone |
| `MessageProcessor.ProcessFinanceAction` | src/hooks/useMessageProcessor.ts:12-125 | `null` exactly when no pattern matches, with the store untouched; otherwise one mutation and `{confirmation, true}`, or the group's error message with `false` when saving throws |
| `Conversation.Cleared` | src/services/ConversationManager.ts:98-101 | clearing keeps exactly the first entry |
| `Conversation.ClearedIdempotent` | src/services/ConversationManager.ts:98-101 | clearing twice is clearing once, and the system prompt stays first |
| `Conversation.Prefix` | src/services/ConversationManager.ts:76 | `slice(0, n)` is a prefix of at most `n` elements, exactly `n` when there are enough, and the whole list when there are not |
| `Conversation.UserContent` | src/services/ConversationManager.ts:70-79 | without context the content is the message unchanged; with context it starts with the message, then the action header, then the action |
| `Conversation.ConcatParts` | src/services/ConversationManager.ts:71-78 | the parts of the appended content can be read back at their positions |
| `Conversation.ConversationManager.constructor` | src/services/ConversationManager.ts:4-10 | the history is one system entry |
| `Conversation.ConversationManager.AddUserMessage` | src/services/ConversationManager.ts:70-85 | appends exactly one user entry with that content; earlier entries are unchanged |
| `Conversation.ConversationManager.AddAssistantMessage` | src/services/ConversationManager.ts:87-92 | appends exactly one assistant entry; earlier entries are unchanged |
| `Conversation.ConversationManager.GetHistory` | src/services/ConversationManager.ts:94-96 | returns a list equal to the history; appending to or removing from it leaves the manager's history as it was |
| `Conversation.ConversationManager.ClearHistory` | src/services/ConversationManager.ts:98-101 | the history becomes `[first entry]` |
| `ResponseParser.NextBlock` | src/services/ResponseParser.ts:15-18 | `exec` from `lastIndex` finds the leftmost opener with a newline and a closing fence, closed at the first fence after it; none exactly when no such block remains |
| `ResponseParser.ParseResponse` | src/services/ResponseParser.ts:10-30 | the loop collects exactly the snippets of the blocks in order, and the text is the reply without the blocks, trimmed |
| `ResponseParser.SnippetsStep` | src/services/ResponseParser.ts:18-24 | one turn of the loop adds the found block's snippet and resumes after its closing fence |
| `ResponseParser.WithoutBlocksLength` | src/services/ResponseParser.ts:27 | removing the blocks shortens the reply by exactly their total length |
| `ResponseParser.NoBlockNoSnippets` | src/services/ResponseParser.ts:11-29 | a reply without a recognised block gives no snippets, and its text is the trimmed reply |
| `ResponseParser.MatchGivesSnippet` | src/services/ResponseParser.ts:18-24 | a recognised block anywhere gives at least one snippet |
| `ResponseParser.NewlineRequired` | src/services/ResponseParser.ts:15 | a fence whose tag is not followed by a newline opens no block |
| `ResponseParser.BlocksAreBlocks` | src/services/ResponseParser.ts:15-18 | every block found is a well-formed block: opener, no fence inside, closing fence |
| `ResponseParser.BlocksInOrder` | src/services/ResponseParser.ts:18-24 | blocks appear in order, each after the previous one's closing fence, so they never overlap |
| `ResponseParser.NoBlocksIff` | src/services/ResponseParser.ts:18 | there are no blocks exactly when the pattern matches nowhere |
| `ResponseParser.MatchesCovered` | src/services/ResponseParser.ts:18-24 | no match is skipped: every position where the pattern matches lies within some found block |
| `ResponseParser.SnippetsOfBlocks` | src/services/ResponseParser.ts:19-23 | one snippet per block, in the same order |
| `ResponseParser.SnippetCode` | src/services/ResponseParser.ts:19-23 | every snippet has language `jsx`, even for `tsx`, and its code is its block's body trimmed |
| `ResponseParser.UnfencedIsText` | src/services/ResponseParser.ts:15 | "```jsx code```" yields no snippet and is returned as text |
| `ResponseParser.TsxReplyParsed` | src/services/ResponseParser.ts:15-27 | a `tsx` block yields one `jsx` snippet with the trimmed body, and empty text |
| `ChatService.SpaceRun` | src/services/chatService.ts:103 | `\s*` runs up to the first character that is not whitespace |
| `ChatService.FirstFence` | src/services/chatService.ts:103 | the leftmost tagged fence with a closing fence, its body after the whitespace up to the first fence; none exactly when there is no such fence |
| `ChatService.FirstComment` | src/services/chatService.ts:146 | the leftmost `/**`, its body ending at the first `*/` after it; none exactly when no comment closes |
| `ChatService.NothingBeforeFirst` | src/services/chatService.ts:146 | the text before the first occurrence of a delimiter does not contain it |
| `ChatService.CommentDescription` | src/services/chatService.ts:146-151 | the trimmed body of the leftmost closed `/** … */` comment; the default when the code has no comment opener at all; never begins or ends with whitespace |
| `ChatService.DescriptionFromComment` | src/services/chatService.ts:133-152 | when neither fence-separated piece is 11 to 199 characters once trimmed, the description is the first comment's trimmed body, or the default when there is no comment |
| `ChatService.DescriptionFromTrimmed` | src/services/chatService.ts:138-151 | whichever of the before-text, the after-text or the comment is chosen, it has no surrounding whitespace |
| `ChatService.DescriptionTrimmed` | src/services/chatService.ts:133-152 | the description of any reply has no surrounding whitespace |
| `ChatService.DescriptionBeforeFence` | src/services/chatService.ts:135-140 | when the text before the first fence is 11 to 199 characters once trimmed, it is the description |
| `ChatService.BeforeHasNoFence` | src/services/chatService.ts:135 | the text before the first fence contains no fence |
| `ChatService.AfterWhenBeforeOutOfBounds` | src/services/chatService.ts:141-143 | when the text before is out of bounds and the third piece is in bounds, the description is that piece trimmed |
| `ChatService.ReplyResponse` | src/services/chatService.ts:100-123 | with a fence: a `jsx` snippet of the first fence's body trimmed, described by `Description` of the reply and that code, and the fixed message; without one: the reply unchanged and no snippet; `src/services/chatService.new.ts` (lines 65-88) extracts the first fence the same way |
| `ChatService.AbsentReply` | src/services/chatService.ts:100 | an absent reply becomes the empty message without a snippet |
| `ChatService.WidgetFor` | src/services/chatService.ts:154-293 | button when `кнопка`/`button` occurs; else counter for `счетчик`/`counter`; else form for `форма`/`form`; else the clock; `src/services/chatService.new.ts` (lines 119-258) uses the same keyword priority |
| `ChatService.FallbackResponse` | src/services/chatService.ts:154-323 | every fallback has a `jsx` snippet of the stock widget the keywords pick, and that widget's message |
| `ChatService.FallbackIgnoresCase` | src/services/chatService.ts:155 | the keyword choice is the same for a message and its lower case |
| `ClassifierExamples.UiExpenseClassified` | src/services/financeChatService.ts:156 | "Потратил 500₽ на продукты" is an expense of 500 on "продукты", category Продукты |
| `ClassifierExamples.FreelanceClassified` | src/services/financeChatService.ts:163 | "заработал 3000 рублей фрилансом" is an income of 3000 described as "ей фрилансом" |
| `ClassifierExamples.RublesUnrecognised` | src/services/financeChatService.ts:156 | "потратил 500 рублей на продукты" matches no pattern of any group |
| `ClassifierExamples.BreadAsWritten` | src/services/financeChatService.ts:178-179 | read as written, "купил хлеб за 100" gives `parseInt("хлеб")` (NaN) spent on "100" |
| `ClassifierExamples.BreadClassified` | src/services/financeChatService.ts:157 | with the groups read as laid out, "купил хлеб за 100" is 100 spent on "хлеб", category Продукты |
| `ClassifierExamples.ClothesShopCategory` | src/services/financeChatService.ts:240-244 | "магазин одежды" is filed under Продукты, because that row's `магазин` comes first |

## Left out

- The calls to the OpenAI API and the prompt texts are not modelled. The constructors take the system prompt as a parameter, and `ChatService.ReplyResponse` takes the model's reply (or its absence) as input.
- `sendMessage` in both chat services is left out, as is its error handling. Only the post-processing of a reply is modelled: `ReplyResponse`, and `FallbackResponse` for the failure path.
- `JSON.stringify` is abstract. `Conversation.Json` supplies the rendering of the recent transactions and of the category totals. So the totals' key order is what `Object` would give for non-numeric keys only.
- The code text of the stock widgets is not modelled. `ChatService.Code.Stock` names the widget instead. This is the only difference between the two copies of the chat service.
- Local storage serialisation is a faithful round trip here: `LocalStorage.item` holds the record itself, and whether `setItem` throws is the `writable` flag. The conversion of date strings back to `Date` objects when loading is therefore not modelled.
- `Date` is not modelled. Timestamps are integers, the week window is `now − 7 days`, and the month shift is the abstract `Clock.addMonths`. Day overflow, DST and time zones are not part of this model.
- Transaction ids are `Date.now()` readings, taken from `Clock.now`. They are not unique, and nothing here claims they are.
- Amounts are unbounded integers. JavaScript numbers are floating point, so very long digit strings would round; that is not modelled.
- `Classifier.ExpenseFrom`: for `купил … за N` it reads the amount from group 2 and the description from group 1, as the pattern lays them out. The source reads group 1 through `parseInt`, which gives `NaN`. That reading is modelled separately as `Classifier.ExpenseAsWritten` (see Findings).
- `Actions.Perform`: it goes through the corrected `Classifier.ExpenseFrom`. For "купил хлеб за 100" it records an expense of 100 on "хлеб" in Продукты and moves the balance by −100. The source records an expense of `NaN` on "100" in Прочее, which makes the balance `NaN` (financeChatService.ts:178-190).
- `Actions.TryExpenses`: the same corrected reading of `купил … за N`. The source appends the `NaN` expense on "100" in Прочее.
- `FinanceChat.FinanceChatService.ProcessFinanceAction`: for `купил … за N` it confirms the corrected expense, e.g. "…100₽ на хлеб". The source records the `NaN` expense and returns "Добавлен расход: NaN₽ на 100".
- `MessageProcessor.ProcessFinanceAction`: the same correction. The hook's source (useMessageProcessor.ts:37-53) records the `NaN` expense on "100" and confirms "NaN₽ на 100".
- `Text.ToLower`: only Latin and Cyrillic capitals are lower-cased. Other scripts and special cases such as final sigma are not modelled. Case-insensitive matching in `Regex` folds the same ranges.
- Strings are sequences of UTF-16 code units. The text handled is in the Basic Multilingual Plane, so lengths match the source's `length`.
- `Conversation.ConversationManager.GetHistory`: history entries are values here. The source's `[...history]` is a shallow copy, so its message objects are shared with the manager: setting `content` on an entry of the returned list changes the manager's history. The model does not capture that aliasing.
- `Conversation.UserContent`: the contract states the message, the action header and the action in order. The ledger summary that follows is given by `DataSummary` and not restated.
- `Conversation.ConversationManager.ClearHistory` and `AddUserMessage` require that the history starts with the system prompt. The source relies on its constructor to establish this and never breaks it.
- `FinanceChat.FinanceChatService.ClearHistory` requires the same of the finance chat's history.
- `useFinanceOperations` only forwards to the store. The hook's `operations` are the `FinanceService` itself.
- All React components and hooks other than `useMessageProcessor` are not part of this model, nor are the example snippet files. They are UI, timers or static data.
- `toLocaleString` display formatting is not modelled.

## Findings

| source | as written | input that shows it | evidently intended | confidence | as-written member | corrected member |
|---|---|---|---|---|---|---|
| src/services/financeChatService.ts:157,178-179 (and src/hooks/useMessageProcessor.ts:16,37-38) | the expense branch reads the amount from group 1 and the description from group 2 for every pattern, but the `купил (.+?) за (\d+)` pattern puts the item in group 1 and the amount in group 2 | "купил хлеб за 100" | an expense of 100 on "хлеб" (category Продукты), instead of `NaN` spent on "100" | not executed | `ClassifierExamples.BreadAsWritten` | `ClassifierExamples.BreadClassified` |
