/**
 * Recognition of finance commands in a chat message: three ordered groups
 * of case-insensitive patterns (expenses, then incomes, then
 * subscriptions), the intent the first matching pattern yields, and the
 * keyword table that assigns an expense its category.
 */
module Classifier {
  import opened Wrappers
  import opened Text
  import opened Regex
  import opened Ledger

  // ---------------------------------------------------------------- patterns

  /** `\s+` */
  const Spaces: Node := One(Rep(Space, 1, true, 0))
  /** `\s*` */
  const OptSpaces: Node := One(Rep(Space, 0, true, 0))

  function Word(t: string): Node {
    One(Lit(t))
  }

  /** `(\d+)` as group `g` */
  function Digits(g: nat): Node {
    One(Rep(Digit, 1, true, g))
  }

  /** `(.+)` as group `g` */
  function Rest(g: nat): Node {
    One(Rep(AnyButLineTerminator, 1, true, g))
  }

  /** `(.+?)` as group `g` */
  function Shortest(g: nat): Node {
    One(Rep(AnyButLineTerminator, 1, false, g))
  }

  /** `(?:рубл|₽)?`: the currency token, a word stem or the rouble sign. */
  const Currency: Node := Group([[Lit("рубл")], [Lit("₽")]], true)

  /** `(?:w\s+)?` */
  function OptWord(w: string): Node {
    Group([[Lit(w), Rep(Space, 1, true, 0)]], true)
  }

  /** `потратил\s+(\d+)\s*(?:рубл|₽)?\s*на\s+(.+)` */
  const SpentPattern: Pattern :=
    [Word("потратил"), Spaces, Digits(1), OptSpaces, Currency, OptSpaces, Word("на"), Spaces, Rest(2)]

  /** `купил\s+(.+?)\s+за\s+(\d+)\s*(?:рубл|₽)?` */
  const BoughtPattern: Pattern :=
    [Word("купил"), Spaces, Shortest(1), Spaces, Word("за"), Spaces, Digits(2), OptSpaces, Currency]

  /** `трата\s+(\d+)\s*(?:рубл|₽)?\s*(?:на\s+)?(.+)` */
  const OutlayPattern: Pattern :=
    [Word("трата"), Spaces, Digits(1), OptSpaces, Currency, OptSpaces, OptWord("на"), Rest(2)]

  /** `расход\s+(\d+)\s*(?:рубл|₽)?\s*(?:на\s+)?(.+)` */
  const ExpenseWordPattern: Pattern :=
    [Word("расход"), Spaces, Digits(1), OptSpaces, Currency, OptSpaces, OptWord("на"), Rest(2)]

  /** `(?:от\s+|за\s+)?` */
  const FromOrFor: Node := Group([[Lit("от"), Rep(Space, 1, true, 0)], [Lit("за"), Rep(Space, 1, true, 0)]], true)

  /** `заработал\s+(\d+)\s*(?:рубл|₽)?\s*(?:от\s+|за\s+)?(.+)` */
  const EarnedPattern: Pattern :=
    [Word("заработал"), Spaces, Digits(1), OptSpaces, Currency, OptSpaces, FromOrFor, Rest(2)]

  /** `получил\s+(\d+)\s*(?:рубл|₽)?\s*(?:от\s+|за\s+)?(.+)` */
  const ReceivedPattern: Pattern :=
    [Word("получил"), Spaces, Digits(1), OptSpaces, Currency, OptSpaces, FromOrFor, Rest(2)]

  /** `доход\s+(\d+)\s*(?:рубл|₽)?\s*(?:от\s+)?(.+)` */
  const IncomeWordPattern: Pattern :=
    [Word("доход"), Spaces, Digits(1), OptSpaces, Currency, OptSpaces, OptWord("от"), Rest(2)]

  /** `зарплата\s+(\d+)\s*(?:рубл|₽)?`: no second group. */
  const SalaryPattern: Pattern :=
    [Word("зарплата"), Spaces, Digits(1), OptSpaces, Currency]

  /** `[ау]` */
  const EndingAOrU: Node := Group([[Lit("а")], [Lit("у")]], false)

  /** `подписк[ау]\s+(.+?)\s+(\d+)\s*(?:рубл|₽)?\s*(?:в\s+месяц|месяц)` */
  const SubscriptionPattern: Pattern :=
    [Word("подписк"), EndingAOrU, Spaces, Shortest(1), Spaces, Digits(2), OptSpaces, Currency, OptSpaces,
     Group([[Lit("в"), Rep(Space, 1, true, 0), Lit("месяц")], [Lit("месяц")]], false)]

  /** `добавь?\s+подписк[ау]\s+(.+?)\s+(\d+)\s*(?:рубл|₽)?` */
  const AddSubscriptionPattern: Pattern :=
    [Word("добав"), Group([[Lit("ь")]], true), Spaces, Word("подписк"), EndingAOrU, Spaces,
     Shortest(1), Spaces, Digits(2), OptSpaces, Currency]

  const ExpensePatterns: seq<Pattern> := [SpentPattern, BoughtPattern, OutlayPattern, ExpenseWordPattern]
  const IncomePatterns: seq<Pattern> := [EarnedPattern, ReceivedPattern, IncomeWordPattern, SalaryPattern]
  const SubscriptionPatterns: seq<Pattern> := [SubscriptionPattern, AddSubscriptionPattern]

  /** The class each pattern's capture groups match. */
  const AmountFirst: map<nat, Class> := map[1 := Digit, 2 := AnyButLineTerminator]
  const AmountSecond: map<nat, Class> := map[1 := AnyButLineTerminator, 2 := Digit]

  lemma ExpensePatternsWellFormed()
    ensures forall i :: 0 <= i < |ExpensePatterns| && i != 1 ==> PatternOk(ExpensePatterns[i], AmountFirst)
    ensures PatternOk(BoughtPattern, AmountSecond)
  {
  }

  lemma IncomePatternsWellFormed()
    ensures forall i :: 0 <= i < |IncomePatterns| ==> PatternOk(IncomePatterns[i], AmountFirst)
  {
  }

  lemma SubscriptionPatternsWellFormed()
    ensures forall i :: 0 <= i < |SubscriptionPatterns| ==> PatternOk(SubscriptionPatterns[i], AmountSecond)
  {
  }

  // ---------------------------------------------------------------- first match

  datatype Hit = Hit(index: nat, m: Match)

  /** The first of `pats[i..]` that `s.match` accepts, with its match. */
  function FirstMatch(pats: seq<Pattern>, s: string, i: nat): (r: Option<Hit>)
    decreases |pats| - i
    ensures r.Some? ==> i <= r.value.index < |pats| && Search(pats[r.value.index], s) == Some(r.value.m)
    ensures r.Some? ==> forall j :: i <= j < r.value.index ==> Search(pats[j], s).None?
    ensures r.None? <==> forall j :: i <= j < |pats| ==> Search(pats[j], s).None?
  {
    if i >= |pats| then None
    else match Search(pats[i], s)
      case Some(m) => Some(Hit(i, m))
      case None => FirstMatch(pats, s, i + 1)
  }

  /** When pattern `k` is the first to match, it is the hit. */
  lemma FirstMatchAt(pats: seq<Pattern>, s: string, i: nat, k: nat)
    requires i <= k < |pats| && Search(pats[k], s).Some?
    requires forall j :: i <= j < k ==> Search(pats[j], s).None?
    ensures FirstMatch(pats, s, i) == Some(Hit(k, Search(pats[k], s).value))
  {
    var r := FirstMatch(pats, s, i);
    assert r.Some?;
  }

  // ---------------------------------------------------------------- categories

  /** The keyword table, searched row by row. */
  const CategoryTable: seq<(string, seq<string>)> := [
    ("Продукты", ["продукт", "еда", "магазин", "супермаркет", "овощ", "мясо", "хлеб", "молоко"]),
    ("Транспорт", ["метро", "автобус", "такси", "бензин", "парковка", "проезд"]),
    ("Развлечения", ["кино", "театр", "концерт", "игр", "развлечение"]),
    ("Здоровье", ["аптека", "врач", "лекарство", "медицина", "здоровье"]),
    ("Одежда", ["одежда", "обувь", "магазин одежды"]),
    ("Кафе", ["кафе", "ресторан", "кофе", "обед", "ужин", "завтрак"])
  ]

  const OtherCategory: string := "Прочее"

  /** `keywords.some(k => text.includes(k))` */
  predicate MentionsAny(text: string, keywords: seq<string>) {
    exists j :: 0 <= j < |keywords| && Contains(text, keywords[j])
  }

  /** The category of the first row of `CategoryTable[i..]` with a keyword in `text`. */
  function CategoryFrom(text: string, i: nat): (r: string)
    decreases |CategoryTable| - i
    ensures r == OtherCategory <==> forall k :: i <= k < |CategoryTable| ==> !MentionsAny(text, CategoryTable[k].1)
    ensures r != OtherCategory ==>
              exists k :: i <= k < |CategoryTable| && r == CategoryTable[k].0
                       && MentionsAny(text, CategoryTable[k].1)
                       && forall k' :: i <= k' < k ==> !MentionsAny(text, CategoryTable[k'].1)
  {
    if i >= |CategoryTable| then OtherCategory
    else if MentionsAny(text, CategoryTable[i].1) then CategoryTable[i].0
    else CategoryFrom(text, i + 1)
  }

  /** The category an expense description gets, compared in lower case. */
  function CategoryOf(description: string): string {
    CategoryFrom(ToLower(description), 0)
  }

  /** The first-hit table scan, as a loop. */
  method CategorizeExpense(description: string) returns (category: string)
    ensures category == CategoryOf(description)
    ensures category == OtherCategory <==> forall k :: 0 <= k < |CategoryTable| ==> !MentionsAny(ToLower(description), CategoryTable[k].1)
  {
    var desc := ToLower(description);
    var i := 0;
    while i < |CategoryTable|
      invariant 0 <= i <= |CategoryTable|
      invariant CategoryFrom(desc, 0) == CategoryFrom(desc, i)
    {
      var (name, keywords) := CategoryTable[i];
      if MentionsAny(desc, keywords) {
        return name;
      }
      i := i + 1;
    }
    return OtherCategory;
  }

  // ---------------------------------------------------------------- intents

  /** The store operation a message asks for. */
  datatype Intent =
    | AddExpense(amount: int, description: string, category: string)
    | AddIncome(amount: int, description: string)
    | AddSubscription(name: string, amount: int)

  /** `text || fallback`: an absent or empty capture is replaced. */
  function OrElse(text: Option<string>, fallback: string): string {
    if text.Some? && text.value != [] then text.value else fallback
  }

  /** The capture group holding the amount: the second for `купил … за N`, the first otherwise. */
  function ExpenseAmountGroup(i: nat): nat {
    if i == 1 then 2 else 1
  }

  /** The capture group holding the description: the first for `купил … за N`, the second otherwise. */
  function ExpenseDescriptionGroup(i: nat): nat {
    if i == 1 then 1 else 2
  }

  function ExpenseClasses(i: nat): map<nat, Class> {
    if i == 1 then AmountSecond else AmountFirst
  }

  /** The amount group of a hit is a non-empty digit string. */
  lemma AmountCaptured(pat: Pattern, classes: map<nat, Class>, g: nat, s: string, m: Match)
    requires PatternOk(pat, classes) && g > 0 && g in classes && classes[g] == Digit
    requires exists i :: 0 <= i < |pat| && TopGroup(pat[i]) == g
    requires Search(pat, s) == Some(m)
    ensures GroupText(m, s, g).Some?
    ensures var t := GroupText(m, s, g).value; t != [] && forall k :: 0 <= k < |t| ==> IsDigit(t[k])
    ensures ParseInt(GroupText(m, s, g).value).Some?
  {
    MatchSound(pat, s, m.start, classes);
    assert g in m.caps;
    var sp := m.caps[g];
    var t := s[sp.start..sp.end];
    assert forall k :: 0 <= k < |t| ==> t[k] == s[sp.start + k];
    ParseIntDigits(t);
  }

  /** A digit capture's value. */
  function AmountOf(pat: Pattern, classes: map<nat, Class>, g: nat, s: string, m: Match): (n: nat)
    requires PatternOk(pat, classes) && g > 0 && g in classes && classes[g] == Digit
    requires exists i :: 0 <= i < |pat| && TopGroup(pat[i]) == g
    requires Search(pat, s) == Some(m)
    ensures GroupText(m, s, g).Some? && ParseInt(GroupText(m, s, g).value) == Some(n)
  {
    AmountCaptured(pat, classes, g, s, m);
    ParseIntDigits(GroupText(m, s, g).value);
    DecimalValue(GroupText(m, s, g).value)
  }

  /** The expense the `i`-th expense pattern's match records. */
  function ExpenseFrom(i: nat, s: string, m: Match): (r: Intent)
    requires i < |ExpensePatterns| && Search(ExpensePatterns[i], s) == Some(m)
    ensures r.AddExpense? && Some(r.amount) == ParseInt(GroupText(m, s, ExpenseAmountGroup(i)).GetOr([]))
    ensures r.description == OrElse(GroupText(m, s, ExpenseDescriptionGroup(i)), "Разное")
    ensures r.category == CategoryOf(r.description)
  {
    ExpensePatternsWellFormed();
    var pat := ExpensePatterns[i];
    assert TopGroup(pat[if i == 1 then 6 else 2]) == ExpenseAmountGroup(i);
    var amount := AmountOf(pat, ExpenseClasses(i), ExpenseAmountGroup(i), s, m);
    var description := OrElse(GroupText(m, s, ExpenseDescriptionGroup(i)), "Разное");
    AddExpense(amount, description, CategoryOf(description))
  }

  /**
   * The amount and description the expense branch reads as written: group 1
   * through `parseInt` (`None` for `NaN`) and group 2, whichever pattern
   * matched. Only the `купил … за N` pattern lays its groups out the other
   * way round; `ExpenseFrom` reads that one as laid out.
   */
  datatype RawExpense = RawExpense(amount: Option<int>, description: string)

  function ExpenseAsWritten(s: string, m: Match): RawExpense {
    RawExpense(ParseInt(GroupText(m, s, 1).GetOr([])), OrElse(GroupText(m, s, 2), "Разное"))
  }

  /** For every expense pattern but `купил … за N` the reading as written is the one the model uses. */
  lemma AsWrittenAgrees(i: nat, s: string, m: Match)
    requires i < |ExpensePatterns| && i != 1 && Search(ExpensePatterns[i], s) == Some(m)
    ensures ExpenseAsWritten(s, m) == RawExpense(Some(ExpenseFrom(i, s, m).amount), ExpenseFrom(i, s, m).description)
  {
  }

  /** The income the `i`-th income pattern's match records. */
  function IncomeFrom(i: nat, s: string, m: Match): (r: Intent)
    requires i < |IncomePatterns| && Search(IncomePatterns[i], s) == Some(m)
    ensures r.AddIncome? && Some(r.amount) == ParseInt(GroupText(m, s, 1).GetOr([]))
    ensures GroupText(m, s, 2).Some? && GroupText(m, s, 2).value != [] ==> r.description == GroupText(m, s, 2).value
    ensures GroupText(m, s, 2).None? || GroupText(m, s, 2).value == [] ==>
      r.description == if Contains(MatchedText(m, s), "зарплата") then "зарплата" else "доход"
  {
    IncomePatternsWellFormed();
    var pat := IncomePatterns[i];
    assert TopGroup(pat[2]) == 1;
    var amount := AmountOf(pat, AmountFirst, 1, s, m);
    var fallback := if Contains(MatchedText(m, s), "зарплата") then "зарплата" else "доход";
    AddIncome(amount, OrElse(GroupText(m, s, 2), fallback))
  }

  /** The subscription the `i`-th subscription pattern's match records. */
  function SubscriptionFrom(i: nat, s: string, m: Match): (r: Intent)
    requires i < |SubscriptionPatterns| && Search(SubscriptionPatterns[i], s) == Some(m)
    ensures r.AddSubscription? && Some(r.name) == GroupText(m, s, 1)
    ensures Some(r.amount) == ParseInt(GroupText(m, s, 2).GetOr([]))
  {
    SubscriptionPatternsWellFormed();
    var pat := SubscriptionPatterns[i];
    assert TopGroup(pat[if i == 0 then 5 else 8]) == 2;
    assert TopGroup(pat[if i == 0 then 3 else 6]) == 1;
    var amount := AmountOf(pat, AmountSecond, 2, s, m);
    MatchSound(pat, s, m.start, AmountSecond);
    AddSubscription(GroupText(m, s, 1).value, amount)
  }

  /**
   * The intent of a message: the first matching expense pattern, else the
   * first matching income pattern, else the first matching subscription
   * pattern; `None` when no pattern matches.
   */
  function Classify(s: string): Option<Intent> {
    match FirstMatch(ExpensePatterns, s, 0)
    case Some(h) => Some(ExpenseFrom(h.index, s, h.m))
    case None =>
      match FirstMatch(IncomePatterns, s, 0)
      case Some(h) => Some(IncomeFrom(h.index, s, h.m))
      case None =>
        match FirstMatch(SubscriptionPatterns, s, 0)
        case Some(h) => Some(SubscriptionFrom(h.index, s, h.m))
        case None => None
  }

  /**
   * Classification follows the group order: a message is an expense exactly
   * when some expense pattern matches, an income exactly when no expense
   * pattern and some income pattern matches, and unrecognised exactly when
   * no pattern of any group matches.
   */
  lemma ClassifyOrder(s: string)
    ensures (Classify(s).Some? && Classify(s).value.AddExpense?) <==>
      exists i :: 0 <= i < |ExpensePatterns| && Search(ExpensePatterns[i], s).Some?
    ensures (Classify(s).Some? && Classify(s).value.AddIncome?) <==>
      (forall i :: 0 <= i < |ExpensePatterns| ==> Search(ExpensePatterns[i], s).None?)
      && exists i :: 0 <= i < |IncomePatterns| && Search(IncomePatterns[i], s).Some?
    ensures Classify(s).None? <==>
      (forall i :: 0 <= i < |ExpensePatterns| ==> Search(ExpensePatterns[i], s).None?)
      && (forall i :: 0 <= i < |IncomePatterns| ==> Search(IncomePatterns[i], s).None?)
      && (forall i :: 0 <= i < |SubscriptionPatterns| ==> Search(SubscriptionPatterns[i], s).None?)
  {
  }

  // ---------------------------------------------------------------- effects and replies

  const IncomeCategory: string := "Доход"
  const SubscriptionCategory: string := "Подписки"

  /** The store mutation an intent performs at time `clock.now`. */
  function Effect(intent: Intent, clock: Clock): Mutation {
    match intent
    case AddExpense(amount, description, category) =>
      Record(Transaction(clock.now, amount, category, description, clock.now, Expense))
    case AddIncome(amount, description) =>
      Record(Transaction(clock.now, amount, IncomeCategory, description, clock.now, Income))
    case AddSubscription(name, amount) =>
      Schedule(RecurringPayment(clock.now, name, amount, Monthly, clock.addMonths(clock.now, 1), SubscriptionCategory))
  }

  /** The confirmation shown once the store operation has succeeded. */
  function Confirmation(intent: Intent): string {
    match intent
    case AddExpense(amount, description, _) =>
      "Добавлен расход: " + IntToDecimal(amount) + "₽ на " + description
    case AddIncome(amount, description) =>
      "Добавлен доход: " + IntToDecimal(amount) + "₽ от " + description
    case AddSubscription(name, amount) =>
      "Добавлена подписка: " + name + " за " + IntToDecimal(amount) + "₽/месяц"
  }

  /** The message reported when the store operation throws. */
  function FailureMessage(intent: Intent): string {
    match intent
    case AddExpense(_, _, _) => "Ошибка при добавлении расхода"
    case AddIncome(_, _) => "Ошибка при добавлении дохода"
    case AddSubscription(_, _) => "Ошибка при добавлении подписки"
  }

  /**
   * Expenses and incomes change the log and the balance by the signed
   * amount and nothing else; subscriptions add one monthly payment due a
   * calendar month ahead and leave the log and the balance alone.
   */
  lemma EffectSpec(d: FinanceData, intent: Intent, clock: Clock)
    ensures var e := Step(d, Effect(intent, clock));
      && e.budgets == d.budgets
      && (intent.AddExpense? ==>
            && e.balance == d.balance - intent.amount
            && e.transactions == d.transactions + [Transaction(clock.now, intent.amount, intent.category,
                                                               intent.description, clock.now, Expense)]
            && e.recurringPayments == d.recurringPayments)
      && (intent.AddIncome? ==>
            && e.balance == d.balance + intent.amount
            && e.transactions == d.transactions + [Transaction(clock.now, intent.amount, IncomeCategory,
                                                               intent.description, clock.now, Income)]
            && e.recurringPayments == d.recurringPayments)
      && (intent.AddSubscription? ==>
            && e.balance == d.balance && e.transactions == d.transactions
            && e.recurringPayments == d.recurringPayments + [RecurringPayment(clock.now, intent.name, intent.amount,
                                                                              Monthly, clock.addMonths(clock.now, 1),
                                                                              SubscriptionCategory)])
  {
  }
}
