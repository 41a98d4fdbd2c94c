/**
 * Worked examples of message classification: the three phrases the chat
 * interface shows its users, and the `купил … за N` phrase whose groups the
 * expense branch reads the wrong way round. Each example is traced through
 * the matcher node by node, in the order the engine tries its continuations.
 */
module ClassifierExamples {
  import opened Wrappers
  import opened Text
  import opened Regex
  import opened Ledger
  import opened Classifier

  // ---------------------------------------------------------------- "Потратил 500₽ на продукты"

  /** The sample expense of the chat interface. */
  const UiExpense: string := "Потратил" + " " + "500" + "₽" + " " + "на" + " " + "продукты"

  const UiAmount: map<nat, Span> := map[1 := Span(9, 12)]
  const UiEnd: State := State(25, map[1 := Span(9, 12), 2 := Span(17, 25)])

  lemma UiStep1() ensures Leads(MatchNode(SpentPattern[1], UiExpense, State(8, map[])), State(9, map[])) {
    assert RunEnd(UiExpense, 8, Space) == 9;
  }
  lemma UiStep2() ensures Leads(MatchNode(SpentPattern[2], UiExpense, State(9, map[])), State(12, UiAmount)) {
    assert RunEnd(UiExpense, 12, Digit) == 12;
    assert RunEnd(UiExpense, 10, Digit) == 12;
    assert RunEnd(UiExpense, 9, Digit) == 12;
  }
  lemma UiStep3() ensures Leads(MatchNode(SpentPattern[3], UiExpense, State(12, UiAmount)), State(12, UiAmount)) {
    assert RunEnd(UiExpense, 12, Space) == 12;
  }
  lemma UiStep4() ensures Leads(MatchNode(SpentPattern[4], UiExpense, State(12, UiAmount)), State(13, UiAmount)) {
    assert !LitAt(UiExpense, 12, "рубл");
    assert LitAt(UiExpense, 12, "₽");
    SingleAtom(Lit("рубл"), UiExpense, State(12, UiAmount));
    SingleAtom(Lit("₽"), UiExpense, State(12, UiAmount));
  }
  lemma UiStep5() ensures Leads(MatchNode(SpentPattern[5], UiExpense, State(13, UiAmount)), State(14, UiAmount)) {
    assert RunEnd(UiExpense, 13, Space) == 14;
  }
  lemma UiStep6() ensures Leads(MatchNode(SpentPattern[6], UiExpense, State(14, UiAmount)), State(16, UiAmount)) {
    assert LitAt(UiExpense, 14, "на");
  }
  lemma UiStep7() ensures Leads(MatchNode(SpentPattern[7], UiExpense, State(16, UiAmount)), State(17, UiAmount)) {
    assert RunEnd(UiExpense, 16, Space) == 17;
  }
  lemma UiStep8() ensures Leads(MatchNode(SpentPattern[8], UiExpense, State(17, UiAmount)), UiEnd) {
    assert RunEnd(UiExpense, 25, AnyButLineTerminator) == 25;
    assert RunEnd(UiExpense, 23, AnyButLineTerminator) == 25;
    assert RunEnd(UiExpense, 21, AnyButLineTerminator) == 25;
    assert RunEnd(UiExpense, 19, AnyButLineTerminator) == 25;
    assert RunEnd(UiExpense, 17, AnyButLineTerminator) == 25;
  }

  lemma UiFrom8() ensures Leads(MatchNodes(SpentPattern, 8, UiExpense, State(17, UiAmount)), UiEnd) {
    UiStep8();
    ThroughFirst(SpentPattern, 8, UiExpense, State(17, UiAmount), UiEnd, UiEnd);
  }
  lemma UiFrom7() ensures Leads(MatchNodes(SpentPattern, 7, UiExpense, State(16, UiAmount)), UiEnd) {
    UiStep7();
    UiFrom8();
    ThroughFirst(SpentPattern, 7, UiExpense, State(16, UiAmount), State(17, UiAmount), UiEnd);
  }
  lemma UiFrom6() ensures Leads(MatchNodes(SpentPattern, 6, UiExpense, State(14, UiAmount)), UiEnd) {
    UiStep6();
    UiFrom7();
    ThroughFirst(SpentPattern, 6, UiExpense, State(14, UiAmount), State(16, UiAmount), UiEnd);
  }
  lemma UiFrom5() ensures Leads(MatchNodes(SpentPattern, 5, UiExpense, State(13, UiAmount)), UiEnd) {
    UiStep5();
    UiFrom6();
    ThroughFirst(SpentPattern, 5, UiExpense, State(13, UiAmount), State(14, UiAmount), UiEnd);
  }
  lemma UiFrom4() ensures Leads(MatchNodes(SpentPattern, 4, UiExpense, State(12, UiAmount)), UiEnd) {
    UiStep4();
    UiFrom5();
    ThroughFirst(SpentPattern, 4, UiExpense, State(12, UiAmount), State(13, UiAmount), UiEnd);
  }
  lemma UiFrom3() ensures Leads(MatchNodes(SpentPattern, 3, UiExpense, State(12, UiAmount)), UiEnd) {
    UiStep3();
    UiFrom4();
    ThroughFirst(SpentPattern, 3, UiExpense, State(12, UiAmount), State(12, UiAmount), UiEnd);
  }
  lemma UiFrom2() ensures Leads(MatchNodes(SpentPattern, 2, UiExpense, State(9, map[])), UiEnd) {
    UiStep2();
    UiFrom3();
    ThroughFirst(SpentPattern, 2, UiExpense, State(9, map[]), State(12, UiAmount), UiEnd);
  }
  lemma UiFrom1() ensures Leads(MatchNodes(SpentPattern, 1, UiExpense, State(8, map[])), UiEnd) {
    UiStep1();
    UiFrom2();
    ThroughFirst(SpentPattern, 1, UiExpense, State(8, map[]), State(9, map[]), UiEnd);
  }

  /** The first expense pattern matches the whole message from its start. */
  lemma UiExpenseMatch()
    ensures Search(SpentPattern, UiExpense) == Some(Match(0, 25, UiEnd.caps))
  {
    assert LitAt(UiExpense, 0, "потратил");
    UiFrom1();
    MatchesAfterLeadingLiteral(SpentPattern, UiExpense, UiEnd);
  }

  lemma ProductsCategory()
    ensures CategoryOf("продукты") == "Продукты"
  {
    assert ToLower("продукты") == "продукты";
    assert OccursAt("продукты", "продукт", 0);
    assert Contains("продукты", "продукт");
    assert CategoryTable[0].1[0] == "продукт";
    assert MentionsAny("продукты", CategoryTable[0].1);
  }

  lemma UiExpenseCaptures()
    ensures GroupText(Match(0, 25, UiEnd.caps), UiExpense, 1) == Some("500")
    ensures GroupText(Match(0, 25, UiEnd.caps), UiExpense, 2) == Some("продукты")
  {
    assert |UiExpense| == 25;
    assert UiExpense[9..12] == "500";
    assert UiExpense[17..25] == "продукты";
  }

  lemma Amount500()
    ensures ParseInt("500") == Some(500)
  {
    ParseIntOfDecimal(500);
    assert NatToDecimal(5) == "5" && NatToDecimal(50) == "50";
    assert NatToDecimal(500) == "500";
  }

  lemma UiExpenseIntent()
    ensures Search(SpentPattern, UiExpense) == Some(Match(0, 25, UiEnd.caps))
    ensures ExpenseFrom(0, UiExpense, Match(0, 25, UiEnd.caps)) == AddExpense(500, "продукты", "Продукты")
  {
    UiExpenseMatch();
    UiExpenseCaptures();
    Amount500();
    ProductsCategory();
  }

  /** "Потратил 500₽ на продукты" is an expense of 500 on "продукты", category Продукты. */
  lemma UiExpenseClassified()
    ensures Classify(UiExpense) == Some(AddExpense(500, "продукты", "Продукты"))
  {
    UiExpenseIntent();
    FirstMatchAt(ExpensePatterns, UiExpense, 0, 0);
  }

  // ---------------------------------------------------------------- "заработал 3000 рублей фрилансом"

  /** The sample income of the chat interface's greeting. */
  const Freelance: string := "заработал" + " " + "3000" + " " + "рублей" + " " + "фрилансом"

  const FreeAmount: map<nat, Span> := map[1 := Span(10, 14)]
  const FreeEnd: State := State(31, map[1 := Span(10, 14), 2 := Span(19, 31)])

  lemma FreeStep1() ensures Leads(MatchNode(EarnedPattern[1], Freelance, State(9, map[])), State(10, map[])) {
    assert RunEnd(Freelance, 9, Space) == 10;
  }
  lemma FreeStep2() ensures Leads(MatchNode(EarnedPattern[2], Freelance, State(10, map[])), State(14, FreeAmount)) {
    assert RunEnd(Freelance, 14, Digit) == 14;
    assert RunEnd(Freelance, 12, Digit) == 14;
    assert RunEnd(Freelance, 10, Digit) == 14;
  }
  lemma FreeStep3() ensures Leads(MatchNode(EarnedPattern[3], Freelance, State(14, FreeAmount)), State(15, FreeAmount)) {
    assert RunEnd(Freelance, 14, Space) == 15;
  }
  lemma FreeStep4() ensures Leads(MatchNode(EarnedPattern[4], Freelance, State(15, FreeAmount)), State(19, FreeAmount)) {
    assert LitAt(Freelance, 15, "рубл");
    SingleAtom(Lit("рубл"), Freelance, State(15, FreeAmount));
  }
  lemma FreeStep5() ensures Leads(MatchNode(EarnedPattern[5], Freelance, State(19, FreeAmount)), State(19, FreeAmount)) {
    assert RunEnd(Freelance, 19, Space) == 19;
  }
  lemma FreeStep6() ensures Leads(MatchNode(EarnedPattern[6], Freelance, State(19, FreeAmount)), State(19, FreeAmount)) {
    assert !LitAt(Freelance, 19, "от") && !LitAt(Freelance, 19, "за");
  }
  lemma FreeStep7() ensures Leads(MatchNode(EarnedPattern[7], Freelance, State(19, FreeAmount)), FreeEnd) {
    assert RunEnd(Freelance, 31, AnyButLineTerminator) == 31;
    assert RunEnd(Freelance, 29, AnyButLineTerminator) == 31;
    assert RunEnd(Freelance, 27, AnyButLineTerminator) == 31;
    assert RunEnd(Freelance, 25, AnyButLineTerminator) == 31;
    assert RunEnd(Freelance, 23, AnyButLineTerminator) == 31;
    assert RunEnd(Freelance, 21, AnyButLineTerminator) == 31;
    assert RunEnd(Freelance, 19, AnyButLineTerminator) == 31;
  }

  lemma FreeFrom7() ensures Leads(MatchNodes(EarnedPattern, 7, Freelance, State(19, FreeAmount)), FreeEnd) {
    FreeStep7();
    ThroughFirst(EarnedPattern, 7, Freelance, State(19, FreeAmount), FreeEnd, FreeEnd);
  }
  lemma FreeFrom6() ensures Leads(MatchNodes(EarnedPattern, 6, Freelance, State(19, FreeAmount)), FreeEnd) {
    FreeStep6();
    FreeFrom7();
    ThroughFirst(EarnedPattern, 6, Freelance, State(19, FreeAmount), State(19, FreeAmount), FreeEnd);
  }
  lemma FreeFrom5() ensures Leads(MatchNodes(EarnedPattern, 5, Freelance, State(19, FreeAmount)), FreeEnd) {
    FreeStep5();
    FreeFrom6();
    ThroughFirst(EarnedPattern, 5, Freelance, State(19, FreeAmount), State(19, FreeAmount), FreeEnd);
  }
  lemma FreeFrom4() ensures Leads(MatchNodes(EarnedPattern, 4, Freelance, State(15, FreeAmount)), FreeEnd) {
    FreeStep4();
    FreeFrom5();
    ThroughFirst(EarnedPattern, 4, Freelance, State(15, FreeAmount), State(19, FreeAmount), FreeEnd);
  }
  lemma FreeFrom3() ensures Leads(MatchNodes(EarnedPattern, 3, Freelance, State(14, FreeAmount)), FreeEnd) {
    FreeStep3();
    FreeFrom4();
    ThroughFirst(EarnedPattern, 3, Freelance, State(14, FreeAmount), State(15, FreeAmount), FreeEnd);
  }
  lemma FreeFrom2() ensures Leads(MatchNodes(EarnedPattern, 2, Freelance, State(10, map[])), FreeEnd) {
    FreeStep2();
    FreeFrom3();
    ThroughFirst(EarnedPattern, 2, Freelance, State(10, map[]), State(14, FreeAmount), FreeEnd);
  }
  lemma FreeFrom1() ensures Leads(MatchNodes(EarnedPattern, 1, Freelance, State(9, map[])), FreeEnd) {
    FreeStep1();
    FreeFrom2();
    ThroughFirst(EarnedPattern, 1, Freelance, State(9, map[]), State(10, map[]), FreeEnd);
  }

  /** The first income pattern matches the whole message; the currency stem leaves "ей" behind. */
  lemma FreelanceMatch()
    ensures Search(EarnedPattern, Freelance) == Some(Match(0, 31, FreeEnd.caps))
  {
    assert LitAt(Freelance, 0, "заработал");
    FreeFrom1();
    MatchesAfterLeadingLiteral(EarnedPattern, Freelance, FreeEnd);
  }

  /** No expense keyword occurs in the message, so no expense pattern matches. */
  lemma FreelanceNotExpense()
    ensures forall i :: 0 <= i < |ExpensePatterns| ==> Search(ExpensePatterns[i], Freelance).None?
  {
    FreeNoSpent(); FreeNoBought(); FreeNoOutlay(); FreeNoExpenseWord();
    AbsentLiteral(SpentPattern, Freelance);
    AbsentLiteral(BoughtPattern, Freelance);
    AbsentLiteral(OutlayPattern, Freelance);
    AbsentLiteral(ExpenseWordPattern, Freelance);
  }

  lemma FreelanceCaptures()
    ensures GroupText(Match(0, 31, FreeEnd.caps), Freelance, 1) == Some("3000")
    ensures GroupText(Match(0, 31, FreeEnd.caps), Freelance, 2) == Some("ей фрилансом")
  {
    assert |Freelance| == 31;
    assert Freelance[10..14] == "3000";
    assert Freelance[19..31] == "ей фрилансом";
  }

  lemma FreelanceIntent()
    ensures Search(EarnedPattern, Freelance) == Some(Match(0, 31, FreeEnd.caps))
    ensures IncomeFrom(0, Freelance, Match(0, 31, FreeEnd.caps)) == AddIncome(3000, "ей фрилансом")
  {
    FreelanceMatch();
    FreelanceCaptures();
    Amount3000();
  }

  lemma Amount3000()
    ensures ParseInt("3000") == Some(3000)
  {
    ParseIntOfDecimal(3000);
    assert NatToDecimal(30) == NatToDecimal(3) + "0" == "30";
    assert NatToDecimal(300) == NatToDecimal(30) + "0" == "300";
    assert NatToDecimal(3000) == NatToDecimal(300) + "0" == "3000";
  }

  /** "заработал 3000 рублей фрилансом" is an income of 3000 described as "ей фрилансом". */
  lemma FreelanceClassified()
    ensures Classify(Freelance) == Some(AddIncome(3000, "ей фрилансом"))
  {
    FreelanceNotExpense();
    FreelanceIntent();
    FirstMatchAt(IncomePatterns, Freelance, 0, 0);
  }

  // ---------------------------------------------------------------- "потратил 500 рублей на продукты"

  /** The sample expense of the chat interface's greeting, which no pattern accepts. */
  const Rubles: string := "потратил" + " " + "500" + " " + "рублей" + " " + "на" + " " + "продукты"

  /** The amount capture after the digit repetition stopped at `e`. */
  function RublesAmount(e: nat): map<nat, Span> {
    map[1 := Span(9, e)]
  }

  /** `на` is required right after the optional currency token and spaces; none of the positions the engine reaches has it. */
  lemma RublesNoOn(p: nat, c: map<nat, Span>)
    requires p == 10 || p == 11 || p == 12 || p == 13 || p == 17
    ensures MatchNodes(SpentPattern, 6, Rubles, State(p, c)) == []
  {
    assert !LitAt(Rubles, p, "на") by {
      if p == 10 { assert Rubles[10] == '0'; }
      else if p == 11 { assert Rubles[11] == '0'; }
      else if p == 12 { assert Rubles[12] == ' '; }
      else if p == 13 { assert Rubles[13] == 'р'; }
      else { assert Rubles[17] == 'е'; }
    }
    LitFails(SpentPattern, 6, Rubles, State(p, c));
  }

  /** After the currency token: `\s*` and then the missing `на`. */
  lemma RublesAfterCurrency(p: nat, c: map<nat, Span>)
    requires p == 10 || p == 11 || p == 12 || p == 13 || p == 17
    ensures MatchNodes(SpentPattern, 5, Rubles, State(p, c)) == []
  {
    var st := State(p, c);
    if p == 12 {
      assert RunEnd(Rubles, 12, Space) == 13;
      assert MatchNode(SpentPattern[5], Rubles, st) == [State(13, c), State(12, c)];
      RublesNoOn(13, c);
      RublesNoOn(12, c);
    } else {
      assert RunEnd(Rubles, p, Space) == p by {
        assert Rubles[10] == '0' && Rubles[11] == '0' && Rubles[13] == 'р' && Rubles[17] == 'е';
      }
      assert MatchNode(SpentPattern[5], Rubles, st) == [st];
      RublesNoOn(p, c);
    }
    AllFail(SpentPattern, 5, Rubles, st);
  }

  /** The currency token at 13: "рубл" is taken, or skipped; `на` is missing either way. */
  lemma RublesCurrencyTaken(c: map<nat, Span>)
    ensures MatchNodes(SpentPattern, 4, Rubles, State(13, c)) == []
  {
    var st := State(13, c);
    SingleAtom(Lit("рубл"), Rubles, st);
    SingleAtom(Lit("₽"), Rubles, st);
    assert Rubles[13] == 'р';
    assert LitAt(Rubles, 13, "рубл");
    assert MatchNode(SpentPattern[4], Rubles, st) == [State(17, c), st];
    RublesAfterCurrency(17, c);
    RublesAfterCurrency(13, c);
    AllFail(SpentPattern, 4, Rubles, st);
  }

  /** Before 13 there is no currency token, so it is skipped, and `на` is missing. */
  lemma RublesCurrencySkipped(p: nat, c: map<nat, Span>)
    requires p == 10 || p == 11 || p == 12
    ensures MatchNodes(SpentPattern, 4, Rubles, State(p, c)) == []
  {
    var st := State(p, c);
    SingleAtom(Lit("рубл"), Rubles, st);
    SingleAtom(Lit("₽"), Rubles, st);
    assert !LitAt(Rubles, p, "₽") && !LitAt(Rubles, p, "рубл") by {
      assert Rubles[10] == '0' && Rubles[11] == '0' && Rubles[12] == ' ';
    }
    assert MatchNode(SpentPattern[4], Rubles, st) == [st];
    RublesAfterCurrency(p, c);
    AllFail(SpentPattern, 4, Rubles, st);
  }

  /** The `\s*` after the amount when `(\d+)` took all three digits: one space, then the currency. */
  lemma RublesAfterFullAmount()
    ensures MatchNodes(SpentPattern, 3, Rubles, State(12, RublesAmount(12))) == []
  {
    var c := RublesAmount(12);
    var st := State(12, c);
    assert RunEnd(Rubles, 12, Space) == 13;
    assert MatchNode(SpentPattern[3], Rubles, st) == [State(13, c), st];
    RublesCurrencyTaken(c);
    RublesCurrencySkipped(12, c);
    AllFail(SpentPattern, 3, Rubles, st);
  }

  /** The `\s*` after the amount when `(\d+)` backtracked to fewer digits: no space follows. */
  lemma RublesAfterShortAmount(e: nat)
    requires e == 10 || e == 11
    ensures MatchNodes(SpentPattern, 3, Rubles, State(e, RublesAmount(e))) == []
  {
    var c := RublesAmount(e);
    var st := State(e, c);
    assert RunEnd(Rubles, e, Space) == e by {
      assert Rubles[10] == '0' && Rubles[11] == '0';
    }
    assert MatchNode(SpentPattern[3], Rubles, st) == [st];
    RublesCurrencySkipped(e, c);
    AllFail(SpentPattern, 3, Rubles, st);
  }

  /** `(\d+)` takes "500", then backtracks to "50" and "5". */
  lemma RublesDigits()
    ensures MatchNode(SpentPattern[2], Rubles, State(9, map[])) ==
      [State(12, RublesAmount(12)), State(11, RublesAmount(11)), State(10, RublesAmount(10))]
  {
    assert RunEnd(Rubles, 12, Digit) == 12;
    assert RunEnd(Rubles, 10, Digit) == 12;
    assert RunEnd(Rubles, 9, Digit) == 12;
  }

  /** No end of `(\d+)` leads to a match. */
  lemma RublesNoMatchAfterSpace()
    ensures MatchNodes(SpentPattern, 2, Rubles, State(9, map[])) == []
  {
    RublesDigits();
    RublesAfterFullAmount();
    RublesAfterShortAmount(11);
    RublesAfterShortAmount(10);
    AllFail(SpentPattern, 2, Rubles, State(9, map[]));
  }

  /** From its start the first expense pattern fails: every end of `(\d+)` is followed by no `на`. */
  lemma RublesNoMatchAtStart()
    ensures MatchAt(SpentPattern, Rubles, 0).None?
  {
    var P := SpentPattern;
    var s0 := State(0, map[]);
    var s8 := State(8, map[]);
    var s9 := State(9, map[]);
    assert LitAt(Rubles, 0, "потратил");
    assert MatchNode(P[0], Rubles, s0) == [s8];
    assert RunEnd(Rubles, 8, Space) == 9;
    assert MatchNode(P[1], Rubles, s8) == [s9];
    RublesNoMatchAfterSpace();
    AllFail(P, 1, Rubles, s8);
    AllFail(P, 0, Rubles, s0);
  }

  /** The first expense pattern does not match anywhere: "потратил" occurs only at the start. */
  lemma RublesNotSpent()
    ensures Search(SpentPattern, Rubles).None?
  {
    RublesNoMatchAtStart();
    RublesNoSpentAfterStart();
    SkipToLiteral(SpentPattern, Rubles, 1, |Rubles| + 1);
  }

  /**
   * "потратил 500 рублей на продукты" is not recognised: `на` must follow the
   * currency token directly, and "рубл" leaves "ей" in between.
   */
  lemma RublesUnrecognised()
    ensures Classify(Rubles).None?
  {
    RublesNotExpense();
    RublesNotIncome();
    RublesNotSubscription();
    ClassifyOrder(Rubles);
  }

  lemma RublesNotExpense()
    ensures forall i :: 0 <= i < |ExpensePatterns| ==> Search(ExpensePatterns[i], Rubles).None?
  {
    RublesNotSpent();
    RublesNoBought(); RublesNoOutlay(); RublesNoExpenseWord();
    AbsentLiteral(BoughtPattern, Rubles);
    AbsentLiteral(OutlayPattern, Rubles);
    AbsentLiteral(ExpenseWordPattern, Rubles);
  }

  lemma RublesNotIncome()
    ensures forall i :: 0 <= i < |IncomePatterns| ==> Search(IncomePatterns[i], Rubles).None?
  {
    RublesNoEarned(); RublesNoReceived(); RublesNoIncomeWord(); RublesNoSalary();
    AbsentLiteral(EarnedPattern, Rubles);
    AbsentLiteral(ReceivedPattern, Rubles);
    AbsentLiteral(IncomeWordPattern, Rubles);
    AbsentLiteral(SalaryPattern, Rubles);
  }

  lemma RublesNotSubscription()
    ensures forall i :: 0 <= i < |SubscriptionPatterns| ==> Search(SubscriptionPatterns[i], Rubles).None?
  {
    RublesNoSubscription(); RublesNoAdd();
    AbsentLiteral(SubscriptionPattern, Rubles);
    AbsentLiteral(AddSubscriptionPattern, Rubles);
  }

  // ---------------------------------------------------------------- "купил хлеб за 100"

  /** A purchase phrased for the second expense pattern. */
  const Bread: string := "купил" + " " + "хлеб" + " " + "за" + " " + "100"

  const BreadItem: map<nat, Span> := map[1 := Span(6, 10)]
  const BreadEnd: State := State(17, map[1 := Span(6, 10), 2 := Span(14, 17)])

  /** The item capture after the lazy repetition stopped at `e`. */
  function BreadItemTo(e: nat): map<nat, Span> {
    map[1 := Span(6, e)]
  }

  /** The lazy `(.+?)` stopping inside the word is not followed by `\s+`. */
  lemma BreadShortItem(e: nat)
    requires e == 7 || e == 8 || e == 9
    ensures MatchNodes(BoughtPattern, 3, Bread, State(e, BreadItemTo(e))) == []
  {
    assert RunEnd(Bread, e, Space) == e by {
      assert Bread[7] == 'л' && Bread[8] == 'е' && Bread[9] == 'б';
    }
    assert MatchNode(BoughtPattern[3], Bread, State(e, BreadItemTo(e))) == [];
  }

  /** The lazy `(.+?)` backtracks past the ends 7, 8 and 9 to 10. */
  lemma BreadSkipped()
    ensures var sts := MatchNode(BoughtPattern[2], Bread, State(6, map[]));
      && |sts| > 3 && sts[3] == State(10, BreadItem)
      && forall i :: 0 <= i < 3 ==> MatchNodes(BoughtPattern, 3, Bread, sts[i]) == []
  {
    var sts := MatchNode(BoughtPattern[2], Bread, State(6, map[]));
    BreadStep2();
    forall i | 0 <= i < 3
      ensures MatchNodes(BoughtPattern, 3, Bread, sts[i]) == []
    {
      BreadShortItem(7 + i);
    }
  }

  lemma BreadStep2()
    ensures |MatchNode(BoughtPattern[2], Bread, State(6, map[]))| > 3
    ensures var sts := MatchNode(BoughtPattern[2], Bread, State(6, map[]));
      && sts[0] == State(7, BreadItemTo(7)) && sts[1] == State(8, BreadItemTo(8))
      && sts[2] == State(9, BreadItemTo(9)) && sts[3] == State(10, BreadItem)
  {
    assert RunEnd(Bread, 17, AnyButLineTerminator) == 17;
    assert RunEnd(Bread, 15, AnyButLineTerminator) == 17;
    assert RunEnd(Bread, 13, AnyButLineTerminator) == 17;
    assert RunEnd(Bread, 11, AnyButLineTerminator) == 17;
    assert RunEnd(Bread, 9, AnyButLineTerminator) == 17;
    assert RunEnd(Bread, 7, AnyButLineTerminator) == 17;
    assert RunEnd(Bread, 6, AnyButLineTerminator) == 17;
    RepStatesLazy(State(6, map[]), 7, 17, 1);
  }
  lemma BreadStep3() ensures Leads(MatchNode(BoughtPattern[3], Bread, State(10, BreadItem)), State(11, BreadItem)) {
    assert RunEnd(Bread, 10, Space) == 11;
  }
  lemma BreadStep4() ensures Leads(MatchNode(BoughtPattern[4], Bread, State(11, BreadItem)), State(13, BreadItem)) {
    assert LitAt(Bread, 11, "за");
  }
  lemma BreadStep5() ensures Leads(MatchNode(BoughtPattern[5], Bread, State(13, BreadItem)), State(14, BreadItem)) {
    assert RunEnd(Bread, 13, Space) == 14;
  }
  lemma BreadStep6() ensures Leads(MatchNode(BoughtPattern[6], Bread, State(14, BreadItem)), BreadEnd) {
    assert RunEnd(Bread, 17, Digit) == 17;
    assert RunEnd(Bread, 15, Digit) == 17;
    assert RunEnd(Bread, 14, Digit) == 17;
  }
  lemma BreadStep7() ensures Leads(MatchNode(BoughtPattern[7], Bread, BreadEnd), BreadEnd) {
    assert RunEnd(Bread, 17, Space) == 17;
  }
  lemma BreadStep8() ensures Leads(MatchNode(BoughtPattern[8], Bread, BreadEnd), BreadEnd) {
    assert !LitAt(Bread, 17, "рубл") && !LitAt(Bread, 17, "₽");
  }

  lemma BreadStep1() ensures Leads(MatchNode(BoughtPattern[1], Bread, State(5, map[])), State(6, map[])) {
    assert RunEnd(Bread, 5, Space) == 6;
  }

  lemma BreadFrom8() ensures Leads(MatchNodes(BoughtPattern, 8, Bread, BreadEnd), BreadEnd) {
    BreadStep8();
    ThroughFirst(BoughtPattern, 8, Bread, BreadEnd, BreadEnd, BreadEnd);
  }
  lemma BreadFrom7() ensures Leads(MatchNodes(BoughtPattern, 7, Bread, BreadEnd), BreadEnd) {
    BreadStep7();
    BreadFrom8();
    ThroughFirst(BoughtPattern, 7, Bread, BreadEnd, BreadEnd, BreadEnd);
  }
  lemma BreadFrom6() ensures Leads(MatchNodes(BoughtPattern, 6, Bread, State(14, BreadItem)), BreadEnd) {
    BreadStep6();
    BreadFrom7();
    ThroughFirst(BoughtPattern, 6, Bread, State(14, BreadItem), BreadEnd, BreadEnd);
  }
  lemma BreadFrom5() ensures Leads(MatchNodes(BoughtPattern, 5, Bread, State(13, BreadItem)), BreadEnd) {
    BreadStep5();
    BreadFrom6();
    ThroughFirst(BoughtPattern, 5, Bread, State(13, BreadItem), State(14, BreadItem), BreadEnd);
  }
  lemma BreadFrom4() ensures Leads(MatchNodes(BoughtPattern, 4, Bread, State(11, BreadItem)), BreadEnd) {
    BreadStep4();
    BreadFrom5();
    ThroughFirst(BoughtPattern, 4, Bread, State(11, BreadItem), State(13, BreadItem), BreadEnd);
  }
  lemma BreadFrom3() ensures Leads(MatchNodes(BoughtPattern, 3, Bread, State(10, BreadItem)), BreadEnd) {
    BreadStep3();
    BreadFrom4();
    ThroughFirst(BoughtPattern, 3, Bread, State(10, BreadItem), State(11, BreadItem), BreadEnd);
  }
  lemma BreadFrom2() ensures Leads(MatchNodes(BoughtPattern, 2, Bread, State(6, map[])), BreadEnd) {
    BreadSkipped();
    BreadFrom3();
    ThroughAfter(BoughtPattern, 2, Bread, State(6, map[]), 3, BreadEnd);
  }
  lemma BreadFrom1() ensures Leads(MatchNodes(BoughtPattern, 1, Bread, State(5, map[])), BreadEnd) {
    BreadStep1();
    BreadFrom2();
    ThroughFirst(BoughtPattern, 1, Bread, State(5, map[]), State(6, map[]), BreadEnd);
  }

  /** The second expense pattern matches: the item is "хлеб" (group 1) and the amount "100" (group 2). */
  lemma BreadMatch()
    ensures Search(BoughtPattern, Bread) == Some(Match(0, 17, BreadEnd.caps))
  {
    assert LitAt(Bread, 0, "купил");
    BreadFrom1();
    MatchesAfterLeadingLiteral(BoughtPattern, Bread, BreadEnd);
  }

  lemma BreadCaptures()
    ensures GroupText(Match(0, 17, BreadEnd.caps), Bread, 1) == Some("хлеб")
    ensures GroupText(Match(0, 17, BreadEnd.caps), Bread, 2) == Some("100")
  {
    assert |Bread| == 17;
    assert Bread[6..10] == "хлеб";
    assert Bread[14..17] == "100";
  }

  lemma Amount100()
    ensures ParseInt("100") == Some(100)
  {
    ParseIntOfDecimal(100);
    assert NatToDecimal(1) == "1" && NatToDecimal(10) == "10";
    assert NatToDecimal(100) == "100";
  }

  lemma BreadCategory()
    ensures CategoryOf("хлеб") == "Продукты"
  {
    assert ToLower("хлеб") == "хлеб";
    assert OccursAt("хлеб", "хлеб", 0);
    assert CategoryTable[0].1[6] == "хлеб";
    assert MentionsAny("хлеб", CategoryTable[0].1);
  }

  /**
   * As written, the expense branch reads the amount from group 1 and the
   * description from group 2 for every pattern: "купил хлеб за 100" gives
   * `parseInt("хлеб")`, which is `NaN`, spent on "100".
   */
  lemma BreadAsWritten()
    ensures Search(BoughtPattern, Bread) == Some(Match(0, 17, BreadEnd.caps))
    ensures ExpenseAsWritten(Bread, Match(0, 17, BreadEnd.caps)) == RawExpense(None, "100")
  {
    BreadMatch();
    BreadCaptures();
    assert TrimStart("хлеб") == 0;
    assert "хлеб"[0..] == "хлеб";
    assert DigitRun("хлеб") == 0;
    assert ParseInt("хлеб") == None;
  }

  /** With the groups read as the pattern lays them out, the purchase is 100 spent on "хлеб", category Продукты. */
  lemma BreadClassified()
    ensures Classify(Bread) == Some(AddExpense(100, "хлеб", "Продукты"))
  {
    BreadIntent();
    BreadFirstHit();
  }

  /** The first expense pattern is absent, so the second one is the hit. */
  lemma BreadFirstHit()
    ensures FirstMatch(ExpensePatterns, Bread, 0) == Some(Hit(1, Match(0, 17, BreadEnd.caps)))
  {
    BreadMatch();
    BreadNoSpent();
    AbsentLiteral(SpentPattern, Bread);
    FirstMatchAt(ExpensePatterns, Bread, 0, 1);
  }

  lemma BreadIntent()
    ensures Search(BoughtPattern, Bread) == Some(Match(0, 17, BreadEnd.caps))
    ensures ExpenseFrom(1, Bread, Match(0, 17, BreadEnd.caps)) == AddExpense(100, "хлеб", "Продукты")
  {
    BreadMatch();
    BreadCaptures();
    Amount100();
    BreadCategory();
  }

  // ---------------------------------------------------------------- categories

  /** "магазин одежды" is filed under Продукты: the earlier row's "магазин" wins over "магазин одежды". */
  lemma ClothesShopCategory()
    ensures CategoryOf("магазин одежды") == "Продукты"
  {
    assert ToLower("магазин одежды") == "магазин одежды";
    assert OccursAt("магазин одежды", "магазин", 0);
    assert CategoryTable[0].1[2] == "магазин";
    assert MentionsAny("магазин одежды", CategoryTable[0].1);
  }

  // ---------------------------------------------------------------- keyword absence

  /** "потратил" does not occur in the income message. */
  lemma FreeNoSpent()
    ensures NoLitIn(Freelance, "потратил", 0, |Freelance| + 1)
  {
    assert NoLitIn(Freelance, "потратил", 29, 32);
    assert NoLitIn(Freelance, "потратил", 26, 32);
    assert NoLitIn(Freelance, "потратил", 23, 32);
    assert NoLitIn(Freelance, "потратил", 20, 32);
    assert NoLitIn(Freelance, "потратил", 17, 32);
    assert NoLitIn(Freelance, "потратил", 14, 32);
    assert NoLitIn(Freelance, "потратил", 11, 32);
    assert NoLitIn(Freelance, "потратил", 8, 32);
    assert NoLitIn(Freelance, "потратил", 5, 32);
    assert NoLitIn(Freelance, "потратил", 2, 32);
  }

  /** "купил" does not occur in the income message. */
  lemma FreeNoBought()
    ensures NoLitIn(Freelance, "купил", 0, |Freelance| + 1)
  {
    assert NoLitIn(Freelance, "купил", 29, 32);
    assert NoLitIn(Freelance, "купил", 26, 32);
    assert NoLitIn(Freelance, "купил", 23, 32);
    assert NoLitIn(Freelance, "купил", 20, 32);
    assert NoLitIn(Freelance, "купил", 17, 32);
    assert NoLitIn(Freelance, "купил", 14, 32);
    assert NoLitIn(Freelance, "купил", 11, 32);
    assert NoLitIn(Freelance, "купил", 8, 32);
    assert NoLitIn(Freelance, "купил", 5, 32);
    assert NoLitIn(Freelance, "купил", 2, 32);
  }

  /** "трата" does not occur in the income message. */
  lemma FreeNoOutlay()
    ensures NoLitIn(Freelance, "трата", 0, |Freelance| + 1)
  {
    assert NoLitIn(Freelance, "трата", 29, 32);
    assert NoLitIn(Freelance, "трата", 26, 32);
    assert NoLitIn(Freelance, "трата", 23, 32);
    assert NoLitIn(Freelance, "трата", 20, 32);
    assert NoLitIn(Freelance, "трата", 17, 32);
    assert NoLitIn(Freelance, "трата", 14, 32);
    assert NoLitIn(Freelance, "трата", 11, 32);
    assert NoLitIn(Freelance, "трата", 8, 32);
    assert NoLitIn(Freelance, "трата", 5, 32);
    assert NoLitIn(Freelance, "трата", 2, 32);
  }

  /** "расход" does not occur in the income message. */
  lemma FreeNoExpenseWord()
    ensures NoLitIn(Freelance, "расход", 0, |Freelance| + 1)
  {
    assert NoLitIn(Freelance, "расход", 29, 32);
    assert NoLitIn(Freelance, "расход", 26, 32);
    assert NoLitIn(Freelance, "расход", 23, 32);
    assert NoLitIn(Freelance, "расход", 20, 32);
    assert NoLitIn(Freelance, "расход", 17, 32);
    assert NoLitIn(Freelance, "расход", 14, 32);
    assert NoLitIn(Freelance, "расход", 11, 32);
    assert NoLitIn(Freelance, "расход", 8, 32);
    assert NoLitIn(Freelance, "расход", 5, 32);
    assert NoLitIn(Freelance, "расход", 2, 32);
  }

  /** "потратил" occurs only at the start of the unrecognised message. */
  lemma RublesNoSpentAfterStart()
    ensures NoLitIn(Rubles, "потратил", 1, |Rubles| + 1)
  {
    assert NoLitIn(Rubles, "потратил", 29, 32);
    assert NoLitIn(Rubles, "потратил", 26, 32);
    assert NoLitIn(Rubles, "потратил", 23, 32);
    assert NoLitIn(Rubles, "потратил", 20, 32);
    assert NoLitIn(Rubles, "потратил", 17, 32);
    assert NoLitIn(Rubles, "потратил", 14, 32);
    assert NoLitIn(Rubles, "потратил", 11, 32);
    assert NoLitIn(Rubles, "потратил", 8, 32);
    assert NoLitIn(Rubles, "потратил", 5, 32);
    assert NoLitIn(Rubles, "потратил", 2, 32);
  }

  /** "купил" does not occur in the unrecognised message. */
  lemma RublesNoBought()
    ensures NoLitIn(Rubles, "купил", 0, |Rubles| + 1)
  {
    assert NoLitIn(Rubles, "купил", 29, 32);
    assert NoLitIn(Rubles, "купил", 26, 32);
    assert NoLitIn(Rubles, "купил", 23, 32);
    assert NoLitIn(Rubles, "купил", 20, 32);
    assert NoLitIn(Rubles, "купил", 17, 32);
    assert NoLitIn(Rubles, "купил", 14, 32);
    assert NoLitIn(Rubles, "купил", 11, 32);
    assert NoLitIn(Rubles, "купил", 8, 32);
    assert NoLitIn(Rubles, "купил", 5, 32);
    assert NoLitIn(Rubles, "купил", 2, 32);
  }

  /** "трата" does not occur in the unrecognised message. */
  lemma RublesNoOutlay()
    ensures NoLitIn(Rubles, "трата", 0, |Rubles| + 1)
  {
    assert NoLitIn(Rubles, "трата", 29, 32);
    assert NoLitIn(Rubles, "трата", 26, 32);
    assert NoLitIn(Rubles, "трата", 23, 32);
    assert NoLitIn(Rubles, "трата", 20, 32);
    assert NoLitIn(Rubles, "трата", 17, 32);
    assert NoLitIn(Rubles, "трата", 14, 32);
    assert NoLitIn(Rubles, "трата", 11, 32);
    assert NoLitIn(Rubles, "трата", 8, 32);
    assert NoLitIn(Rubles, "трата", 5, 32);
    assert NoLitIn(Rubles, "трата", 2, 32);
  }

  /** "расход" does not occur in the unrecognised message. */
  lemma RublesNoExpenseWord()
    ensures NoLitIn(Rubles, "расход", 0, |Rubles| + 1)
  {
    assert NoLitIn(Rubles, "расход", 29, 32);
    assert NoLitIn(Rubles, "расход", 26, 32);
    assert NoLitIn(Rubles, "расход", 23, 32);
    assert NoLitIn(Rubles, "расход", 20, 32);
    assert NoLitIn(Rubles, "расход", 17, 32);
    assert NoLitIn(Rubles, "расход", 14, 32);
    assert NoLitIn(Rubles, "расход", 11, 32);
    assert NoLitIn(Rubles, "расход", 8, 32);
    assert NoLitIn(Rubles, "расход", 5, 32);
    assert NoLitIn(Rubles, "расход", 2, 32);
  }

  /** "заработал" does not occur in the unrecognised message. */
  lemma RublesNoEarned()
    ensures NoLitIn(Rubles, "заработал", 0, |Rubles| + 1)
  {
    assert NoLitIn(Rubles, "заработал", 29, 32);
    assert NoLitIn(Rubles, "заработал", 26, 32);
    assert NoLitIn(Rubles, "заработал", 23, 32);
    assert NoLitIn(Rubles, "заработал", 20, 32);
    assert NoLitIn(Rubles, "заработал", 17, 32);
    assert NoLitIn(Rubles, "заработал", 14, 32);
    assert NoLitIn(Rubles, "заработал", 11, 32);
    assert NoLitIn(Rubles, "заработал", 8, 32);
    assert NoLitIn(Rubles, "заработал", 5, 32);
    assert NoLitIn(Rubles, "заработал", 2, 32);
  }

  /** "получил" does not occur in the unrecognised message. */
  lemma RublesNoReceived()
    ensures NoLitIn(Rubles, "получил", 0, |Rubles| + 1)
  {
    assert NoLitIn(Rubles, "получил", 29, 32);
    assert NoLitIn(Rubles, "получил", 26, 32);
    assert NoLitIn(Rubles, "получил", 23, 32);
    assert NoLitIn(Rubles, "получил", 20, 32);
    assert NoLitIn(Rubles, "получил", 17, 32);
    assert NoLitIn(Rubles, "получил", 14, 32);
    assert NoLitIn(Rubles, "получил", 11, 32);
    assert NoLitIn(Rubles, "получил", 8, 32);
    assert NoLitIn(Rubles, "получил", 5, 32);
    assert NoLitIn(Rubles, "получил", 2, 32);
  }

  /** "доход" does not occur in the unrecognised message. */
  lemma RublesNoIncomeWord()
    ensures NoLitIn(Rubles, "доход", 0, |Rubles| + 1)
  {
    assert NoLitIn(Rubles, "доход", 29, 32);
    assert NoLitIn(Rubles, "доход", 26, 32);
    assert NoLitIn(Rubles, "доход", 23, 32);
    assert NoLitIn(Rubles, "доход", 20, 32);
    assert NoLitIn(Rubles, "доход", 17, 32);
    assert NoLitIn(Rubles, "доход", 14, 32);
    assert NoLitIn(Rubles, "доход", 11, 32);
    assert NoLitIn(Rubles, "доход", 8, 32);
    assert NoLitIn(Rubles, "доход", 5, 32);
    assert NoLitIn(Rubles, "доход", 2, 32);
  }

  /** "зарплата" does not occur in the unrecognised message. */
  lemma RublesNoSalary()
    ensures NoLitIn(Rubles, "зарплата", 0, |Rubles| + 1)
  {
    assert NoLitIn(Rubles, "зарплата", 29, 32);
    assert NoLitIn(Rubles, "зарплата", 26, 32);
    assert NoLitIn(Rubles, "зарплата", 23, 32);
    assert NoLitIn(Rubles, "зарплата", 20, 32);
    assert NoLitIn(Rubles, "зарплата", 17, 32);
    assert NoLitIn(Rubles, "зарплата", 14, 32);
    assert NoLitIn(Rubles, "зарплата", 11, 32);
    assert NoLitIn(Rubles, "зарплата", 8, 32);
    assert NoLitIn(Rubles, "зарплата", 5, 32);
    assert NoLitIn(Rubles, "зарплата", 2, 32);
  }

  /** "подписк" does not occur in the unrecognised message. */
  lemma RublesNoSubscription()
    ensures NoLitIn(Rubles, "подписк", 0, |Rubles| + 1)
  {
    assert NoLitIn(Rubles, "подписк", 29, 32);
    assert NoLitIn(Rubles, "подписк", 26, 32);
    assert NoLitIn(Rubles, "подписк", 23, 32);
    assert NoLitIn(Rubles, "подписк", 20, 32);
    assert NoLitIn(Rubles, "подписк", 17, 32);
    assert NoLitIn(Rubles, "подписк", 14, 32);
    assert NoLitIn(Rubles, "подписк", 11, 32);
    assert NoLitIn(Rubles, "подписк", 8, 32);
    assert NoLitIn(Rubles, "подписк", 5, 32);
    assert NoLitIn(Rubles, "подписк", 2, 32);
  }

  /** "добав" does not occur in the unrecognised message. */
  lemma RublesNoAdd()
    ensures NoLitIn(Rubles, "добав", 0, |Rubles| + 1)
  {
    assert NoLitIn(Rubles, "добав", 29, 32);
    assert NoLitIn(Rubles, "добав", 26, 32);
    assert NoLitIn(Rubles, "добав", 23, 32);
    assert NoLitIn(Rubles, "добав", 20, 32);
    assert NoLitIn(Rubles, "добав", 17, 32);
    assert NoLitIn(Rubles, "добав", 14, 32);
    assert NoLitIn(Rubles, "добав", 11, 32);
    assert NoLitIn(Rubles, "добав", 8, 32);
    assert NoLitIn(Rubles, "добав", 5, 32);
    assert NoLitIn(Rubles, "добав", 2, 32);
  }

  /** "потратил" does not occur in the purchase message. */
  lemma BreadNoSpent()
    ensures NoLitIn(Bread, "потратил", 0, |Bread| + 1)
  {
    assert NoLitIn(Bread, "потратил", 15, 18);
    assert NoLitIn(Bread, "потратил", 12, 18);
    assert NoLitIn(Bread, "потратил", 9, 18);
    assert NoLitIn(Bread, "потратил", 6, 18);
    assert NoLitIn(Bread, "потратил", 3, 18);
  }
}
