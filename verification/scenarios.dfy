/**
 * Concrete runs of the engine from its initial state: each method drives a
 * fresh InvestmentApp through a short sequence of handler calls and states
 * what the observable state is afterwards. The lemmas before them pin down
 * the library behaviour the runs depend on (parseInt of particular texts,
 * the rule a particular message triggers).
 */
module Scenarios {
  import opened Wrappers
  import opened Text
  import opened Market
  import opened Chat
  import opened Engine

  /** Texts typed into a quantity field. */
  const Three := "3"
  const MinusOne := "-1"
  const Letters := "abc"
  const Empty := ""

  /** The quantity-field inputs: "3" reads as 3, "-1" as -1, "abc" and "" as NaN. */
  lemma QuantityTexts()
    ensures ParseInt(Three) == Some(3)
    ensures ParseInt(MinusOne) == Some(-1)
    ensures ParseInt(Letters) == None
    ensures ParseInt(Empty) == None
  {
    ParsesThree();
    ParsesMinusOne();
    ParsesLetters();
    ParseIntOfBlank("");
  }

  lemma ParsesThree()
    ensures ParseInt("3") == Some(3)
  {
    SingleDigit("3", 3);
  }

  lemma ParsesMinusOne()
    ensures ParseInt("-1") == Some(-1)
  {
    NegatedDigit("-1", 1);
  }

  lemma ParsesLetters()
    ensures ParseInt("abc") == None
  {
    NotANumber("abc");
  }

  lemma SingleDigit(s: string, n: nat)
    requires n < 10 && s == [DigitChar(n)]
    ensures ParseInt(s) == Some(n)
  {
    assert ToDecimal(n) + [] == s;
    ParseIntOfDecimal(n, []);
  }

  lemma NegatedDigit(s: string, n: nat)
    requires n < 10 && s == ['-', DigitChar(n)]
    ensures ParseInt(s) == Some(-(n as int))
  {
    assert "-" + (ToDecimal(n) + []) == s;
    ParseIntOfDecimal(n, []);
  }

  lemma NotANumber(s: string)
    requires |s| > 0 && 'a' <= s[0] <= 'z'
    ensures ParseInt(s) == None
  {
    assert !IsJsSpace(s[0]);
    assert TrimStart(s) == s;
    ParseIntOfNonNumeric(s);
  }

  /**
   * Rule priority: a message that greets and also asks which stock to buy
   * meets the cheapest-stock condition, yet the greeting rule answers it.
   */
  lemma GreetingBeatsAdvice(s: string)
    requires s == "merhaba, hangi hisse almalıyım"
    ensures Applies(CheapestPick, ToLower(s))
    ensures MatchRule(ToLower(s)) == Greeting
  {
    LowerCaseQuestion(s);
    GreetsFirst(s);
    AsksWhichToBuy(s);
  }

  lemma LowerCaseQuestion(s: string)
    requires s == "merhaba, hangi hisse almalıyım"
    ensures ToLower(s) == s
  {
    assert forall i | 0 <= i < |s| :: !('A' <= s[i] <= 'Z');
  }

  lemma GreetsFirst(s: string)
    requires s == "merhaba, hangi hisse almalıyım"
    ensures OccursAt(s, "merhaba", 0)
  {
    assert s[..7] == "merhaba";
  }

  lemma AsksWhichToBuy(s: string)
    requires s == "merhaba, hangi hisse almalıyım"
    ensures OccursAt(s, "hangi hisse", 9) && OccursAt(s, "al", 21)
  {
    assert s[9..20] == "hangi hisse";
    assert s[21..23] == "al";
  }

  /** 1000 TL, STK1 at 100 TL, quantity 1: buying STK1 leaves 900 TL, one share, one trade, one log line. */
  method FirstPurchase() returns (balance: int, held: int, trades: int, log: seq<TradeEntry>, error: string)
    ensures balance == 90000 && held == 1 && trades == 1 && error == ""
    ensures log == [Bought(STK1, 1, 10000)]
  {
    var app := new InvestmentApp();
    app.BuyStock(STK1);
    balance, held, trades, log, error := app.balance, app.stocks[STK1], app.iterations, app.history, app.error;
  }

  /**
   * How amounts print: 100 TL as "100" in a chat reply and as "100.00" in
   * the log; 100.50 TL as "100.5" in a reply.
   */
  lemma AmountTexts()
    ensures FormatAmount(10000) == "100"
    ensures FormatAmount(10050) == "100.5"
    ensures Fixed2(10000) == "100.00"
  {
    HundredText();
    WholeAmountText(10000);
    HalfAmountText(10050);
    FixedTwoDecimals(10000, 0);
    assert [DigitChar(0)] == "0";
  }

  lemma HundredText()
    ensures ToDecimal(100) == "100"
  {
    assert ToDecimal(1) == "1";
    assert ToDecimal(10) == "10";
  }

  /** Selling a stock never bought sets the holdings error and changes no money, holding or log. */
  method SellWithoutHoldings() returns (balance: int, held: int, trades: int, error: string)
    ensures balance == 100000 && held == 0 && trades == 0
    ensures error == InsufficientHoldings(STK2)
  {
    var app := new InvestmentApp();
    app.SellStock(STK2);
    balance, held, trades, error := app.balance, app.stocks[STK2], app.iterations, app.error;
  }

  /**
   * Six buy-and-sell rounds of one STK1 use up the twelve trades; the
   * thirteenth attempt, a purchase the balance could easily pay for,
   * changes nothing.
   */
  method QuotaRunsOut() returns (balance: int, held: int, trades: int, logLength: int, error: string)
    ensures balance == 100000 && held == 0 && trades == MaxIterations && logLength == MaxIterations
    ensures error == ""
  {
    var app := new InvestmentApp();
    var round := 0;
    while round < 6
      invariant 0 <= round <= 6
      invariant app.Valid()
      invariant app.iterations == 2 * round
      invariant app.balance == 100000 && app.stocks[STK1] == 0 && app.error == ""
      invariant app.prices == map[STK1 := 10000, STK2 := 15000, STK3 := 20000, STK4 := 25000]
      invariant app.quantities == map[STK1 := 1, STK2 := 1, STK3 := 1, STK4 := 1]
    {
      app.BuyStock(STK1);
      app.SellStock(STK1);
      round := round + 1;
    }
    app.BuyStock(STK1);
    balance, held, trades, logLength, error := app.balance, app.stocks[STK1], app.iterations, |app.history|, app.error;
  }

  /** Setting the STK1 quantity to "3" reads back 3; "-1" and "abc" then keep it at 3. */
  method QuantityEdits() returns (first: int, second: int, third: int)
    ensures first == 3 && second == 3 && third == 3
  {
    QuantityTexts();
    var app := new InvestmentApp();
    app.HandleQuantityChange(STK1, Three);
    first := app.quantities[STK1];
    app.HandleQuantityChange(STK1, MinusOne);
    second := app.quantities[STK1];
    app.HandleQuantityChange(STK1, Letters);
    third := app.quantities[STK1];
  }

  /** An emptied quantity field keeps the staged quantity. */
  method BlankQuantityKept() returns (reading: int)
    ensures reading == 1
  {
    ParseIntOfBlank("");
    var app := new InvestmentApp();
    app.HandleQuantityChange(STK2, "");
    reading := app.quantities[STK2];
  }

  /** Draws for chat messages whose rule uses none. */
  const NoDraws := Draws(0.0, 0.0, [0.0, 0.0, 0.0, 0.0])

  /** A blank first message is acknowledged but leaves the engine still waiting for a name. */
  method BlankName() returns (awaiting: bool, transcript: seq<ChatMessage>)
    ensures awaiting
    ensures transcript == InitialChat + [ChatMessage(User, Plain("  ")), ChatMessage(Bot, NameAcknowledged("  "))]
  {
    var app := new InvestmentApp();
    app.HandleChat("  ", NoDraws);
    awaiting, transcript := app.AwaitingName(), app.chatHistory;
  }

  /**
   * The first message is taken as the name, with no rule tried, even when
   * it is a greeting that would otherwise get the greeting reply.
   */
  method GreetingAsName() returns (name: Option<string>, transcript: seq<ChatMessage>)
    ensures name == Some("merhaba")
    ensures transcript == InitialChat + [ChatMessage(User, Plain("merhaba")), ChatMessage(Bot, NameAcknowledged("merhaba"))]
  {
    var app := new InvestmentApp();
    TrimmedName("merhaba");
    app.HandleChat("merhaba", NoDraws);
    name, transcript := app.userName, app.chatHistory;
  }

  lemma TrimmedName(s: string)
    requires s == "merhaba"
    ensures Trim(s) == s
  {
    assert !IsJsSpace(s[0]) && !IsJsSpace(s[|s| - 1]);
    assert TrimStart(s) == s;
  }
}
