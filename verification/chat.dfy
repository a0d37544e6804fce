/**
 * The RoboAdvisor's reply rules: which rule a message triggers (first
 * match wins, in source order), what each rule answers from the current
 * prices, holdings and balance, and the text of each answer.
 */
module Chat {
  import opened Wrappers
  import opened Text
  import opened Market

  /** The reply rules, in the order the handler tries them. */
  datatype Rule = Greeting | CheapestPick | MostOwnedPick | Advice | BuyAmounts | SellAmounts | Lookup

  function Priority(r: Rule): nat {
    match r
    case Greeting => 0
    case CheapestPick => 1
    case MostOwnedPick => 2
    case Advice => 3
    case BuyAmounts => 4
    case SellAmounts => 5
    case Lookup => 6
  }

  /** The condition of each rule on the lower-cased message; the symbol lookup is the final else. */
  predicate Applies(r: Rule, lower: string) {
    match r
    case Greeting => Contains(lower, "selam") || Contains(lower, "merhaba")
    case CheapestPick => Contains(lower, "hangi hisse") && Contains(lower, "al")
    case MostOwnedPick => Contains(lower, "hangi") && Contains(lower, "sat")
    case Advice => Contains(lower, "yatırım") || Contains(lower, "öneri") || Contains(lower, "ne yapmalıyım")
    case BuyAmounts => Contains(lower, "ne kadar") && Contains(lower, "al")
    case SellAmounts => Contains(lower, "ne kadar") && Contains(lower, "sat")
    case Lookup => true
  }

  /** The if / else-if chain of the handler: the rule whose condition holds and that no earlier rule beats. */
  function MatchRule(lower: string): (r: Rule)
    ensures Applies(r, lower)
    ensures forall q: Rule :: Priority(q) < Priority(r) ==> !Applies(q, lower)
  {
    if Applies(Greeting, lower) then Greeting
    else if Applies(CheapestPick, lower) then CheapestPick
    else if Applies(MostOwnedPick, lower) then MostOwnedPick
    else if Applies(Advice, lower) then Advice
    else if Applies(BuyAmounts, lower) then BuyAmounts
    else if Applies(SellAmounts, lower) then SellAmounts
    else Lookup
  }

  /** A question about which stock to sell. */
  const SellQuestion := "hangi hisse satmalıyım"

  /**
   * Matching is plain containment without word boundaries: a question about
   * which stock to sell contains "al" (in "satmalıyım") and is answered by
   * the cheapest-stock rule, which comes before the selling rule.
   */
  lemma SellQuestionMatchesCheapestRule()
    ensures MatchRule(ToLower(SellQuestion)) == CheapestPick
  {
    SellQuestionIsLowerCase();
    SellQuestionIsNoGreeting();
    SellQuestionAsksWhichToBuy();
  }

  lemma SellQuestionIsLowerCase()
    ensures ToLower(SellQuestion) == SellQuestion
  {
    var s := SellQuestion;
    assert forall i | 0 <= i < |s| :: !('A' <= s[i] <= 'Z');
  }

  lemma SellQuestionIsNoGreeting()
    ensures !Applies(Greeting, SellQuestion)
  {
    var s := SellQuestion;
    forall i | 0 <= i <= |s| - 5 ensures !OccursAt(s, "selam", i) {
      assert s[i..i + 5][1] == s[i + 1] && s[i..i + 5][2] == s[i + 2];
    }
    forall i | 0 <= i <= |s| - 7 ensures !OccursAt(s, "merhaba", i) {
      assert s[i..i + 7][1] == s[i + 1] && s[i..i + 7][2] == s[i + 2];
    }
  }

  lemma SellQuestionAsksWhichToBuy()
    ensures Applies(CheapestPick, SellQuestion)
  {
    var s := SellQuestion;
    assert OccursAt(s, "al", 16);
    assert OccursAt(s, "hangi hisse", 0);
  }

  /** The Math.random() values one chat message may consume. */
  datatype Draws = Draws(suggestion: real, risky: real, amounts: seq<real>) {
    predicate WellFormed() {
      0.0 <= suggestion < 1.0 && 0.0 <= risky < 1.0
      && |amounts| == |StockList| && forall i :: 0 <= i < |amounts| ==> 0.0 <= amounts[i] < 1.0
    }
  }

  /** One suggested amount per symbol, in StockList order. */
  type Amounts = a: seq<int> | |a| == |StockList| witness [0, 0, 0, 0]

  /** What the bot answers, before it is put into words. */
  datatype Reply =
    | Hello
    | CheapestIs(symbol: Symbol, price: int)
    | MostOwnedIs(symbol: Symbol, owned: int)
    | Advise(buy: Symbol, sell: Symbol)
    | BuyHints(amounts: Amounts)
    | SellHints(amounts: Amounts)
    | Quote(symbol: Symbol, price: int, owned: int)
    | Unrecognised

  /** s is named in the upper-cased message and no symbol before it in StockList is. */
  predicate FirstNamed(upper: string, s: Symbol) {
    Contains(upper, Name(s)) && forall t: Symbol :: IndexOf(t) < IndexOf(s) ==> !Contains(upper, Name(t))
  }

  /** No symbol is named in the upper-cased message. */
  predicate NoneNamed(upper: string) {
    forall t: Symbol :: !Contains(upper, Name(t))
  }

  /** The first symbol, from StockList[k] on, whose name occurs in the upper-cased message. */
  function MentionedFrom(upper: string, k: nat): (r: Option<Symbol>)
    requires k <= |StockList|
    ensures r.Some? ==> k <= IndexOf(r.value) && Contains(upper, Name(r.value))
    ensures r.Some? ==> forall j :: k <= j < IndexOf(r.value) ==> !Contains(upper, Name(StockList[j]))
    ensures r.None? ==> forall j :: k <= j < |StockList| ==> !Contains(upper, Name(StockList[j]))
    decreases |StockList| - k
  {
    if k == |StockList| then None
    else if Contains(upper, Name(StockList[k])) then Some(StockList[k])
    else MentionedFrom(upper, k + 1)
  }

  function FirstMentioned(upper: string): Option<Symbol> {
    MentionedFrom(upper, 0)
  }

  /** The per-symbol buy suggestions, in StockList order (the stockList.map of the handler). */
  function BuyHintList(balance: int, prices: map<Symbol, int>, rs: seq<real>): (a: seq<int>)
    requires IsTotal(prices) && (forall s: Symbol :: prices[s] > 0) && |rs| == |StockList|
    requires forall i :: 0 <= i < |rs| ==> 0.0 <= rs[i] < 1.0
    ensures |a| == |StockList| && forall i :: 0 <= i < |a| ==> 1 <= a[i] <= 10
    ensures forall i :: 0 <= i < |a| && balance / prices[StockList[i]] >= 1 ==> a[i] <= balance / prices[StockList[i]]
  {
    forall i | 0 <= i < |StockList| && balance / prices[StockList[i]] >= 1
      ensures BuyAmount(balance, prices[StockList[i]], rs[i]) <= balance / prices[StockList[i]]
    {
      BuyAmountAffordable(balance, prices[StockList[i]], rs[i]);
    }
    seq(|StockList|, i requires 0 <= i < |StockList| => BuyAmount(balance, prices[StockList[i]], rs[i]))
  }

  /** The per-symbol sell suggestions, in StockList order. */
  function SellHintList(stocks: map<Symbol, int>, rs: seq<real>): (a: seq<int>)
    requires IsTotal(stocks) && |rs| == |StockList|
    ensures |a| == |StockList|
    ensures forall i :: 0 <= i < |a| && stocks[StockList[i]] >= 0 ==> 0 <= a[i] <= stocks[StockList[i]]
    ensures forall i :: 0 <= i < |a| && stocks[StockList[i]] >= 1 ==> 1 <= a[i]
  {
    seq(|StockList|, i requires 0 <= i < |StockList| => SellAmount(stocks[StockList[i]], rs[i]))
  }

  /**
   * The reply to a message once the user is named and the message is not
   * blank. Each kind of reply comes from the rule that matched, and says what
   * that rule promises.
   */
  function Respond(input: string, balance: int, prices: map<Symbol, int>, stocks: map<Symbol, int>, draws: Draws): (r: Reply)
    requires IsTotal(prices) && IsTotal(stocks) && forall s: Symbol :: prices[s] > 0
    requires draws.WellFormed()
    ensures r.Hello? <==> MatchRule(ToLower(input)) == Greeting
    ensures r.CheapestIs? ==>
      MatchRule(ToLower(input)) == CheapestPick && r.price == prices[r.symbol] && FirstLowest(prices, r.symbol)
    ensures r.MostOwnedIs? ==>
      MatchRule(ToLower(input)) == MostOwnedPick && r.owned == stocks[r.symbol] && FirstHighest(stocks, r.symbol)
    ensures r.Advise? ==>
      && MatchRule(ToLower(input)) == Advice
      && IndexOf(r.buy) as real <= draws.suggestion * 4.0 < IndexOf(r.buy) as real + 1.0
      && IndexOf(r.sell) as real <= draws.risky * 4.0 < IndexOf(r.sell) as real + 1.0
    ensures r.BuyHints? ==>
      && MatchRule(ToLower(input)) == BuyAmounts
      && |r.amounts| == |StockList|
      && (forall i :: 0 <= i < |StockList| ==> 1 <= r.amounts[i] <= 10)
      && (forall i :: 0 <= i < |StockList| && balance / prices[StockList[i]] >= 1 ==>
            r.amounts[i] <= balance / prices[StockList[i]])
    ensures r.SellHints? ==>
      && MatchRule(ToLower(input)) == SellAmounts
      && |r.amounts| == |StockList|
      && (forall i :: 0 <= i < |StockList| && stocks[StockList[i]] >= 0 ==> 0 <= r.amounts[i] <= stocks[StockList[i]])
      && (forall i :: 0 <= i < |StockList| && stocks[StockList[i]] >= 1 ==> 1 <= r.amounts[i])
    ensures r.Quote? ==>
      && MatchRule(ToLower(input)) == Lookup
      && r.price == prices[r.symbol] && r.owned == stocks[r.symbol]
      && FirstNamed(ToUpper(input), r.symbol)
    ensures r.Unrecognised? <==> MatchRule(ToLower(input)) == Lookup && NoneNamed(ToUpper(input))
  {
    var lower := ToLower(input);
    match MatchRule(lower)
    case Greeting => Hello
    case CheapestPick =>
      var s := Cheapest(prices);
      CheapestIs(s, prices[s])
    case MostOwnedPick =>
      var s := MostOwned(stocks);
      MostOwnedIs(s, stocks[s])
    case Advice => Advise(Pick(draws.suggestion), Pick(draws.risky))
    case BuyAmounts => BuyHints(BuyHintList(balance, prices, draws.amounts))
    case SellAmounts => SellHints(SellHintList(stocks, draws.amounts))
    case Lookup => LookupReply(ToUpper(input), prices, stocks)
  }

  /** The final else of the handler: a quote for the first symbol the upper-cased message names, if any. */
  function LookupReply(upper: string, prices: map<Symbol, int>, stocks: map<Symbol, int>): (r: Reply)
    requires IsTotal(prices) && IsTotal(stocks)
    ensures r.Quote? || r.Unrecognised?
    ensures r.Quote? ==> r.price == prices[r.symbol] && r.owned == stocks[r.symbol] && FirstNamed(upper, r.symbol)
    ensures r.Unrecognised? <==> NoneNamed(upper)
  {
    match FirstMentioned(upper)
    case Some(s) =>
      assert forall t: Symbol :: IndexOf(t) < IndexOf(s) ==> !Contains(upper, Name(StockList[IndexOf(t)]));
      Quote(s, prices[s], stocks[s])
    case None =>
      assert forall t: Symbol :: !Contains(upper, Name(StockList[IndexOf(t)]));
      Unrecognised
  }

  // ---------------------------------------------------------------------
  // The text of the bot's messages
  // ---------------------------------------------------------------------

  const FallbackText := "Lütfen geçerli bir hisse senedi adı yazın veya ne yapmak istediğinizi belirtin."

  /** The acknowledgement of a captured name; it quotes the message as typed, untrimmed. */
  function NameAck(input: string): string {
    "Memnun oldum " + input + "! Artık yatırım tavsiyesi verebilirim."
  }

  /** "STK1: 3 adet | STK2: 1 adet | ...": one line per symbol from StockList[k] on, joined with " | ". */
  function HintText(amounts: seq<int>, k: nat): string
    requires |amounts| == |StockList| && k < |StockList|
    decreases |StockList| - k
  {
    var item := Name(StockList[k]) + ": " + IntToString(amounts[k]) + " adet";
    if k + 1 == |StockList| then item else item + " | " + HintText(amounts, k + 1)
  }

  function Render(r: Reply): string {
    match r
    case Hello => "Merhaba! Sana nasıl yardımcı olabilirim?"
    case CheapestIs(s, p) => "Şu anda en uygun fiyatlı hisse: " + Name(s) + " (" + FormatAmount(p) + " TL)"
    case MostOwnedIs(s, n) => "Elinizde en çok olan hisse: " + Name(s) + " (" + IntToString(n) + " adet)"
    case Advise(b, s) =>
      "Şu an " + Name(b) + " hissesi çok cazip, bunu alabilirsin. Ancak " + Name(s)
      + " hissesi piyasadaki dalgalanmalardan olumsuz etkileniyor, bunu satmanı tavsiye ederim."
    case BuyHints(a) =>
      "Şu an alabileceğin tahmini miktarlar:\n" + HintText(a, 0)
    case SellHints(a) =>
      "Elindeki hisselerden satabileceğin tahmini miktarlar:\n" + HintText(a, 0)
    case Quote(s, p, n) =>
      Name(s) + " fiyatı şu anda " + FormatAmount(p) + " TL. Elinizde " + IntToString(n) + " adet var."
    case Unrecognised => FallbackText
  }
}
