/**
 * The state of the investment component and its handlers. Each React state
 * variable is a field of InvestmentApp; each handler is a method that runs
 * to completion on the state it reads (React's batching and closures are
 * not modelled). Money is in kuruş and every Math.random() value is a
 * parameter.
 */
module Engine {
  import opened Wrappers
  import opened Text
  import opened Market
  import opened Chat

  /** The cap on executed trades. */
  const MaxIterations := 12

  datatype Sender = User | Bot

  /** What a transcript line says, before it is put into words. */
  datatype Content =
    | Plain(text: string)                   // a message as typed, or a fixed bot line
    | NameAcknowledged(input: string)       // the answer to the name-giving message
    | Answer(prefix: string, reply: Reply)  // a rule's reply, after the "name, " prefix

  datatype ChatMessage = ChatMessage(sender: Sender, content: Content)

  /** The text the transcript shows for a line. */
  function MessageText(c: Content): string {
    match c
    case Plain(text) => text
    case NameAcknowledged(input) => NameAck(input)
    case Answer(prefix, reply) => prefix + Render(reply)
  }

  const InitialChat: seq<ChatMessage> := [
    ChatMessage(Bot, Plain("Merhaba! Ben RoboAdvisor. Nasılsın? Sana nasıl yardımcı olabilirim?")),
    ChatMessage(Bot, Plain("Hangi hisse senediyle ilgileniyorsun veya tavsiye mi istiyorsun?"))
  ]

  const InsufficientBalance := "Yetersiz bakiye."

  function InsufficientHoldings(s: Symbol): string {
    Name(s) + " hissesinden elinizde yeterli miktarda yok."
  }

  /** An executed trade, as the transaction log records it. */
  datatype TradeEntry =
    | Bought(symbol: Symbol, quantity: int, total: int)
    | Sold(symbol: Symbol, quantity: int, total: int)

  /** The text of a log line; the total is printed with toFixed(2). */
  function EntryText(e: TradeEntry): string {
    match e
    case Bought(s, quantity, total) =>
      "\U{1F7E2} " + Name(s) + " hissesi alındı (" + IntToString(quantity) + " adet, toplam " + Fixed2(total) + " TL)"
    case Sold(s, quantity, total) =>
      "\U{1F534} " + Name(s) + " hissesi satıldı (" + IntToString(quantity) + " adet, toplam " + Fixed2(total) + " TL)"
  }

  class InvestmentApp {
    var userName: Option<string>
    var balance: int                    // kuruş
    var stocks: map<Symbol, int>        // holdings
    var prices: map<Symbol, int>        // kuruş
    var iterations: int                 // executed trades
    var chatHistory: seq<ChatMessage>
    var history: seq<TradeEntry>        // trade log, newest last
    var quantities: map<Symbol, int>    // staged order sizes
    var error: string

    /**
     * What holds from the initial state on, over any sequence of handler
     * calls: the trade counter stays within the cap and counts the log,
     * money and holdings never go negative, every price is at least 1 TL,
     * and staged quantities are never negative.
     */
    ghost predicate Valid()
      reads this`balance, this`stocks, this`prices, this`iterations, this`history, this`quantities
    {
      && IsTotal(stocks) && IsTotal(prices) && IsTotal(quantities)
      && 0 <= iterations <= MaxIterations
      && |history| == iterations
      && balance >= 0
      && (forall s: Symbol :: stocks[s] >= 0)
      && (forall s: Symbol :: prices[s] >= MinPrice)
      && (forall s: Symbol :: quantities[s] >= 0)
    }

    /** `!userName`: no name yet, or an empty one. */
    predicate AwaitingName()
      reads this
    {
      userName.None? || userName.value == ""
    }

    constructor ()
      ensures Valid()
      ensures userName == None && balance == 100000 && iterations == 0
      ensures stocks == map[STK1 := 0, STK2 := 0, STK3 := 0, STK4 := 0]
      ensures prices == map[STK1 := 10000, STK2 := 15000, STK3 := 20000, STK4 := 25000]
      ensures quantities == map[STK1 := 1, STK2 := 1, STK3 := 1, STK4 := 1]
      ensures chatHistory == InitialChat && history == [] && error == ""
    {
      userName := None;
      balance := 100000;
      stocks := map[STK1 := 0, STK2 := 0, STK3 := 0, STK4 := 0];
      prices := map[STK1 := 10000, STK2 := 15000, STK3 := 20000, STK4 := 25000];
      iterations := 0;
      chatHistory := InitialChat;
      history := [];
      quantities := map[STK1 := 1, STK2 := 1, STK3 := 1, STK4 := 1];
      error := "";
      new;
      forall s: Symbol ensures s in stocks && s in prices && s in quantities {
        match s
        case STK1 =>
        case STK2 =>
        case STK3 =>
        case STK4 =>
      }
    }

    /**
     * buyStock: with the quota not used up and a positive staged quantity,
     * either the purchase goes through (balance down by exactly price ×
     * quantity, holding up by quantity, one more trade, one log line, error
     * cleared) or, short of money, only the error is set. Otherwise nothing
     * changes at all, not even the error.
     */
    method BuyStock(symbol: Symbol)
      requires Valid()
      modifies this`balance, this`stocks, this`iterations, this`history, this`error
      ensures Valid()
      ensures old(iterations) >= MaxIterations || quantities[symbol] <= 0 ==> unchanged(this)
      ensures old(iterations) < MaxIterations && quantities[symbol] > 0
              && old(balance) >= prices[symbol] * quantities[symbol] ==>
                && balance == old(balance) - prices[symbol] * quantities[symbol]
                && stocks == old(stocks)[symbol := old(stocks)[symbol] + quantities[symbol]]
                && iterations == old(iterations) + 1
                && history == old(history)
                              + [Bought(symbol, quantities[symbol], prices[symbol] * quantities[symbol])]
                && error == ""
      ensures old(iterations) < MaxIterations && quantities[symbol] > 0
              && old(balance) < prices[symbol] * quantities[symbol] ==>
                && balance == old(balance) && stocks == old(stocks)
                && iterations == old(iterations) && history == old(history)
                && error == InsufficientBalance
    {
      var quantity := quantities[symbol];
      var totalCost := prices[symbol] * quantity;
      if iterations >= MaxIterations || quantity <= 0 {
        return;
      }
      if balance >= totalCost {
        balance := Max(0, balance - totalCost);
        stocks := stocks[symbol := stocks[symbol] + quantity];
        iterations := iterations + 1;
        history := history + [Bought(symbol, quantity, totalCost)];
        error := "";
      } else {
        error := InsufficientBalance;
      }
    }

    /**
     * sellStock: the mirror of BuyStock. A sale needs the holding to cover
     * the staged quantity; it raises the balance by price × quantity. Short
     * of shares, only the error is set, naming the symbol.
     */
    method SellStock(symbol: Symbol)
      requires Valid()
      modifies this`balance, this`stocks, this`iterations, this`history, this`error
      ensures Valid()
      ensures old(iterations) >= MaxIterations || quantities[symbol] <= 0 ==> unchanged(this)
      ensures old(iterations) < MaxIterations && quantities[symbol] > 0
              && old(stocks)[symbol] >= quantities[symbol] ==>
                && balance == old(balance) + prices[symbol] * quantities[symbol]
                && stocks == old(stocks)[symbol := old(stocks)[symbol] - quantities[symbol]]
                && iterations == old(iterations) + 1
                && history == old(history)
                              + [Sold(symbol, quantities[symbol], prices[symbol] * quantities[symbol])]
                && error == ""
      ensures old(iterations) < MaxIterations && quantities[symbol] > 0
              && old(stocks)[symbol] < quantities[symbol] ==>
                && balance == old(balance) && stocks == old(stocks)
                && iterations == old(iterations) && history == old(history)
                && error == InsufficientHoldings(symbol)
    {
      var quantity := quantities[symbol];
      var totalGain := prices[symbol] * quantity;
      if iterations >= MaxIterations || quantity <= 0 {
        return;
      }
      if stocks[symbol] >= quantity {
        assert totalGain >= 0 by { assert prices[symbol] >= MinPrice; }
        balance := balance + totalGain;
        stocks := stocks[symbol := stocks[symbol] - quantity];
        iterations := iterations + 1;
        history := history + [Sold(symbol, quantity, totalGain)];
        error := "";
      } else {
        error := InsufficientHoldings(symbol);
      }
    }

    /**
     * handleQuantityChange: the staged quantity of the symbol becomes
     * parseInt(value) when that is a number >= 0; otherwise (NaN or
     * negative) the call is silently ignored. Nothing else changes.
     */
    method HandleQuantityChange(symbol: Symbol, value: string)
      requires Valid()
      modifies this`quantities
      ensures Valid()
      ensures ParseInt(value).Some? && ParseInt(value).value >= 0 ==>
                quantities == old(quantities)[symbol := ParseInt(value).value]
      ensures !(ParseInt(value).Some? && ParseInt(value).value >= 0) ==> quantities == old(quantities)
    {
      var num := ParseInt(value);
      if num.Some? && num.value >= 0 {
        Stage(symbol, num.value);
      }
    }

    /** The setQuantities call of handleQuantityChange, for a number it accepted. */
    method Stage(symbol: Symbol, quantity: int)
      requires Valid() && quantity >= 0
      modifies this`quantities
      ensures Valid()
      ensures quantities == old(quantities)[symbol := quantity]
    {
      quantities := quantities[symbol := quantity];
    }

    /**
     * One firing of the price interval: every symbol, in StockList order,
     * gets its own drawn change and is floored at 1 TL; nothing else
     * changes. Each price moves by at most 10 TL.
     */
    method Tick(draws: seq<real>)
      requires Valid()
      requires |draws| == |StockList| && forall i :: 0 <= i < |draws| ==> 0.0 <= draws[i] < 1.0
      modifies this`prices
      ensures Valid()
      ensures forall s: Symbol :: prices[s] == Drift(old(prices)[s], DeltaCents(draws[IndexOf(s)]))
      ensures forall s: Symbol :: prices[s] >= MinPrice && Abs(prices[s] - old(prices)[s]) <= 1000
    {
      var newPrices := prices;
      var i := 0;
      while i < |StockList|
        invariant 0 <= i <= |StockList|
        invariant IsTotal(newPrices)
        invariant forall j :: 0 <= j < i ==>
                    newPrices[StockList[j]] == Drift(prices[StockList[j]], DeltaCents(draws[j]))
        invariant forall j :: i <= j < |StockList| ==> newPrices[StockList[j]] == prices[StockList[j]]
      {
        var symbol := StockList[i];
        var change := DeltaCents(draws[i]);
        newPrices := newPrices[symbol := Drift(newPrices[symbol], change)];
        i := i + 1;
      }
      forall s: Symbol
        ensures newPrices[s] == Drift(prices[s], DeltaCents(draws[IndexOf(s)])) && newPrices[s] >= MinPrice
      {
        assert StockList[IndexOf(s)] == s;
      }
      prices := newPrices;
    }

    /**
     * The botResponse of handleChat: the reply of the first rule that matches
     * the message, the symbol rule scanning StockList and stopping at the
     * first symbol named in the upper-cased message.
     */
    method BotResponse(input: string, draws: Draws) returns (reply: Reply)
      requires Valid() && draws.WellFormed()
      ensures reply == Respond(input, balance, prices, stocks, draws)
    {
      var lower := ToLower(input);
      reply := Unrecognised;
      match MatchRule(lower)
      case Greeting =>
        reply := Hello;
      case CheapestPick =>
        var cheapest := Cheapest(prices);
        reply := CheapestIs(cheapest, prices[cheapest]);
      case MostOwnedPick =>
        var mostOwned := MostOwned(stocks);
        reply := MostOwnedIs(mostOwned, stocks[mostOwned]);
      case Advice =>
        var suggestion := Pick(draws.suggestion);
        var risky := Pick(draws.risky);
        reply := Advise(suggestion, risky);
      case BuyAmounts =>
        reply := BuyHints(BuyHintList(balance, prices, draws.amounts));
      case SellAmounts =>
        reply := SellHints(SellHintList(stocks, draws.amounts));
      case Lookup =>
        var upper := ToUpper(input);
        var i := 0;
        while i < |StockList|
          invariant 0 <= i <= |StockList|
          invariant reply == Unrecognised
          invariant FirstMentioned(upper) == MentionedFrom(upper, i)
        {
          var symbol := StockList[i];
          if Contains(upper, Name(symbol)) {
            reply := Quote(symbol, prices[symbol], stocks[symbol]);
            break;
          }
          i := i + 1;
        }
    }

    /**
     * The name-capture branch of handleChat: the trimmed message becomes the
     * name and the transcript gets the message and an acknowledgement.
     */
    method CaptureName(input: string)
      requires Valid()
      modifies this`userName, this`chatHistory
      ensures Valid()
      ensures userName == Some(Trim(input))
      ensures chatHistory == old(chatHistory) + [ChatMessage(User, Plain(input)), ChatMessage(Bot, NameAcknowledged(input))]
      ensures AwaitingName() <==> IsBlank(input)
    {
      userName := Some(Trim(input));
      chatHistory := chatHistory + [ChatMessage(User, Plain(input)), ChatMessage(Bot, NameAcknowledged(input))];
    }

    /**
     * The conversing branch of handleChat: the message and the reply of the
     * first matching rule, prefixed with the name and a comma.
     */
    method Converse(input: string, draws: Draws)
      requires Valid() && draws.WellFormed() && !AwaitingName()
      modifies this`chatHistory
      ensures Valid()
      ensures chatHistory == old(chatHistory)
                + [ChatMessage(User, Plain(input)),
                   ChatMessage(Bot, Answer(userName.value + ", ", Respond(input, balance, prices, stocks, draws)))]
    {
      var reply := BotResponse(input, draws);
      var prefix := if !AwaitingName() then userName.value + ", " else "";
      chatHistory := chatHistory + [ChatMessage(User, Plain(input)), ChatMessage(Bot, Answer(prefix, reply))];
    }

    /**
     * handleChat on the message text. With no name yet, the trimmed message
     * becomes the name and the transcript gets the message and an
     * acknowledgement, with no rule tried (so a blank name leaves the engine
     * still waiting for one). Once named, a blank message changes nothing;
     * any other gets the message and the reply of the first matching rule,
     * prefixed with the name and a comma.
     */
    method HandleChat(input: string, draws: Draws)
      requires Valid() && draws.WellFormed()
      modifies this`userName, this`chatHistory
      ensures Valid()
      ensures old(AwaitingName()) ==>
                && userName == Some(Trim(input))
                && chatHistory == old(chatHistory) + [ChatMessage(User, Plain(input)), ChatMessage(Bot, NameAcknowledged(input))]
                && (AwaitingName() <==> IsBlank(input))
      ensures !old(AwaitingName()) ==> userName == old(userName)
      ensures !old(AwaitingName()) && IsBlank(input) ==> chatHistory == old(chatHistory)
      ensures !old(AwaitingName()) && !IsBlank(input) ==>
                chatHistory == old(chatHistory)
                  + [ChatMessage(User, Plain(input)),
                     ChatMessage(Bot, Answer(old(userName).value + ", ", Respond(input, balance, prices, stocks, draws)))]
    {
      if AwaitingName() {
        CaptureName(input);
        return;
      }
      if Trim(input) == "" {
        return;
      }
      Converse(input, draws);
    }
  }
}
