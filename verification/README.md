# Investment simulator: trading and chat state engine

A Dafny model of the state engine inside the `InvestmentApp` React component
(`YatirimWebUygulamasi.tsx`). The simulator has a cash balance, four stocks
(STK1–STK4), a staged order quantity per stock and a cap of twelve trades.
Prices drift on a timer. A rule-based "RoboAdvisor" chat first asks for the
user's name and then answers questions from the current prices, holdings and
balance.

The model has six modules:

- `Wrappers`: the `Option` type.
- `Text`: the JavaScript string and number operations the engine relies on:
  - `trim` and `includes`;
  - ASCII `toLowerCase` and `toUpperCase`;
  - `parseInt` with its default radix, following ECMAScript: white space is
    skipped, a sign is optional, `0x` switches to radix 16, the longest digit
    prefix is read, and `None` stands for NaN;
  - the decimal and `toFixed(2)` texts.
- `Market`: the stocks, the per-symbol maps and the arithmetic of the
  handlers:
  - the price drift and its floor of 1 TL;
  - the first-cheapest and first-most-held picks made by a stable sort;
  - the random buy and sell suggestions.
- `Chat`: the reply rules in their priority order, the reply each rule
  computes, and the text of each reply.
- `Engine`: the class `InvestmentApp`. Its fields are the component's React
  state and its methods are the handlers `buyStock`, `sellStock`,
  `handleQuantityChange`, `handleChat` and one firing of the price interval.
  `Valid()` is the invariant every handler keeps, so it holds after any
  sequence of calls:
  - the trade counter stays within 12 and equals the length of the log;
  - the balance and the holdings are never negative;
  - every price is at least 1 TL;
  - staged quantities are never negative.
- `Scenarios`: concrete runs from the initial state, each a method that
  drives a fresh `InvestmentApp` and states the state that results.

Representation choices:

- **Money:** amounts are integer kuruş (1 TL = 100 kuruş). Prices with two
  decimals, costs and gains are therefore exact.
- **Randomness:** every `Math.random()` value is a `real` parameter in [0, 1).
  `Math.floor(r * n)` becomes `Scaled(r, n)`.
- **Trade log:** an entry is kept as a `TradeEntry` value (direction, symbol,
  quantity, total). `EntryText` gives the line the component stores.
- **Chat transcript:** a line is kept as a `Content` value (plain text, name
  acknowledgement, or a rule's reply after the name prefix). `MessageText`
  gives the text the component stores.

Behaviour of the code a reader might not expect:

- The name is stored trimmed (line 74).
- An empty or all-blank name leaves the engine waiting for a name, because
  `!userName` holds for `""`. The next message is then taken as the name
  again.
- The sell suggestion for a stock that is not held is 0, because of
  `Math.min(…, owned)` (line 105).
- Rule conditions are plain substring tests. So "hangi hisse satmalıyım"
  ("which stock should I sell") contains "al" and is answered with the
  cheapest stock (lines 85-88, `Chat.SellQuestionMatchesCheapestRule`).

## Model

| member | source | states |
|---|---|---|
| Text.Trim | YatirimWebUygulamasi.tsx:74 | the trimmed name is empty exactly when the message is all white space; otherwise it starts and ends with a non-space character and is no longer than the message |
| Text.TrimIsSlice | YatirimWebUygulamasi.tsx:74 | the trimmed name is the message with a blank prefix and a blank suffix cut off, and nothing else changed |
| Text.Contains | YatirimWebUygulamasi.tsx:83 | no contract; String.prototype.includes as plain substring containment at some index, with no word boundaries |
| Text.ToLower | YatirimWebUygulamasi.tsx:80 | same length, each character mapped by the ASCII lower-case map, and text with no capital letter is left as it is |
| Text.ToUpper | YatirimWebUygulamasi.tsx:112 | same length, each character mapped by the ASCII upper-case map |
| Text.ParseInt | YatirimWebUygulamasi.tsx:124 | no contract; ECMAScript parseInt with the default radix (white space skipped, optional sign, `0x` for radix 16, longest digit prefix, `None` for NaN), characterised by ParseIntOfDecimal, ParseIntOfBlank and ParseIntOfNonNumeric |
| Text.ParseIntOfDecimal | YatirimWebUygulamasi.tsx:124 | parseInt reads back the decimal text of every n, and -n after a minus sign, whatever non-digit text follows, except an 'x' or 'X' after the text "0" (which starts radix 16) |
| Text.ParseIntOfBlank | YatirimWebUygulamasi.tsx:124 | parseInt of empty or all-white-space text is NaN |
| Text.ParseIntOfNonNumeric | YatirimWebUygulamasi.tsx:124 | parseInt is NaN when the first non-blank character is neither a sign nor a digit |
| Text.IntToString | YatirimWebUygulamasi.tsx:90 | no contract; the template-literal text of an integer (a minus sign, then the decimal digits of ToDecimal), as in the holdings, quantities and hint counts of lines 50, 65, 90, 99 and 113 |
| Text.FormatAmount | YatirimWebUygulamasi.tsx:87 | no contract; Number toString of a kuruş amount as in the prices of lines 87 and 113, characterised by WholeAmountText, HalfAmountText and Scenarios.AmountTexts |
| Text.Fixed2 | YatirimWebUygulamasi.tsx:50 | no contract; `toFixed(2)` of a kuruş amount as in the totals of lines 50 and 65, characterised by FixedTwoDecimals and Scenarios.AmountTexts |
| Market.Scaled | YatirimWebUygulamasi.tsx:92-93 | no contract; `Math.floor(r * n)` as at lines 92-93, 98 and 105, characterised by ScaledBelow and ScaledAtMostZero |
| Market.DeltaCents | YatirimWebUygulamasi.tsx:34 | the change `(r * 20 - 10).toFixed(2)`, in kuruş, lies within ±10 TL for every draw in [0, 1) |
| Market.Drift | YatirimWebUygulamasi.tsx:35 | the new price is old + change whenever that reaches 1 TL, and exactly 1 TL when it falls below; so it is never below 1 TL, and from a price at or above the floor it moves by no more than the change |
| Market.Pick | YatirimWebUygulamasi.tsx:92-93 | the picked stock is the one whose position k in stockList satisfies k <= 4r < k + 1, so each quarter of the draw's range picks its own stock |
| Market.ScaledBelow | YatirimWebUygulamasi.tsx:92-93 | `Math.floor(r * n)` is a valid index below n for every draw, so the advice rule always names a listed stock |
| Market.ScaledAtMostZero | YatirimWebUygulamasi.tsx:97-98 | when the balance affords no share, `Math.floor(r * affordable)` is at most 0 for every draw, so `Math.max(1, …)` makes the buy suggestion 1 |
| Market.FirstMinIndex | YatirimWebUygulamasi.tsx:86 | the index holds a smallest value and every earlier index holds a larger one |
| Market.FirstMaxIndex | YatirimWebUygulamasi.tsx:89 | the index holds a largest value and every earlier index holds a smaller one |
| Market.Cheapest | YatirimWebUygulamasi.tsx:86 | the first symbol of the ascending stable sort: its price is minimal, and every symbol before it in stockList is dearer |
| Market.MostOwned | YatirimWebUygulamasi.tsx:89 | the first symbol of the descending stable sort: its holding is maximal, and every symbol before it in stockList holds fewer |
| Market.BuyAmount | YatirimWebUygulamasi.tsx:97-98 | the buy suggestion lies in [1, 10] for any balance, price and draw |
| Market.BuyAmountAffordable | YatirimWebUygulamasi.tsx:97-98 | with a draw in [0, 1) the buy suggestion never exceeds what the balance affords when it affords at least one share; it is 1 when it affords none |
| Market.SellAmount | YatirimWebUygulamasi.tsx:104-105 | the sell suggestion lies in [0, owned], and in [1, owned] once at least one share is held |
| Chat.Applies | YatirimWebUygulamasi.tsx:83-102 | no contract; the rule conditions of lines 83, 85, 88, 91, 95 and 102 as plain substring tests on the lower-cased message, and the final else that always applies |
| Chat.MatchRule | YatirimWebUygulamasi.tsx:83-117 | the chosen rule's condition holds, and no rule earlier in the if / else-if chain holds (first match wins) |
| Chat.SellQuestionMatchesCheapestRule | YatirimWebUygulamasi.tsx:85-88 | "hangi hisse satmalıyım" triggers the cheapest-stock rule, not the selling rule |
| Chat.MentionedFrom | YatirimWebUygulamasi.tsx:110-116 | the scan from position k finds a symbol the upper-cased message contains, and none before it from k on; or it finds none, and none is contained |
| Chat.LookupReply | YatirimWebUygulamasi.tsx:109-116 | a quote of the price and holding of the first symbol, in stockList order, that the upper-cased message names; the fallback exactly when it names none |
| Chat.BuyHintList | YatirimWebUygulamasi.tsx:96-100 | one suggestion per stock, in stockList order, each in [1, 10] and, when the balance affords at least one share of that stock, no more than it affords |
| Chat.SellHintList | YatirimWebUygulamasi.tsx:103-107 | one suggestion per stock, in stockList order, each between 0 and the holding of that stock, and at least 1 for a held stock |
| Chat.Respond | YatirimWebUygulamasi.tsx:80-117 | each kind of reply comes exactly from its rule and carries what that rule promises: the greeting iff the greeting rule matched; the first cheapest or most-held stock with its price or holding; advice naming the stocks in whose quarter of [0, 1) each draw falls; buy suggestions in [1, 10] and within what the balance affords per stock; sell suggestions between 0 and the holding, and at least 1 for a held stock; the first named stock's quote; the fallback iff the lookup rule matched and no symbol is named |
| Chat.Render | YatirimWebUygulamasi.tsx:84-113 | no contract; the exact text of each reply (see Left out) |
| Chat.HintText | YatirimWebUygulamasi.tsx:99-101 | no contract; the per-stock hint lines joined by a vertical bar between spaces (see Left out) |
| Chat.NameAck | YatirimWebUygulamasi.tsx:75 | no contract; the acknowledgement text quoting the untrimmed message (see Left out) |
| Engine.EntryText | YatirimWebUygulamasi.tsx:50-65 | no contract; the exact log lines of a purchase and a sale (see Left out) |
| Engine.MessageText | YatirimWebUygulamasi.tsx:119 | no contract; the text of a transcript line, a reply after its "name, " prefix (see Left out) |
| Text.WholeAmountText | YatirimWebUygulamasi.tsx:87 | a whole-lira price prints as its decimal digits with no fraction |
| Text.HalfAmountText | YatirimWebUygulamasi.tsx:87 | a price ending in 50 kuruş prints with the single decimal 5 |
| Text.FixedTwoDecimals | YatirimWebUygulamasi.tsx:50 | `toFixed(2)` of a total whose fraction is below 10 kuruş pads it to two digits with a leading zero |
| Engine.InvestmentApp.constructor | YatirimWebUygulamasi.tsx:13-26 | the initial state: no name, 1000 TL, no holdings, prices 100/150/200/250 TL, quantities 1, no trades, the two greeting lines, no error; the invariant holds |
| Engine.InvestmentApp.AwaitingName | YatirimWebUygulamasi.tsx:73 | no contract; `!userName`: no name yet, or the empty name |
| Engine.InvestmentApp.BuyStock | YatirimWebUygulamasi.tsx:42-55 | with the quota used up or a quantity of 0 or less, nothing changes; otherwise either the exact purchase (balance down by price × quantity, holding up by quantity, one more trade, one log entry, error cleared) or, short of money, only the balance error; the invariant is kept |
| Engine.InvestmentApp.SellStock | YatirimWebUygulamasi.tsx:57-70 | the mirror of BuyStock on holdings, with the holdings error naming the symbol; the invariant is kept |
| Engine.InvestmentApp.HandleQuantityChange | YatirimWebUygulamasi.tsx:123-128 | the staged quantity becomes parseInt(value) exactly when that is a number >= 0, otherwise no quantity changes; other symbols are untouched |
| Engine.InvestmentApp.Stage | YatirimWebUygulamasi.tsx:126 | one symbol's staged quantity replaced, keeping the invariant |
| Engine.InvestmentApp.Tick | YatirimWebUygulamasi.tsx:30-37 | every price is the drift of its old price by its own draw; every price stays at least 1 TL and moves by at most 10 TL; nothing else changes |
| Engine.InvestmentApp.BotResponse | YatirimWebUygulamasi.tsx:80-117 | the imperative rule chain and symbol scan compute exactly `Respond` on the current state |
| Engine.InvestmentApp.CaptureName | YatirimWebUygulamasi.tsx:73-77 | the trimmed message becomes the name, the message and its acknowledgement are appended, and the engine still awaits a name iff the message was blank |
| Engine.InvestmentApp.Converse | YatirimWebUygulamasi.tsx:80-120 | the message, then the name, a comma and the reply of the first matching rule, are appended to the transcript |
| Engine.InvestmentApp.HandleChat | YatirimWebUygulamasi.tsx:72-121 | with no name yet the message is captured as the name and no rule is tried; once named, a blank message changes nothing and any other appends the message and the prefixed reply; the name never changes once given |
| Scenarios.QuantityTexts | YatirimWebUygulamasi.tsx:124 | parseInt reads "3" as 3 and "-1" as -1; "abc" and "" are NaN |
| Scenarios.AmountTexts | YatirimWebUygulamasi.tsx:50 | 100 TL prints as "100" in a reply and "100.00" in the log; 100.50 TL prints as "100.5" |
| Scenarios.FirstPurchase | YatirimWebUygulamasi.tsx:42-55 | from the initial state, buying STK1 leaves 900 TL, one share, one trade, one log entry and no error |
| Scenarios.SellWithoutHoldings | YatirimWebUygulamasi.tsx:57-70 | selling a stock never bought sets the holdings error and changes neither money nor holdings nor the trade count |
| Scenarios.QuotaRunsOut | YatirimWebUygulamasi.tsx:45 | after twelve trades the thirteenth affordable purchase changes nothing |
| Scenarios.QuantityEdits | YatirimWebUygulamasi.tsx:123-128 | setting "3" reads back 3, and "-1" and "abc" then leave it at 3 |
| Scenarios.BlankQuantityKept | YatirimWebUygulamasi.tsx:123-128 | an emptied quantity field keeps the prior quantity |
| Scenarios.GreetingBeatsAdvice | YatirimWebUygulamasi.tsx:83-88 | a greeting that also asks which stock to buy meets the cheapest-stock condition but is answered by the greeting rule |
| Scenarios.BlankName | YatirimWebUygulamasi.tsx:72-77 | a blank first message is acknowledged and leaves the engine still waiting for a name |
| Scenarios.GreetingAsName | YatirimWebUygulamasi.tsx:72-77 | the first message is taken as the name with no rule tried, even when it is a greeting |

## Left out

- The JSX markup, tabs and styling, the `inputMessage` binding and its reset, the unreachable markup after the `return`, and `pages/index.tsx`. These are presentation only. `handleChat` takes the message as a parameter instead of reading `inputMessage`.
- The `setInterval`/`useEffect` scheduling of the price tick. `Tick` is one firing, called explicitly.
- React's batching of state updates and its stale closures. Each handler runs to completion on the state it reads.
- IEEE floating point. Money is exact integer kuruş, so the `toFixed(2)` rounding of a sum of two-decimal amounts is the identity. `parseInt` results are unbounded integers, so values beyond 2^53 do not lose precision.
- Turkish and other non-ASCII case mapping in `toLowerCase`/`toUpperCase`. Only A–Z and a–z are mapped.
- Text.ToLower, Text.ToUpper: because of the ASCII-only mapping above, they do not state the Unicode case-mapping rules of the runtime.
- Engine.InvestmentApp.BuyStock: the log entry is a `TradeEntry` value. Its exact text is given by `EntryText` and appears in no method contract. Only the number formats inside it are proved (`Text.FixedTwoDecimals`, `Scenarios.AmountTexts`).
- Engine.InvestmentApp.HandleChat: transcript lines are `Content` values. Their exact texts (`NameAck`, `Render`, `HintText`) are given by `MessageText` and appear in no method contract. Only the amount formats inside them are proved (`Text.WholeAmountText`, `Text.HalfAmountText`).
- Scenarios.QuantityEdits: it states only the STK1 reading. `HandleQuantityChange`'s own contract states that the other symbols are unchanged.
