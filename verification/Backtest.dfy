/** Accounting of the archived backtest (back/legacy-2026-09-13/backtest/runner.py) over exact reals.
    A strategy is whatever it answers: one exit and one entry answer for every tick. */
module Backtest {

  datatype Holding = Holding(qty: int, avgPrice: real, highestReturn: real, partialTaken: bool)

  const NOTHING: Holding := Holding(0, 0.0, 0.0, false)

  /** Cash, realised profit, and positions in the order in which they were first touched. */
  datatype Book = Book(cash: real, realized: real, order: seq<string>, held: map<string, Holding>) {
    ghost predicate Valid() {
      && (forall i, k :: 0 <= i < k < |order| ==> order[i] != order[k])
      && (forall s :: s in order <==> s in held)
      && forall s :: s in held ==> held[s].qty >= 0
    }
  }

  datatype Tick = Tick(symbol: string, price: real, close: real) {
    function Price(): real { if price != 0.0 then price else close }
  }

  datatype Exit = Keep | SellPart(ratio: real) | SellAll
  datatype Entry = Skip | Buy(qty: int)
  datatype Bar = Bar(tick: Tick, exit: Exit, entry: Entry)

  datatype Trade = Trade(symbol: string, entryPrice: real, exitPrice: real, qty: int, pnl: real)

  datatype Run = Run(book: Book, prices: map<string, real>, equity: seq<real>, trades: seq<Trade>,
                     entries: map<string, real>)

  /* ----- the portfolio ----- */

  function Touch(b: Book, symbol: string): (t: Book)
    ensures b.Valid() ==> t.Valid()
    ensures symbol in t.held && t.held.Keys == b.held.Keys + {symbol}
    ensures t.cash == b.cash && t.realized == b.realized
  {
    if symbol in b.held then b else b.(order := b.order + [symbol], held := b.held[symbol := NOTHING])
  }

  function Set(b: Book, symbol: string, h: Holding): (c: Book)
    ensures b.Valid() && symbol in b.held && h.qty >= 0 ==> c.Valid() && c.held.Keys == b.held.Keys
  {
    b.(held := b.held[symbol := h])
  }

  function Amount(qty: int, price: real): real { qty as real * price }

  /** The average price over the old shares and the new ones. */
  function Averaged(h: Holding, qty: int, amount: real): real
    requires h.qty + qty > 0
  {
    (Amount(h.qty, h.avgPrice) + amount) / (h.qty + qty) as real
  }

  predicate MayBuy(b: Book, qty: int, price: real) { qty > 0 && b.cash >= Amount(qty, price) }

  function Bought(b: Book, symbol: string, qty: int, price: real): (c: Book)
    requires b.Valid()
    ensures c.Valid() && c.held.Keys == b.held.Keys + if MayBuy(b, qty, price) then {symbol} else {}
    ensures !MayBuy(b, qty, price) ==> c == b
  {
    if !MayBuy(b, qty, price) then b
    else
      var c := Touch(b, symbol);
      var h := c.held[symbol];
      var amount := Amount(qty, price);
      Set(c, symbol, h.(qty := h.qty + qty, avgPrice := Averaged(h, qty, amount))).(cash := b.cash - amount)
  }

  function Least(a: int, b: int): int { if a < b then a else b }

  function Profit(b: Book, symbol: string, qty: int, price: real): real {
    if symbol !in b.held || qty <= 0 || b.held[symbol].qty <= 0 then 0.0
    else Amount(Least(qty, b.held[symbol].qty), price - b.held[symbol].avgPrice)
  }

  /** A position sold out forgets its past. */
  function Reduced(h: Holding, n: int): Holding { if h.qty == n then NOTHING else h.(qty := h.qty - n) }

  function Sold(b: Book, symbol: string, qty: int, price: real): (c: Book)
    requires b.Valid()
    ensures c.Valid() && c.held.Keys == b.held.Keys + {symbol}
  {
    var c := Touch(b, symbol);
    var h := c.held[symbol];
    if qty <= 0 || h.qty <= 0 then c
    else
      var n := Least(qty, h.qty);
      Set(c, symbol, Reduced(h, n))
        .(cash := c.cash + Amount(n, price), realized := c.realized + Amount(n, price - h.avgPrice))
  }

  function Value(held: map<string, Holding>, order: seq<string>, prices: map<string, real>): real {
    if |order| == 0 then 0.0
    else
      var s := order[|order| - 1];
      Value(held, order[..|order| - 1], prices)
      + if s in held && held[s].qty > 0
        then Amount(held[s].qty, if s in prices then prices[s] else held[s].avgPrice) else 0.0
  }

  function MarketValue(b: Book, prices: map<string, real>): real { b.cash + Value(b.held, b.order, prices) }

  /* ----- the runner ----- */

  /** A part, rounded down, but at least one share. */
  function PartOf(qty: int, ratio: real): int {
    var part := qty as real * ratio;
    if part >= 1.0 then part.Floor else 1
  }

  function EntryPrice(r: Run, symbol: string, otherwise: real): real {
    if symbol in r.entries then r.entries[symbol] else otherwise
  }

  predicate Exitable(b: Book, symbol: string) {
    symbol in b.held && b.held[symbol].qty > 0 && b.held[symbol].avgPrice > 0.0
  }

  function Greater(a: real, b: real): real { if a >= b then a else b }

  function WithReturn(h: Holding, price: real): (g: Holding)
    requires h.avgPrice > 0.0
    ensures g.qty == h.qty && g.avgPrice == h.avgPrice
  {
    h.(highestReturn := Greater(h.highestReturn, (price - h.avgPrice) / h.avgPrice * 100.0))
  }

  function SellingPart(r: Run, symbol: string, qty: int, price: real): (t: Run)
    requires r.book.Valid()
    ensures t.book.Valid() && t.book.held.Keys == r.book.held.Keys + {symbol}
  {
    var c := Sold(r.book, symbol, qty, price);
    var d := Set(c, symbol, c.held[symbol].(partialTaken := true));
    r.(book := d,
       trades := r.trades + [Trade(symbol, EntryPrice(r, symbol, d.held[symbol].avgPrice), price, qty,
                                   Profit(r.book, symbol, qty, price))])
  }

  function SellingAll(r: Run, symbol: string, price: real): (t: Run)
    requires r.book.Valid() && symbol in r.book.held
    ensures t.book.Valid() && t.book.held.Keys == r.book.held.Keys
  {
    var h := r.book.held[symbol];
    var c := Sold(r.book, symbol, h.qty, price);
    r.(book := c,
       trades := r.trades + [Trade(symbol, EntryPrice(r, symbol, h.avgPrice), price, h.qty,
                                   Profit(r.book, symbol, h.qty, price))],
       entries := if c.held[symbol].qty == 0 then r.entries - {symbol} else r.entries)
  }

  function CheckExit(r: Run, tick: Tick, exit: Exit): (t: Run)
    requires r.book.Valid()
    ensures t.book.Valid() && t.book.held.Keys == r.book.held.Keys + {tick.symbol}
  {
    var symbol := tick.symbol;
    var touched := r.(book := Touch(r.book, symbol));
    if !Exitable(touched.book, symbol) then touched
    else
      var h := WithReturn(touched.book.held[symbol], tick.Price());
      var seen := touched.(book := Set(touched.book, symbol, h));
      match exit
      case Keep => seen
      case SellPart(ratio) => SellingPart(seen, symbol, PartOf(h.qty, ratio), tick.Price())
      case SellAll => SellingAll(seen, symbol, tick.Price())
  }

  function CheckEntry(r: Run, tick: Tick, entry: Entry): (t: Run)
    requires r.book.Valid()
    ensures t.book.Valid() && r.book.held.Keys <= t.book.held.Keys <= r.book.held.Keys + {tick.symbol}
  {
    match entry
    case Skip => r
    case Buy(qty) =>
      if !MayBuy(r.book, qty, tick.Price()) then r
      else
        var b := Bought(r.book, tick.symbol, qty, tick.Price());
        r.(book := b, entries := r.entries[tick.symbol := b.held[tick.symbol].avgPrice])
  }

  function Step(r: Run, bar: Bar): (t: Run)
    requires r.book.Valid()
    ensures t.book.Valid() && t.book.held.Keys == r.book.held.Keys + {bar.tick.symbol}
  {
    var priced := r.(prices := r.prices[bar.tick.symbol := bar.tick.Price()]);
    var entered := CheckEntry(CheckExit(priced, bar.tick, bar.exit), bar.tick, bar.entry);
    entered.(equity := entered.equity + [MarketValue(entered.book, entered.prices)])
  }

  function Steps(r: Run, bars: seq<Bar>): (t: Run)
    requires r.book.Valid()
    ensures t.book.Valid()
  {
    if |bars| == 0 then r else Step(Steps(r, bars[..|bars| - 1]), bars[|bars| - 1])
  }

  function LastTicks(bars: seq<Bar>): map<string, Tick> {
    if |bars| == 0 then map[]
    else LastTicks(bars[..|bars| - 1])[bars[|bars| - 1].tick.symbol := bars[|bars| - 1].tick]
  }

  function CloseOne(r: Run, symbol: string, last: map<string, Tick>): (t: Run)
    requires r.book.Valid()
    ensures t.book.Valid() && t.book.held.Keys == r.book.held.Keys
  {
    if symbol !in r.book.held || r.book.held[symbol].qty <= 0 || symbol !in last then r
    else
      var h, price := r.book.held[symbol], last[symbol].Price();
      var b := Sold(r.book, symbol, h.qty, price);
      var prices := r.prices[symbol := price];
      Run(b, prices, r.equity + [MarketValue(b, prices)],
          r.trades + [Trade(symbol, EntryPrice(r, symbol, h.avgPrice), price, h.qty, Profit(r.book, symbol, h.qty, price))],
          r.entries - {symbol})
  }

  function CloseAll(r: Run, symbols: seq<string>, last: map<string, Tick>): (t: Run)
    requires r.book.Valid()
    ensures t.book.Valid() && t.book.held.Keys == r.book.held.Keys
  {
    if |symbols| == 0 then r
    else CloseOne(CloseAll(r, symbols[..|symbols| - 1], last), symbols[|symbols| - 1], last)
  }

  function Opening(initial: real): (r: Run)
    ensures r.book.Valid()
  {
    Run(Book(initial, 0.0, [], map[]), map[], [], [], map[])
  }

  /** A whole backtest, positions closed at its end. */
  function Play(initial: real, bars: seq<Bar>): Run {
    var r := Steps(Opening(initial), bars);
    CloseAll(r, r.book.order, LastTicks(bars))
  }

  function Sum(trades: seq<Trade>): real {
    if |trades| == 0 then 0.0 else Sum(trades[..|trades| - 1]) + trades[|trades| - 1].pnl
  }

  /* ----- conservation ----- */

  function CostOf(h: Holding): real { Amount(h.qty, h.avgPrice) }

  function Cost(held: map<string, Holding>, order: seq<string>): real {
    if |order| == 0 then 0.0
    else
      var s := order[|order| - 1];
      Cost(held, order[..|order| - 1]) + if s in held then CostOf(held[s]) else 0.0
  }

  /** Nothing is created or lost: cash and the cost of the holdings are the initial cash and the
      realised profit. */
  ghost predicate Conserved(b: Book, initial: real) {
    b.Valid() && b.cash + Cost(b.held, b.order) == initial + b.realized
  }

  lemma {:induction false} CostElsewhere(held: map<string, Holding>, order: seq<string>, symbol: string, h: Holding)
    requires symbol !in order
    ensures Cost(held[symbol := h], order) == Cost(held, order)
  {
    hide CostOf;
    if |order| > 0 { CostElsewhere(held, order[..|order| - 1], symbol, h); }
  }

  lemma {:induction false} CostOfSet(held: map<string, Holding>, order: seq<string>, symbol: string, h: Holding)
    requires symbol in held && symbol in order
    requires forall i, k :: 0 <= i < k < |order| ==> order[i] != order[k]
    ensures Cost(held[symbol := h], order)
         == Cost(held, order) - CostOf(held[symbol]) + CostOf(h)
  {
    hide CostOf;
    var n := |order| - 1;
    assert order == order[..n] + [order[n]];
    if order[n] == symbol {
      CostElsewhere(held, order[..n], symbol, h);
    } else {
      CostOfSet(held, order[..n], symbol, h);
    }
  }

  lemma NothingCosts()
    ensures CostOf(NOTHING) == 0.0
  {
  }

  lemma TouchConserves(b: Book, symbol: string, initial: real)
    requires Conserved(b, initial)
    ensures Conserved(Touch(b, symbol), initial) && symbol in Touch(b, symbol).held
  {
    hide CostOf;
    if symbol !in b.held {
      NothingCosts();
      CostElsewhere(b.held, b.order, symbol, NOTHING);
      assert (b.order + [symbol])[..|b.order|] == b.order;
    }
  }

  lemma SetConserves(b: Book, symbol: string, h: Holding, cash: real, realized: real, initial: real)
    requires Conserved(b, initial) && symbol in b.held && h.qty >= 0
    requires cash + CostOf(h) - realized == b.cash + CostOf(b.held[symbol]) - b.realized
    ensures Conserved(Set(b, symbol, h).(cash := cash, realized := realized), initial)
  {
    hide CostOf;
    CostOfSet(b.held, b.order, symbol, h);
  }

  lemma AveragePays(h: Holding, qty: int, amount: real)
    requires h.qty >= 0 && qty > 0
    ensures CostOf(h.(qty := h.qty + qty, avgPrice := Averaged(h, qty, amount))) == CostOf(h) + amount
  {
    var total := (h.qty + qty) as real;
    var paid := Amount(h.qty, h.avgPrice) + amount;
    assert total * (paid / total) == paid;
  }

  lemma PayingConserves(c: Book, symbol: string, qty: int, amount: real, initial: real)
    requires Conserved(c, initial) && symbol in c.held && qty > 0
    ensures c.held[symbol].qty >= 0
    ensures var h := c.held[symbol];
            Conserved(Set(c, symbol, h.(qty := h.qty + qty, avgPrice := Averaged(h, qty, amount))).(cash := c.cash - amount),
                      initial)
  {
    hide Cost, CostOf, Amount, Averaged;
    var h := c.held[symbol];
    AveragePays(h, qty, amount);
    SetConserves(c, symbol, h.(qty := h.qty + qty, avgPrice := Averaged(h, qty, amount)), c.cash - amount, c.realized, initial);
  }

  lemma BoughtConserves(b: Book, symbol: string, qty: int, price: real, initial: real)
    requires Conserved(b, initial)
    ensures Conserved(Bought(b, symbol, qty, price), initial) && Bought(b, symbol, qty, price).realized == b.realized
    ensures MayBuy(b, qty, price) ==> symbol in Bought(b, symbol, qty, price).held
  {
    hide Cost, Amount, Averaged, Touch;
    if MayBuy(b, qty, price) {
      TouchConserves(b, symbol, initial);
      PayingConserves(Touch(b, symbol), symbol, qty, Amount(qty, price), initial);
    }
  }

  lemma SaleBalances(h: Holding, n: int, price: real)
    requires 0 < n <= h.qty
    ensures Amount(n, price) + CostOf(Reduced(h, n)) - Amount(n, price - h.avgPrice) == CostOf(h)
  {
    var q, m, a := h.qty as real, n as real, h.avgPrice;
    assert (h.qty - n) as real == q - m;
    assert (q - m) * a == q * a - m * a;
    assert m * (price - a) == m * price - m * a;
  }

  /** A sale moves exactly its profit into the realised profit. */
  lemma SoldConserves(b: Book, symbol: string, qty: int, price: real, initial: real)
    requires Conserved(b, initial)
    ensures Conserved(Sold(b, symbol, qty, price), initial) && symbol in Sold(b, symbol, qty, price).held
    ensures Sold(b, symbol, qty, price).realized == b.realized + Profit(b, symbol, qty, price)
  {
    hide Cost, CostOf, Amount;
    var c := Touch(b, symbol);
    TouchConserves(b, symbol, initial);
    var h := c.held[symbol];
    if qty > 0 && h.qty > 0 {
      var n := Least(qty, h.qty);
      SaleBalances(h, n, price);
      SetConserves(c, symbol, Reduced(h, n), c.cash + Amount(n, price),
                   c.realized + Amount(n, price - h.avgPrice), initial);
    }
  }

  /** The book balances, and the profits logged are the profit realised. */
  ghost predicate Accounted(r: Run, initial: real) { Conserved(r.book, initial) && Sum(r.trades) == r.book.realized }

  lemma SumAppend(trades: seq<Trade>, t: Trade)
    ensures Sum(trades + [t]) == Sum(trades) + t.pnl
  {
    assert (trades + [t])[..|trades|] == trades;
  }

  /** Fields that carry no value may change freely. */
  lemma NoteConserves(b: Book, symbol: string, h: Holding, initial: real)
    requires Conserved(b, initial) && symbol in b.held
    requires h.qty == b.held[symbol].qty && h.avgPrice == b.held[symbol].avgPrice
    ensures Conserved(Set(b, symbol, h), initial)
  {
    hide Cost, Amount;
    SetConserves(b, symbol, h, b.cash, b.realized, initial);
  }

  lemma PartAccounts(r: Run, symbol: string, qty: int, price: real, initial: real)
    requires Accounted(r, initial)
    ensures Accounted(SellingPart(r, symbol, qty, price), initial)
  {
    hide Cost, Amount, Sold, Profit, Sum;
    SoldConserves(r.book, symbol, qty, price, initial);
    var c := Sold(r.book, symbol, qty, price);
    NoteConserves(c, symbol, c.held[symbol].(partialTaken := true), initial);
    SumAppend(r.trades, SellingPart(r, symbol, qty, price).trades[|r.trades|]);
  }

  lemma AllAccounts(r: Run, symbol: string, price: real, initial: real)
    requires Accounted(r, initial) && symbol in r.book.held
    ensures Accounted(SellingAll(r, symbol, price), initial)
  {
    hide Cost, Amount, Sold, Profit, Sum;
    SoldConserves(r.book, symbol, r.book.held[symbol].qty, price, initial);
    SumAppend(r.trades, SellingAll(r, symbol, price).trades[|r.trades|]);
  }

  lemma ExitAccounts(r: Run, tick: Tick, exit: Exit, initial: real)
    requires Accounted(r, initial)
    ensures Accounted(CheckExit(r, tick, exit), initial)
  {
    hide Cost, Amount, SellingPart, SellingAll, Sum, Touch;
    var symbol := tick.symbol;
    var touched := r.(book := Touch(r.book, symbol));
    TouchConserves(r.book, symbol, initial);
    if Exitable(touched.book, symbol) {
      var h := WithReturn(touched.book.held[symbol], tick.Price());
      var seen := touched.(book := Set(touched.book, symbol, h));
      NoteConserves(touched.book, symbol, h, initial);
      match exit
      case Keep =>
      case SellPart(ratio) => PartAccounts(seen, symbol, PartOf(h.qty, ratio), tick.Price(), initial);
      case SellAll => AllAccounts(seen, symbol, tick.Price(), initial);
    }
  }

  lemma EntryAccounts(r: Run, tick: Tick, entry: Entry, initial: real)
    requires Accounted(r, initial)
    ensures Accounted(CheckEntry(r, tick, entry), initial)
  {
    hide Cost, Amount, Bought, Sum;
    if entry.Buy? { BoughtConserves(r.book, tick.symbol, entry.qty, tick.Price(), initial); }
  }

  lemma StepAccounts(r: Run, bar: Bar, initial: real)
    requires Accounted(r, initial)
    ensures Accounted(Step(r, bar), initial)
  {
    hide Cost, Amount, CheckExit, CheckEntry, Sum, MarketValue;
    var priced := r.(prices := r.prices[bar.tick.symbol := bar.tick.Price()]);
    ExitAccounts(priced, bar.tick, bar.exit, initial);
    var exited := CheckExit(priced, bar.tick, bar.exit);
    EntryAccounts(exited, bar.tick, bar.entry, initial);
  }

  /** After every tick, whatever the strategy answered: cash plus the cost of the holdings is the
      initial cash plus the realised profit, and that is the sum of the logged profits. */
  lemma {:induction false} EveryStepAccounts(initial: real, bars: seq<Bar>)
    ensures Accounted(Steps(Opening(initial), bars), initial)
  {
    hide Step;
    if |bars| > 0 {
      EveryStepAccounts(initial, bars[..|bars| - 1]);
      StepAccounts(Steps(Opening(initial), bars[..|bars| - 1]), bars[|bars| - 1], initial);
    }
  }

  /** What the holdings have gained at given prices over their cost. */
  function Gain(held: map<string, Holding>, order: seq<string>, prices: map<string, real>): real {
    if |order| == 0 then 0.0
    else
      var s := order[|order| - 1];
      Gain(held, order[..|order| - 1], prices)
      + if s in held && held[s].qty > 0 && s in prices then Amount(held[s].qty, prices[s] - held[s].avgPrice) else 0.0
  }

  lemma {:induction false} ValueIsCostAndGain(held: map<string, Holding>, order: seq<string>, prices: map<string, real>)
    requires forall s :: s in held ==> held[s].qty >= 0
    ensures Value(held, order, prices) == Cost(held, order) + Gain(held, order, prices)
  {
    if |order| > 0 {
      ValueIsCostAndGain(held, order[..|order| - 1], prices);
      var s := order[|order| - 1];
      if s in held && s in prices { GainOf(held[s], prices[s]); }
    }
  }

  lemma GainOf(h: Holding, price: real)
    ensures Amount(h.qty, price) == CostOf(h) + Amount(h.qty, price - h.avgPrice)
    ensures h.qty == 0 ==> CostOf(h) == 0.0
  {
    assert h.qty as real * (price - h.avgPrice) == h.qty as real * price - h.qty as real * h.avgPrice;
  }

  /** Every recorded equity is the initial cash, the realised profit and the open gain. */
  lemma EquityIsExplained(r: Run, initial: real)
    requires Accounted(r, initial)
    ensures MarketValue(r.book, r.prices) == initial + Sum(r.trades) + Gain(r.book.held, r.book.order, r.prices)
  {
    hide Cost, Value, Gain, Sum;
    ValueIsCostAndGain(r.book.held, r.book.order, r.prices);
  }

  /* ----- the forced close ----- */

  lemma CloseOneAccounts(r: Run, symbol: string, last: map<string, Tick>, initial: real)
    requires Accounted(r, initial)
    ensures Accounted(CloseOne(r, symbol, last), initial)
    ensures symbol in r.book.held && symbol in last ==> CloseOne(r, symbol, last).book.held[symbol].qty == 0
    ensures forall s :: s in r.book.held && s != symbol ==> CloseOne(r, symbol, last).book.held[s] == r.book.held[s]
  {
    hide Cost, Amount, Sum, MarketValue, Profit;
    if symbol in r.book.held && r.book.held[symbol].qty > 0 && symbol in last {
      SoldConserves(r.book, symbol, r.book.held[symbol].qty, last[symbol].Price(), initial);
      SumAppend(r.trades, CloseOne(r, symbol, last).trades[|r.trades|]);
    }
  }

  lemma {:induction false} CloseAllAccounts(r: Run, symbols: seq<string>, last: map<string, Tick>, initial: real)
    requires Accounted(r, initial) && forall s :: s in symbols ==> s in r.book.held && s in last
    ensures Accounted(CloseAll(r, symbols, last), initial)
    ensures forall s :: s in symbols ==> CloseAll(r, symbols, last).book.held[s].qty == 0
  {
    hide CloseOne, Sum, Cost, Book.Valid;
    if |symbols| > 0 {
      var n := |symbols| - 1;
      CloseAllAccounts(r, symbols[..n], last, initial);
      CloseOneAccounts(CloseAll(r, symbols[..n], last), symbols[n], last, initial);
      assert symbols == symbols[..n] + [symbols[n]];
    }
  }

  lemma {:induction false} HeldWereTicked(initial: real, bars: seq<Bar>)
    ensures Steps(Opening(initial), bars).book.held.Keys == LastTicks(bars).Keys
  {
    hide Step;
    if |bars| > 0 { HeldWereTicked(initial, bars[..|bars| - 1]); }
  }

  lemma {:induction false} NothingHeldNothingWorth(held: map<string, Holding>, order: seq<string>, prices: map<string, real>)
    requires forall s :: s in held ==> held[s].qty == 0
    ensures Value(held, order, prices) == 0.0
  {
    if |order| > 0 { NothingHeldNothingWorth(held, order[..|order| - 1], prices); }
  }

  /** At the end no position is left open, and what the final cash gained over the initial cash is the
      sum of the logged profits. */
  lemma ClosedOut(initial: real, bars: seq<Bar>)
    ensures var r := Play(initial, bars);
            && (forall s :: s in r.book.held ==> r.book.held[s].qty == 0)
            && MarketValue(r.book, r.prices) == r.book.cash
            && r.book.cash - initial == Sum(r.trades)
  {
    hide Steps, CloseAll, Sum, Cost, Value;
    var s := Steps(Opening(initial), bars);
    EveryStepAccounts(initial, bars);
    HeldWereTicked(initial, bars);
    CloseAllAccounts(s, s.book.order, LastTicks(bars), initial);
    var r := Play(initial, bars);
    NothingHeldNothingWorth(r.book.held, r.book.order, r.prices);
    ValueIsCostAndGain(r.book.held, r.book.order, map[]);
    NothingHeldNothingWorth(r.book.held, r.book.order, map[]);
    NoPricesNoGain(r.book.held, r.book.order);
  }

  lemma {:induction false} NoPricesNoGain(held: map<string, Holding>, order: seq<string>)
    ensures Gain(held, order, map[]) == 0.0
  {
    if |order| > 0 { NoPricesNoGain(held, order[..|order| - 1]); }
  }
}
