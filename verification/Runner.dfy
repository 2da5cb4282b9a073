/** The backtest as it updates its portfolio, positions and logs in place, proved to keep the books
    that Backtest describes. */
module Runner {
  import opened Backtest

  class Position {
    var qty: int
    var avgPrice: real
    var highestReturn: real
    var partialTaken: bool

    function Now(): Holding
      reads this
    {
      Holding(qty, avgPrice, highestReturn, partialTaken)
    }

    constructor ()
      ensures Now() == NOTHING
    {
      qty, avgPrice, highestReturn, partialTaken := 0, 0.0, 0.0, false;
    }
  }

  lemma TouchKeepsProfit(b: Book, symbol: string, qty: int, price: real)
    ensures Profit(Touch(b, symbol), symbol, qty, price) == Profit(b, symbol, qty, price)
  {
    hide Amount;
  }

  lemma StepAccountsIf(r: Backtest.Run, bar: Bar, initial: real)
    requires r.book.Valid()
    ensures Accounted(r, initial) ==> Accounted(Step(r, bar), initial)
  {
    hide Accounted, Step;
    if Accounted(r, initial) { StepAccounts(r, bar, initial); }
  }

  lemma PlayIs(initial: real, bars: seq<Bar>)
    ensures var r := Steps(Opening(initial), bars);
            Backtest.Play(initial, bars) == CloseAll(r, r.book.order, LastTicks(bars))
  {
  }

  lemma NothingToPlay(initial: real)
    ensures Steps(Opening(initial), []) == Opening(initial) == Backtest.Play(initial, [])
    ensures MarketValue(Opening(initial).book, map[]) == initial
  {
  }

  /** The book shows each position as it is. */
  lemma Shows(p: SimplePortfolio, symbol: string)
    requires p.Valid()
    ensures symbol in p.positions <==> symbol in p.Now().held
    ensures symbol in p.positions ==> p.Now().held[symbol] == p.positions[symbol].Now() && p.positions[symbol].qty >= 0
    ensures p.Now().Valid() && p.Now().order == p.order
  {
  }

  lemma CloseNone(r: Backtest.Run, symbols: seq<string>, last: map<string, Tick>)
    requires r.book.Valid()
    ensures CloseAll(r, symbols[..0], last) == r
  {
  }

  lemma CloseAllNext(r: Backtest.Run, symbols: seq<string>, i: nat, last: map<string, Tick>)
    requires r.book.Valid() && i < |symbols|
    ensures CloseAll(r, symbols[..i + 1], last) == CloseOne(CloseAll(r, symbols[..i], last), symbols[i], last)
  {
    hide CloseOne;
    assert symbols[..i + 1][..i] == symbols[..i];
  }

  lemma OrderIsHeld(p: SimplePortfolio)
    requires p.Valid()
    ensures forall s :: s in p.order ==> s in p.Now().held
  {
  }

  class SimplePortfolio {
    var cash: real
    var realizedPnl: real
    var order: seq<string>
    var positions: map<string, Position>
    ghost var owned: set<Position>

    /** Each symbol has a position object of its own. */
    ghost predicate Distinct()
      reads this
    {
      && (forall s :: s in positions ==> positions[s] in owned)
      && forall s, t :: s in positions && t in positions && s != t ==> positions[s] != positions[t]
    }

    ghost predicate Valid()
      reads this, owned
    {
      Distinct() && Now().Valid()
    }

    ghost function Now(): Book
      reads this, owned
    {
      Book(cash, realizedPnl, order, map s | s in positions && positions[s] in owned :: positions[s].Now())
    }

    constructor (initialCash: real)
      ensures Valid() && Now() == Opening(initialCash).book && owned == {}
    {
      cash, realizedPnl, order, positions, owned := initialCash, 0.0, [], map[], {};
    }

    method GetPosition(symbol: string) returns (p: Position)
      requires Valid()
      modifies this
      ensures Valid() && symbol in positions && p == positions[symbol]
      ensures Now() == Touch(old(Now()), symbol)
      ensures fresh(owned - old(owned))
    {
      hide Book.Valid;
      assert symbol in positions <==> symbol in Now().held;
      if symbol !in positions {
        var created := new Position();
        order := order + [symbol];
        positions, owned := positions[symbol := created], owned + {created};
      }
      p := positions[symbol];
      assert Now().held == Touch(old(Now()), symbol).held;
    }

    method Buy(symbol: string, qty: int, price: real) returns (done: bool)
      requires Valid()
      modifies this, owned
      ensures Now() == Bought(old(Now()), symbol, qty, price) && done == MayBuy(old(Now()), qty, price)
      ensures Valid()
      ensures fresh(owned - old(owned))
    {
      hide Amount, Averaged, Book.Valid, Touch, Set;
      var amount := Amount(qty, price);
      if qty <= 0 || cash < amount { return false; }
      var p := GetPosition(symbol);
      Shows(this, symbol);
      assert p.Now() == Touch(old(Now()), symbol).held[symbol];
      Increase(symbol, qty, amount);
      cash := cash - amount;
      done := true;
    }

    method Increase(symbol: string, qty: int, amount: real)
      requires Valid() && symbol in positions && positions[symbol].qty >= 0 && qty > 0
      modifies owned
      ensures var h := old(positions[symbol].Now());
              Now() == Set(old(Now()), symbol, h.(qty := h.qty + qty, avgPrice := Averaged(h, qty, amount)))
      ensures Valid()
    {
      hide Averaged;
      var p := positions[symbol];
      ghost var before, h := Now(), p.Now();
      p.avgPrice := Averaged(p.Now(), qty, amount);
      p.qty := p.qty + qty;
      assert p.Now() == h.(qty := h.qty + qty, avgPrice := Averaged(h, qty, amount));
      assert Now().held == before.held[symbol := p.Now()];
    }

    method Sell(symbol: string, qty: int, price: real) returns (pnl: real)
      requires Valid()
      modifies this, owned
      ensures Now() == Sold(old(Now()), symbol, qty, price) && pnl == Profit(old(Now()), symbol, qty, price)
      ensures Valid()
      ensures symbol in positions && fresh(owned - old(owned))
    {
      hide Amount, Book.Valid, Touch, Reduced, Set;
      var p := GetPosition(symbol);
      Shows(this, symbol);
      TouchKeepsProfit(old(Now()), symbol, qty, price);
      if qty <= 0 || p.qty <= 0 { return 0.0; }
      var sold := Least(qty, p.qty);
      pnl := Settle(symbol, sold, price);
    }

    method Settle(symbol: string, sold: int, price: real) returns (pnl: real)
      requires Valid() && symbol in positions && sold <= positions[symbol].qty
      modifies this, owned
      ensures var h := old(positions[symbol].Now());
              && pnl == Amount(sold, price - h.avgPrice)
              && Now() == Set(old(Now()), symbol, Reduced(h, sold))
                            .(cash := old(cash) + Amount(sold, price), realized := old(realizedPnl) + pnl)
      ensures Valid() && positions == old(positions) && owned == old(owned)
    {
      hide Amount, Reduced;
      pnl := Amount(sold, price - positions[symbol].avgPrice);
      Reduce(symbol, sold);
      cash := cash + Amount(sold, price);
      realizedPnl := realizedPnl + pnl;
    }

    method Reduce(symbol: string, sold: int)
      requires Valid() && symbol in positions && sold <= positions[symbol].qty
      modifies owned
      ensures Valid() && Now() == Set(old(Now()), symbol, Reduced(old(positions[symbol].Now()), sold))
      ensures cash == old(cash) && realizedPnl == old(realizedPnl)
    {
      var p := positions[symbol];
      ghost var before := Now();
      p.qty := p.qty - sold;
      if p.qty == 0 {
        p.avgPrice := 0.0;
        p.highestReturn := 0.0;
        p.partialTaken := false;
      }
      assert Now().held == before.held[symbol := p.Now()];
    }

    /** The best return seen while the position was open. */
    method NoteReturn(symbol: string, price: real)
      requires Valid() && symbol in positions && positions[symbol].avgPrice > 0.0
      modifies owned
      ensures Valid() && Now() == Set(old(Now()), symbol, WithReturn(old(positions[symbol].Now()), price))
    {
      var p := positions[symbol];
      ghost var before := Now();
      p.highestReturn := Greater(p.highestReturn, (price - p.avgPrice) / p.avgPrice * 100.0);
      assert Now().held == before.held[symbol := p.Now()];
    }

    method NotePartial(symbol: string)
      requires Valid() && symbol in positions
      modifies owned
      ensures Valid() && Now() == Set(old(Now()), symbol, old(positions[symbol].Now()).(partialTaken := true))
    {
      var p := positions[symbol];
      ghost var before := Now();
      p.partialTaken := true;
      assert Now().held == before.held[symbol := p.Now()];
    }

    method ValueAt(prices: map<string, real>) returns (total: real)
      requires Valid()
      ensures total == MarketValue(Now(), prices)
    {
      hide Amount;
      total := cash;
      var i := 0;
      while i < |order|
        invariant 0 <= i <= |order|
        invariant total == cash + Value(Now().held, order[..i], prices)
      {
        var symbol := order[i];
        assert order[..i + 1][..i] == order[..i] && symbol in Now().held;
        var p := positions[symbol];
        if p.qty > 0 {
          total := total + Amount(p.qty, if symbol in prices then prices[symbol] else p.avgPrice);
        }
        i := i + 1;
      }
      assert order[..i] == order;
    }
  }

  class BacktestRunner {
    const portfolio: SimplePortfolio
    const initialCash: real
    var prices: map<string, real>
    var equity: seq<real>
    var trades: seq<Trade>
    var entries: map<string, real>

    ghost predicate Valid()
      reads this, portfolio, portfolio.owned
    {
      portfolio.Valid()
    }

    ghost function Here(): Backtest.Run
      reads this, portfolio, portfolio.owned
    {
      Backtest.Run(portfolio.Now(), prices, equity, trades, entries)
    }

    constructor (initialCash: real)
      ensures Valid() && Here() == Opening(initialCash) && this.initialCash == initialCash
      ensures fresh(portfolio) && portfolio.owned == {}
    {
      portfolio := new SimplePortfolio(initialCash);
      this.initialCash := initialCash;
      prices, equity, trades, entries := map[], [], [], map[];
    }

    method CheckEntry(tick: Tick, entry: Entry)
      requires Valid()
      modifies this, portfolio, portfolio.owned
      ensures Valid() && Here() == Backtest.CheckEntry(old(Here()), tick, entry)
      ensures fresh(portfolio.owned - old(portfolio.owned))
      ensures Accounted(old(Here()), initialCash) ==> Accounted(Here(), initialCash)
    {
      hide SimplePortfolio.Valid, SimplePortfolio.Now, Book.Valid, Bought, Amount, Accounted;
      if Accounted(Here(), initialCash) { EntryAccounts(Here(), tick, entry, initialCash); }
      Shows(portfolio, tick.symbol);
      if entry.Skip? || entry.qty <= 0 { return; }
      var bought := portfolio.Buy(tick.symbol, entry.qty, tick.Price());
      if !bought { return; }
      Shows(portfolio, tick.symbol);
      entries := entries[tick.symbol := portfolio.positions[tick.symbol].avgPrice];
    }

    method CheckExit(tick: Tick, exit: Exit)
      requires Valid()
      modifies this, portfolio, portfolio.owned
      ensures Valid() && Here() == Backtest.CheckExit(old(Here()), tick, exit)
      ensures fresh(portfolio.owned - old(portfolio.owned))
      ensures Accounted(old(Here()), initialCash) ==> Accounted(Here(), initialCash)
    {
      hide SimplePortfolio.Valid, SimplePortfolio.Now, Book.Valid, Touch, WithReturn, SellingPart, SellingAll, PartOf, Accounted;
      if Accounted(Here(), initialCash) { ExitAccounts(Here(), tick, exit, initialCash); }
      var symbol, price := tick.symbol, tick.Price();
      Shows(portfolio, symbol);
      var p := portfolio.GetPosition(symbol);
      Shows(portfolio, symbol);
      if p.qty <= 0 || p.avgPrice <= 0.0 { return; }
      portfolio.NoteReturn(symbol, price);
      Shows(portfolio, symbol);
      match exit {
        case Keep =>
        case SellPart(ratio) => SellPartOf(symbol, PartOf(p.qty, ratio), price);
        case SellAll => SellOut(symbol, price);
      }
    }

    method SellPartOf(symbol: string, qty: int, price: real)
      requires Valid()
      modifies this, portfolio, portfolio.owned
      ensures Valid() && Here() == SellingPart(old(Here()), symbol, qty, price)
      ensures fresh(portfolio.owned - old(portfolio.owned))
    {
      hide SimplePortfolio.Valid, SimplePortfolio.Now, Book.Valid, Sold, Profit, Set;
      Shows(portfolio, symbol);
      var pnl := portfolio.Sell(symbol, qty, price);
      Shows(portfolio, symbol);
      portfolio.NotePartial(symbol);
      Shows(portfolio, symbol);
      var entryPrice := if symbol in entries then entries[symbol] else portfolio.positions[symbol].avgPrice;
      trades := trades + [Trade(symbol, entryPrice, price, qty, pnl)];
    }

    method SellOut(symbol: string, price: real)
      requires Valid() && symbol in portfolio.positions
      modifies this, portfolio, portfolio.owned
      ensures Valid() && symbol in old(portfolio.Now()).held && old(portfolio.Now()).Valid()
      ensures Here() == SellingAll(old(Here()), symbol, price)
      ensures fresh(portfolio.owned - old(portfolio.owned))
    {
      hide SimplePortfolio.Valid, SimplePortfolio.Now, Book.Valid, Sold, Profit;
      Shows(portfolio, symbol);
      var p := portfolio.positions[symbol];
      var qty := p.qty;
      var entryPrice := if symbol in entries then entries[symbol] else p.avgPrice;
      var pnl := portfolio.Sell(symbol, qty, price);
      Shows(portfolio, symbol);
      trades := trades + [Trade(symbol, entryPrice, price, qty, pnl)];
      if portfolio.positions[symbol].qty == 0 { entries := entries - {symbol}; }
    }

    method CloseSymbol(symbol: string, last: map<string, Tick>)
      requires Valid() && symbol in portfolio.positions
      modifies this, portfolio, portfolio.owned
      ensures Valid() && Here() == CloseOne(old(Here()), symbol, last)
      ensures fresh(portfolio.owned - old(portfolio.owned))
      ensures Accounted(old(Here()), initialCash) ==> Accounted(Here(), initialCash)
    {
      hide SimplePortfolio.Valid, SimplePortfolio.Now, Book.Valid, Sold, Profit, MarketValue, Accounted;
      if Accounted(Here(), initialCash) { CloseOneAccounts(Here(), symbol, last, initialCash); }
      Shows(portfolio, symbol);
      var p := portfolio.positions[symbol];
      if p.qty <= 0 || symbol !in last { return; }
      var price := last[symbol].Price();
      var qty := p.qty;
      var entryPrice := if symbol in entries then entries[symbol] else p.avgPrice;
      var pnl := portfolio.Sell(symbol, qty, price);
      trades := trades + [Trade(symbol, entryPrice, price, qty, pnl)];
      entries := entries - {symbol};
      prices := prices[symbol := price];
      var value := portfolio.ValueAt(prices);
      equity := equity + [value];
    }

    method ForceCloseAll(last: map<string, Tick>)
      requires Valid()
      modifies this, portfolio, portfolio.owned
      ensures Valid() && old(portfolio.Now()).Valid()
      ensures Here() == CloseAll(old(Here()), old(portfolio.order), last)
      ensures fresh(portfolio.owned - old(portfolio.owned))
    {
      hide SimplePortfolio.Valid, SimplePortfolio.Now, Book.Valid, CloseOne, CloseAll;
      var symbols := portfolio.order;
      Shows(portfolio, "");
      OrderIsHeld(portfolio);
      CloseNone(Here(), symbols, last);
      var i := 0;
      while i < |symbols|
        invariant 0 <= i <= |symbols| && Valid()
        invariant Here() == CloseAll(old(Here()), symbols[..i], last)
        invariant fresh(portfolio.owned - old(portfolio.owned))
      {
        CloseAllNext(old(Here()), symbols, i, last);
        Shows(portfolio, symbols[i]);
        CloseSymbol(symbols[i], last);
        i := i + 1;
      }
      assert symbols[..i] == symbols;
    }

    /** Plays the ticks with the strategy's answers and returns the final cash. */
    method Play(bars: seq<Bar>) returns (finalCash: real)
      requires Valid() && Here() == Opening(initialCash)
      modifies this, portfolio, portfolio.owned
      ensures Valid() && Here() == Backtest.Play(initialCash, bars)
      ensures finalCash == MarketValue(Here().book, Here().prices)
      ensures finalCash - initialCash == Sum(trades)
      ensures forall x :: x in Here().book.held ==> Here().book.held[x].qty == 0
    {
      hide SimplePortfolio.Valid, SimplePortfolio.Now, Book.Valid, Steps, Value, CloseOne, Sum, Backtest.Play, MarketValue;
      ClosedOut(initialCash, bars);
      PlayIs(initialCash, bars);
      if |bars| == 0 {
        NothingToPlay(initialCash);
        return initialCash;
      }
      var last := PlayTicks(bars);
      Shows(portfolio, "");
      ForceCloseAll(last);
      finalCash := portfolio.ValueAt(prices);
    }

    method PlayTicks(bars: seq<Bar>) returns (last: map<string, Tick>)
      requires Valid() && Here() == Opening(initialCash)
      modifies this, portfolio, portfolio.owned
      ensures Valid() && Here() == Steps(Opening(initialCash), bars) && last == LastTicks(bars)
      ensures fresh(portfolio.owned - old(portfolio.owned))
    {
      hide SimplePortfolio.Valid, SimplePortfolio.Now, Book.Valid, Step;
      last := map[];
      var i := 0;
      while i < |bars|
        invariant 0 <= i <= |bars| && Valid()
        invariant Here() == Steps(Opening(initialCash), bars[..i]) && last == LastTicks(bars[..i])
        invariant fresh(portfolio.owned - old(portfolio.owned))
      {
        assert bars[..i + 1][..i] == bars[..i];
        PlayTick(bars[i]);
        last := last[bars[i].tick.symbol := bars[i].tick];
        i := i + 1;
      }
      assert bars[..i] == bars;
    }

    method PlayTick(bar: Bar)
      requires Valid()
      modifies this, portfolio, portfolio.owned
      ensures Valid() && old(portfolio.Now()).Valid() && Here() == Step(old(Here()), bar)
      ensures fresh(portfolio.owned - old(portfolio.owned))
      ensures Accounted(old(Here()), initialCash) ==> Accounted(Here(), initialCash)
    {
      hide SimplePortfolio.Valid, SimplePortfolio.Now, Book.Valid, Backtest.CheckExit, Backtest.CheckEntry, MarketValue, Tick.Price, Accounted;
      Shows(portfolio, "");
      prices := prices[bar.tick.symbol := bar.tick.Price()];
      CheckExit(bar.tick, bar.exit);
      Shows(portfolio, "");
      CheckEntry(bar.tick, bar.entry);
      var value := portfolio.ValueAt(prices);
      equity := equity + [value];
      StepAccountsIf(old(Here()), bar, initialCash);
    }
  }
}
