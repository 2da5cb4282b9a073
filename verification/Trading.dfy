/** What each answer of a strategy does to the shares and the cash, in numbers. */
module Trading {
  import opened Backtest

  /** Every other position is untouched. */
  ghost predicate OthersKept(b: Book, c: Book, symbol: string) {
    forall s :: s in b.held && s != symbol ==> s in c.held && c.held[s] == b.held[s]
  }

  function Shares(b: Book, symbol: string): int { if symbol in b.held then b.held[symbol].qty else 0 }

  function Paid(b: Book, symbol: string): real { if symbol in b.held then CostOf(b.held[symbol]) else 0.0 }

  /** So many shares at a price, or at a gain. */
  function Worth(qty: int, price: real): real { qty as real * price }

  lemma AmountIs(qty: int, price: real)
    ensures Amount(qty, price) == Worth(qty, price)
  {
  }

  /** A purchase goes through if and only if it is of some shares and the cash covers it.  It adds those shares
      to the position and their price to its cost, and takes it from the cash; otherwise nothing changes. */
  lemma BuysIff(b: Book, symbol: string, qty: int, price: real)
    requires b.Valid()
    ensures var c := Bought(b, symbol, qty, price);
            && (!(qty > 0 && Worth(qty, price) <= b.cash) ==> c == b)
            && (qty > 0 && Worth(qty, price) <= b.cash ==>
                  && symbol in c.held && Shares(c, symbol) == Shares(b, symbol) + qty
                  && Paid(c, symbol) == Paid(b, symbol) + Worth(qty, price)
                  && c.cash == b.cash - Worth(qty, price) && c.realized == b.realized && OthersKept(b, c, symbol)
                  && c.held[symbol].highestReturn == (if symbol in b.held then b.held[symbol].highestReturn else 0.0))
  {
    hide Averaged, Amount, CostOf, Worth;
    var h := Touch(b, symbol).held[symbol];
    AmountIs(qty, price);
    NothingCosts();
    if qty > 0 { AveragePays(h, qty, Amount(qty, price)); }
  }

  /** A sale takes what was asked, and at most what is held, at that price; a position sold out starts over. */
  lemma SellsWhatItCan(b: Book, symbol: string, qty: int, price: real)
    requires b.Valid()
    ensures var c := Sold(b, symbol, qty, price);
            var n := if qty <= 0 || Shares(b, symbol) <= 0 then 0 else if qty < Shares(b, symbol) then qty else Shares(b, symbol);
            && symbol in c.held && Shares(c, symbol) == Shares(b, symbol) - n && OthersKept(b, c, symbol)
            && c.cash == b.cash + Worth(n, price)
            && (symbol in b.held && n < Shares(b, symbol) ==> c.held[symbol].avgPrice == b.held[symbol].avgPrice)
            && (n > 0 && n == Shares(b, symbol) ==> c.held[symbol] == NOTHING)
            && (symbol in b.held && n > 0 ==> c.realized == b.realized + Worth(n, price - b.held[symbol].avgPrice))
  {
  }

  /** The part of the shares that a ratio stands for: rounded down, and one share at least. */
  ghost predicate IsPart(qty: int, ratio: real, n: int) {
    var part := qty as real * ratio;
    n >= 1 && part < (n + 1) as real && (n == 1 || n as real <= part)
  }

  lemma PartIsPart(qty: int, ratio: real)
    ensures IsPart(qty, ratio, PartOf(qty, ratio))
  {
  }

  /** An open position at a positive price. */
  ghost predicate Open(b: Book, symbol: string) { symbol in b.held && b.held[symbol].qty > 0 && b.held[symbol].avgPrice > 0.0 }

  /** One trade is logged. */
  ghost predicate Logs(r: Run, t: Run, symbol: string, qty: int, price: real, pnl: real) {
    exists entry :: t.trades == r.trades + [Trade(symbol, entry, price, qty, pnl)]
  }

  /** The run after looking at an open position: only its best return may have moved. */
  function Looked(r: Run, symbol: string, price: real): Run
    requires Exitable(r.book, symbol)
  {
    r.(book := Set(r.book, symbol, WithReturn(r.book.held[symbol], price)))
  }

  lemma OpenExit(r: Run, tick: Tick, exit: Exit)
    requires r.book.Valid() && Open(r.book, tick.symbol)
    ensures var seen := Looked(r, tick.symbol, tick.Price());
            && seen.book.Valid() && Open(seen.book, tick.symbol)
            && Shares(seen.book, tick.symbol) == Shares(r.book, tick.symbol) && seen.book.cash == r.book.cash
            && seen.book.held[tick.symbol].avgPrice == r.book.held[tick.symbol].avgPrice && OthersKept(r.book, seen.book, tick.symbol)
            && CheckExit(r, tick, exit)
               == match exit
                  case Keep => seen
                  case SellPart(ratio) => SellingPart(seen, tick.symbol, PartOf(Shares(r.book, tick.symbol), ratio), tick.Price())
                  case SellAll => SellingAll(seen, tick.symbol, tick.Price())
  {
    hide PartOf, SellingPart, SellingAll;
  }

  lemma ProfitIs(b: Book, symbol: string, qty: int, price: real)
    requires symbol in b.held && qty > 0 && b.held[symbol].qty > 0
    ensures Profit(b, symbol, qty, price)
         == Worth(Sellable(b, symbol, qty), price - b.held[symbol].avgPrice)
  {
  }

  /** A position that is not open, or one the strategy keeps, is left alone. */
  lemma ExitKeeps(r: Run, tick: Tick, exit: Exit)
    requires r.book.Valid() && (!Open(r.book, tick.symbol) || exit.Keep?)
    ensures var t := CheckExit(r, tick, exit);
            && Shares(t.book, tick.symbol) == Shares(r.book, tick.symbol) && Paid(t.book, tick.symbol) == Paid(r.book, tick.symbol)
            && t == r.(book := t.book) && t.book.cash == r.book.cash && OthersKept(r.book, t.book, tick.symbol)
  {
    hide PartOf, SellingPart, SellingAll;
    if Open(r.book, tick.symbol) { OpenExit(r, tick, exit); }
  }

  lemma SellingAllDoes(r: Run, symbol: string, price: real)
    requires r.book.Valid() && Open(r.book, symbol)
    ensures var t := SellingAll(r, symbol, price);
            var n := Shares(r.book, symbol);
            && symbol in t.book.held && t.book.held[symbol] == NOTHING && OthersKept(r.book, t.book, symbol)
            && t.book.cash == r.book.cash + Worth(n, price) && t.entries == r.entries - {symbol}
            && t.trades == r.trades + [Trade(symbol, EntryPrice(r, symbol, r.book.held[symbol].avgPrice), price, n,
                                             Worth(n, price - r.book.held[symbol].avgPrice))]
  {
    hide Sold, Profit, EntryPrice, Book.Valid, Worth;
    SellsWhatItCan(r.book, symbol, Shares(r.book, symbol), price);
    ProfitIs(r.book, symbol, Shares(r.book, symbol), price);
  }

  /** Sold out, nothing of the position is left, and one trade of all its shares is logged with its profit. */
  lemma ExitSellsAll(r: Run, tick: Tick)
    requires r.book.Valid() && Open(r.book, tick.symbol)
    ensures var t := CheckExit(r, tick, SellAll);
            var symbol, price, n := tick.symbol, tick.Price(), Shares(r.book, tick.symbol);
            && symbol in t.book.held && t.book.held[symbol] == NOTHING && OthersKept(r.book, t.book, symbol)
            && t.book.cash == r.book.cash + Worth(n, price) && t.entries == r.entries - {symbol}
            && Logs(r, t, symbol, n, price, Worth(n, price - r.book.held[symbol].avgPrice))
  {
    hide CheckExit, Looked, SellingAll, EntryPrice, Book.Valid, Worth;
    var symbol, price := tick.symbol, tick.Price();
    OpenExit(r, tick, SellAll);
    LookedSame(r, symbol, price);
    SellingAllDoes(Looked(r, symbol, price), symbol, price);
  }

  lemma LookedSame(r: Run, symbol: string, price: real)
    requires Exitable(r.book, symbol)
    ensures var seen := Looked(r, symbol, price);
            && seen == r.(book := seen.book) && seen.book == r.book.(held := seen.book.held)
  {
  }

  /** Of so many shares no more than are held can be sold. */
  function Sellable(b: Book, symbol: string, qty: int): int { if qty < Shares(b, symbol) then qty else Shares(b, symbol) }

  /** What a sale of a part does. */
  ghost predicate SoldPart(r: Run, t: Run, symbol: string, price: real, part: int) {
    var n := Sellable(r.book, symbol, part);
    && symbol in r.book.held && symbol in t.book.held
    && Shares(t.book, symbol) == Shares(r.book, symbol) - n && t.book.held[symbol].partialTaken
    && t.book.cash == r.book.cash + Worth(n, price) && t.entries == r.entries && OthersKept(r.book, t.book, symbol)
    && Logs(r, t, symbol, part, price, Worth(n, price - r.book.held[symbol].avgPrice))
  }

  lemma PartLogged(r: Run, symbol: string, price: real, part: int, pnl: real)
    requires r.book.Valid() && pnl == Profit(r.book, symbol, part, price)
    ensures Logs(r, SellingPart(r, symbol, part, price), symbol, part, price, pnl)
  {
    hide Sold, Profit, EntryPrice;
    var d := SellingPart(r, symbol, part, price).book;
    assert SellingPart(r, symbol, part, price).trades
           == r.trades + [Trade(symbol, EntryPrice(r, symbol, d.held[symbol].avgPrice), price, part, pnl)];
  }

  lemma PartTaken(r: Run, symbol: string, price: real, part: int)
    requires r.book.Valid() && Open(r.book, symbol) && part >= 1
    ensures var t, n := SellingPart(r, symbol, part, price), Sellable(r.book, symbol, part);
            && symbol in t.book.held && Shares(t.book, symbol) == Shares(r.book, symbol) - n
            && t.book.held[symbol].partialTaken && t.book.cash == r.book.cash + Worth(n, price)
            && t.entries == r.entries && OthersKept(r.book, t.book, symbol)
  {
    hide Sold, Profit, EntryPrice, Book.Valid, Worth;
    SellsWhatItCan(r.book, symbol, part, price);
  }

  lemma SellingPartDoes(r: Run, symbol: string, price: real, part: int)
    requires r.book.Valid() && Open(r.book, symbol) && part >= 1
    ensures SoldPart(r, SellingPart(r, symbol, part, price), symbol, price, part)
  {
    hide SellingPart, Profit, Book.Valid, Logs, OthersKept, Worth;
    var pnl := Worth(Sellable(r.book, symbol, part), price - r.book.held[symbol].avgPrice);
    PartTaken(r, symbol, price, part);
    ProfitIs(r.book, symbol, part, price);
    PartLogged(r, symbol, price, part, pnl);
  }

  /** The ratio's part of the shares is sold, at most what is held, and one trade is logged with its profit. */
  lemma ExitSellsPart(r: Run, tick: Tick, ratio: real)
    requires r.book.Valid() && Open(r.book, tick.symbol)
    ensures exists part :: IsPart(Shares(r.book, tick.symbol), ratio, part)
                           && SoldPart(r, CheckExit(r, tick, SellPart(ratio)), tick.symbol, tick.Price(), part)
  {
    hide CheckExit, SellingPart, PartOf, Looked, IsPart, Book.Valid, Logs, Worth;
    var symbol, price, part := tick.symbol, tick.Price(), PartOf(Shares(r.book, tick.symbol), ratio);
    var seen := Looked(r, symbol, price);
    PartIsPart(Shares(r.book, symbol), ratio);
    OpenExit(r, tick, SellPart(ratio));
    LookedSame(r, symbol, price);
    PartIsSome(Shares(r.book, symbol), ratio, part);
    SellingPartDoes(seen, symbol, price, part);
    SamePart(r, seen, SellingPart(seen, symbol, part, price), symbol, price, part);
  }

  lemma SamePart(r: Run, seen: Run, t: Run, symbol: string, price: real, part: int)
    requires SoldPart(seen, t, symbol, price, part) && symbol in r.book.held && symbol in seen.book.held
    requires seen == r.(book := seen.book) && Shares(seen.book, symbol) == Shares(r.book, symbol)
    requires seen.book.cash == r.book.cash && seen.book.held[symbol].avgPrice == r.book.held[symbol].avgPrice
    requires OthersKept(r.book, seen.book, symbol)
    ensures SoldPart(r, t, symbol, price, part)
  {
  }

  lemma PartIsSome(qty: int, ratio: real, n: int)
    requires IsPart(qty, ratio, n)
    ensures n >= 1
  {
  }

  /** The best return of a position that is kept is the higher of the one so far and the present one. */
  lemma BestReturnKept(r: Run, tick: Tick)
    requires r.book.Valid() && Open(r.book, tick.symbol)
    ensures var h, g := r.book.held[tick.symbol], CheckExit(r, tick, Keep).book.held[tick.symbol];
            var gained := (tick.Price() - h.avgPrice) / h.avgPrice * 100.0;
            gained <= g.highestReturn && h.highestReturn <= g.highestReturn && g.highestReturn in {gained, h.highestReturn}
  {
    OpenExit(r, tick, Keep);
  }

  /** The entry answer: shares are bought if the cash covers them, and their average price is noted. */
  lemma EntryObeyed(r: Run, tick: Tick, qty: int)
    requires r.book.Valid()
    ensures var t := CheckEntry(r, tick, Buy(qty));
            && (!(qty > 0 && Worth(qty, tick.Price()) <= r.book.cash) ==> t == r)
            && (qty > 0 && Worth(qty, tick.Price()) <= r.book.cash ==>
                  && t.book == Bought(r.book, tick.symbol, qty, tick.Price()) && tick.symbol in t.book.held
                  && t.entries == r.entries[tick.symbol := t.book.held[tick.symbol].avgPrice] && t.trades == r.trades)
    ensures CheckEntry(r, tick, Skip) == r
  {
    hide Bought, Worth, Amount;
    AmountIs(qty, tick.Price());
    BuysIff(r.book, tick.symbol, qty, tick.Price());
  }

  /** On one tick the old position is left before a new one is entered: with all sold and some bought, what is
      held is what was bought, at the tick's price. */
  lemma LeavesBeforeEntering(r: Run, tick: Tick, qty: int)
    requires r.book.Valid() && Open(r.book, tick.symbol) && qty > 0
    requires Worth(qty, tick.Price()) <= r.book.cash + Worth(Shares(r.book, tick.symbol), tick.Price())
    ensures var t := Step(r, Bar(tick, SellAll, Buy(qty)));
            && tick.symbol in t.book.held && Shares(t.book, tick.symbol) == qty
            && t.book.held[tick.symbol].avgPrice == tick.Price()
            && t.book.cash == r.book.cash + Worth(Shares(r.book, tick.symbol) - qty, tick.Price())
  {
    hide CheckExit, CheckEntry, Bought, MarketValue, OthersKept, Logs, Step, Worth;
    var symbol, price := tick.symbol, tick.Price();
    var priced := r.(prices := r.prices[symbol := price]);
    var left := CheckExit(priced, tick, SellAll);
    ExitSellsAll(priced, tick);
    EntryObeyed(left, tick, qty);
    StepIs(r, tick, SellAll, Buy(qty));
    Restarts(left.book, symbol, qty, price);
    Spread(Shares(r.book, symbol), qty, price);
  }

  lemma StepIs(r: Run, tick: Tick, exit: Exit, entry: Entry)
    requires r.book.Valid()
    ensures var priced := r.(prices := r.prices[tick.symbol := tick.Price()]);
            Step(r, Bar(tick, exit, entry)).book == CheckEntry(CheckExit(priced, tick, exit), tick, entry).book
  {
    hide CheckExit, CheckEntry, MarketValue;
  }

  lemma Restarts(b: Book, symbol: string, qty: int, price: real)
    requires b.Valid() && symbol in b.held && b.held[symbol] == NOTHING && qty > 0 && Worth(qty, price) <= b.cash
    ensures var c := Bought(b, symbol, qty, price);
            symbol in c.held && c.held[symbol].qty == qty && c.held[symbol].avgPrice == price && c.cash == b.cash - Worth(qty, price)
  {
    hide Bought, Paid, OthersKept, Worth;
    BuysIff(b, symbol, qty, price);
    CostIs(Bought(b, symbol, qty, price), symbol);
    CostIs(b, symbol);
    Averages(qty, Bought(b, symbol, qty, price).held[symbol].avgPrice, price);
  }

  lemma CostIs(b: Book, symbol: string)
    requires symbol in b.held
    ensures Paid(b, symbol) == Worth(b.held[symbol].qty, b.held[symbol].avgPrice)
    ensures b.held[symbol] == NOTHING ==> Paid(b, symbol) == 0.0
  {
  }

  lemma Averages(qty: int, average: real, price: real)
    requires qty > 0
    ensures Worth(qty, average) == Worth(qty, price) ==> average == price
  {
  }

  lemma Spread(held: int, qty: int, price: real)
    ensures Worth(held, price) - Worth(qty, price) == Worth(held - qty, price)
  {
    assert (held - qty) as real == held as real - qty as real;
  }

  /** A tick that is recorded: its price becomes the symbol's, and the equity after it is the initial cash, the
      logged profit and the open gain at the prices known by then. */
  lemma StepRecords(r: Run, bar: Bar, initial: real)
    requires Accounted(r, initial)
    ensures var t := Step(r, bar);
            && t.prices == r.prices[bar.tick.symbol := if bar.tick.price != 0.0 then bar.tick.price else bar.tick.close]
            && t.equity == r.equity + [initial + Sum(t.trades) + Gain(t.book.held, t.book.order, t.prices)]
  {
    hide CheckExit, CheckEntry, MarketValue, Sum, Gain, Cost;
    var priced := r.(prices := r.prices[bar.tick.symbol := bar.tick.Price()]);
    StepAccounts(r, bar, initial);
    EquityIsExplained(Step(r, bar), initial);
    ExitRecords(priced, bar.tick, bar.exit);
    EntryRecords(CheckExit(priced, bar.tick, bar.exit), bar.tick, bar.entry);
  }

  lemma ExitRecords(r: Run, tick: Tick, exit: Exit)
    requires r.book.Valid()
    ensures var t := CheckExit(r, tick, exit); t.prices == r.prices && t.equity == r.equity
  {
    hide Sold, Profit, PartOf, Touch;
  }

  lemma EntryRecords(r: Run, tick: Tick, entry: Entry)
    requires r.book.Valid()
    ensures var t := CheckEntry(r, tick, entry); t.prices == r.prices && t.equity == r.equity
  {
    hide Bought;
  }

  /** The last tick of each symbol. */
  lemma {:induction false} LastTickIs(bars: seq<Bar>, i: nat)
    requires i < |bars| && forall k :: i < k < |bars| ==> bars[k].tick.symbol != bars[i].tick.symbol
    ensures bars[i].tick.symbol in LastTicks(bars) && LastTicks(bars)[bars[i].tick.symbol] == bars[i].tick
  {
    if i < |bars| - 1 { LastTickIs(bars[..|bars| - 1], i); }
  }

  /** The forced close sells an open position whole at the price of its last tick and logs the one trade. */
  lemma CloseObeyed(r: Run, symbol: string, last: map<string, Tick>)
    requires r.book.Valid() && symbol in r.book.held && r.book.held[symbol].qty > 0 && symbol in last
    ensures var t, n := CloseOne(r, symbol, last), r.book.held[symbol].qty;
            var price := if last[symbol].price != 0.0 then last[symbol].price else last[symbol].close;
            && t.book.held[symbol] == NOTHING && OthersKept(r.book, t.book, symbol)
            && t.book.cash == r.book.cash + Worth(n, price) && t.entries == r.entries - {symbol}
            && t.prices == r.prices[symbol := price]
            && Logs(r, t, symbol, n, price, Worth(n, price - r.book.held[symbol].avgPrice))
  {
    hide Sold, Profit, MarketValue, EntryPrice, Worth;
    var h := r.book.held[symbol];
    SellsWhatItCan(r.book, symbol, h.qty, last[symbol].Price());
    ProfitIs(r.book, symbol, h.qty, last[symbol].Price());
    assert CloseOne(r, symbol, last).trades
           == r.trades + [Trade(symbol, EntryPrice(r, symbol, h.avgPrice), last[symbol].Price(), h.qty,
                                Worth(h.qty, last[symbol].Price() - h.avgPrice))];
  }
}
