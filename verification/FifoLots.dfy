/** Realized profit by first-in first-out lots: the loop keeps (quantity, price) lots, the
    specification keeps one queue entry per share. */
module FifoLots {
  import opened Prelude

  type Symbol = int

  datatype Side = Buy | Sell

  /** A filled order; quantities are positive. */
  datatype Fill = Fill(symbol: Symbol, side: Side, quantity: int, price: real)

  datatype Lot = Lot(quantity: int, price: real)

  ghost predicate ValidFills(fills: seq<Fill>) {
    forall i :: 0 <= i < |fills| ==> fills[i].quantity > 0
  }

  // ---------------------------------------------------------------- the per-share queue

  /** One symbol's book: the purchase price of every share held, oldest first, the profit of the
      matched shares, and whether any sale met a share. */
  datatype Book = Book(queue: seq<real>, realized: real, met: bool)

  function Shares(n: nat, price: real): (s: seq<real>)
    ensures |s| == n && forall i :: 0 <= i < n ==> s[i] == price
  {
    seq(n, _ => price)
  }

  /** Profit of selling each of the bought shares at the price. */
  function Profit(bought: seq<real>, price: real): real {
    if bought == [] then 0.0 else (price - bought[0]) + Profit(bought[1..], price)
  }

  function Matched(queue: seq<real>, quantity: int): nat {
    if quantity <= 0 then 0 else if quantity <= |queue| then quantity else |queue|
  }

  function Apply(b: Book, f: Fill): Book
    requires f.quantity > 0
  {
    match f.side
    case Buy => b.(queue := b.queue + Shares(f.quantity, f.price))
    case Sell =>
      var k := Matched(b.queue, f.quantity);
      Book(b.queue[k..], b.realized + Profit(b.queue[..k], f.price), b.met || b.queue != [])
  }

  function BookOf(fills: seq<Fill>, s: Symbol): Book
    requires ValidFills(fills)
  {
    if fills == [] then Book([], 0.0, false)
    else
      var n := |fills| - 1;
      var b := BookOf(fills[..n], s);
      if fills[n].symbol == s then Apply(b, fills[n]) else b
  }

  // ---------------------------------------------------------------- lots expand to shares

  ghost predicate ValidLots(lots: seq<Lot>) {
    forall i :: 0 <= i < |lots| ==> lots[i].quantity > 0
  }

  function Expand(lots: seq<Lot>): seq<real>
    requires ValidLots(lots)
  {
    if lots == [] then [] else Shares(lots[0].quantity, lots[0].price) + Expand(lots[1..])
  }

  lemma {:induction false} ExpandAppend(lots: seq<Lot>, lot: Lot)
    requires ValidLots(lots) && lot.quantity > 0
    ensures Expand(lots + [lot]) == Expand(lots) + Shares(lot.quantity, lot.price)
    decreases |lots|
  {
    if lots == [] {
      assert [lot][1..] == [];
    } else {
      ExpandAppend(lots[1..], lot);
      assert (lots + [lot])[1..] == lots[1..] + [lot];
    }
  }

  lemma {:induction false} ProfitConcat(xs: seq<real>, ys: seq<real>, price: real)
    ensures Profit(xs + ys, price) == Profit(xs, price) + Profit(ys, price)
    decreases |xs|
  {
    if xs == [] {
      assert xs + ys == ys;
    } else {
      assert (xs + ys)[1..] == xs[1..] + ys;
      ProfitConcat(xs[1..], ys, price);
    }
  }

  lemma {:induction false} ProfitOfLot(n: nat, cost: real, price: real)
    ensures Profit(Shares(n, cost), price) == (price - cost) * n as real
    decreases n
  {
    if n == 0 {
    } else {
      ProfitOfLot(n - 1, cost, price);
      assert Shares(n, cost)[1..] == Shares(n - 1, cost);
    }
  }

  // ---------------------------------------------------------------- the loop

  function LotsOf(lots: map<Symbol, seq<Lot>>, s: Symbol): seq<Lot> {
    if s in lots then lots[s] else []
  }

  function RealizedOf(realized: map<Symbol, real>, s: Symbol): real {
    if s in realized then realized[s] else 0.0
  }

  /** The dictionaries hold exactly the books. */
  ghost predicate Holds(lots: seq<Lot>, realized: real, present: bool, b: Book) {
    ValidLots(lots) && Expand(lots) == b.queue && realized == b.realized && present == b.met
  }

  ghost predicate Represents(lots: map<Symbol, seq<Lot>>, realized: map<Symbol, real>, fills: seq<Fill>)
    requires ValidFills(fills)
  {
    forall s :: Holds(LotsOf(lots, s), RealizedOf(realized, s), s in realized, BookOf(fills, s))
  }

  /** One sale: pop lots from the left, match, and push back what is left of the last one. */
  method SellFrom(lots: seq<Lot>, quantity: int, price: real, realized: real)
    returns (rest: seq<Lot>, profit: real, met: bool)
    requires ValidLots(lots) && quantity > 0
    ensures ValidLots(rest)
    ensures var k := Matched(Expand(lots), quantity);
            && Expand(rest) == Expand(lots)[k..]
            && profit == realized + Profit(Expand(lots)[..k], price)
    ensures met <==> Expand(lots) != []
  {
    ghost var queue := Expand(lots);
    var remaining := quantity;
    rest, profit, met := lots, realized, false;
    ghost var k: nat := 0;
    assert queue[0..] == queue;
    while remaining > 0 && rest != []
      invariant ValidLots(rest)
      invariant 0 <= remaining == quantity - k && k <= |queue|
      invariant Expand(rest) == queue[k..]
      invariant profit == realized + Profit(queue[..k], price)
      invariant met <==> k > 0
      decreases remaining
    {
      var lot := rest[0];
      ExpandCons(lot, rest[1..]);
      assert rest == [lot] + rest[1..];
      rest := rest[1..];
      var matched := MinInt(remaining, lot.quantity);
      MatchLot(queue, k, lot, rest, matched, price);
      profit := profit + (price - lot.price) * matched as real;
      remaining := remaining - matched;
      met := true;
      if lot.quantity > matched {
        rest := [Lot(lot.quantity - matched, lot.price)] + rest;
      }
      k := k + matched;
    }
    assert rest == [] ==> queue[k..] == [];
    assert k == Matched(queue, quantity);
  }

  /** What is left of the lots after taking part of the first one. */
  function Remainder(lot: Lot, rest: seq<Lot>, matched: int): seq<Lot> {
    if lot.quantity > matched then [Lot(lot.quantity - matched, lot.price)] + rest else rest
  }

  lemma ExpandCons(lot: Lot, rest: seq<Lot>)
    requires lot.quantity > 0 && ValidLots(rest)
    ensures ValidLots([lot] + rest) && Expand([lot] + rest) == Shares(lot.quantity, lot.price) + Expand(rest)
  {
  }

  lemma RemainderExpands(lot: Lot, rest: seq<Lot>, matched: int)
    requires lot.quantity > 0 && ValidLots(rest) && 0 < matched <= lot.quantity
    ensures ValidLots(Remainder(lot, rest, matched))
    ensures Shares(lot.quantity, lot.price) + Expand(rest)
         == Shares(matched, lot.price) + Expand(Remainder(lot, rest, matched))
  {
  }

  /** Matching part of the first lot removes that many shares from the front of the queue. */
  lemma MatchLot(queue: seq<real>, k: nat, lot: Lot, rest: seq<Lot>, matched: int, price: real)
    requires k <= |queue| && lot.quantity > 0 && ValidLots(rest) && 0 < matched <= lot.quantity
    requires Shares(lot.quantity, lot.price) + Expand(rest) == queue[k..]
    ensures k + matched <= |queue|
    ensures Profit(queue[..k + matched], price) == Profit(queue[..k], price) + (price - lot.price) * matched as real
    ensures ValidLots(Remainder(lot, rest, matched)) && Expand(Remainder(lot, rest, matched)) == queue[k + matched..]
  {
    var first := Shares(matched, lot.price);
    RemainderExpands(lot, rest, matched);
    FrontAndRest(queue, k, first, Expand(Remainder(lot, rest, matched)));
    ProfitConcat(queue[..k], first, price);
    ProfitOfLot(matched, lot.price, price);
  }

  lemma FrontAndRest(queue: seq<real>, k: nat, first: seq<real>, rest: seq<real>)
    requires k <= |queue| && queue[k..] == first + rest
    ensures k + |first| <= |queue|
    ensures queue[..k + |first|] == queue[..k] + first && queue[k + |first|..] == rest
  {
  }

  lemma BookStep(fills: seq<Fill>, i: nat, s: Symbol)
    requires ValidFills(fills) && i < |fills|
    ensures BookOf(fills[..i + 1], s) ==
            if s == fills[i].symbol then Apply(BookOf(fills[..i], s), fills[i]) else BookOf(fills[..i], s)
  {
    assert fills[..i + 1][..i] == fills[..i];
  }

  /** Only the traded symbol's entries change, and they change like its book. */
  lemma StepRepresents(fills: seq<Fill>, i: nat, lots: map<Symbol, seq<Lot>>, realized: map<Symbol, real>,
                       lots': map<Symbol, seq<Lot>>, realized': map<Symbol, real>)
    requires ValidFills(fills) && i < |fills| && Represents(lots, realized, fills[..i])
    requires forall s :: s != fills[i].symbol ==>
               LotsOf(lots', s) == LotsOf(lots, s) && RealizedOf(realized', s) == RealizedOf(realized, s) &&
               (s in realized' <==> s in realized)
    requires Holds(LotsOf(lots', fills[i].symbol), RealizedOf(realized', fills[i].symbol),
                   fills[i].symbol in realized', Apply(BookOf(fills[..i], fills[i].symbol), fills[i]))
    ensures Represents(lots', realized', fills[..i + 1])
  {
    forall s ensures Holds(LotsOf(lots', s), RealizedOf(realized', s), s in realized', BookOf(fills[..i + 1], s)) {
      BookStep(fills, i, s);
      assert Holds(LotsOf(lots, s), RealizedOf(realized, s), s in realized, BookOf(fills[..i], s));
    }
  }

  method RealizedBySymbol(fills: seq<Fill>) returns (result: map<Symbol, real>)
    requires ValidFills(fills)
    ensures forall s :: s in result <==> BookOf(fills, s).met
    ensures forall s :: s in result ==> result[s] == BookOf(fills, s).realized
  {
    var lots: map<Symbol, seq<Lot>> := map[];
    result := map[];
    for i := 0 to |fills|
      invariant Represents(lots, result, fills[..i])
    {
      var f := fills[i];
      ghost var book := BookOf(fills[..i], f.symbol);
      assert Holds(LotsOf(lots, f.symbol), RealizedOf(result, f.symbol), f.symbol in result, book);
      ghost var lots0, result0 := lots, result;
      if f.side.Buy? {
        ExpandAppend(LotsOf(lots, f.symbol), Lot(f.quantity, f.price));
        lots := lots[f.symbol := LotsOf(lots, f.symbol) + [Lot(f.quantity, f.price)]];
      } else {
        var rest, profit, met := SellFrom(LotsOf(lots, f.symbol), f.quantity, f.price, RealizedOf(result, f.symbol));
        lots := lots[f.symbol := rest];
        if met {
          result := result[f.symbol := profit];
        } else {
          NothingMatched(book, f);
        }
      }
      StepRepresents(fills, i, lots0, result0, lots, result);
    }
    assert fills[..|fills|] == fills;
    forall s ensures Holds(LotsOf(lots, s), RealizedOf(result, s), s in result, BookOf(fills, s)) {
    }
  }

  lemma NothingMatched(b: Book, f: Fill)
    requires f.quantity > 0 && f.side.Sell? && b.queue == []
    ensures Apply(b, f) == b
  {
  }

  // ---------------------------------------------------------------- first in, first out

  /** All shares ever bought, in order. */
  function Bought(fills: seq<Fill>, s: Symbol): seq<real>
    requires ValidFills(fills)
  {
    if fills == [] then []
    else
      var n := |fills| - 1;
      var f := fills[n];
      Bought(fills[..n], s) + if f.symbol == s && f.side.Buy? then Shares(f.quantity, f.price) else []
  }

  function Value(n: nat, price: real): real { price * n as real }

  /** Proceeds of the sold shares that met a bought one, and the value of those that did not. */
  function Proceeds(fills: seq<Fill>, s: Symbol): real
    requires ValidFills(fills)
  {
    if fills == [] then 0.0
    else
      var n := |fills| - 1;
      var f := fills[n];
      Proceeds(fills[..n], s) +
      if f.symbol == s && f.side.Sell? then Value(Matched(BookOf(fills[..n], s).queue, f.quantity), f.price) else 0.0
  }

  function SharesSold(fills: seq<Fill>, s: Symbol): nat
    requires ValidFills(fills)
  {
    if fills == [] then 0
    else
      var n := |fills| - 1;
      var f := fills[n];
      SharesSold(fills[..n], s) +
      if f.symbol == s && f.side.Sell? then Matched(BookOf(fills[..n], s).queue, f.quantity) else 0
  }

  /** The shares still held are the most recently bought ones: matching takes the oldest first,
      and every bought share is either matched once or still held. */
  lemma {:induction false} HeldAreTheNewest(fills: seq<Fill>, s: Symbol)
    requires ValidFills(fills)
    ensures SharesSold(fills, s) <= |Bought(fills, s)|
    ensures BookOf(fills, s).queue == Bought(fills, s)[SharesSold(fills, s)..]
    decreases |fills|
  {
    if fills == [] {
    } else {
      HeldAreTheNewest(fills[..|fills| - 1], s);
    }
  }

  lemma {:induction false} ProfitIsProceedsLessCost(bought: seq<real>, price: real)
    ensures Profit(bought, price) == Value(|bought|, price) - Cost(bought)
    decreases |bought|
  {
    if bought == [] {
    } else {
      ProfitIsProceedsLessCost(bought[1..], price);
      ValueStep(|bought| - 1, price);
    }
  }

  lemma ValueStep(n: nat, price: real)
    ensures Value(n + 1, price) == Value(n, price) + price
  {
  }

  function Cost(shares: seq<real>): real {
    if shares == [] then 0.0 else shares[0] + Cost(shares[1..])
  }

  lemma {:induction false} CostConcat(xs: seq<real>, ys: seq<real>)
    ensures Cost(xs + ys) == Cost(xs) + Cost(ys)
    decreases |xs|
  {
    if xs == [] {
      assert xs + ys == ys;
    } else {
      assert (xs + ys)[1..] == xs[1..] + ys;
      CostConcat(xs[1..], ys);
    }
  }

  /** Nothing is created or lost: realized profit plus the cost of everything bought equals the
      proceeds of the matched sales plus the cost of what is still held. */
  lemma {:induction false} ProfitIsConserved(fills: seq<Fill>, s: Symbol)
    requires ValidFills(fills)
    ensures BookOf(fills, s).realized + Cost(Bought(fills, s)) == Proceeds(fills, s) + Cost(BookOf(fills, s).queue)
    decreases |fills|
  {
    if fills == [] {
    } else {
      var n := |fills| - 1;
      var f := fills[n];
      ProfitIsConserved(fills[..n], s);
      if f.symbol == s {
        var b := BookOf(fills[..n], s);
        if f.side.Buy? {
          CostConcat(Bought(fills[..n], s), Shares(f.quantity, f.price));
          CostConcat(b.queue, Shares(f.quantity, f.price));
        } else {
          var k := Matched(b.queue, f.quantity);
          ProfitIsProceedsLessCost(b.queue[..k], f.price);
          CostConcat(b.queue[..k], b.queue[k..]);
          assert b.queue == b.queue[..k] + b.queue[k..];
          assert Bought(fills, s) == Bought(fills[..n], s);
        }
      } else {
        assert Bought(fills, s) == Bought(fills[..n], s);
      }
    }
  }

  lemma {:induction false} MetIffSold(fills: seq<Fill>, s: Symbol)
    requires ValidFills(fills)
    ensures BookOf(fills, s).met <==> SharesSold(fills, s) > 0
    decreases |fills|
  {
    if fills == [] {
    } else {
      MetIffSold(fills[..|fills| - 1], s);
    }
  }

  /** The i-th fill sells the symbol while shares of it are held. */
  predicate SaleMatches(fills: seq<Fill>, s: Symbol, i: nat)
    requires i < |fills| && ValidFills(fills)
  {
    fills[i].symbol == s && fills[i].side.Sell? && BookOf(fills[..i], s).queue != []
  }

  lemma MetStep(fills: seq<Fill>, s: Symbol)
    requires ValidFills(fills) && fills != []
    ensures var n := |fills| - 1;
            BookOf(fills, s).met <==> BookOf(fills[..n], s).met || SaleMatches(fills, s, n)
  {
  }

  lemma SaleAmongFirst(fills: seq<Fill>, n: nat, s: Symbol, i: nat)
    requires ValidFills(fills) && i < n <= |fills|
    ensures SaleMatches(fills[..n], s, i) <==> SaleMatches(fills, s, i)
  {
    assert fills[..n][..i] == fills[..i];
  }

  /** A symbol is reported exactly when some sale of it found a share to match. */
  lemma {:induction false} ReportedIffMatched(fills: seq<Fill>, s: Symbol)
    requires ValidFills(fills)
    ensures BookOf(fills, s).met <==> exists i: nat :: i < |fills| && SaleMatches(fills, s, i)
    ensures BookOf(fills, s).met <==> SharesSold(fills, s) > 0
    decreases |fills|
  {
    MetIffSold(fills, s);
    if fills == [] {
    } else {
      var n := |fills| - 1;
      ReportedIffMatched(fills[..n], s);
      MetStep(fills, s);
      forall i: nat | i < n ensures SaleMatches(fills[..n], s, i) <==> SaleMatches(fills, s, i) {
        SaleAmongFirst(fills, n, s, i);
      }
    }
  }
}
