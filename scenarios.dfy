/** Concrete runs of the row loop of `process_transactions` on small inputs,
    worked out on the value-level model. */
module Scenarios {
  import opened FifoSpec

  const Start := Books(map[], 0.0)

  function Buy(amount: real, rate: real, fee: real): Row
  {
    Row("Buy", amount, "BTC", rate, Some(fee))
  }

  function Sell(amount: real, rate: real, fee: real): Row
  {
    Row("Sell", amount, "BTC", rate, Some(fee))
  }

  /** A ledger holding deque `lots` for the one symbol of these runs. */
  function Held(lots: seq<LotState>): map<string, seq<LotState>>
  {
    map["BTC" := lots]
  }

  /** The first Buy row creates the symbol's deque holding the new lot. */
  lemma FirstBuy(row: Row)
    requires row.subType == "Buy" && row.symbol == "BTC"
    ensures Step(row, Start) == Ok(Books(Held([NewLot(row)]), 0.0))
  {
    var empty: map<string, seq<LotState>> := map[];
    assert [] + [NewLot(row)] == [NewLot(row)];
    assert empty["BTC" := [NewLot(row)]] == Held([NewLot(row)]);
  }

  /** A Buy row appends its lot to the deque. */
  lemma LaterBuy(row: Row, lots: seq<LotState>, gain: real)
    requires row.subType == "Buy" && row.symbol == "BTC"
    ensures Step(row, Books(Held(lots), gain)) == Ok(Books(Held(lots + [NewLot(row)]), gain))
  {
    assert Held(lots)["BTC" := lots + [NewLot(row)]] == Held(lots + [NewLot(row)]);
  }

  /** A Sell row that `consume` completes replaces the deque by what is left
      and adds its margin to the gain. */
  lemma CompletedSell(row: Row, lots: seq<LotState>, gain: real)
    requires row.subType == "Sell" && row.symbol == "BTC"
    requires Succeeded(Match(row.amount, lots))
    ensures Step(row, Books(Held(lots), gain))
         == Ok(Books(Held(Remaining(row.amount, lots)),
                     gain + row.rate * row.amount - (FeeOf(row) + Match(row.amount, lots).cost)))
  {
    var q := Remaining(row.amount, lots);
    var r := Match(row.amount, lots);
    SaleMarginOk(NewLot(row), r, row.rate * row.amount, FeeOf(row) + r.cost);
    assert Held(lots)["BTC" := q] == Held(q);
    SellStep(row, Books(Held(lots), gain));
  }

  /** A row that succeeds hands the rest of the run its books. */
  lemma ReplayFirst(rows: seq<Row>, b: Books, b': Books)
    requires rows != [] && Step(rows[0], b) == Ok(b')
    ensures Replay(rows, b) == Replay(rows[1..], b')
  {
  }

  /** A run of one Buy row and one Sell row that `consume` completes. */
  lemma BuyThenSell(buy: Row, sell: Row)
    requires buy.subType == "Buy" && buy.symbol == "BTC"
    requires sell.subType == "Sell" && sell.symbol == "BTC"
    requires Succeeded(Match(sell.amount, [NewLot(buy)]))
    ensures var lots := [NewLot(buy)];
      Replay([buy, sell], Start)
      == Ok(Books(Held(Remaining(sell.amount, lots)),
                  sell.rate * sell.amount - (FeeOf(sell) + Match(sell.amount, lots).cost)))
  {
    var rows := [buy, sell];
    var lots := [NewLot(buy)];
    var b1 := Books(Held(lots), 0.0);
    FirstBuy(buy);
    ReplayFirst(rows, Start, b1);
    CompletedSell(sell, lots, 0.0);
    ReplayFirst(rows[1..], b1, Step(sell, b1).value);
    assert rows[1..][1..] == [];
  }

  /** Buying one unit and selling exactly that unit at the same price, fee 10
      each: the sale takes the partial branch, the loss is 20, and the bought
      lot stays in the deque with amount 0. */
  lemma SellWholeLotAtCost()
    ensures Replay([Buy(1.0, 2000.0, 10.0), Sell(1.0, 2000.0, 10.0)], Start)
         == Ok(Books(Held([LotState(0.0, 1.0, 2000.0, 10.0)]), -20.0))
  {
    BuyThenSell(Buy(1.0, 2000.0, 10.0), Sell(1.0, 2000.0, 10.0));
    var lots := [LotState(1.0, 1.0, 2000.0, 10.0)];
    assert Match(1.0, lots) == Matched(0, 2010.0, 1.0, Split);
    assert Remaining(1.0, lots) == [LotState(0.0, 1.0, 2000.0, 10.0)];
  }

  /** The same lot sold at half its price loses 1020. */
  lemma SellWholeLotAtLoss()
    ensures Replay([Buy(1.0, 2000.0, 10.0), Sell(1.0, 1000.0, 10.0)], Start)
         == Ok(Books(Held([LotState(0.0, 1.0, 2000.0, 10.0)]), -1020.0))
  {
    BuyThenSell(Buy(1.0, 2000.0, 10.0), Sell(1.0, 1000.0, 10.0));
    var lots := [LotState(1.0, 1.0, 2000.0, 10.0)];
    assert Match(1.0, lots) == Matched(0, 2010.0, 1.0, Split);
    assert Remaining(1.0, lots) == [LotState(0.0, 1.0, 2000.0, 10.0)];
  }

  /** Selling half of a fresh lot of 2 units charges the lot's whole fee of
      10, not half of it: the loss is 15 and one unit stays open. */
  lemma SellHalfLotChargesWholeFee()
    ensures Replay([Buy(2.0, 1000.0, 10.0), Sell(1.0, 1000.0, 5.0)], Start)
         == Ok(Books(Held([LotState(1.0, 2.0, 1000.0, 10.0)]), -15.0))
  {
    BuyThenSell(Buy(2.0, 1000.0, 10.0), Sell(1.0, 1000.0, 5.0));
    var lots := [LotState(2.0, 2.0, 1000.0, 10.0)];
    assert Match(1.0, lots) == Matched(0, 1010.0, 1.0, Split);
    assert Remaining(1.0, lots) == [LotState(1.0, 2.0, 1000.0, 10.0)];
  }

  /** Selling a symbol that was never bought fails on the empty deque. */
  lemma SellWithoutLots()
    ensures Replay([Sell(1.0, 1000.0, 0.0)], Start) == Err(EmptyDeque)
  {
    assert Match(1.0, []) == Matched(0, 0.0, 1.0, OutOfLots);
  }

  /** The lot left at amount 0 by an exact sale is popped by the next sale,
      which charges its whole fee of 10 a second time. */
  lemma ExhaustedLotFeeChargedAgain()
    ensures Replay([Buy(1.0, 2000.0, 10.0), Sell(1.0, 2000.0, 10.0),
                    Buy(1.0, 3000.0, 0.0), Sell(1.0, 3000.0, 0.0)], Start)
         == Ok(Books(Held([LotState(0.0, 1.0, 3000.0, 0.0)]), -30.0))
  {
    var first := [Buy(1.0, 2000.0, 10.0), Sell(1.0, 2000.0, 10.0)];
    var second := [Buy(1.0, 3000.0, 0.0), Sell(1.0, 3000.0, 0.0)];
    SellWholeLotAtCost();
    ReplayConcat(first, second, Start);
    assert first + second == [Buy(1.0, 2000.0, 10.0), Sell(1.0, 2000.0, 10.0),
                              Buy(1.0, 3000.0, 0.0), Sell(1.0, 3000.0, 0.0)];
    var zero := LotState(0.0, 1.0, 2000.0, 10.0);
    var lots := [zero, LotState(1.0, 1.0, 3000.0, 0.0)];
    LaterBuy(Buy(1.0, 3000.0, 0.0), [zero], -20.0);
    assert [zero] + [NewLot(Buy(1.0, 3000.0, 0.0))] == lots;
    assert Match(1.0, lots[1..]) == Matched(0, 3000.0, 1.0, Split);
    assert Match(1.0, lots) == Matched(1, 3010.0, 1.0, Split);
    CompletedSell(Sell(1.0, 3000.0, 0.0), lots, -20.0);
    assert Remaining(1.0, lots) == [LotState(0.0, 1.0, 3000.0, 0.0)];
  }

  /** Two lots sold across three sales without fees: the first sale empties
      the older lot and splits the newer one, the next two split the newer
      lot down to 0; the gains are 5000, 3000 and 3000. */
  lemma MixedHoldings()
    ensures Replay([Buy(1.0, 1000.0, 0.0), Buy(2.0, 2000.0, 0.0), Sell(2.0, 4000.0, 0.0),
                    Sell(0.5, 8000.0, 0.0), Sell(0.5, 8000.0, 0.0)], Start)
         == Ok(Books(Held([LotState(0.0, 2.0, 2000.0, 0.0)]), 11000.0))
  {
    var s1, s2, s3 := Sell(2.0, 4000.0, 0.0), Sell(0.5, 8000.0, 0.0), Sell(0.5, 8000.0, 0.0);
    var older := LotState(1.0, 1.0, 1000.0, 0.0);
    var lots := [older, LotState(2.0, 2.0, 2000.0, 0.0)];
    var l3 := [LotState(1.0, 2.0, 2000.0, 0.0)];
    var l4 := [LotState(0.5, 2.0, 2000.0, 0.0)];
    var l5 := [LotState(0.0, 2.0, 2000.0, 0.0)];
    var rows := [Buy(1.0, 1000.0, 0.0), Buy(2.0, 2000.0, 0.0), s1, s2, s3];

    FirstBuy(rows[0]);
    ReplayFirst(rows, Start, Books(Held([older]), 0.0));
    LaterBuy(rows[1], [older], 0.0);
    assert [older] + [NewLot(rows[1])] == lots;
    assert rows[1..][1..] == [s1, s2, s3];
    ReplayFirst(rows[1..], Books(Held([older]), 0.0), Books(Held(lots), 0.0));

    assert Match(1.0, lots[1..]) == Matched(0, 2000.0, 1.0, Split);
    assert Match(2.0, lots) == Matched(1, 3000.0, 1.0, Split);
    assert Remaining(2.0, lots) == l3;
    CompletedSell(s1, lots, 0.0);
    ReplayFirst([s1, s2, s3], Books(Held(lots), 0.0), Books(Held(l3), 5000.0));

    assert Match(0.5, l3) == Matched(0, 1000.0, 0.5, Split);
    assert Remaining(0.5, l3) == l4;
    CompletedSell(s2, l3, 5000.0);
    assert [s1, s2, s3][1..] == [s2, s3];
    ReplayFirst([s2, s3], Books(Held(l3), 5000.0), Books(Held(l4), 8000.0));

    assert Match(0.5, l4) == Matched(0, 1000.0, 0.5, Split);
    assert Remaining(0.5, l4) == l5;
    CompletedSell(s3, l4, 8000.0);
    assert [s2, s3][1..] == [s3];
    ReplayFirst([s3], Books(Held(l4), 8000.0), Books(Held(l5), 11000.0));
  }
}
