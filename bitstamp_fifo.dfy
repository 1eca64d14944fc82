/** The imperative core of bitstamp_fifo.py: the Transaction record whose
    `amount` is consumed in place, `consume` with its while loop over the head
    of a symbol's deque, and the row loop of `process_transactions` over the
    ledger `all_holdings`, a map from symbol to a deque of Transaction objects.
    Each method is proved against the functions of FifoSpec. */
module BitstampFifo {
  import opened FifoSpec

  /** One Buy or Sell.  Only `amount` changes after construction: `consume`
      decreases it on the sale and on the lots it matches. */
  class Transaction {
    var amount: real
    const initialAmount: real
    const symbol: string
    const spotPrice: real
    const fee: real

    constructor (amount: real, symbol: string, spotPrice: real, fee: real)
      ensures this.amount == amount && initialAmount == amount
      ensures this.symbol == symbol && this.spotPrice == spotPrice && this.fee == fee
    {
      this.amount := amount;
      this.initialAmount := amount;
      this.symbol := symbol;
      this.spotPrice := spotPrice;
      this.fee := fee;
    }

    function State(): LotState
      reads this
    {
      LotState(amount, initialAmount, spotPrice, fee)
    }
  }

  /** The values of a deque of lots, head first. */
  function Snapshot(q: seq<Transaction>): (s: seq<LotState>)
    reads q
    ensures |s| == |q|
    ensures forall j :: 0 <= j < |q| ==> s[j] == q[j].State()
  {
    seq(|q|, j reads q requires 0 <= j < |q| => q[j].State())
  }

  /** Appending a lot appends its values. */
  lemma SnapshotAppend(q: seq<Transaction>, t: Transaction)
    ensures Snapshot(q + [t]) == Snapshot(q) + [t.State()]
  {
  }

  /** No lot object sits in a deque twice. */
  ghost predicate Unaliased(q: seq<Transaction>)
  {
    forall i, j :: 0 <= i < j < |q| ==> q[i] != q[j]
  }

  /** Consume the lots of `holdings` from the head for the sale `t`, as
      `consume` does; the deque after the call is returned as `rest`.
      `t` is the freshly built sale, never one of the lots. */
  method Consume(holdings: seq<Transaction>, t: Transaction) returns (rest: seq<Transaction>, margin: Result<real>)
    requires t !in holdings
    modifies t, holdings
    ensures var r := Match(old(t.amount), old(Snapshot(holdings)));
      && margin == SaleMargin(old(t.State()), r)
      && t.amount == r.leftover
      && rest == holdings[r.popped..]
    ensures var r := Match(old(t.amount), old(Snapshot(holdings)));
      r.outcome.Split? ==> holdings[r.popped].amount == old(holdings[r.popped].amount) - r.leftover
    ensures var r := Match(old(t.amount), old(Snapshot(holdings)));
      forall l :: l in holdings && !(r.outcome.Split? && l == holdings[r.popped]) ==> l.amount == old(l.amount)
  {
    var price := t.spotPrice * t.amount;
    var cost := t.fee;
    ghost var lots := Snapshot(holdings);
    ghost var sold := t.amount;
    ghost var sale := t.State();
    ghost var r := Match(sold, lots);
    assert sale.amount == sold && sale.fee == t.fee && price == sale.spotPrice * sale.amount;
    ghost var k := 0;
    ghost var split := false;
    rest := holdings;
    while t.amount > ZERO_GUARD
      invariant 0 <= k <= |holdings| && rest == holdings[k..]
      invariant forall l :: l in holdings ==> l.amount == old(l.amount)
      invariant ResumesAt(sold, lots, k, t.amount, cost - t.fee)
      decreases |rest|
    {
      if |rest| == 0 {
        ResumeOutOfLots(sold, lots, k, t.amount, cost - t.fee);
        margin := Err(EmptyDeque);
        return;
      }
      var holding := rest[0];
      assert holding.State() == lots[k];
      if t.amount > holding.amount {
        // consume the lot fully
        ResumePop(sold, lots, k, t.amount, cost - t.fee);
        cost := cost + PopCost(holding.State());
        t.amount := t.amount - holding.amount;
        rest := rest[1..];
        k := k + 1;
      } else {
        // consume the lot partially
        if holding.initialAmount == 0.0 {
          ResumeZeroLot(sold, lots, k, t.amount, cost - t.fee);
          margin := Err(ZeroDivision);
          return;
        }
        ResumeSplit(sold, lots, k, t.amount, cost - t.fee);
        cost := cost + SplitCost(t.amount, holding.State());
        holding.amount := holding.amount - t.amount;
        split := true;
        break;
      }
    }
    if !split {
      ResumeSettled(sold, lots, k, t.amount, cost - t.fee);
    }
    assert r == Matched(k, cost - t.fee, t.amount, if split then Split else Settled);
    SaleMarginOk(sale, r, price, cost);
    margin := Ok(price - cost);
  }

  /** After Consume, the values of the returned suffix are `Remaining` of the
      values before, provided the head lot that a split decrements is not also
      held further down the deque. */
  twostate lemma RestIsRemaining(new holdings: seq<Transaction>, sold: real)
    requires old(allocated(holdings))
    requires Unaliased(holdings)
    requires var r := Match(sold, old(Snapshot(holdings)));
      && (r.outcome.Split? ==> holdings[r.popped].amount == old(holdings[r.popped].amount) - r.leftover)
      && (forall l :: l in holdings && !(r.outcome.Split? && l == holdings[r.popped]) ==> l.amount == old(l.amount))
    ensures var lots := old(Snapshot(holdings));
      Snapshot(holdings[Match(sold, lots).popped..]) == Remaining(sold, lots)
  {
    var lots := old(Snapshot(holdings));
    var r := Match(sold, lots);
    var q := Remaining(sold, lots);
    var now := holdings[r.popped..];
    forall j | 0 <= j < |q| ensures now[j].State() == q[j] {
      assert now[j] == holdings[r.popped + j];
      assert old(holdings[r.popped + j].State()) == lots[r.popped + j];
    }
  }

  type Ledger = map<string, seq<Transaction>>

  /** Every lot object held by a ledger. */
  function Lots(ledger: Ledger): (r: set<Transaction>)
    ensures forall s, l :: s in ledger && l in ledger[s] ==> l in r
  {
    set s, l | s in ledger && l in ledger[s] :: l
  }

  /** The values of every deque of a ledger. */
  function View(ledger: Ledger): (v: map<string, seq<LotState>>)
    reads Lots(ledger)
    ensures v.Keys == ledger.Keys
    ensures forall s :: s in ledger ==> v[s] == Snapshot(ledger[s])
  {
    map s | s in ledger :: Snapshot(ledger[s])
  }

  /** No lot object is held twice, in one deque or in two. */
  ghost predicate Disjoint(ledger: Ledger)
  {
    && (forall s :: s in ledger ==> Unaliased(ledger[s]))
    && (forall s, s', l :: s in ledger && s' in ledger && s != s' && l in ledger[s] ==> l !in ledger[s'])
  }

  /** Replacing one deque changes the view of that symbol only. */
  lemma ViewUpdate(ledger: Ledger, s: string, q: seq<Transaction>)
    ensures View(ledger[s := q]) == View(ledger)[s := Snapshot(q)]
  {
  }

  /** The view of a ledger is the view of its other deques plus that of `s`. */
  lemma ViewSplit(ledger: Ledger, s: string, q: seq<Transaction>)
    ensures View(ledger[s := q]) == View(ledger - {s})[s := Snapshot(q)]
  {
  }

  /** Lots whose amounts did not change leave the view as it was. */
  twostate lemma ViewUnchanged(new ledger: Ledger)
    requires old(allocated(ledger))
    requires forall s, l :: s in ledger && l in ledger[s] ==> l.amount == old(l.amount)
    ensures View(ledger) == old(View(ledger))
  {
    forall s | s in ledger ensures Snapshot(ledger[s]) == old(Snapshot(ledger[s])) {
      var q := ledger[s];
      forall j | 0 <= j < |q| ensures Snapshot(q)[j] == old(Snapshot(q))[j] {
        assert q[j] in q;
      }
    }
  }

  /** A deque may be replaced by one that holds only some of its lots, in any
      order, without two entries for one object. */
  lemma DisjointShrink(ledger: Ledger, s: string, q: seq<Transaction>)
    requires Disjoint(ledger) && Unaliased(q)
    requires forall l :: l in q ==> s in ledger && l in ledger[s]
    ensures Disjoint(ledger[s := q])
  {
  }

  /** A lot held nowhere in the ledger may be appended to a deque. */
  lemma DisjointAppend(ledger: Ledger, s: string, t: Transaction)
    requires Disjoint(ledger) && s in ledger && t !in Lots(ledger)
    ensures Disjoint(ledger[s := ledger[s] + [t]])
  {
    var q := ledger[s] + [t];
    forall i, j | 0 <= i < j < |q| ensures q[i] != q[j] {
      if j < |ledger[s]| {
        assert q[i] == ledger[s][i] && q[j] == ledger[s][j];
      } else {
        assert q[i] in ledger[s];
      }
    }
  }

  /** Replacing the deque of `symbol` by a suffix of it whose values are
      `q`, when no lot of the other deques changed, gives the view before with
      that deque's values replaced by `q`. */
  twostate lemma SuffixReplaced(new holdings: Ledger, new symbol: string, new k: nat, new q: seq<LotState>)
    requires old(allocated(holdings))
    requires symbol in holdings && k <= |holdings[symbol]|
    requires forall s, l :: s in holdings && s != symbol && l in holdings[s] ==> l.amount == old(l.amount)
    requires Snapshot(holdings[symbol][k..]) == q
    ensures View(holdings[symbol := holdings[symbol][k..]]) == old(View(holdings))[symbol := q]
  {
    var others := holdings - {symbol};
    ViewUnchanged(others);
    ViewSplit(holdings, symbol, holdings[symbol]);
    assert holdings[symbol := holdings[symbol]] == holdings;
    ViewSplit(holdings, symbol, holdings[symbol][k..]);
  }

  /** Every lot held by `ledger` is one of `owned`. */
  ghost predicate Within(ledger: Ledger, owned: set<Transaction>)
  {
    forall s, l :: s in ledger && l in ledger[s] ==> l in owned
  }

  /** `Within` bounds the set of all lots of the ledger. */
  lemma LotsWithin(ledger: Ledger, owned: set<Transaction>)
    requires Within(ledger, owned)
    ensures Lots(ledger) <= owned
  {
    forall l | l in Lots(ledger) ensures l in owned {
      var s :| s in ledger && l in ledger[s];
    }
  }

  /** Replacing a deque by one holding only some of its lots keeps the
      ledger within what it owned. */
  lemma WithinShrink(ledger: Ledger, owned: set<Transaction>, s: string, q: seq<Transaction>)
    requires Within(ledger, owned)
    requires forall l :: l in q ==> s in ledger && l in ledger[s]
    ensures Within(ledger[s := q], owned)
  {
  }

  /** Appending a lot to a deque adds it to what the ledger owns. */
  lemma WithinAppend(ledger: Ledger, owned: set<Transaction>, s: string, t: Transaction)
    requires Within(ledger, owned) && s in ledger
    ensures Within(ledger[s := ledger[s] + [t]], owned + {t})
  {
  }

  /** The Sell branch of the row loop: consuming the symbol's deque for the
      sale replaces that deque by what Consume left of it, and the margin is
      added to the gain.  The other deques are untouched. */
  method Sell(holdings: Ledger, symbol: string, gain: real, t: Transaction, ghost owned: set<Transaction>)
    returns (result: Result<(Ledger, real)>)
    requires Disjoint(holdings) && symbol in holdings && Within(holdings, owned) && t !in owned
    modifies t, holdings[symbol]
    ensures var lots := old(View(holdings))[symbol];
      var margin := SaleMargin(old(t.State()), Match(old(t.amount), lots));
      && (result.Ok? <==> margin.Ok?)
      && (result.Err? ==> result.error == margin.error)
      && (result.Ok? ==> result.value.1 == gain + margin.value)
      && (result.Ok? ==> View(result.value.0) == old(View(holdings))[symbol := Remaining(old(t.amount), lots)])
    ensures result.Ok? ==> Disjoint(result.value.0) && Within(result.value.0, owned)
  {
    assert forall s, l :: s in holdings && s != symbol && l in holdings[s] ==> l !in holdings[symbol] && l != t;
    ghost var q := holdings[symbol];
    ghost var sold := t.amount;
    ghost var lots := Snapshot(q);
    var rest, margin := Consume(holdings[symbol], t);
    if margin.Err? {
      return Err(margin.error);
    }
    RestIsRemaining(q, sold);
    SuffixReplaced(holdings, symbol, Match(sold, lots).popped, Remaining(sold, lots));
    DisjointShrink(holdings, symbol, rest);
    WithinShrink(holdings, owned, symbol, rest);
    return Ok((holdings[symbol := rest], gain + margin.value));
  }

  /** Creating the symbol's empty deque on first reference keeps the ledger
      free of shared lots and does not change what the row does. */
  lemma CreateDeque(row: Row, gain: real, holdings: Ledger, ledger: Ledger, owned: set<Transaction>)
    requires Disjoint(holdings) && Within(holdings, owned)
    requires ledger == if row.symbol in holdings then holdings else holdings[row.symbol := []]
    ensures var before := View(holdings);
      && View(ledger) == before[row.symbol := Queue(before, row.symbol)]
      && Step(row, Books(before, gain)) == Step(row, Books(View(ledger), gain))
    ensures row.symbol in ledger && Disjoint(ledger) && Within(ledger, owned)
  {
    var before := Books(View(holdings), gain);
    if row.symbol !in holdings {
      ViewUpdate(holdings, row.symbol, []);
      DisjointShrink(holdings, row.symbol, []);
      WithinShrink(holdings, owned, row.symbol, []);
    } else {
      assert holdings[row.symbol := holdings[row.symbol]] == holdings;
    }
    StepAfterCreate(row, before);
  }

  /** A Buy row on a ledger whose deque for the row's symbol exists: the
      lot appended at the tail is the step's new ledger. */
  lemma BuyAppends(row: Row, b: Books, ledger: Ledger, owned: set<Transaction>, t: Transaction)
    requires row.subType == "Buy" && row.symbol in ledger && View(ledger) == b.ledger
    requires Disjoint(ledger) && Within(ledger, owned) && t !in owned && t.State() == NewLot(row)
    ensures var after := ledger[row.symbol := ledger[row.symbol] + [t]];
      && Step(row, b) == Ok(Books(View(after), b.gain))
      && Disjoint(after) && Lots(after) <= owned + {t}
  {
    var symbol := row.symbol;
    var after := ledger[symbol := ledger[symbol] + [t]];
    ViewUpdate(ledger, symbol, ledger[symbol] + [t]);
    DisjointAppend(ledger, symbol, t);
    WithinAppend(ledger, owned, symbol, t);
    SnapshotAppend(ledger[symbol], t);
    assert Snapshot(ledger[symbol]) == Queue(b.ledger, symbol);
    assert View(after) == b.ledger[symbol := Queue(b.ledger, symbol) + [NewLot(row)]];
    LotsWithin(after, owned + {t});
  }

  /** One pass of the row loop of `process_transactions`: make sure the
      symbol's deque exists, build the row's Transaction, then append it (Buy),
      consume for it and add its margin to the gain (Sell), or do nothing more
      (any other type).  An exception ends the pass with that exception. */
  method ProcessRow(row: Row, holdings: Ledger, gain: real) returns (result: Result<(Ledger, real)>)
    requires Disjoint(holdings)
    modifies Lots(holdings)
    ensures var step := Step(row, Books(old(View(holdings)), gain));
      && (result.Ok? <==> step.Ok?)
      && (result.Err? ==> result.error == step.error)
      && (result.Ok? ==> View(result.value.0) == step.value.ledger && result.value.1 == step.value.gain)
    ensures result.Ok? ==> Disjoint(result.value.0)
    ensures result.Ok? ==> forall l :: l in Lots(result.value.0) ==> l in Lots(holdings) || fresh(l)
  {
    var symbol := row.symbol;
    ghost var owned := Lots(holdings);
    assert Within(holdings, owned);
    var ledger := holdings;
    if symbol !in ledger {
      ledger := ledger[symbol := []];
    }
    CreateDeque(row, gain, holdings, ledger, owned);
    ghost var b := Books(View(ledger), gain);
    var fee := if row.fee.Some? then row.fee.value else 0.0;
    label created:
    var transaction := new Transaction(row.amount, symbol, row.rate, fee);
    assert transaction.State() == NewLot(row);
    ViewUnchanged@created(ledger);
    if row.subType == "Buy" {
      BuyAppends(row, b, ledger, owned, transaction);
      ledger := ledger[symbol := ledger[symbol] + [transaction]];
      return Ok((ledger, gain));
    } else if row.subType == "Sell" {
      SellStep(row, b);
      result := Sell(ledger, symbol, gain, transaction, owned);
      if result.Ok? {
        LotsWithin(result.value.0, owned);
      }
    } else {
      assert b.ledger[symbol := Queue(b.ledger, symbol)] == b.ledger;
      LotsWithin(ledger, owned);
      return Ok((ledger, gain));
    }
  }

  /** The row loop of `process_transactions` on the ledger `all_holdings`,
      which is passed in (empty when the program starts) and returned with the
      gain; the gain starts at 0.  The first exception ends the run. */
  method ProcessTransactions(allHoldings: Ledger, rows: seq<Row>) returns (result: Result<(Ledger, real)>)
    requires Disjoint(allHoldings)
    modifies Lots(allHoldings)
    ensures var spec := Replay(rows, Books(old(View(allHoldings)), 0.0));
      && (result.Ok? <==> spec.Ok?)
      && (result.Err? ==> result.error == spec.error)
      && (result.Ok? ==> View(result.value.0) == spec.value.ledger && result.value.1 == spec.value.gain)
    ensures result.Ok? ==> Disjoint(result.value.0)
    ensures result.Ok? ==> forall l :: l in Lots(result.value.0) ==> l in Lots(allHoldings) || fresh(l)
    ensures result.Ok? && LedgerWellFormed(old(View(allHoldings))) && BuysNonNegative(rows) ==>
      LedgerWellFormed(View(result.value.0))
  {
    if LedgerWellFormed(View(allHoldings)) && BuysNonNegative(rows) {
      ReplayWellFormed(rows, Books(View(allHoldings), 0.0));
    }
    var holdings := allHoldings;
    var gain := 0.0;
    var i := 0;
    while i < |rows|
      invariant 0 <= i <= |rows|
      invariant Disjoint(holdings)
      invariant forall l :: l in Lots(holdings) ==> l in Lots(allHoldings) || fresh(l)
      invariant Replay(rows, Books(old(View(allHoldings)), 0.0)) == Replay(rows[i..], Books(View(holdings), gain))
    {
      assert rows[i..][1..] == rows[i + 1..];
      var next := ProcessRow(rows[i], holdings, gain);
      if next.Err? {
        return Err(next.error);
      }
      holdings, gain := next.value.0, next.value.1;
      i := i + 1;
    }
    return Ok((holdings, gain));
  }
}
