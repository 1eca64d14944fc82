# FIFO cost basis of bitstamp_fifo.py, in Dafny

`bitstamp_fifo.py` reads a Bitstamp transaction export and computes the
realised gain of its sales by first-in-first-out lot matching. Each Buy row
becomes a `Transaction` lot appended to its symbol's deque in the global map
`all_holdings`. Each Sell row becomes a `Transaction` that `consume` matches
against the head of that deque. A lot the sale covers is charged in full (open
amount times price plus its whole fee) and popped. The lot that covers the rest
of the sale is charged its fee scaled by the fraction of the lot still open,
and decremented, and the loop stops.
`consume` returns the sale's proceeds less its own fee and the matched cost, and
`process_transactions` adds that margin to a running gain.

The project has three modules, in three files:

- `FifoSpec` (`fifo_spec.dfy`) is the value-level model, with no heap. A lot is
  a `LotState`: open amount, initial amount, price, fee.
  - `Match` follows the `while` loop of `consume` step by step. It returns the
    number of lots popped, the cost accumulated, the sale amount left when the
    loop ended, and how it ended.
  - `Remaining` is the deque after the call. `SaleMargin` is the returned value,
    or the exception raised.
  - `Step` and `Replay` follow the row loop of `process_transactions` on a
    ledger of such values.
  - The lemmas relate these to two independent reference definitions,
    `TotalAmount` and `FullCost`: conservation, cost decomposition, loop bounds,
    oversold detection, bounds preservation, and replay framing.
- `BitstampFifo` (`bitstamp_fifo.dfy`) is the imperative model.
  - `Transaction` is a class whose only mutable field is `amount`.
  - The ledger is a `map<string, seq<Transaction>>`.
  - `Consume` is the mutating `while` loop of `consume`.
  - `ProcessRow` and `ProcessTransactions` are the dispatch and the row loop.
  - Every method is proved against the FifoSpec functions, through `Snapshot`
    and `View`, which read the values of the lot objects.
  - A ghost predicate `Disjoint` (no lot object held twice) is kept as an
    invariant. It is what makes the in-place decrement of one lot affect one
    deque entry only.
- `Scenarios` (`scenarios.dfy`) works out `Replay` on concrete runs.

Rows are already-parsed records. `Row.fee` is `None` when the Fee column is
empty. Amounts, prices and fees are `real`. `ZERO_GUARD` is the real
`0.00000001`.

The model follows the code, including these behaviours one might not expect
of FIFO accounting:

- A sale amount equal to the head lot's amount takes the partial branch
  (`bitstamp_fifo.py:33`). The lot stays in the deque with amount 0
  (`FifoSpec.EqualAmountSplits`). The next sale that reaches it pops it and
  charges its whole fee a second time (`Scenarios.ExhaustedLotFeeChargedAgain`).
- The full branch charges the lot's whole `fee`, not a prorated fee
  (`bitstamp_fifo.py:35`).
- The partial branch scales the fee by `holding.amount / holding.initial_amount`
  taken before the decrement. That is the fraction still open, not the fraction
  sold (`bitstamp_fifo.py:40`).
  - Selling half of a fresh lot charges its whole fee
    (`FifoSpec.FreshLotSplitChargesWholeFee`).
  - A sale of 1.0 from a lot of 2.0 with fee 10, with a sale fee of 5, gains
    −15, not −10 (`Scenarios.SellHalfLotChargesWholeFee`).
- The partial branch leaves the sale's `amount` unchanged. When it ran, the
  sale's final amount is the amount taken from the split lot, not 0
  (`bitstamp_fifo.py:41-44`; `FifoSpec.Conservation`,
  `FifoSpec.QueueConservation`).
- The code has no per-lot remaining fee, no year filter and no sorting of rows.
  None of them is modelled.
- `process_transactions` prints the gain and returns nothing
  (`bitstamp_fifo.py:71`). `ProcessTransactions` returns the ledger and the
  gain instead. The ledger is passed in, standing for the global
  `all_holdings` (`bitstamp_fifo.py:10`), so a run on the empty map is a fresh
  program.
- Two Python exceptions become `Err` results:
  - `holdings[0]` on an empty deque (IndexError) becomes `EmptyDeque`;
  - the partial branch on a lot whose initial amount is 0 (ZeroDivisionError)
    becomes `ZeroDivision`. No lot that the row loop builds ever reaches it:
    such a lot's amount is at most 0, so the full branch pops it
    (`FifoSpec.FreshRunNoZeroDivision`).

## Model

| member | source | states |
|---|---|---|
| FifoSpec.Match | bitstamp_fifo.py:31-44 | The loop pops at most the whole deque. Running out of lots means every lot was popped. A split or zero-lot failure stops at a lot still in the deque. A split happens only on a lot with nonzero initial amount. |
| FifoSpec.Remaining | bitstamp_fifo.py:32-42 | The deque after the call is the unpopped suffix. Its length is the old length less the lots popped. Every lot but the head is unchanged. The head keeps its initial amount, price and fee, and its amount is decremented by the sale's leftover exactly when the call split it. |
| FifoSpec.MarginClosedForm | bitstamp_fifo.py:28-45 | When `consume` completes, it returns the sale's proceeds at its price and initial amount, less its own fee, less the full charge (amount × price plus whole fee) of every popped lot, less the split charge of the lot that covered the rest. |
| FifoSpec.Conservation | bitstamp_fifo.py:31-36 | The popped lots' amounts plus the sale amount left at the end add up to the sale's initial amount. |
| FifoSpec.CostDecomposition | bitstamp_fifo.py:35-41 | The matched cost is the sum, over the popped lots, of amount × price plus the whole fee. A split adds leftover × price plus the fee scaled by the open fraction before the decrement. |
| FifoSpec.MatchBounds | bitstamp_fifo.py:31-38 | A lot is popped only when the sale's remaining amount strictly exceeds it. The loop settles exactly when the leftover is at most ZERO_GUARD, and the leftover is positive when it settles after popping. A split or zero-lot failure happens only on a head lot that covers the rest, equality included. With nothing popped, the leftover is the sale amount. |
| FifoSpec.OutOfLotsIff | bitstamp_fifo.py:31-32 | On lots with amounts in bounds, `holdings[0]` fails on an empty deque exactly when the sale exceeds the total open amount by more than ZERO_GUARD. |
| FifoSpec.NoZeroDivision | bitstamp_fifo.py:40 | On lots with amounts in bounds, the division by `initial_amount` never fails. |
| FifoSpec.RemainingWellFormed | bitstamp_fifo.py:40-42 | If every lot had 0 ≤ amount ≤ initial amount before the call, every lot left in the deque does after it. |
| FifoSpec.QueueConservation | bitstamp_fifo.py:36-42 | A split removes exactly the sale amount from the deque's open total. A settled call removes the sale amount less its leftover. |
| FifoSpec.EqualAmountSplits | bitstamp_fifo.py:33-44 | A sale of exactly the head lot's amount takes the partial branch, pops nothing and leaves that lot in the deque with amount 0. |
| FifoSpec.FreshLotSplitChargesWholeFee | bitstamp_fifo.py:40-41 | A partial sale from a lot never sold from costs sold × price plus the lot's whole fee. |
| FifoSpec.Step | bitstamp_fifo.py:59-69 | A row keeps every other symbol's deque and adds its own symbol to the ledger. A Buy appends its lot at the tail. A Sell fails exactly when `consume` does, and otherwise leaves `Remaining` in the deque and adds the margin to the gain. Any other type only creates the deque. |
| FifoSpec.StepAfterCreate | bitstamp_fifo.py:59-60 | Creating the symbol's empty deque before dispatching does not change what the row does. |
| FifoSpec.EmptyFeeIsZero | bitstamp_fifo.py:63-69 | A Buy row with an empty Fee column appends a lot whose fee is 0. A completed Sell row with an empty Fee column adds its proceeds less the matched cost alone. |
| FifoSpec.StepWellFormed | bitstamp_fifo.py:59-69 | If every lot of the ledger has 0 ≤ amount ≤ initial amount and a Buy does not buy a negative amount, every lot still does after the row. |
| FifoSpec.ReplayWellFormed | bitstamp_fifo.py:54-69 | Those lot bounds hold after a whole successful run when no Buy row buys a negative amount. |
| FifoSpec.SellOnWellFormed | bitstamp_fifo.py:31-40 | On a ledger with lots in bounds, a Sell row never raises ZeroDivisionError. It fails exactly when it sells more than ZERO_GUARD beyond the open total of its symbol. |
| FifoSpec.CappedNoZeroLot | bitstamp_fifo.py:31-40 | On lots whose amount never exceeds their initial amount, `consume` never reaches the division by a zero initial amount. |
| FifoSpec.StepCapped | bitstamp_fifo.py:59-69 | One row keeps every lot's amount at or below its initial amount, for any amounts. |
| FifoSpec.ReplayNoZeroDivision | bitstamp_fifo.py:54-69 | A run from a ledger whose lots are capped by their initial amounts never raises ZeroDivisionError. |
| FifoSpec.FreshRunNoZeroDivision | bitstamp_fifo.py:10-69 | A run from the empty `all_holdings` never raises ZeroDivisionError, whatever its rows, negative Buy amounts included. |
| FifoSpec.NoSellsNoGain | bitstamp_fifo.py:54-69 | A run without Sell rows never fails and leaves the gain unchanged. |
| FifoSpec.ReplayKeys | bitstamp_fifo.py:54-60 | After a successful run the ledger has a deque for exactly the symbols it had plus those the rows name. |
| FifoSpec.OtherSymbolsUntouched | bitstamp_fifo.py:59-69 | Rows for other symbols leave a symbol's deque exactly as it was. |
| FifoSpec.ReplayConcat | bitstamp_fifo.py:54-69 | Replaying concatenated rows is replaying the first part and then, if it succeeded, the second part from there. |
| BitstampFifo.Transaction.constructor | bitstamp_fifo.py:14-20 | A new lot has `initial_amount == amount`, along with the given symbol, price and fee. |
| BitstampFifo.Consume | bitstamp_fifo.py:27-45 | The method returns `SaleMargin` of `Match` on the values before the call. The sale's amount ends as Match's leftover. The deque left is the suffix after the popped lots. A split decrements the head lot's amount by the leftover, and every other lot keeps its amount. |
| BitstampFifo.RestIsRemaining | bitstamp_fifo.py:32-42 | When no lot object appears twice in the deque, the values of the suffix Consume leaves are `Remaining` of the values before. |
| BitstampFifo.Sell | bitstamp_fifo.py:67-69 | The method fails exactly as `SaleMargin` does, with the same error. Otherwise the gain grows by the margin, the symbol's deque holds `Remaining` values, every other deque is unchanged, and no lot is held twice. |
| BitstampFifo.CreateDeque | bitstamp_fifo.py:59-60 | Lazy creation gives the view with `Queue` for the symbol, keeps the ledger free of shared lots, and leaves the row's `Step` unchanged. |
| BitstampFifo.BuyAppends | bitstamp_fifo.py:65-66 | Appending the new lot gives the view of Step's ledger for a Buy row and holds no lot object twice. |
| BitstampFifo.ProcessRow | bitstamp_fifo.py:55-69 | One row fails exactly when `Step` fails, with its error. Otherwise the result's view and gain are those of `Step`, no lot is held twice, and every lot held was held before or is new. |
| BitstampFifo.ProcessTransactions | bitstamp_fifo.py:48-69 | The row loop, with the gain starting at 0, fails exactly when `Replay` fails, with its error. Otherwise it returns Replay's ledger, as values, and Replay's gain. No lot object is held twice, and every lot held was passed in or is new. If the lots passed in were within bounds and no Buy buys a negative amount, every lot returned is within bounds. |
| Scenarios.SellWholeLotAtCost | bitstamp_fifo.py:27-45 | Buying 1 @ 2000 with fee 10 and selling 1 @ 2000 with fee 10 gains −20 and leaves the lot at amount 0. |
| Scenarios.SellWholeLotAtLoss | bitstamp_fifo.py:27-45 | The same lot sold 1 @ 1000 with fee 10 gains −1020. |
| Scenarios.SellHalfLotChargesWholeFee | bitstamp_fifo.py:38-41 | Buying 2 @ 1000 with fee 10 and selling 1 @ 1000 with fee 5 gains −15 and leaves 1 unit open. |
| Scenarios.SellWithoutLots | bitstamp_fifo.py:31-32 | A sale on a symbol never bought fails on the empty deque. |
| Scenarios.ExhaustedLotFeeChargedAgain | bitstamp_fifo.py:33-35 | A lot left at amount 0 is popped by the next sale, which charges its fee of 10 again, for a total of −30. |
| Scenarios.MixedHoldings | bitstamp_fifo_test.py:39-48 | Buying 1 @ 1000 and 2 @ 2000, then selling 2 @ 4000 and 0.5 @ 8000 twice, all without fees, gains 5000 + 3000 + 3000 = 11000. |

## Left out

- CSV reading, the `'Amount' not in row` check with `exit(1)`, and the splitting of the Amount, Rate and Fee strings (`bitstamp_fifo.py:52-58, 62-63`). These are input parsing; rows are given as parsed records.
- `main`, the `sys.argv` and file checks, every `print`, and `Transaction.__repr__`. These are output and command-line handling.
- `round(float(x), 8)` in `Transaction.__init__`. Inputs are given as exact reals, and floating-point rounding in the arithmetic is not modelled.
- Deque identity: a deque is a `seq<Transaction>` value. `Consume` returns the remaining suffix and the caller stores it back in the map. The lot objects themselves are shared and mutated in place.
- BitstampFifo.ProcessTransactions: after an exception it returns only the error, not the ledger as the exception left it. The Python program terminates there. `Remaining` still describes that deque at the value level.
- BitstampFifo.ProcessTransactions: the values of the ledger are tied to `Replay`, but which lot object holds which value is not stated; it says only that each lot held was passed in or is new.
- `bitstamp_fifo_test.py` calls `process_transactions` with three arguments, a year filter and CSV fixtures that are not part of this model. Only the arithmetic of `test_sale_mixed_holding` is replayed (`Scenarios.MixedHoldings`).
- Year gating, row sorting and any remaining-fee field do not exist in the code and are not modelled.
