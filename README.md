# Recognized-loss calculator: a verified model

This project models the recognized-loss engine of a settlement calculator in Dafny.
The engine takes a fund's buy/sell transactions and computes a total "recognized loss"
for each fund. It uses a fixed methodology:

- Purchases made inside the Class Period (2015-02-06 to 2015-07-28) open purchase lots.
- Each sale consumes those lots first-in first-out.
- Each matched share recognizes a per-share loss. The loss is capped by a
  decline-in-inflation table, by the actual price drop and, after 2015-08-02, by the
  average closing price of 28.06. It is floored at 0.
- Shares still held at the end are valued at 2015-10-30 against the same 28.06.

Modules, leaf to root:

- `Calendar` (`calendar.dfy`): trade timestamps to the minute, `(year, month, day, hour, minute)`,
  ordered lexicographically. It also holds the schedule's fixed dates, including the
  disclosure minute 2015-04-28 15:07.
- `InflationSchedule` (`inflation_schedule.dfy`): `Decline`, the nested date-bucket lookup table.
- `LossRules` (`loss_rules.dfy`): the per-share loss on a matched sale and on a held share.
- `LotLedger` (`lot_ledger.dfy`): the per-fund list of open lots. This is the class
  `FundLedger`, whose `lots` field its methods update in place:
  - `Enqueue` appends a lot.
  - `MatchSale` is the FIFO walk, a `while` loop with a manual index and a `continue` skip.
    It decrements lots in place.
  - `HeldLoss` values the remaining shares.

  The same module holds the specification of a FIFO walk. When a walk consumes `t` shares
  in all, lot `j` gives `clamp(t - Prefix(j), 0, shares_j)` (`TakenAt`, `Consume`), and
  one sale consumes `min(quantity, Total)` (`Sold`).
- `RecognizedLoss` (`recognized_loss.dfy`):
  - the typed transaction record;
  - the per-fund replay as a fold (`Step`, `Replay`, `FundLoss`);
  - the distinct funds in first-seen order (`Funds`) and the per-fund filter (`Select`);
  - the two driving methods: `FundRecognizedLoss` for one fund's pass and
    `RecognizedLoss` for the whole report.

Prices, declines and totals are exact `real`s. Share counts are integers, and a lot's
remaining shares are a `nat`. Dafny therefore proves that no lot ever goes negative.

Two details of how the model follows the code:

- The source compares purchase dates with the 2015-04-28 and 2015-07-28 boundaries at
  midnight (`datetime(2015, 4, 28)` and `datetime(2015, 7, 28)` carry no time of day). A purchase
  timestamp later in the day on 2015-04-28 falls into no bucket, so the table's final
  `return 0.0` gives it 0. A purchase later on 2015-07-28 than midnight is outside the
  Class Period. Dates parsed by the ingestion layer are always at midnight, so these
  cases arise only for timestamps with a time of day.
- Each matched lot's loss is summed as the lot is matched, and the sale's sum is then
  added to the fund's total. The source adds each lot's loss straight into the fund's
  total. With exact reals the two agree. No list of (lot, matched, loss) triples is
  produced.

## Model

| member | source | states |
|---|---|---|
| `InflationSchedule.Decline` | app.py:12-28 | the decline is always one of 0, 5.76, 7.41, 12.93, 18.27 (so never negative), and it is 0 for every purchase at or after 2015-07-29 |
| `InflationSchedule.DeclineNonDecreasingInSale` | app.py:14-25 | for a fixed purchase date, a later sale date never gives a smaller decline |
| `InflationSchedule.DeclineBuckets` | app.py:12-28 | the early bucket steps 0, 12.93, 18.27 at the disclosure minute 15:07 and after 2015-08-02; the late bucket steps 5.76, 7.41 after 2015-08-02; purchases strictly inside 2015-04-28 or strictly inside 2015-07-28 (after midnight) fall through to 0 |
| `InflationSchedule.DeclineExamples` | app.py:12-28 | the table's values at sample dates, including 0 at exactly 15:07 and 12.93 at 15:08 on 2015-04-28 |
| `LossRules.SaleLossPerShare` | app.py:79-88 | the per-share loss on a sale lies in [0, decline]; it is 0 up to the disclosure minute; it is at most the price drop and, after 2015-08-02, at most the drop to 28.06; it equals 0 or one of those caps, and after the disclosure minute it is at least the smallest applicable cap, so it is exactly that cap floored at 0 |
| `LossRules.HeldLossPerShare` | app.py:99-104 | the per-share loss on a held share lies in [0, decline at 2015-10-30], is at most the drop to 28.06, equals 0 or one of the two caps, and is at least the smaller cap, so it is exactly that cap floored at 0 |
| `LossRules.HeldIsSaleAtAverageClose` | app.py:86-88 | valuing a held share is the same as selling it at 28.06 on 2015-10-30 |
| `LossRules.PerShareExamples` | app.py:79-104 | per-share values of the worked scenarios: 1.94 for a 30.00 purchase sold at 25.00 on 2015-08-10, and 0.94 for a 29.00 purchase held |
| `LotLedger.TakenAt` | app.py:69-76 | a FIFO walk takes from a lot no more than it holds, and takes from it only once the shares consumed exceed everything the earlier lots hold |
| `LotLedger.Consume` | app.py:92-93 | consuming keeps the number of lots and each lot's price and date, and never increases a lot's shares |
| `LotLedger.SaleLoss` | app.py:76-90 | a sale's recognized loss is never negative, is 0 for a sale at or before 2015-04-28 15:07, and is at most 18.27 per share actually matched |
| `LotLedger.Sold` | app.py:70 | a sale matches nothing for a non-positive quantity and never more than the ledger holds; it matches its full quantity when the ledger holds enough, and exactly the ledger's holding otherwise, so the excess is dropped |
| `LotLedger.SaleLossOver` | app.py:76-90 | the loss recognized on a sale is never negative |
| `LotLedger.HeldLossOver` | app.py:99-104 | the loss recognized on held shares is never negative |
| `LotLedger.LossOnShares` | app.py:90 | a non-negative per-share loss times a share count is non-negative |
| `LotLedger.FundLedger.constructor` | app.py:51 | a fund's ledger starts empty |
| `LotLedger.FundLedger.Enqueue` | app.py:62-63 | a new lot is appended at the tail of the ledger and nothing else changes |
| `LotLedger.FundLedger.MatchSale` | app.py:64-96 | the in-place FIFO walk leaves the ledger as `Consume(old lots, min(quantity, Total))` and returns that sale's recognized loss; every step takes `min(lot, remaining) > 0`, no lot goes negative, and the loop terminates on `(lots - i, remaining)` |
| `LotLedger.FundLedger.HeldLoss` | app.py:98-104 | the loop over lots with shares > 0 returns exactly the held-share loss of the ledger |
| `LotLedger.ConsumeNothing` | app.py:70 | a walk that consumes no shares changes no lot and recognizes no loss |
| `LotLedger.ConsumePrefix` | app.py:76-94 | after consuming t shares, the first k lots hold their original shares minus min(t, what they held) |
| `LotLedger.ConsumeConserves` | app.py:70-94 | conservation across one sale: the shares taken equal min(quantity, holding), the holding drops by exactly that, and the rest of the sale is dropped |
| `LotLedger.ConsumeIsFifo` | app.py:69-75 | FIFO: shares are taken from lot k only if every earlier lot is left with 0 shares |
| `LotLedger.ConsumeOnlyDecrements` | app.py:92-93 | a walk changes only lots' share counts, never raises one, and leaves untouched every lot it does not reach |
| `LotLedger.SaleLossOverBounded` | app.py:76-90 | a sale's recognized loss is at most 18.27 per matched share |
| `LotLedger.SaleBeforeDisclosureIsFree` | app.py:79-80 | a sale at or before 2015-04-28 15:07 recognizes no loss, whatever the prices |
| `RecognizedLoss.OpensLot` | app.py:62 | a record opens a lot only if it is a purchase of a positive share count dated inside the Class Period, from 2015-02-06 00:00 up to and including 2015-07-28 00:00 (so a purchase later on 2015-07-28 opens none), hence before 2015-07-29 |
| `RecognizedLoss.IsMatchedSale` | app.py:64 | a record is matched against the ledger only if it is a sale of a positive share count, and never if it opened a lot (the `elif`) |
| `RecognizedLoss.Step` | app.py:62-96 | one record never lowers the running total; it adds one lot exactly when it opens one, raising the holding by its shares; a matched sale lowers the holding by min(quantity, holding) and adds nothing at or before the disclosure minute; any other record changes nothing |
| `RecognizedLoss.Replay` | app.py:55-96 | the running total over a fund's records, from an empty ledger and 0, is never negative |
| `RecognizedLoss.FundLoss` | app.py:53-106 | every fund total (sales plus held shares) is non-negative |
| `RecognizedLoss.Enqueued` | app.py:62-63 | every lot opened holds a positive number of shares and is dated inside the Class Period |
| `RecognizedLoss.Select` | app.py:50 | the per-fund selection holds exactly the records of that fund |
| `RecognizedLoss.SelectCounts` | app.py:50 | the selection keeps each record of the fund as many times as the input has it, and no other record |
| `RecognizedLoss.SelectAppend` | app.py:50 | the selection keeps input order: selecting from a + b gives the selection from a followed by the selection from b |
| `RecognizedLoss.FirstIndex` | app.py:48 | the first record of a fund is the earliest record carrying that fund name |
| `RecognizedLoss.Funds` | app.py:48 | the funds are exactly those that occur in the input, each once, ordered by first appearance |
| `RecognizedLoss.InertRecordChangesNothing` | app.py:62-64 | a record that is neither a lot-opening purchase nor a sale with positive quantity leaves ledger and total unchanged |
| `RecognizedLoss.ReplayFollowsPurchases` | app.py:55-96 | the ledger holds exactly the lots opened by qualifying purchases, in input order, with their prices and dates, never more shares than bought; a lot after one that still holds shares is untouched (FIFO across sales) |
| `RecognizedLoss.ReplayConservesShares` | app.py:55-96 | conservation over a fund's run: shares still held plus shares matched by sales equal the shares of the qualifying purchases |
| `RecognizedLoss.ReplayLossNeverDecreases` | app.py:53-96 | the running total starts at 0 and never decreases |
| `RecognizedLoss.OtherFundsDoNotMatter` | app.py:48-50 | a fund's total depends only on its own records: inserting another fund's record anywhere changes neither its records nor its total |
| `RecognizedLoss.FundRecognizedLoss` | app.py:50-106 | one fund's pass with a real ledger object returns exactly the replayed total plus the held-share loss, and it is non-negative |
| `RecognizedLoss.RecognizedLoss` | app.py:34-108 | the report has one row per distinct fund, in first-seen order, each with that fund's non-negative total |
| `RecognizedLoss.SaleAfterAugustExample` | app.py:62-104 | 100 shares bought at 30.00 on 2015-03-01 and sold at 25.00 on 2015-08-10 give a total of 194.00 |
| `RecognizedLoss.HeldSharesExample` | app.py:99-104 | 50 shares bought at 29.00 on 2015-07-01 and never sold give a total of 47.00 |
| `RecognizedLoss.LatePurchaseExample` | app.py:45-46 | a purchase on 2015-08-01 opens no lot, so a later sale matches nothing and the total is 0 |

## Left out

- The web page, file upload and table display are user interface and I/O.
- CSV reading and numeric coercion are library calls: stripping thousands separators and
  `to_numeric(..., errors='coerce').fillna(0)`. The model takes already-typed records. The
  unused Holdings column is dropped.
- Date parsing with `strptime` is a library call. Dates arrive as `Calendar.DateTime`, and
  seconds and sub-second parts are not modelled.
- Transaction type classification (`strip().lower()` compared with "purchase" and "sale")
  happens at ingestion. The record carries the resulting `Kind`.
- Share counts are integers. The source's share columns may be floating point after coercion,
  so fractional share counts (for example 0.5 shares) are not modelled.
- Floating-point rounding of prices and totals is not modelled. All amounts are exact
  reals, and display rounding belongs to the caller.
- A missing fund name or a non-text transaction type is not modelled. These would be
  pandas NaN values or an exception raised during the pass.
- The second script, which builds a request payload and calls an external language model,
  is not part of this model. It is foreign calls and I/O around the same records.
