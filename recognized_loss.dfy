/** The recognized-loss calculation: per fund, replay its transactions through a FIFO
    ledger, add the loss on the shares still held, and report one total per fund. */
module RecognizedLoss {
  import opened Calendar
  import opened LossRules
  import opened LotLedger

  /** Transaction type, after trimming and lower-casing: "purchase", "sale", anything else. */
  datatype Kind = Purchase | Sale | Other

  /** One row of the transaction file, with its numeric columns already coerced. */
  datatype Record = Record(fund: string, kind: Kind, date: DateTime, price: real, purchases: int, sales: int)

  /** One row of the report. */
  datatype FundTotal = FundTotal(fund: string, total: real)

  /** A purchase opens a lot only inside the Class Period and for a positive share count.
      The end bound is midnight of 2015-07-28, so every lot is dated before 2015-07-29
      and can carry a decline. */
  function OpensLot(r: Record): (b: bool)
    ensures b ==> r.kind == Purchase && r.purchases > 0
    ensures b ==> AtOrBefore(ClassPeriodStart, r.date) && AtOrBefore(r.date, ClassPeriodEnd)
    ensures b ==> Before(r.date, July29)
  {
    r.kind == Purchase && AtOrBefore(ClassPeriodStart, r.date) && AtOrBefore(r.date, ClassPeriodEnd) && r.purchases > 0
  }

  /** A sale is matched against the ledger only for a positive share count; no record
      both opens a lot and is a matched sale. */
  function IsMatchedSale(r: Record): (b: bool)
    ensures b ==> r.kind == Sale && r.sales > 0
    ensures b ==> !OpensLot(r)
  {
    r.kind == Sale && r.sales > 0
  }

  /** The state of one fund's pass: its open lots and the loss recognized so far. */
  datatype FundState = FundState(lots: seq<Lot>, loss: real)

  /** The effect of one record on a fund's state: the running loss never drops, a lot
      is added only by a lot-opening purchase, a matched sale takes min(quantity, held)
      shares off the ledger, and any other record changes nothing. */
  function Step(s: FundState, x: Record): (r: FundState)
    ensures r.loss >= s.loss
    ensures |r.lots| == |s.lots| + (if OpensLot(x) then 1 else 0)
    ensures OpensLot(x) ==> Total(r.lots) == Total(s.lots) + x.purchases
    ensures IsMatchedSale(x) ==> Total(r.lots) == Total(s.lots) - Min(x.sales, Total(s.lots))
    ensures IsMatchedSale(x) && AtOrBefore(x.date, DisclosureTime) ==> r.loss == s.loss
    ensures !OpensLot(x) && !IsMatchedSale(x) ==> r == s
  {
    if OpensLot(x) then
      TotalOfAppend(s.lots, Lot(x.purchases, x.price, x.date));
      FundState(s.lots + [Lot(x.purchases, x.price, x.date)], s.loss)
    else if IsMatchedSale(x) then
      var t := Sold(s.lots, x.sales);
      ConsumeConserves(s.lots, x.sales);
      FundState(Consume(s.lots, t), s.loss + SaleLoss(s.lots, t, x.date, x.price))
    else
      s
  }

  /** The state after replaying the records, in order, from an empty ledger; the loss
      recognized so far is never negative. */
  function Replay(records: seq<Record>): (s: FundState)
    ensures s.loss >= 0.0
  {
    if records == [] then FundState([], 0.0)
    else Step(Replay(records[..|records| - 1]), records[|records| - 1])
  }

  /** A fund's total: loss on matched sales plus loss on the shares still held. It is
      never negative. */
  function FundLoss(records: seq<Record>): (r: real)
    ensures r >= 0.0
  {
    var s := Replay(records);
    s.loss + HeldLossOver(s.lots, |s.lots|)
  }

  /** The fund's records, in input order. */
  function Select(records: seq<Record>, fund: string): (r: seq<Record>)
    ensures forall x :: x in r <==> x in records && x.fund == fund
  {
    if records == [] then []
    else
      Select(records[..|records| - 1], fund) +
      (if records[|records| - 1].fund == fund then [records[|records| - 1]] else [])
  }

  /** The selection is the fund's records with their multiplicities: every record of
      the fund occurs in it as often as in the input, and nothing else occurs in it. */
  lemma {:induction false} SelectCounts(records: seq<Record>, fund: string)
    ensures forall x :: multiset(Select(records, fund))[x] == (if x.fund == fund then multiset(records)[x] else 0)
  {
    if records != [] {
      var prefix, last := records[..|records| - 1], records[|records| - 1];
      SelectCounts(prefix, fund);
      assert records == prefix + [last];
    }
  }

  /** Whether some record belongs to `fund`. */
  predicate HasFund(records: seq<Record>, fund: string) {
    exists i :: 0 <= i < |records| && records[i].fund == fund
  }

  /** Index of the first record of `fund`. */
  function FirstIndex(records: seq<Record>, fund: string): (i: nat)
    requires HasFund(records, fund)
    ensures i < |records| && records[i].fund == fund
    ensures forall j :: 0 <= j < i ==> records[j].fund != fund
  {
    if records[0].fund == fund then 0
    else
      assert HasFund(records[1..], fund) by {
        var i :| 0 <= i < |records| && records[i].fund == fund;
        assert records[1..][i - 1].fund == fund;
      }
      1 + FirstIndex(records[1..], fund)
  }

  /** The distinct funds, in the order each first appears. */
  function Funds(records: seq<Record>): (fs: seq<string>)
    ensures forall f :: f in fs <==> HasFund(records, f)
    ensures forall a, b :: 0 <= a < b < |fs| ==> fs[a] != fs[b]
    ensures forall a, b :: 0 <= a < b < |fs| ==> FirstIndex(records, fs[a]) < FirstIndex(records, fs[b])
  {
    if records == [] then []
    else
      var prefix := records[..|records| - 1];
      var last := records[|records| - 1].fund;
      var earlier := Funds(prefix);
      FirstIndexOfPrefix(records, earlier);
      if last in earlier then earlier else earlier + [last]
  }

  /** Funds already seen in all but the last record keep their first index; a fund
      seen only in the last record has that record as its first. */
  lemma FirstIndexOfPrefix(records: seq<Record>, earlier: seq<string>)
    requires records != []
    requires forall f :: f in earlier <==> HasFund(records[..|records| - 1], f)
    ensures forall f :: f in earlier ==>
      HasFund(records, f) && FirstIndex(records, f) == FirstIndex(records[..|records| - 1], f)
    ensures forall f :: HasFund(records, f) && f !in earlier ==> FirstIndex(records, f) == |records| - 1
  {
    var prefix := records[..|records| - 1];
    assert forall j :: 0 <= j < |prefix| ==> prefix[j] == records[j];
    forall f | f in earlier
      ensures HasFund(records, f) && FirstIndex(records, f) == FirstIndex(prefix, f)
    {
      var i := FirstIndex(prefix, f);
      assert records[i].fund == f;
    }
  }

  /** The lots opened by the records, with the share counts they were opened with:
      each holds shares and is dated inside the Class Period. */
  function Enqueued(records: seq<Record>): (r: seq<Lot>)
    ensures forall j :: 0 <= j < |r| ==>
      r[j].shares > 0 && AtOrBefore(ClassPeriodStart, r[j].date) && AtOrBefore(r[j].date, ClassPeriodEnd)
  {
    if records == [] then []
    else
      var last := records[|records| - 1];
      Enqueued(records[..|records| - 1]) +
      (if OpensLot(last) then [Lot(last.purchases, last.price, last.date)] else [])
  }

  /** Shares matched by the sales among the records, each sale against the ledger it met. */
  function SoldShares(records: seq<Record>): nat {
    if records == [] then 0
    else
      var prefix, last := records[..|records| - 1], records[|records| - 1];
      SoldShares(prefix) + (if !OpensLot(last) && IsMatchedSale(last) then Sold(Replay(prefix).lots, last.sales) else 0)
  }

  lemma {:induction false} PrefixOfAppend(lots: seq<Lot>, lot: Lot, k: nat)
    requires k <= |lots|
    ensures Prefix(lots + [lot], k) == Prefix(lots, k)
  {
    if k > 0 {
      PrefixOfAppend(lots, lot, k - 1);
      assert (lots + [lot])[k - 1] == lots[k - 1];
    }
  }

  /** Opening a lot adds its shares to the ledger's holding. */
  lemma TotalOfAppend(lots: seq<Lot>, lot: Lot)
    ensures Total(lots + [lot]) == Total(lots) + lot.shares
  {
    PrefixOfAppend(lots, lot, |lots|);
    assert (lots + [lot])[|lots|] == lot;
  }

  /** Records that neither open a lot nor are a matched sale leave the state alone. */
  lemma InertRecordChangesNothing(records: seq<Record>, r: Record)
    requires !OpensLot(r) && !IsMatchedSale(r)
    ensures Replay(records + [r]) == Replay(records)
  {
  }

  /** The ledger holds exactly the lots the purchases opened, in input order, with
      price and date unchanged and never more shares; and it is consumed FIFO: a lot
      after one that still holds shares has not been touched. */
  lemma {:induction false} ReplayFollowsPurchases(records: seq<Record>)
    ensures |Replay(records).lots| == |Enqueued(records)|
    ensures forall j :: 0 <= j < |Replay(records).lots| ==>
      Replay(records).lots[j].price == Enqueued(records)[j].price &&
      Replay(records).lots[j].date == Enqueued(records)[j].date &&
      Replay(records).lots[j].shares <= Enqueued(records)[j].shares
    ensures forall j, k :: 0 <= j < k < |Replay(records).lots| && Replay(records).lots[j].shares > 0 ==>
      Replay(records).lots[k] == Enqueued(records)[k]
  {
    if records != [] {
      var prefix, last := records[..|records| - 1], records[|records| - 1];
      ReplayFollowsPurchases(prefix);
      var before, bought := Replay(prefix).lots, Enqueued(prefix);
      if !OpensLot(last) && IsMatchedSale(last) {
        var t := Sold(before, last.sales);
        var after := Consume(before, t);
        forall j | 0 <= j < |after|
          ensures after[j].price == bought[j].price && after[j].date == bought[j].date &&
                  after[j].shares <= bought[j].shares
        {
          ConsumeOnlyDecrements(before, t, j);
        }
        forall j, k | 0 <= j < k < |after| && after[j].shares > 0
          ensures after[k] == bought[k]
        {
          ConsumeOnlyDecrements(before, t, j);
          if TakenAt(before, t, k) > 0 {
            ConsumeIsFifo(before, t, j, k);
          }
          ConsumeAt(before, t, k);
        }
      }
    }
  }

  /** Conservation: the shares still held plus the shares matched by sales equal the
      shares bought by the lot-opening purchases. */
  lemma {:induction false} ReplayConservesShares(records: seq<Record>)
    ensures Total(Replay(records).lots) + SoldShares(records) == Total(Enqueued(records))
  {
    if records != [] {
      var prefix, last := records[..|records| - 1], records[|records| - 1];
      ReplayConservesShares(prefix);
      var before := Replay(prefix).lots;
      assert Replay(records) == Step(Replay(prefix), last);
      if OpensLot(last) {
        var lot := Lot(last.purchases, last.price, last.date);
        TotalOfAppend(before, lot);
        TotalOfAppend(Enqueued(prefix), lot);
      } else if IsMatchedSale(last) {
        ConsumeConserves(before, last.sales);
        assert Enqueued(records) == Enqueued(prefix);
        assert SoldShares(records) == SoldShares(prefix) + Sold(before, last.sales);
      } else {
        assert Enqueued(records) == Enqueued(prefix);
        assert SoldShares(records) == SoldShares(prefix);
      }
    }
  }

  /** The loss accumulated while replaying never decreases. */
  lemma {:induction false} ReplayLossNeverDecreases(records: seq<Record>, k: nat)
    requires k <= |records|
    ensures 0.0 <= Replay(records[..k]).loss <= Replay(records).loss
  {
    if k < |records| {
      var prefix := records[..|records| - 1];
      assert records[..k] == prefix[..k];
      ReplayLossNeverDecreases(prefix, k);
    } else {
      assert records[..k] == records;
      if records != [] {
        ReplayLossNeverDecreases(records[..|records| - 1], |records| - 1);
        assert records[..|records| - 1][..|records| - 1] == records[..|records| - 1];
      }
    }
  }

  /** Selection keeps input order across a concatenation. */
  lemma {:induction false} SelectAppend(a: seq<Record>, b: seq<Record>, fund: string)
    ensures Select(a + b, fund) == Select(a, fund) + Select(b, fund)
  {
    if b != [] {
      SelectAppend(a, b[..|b| - 1], fund);
      assert (a + b)[..|a + b| - 1] == a + b[..|b| - 1];
    } else {
      assert a + b == a;
    }
  }

  /** A fund's total depends only on its own records: a record of another fund,
      inserted anywhere, changes nothing. */
  lemma OtherFundsDoNotMatter(records: seq<Record>, i: nat, other: Record, fund: string)
    requires i <= |records| && other.fund != fund
    ensures Select(records[..i] + [other] + records[i..], fund) == Select(records, fund)
    ensures FundLoss(Select(records[..i] + [other] + records[i..], fund)) == FundLoss(Select(records, fund))
  {
    var xs, ys := records[..i], records[i..];
    calc {
      Select(xs + [other] + ys, fund);
    == { SelectAppend(xs + [other], ys, fund); }
      Select(xs + [other], fund) + Select(ys, fund);
    == { SelectSkipsOther(xs, other, fund); }
      Select(xs, fund) + Select(ys, fund);
    == { SelectAppend(xs, ys, fund); }
      Select(xs + ys, fund);
    == { assert xs + ys == records; }
      Select(records, fund);
    }
  }

  lemma SelectSkipsOther(xs: seq<Record>, other: Record, fund: string)
    requires other.fund != fund
    ensures Select(xs + [other], fund) == Select(xs, fund)
  {
  }

  /** One fund's pass (a pandas filter, then a walk over the fund's rows): open lots
      for Class-Period purchases, match sales FIFO, then value what is still held. */
  method FundRecognizedLoss(records: seq<Record>, fund: string) returns (total: real)
    ensures total == FundLoss(Select(records, fund))
    ensures total >= 0.0
  {
    var fundRecords := Select(records, fund);
    var purchases := new FundLedger();
    total := 0.0;
    for k := 0 to |fundRecords|
      invariant purchases.lots == Replay(fundRecords[..k]).lots
      invariant total == Replay(fundRecords[..k]).loss
    {
      var row := fundRecords[k];
      assert fundRecords[..k + 1][..k] == fundRecords[..k];
      if OpensLot(row) {
        purchases.Enqueue(Lot(row.purchases, row.price, row.date));
      } else if IsMatchedSale(row) {
        var loss := purchases.MatchSale(row.sales, row.date, row.price);
        total := total + loss;
      }
    }
    assert fundRecords[..|fundRecords|] == fundRecords;
    var held := purchases.HeldLoss();
    total := total + held;
  }

  /** The report: one row per distinct fund, in first-seen order, with its total. */
  method RecognizedLoss(records: seq<Record>) returns (summary: seq<FundTotal>)
    ensures |summary| == |Funds(records)|
    ensures forall k :: 0 <= k < |summary| ==>
      summary[k].fund == Funds(records)[k] && summary[k].total == FundLoss(Select(records, summary[k].fund))
    ensures forall k :: 0 <= k < |summary| ==> summary[k].total >= 0.0
  {
    var funds := Funds(records);
    summary := [];
    for k := 0 to |funds|
      invariant |summary| == k
      invariant forall j :: 0 <= j < k ==>
        summary[j].fund == funds[j] && summary[j].total == FundLoss(Select(records, funds[j])) && summary[j].total >= 0.0
    {
      var total := FundRecognizedLoss(records, funds[k]);
      summary := summary + [FundTotal(funds[k], total)];
    }
  }

  /** A sale after 2015-08-02 of all 100 shares bought at 30.00 on 2015-03-01, at
      25.00: the decline is 18.27, each share recognizes min(18.27, 5.00, 1.94). */
  lemma SaleAfterAugustExample(buy: Record, sell: Record)
    requires buy == Record("A", Purchase, Day(2015, 3, 1), 30.00, 100, 0)
    requires sell == Record("A", Sale, Day(2015, 8, 10), 25.00, 0, 100)
    ensures FundLoss([buy, sell]) == 194.00
  {
    var lot := Lot(100, 30.00, Day(2015, 3, 1));
    assert [buy, sell][..1] == [buy];
    assert [buy][..0] == [];
    assert Replay([buy]) == FundState([lot], 0.0);
    assert Total([lot]) == 100 by {
      assert Prefix([lot], 1) == Prefix([lot], 0) + 100;
    }
    assert Sold([lot], 100) == 100;
    assert TakenAt([lot], 100, 0) == 100;
    ConsumeAt([lot], 100, 0);
    var exhausted := [lot.(shares := 0)];
    assert Consume([lot], 100) == exhausted;
    assert SaleLossPerShare(30.00, Day(2015, 3, 1), Day(2015, 8, 10), 25.00) == 1.94;
    assert SaleLoss([lot], 100, sell.date, sell.price) ==
           SaleLossOver([lot], 100, 0, sell.date, sell.price) + LossOnShares(100, 1.94);
    assert Replay([buy, sell]) == FundState(exhausted, 194.00);
    assert HeldLossOver(exhausted, 1) == HeldLossOver(exhausted, 0) + 0.0;
  }

  /** 50 shares bought at 29.00 on 2015-07-01 and never sold: valued at 2015-10-30,
      each recognizes min(7.41, 0.94). */
  lemma HeldSharesExample(buy: Record)
    requires buy == Record("B", Purchase, Day(2015, 7, 1), 29.00, 50, 0)
    ensures FundLoss([buy]) == 47.00
  {
    assert [buy][..0] == [];
    var lot := Lot(50, 29.00, Day(2015, 7, 1));
    assert Replay([buy]) == FundState([lot], 0.0);
    assert HeldLossPerShare(29.00, Day(2015, 7, 1)) == 0.94;
    assert HeldLossOver([lot], 1) == HeldLossOver([lot], 0) + LossOnShares(50, 0.94);
  }

  /** A purchase after the Class Period opens no lot, so a later sale matches nothing. */
  lemma LatePurchaseExample(buy: Record, sell: Record)
    requires buy == Record("C", Purchase, Day(2015, 8, 1), 30.00, 100, 0)
    requires sell == Record("C", Sale, Day(2015, 8, 10), 25.00, 0, 100)
    ensures Enqueued([buy, sell]) == []
    ensures FundLoss([buy, sell]) == 0.0
  {
    assert !OpensLot(buy) && !IsMatchedSale(buy);
    assert [buy, sell][..1] == [buy];
    assert [buy][..0] == [];
    var empty := FundState([], 0.0);
    assert Replay([buy]) == Step(empty, buy) == empty;
    assert Replay([buy, sell]) == Step(empty, sell);
    ConsumeNothing([], 0, sell.date, sell.price);
    assert Step(empty, sell) == empty;
    assert Enqueued([buy]) == Enqueued([]) + [];
  }
}
