/** The per-fund FIFO ledger of open purchase lots and the matching of a sale against it. */
module LotLedger {
  import opened Calendar
  import opened LossRules

  /** An open purchase lot: the shares still unmatched, and the price and date paid. */
  datatype Lot = Lot(shares: nat, price: real, date: DateTime)

  function Min(a: int, b: int): int { if a <= b then a else b }

  /** Shares remaining in the first j lots. */
  function Prefix(lots: seq<Lot>, j: nat): nat
    requires j <= |lots|
  {
    if j == 0 then 0 else Prefix(lots, j - 1) + lots[j - 1].shares
  }

  /** Shares remaining in the whole ledger. */
  function Total(lots: seq<Lot>): nat {
    Prefix(lots, |lots|)
  }

  lemma {:induction false} PrefixMonotone(lots: seq<Lot>, j: nat, k: nat)
    requires j <= k <= |lots|
    ensures Prefix(lots, j) <= Prefix(lots, k)
  {
    if j < k {
      PrefixMonotone(lots, j, k - 1);
    }
  }

  /** The shares a FIFO walk takes from lot j when it consumes t shares in all: the
      walk reaches lot j only once the t shares exceed what the j earlier lots hold. */
  function TakenAt(lots: seq<Lot>, t: int, j: nat): (n: nat)
    requires j < |lots|
    ensures n <= lots[j].shares
    ensures n > 0 <==> t > Prefix(lots, j) && lots[j].shares > 0
  {
    if t <= Prefix(lots, j) then 0 else Min(t - Prefix(lots, j), lots[j].shares)
  }

  /** The first n lots of the ledger after a FIFO walk has consumed t shares from it. */
  function ConsumeUpTo(lots: seq<Lot>, t: int, n: nat): (r: seq<Lot>)
    requires n <= |lots|
    ensures |r| == n
    ensures forall j :: 0 <= j < n ==>
      r[j].price == lots[j].price && r[j].date == lots[j].date && r[j].shares <= lots[j].shares
  {
    if n == 0 then []
    else ConsumeUpTo(lots, t, n - 1) + [lots[n - 1].(shares := lots[n - 1].shares - TakenAt(lots, t, n - 1))]
  }

  /** The ledger after a FIFO walk has consumed t shares from it. */
  function Consume(lots: seq<Lot>, t: int): (r: seq<Lot>)
    ensures |r| == |lots|
    ensures forall j :: 0 <= j < |r| ==>
      r[j].price == lots[j].price && r[j].date == lots[j].date && r[j].shares <= lots[j].shares
  {
    ConsumeUpTo(lots, t, |lots|)
  }

  /** Each lot keeps its price and date and loses exactly what the walk takes from it. */
  lemma ConsumeAt(lots: seq<Lot>, t: int, j: nat)
    requires j < |lots|
    ensures Consume(lots, t)[j] == lots[j].(shares := lots[j].shares - TakenAt(lots, t, j))
  {
    ConsumeUpToAt(lots, t, |lots|, j);
  }

  lemma {:induction false} ConsumeUpToAt(lots: seq<Lot>, t: int, n: nat, j: nat)
    requires j < n <= |lots|
    ensures ConsumeUpTo(lots, t, n)[j] == lots[j].(shares := lots[j].shares - TakenAt(lots, t, j))
  {
    if j < n - 1 {
      ConsumeUpToAt(lots, t, n - 1, j);
    }
  }

  /** Shares actually matched by a sale of `quantity`: none for a non-positive
      quantity, and never more than the ledger holds (the excess is dropped). */
  function Sold(lots: seq<Lot>, quantity: int): (n: nat)
    ensures quantity <= 0 ==> n == 0
    ensures n <= Total(lots)
    ensures quantity > 0 ==> n <= quantity
    ensures quantity > 0 && quantity <= Total(lots) ==> n == quantity
    ensures quantity > Total(lots) ==> n == Total(lots)
  {
    if quantity <= 0 then 0 else Min(quantity, Total(lots))
  }

  /** Loss recognized on `shares` shares at `perShare` each. */
  function LossOnShares(shares: nat, perShare: real): (r: real)
    requires perShare >= 0.0
    ensures r >= 0.0
  {
    perShare * (shares as real)
  }

  /** Loss recognized on the first n lots when t shares are consumed by a sale at
      (saleDate, salePrice): each lot's matched shares times its per-share loss. */
  function SaleLossOver(lots: seq<Lot>, t: int, n: nat, saleDate: DateTime, salePrice: real): (r: real)
    requires n <= |lots|
    ensures r >= 0.0
  {
    if n == 0 then 0.0
    else
      SaleLossOver(lots, t, n - 1, saleDate, salePrice) +
      LossOnShares(TakenAt(lots, t, n - 1), SaleLossPerShare(lots[n - 1].price, lots[n - 1].date, saleDate, salePrice))
  }

  /** Loss recognized on a sale that consumes t shares of the ledger. */
  function SaleLoss(lots: seq<Lot>, t: int, saleDate: DateTime, salePrice: real): (r: real)
    ensures r >= 0.0
    ensures AtOrBefore(saleDate, DisclosureTime) ==> r == 0.0
    ensures r <= 18.27 * (Min(if t < 0 then 0 else t, Total(lots)) as real)
  {
    SaleBeforeDisclosureIsFree(lots, t, |lots|, saleDate, salePrice);
    SaleLossOverBounded(lots, t, |lots|, saleDate, salePrice);
    SaleLossOver(lots, t, |lots|, saleDate, salePrice)
  }

  /** Loss recognized on the shares still held in the first n lots. */
  function HeldLossOver(lots: seq<Lot>, n: nat): (r: real)
    requires n <= |lots|
    ensures r >= 0.0
  {
    if n == 0 then 0.0
    else
      HeldLossOver(lots, n - 1) +
      (if lots[n - 1].shares > 0
       then LossOnShares(lots[n - 1].shares, HeldLossPerShare(lots[n - 1].price, lots[n - 1].date))
       else 0.0)
  }

  /** The per-fund FIFO ledger: lots in the order their purchases appeared. */
  class FundLedger {
    var lots: seq<Lot>

    constructor ()
      ensures lots == []
    {
      lots := [];
    }

    /** Opens a lot at the tail of the queue. */
    method Enqueue(lot: Lot)
      modifies this
      ensures lots == old(lots) + [lot]
    {
      lots := lots + [lot];
    }

    /** Matches a sale of `quantity` shares against the ledger, oldest lot first,
        decrementing each lot in place, and returns the loss recognized on it. */
    method MatchSale(quantity: int, saleDate: DateTime, salePrice: real) returns (loss: real)
      modifies this
      ensures lots == Consume(old(lots), Sold(old(lots), quantity))
      ensures loss == SaleLoss(old(lots), Sold(old(lots), quantity), saleDate, salePrice)
    {
      ghost var orig := lots;
      ConsumeNothing(orig, 0, saleDate, salePrice);
      var saleShares := quantity;
      var i := 0;
      loss := 0.0;
      ghost var taken := 0;
      while saleShares > 0 && i < |lots|
        invariant |lots| == |orig| && i <= |orig|
        invariant saleShares == quantity - taken
        invariant taken == 0 || (0 < taken <= quantity && saleShares >= 0)
        invariant Prefix(orig, i) <= taken <= Total(orig)
        invariant i < |orig| ==> taken <= Prefix(orig, i + 1)
        invariant lots == Consume(orig, taken)
        invariant loss == SaleLoss(orig, taken, saleDate, salePrice)
        decreases |lots| - i, saleShares
      {
        WalkAt(orig, taken, i);
        var p := lots[i];
        if p.shares <= 0 {
          i := i + 1;
          continue;
        }
        var matched := Min(p.shares, saleShares);
        ConsumeStep(orig, taken, matched, i, saleDate, salePrice);
        var recognizedLoss := SaleLossPerShare(p.price, p.date, saleDate, salePrice);
        loss := loss + LossOnShares(matched, recognizedLoss);
        lots := lots[i := p.(shares := p.shares - matched)];
        saleShares := saleShares - matched;
        taken := taken + matched;
        if lots[i].shares <= 0 {
          i := i + 1;
        }
      }
      assert taken == Sold(orig, quantity);
    }

    /** Loss recognized on the shares still held at the end of the run. */
    method HeldLoss() returns (loss: real)
      ensures loss == HeldLossOver(lots, |lots|)
    {
      loss := 0.0;
      for k := 0 to |lots|
        invariant loss == HeldLossOver(lots, k)
      {
        var p := lots[k];
        if p.shares > 0 {
          var recognizedLoss := HeldLossPerShare(p.price, p.date);
          loss := loss + LossOnShares(p.shares, recognizedLoss);
        }
      }
    }
  }

  /** Consuming nothing changes nothing and recognizes nothing. */
  lemma ConsumeNothing(lots: seq<Lot>, t: int, saleDate: DateTime, salePrice: real)
    requires t <= 0
    ensures Consume(lots, t) == lots
    ensures SaleLoss(lots, t, saleDate, salePrice) == 0.0
  {
    forall j | 0 <= j < |lots|
      ensures Consume(lots, t)[j] == lots[j]
    {
      ConsumeAt(lots, t, j);
    }
    SaleLossOverNothing(lots, t, |lots|, saleDate, salePrice);
  }

  lemma {:induction false} SaleLossOverNothing(lots: seq<Lot>, t: int, n: nat, saleDate: DateTime, salePrice: real)
    requires t <= 0 && n <= |lots|
    ensures SaleLossOver(lots, t, n, saleDate, salePrice) == 0.0
  {
    if n > 0 {
      SaleLossOverNothing(lots, t, n - 1, saleDate, salePrice);
    }
  }

  /** While the walk stands at lot i, that lot holds what the earlier lots did not
      cover of its share count; once it is empty the walk has passed it. */
  lemma WalkAt(lots: seq<Lot>, t: int, i: nat)
    requires i < |lots| && Prefix(lots, i) <= t <= Prefix(lots, i + 1)
    ensures Consume(lots, t)[i].shares == Prefix(lots, i + 1) - t
    ensures Consume(lots, t)[i].shares == 0 ==>
      Prefix(lots, i + 1) <= t && (i + 1 < |lots| ==> t <= Prefix(lots, i + 2))
  {
    ConsumeAt(lots, t, i);
  }

  /** Taking m more shares while the walk stands at lot i changes only lot i, adds
      m times lot i's per-share loss, and passes lot i once it is empty. */
  lemma ConsumeStep(lots: seq<Lot>, t: int, m: nat, i: nat, saleDate: DateTime, salePrice: real)
    requires i < |lots| && Prefix(lots, i) <= t && t + m <= Prefix(lots, i + 1)
    ensures Consume(lots, t)[i].price == lots[i].price && Consume(lots, t)[i].date == lots[i].date
    ensures m <= Consume(lots, t)[i].shares
    ensures Consume(lots, t + m) == Consume(lots, t)[i := Consume(lots, t)[i].(shares := Consume(lots, t)[i].shares - m)]
    ensures SaleLoss(lots, t + m, saleDate, salePrice) ==
            SaleLoss(lots, t, saleDate, salePrice) +
            LossOnShares(m, SaleLossPerShare(lots[i].price, lots[i].date, saleDate, salePrice))
    ensures t + m <= Total(lots)
    ensures Consume(lots, t + m)[i].shares == 0 ==>
      Prefix(lots, i + 1) <= t + m && (i + 1 < |lots| ==> t + m <= Prefix(lots, i + 2))
  {
    ConsumeWalkStep(lots, t, m, i);
    TakenStep(lots, t, m, i);
    SaleLossOverStep(lots, t, m, i, |lots|, saleDate, salePrice);
  }

  /** The ledger half of ConsumeStep. */
  lemma ConsumeWalkStep(lots: seq<Lot>, t: int, m: nat, i: nat)
    requires i < |lots| && Prefix(lots, i) <= t && t + m <= Prefix(lots, i + 1)
    ensures Consume(lots, t)[i].price == lots[i].price && Consume(lots, t)[i].date == lots[i].date
    ensures m <= Consume(lots, t)[i].shares
    ensures Consume(lots, t + m) == Consume(lots, t)[i := Consume(lots, t)[i].(shares := Consume(lots, t)[i].shares - m)]
    ensures t + m <= Total(lots)
    ensures Consume(lots, t + m)[i].shares == 0 ==>
      Prefix(lots, i + 1) <= t + m && (i + 1 < |lots| ==> t + m <= Prefix(lots, i + 2))
  {
    WalkAt(lots, t, i);
    WalkAt(lots, t + m, i);
    ConsumeAt(lots, t, i);
    PrefixMonotone(lots, i + 1, |lots|);
    TakenStep(lots, t, m, i);
    var before, after := Consume(lots, t), Consume(lots, t + m);
    var stepped := before[i := before[i].(shares := before[i].shares - m)];
    forall j | 0 <= j < |lots|
      ensures after[j] == stepped[j]
    {
      ConsumeAt(lots, t + m, j);
      ConsumeAt(lots, t, j);
    }
    assert after == stepped;
  }

  /** Taking m more shares inside lot i takes them all from lot i. */
  lemma TakenStep(lots: seq<Lot>, t: int, m: nat, i: nat)
    requires i < |lots| && Prefix(lots, i) <= t && t + m <= Prefix(lots, i + 1)
    ensures forall j :: 0 <= j < |lots| && j != i ==> TakenAt(lots, t + m, j) == TakenAt(lots, t, j)
    ensures TakenAt(lots, t + m, i) == TakenAt(lots, t, i) + m
  {
    forall j | 0 <= j < |lots| && j != i
      ensures TakenAt(lots, t + m, j) == TakenAt(lots, t, j)
    {
      if j < i {
        PrefixMonotone(lots, j + 1, i);
      } else {
        PrefixMonotone(lots, i + 1, j);
      }
    }
  }

  lemma {:induction false} SaleLossOverStep(lots: seq<Lot>, t: int, m: nat, i: nat, n: nat, saleDate: DateTime, salePrice: real)
    requires i < |lots| && n <= |lots|
    requires forall j :: 0 <= j < |lots| && j != i ==> TakenAt(lots, t + m, j) == TakenAt(lots, t, j)
    requires TakenAt(lots, t + m, i) == TakenAt(lots, t, i) + m
    ensures SaleLossOver(lots, t + m, n, saleDate, salePrice) ==
            SaleLossOver(lots, t, n, saleDate, salePrice) +
            (if i < n then LossOnShares(m, SaleLossPerShare(lots[i].price, lots[i].date, saleDate, salePrice)) else 0.0)
  {
    if n > 0 {
      SaleLossOverStep(lots, t, m, i, n - 1, saleDate, salePrice);
      var k := n - 1;
      var ps := SaleLossPerShare(lots[k].price, lots[k].date, saleDate, salePrice);
      if k == i {
        LossOnSharesAdds(TakenAt(lots, t, k), m, ps);
      }
    }
  }

  lemma LossOnSharesAdds(a: nat, b: nat, perShare: real)
    requires perShare >= 0.0
    ensures LossOnShares(a + b, perShare) == LossOnShares(a, perShare) + LossOnShares(b, perShare)
  {
  }

  /** Conservation within one sale: consuming t shares leaves the first k lots
      holding what they held less the part of t that reached them. */
  lemma {:induction false} ConsumePrefix(lots: seq<Lot>, t: int, k: nat)
    requires k <= |lots|
    ensures Prefix(Consume(lots, t), k) == Prefix(lots, k) - Min(if t < 0 then 0 else t, Prefix(lots, k))
  {
    if k > 0 {
      ConsumePrefix(lots, t, k - 1);
      ConsumeAt(lots, t, k - 1);
    }
  }

  /** A sale of `quantity` takes min(quantity, Total) shares (none if quantity <= 0)
      and the ledger's holding drops by exactly that; the rest of the sale is dropped. */
  lemma ConsumeConserves(lots: seq<Lot>, quantity: int)
    ensures Total(Consume(lots, Sold(lots, quantity))) + Sold(lots, quantity) == Total(lots)
    ensures quantity > 0 ==> Sold(lots, quantity) == Min(quantity, Total(lots))
  {
    ConsumePrefix(lots, Sold(lots, quantity), |lots|);
  }

  /** FIFO: a sale takes shares from lot k only when it leaves every earlier lot empty. */
  lemma ConsumeIsFifo(lots: seq<Lot>, t: int, j: nat, k: nat)
    requires j < k < |lots|
    requires TakenAt(lots, t, k) > 0
    ensures Consume(lots, t)[j].shares == 0
  {
    ConsumeAt(lots, t, j);
    PrefixMonotone(lots, j + 1, k);
  }

  /** Consuming never makes a lot hold more, never changes its price or date. */
  lemma ConsumeOnlyDecrements(lots: seq<Lot>, t: int, j: nat)
    requires j < |lots|
    ensures Consume(lots, t)[j].price == lots[j].price && Consume(lots, t)[j].date == lots[j].date
    ensures Consume(lots, t)[j].shares <= lots[j].shares
    ensures t <= Prefix(lots, j) ==> Consume(lots, t)[j] == lots[j]
  {
    ConsumeAt(lots, t, j);
  }

  /** Every matched share is worth at most the largest decline, 18.27. */
  lemma {:induction false} SaleLossOverBounded(lots: seq<Lot>, t: int, n: nat, saleDate: DateTime, salePrice: real)
    requires n <= |lots|
    ensures SaleLossOver(lots, t, n, saleDate, salePrice) <=
            18.27 * (Min(if t < 0 then 0 else t, Prefix(lots, n)) as real)
  {
    if n > 0 {
      SaleLossOverBounded(lots, t, n - 1, saleDate, salePrice);
      var ps := SaleLossPerShare(lots[n - 1].price, lots[n - 1].date, saleDate, salePrice);
      LossOnSharesAtMost(TakenAt(lots, t, n - 1), ps, 18.27);
    }
  }

  lemma LossOnSharesAtMost(shares: nat, perShare: real, cap: real)
    requires 0.0 <= perShare <= cap
    ensures LossOnShares(shares, perShare) <= cap * (shares as real)
  {
  }

  /** A sale at or before the disclosure minute recognizes no loss, whatever the prices. */
  lemma {:induction false} SaleBeforeDisclosureIsFree(lots: seq<Lot>, t: int, n: nat, saleDate: DateTime, salePrice: real)
    requires n <= |lots|
    ensures AtOrBefore(saleDate, DisclosureTime) ==> SaleLossOver(lots, t, n, saleDate, salePrice) == 0.0
  {
    if n > 0 {
      SaleBeforeDisclosureIsFree(lots, t, n - 1, saleDate, salePrice);
    }
  }
}
