/** The consumer-goods sector: the firm's own state, the allocation of the
    nominal consumption demand among its firms (`D2`), its entry/exit
    equation (`entry2exit`), the two firm indices it rebuilds afterwards
    (`firm2maps`), and the share rescaler (`f2rescale`, the sector's
    `Rescale`). */
module Consumption {
  import opened Shares
  import opened Firms
  import opened Lifecycle
  import opened Sectors
  import opened Rationing

  /** What a consumer-goods firm carries besides the common firm state:
      its identifier, its age in periods of market participation (zero for
      an entrant), its market shares of past periods (most recent first),
      its price, its effective output, its inventories of the previous
      period, and the demand it filled and left unsatisfied this period. */
  datatype ConsumerGoods = ConsumerGoods(id: int, life: real, pastShares: seq<real>, price: real,
                                         output: real, stock: real, sold: real, unfilled: real)

  type Firm2 = Firm<ConsumerGoods>

  /*** Demand fulfilled (`D2`) ***/

  /** What a firm can sell: its effective output plus last period's
      inventories. */
  function Supply(f: Firm2): (r: real)
  {
    f.own.output + f.own.stock
  }

  function PricesOf(fs: seq<Firm2>): (r: seq<real>)
    ensures |r| == |fs| && forall i :: 0 <= i < |fs| ==> r[i] == fs[i].own.price
  {
    seq(|fs|, i requires 0 <= i < |fs| => fs[i].own.price)
  }

  function SuppliesOf(fs: seq<Firm2>): (r: seq<real>)
    ensures |r| == |fs| && forall i :: 0 <= i < |fs| ==> r[i] == Supply(fs[i])
  {
    seq(|fs|, i requires 0 <= i < |fs| => Supply(fs[i]))
  }

  /** The firms with this period's filled and unsatisfied demand recorded;
      nothing else about them changes. */
  function Delivered(fs: seq<Firm2>, sold: seq<real>, unfilled: seq<real>): (r: seq<Firm2>)
    requires |sold| == |fs| == |unfilled|
    ensures |r| == |fs|
    ensures forall i :: 0 <= i < |fs| ==> r[i] == fs[i].(own := fs[i].own.(sold := sold[i], unfilled := unfilled[i]))
  {
    seq(|fs|, i requires 0 <= i < |fs| => fs[i].(own := fs[i].own.(sold := sold[i], unfilled := unfilled[i])))
  }

  /** The allocation as the sector sees it. */
  function Allocation(demand: real, fs: seq<Firm2>): (r: Tally)
    requires PositivePrices(PricesOf(fs))
  {
    Outcome(demand, SharesOf(fs), PricesOf(fs), SuppliesOf(fs))
  }

  /** `D2`: rations the nominal demand `demand` among the firms by market
      share, round after round, records every firm's filled and unsatisfied
      demand, and returns the total quantity sold. The firms' market shares
      are not changed: the rounds work on a copy. */
  method DemandFulfilled(s: Sector<ConsumerGoods>, demand: real) returns (total: real)
    requires PositivePrices(PricesOf(s.firms))
    modifies s
    ensures var o := Allocation(demand, old(s.firms));
      s.firms == Delivered(old(s.firms), o.sold, o.unfilled) && total == o.total
    ensures s.cEntry == old(s.cEntry) && s.exitFail == old(s.exitFail)
  {
    var sold, unfilled;
    sold, unfilled, total := Ration(demand, SharesOf(s.firms), PricesOf(s.firms), SuppliesOf(s.firms));
    s.firms := Delivered(s.firms, sold, unfilled);
  }

  /** What the allocation records for one firm: it sells nothing negative
      and never more than its supply, nothing at all without a supply or a
      share, and its unsatisfied demand is never negative; its market share
      and the rest of its state are left as they were. */
  lemma Delivery(fs: seq<Firm2>, demand: real, m: nat)
    requires PositivePrices(PricesOf(fs)) && m < |fs|
    ensures var o := Allocation(demand, fs);
      var f := Delivered(fs, o.sold, o.unfilled)[m];
      && 0.0 <= f.own.sold
      && (Supply(fs[m]) > 0.0 ==> f.own.sold <= Supply(fs[m]))
      && (Supply(fs[m]) <= 0.0 || fs[m].share <= 0.0 ==> f.own.sold == 0.0)
      && f.own.unfilled >= 0.0
      && f == fs[m].(own := fs[m].own.(sold := f.own.sold, unfilled := f.own.unfilled))
  {
    var shares, prices, supplies := SharesOf(fs), PricesOf(fs), SuppliesOf(fs);
    SupplyBound(demand, shares, prices, supplies);
    UnfilledFirstRound(demand, shares, prices, supplies);
    if fs[m].share <= 0.0 {
      UnsharedUnserved(demand, shares, prices, supplies, m);
    }
  }

  /** The total the allocation returns is the sum of the firms' sales, and
      the value of the sales plus whatever demand is left unallocated is the
      demand. */
  lemma DeliveryTotals(fs: seq<Firm2>, demand: real)
    requires PositivePrices(PricesOf(fs))
    ensures var o := Allocation(demand, fs);
      && o.total == Sum(o.sold)
      && Spent(o.sold, PricesOf(fs), |fs|) + o.residual == demand
  {
    var shares, prices, supplies := SharesOf(fs), PricesOf(fs), SuppliesOf(fs);
    SupplyBound(demand, shares, prices, supplies);
    MoneyConserved(demand, shares, prices, supplies);
  }

  /*** Entry and exit (`entry2exit`) ***/

  /** The market share `j` periods back; the current one when `j` is 0. */
  function Lag2(f: Firm2, j: nat): (r: real)
    requires j <= |f.own.pastShares|
  {
    if j == 0 then f.share else f.own.pastShares[j - 1]
  }

  /** Every firm has stored the shares of the `n2` periods of the window. */
  predicate Windowed(fs: seq<Firm2>, n2: nat)
  {
    forall i :: 0 <= i < |fs| ==> n2 <= |fs[i].own.pastShares| + 1
  }

  /** The running average over the first `j` periods of a window of `n2`:
      every share divided by `n2` and added, most recent first. */
  function MeanShare(f: Firm2, n2: nat, j: nat): (r: real)
    requires j <= n2 <= |f.own.pastShares| + 1
  {
    if j == 0 then 0.0 else MeanShare(f, n2, j - 1) + Lag2(f, j - 1) / (n2 as real)
  }

  /** The shares over the first `j` periods, added up. */
  function ShareSum(f: Firm2, j: nat): (r: real)
    requires j <= |f.own.pastShares| + 1
  {
    if j == 0 then 0.0 else ShareSum(f, j - 1) + Lag2(f, j - 1)
  }

  /** The sector's view of a firm: an incumbent once it has been in the
      market for a period; the average share over the window; unviable when
      that average is below the minimum share. The average is only taken
      for firms that are insolvent or incumbent; the others cannot be
      candidates. */
  function Standing2(f: Firm2, f2min: real, n2: nat): (r: Standing)
    requires n2 <= |f.own.pastShares| + 1
  {
    if f.nw < 0.0 || f.own.life > 0.0 then
      var mean := MeanShare(f, n2, n2);
      Standing(f.own.life > 0.0, mean, mean < f2min)
    else
      Standing(false, 0.0, false)
  }

  function Standings2Of(fs: seq<Firm2>, f2min: real, n2: nat): (r: seq<Standing>)
    requires Windowed(fs, n2)
    ensures |r| == |fs|
    ensures forall i :: 0 <= i < |fs| ==> r[i] == Standing2(fs[i], f2min, n2)
  {
    seq(|fs|, i requires 0 <= i < |fs| => Standing2(fs[i], f2min, n2))
  }

  /** The averaging half of the marking pass: one standing per firm. */
  method Standings2(fs: seq<Firm2>, f2min: real, n2: nat) returns (sts: seq<Standing>)
    requires Windowed(fs, n2)
    ensures sts == Standings2Of(fs, f2min, n2)
  {
    sts := [];
    var i := 0;
    while i < |fs|
      invariant i <= |fs| && |sts| == i
      invariant forall m :: 0 <= m < i ==> sts[m] == Standing2(fs[m], f2min, n2)
    {
      var f := fs[i];
      var st := Standing(false, 0.0, false);
      if f.nw < 0.0 || f.own.life > 0.0 {
        var mean := 0.0;
        var j := 0;
        while j < n2
          invariant j <= n2 && mean == MeanShare(f, n2, j)
        {
          mean := mean + Lag2(f, j) / (n2 as real);
          j := j + 1;
        }
        st := Standing(f.own.life > 0.0, mean, mean < f2min);
      }
      sts := sts + [st];
      i := i + 1;
    }
  }

  /** The running average is the running sum over the window length. */
  lemma {:induction false} MeanIsAverage(f: Firm2, n2: nat, j: nat)
    requires j <= n2 <= |f.own.pastShares| + 1 && n2 > 0
    ensures MeanShare(f, n2, j) == ShareSum(f, j) / (n2 as real)
  {
    if j > 0 {
      MeanIsAverage(f, n2, j - 1);
      DivisionAdds(ShareSum(f, j - 1), Lag2(f, j - 1), n2 as real);
    }
  }

  /** A window whose shares all reach `c` adds up to at least `j` times `c`;
      one whose shares all fall short of it adds up to less. */
  lemma {:induction false} ShareSumBounds(f: Firm2, j: nat, c: real)
    requires j <= |f.own.pastShares| + 1
    ensures (forall m :: 0 <= m < j ==> Lag2(f, m) >= c) ==> ShareSum(f, j) >= (j as real) * c
    ensures j > 0 && (forall m :: 0 <= m < j ==> Lag2(f, m) < c) ==> ShareSum(f, j) < (j as real) * c
  {
    if j > 0 {
      ShareSumBounds(f, j - 1, c);
      assert ((j - 1) as real) * c + c == (j as real) * c;
    }
  }

  /** With a window of at least one period, the average share is below the
      minimum exactly when the shares add up to less than the minimum times
      the window length. */
  lemma Threshold(f: Firm2, f2min: real, n2: nat)
    requires 0 < n2 <= |f.own.pastShares| + 1
    ensures MeanShare(f, n2, n2) < f2min <==> ShareSum(f, n2) < f2min * (n2 as real)
  {
    MeanIsAverage(f, n2, n2);
    BelowIff(ShareSum(f, n2), f2min, n2 as real);
  }

  lemma BelowIff(a: real, b: real, c: real)
    requires c > 0.0
    ensures a / c < b <==> a < b * c
  {
    var q := a / c;
    assert q * c == a;
    if q < b {
      assert q * c < b * c;
    } else {
      assert b * c <= q * c;
    }
  }

  /** The exit rule of the sector in terms of the window: with a window of
      at least one period, a firm is a candidate exactly when it is
      insolvent, or it is an incumbent whose shares over the window add up
      to less than the minimum share times the window length. */
  lemma ExitRule(f: Firm2, f2min: real, n2: nat)
    requires 0 < n2 <= |f.own.pastShares| + 1
    ensures IsCandidate(f, Standing2(f, f2min, n2)) <==>
            f.nw < 0.0 || (f.own.life > 0.0 && ShareSum(f, n2) < f2min * (n2 as real))
  {
    Threshold(f, f2min, n2);
  }

  /** An incumbent whose share never fell below the minimum over the window
      is viable; one whose share stayed below it all along is not. */
  lemma WindowViability(f: Firm2, f2min: real, n2: nat)
    requires 0 < n2 <= |f.own.pastShares| + 1 && f.own.life > 0.0
    ensures (forall m :: 0 <= m < n2 ==> Lag2(f, m) >= f2min) ==> !Standing2(f, f2min, n2).unviable
    ensures (forall m :: 0 <= m < n2 ==> Lag2(f, m) < f2min) ==> Standing2(f, f2min, n2).unviable
  {
    Threshold(f, f2min, n2);
    ShareSumBounds(f, n2, f2min);
    assert (n2 as real) * f2min == f2min * (n2 as real);
  }

  /** `entry2exit`: every firm's standing over the window of `n2` periods,
      then the shared entry/exit sequence with `floor` as the minimum net
      wealth of a kept-back firm and `newcomer` as the entrant policy, and
      finally the firm indices rebuilt over the new population. Returns the
      exit rate and, as a ghost, the index of the best candidate. */
  method Entry2Exit(s: Sector<ConsumerGoods>, index: FirmIndex, f2min: real, n2: nat, floor: real,
                    newcomer: nat -> Firm2)
    returns (rate: real, ghost k: nat)
    requires |s.firms| >= 1 && Windowed(s.firms, n2)
    modifies s, index
    ensures EntryExitOutcome(old(s.firms), Standings2Of(old(s.firms), f2min, n2), floor, newcomer, k,
                             s.firms, s.cEntry, s.exitFail, rate)
    ensures index.pointers == s.firms && index.byId == IdIndex(s.firms, |s.firms|)
  {
    var sts := Standings2(s.firms, f2min, n2);
    rate, k := s.EntryExit(sts, floor, newcomer);
    var _ := index.Rebuild(s.firms);
  }

  /*** Firm indices (`firm2maps`) ***/

  /** The identifier index over the first `n` firms: the first firm with
      each identifier, as an insertion that never replaces a key gives. */
  function IdIndex(fs: seq<Firm2>, n: nat): (r: map<int, Firm2>)
    requires n <= |fs|
  {
    if n == 0 then map[]
    else
      var m := IdIndex(fs, n - 1);
      if fs[n - 1].own.id in m then m else m[fs[n - 1].own.id := fs[n - 1]]
  }

  /** The two indices of the firms of the sector: the firms in order, and
      the firms by identifier. */
  class FirmIndex {
    var pointers: seq<Firm2>
    var byId: map<int, Firm2>

    constructor ()
      ensures pointers == [] && byId == map[]
    {
      pointers := [];
      byId := map[];
    }

    /** Clears both indices and refills them from the population; returns
        the number of firms indexed. */
    method Rebuild(fs: seq<Firm2>) returns (count: nat)
      modifies this
      ensures pointers == fs && byId == IdIndex(fs, |fs|) && count == |fs|
    {
      byId := map[];
      pointers := [];
      count := 0;
      while count < |fs|
        invariant count <= |fs| && pointers == fs[..count] && byId == IdIndex(fs, count)
      {
        var f := fs[count];
        pointers := pointers + [f];
        if f.own.id !in byId {
          byId := byId[f.own.id := f];
        }
        count := count + 1;
      }
    }
  }

  /** Every identifier of the first `n` firms is a key, and nothing else. */
  lemma {:induction false} IndexKeys(fs: seq<Firm2>, n: nat)
    requires n <= |fs|
    ensures IdIndex(fs, n).Keys == set i | 0 <= i < n :: fs[i].own.id
  {
    if n > 0 {
      IndexKeys(fs, n - 1);
      assert (set i | 0 <= i < n :: fs[i].own.id) == (set i | 0 <= i < n - 1 :: fs[i].own.id) + {fs[n - 1].own.id};
    }
  }

  /** A firm whose identifier no earlier firm carries is what its
      identifier finds, however many firms follow it. */
  lemma {:induction false} IndexFindsFirst(fs: seq<Firm2>, n: nat, i: nat)
    requires i < n <= |fs|
    requires forall j :: 0 <= j < i ==> fs[j].own.id != fs[i].own.id
    ensures fs[i].own.id in IdIndex(fs, n) && IdIndex(fs, n)[fs[i].own.id] == fs[i]
  {
    if i < n - 1 {
      IndexFindsFirst(fs, n - 1, i);
    } else {
      IndexKeys(fs, n - 1);
    }
  }

  /** Whatever an identifier finds is a firm of the population carrying it. */
  lemma {:induction false} IndexSound(fs: seq<Firm2>, n: nat, id: int)
    requires n <= |fs| && id in IdIndex(fs, n)
    ensures exists i :: 0 <= i < n && fs[i] == IdIndex(fs, n)[id] && fs[i].own.id == id
  {
    var m := IdIndex(fs, n - 1);
    if id in m {
      IndexSound(fs, n - 1, id);
    } else {
      assert fs[n - 1] == IdIndex(fs, n)[id];
    }
  }
}
