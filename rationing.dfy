/** Demand rationing in the consumer-goods market (`D2`): nominal demand is
    split among the firms in proportion to their market shares; a firm
    serves what its supply allows; a firm that runs out drops out; the
    shares of the firms that served in full are renormalised and the round
    repeats on the demand left unallocated, until that residual is small or
    no firm is left to serve it. */
module Rationing {
  import opened Shares

  /** The residual nominal demand below which rationing stops. */
  const Tolerance: real := 0.01

  /** The state the rationing loop carries from firm to firm and from round
      to round: the working shares (`f2`), the supply still available
      (`sup2`), the accumulated sales (`_D2`) and the unsatisfied demand of
      the first round (`_l2`) of every firm, the nominal demand not yet
      allocated (`v[2]`), the share of the firms that served in full this
      round (`v[3]`) and the total quantity sold (`v[0]`). */
  datatype Tally = Tally(share: seq<real>, left: seq<real>, sold: seq<real>, unfilled: seq<real>,
                         residual: real, kept: real, total: real)

  /** Every per-firm column of the tally covers the same `n` firms. */
  predicate Shaped(t: Tally, n: nat)
  {
    |t.share| == n && |t.left| == n && |t.sold| == n && |t.unfilled| == n
  }

  predicate PositivePrices(prices: seq<real>)
  {
    forall m :: 0 <= m < |prices| ==> prices[m] > 0.0
  }

  function Zeros(n: nat): (r: seq<real>)
    ensures |r| == n && forall m :: 0 <= m < n ==> r[m] == 0.0
  {
    seq(n, m requires 0 <= m < n => 0.0)
  }

  /** The value of the sales of the first `j` firms at their prices. */
  function Spent(sold: seq<real>, prices: seq<real>, j: nat): (r: real)
    requires j <= |sold| == |prices|
  {
    if j == 0 then 0.0 else Spent(sold, prices, j - 1) + sold[j - 1] * prices[j - 1]
  }

  /** The sum of the positive entries among the first `j`. */
  function PositiveTotal(s: seq<real>, j: nat): (r: real)
    requires j <= |s|
  {
    if j == 0 then 0.0 else PositiveTotal(s, j - 1) + (if s[j - 1] > 0.0 then s[j - 1] else 0.0)
  }

  /** The number of positive entries among the first `j`. */
  function PositiveCount(s: seq<real>, j: nat): (r: nat)
    requires j <= |s|
  {
    if j == 0 then 0 else PositiveCount(s, j - 1) + (if s[j - 1] > 0.0 then 1 else 0)
  }

  /** Firm `j`'s turn in a round with allocatable demand `v1`: a firm with
      a positive share and supply left is allotted `v1` times its share; it
      serves all of it when its supply allows, and otherwise serves its
      whole supply, records the excess as unsatisfied demand when this is
      the first round, and drops out; a firm with a positive share and no
      supply left drops out; a firm without a positive share is skipped. */
  function Visit(t: Tally, j: nat, v1: real, prices: seq<real>, first: bool): (r: Tally)
    requires Shaped(t, |prices|) && PositivePrices(prices) && j < |prices|
    ensures Shaped(r, |prices|)
  {
    if t.share[j] > 0.0 then
      if t.left[j] > 0.0 then
        var money := v1 * t.share[j];
        var units := money / prices[j];
        if units <= t.left[j] then
          t.(sold := t.sold[j := t.sold[j] + units], total := t.total + units,
             residual := t.residual - money, kept := t.kept + t.share[j],
             left := t.left[j := t.left[j] - units])
        else
          t.(unfilled := if first then t.unfilled[j := units - t.left[j]] else t.unfilled,
             sold := t.sold[j := t.sold[j] + t.left[j]], total := t.total + t.left[j],
             residual := t.residual - t.left[j] * prices[j],
             share := t.share[j := 0.0], left := t.left[j := 0.0])
      else
        t.(share := t.share[j := 0.0])
    else
      t
  }

  /** The turns of the first `j` firms of a round, in population order. */
  function Sweep(t: Tally, j: nat, v1: real, prices: seq<real>, first: bool): (r: Tally)
    requires Shaped(t, |prices|) && PositivePrices(prices) && j <= |prices|
    ensures Shaped(r, |prices|)
  {
    if j == 0 then t else Visit(Sweep(t, j - 1, v1, prices, first), j - 1, v1, prices, first)
  }

  /** Round `i` over the whole population: the residual at its start is the
      demand it allocates, and no share has yet been kept. */
  function Round(t: Tally, i: nat, prices: seq<real>): (r: Tally)
    requires Shaped(t, |prices|) && PositivePrices(prices)
    ensures Shaped(r, |prices|)
  {
    Sweep(t.(kept := 0.0), |prices|, t.residual, prices, i == 0)
  }

  /** The shares after a round, divided by the share kept in it. */
  function Renormalised(t: Tally): (r: Tally)
    requires t.kept > 0.0
    ensures r.share == Scaled(t.share, t.kept)
  {
    t.(share := Scaled(t.share, t.kept))
  }

  /** Rounds from round `i` on, at most `fuel` of them: stop when the
      residual is within the tolerance; otherwise run a round, and either
      renormalise and go on, or stop when no share was kept. */
  function Run(t: Tally, i: nat, fuel: nat, prices: seq<real>): (r: Tally)
    requires Shaped(t, |prices|) && PositivePrices(prices)
    ensures Shaped(r, |prices|)
    decreases fuel
  {
    if fuel == 0 || t.residual <= Tolerance then t
    else
      var s := Round(t, i, prices);
      if s.kept > 0.0 then Run(Renormalised(s), i + 1, fuel - 1, prices) else s
  }

  /** The tally before the first round: the entry shares and supplies,
      nothing sold, no unsatisfied demand, the whole demand unallocated. */
  function Start(demand: real, shares: seq<real>, supplies: seq<real>): (r: Tally)
    requires |shares| == |supplies|
    ensures Shaped(r, |shares|)
  {
    Tally(shares, supplies, Zeros(|shares|), Zeros(|shares|), demand, 0.0, 0.0)
  }

  /** The outcome of rationing `demand` among firms with the given shares,
      prices and supplies; `n + 1` rounds always suffice (`FuelSuffices`). */
  function Outcome(demand: real, shares: seq<real>, prices: seq<real>, supplies: seq<real>): (r: Tally)
    requires |shares| == |prices| == |supplies| && PositivePrices(prices)
    ensures Shaped(r, |prices|)
  {
    Run(Start(demand, shares, supplies), 0, |shares| + 1, prices)
  }

  /** The excess of a firm's allotment over its supply, as the first round
      records it; `before` when there is none. */
  function Excess(share: real, left: real, v1: real, price: real, before: real): (r: real)
    requires price > 0.0
  {
    if share > 0.0 && left > 0.0 && v1 * share / price > left then v1 * share / price - left else before
  }

  /** The unsatisfied demand the first round records: the part of a firm's
      allotment of the whole demand beyond its supply, for firms with a
      positive share and a positive supply; never negative. */
  function Shortfall(demand: real, shares: seq<real>, prices: seq<real>, supplies: seq<real>): (r: seq<real>)
    requires |shares| == |prices| == |supplies| && PositivePrices(prices)
    ensures |r| == |shares| && forall m :: 0 <= m < |shares| ==> r[m] >= 0.0
  {
    seq(|shares|, m requires 0 <= m < |shares| => Excess(shares[m], supplies[m], demand, prices[m], 0.0))
  }

  /** The quantity behind the loop's termination: the firms still holding a
      positive share, one for the first round (whose shares need not add up
      to one) and one while the residual is above the tolerance. */
  function Measure(t: Tally, i: nat): (r: nat)
  {
    PositiveCount(t.share, |t.share|) + (if i == 0 then 1 else 0) + (if t.residual > Tolerance then 1 else 0)
  }

  /** Two sequences that agree on their first `j` entries have the same
      positive total and count there. */
  lemma {:induction false} PositiveAgree(s: seq<real>, u: seq<real>, j: nat)
    requires j <= |s| && j <= |u|
    requires forall m :: 0 <= m < j ==> s[m] == u[m]
    ensures PositiveTotal(s, j) == PositiveTotal(u, j) && PositiveCount(s, j) == PositiveCount(u, j)
  {
    if j > 0 {
      PositiveAgree(s, u, j - 1);
    }
  }

  /** Dividing by a positive divisor keeps the positive entries and divides
      their total. */
  lemma {:induction false} PositiveScaled(s: seq<real>, c: real, j: nat)
    requires c > 0.0 && j <= |s|
    ensures PositiveCount(Scaled(s, c), j) == PositiveCount(s, j)
    ensures PositiveTotal(Scaled(s, c), j) == PositiveTotal(s, j) / c
  {
    if j > 0 {
      PositiveScaled(s, c, j - 1);
      var x := s[j - 1];
      assert Scaled(s, c)[j - 1] == x / c;
      DivisionMonotone(0.0, x, c);
      var p := if x > 0.0 then x else 0.0;
      assert (if x / c > 0.0 then x / c else 0.0) == p / c;
      DivisionAdds(PositiveTotal(s, j - 1), p, c);
    }
  }

  lemma DivisionAdds(a: real, b: real, c: real)
    requires c > 0.0
    ensures a / c + b / c == (a + b) / c
  {
    DivisionMonotone(a, b, c);
    DivisionMonotone(a + b, b, c);
    assert (a / c + b / c) * c == a + b;
  }

  /** A positive total needs a positive entry. */
  lemma {:induction false} PositiveTotalCount(s: seq<real>, j: nat)
    requires j <= |s|
    ensures PositiveTotal(s, j) >= 0.0
    ensures PositiveTotal(s, j) > 0.0 ==> PositiveCount(s, j) >= 1
  {
    if j > 0 {
      PositiveTotalCount(s, j - 1);
    }
  }

  /** A sweep over the first `j` firms leaves the others as they were. */
  lemma {:induction false} SweepFrame(t: Tally, j: nat, v1: real, prices: seq<real>, first: bool)
    requires Shaped(t, |prices|) && PositivePrices(prices) && j <= |prices|
    ensures var s := Sweep(t, j, v1, prices, first);
      forall m :: j <= m < |prices| ==>
        s.share[m] == t.share[m] && s.left[m] == t.left[m] && s.sold[m] == t.sold[m] && s.unfilled[m] == t.unfilled[m]
  {
    if j > 0 {
      SweepFrame(t, j - 1, v1, prices, first);
    }
  }

  /** One firm's turn: only its share can change, and only to zero; the
      share kept grows by its share if it is still positive; the residual
      falls by at most the allocatable demand times its positive share, and
      by exactly that when it did not drop out. */
  lemma VisitAccounts(t: Tally, j: nat, v1: real, prices: seq<real>, first: bool)
    requires Shaped(t, |prices|) && PositivePrices(prices) && j < |prices| && v1 > 0.0
    ensures var r := Visit(t, j, v1, prices, first);
      var x := if t.share[j] > 0.0 then t.share[j] else 0.0;
      && (forall m :: 0 <= m < |prices| && m != j ==> r.share[m] == t.share[m])
      && (r.share[j] == t.share[j] || r.share[j] == 0.0)
      && r.kept == t.kept + (if r.share[j] > 0.0 then r.share[j] else 0.0)
      && r.residual >= t.residual - v1 * x
      && ((r.share[j] > 0.0) == (t.share[j] > 0.0) ==> r.residual == t.residual - v1 * x)
  {
    var x := t.share[j];
    if x > 0.0 && t.left[j] > 0.0 {
      Distribute(v1, 0.0, x);
      var units := v1 * x / prices[j];
      if units > t.left[j] {
        BelowQuotient(t.left[j], v1 * x, prices[j]);
      }
    } else if x > 0.0 {
      Distribute(v1, 0.0, x);
    }
  }

  /** The ledger of a round in progress, from the tally `t` it started with
      to the tally `s` after the first `j` firms: the firms not yet visited
      keep their shares; the share kept is the positive share left among
      the visited ones; no visited firm gained a positive share; and the
      residual fell by at most the demand allotted to the visited firms'
      positive shares, and by exactly that when none of them dropped out. */
  ghost predicate Swept(t: Tally, s: Tally, j: nat, v1: real, n: nat)
    requires Shaped(t, n) && Shaped(s, n) && j <= n
  {
    && (forall m :: j <= m < n ==> s.share[m] == t.share[m])
    && s.kept == t.kept + PositiveTotal(s.share, j)
    && PositiveCount(s.share, j) <= PositiveCount(t.share, j)
    && s.residual >= t.residual - Allotted(v1, t.share, j)
    && (PositiveCount(s.share, j) == PositiveCount(t.share, j) ==> s.residual == t.residual - Allotted(v1, t.share, j))
  }

  /** One more firm's turn extends the ledger. */
  lemma SweptStep(t: Tally, s: Tally, j: nat, v1: real, prices: seq<real>, first: bool)
    requires Shaped(t, |prices|) && Shaped(s, |prices|) && PositivePrices(prices) && j < |prices| && v1 > 0.0
    requires Swept(t, s, j, v1, |prices|)
    ensures Swept(t, Visit(s, j, v1, prices, first), j + 1, v1, |prices|)
  {
    var r := Visit(s, j, v1, prices, first);
    VisitAccounts(s, j, v1, prices, first);
    PositiveAgree(r.share, s.share, j);
    CountStep(r.share, s.share, t.share, j);
  }

  /** A sweep over the first `j` firms keeps the ledger. */
  lemma {:induction false} SweepLedger(t: Tally, j: nat, v1: real, prices: seq<real>, first: bool)
    requires Shaped(t, |prices|) && PositivePrices(prices) && j <= |prices| && v1 > 0.0
    ensures Swept(t, Sweep(t, j, v1, prices, first), j, v1, |prices|)
  {
    if j > 0 {
      SweepLedger(t, j - 1, v1, prices, first);
      SweptStep(t, Sweep(t, j - 1, v1, prices, first), j - 1, v1, prices, first);
    }
  }

  /** The demand `v` allots to the positive shares among the first `j`. */
  function Allotted(v: real, s: seq<real>, j: nat): (r: real)
    requires j <= |s|
  {
    if j == 0 then 0.0 else Allotted(v, s, j - 1) + v * (if s[j - 1] > 0.0 then s[j - 1] else 0.0)
  }

  /** The allotments add up to the demand times the positive total. */
  lemma {:induction false} AllottedTotal(v: real, s: seq<real>, j: nat)
    requires j <= |s|
    ensures Allotted(v, s, j) == v * PositiveTotal(s, j)
  {
    if j > 0 {
      AllottedTotal(v, s, j - 1);
      Distribute(v, PositiveTotal(s, j - 1), if s[j - 1] > 0.0 then s[j - 1] else 0.0);
    }
  }

  /** The positive count over one more firm, whose share either stayed or
      dropped to zero, rises by at most as much as before its turn. */
  lemma CountStep(r: seq<real>, s: seq<real>, t: seq<real>, m: nat)
    requires m < |r| && m < |s| && m < |t|
    requires forall i :: 0 <= i < m ==> r[i] == s[i]
    requires PositiveCount(s, m) <= PositiveCount(t, m)
    requires r[m] == t[m] || r[m] == 0.0
    ensures PositiveCount(r, m + 1) <= PositiveCount(t, m + 1)
    ensures PositiveCount(r, m + 1) == PositiveCount(t, m + 1) ==>
              PositiveCount(s, m) == PositiveCount(t, m) && ((r[m] > 0.0) == (t[m] > 0.0))
  {
    PositiveAgree(r, s, m);
  }

  /** Multiplication by the allocatable demand distributes over adding a
      share, and a positive demand times a positive share is positive. */
  lemma Distribute(v: real, p: real, x: real)
    ensures v * (p + x) == v * p + v * x
    ensures v > 0.0 && x > 0.0 ==> v * x > 0.0
  {
  }

  /** A quantity below the quotient `a / c` costs less than `a` at price `c`. */
  lemma BelowQuotient(q: real, a: real, c: real)
    requires c > 0.0 && q < a / c
    ensures q * c < a
  {
    DivisionMonotone(a, a, c);
    assert q * c < (a / c) * c;
  }

  /** A round that starts with the residual above the tolerance, from
      shares whose positive part adds up to one after the first round: the
      share kept is the positive share left; when it is positive, the
      renormalised shares add up to exactly one, and the measure falls. */
  lemma RoundStep(t: Tally, i: nat, prices: seq<real>)
    requires Shaped(t, |prices|) && PositivePrices(prices) && t.residual > Tolerance
    requires i >= 1 ==> PositiveTotal(t.share, |prices|) == 1.0
    ensures var s := Round(t, i, prices);
      && s.kept == PositiveTotal(s.share, |prices|)
      && (s.kept > 0.0 ==>
            && PositiveTotal(Renormalised(s).share, |prices|) == 1.0
            && Measure(Renormalised(s), i + 1) < Measure(t, i))
  {
    RoundKept(t, i, prices);
    RoundCount(t, i, prices);
    var s := Round(t, i, prices);
    if s.kept > 0.0 {
      RenormalisedWhole(s);
    }
  }

  /** A round leaves no more firms with a positive share than it found;
      after the first round, if none of them dropped out, the whole
      residual was served. */
  lemma RoundCount(t: Tally, i: nat, prices: seq<real>)
    requires Shaped(t, |prices|) && PositivePrices(prices) && t.residual > Tolerance
    requires i >= 1 ==> PositiveTotal(t.share, |prices|) == 1.0
    ensures var s := Round(t, i, prices);
      && PositiveCount(s.share, |prices|) <= PositiveCount(t.share, |prices|)
      && (i >= 1 && PositiveCount(s.share, |prices|) == PositiveCount(t.share, |prices|) ==> s.residual == 0.0)
  {
    var n := |prices|;
    var v1 := t.residual;
    var t0 := t.(kept := 0.0);
    SweepLedger(t0, n, v1, prices, i == 0);
    if i >= 1 && PositiveCount(Round(t, i, prices).share, n) == PositiveCount(t.share, n) {
      AllottedTotal(v1, t.share, n);
    }
  }

  lemma SelfQuotient(c: real)
    requires c > 0.0
    ensures c / c == 1.0
  {
  }

  /** Shares whose positive part adds up to one include a positive one. */
  lemma WholeHasPositive(s: seq<real>)
    requires PositiveTotal(s, |s|) == 1.0
    ensures PositiveCount(s, |s|) >= 1
  {
    PositiveTotalCount(s, |s|);
  }

  /** The bookkeeping every tally of a rationing of `demand` keeps: no firm
      has sold a negative quantity; what it sold and what it has left add up
      to its starting supply, it never has a negative supply left over from
      a positive one, and a firm without a positive starting supply or a
      positive entry share has sold nothing (and keeps a share that is not
      positive); the total is the sum of the sales; and the value of the
      sales plus the residual is the demand. */
  ghost predicate Accounted(t: Tally, demand: real, shares: seq<real>, prices: seq<real>, supplies: seq<real>)
    requires |shares| == |prices| == |supplies|
  {
    && Shaped(t, |prices|)
    && (forall m :: 0 <= m < |prices| ==> FirmAccounted(t, m, shares, supplies))
    && t.total == Sum(t.sold)
    && Spent(t.sold, prices, |prices|) + t.residual == demand
  }

  /** Selling `q` more units at firm `j` adds `q` to the total and `q`
      times the price to the value of the sales. */
  lemma SaleAdds(sold: seq<real>, prices: seq<real>, j: nat, q: real)
    requires |sold| == |prices| && j < |sold|
    ensures Sum(sold[j := sold[j] + q]) == Sum(sold) + q
    ensures Spent(sold[j := sold[j] + q], prices, |prices|) == Spent(sold, prices, |prices|) + q * prices[j]
  {
    SumUpdate(sold, j, sold[j] + q);
    SpentUpdate(sold, prices, j, q, |prices|);
  }

  /** The same, for the value of the sales of the first `n` firms. */
  lemma {:induction false} SpentUpdate(sold: seq<real>, prices: seq<real>, j: nat, q: real, n: nat)
    requires |sold| == |prices| && j < |sold| && n <= |sold|
    ensures Spent(sold[j := sold[j] + q], prices, n) == Spent(sold, prices, n) + (if j < n then q * prices[j] else 0.0)
  {
    if n > 0 {
      SpentUpdate(sold, prices, j, q, n - 1);
      if j == n - 1 {
        Expand(sold[j], q, prices[j]);
      }
    }
  }

  /** Nothing sold is worth nothing. */
  lemma {:induction false} SpentNothing(prices: seq<real>, n: nat)
    requires n <= |prices|
    ensures Spent(Zeros(|prices|), prices, n) == 0.0
  {
    if n > 0 {
      SpentNothing(prices, n - 1);
    }
  }

  lemma Expand(a: real, b: real, c: real)
    ensures (a + b) * c == a * c + b * c
  {
  }

  /** The per-firm part of the bookkeeping, for firm `m`. */
  ghost predicate FirmAccounted(t: Tally, m: nat, shares: seq<real>, supplies: seq<real>)
    requires Shaped(t, |shares|) && |supplies| == |shares| && m < |shares|
  {
    && t.sold[m] >= 0.0
    && t.sold[m] + t.left[m] == supplies[m]
    && (supplies[m] > 0.0 ==> t.left[m] >= 0.0)
    && (supplies[m] <= 0.0 ==> t.sold[m] == 0.0)
    && (shares[m] <= 0.0 ==> t.share[m] <= 0.0 && t.sold[m] == 0.0)
  }

  /** A sale of `q` units, no more than its supply left, by firm `j` with
      a positive entry share, paid for out of the residual at the firm's
      price, keeps the bookkeeping, whatever happens to its share. */
  lemma SaleAccounted(t: Tally, j: nat, q: real, share: seq<real>, unfilled: seq<real>, kept: real,
                      demand: real, shares: seq<real>, prices: seq<real>, supplies: seq<real>)
    requires |shares| == |prices| == |supplies| && j < |prices|
    requires Accounted(t, demand, shares, prices, supplies)
    requires 0.0 <= q <= t.left[j] && t.left[j] > 0.0 && shares[j] > 0.0
    requires |share| == |prices| && |unfilled| == |prices|
    requires forall m :: 0 <= m < |prices| && m != j ==> share[m] == t.share[m]
    ensures Accounted(Tally(share, t.left[j := t.left[j] - q], t.sold[j := t.sold[j] + q], unfilled,
                            t.residual - q * prices[j], kept, t.total + q),
                      demand, shares, prices, supplies)
  {
    var r := Tally(share, t.left[j := t.left[j] - q], t.sold[j := t.sold[j] + q], unfilled,
                   t.residual - q * prices[j], kept, t.total + q);
    SaleAdds(t.sold, prices, j, q);
    assert FirmAccounted(t, j, shares, supplies);
    assert FirmAccounted(r, j, shares, supplies);
    forall m | 0 <= m < |prices|
      ensures FirmAccounted(r, m, shares, supplies)
    {
      if m != j {
        assert FirmAccounted(t, m, shares, supplies);
      }
    }
  }

  /** One firm's turn keeps the bookkeeping. */
  lemma VisitAccounted(t: Tally, j: nat, v1: real, prices: seq<real>, first: bool,
                       demand: real, shares: seq<real>, supplies: seq<real>)
    requires |shares| == |prices| == |supplies| && PositivePrices(prices) && j < |prices| && v1 > 0.0
    requires Accounted(t, demand, shares, prices, supplies)
    ensures Accounted(Visit(t, j, v1, prices, first), demand, shares, prices, supplies)
  {
    var x := t.share[j];
    if x > 0.0 && t.left[j] > 0.0 {
      var units := v1 * x / prices[j];
      if units <= t.left[j] {
        ServedAccounted(t, j, v1, prices, first, demand, shares, supplies);
      } else {
        ShortAccounted(t, j, v1, prices, first, demand, shares, supplies);
      }
    } else if x > 0.0 {
      var r := Visit(t, j, v1, prices, first);
      forall m | 0 <= m < |prices|
        ensures FirmAccounted(r, m, shares, supplies)
      {
        assert FirmAccounted(t, m, shares, supplies);
      }
    }
  }

  /** A firm that serves its whole allotment keeps the bookkeeping. */
  lemma ServedAccounted(t: Tally, j: nat, v1: real, prices: seq<real>, first: bool,
                        demand: real, shares: seq<real>, supplies: seq<real>)
    requires |shares| == |prices| == |supplies| && PositivePrices(prices) && j < |prices| && v1 > 0.0
    requires Accounted(t, demand, shares, prices, supplies)
    requires t.share[j] > 0.0 && t.left[j] > 0.0 && v1 * t.share[j] / prices[j] <= t.left[j]
    ensures Accounted(Visit(t, j, v1, prices, first), demand, shares, prices, supplies)
  {
    var x := t.share[j];
    var money := v1 * x;
    var units := money / prices[j];
    assert FirmAccounted(t, j, shares, supplies);
    ServeArith(v1, x, prices[j]);
    var r := Visit(t, j, v1, prices, first);
    assert r.residual == t.residual - money;
    assert r.share == t.share && r.unfilled == t.unfilled;
    assert r.kept == t.kept + x && r.total == t.total + units;
    assert r.sold == t.sold[j := t.sold[j] + units];
    assert r.left == t.left[j := t.left[j] - units];
    assert r ==
           Tally(t.share, t.left[j := t.left[j] - units], t.sold[j := t.sold[j] + units], t.unfilled,
                 t.residual - units * prices[j], t.kept + x, t.total + units);
    SaleAccounted(t, j, units, t.share, t.unfilled, t.kept + x, demand, shares, prices, supplies);
  }

  /** A positive allotment buys a positive quantity, which costs exactly
      the allotment. */
  lemma ServeArith(v1: real, x: real, price: real)
    requires v1 > 0.0 && x > 0.0 && price > 0.0
    ensures v1 * x / price >= 0.0 && (v1 * x / price) * price == v1 * x
  {
    Distribute(v1, 0.0, x);
    DivisionMonotone(0.0, v1 * x, price);
  }

  /** A firm that runs out, serving its whole supply, keeps the bookkeeping. */
  lemma ShortAccounted(t: Tally, j: nat, v1: real, prices: seq<real>, first: bool,
                       demand: real, shares: seq<real>, supplies: seq<real>)
    requires |shares| == |prices| == |supplies| && PositivePrices(prices) && j < |prices| && v1 > 0.0
    requires Accounted(t, demand, shares, prices, supplies)
    requires t.share[j] > 0.0 && t.left[j] > 0.0 && v1 * t.share[j] / prices[j] > t.left[j]
    ensures Accounted(Visit(t, j, v1, prices, first), demand, shares, prices, supplies)
  {
    var r := Visit(t, j, v1, prices, first);
    var q := t.left[j];
    assert FirmAccounted(t, j, shares, supplies);
    assert r == Tally(t.share[j := 0.0], t.left[j := q - q], t.sold[j := t.sold[j] + q], r.unfilled,
                      t.residual - q * prices[j], t.kept, t.total + q);
    SaleAccounted(t, j, q, t.share[j := 0.0], r.unfilled, t.kept, demand, shares, prices, supplies);
  }

  lemma {:induction false} SweepAccounted(t: Tally, j: nat, v1: real, prices: seq<real>, first: bool,
                                          demand: real, shares: seq<real>, supplies: seq<real>)
    requires |shares| == |prices| == |supplies| && PositivePrices(prices) && j <= |prices| && v1 > 0.0
    requires Accounted(t, demand, shares, prices, supplies)
    ensures Accounted(Sweep(t, j, v1, prices, first), demand, shares, prices, supplies)
  {
    if j > 0 {
      var s := Sweep(t, j - 1, v1, prices, first);
      SweepAccounted(t, j - 1, v1, prices, first, demand, shares, supplies);
      VisitAccounted(s, j - 1, v1, prices, first, demand, shares, supplies);
      assert Sweep(t, j, v1, prices, first) == Visit(s, j - 1, v1, prices, first);
    }
  }

  /** Renormalising the shares keeps the bookkeeping. */
  lemma RenormalisedAccounted(t: Tally, demand: real, shares: seq<real>, prices: seq<real>, supplies: seq<real>)
    requires |shares| == |prices| == |supplies| && t.kept > 0.0
    requires Accounted(t, demand, shares, prices, supplies)
    ensures Accounted(Renormalised(t), demand, shares, prices, supplies)
  {
    var r := Renormalised(t);
    forall m | 0 <= m < |prices|
      ensures FirmAccounted(r, m, shares, supplies)
    {
      assert FirmAccounted(t, m, shares, supplies);
      DivisionMonotone(t.share[m], 0.0, t.kept);
    }
  }

  /** Every round keeps the bookkeeping, so the outcome keeps it. */
  lemma {:induction false} RunAccounted(t: Tally, i: nat, fuel: nat, prices: seq<real>,
                                        demand: real, shares: seq<real>, supplies: seq<real>)
    requires |shares| == |prices| == |supplies| && PositivePrices(prices)
    requires Accounted(t, demand, shares, prices, supplies)
    ensures Accounted(Run(t, i, fuel, prices), demand, shares, prices, supplies)
    decreases fuel
  {
    if fuel > 0 && t.residual > Tolerance {
      var t0 := t.(kept := 0.0);
      forall m | 0 <= m < |prices|
        ensures FirmAccounted(t0, m, shares, supplies)
      {
        assert FirmAccounted(t, m, shares, supplies);
      }
      SweepAccounted(t0, |prices|, t.residual, prices, i == 0, demand, shares, supplies);
      var s := Round(t, i, prices);
      if s.kept > 0.0 {
        RenormalisedAccounted(s, demand, shares, prices, supplies);
        RunAccounted(Renormalised(s), i + 1, fuel - 1, prices, demand, shares, supplies);
      }
    }
  }

  /** The tally before the first round keeps the bookkeeping. */
  lemma StartAccounted(demand: real, shares: seq<real>, prices: seq<real>, supplies: seq<real>)
    requires |shares| == |prices| == |supplies|
    ensures Accounted(Start(demand, shares, supplies), demand, shares, prices, supplies)
  {
    var n := |shares|;
    var t := Start(demand, shares, supplies);
    SumConstant(n, 0.0);
    assert t.sold == seq(n, m requires 0 <= m < n => 0.0);
    SpentNothing(prices, n);
    forall m | 0 <= m < n
      ensures FirmAccounted(t, m, shares, supplies)
    {
    }
  }

  /** Renormalising by the share kept, when that is the positive share left,
      makes the positive shares add up to exactly one and keeps which firms
      hold one. */
  lemma RenormalisedWhole(s: Tally)
    requires s.kept > 0.0 && s.kept == PositiveTotal(s.share, |s.share|)
    ensures PositiveTotal(Renormalised(s).share, |s.share|) == 1.0
    ensures PositiveCount(Renormalised(s).share, |s.share|) == PositiveCount(s.share, |s.share|)
  {
    PositiveScaled(s.share, s.kept, |s.share|);
    SelfQuotient(s.kept);
  }

  /** A demand no larger than one times a share of at most one. */
  lemma AtMostOnce(v: real, p: real)
    requires v >= 0.0 && p <= 1.0
    ensures v * p <= v
  {
  }

  /** When the shares' positive part adds up to at most one, the residual
      never falls below zero. */
  lemma {:induction false} RunResidual(t: Tally, i: nat, fuel: nat, prices: seq<real>)
    requires Shaped(t, |prices|) && PositivePrices(prices)
    requires t.residual >= 0.0 && PositiveTotal(t.share, |prices|) <= 1.0
    ensures Run(t, i, fuel, prices).residual >= 0.0
    decreases fuel
  {
    if fuel > 0 && t.residual > Tolerance {
      RoundResidual(t, i, prices);
      RoundKept(t, i, prices);
      var s := Round(t, i, prices);
      if s.kept > 0.0 {
        RenormalisedWhole(s);
        RunResidual(Renormalised(s), i + 1, fuel - 1, prices);
      }
    }
  }

  /** One round from a positive residual and shares whose positive part
      adds up to at most one leaves a residual that is not negative. */
  lemma RoundResidual(t: Tally, i: nat, prices: seq<real>)
    requires Shaped(t, |prices|) && PositivePrices(prices)
    requires t.residual > 0.0 && PositiveTotal(t.share, |prices|) <= 1.0
    ensures Round(t, i, prices).residual >= 0.0
  {
    var n := |prices|;
    var v1 := t.residual;
    var t0 := t.(kept := 0.0);
    var s := Sweep(t0, n, v1, prices, i == 0);
    assert Round(t, i, prices) == s;
    SweepLedger(t0, n, v1, prices, i == 0);
    assert s.residual >= v1 - Allotted(v1, t0.share, n);
    assert t0.share == t.share;
    AllottedTotal(v1, t.share, n);
    AtMostOnce(v1, PositiveTotal(t.share, n));
  }

  /** The share a round keeps is the positive share it leaves. */
  lemma RoundKept(t: Tally, i: nat, prices: seq<real>)
    requires Shaped(t, |prices|) && PositivePrices(prices) && t.residual > 0.0
    ensures Round(t, i, prices).kept == PositiveTotal(Round(t, i, prices).share, |prices|)
  {
    SweepLedger(t.(kept := 0.0), |prices|, t.residual, prices, i == 0);
  }

  /** Enough fuel for the measure: more fuel changes nothing. */
  lemma {:induction false} RunSettles(t: Tally, i: nat, fuel: nat, extra: nat, prices: seq<real>)
    requires Shaped(t, |prices|) && PositivePrices(prices)
    requires i >= 1 ==> PositiveTotal(t.share, |prices|) == 1.0
    requires Measure(t, i) <= fuel + 1
    ensures Run(t, i, fuel, prices) == Run(t, i, fuel + extra, prices)
    decreases fuel
  {
    if t.residual > Tolerance {
      if i >= 1 {
        WholeHasPositive(t.share);
      }
      RoundStep(t, i, prices);
      var s := Round(t, i, prices);
      if s.kept > 0.0 {
        RunSettles(Renormalised(s), i + 1, fuel - 1, extra, prices);
      }
    }
  }

  /** `n + 1` rounds are always enough: the outcome does not depend on the
      bound on the number of rounds. */
  lemma FuelSuffices(demand: real, shares: seq<real>, prices: seq<real>, supplies: seq<real>, extra: nat)
    requires |shares| == |prices| == |supplies| && PositivePrices(prices)
    ensures Outcome(demand, shares, prices, supplies) == Run(Start(demand, shares, supplies), 0, |shares| + 1 + extra, prices)
  {
    var t := Start(demand, shares, supplies);
    PositiveCountBound(shares, |shares|);
    RunSettles(t, 0, |shares| + 1, extra, prices);
  }

  /** The loop's stop rule: the residual is within the tolerance, or no
      firm holds a positive share. */
  predicate Settled(t: Tally, n: nat)
    requires n <= |t.share|
  {
    t.residual <= Tolerance || PositiveTotal(t.share, n) == 0.0
  }

  /** With enough fuel for the measure, the run stops only by the loop's
      own rule: the residual is within the tolerance, or no share is left. */
  lemma {:induction false} RunExit(t: Tally, i: nat, fuel: nat, prices: seq<real>)
    requires Shaped(t, |prices|) && PositivePrices(prices)
    requires i >= 1 ==> PositiveTotal(t.share, |prices|) == 1.0
    requires Measure(t, i) <= fuel + 1
    ensures Settled(Run(t, i, fuel, prices), |prices|)
    decreases fuel
  {
    if t.residual > Tolerance {
      if i >= 1 {
        WholeHasPositive(t.share);
      }
      RoundStep(t, i, prices);
      var s := Round(t, i, prices);
      if s.kept > 0.0 {
        RunExit(Renormalised(s), i + 1, fuel - 1, prices);
      } else {
        PositiveTotalCount(s.share, |prices|);
      }
    }
  }

  /** Rationing ends with the residual demand within the tolerance or with
      no firm holding a share: the bound on the rounds never cuts it short. */
  lemma OutcomeExit(demand: real, shares: seq<real>, prices: seq<real>, supplies: seq<real>)
    requires |shares| == |prices| == |supplies| && PositivePrices(prices)
    ensures Settled(Outcome(demand, shares, prices, supplies), |prices|)
  {
    PositiveCountBound(shares, |shares|);
    RunExit(Start(demand, shares, supplies), 0, |shares| + 1, prices);
  }

  lemma {:induction false} PositiveCountBound(s: seq<real>, j: nat)
    requires j <= |s|
    ensures PositiveCount(s, j) <= j
  {
    if j > 0 {
      PositiveCountBound(s, j - 1);
    }
  }

  /** One turn of the first round: the firm's unsatisfied demand becomes its
      excess, a firm with a positive share but no supply drops out, and no
      other firm's share, supply left or unsatisfied demand changes. */
  lemma VisitFirst(t: Tally, j: nat, v1: real, prices: seq<real>)
    requires Shaped(t, |prices|) && PositivePrices(prices) && j < |prices|
    ensures var r := Visit(t, j, v1, prices, true);
      && r.unfilled[j] == Excess(t.share[j], t.left[j], v1, prices[j], t.unfilled[j])
      && (t.share[j] > 0.0 && t.left[j] <= 0.0 ==> r.share[j] == 0.0)
      && (forall m :: 0 <= m < |prices| && m != j ==>
            r.unfilled[m] == t.unfilled[m] && r.share[m] == t.share[m] && r.left[m] == t.left[m])
  {
  }

  /** The first round's record after the first `j` firms of the tally `s`
      that started as `t`: every visited firm's unsatisfied demand is the
      excess of its allotment over its supply, a visited firm with a
      positive share but no supply has dropped out, and the firms not yet
      visited are as they were. */
  ghost predicate FirstSwept(t: Tally, s: Tally, j: nat, v1: real, prices: seq<real>)
    requires Shaped(t, |prices|) && Shaped(s, |prices|) && PositivePrices(prices) && j <= |prices|
  {
    && (forall m :: 0 <= m < j ==>
          && s.unfilled[m] == Excess(t.share[m], t.left[m], v1, prices[m], t.unfilled[m])
          && (t.share[m] > 0.0 && t.left[m] <= 0.0 ==> s.share[m] == 0.0))
    && (forall m :: j <= m < |prices| ==>
          s.share[m] == t.share[m] && s.left[m] == t.left[m] && s.unfilled[m] == t.unfilled[m])
  }

  /** The first round records, for each firm it has visited, the excess of
      its allotment over its supply when that is positive, and drops a
      firm with a positive share but no supply. */
  lemma {:induction false} FirstSweep(t: Tally, j: nat, v1: real, prices: seq<real>)
    requires Shaped(t, |prices|) && PositivePrices(prices) && j <= |prices|
    ensures FirstSwept(t, Sweep(t, j, v1, prices, true), j, v1, prices)
  {
    if j > 0 {
      var s := Sweep(t, j - 1, v1, prices, true);
      FirstSweep(t, j - 1, v1, prices);
      FirstStep(t, s, j - 1, v1, prices);
      assert Sweep(t, j, v1, prices, true) == Visit(s, j - 1, v1, prices, true);
    }
  }

  /** One more turn of the first round extends its record. */
  lemma FirstStep(t: Tally, s: Tally, j: nat, v1: real, prices: seq<real>)
    requires Shaped(t, |prices|) && Shaped(s, |prices|) && PositivePrices(prices) && j < |prices|
    requires FirstSwept(t, s, j, v1, prices)
    ensures FirstSwept(t, Visit(s, j, v1, prices, true), j + 1, v1, prices)
  {
    VisitFirst(s, j, v1, prices);
  }

  /** A round after the first leaves the unsatisfied demand alone. */
  lemma {:induction false} LaterSweep(t: Tally, j: nat, v1: real, prices: seq<real>)
    requires Shaped(t, |prices|) && PositivePrices(prices) && j <= |prices|
    ensures Sweep(t, j, v1, prices, false).unfilled == t.unfilled
  {
    if j > 0 {
      LaterSweep(t, j - 1, v1, prices);
    }
  }

  /** A firm whose share is zero is skipped by every turn of a round. */
  lemma {:induction false} SweepSkipsZero(t: Tally, j: nat, v1: real, prices: seq<real>, first: bool, m: nat)
    requires Shaped(t, |prices|) && PositivePrices(prices) && j <= |prices| && m < |prices|
    requires t.share[m] == 0.0
    ensures Sweep(t, j, v1, prices, first).share[m] == 0.0
    ensures Sweep(t, j, v1, prices, first).sold[m] == t.sold[m]
  {
    if j > 0 {
      SweepSkipsZero(t, j - 1, v1, prices, first, m);
    }
  }

  /** Rounds after the first leave the unsatisfied demand alone. */
  lemma {:induction false} RunKeepsUnfilled(t: Tally, i: nat, fuel: nat, prices: seq<real>)
    requires Shaped(t, |prices|) && PositivePrices(prices) && i >= 1
    ensures Run(t, i, fuel, prices).unfilled == t.unfilled
    decreases fuel
  {
    if fuel > 0 && t.residual > Tolerance {
      LaterSweep(t.(kept := 0.0), |prices|, t.residual, prices);
      var s := Round(t, i, prices);
      if s.kept > 0.0 {
        RunKeepsUnfilled(Renormalised(s), i + 1, fuel - 1, prices);
      }
    }
  }

  /** A firm whose share has dropped to zero stays out: its share stays
      zero and it sells nothing more. */
  lemma {:induction false} RunKeepsZero(t: Tally, i: nat, fuel: nat, prices: seq<real>, m: nat)
    requires Shaped(t, |prices|) && PositivePrices(prices) && m < |prices| && t.share[m] == 0.0
    ensures Run(t, i, fuel, prices).share[m] == 0.0
    ensures Run(t, i, fuel, prices).sold[m] == t.sold[m]
    decreases fuel
  {
    if fuel > 0 && t.residual > Tolerance {
      SweepSkipsZero(t.(kept := 0.0), |prices|, t.residual, prices, i == 0, m);
      var s := Round(t, i, prices);
      if s.kept > 0.0 {
        assert Renormalised(s).share[m] == 0.0;
        RunKeepsZero(Renormalised(s), i + 1, fuel - 1, prices, m);
      }
    }
  }

  // The properties of the outcome.

  lemma OutcomeAccounted(demand: real, shares: seq<real>, prices: seq<real>, supplies: seq<real>)
    requires |shares| == |prices| == |supplies| && PositivePrices(prices)
    ensures Accounted(Outcome(demand, shares, prices, supplies), demand, shares, prices, supplies)
  {
    StartAccounted(demand, shares, prices, supplies);
    RunAccounted(Start(demand, shares, supplies), 0, |shares| + 1, prices, demand, shares, supplies);
  }

  /** No firm sells a negative quantity or more than its starting supply,
      and what it has left is what it started with less what it sold; a
      firm without a positive supply sells nothing; the result is the sum
      of the sales. */
  lemma SupplyBound(demand: real, shares: seq<real>, prices: seq<real>, supplies: seq<real>)
    requires |shares| == |prices| == |supplies| && PositivePrices(prices)
    ensures var o := Outcome(demand, shares, prices, supplies);
      && (forall m :: 0 <= m < |shares| ==>
            && 0.0 <= o.sold[m]
            && o.sold[m] + o.left[m] == supplies[m]
            && (supplies[m] > 0.0 ==> o.sold[m] <= supplies[m] && o.left[m] >= 0.0)
            && (supplies[m] <= 0.0 ==> o.sold[m] == 0.0))
      && o.total == Sum(o.sold)
  {
    var o := Outcome(demand, shares, prices, supplies);
    OutcomeAccounted(demand, shares, prices, supplies);
    forall m | 0 <= m < |shares|
      ensures 0.0 <= o.sold[m] && o.sold[m] + o.left[m] == supplies[m]
      ensures supplies[m] > 0.0 ==> o.sold[m] <= supplies[m] && o.left[m] >= 0.0
      ensures supplies[m] <= 0.0 ==> o.sold[m] == 0.0
    {
      assert FirmAccounted(o, m, shares, supplies);
    }
  }

  /** A firm whose entry share is not positive is never served. */
  lemma UnsharedUnserved(demand: real, shares: seq<real>, prices: seq<real>, supplies: seq<real>, m: nat)
    requires |shares| == |prices| == |supplies| && PositivePrices(prices)
    requires m < |shares| && shares[m] <= 0.0
    ensures Outcome(demand, shares, prices, supplies).sold[m] == 0.0
  {
    OutcomeAccounted(demand, shares, prices, supplies);
    assert FirmAccounted(Outcome(demand, shares, prices, supplies), m, shares, supplies);
  }

  /** What is sold is paid for out of the demand: the value of the sales
      plus the residual is the demand; and the residual is never negative
      when the demand is not and the entry shares' positive part adds up to
      at most one. */
  lemma MoneyConserved(demand: real, shares: seq<real>, prices: seq<real>, supplies: seq<real>)
    requires |shares| == |prices| == |supplies| && PositivePrices(prices)
    ensures var o := Outcome(demand, shares, prices, supplies);
      && Spent(o.sold, prices, |prices|) + o.residual == demand
      && (demand >= 0.0 && PositiveTotal(shares, |shares|) <= 1.0 ==> o.residual >= 0.0)
  {
    OutcomeAccounted(demand, shares, prices, supplies);
    if demand >= 0.0 && PositiveTotal(shares, |shares|) <= 1.0 {
      RunResidual(Start(demand, shares, supplies), 0, |shares| + 1, prices);
    }
  }

  /** With demand within the tolerance no round runs: nothing is sold, no
      demand goes unsatisfied, and the result is zero. */
  lemma NoDemand(demand: real, shares: seq<real>, prices: seq<real>, supplies: seq<real>)
    requires |shares| == |prices| == |supplies| && PositivePrices(prices)
    requires demand <= Tolerance
    ensures var o := Outcome(demand, shares, prices, supplies);
      o.sold == Zeros(|shares|) && o.unfilled == Zeros(|shares|) && o.total == 0.0
  {
  }

  /** The unsatisfied demand is the first round's shortfall when a round
      runs, and zero otherwise: later rounds never write it. */
  lemma UnfilledFirstRound(demand: real, shares: seq<real>, prices: seq<real>, supplies: seq<real>)
    requires |shares| == |prices| == |supplies| && PositivePrices(prices)
    ensures Outcome(demand, shares, prices, supplies).unfilled ==
            if demand > Tolerance then Shortfall(demand, shares, prices, supplies) else Zeros(|shares|)
  {
    var n := |shares|;
    var t := Start(demand, shares, supplies);
    if demand > Tolerance {
      FirstSweep(t.(kept := 0.0), n, demand, prices);
      var s := Round(t, 0, prices);
      assert s.unfilled == Shortfall(demand, shares, prices, supplies);
      if s.kept > 0.0 {
        RunKeepsUnfilled(Renormalised(s), 1, n, prices);
      }
    }
  }

  /** A firm with a positive entry share but no supply drops out in the
      first round and ends with a zero share, having sold nothing. */
  lemma DryFirmDropsOut(demand: real, shares: seq<real>, prices: seq<real>, supplies: seq<real>, m: nat)
    requires |shares| == |prices| == |supplies| && PositivePrices(prices)
    requires demand > Tolerance && m < |shares| && shares[m] > 0.0 && supplies[m] <= 0.0
    ensures Outcome(demand, shares, prices, supplies).share[m] == 0.0
    ensures Outcome(demand, shares, prices, supplies).sold[m] == 0.0
  {
    var n := |shares|;
    var t := Start(demand, shares, supplies);
    FirstSweep(t.(kept := 0.0), n, demand, prices);
    SupplyBound(demand, shares, prices, supplies);
    var s := Round(t, 0, prices);
    if s.kept > 0.0 {
      assert Renormalised(s).share[m] == 0.0;
      RunKeepsZero(Renormalised(s), 1, n, prices, m);
    }
  }

  /** Three firms with shares 0.5, 0.3 and 0.2, supplies 100, 50 and 10,
      unit prices and a demand of 90: the third firm runs out in the first
      round with 8 units unsatisfied; the second round spreads the 8 left
      over the other two in proportion 5 to 3; they sell 50, 30 and 10. */
  lemma WorkedExample()
    ensures var o := Outcome(90.0, [0.5, 0.3, 0.2], [1.0, 1.0, 1.0], [100.0, 50.0, 10.0]);
      o.sold == [50.0, 30.0, 10.0] && o.unfilled == [0.0, 0.0, 8.0] && o.total == 90.0
  {
    var prices := [1.0, 1.0, 1.0];
    var t := Start(90.0, [0.5, 0.3, 0.2], [100.0, 50.0, 10.0]);
    var r0 := Tally([0.5, 0.3, 0.0], [55.0, 23.0, 0.0], [45.0, 27.0, 10.0], [0.0, 0.0, 8.0], 8.0, 0.8, 82.0);
    var u0 := r0.(share := [0.625, 0.375, 0.0]);
    var r1 := Tally([0.625, 0.375, 0.0], [50.0, 20.0, 0.0], [50.0, 30.0, 10.0], [0.0, 0.0, 8.0], 0.0, 1.0, 90.0);
    ExampleFirstRound();
    assert Renormalised(r0) == u0;
    ExampleSecondRound();
    assert Run(r1, 2, 2, prices) == r1;
    assert Run(u0, 1, 3, prices) == r1;
    assert Run(t, 0, 4, prices) == r1;
  }

  /** The example's first round: the first two firms serve in full, the
      third runs out with 8 units unsatisfied, and 8 units of demand are
      left for the next round. */
  lemma ExampleFirstRound()
    ensures Round(Start(90.0, [0.5, 0.3, 0.2], [100.0, 50.0, 10.0]), 0, [1.0, 1.0, 1.0]) ==
            Tally([0.5, 0.3, 0.0], [55.0, 23.0, 0.0], [45.0, 27.0, 10.0], [0.0, 0.0, 8.0], 8.0, 0.8, 82.0)
  {
    var prices := [1.0, 1.0, 1.0];
    var t0 := Start(90.0, [0.5, 0.3, 0.2], [100.0, 50.0, 10.0]).(kept := 0.0);
    assert Sweep(t0, 1, 90.0, prices, true) ==
      Tally([0.5, 0.3, 0.2], [55.0, 50.0, 10.0], [45.0, 0.0, 0.0], [0.0, 0.0, 0.0], 45.0, 0.5, 45.0);
    assert Sweep(t0, 2, 90.0, prices, true) ==
      Tally([0.5, 0.3, 0.2], [55.0, 23.0, 10.0], [45.0, 27.0, 0.0], [0.0, 0.0, 0.0], 18.0, 0.8, 72.0);
  }

  /** The example's second round: the 8 units left go to the first two
      firms in proportion 5 to 3, and both serve in full. */
  lemma ExampleSecondRound()
    ensures Round(Tally([0.625, 0.375, 0.0], [55.0, 23.0, 0.0], [45.0, 27.0, 10.0], [0.0, 0.0, 8.0], 8.0, 0.8, 82.0),
                  1, [1.0, 1.0, 1.0]) ==
            Tally([0.625, 0.375, 0.0], [50.0, 20.0, 0.0], [50.0, 30.0, 10.0], [0.0, 0.0, 8.0], 0.0, 1.0, 90.0)
  {
    var prices := [1.0, 1.0, 1.0];
    var u1 := Tally([0.625, 0.375, 0.0], [55.0, 23.0, 0.0], [45.0, 27.0, 10.0], [0.0, 0.0, 8.0], 8.0, 0.0, 82.0);
    assert Sweep(u1, 1, 8.0, prices, false) ==
      Tally([0.625, 0.375, 0.0], [50.0, 23.0, 0.0], [50.0, 27.0, 10.0], [0.0, 0.0, 8.0], 3.0, 0.625, 87.0);
    assert Sweep(u1, 2, 8.0, prices, false) ==
      Tally([0.625, 0.375, 0.0], [50.0, 20.0, 0.0], [50.0, 30.0, 10.0], [0.0, 0.0, 8.0], 0.0, 1.0, 90.0);
  }

  /** Demand can go unallocated although the firms together could supply
      it: with shares 1 and 0, supplies 0 and 100, unit prices and a demand
      of 50, the only firm with a share has nothing to sell, drops out and
      leaves no share to renormalise, so the loop stops with the whole
      demand unallocated while the second firm sells nothing. */
  lemma StrandedDemand()
    ensures var o := Outcome(50.0, [1.0, 0.0], [1.0, 1.0], [0.0, 100.0]);
      o.residual == 50.0 && o.sold == [0.0, 0.0] && o.left == [0.0, 100.0]
  {
    var t0 := Start(50.0, [1.0, 0.0], [0.0, 100.0]).(kept := 0.0);
    assert Sweep(t0, 1, 50.0, [1.0, 1.0], true) ==
      Tally([0.0, 0.0], [0.0, 100.0], [0.0, 0.0], [0.0, 0.0], 50.0, 0.0, 0.0);
  }

  /** One pass of the rationing loop, on values: with the residual above
      the tolerance and the rounds left within the fuel, the round either
      keeps a share, and the loop goes on from its renormalised tally with
      one round fewer and a smaller measure, or keeps none and is the
      outcome. */
  lemma LoopStep(cur: Tally, i: nat, k: nat, prices: seq<real>, goal: Tally)
    requires Shaped(cur, k) && |prices| == k && PositivePrices(prices)
    requires cur.residual > Tolerance && i <= k + 1
    requires Run(cur, i, k + 1 - i, prices) == goal
    requires i >= 1 ==> PositiveTotal(cur.share, k) == 1.0
    requires Measure(cur, i) <= k + 2 - i
    ensures var s := Round(cur, i, prices);
      && (s.kept > 0.0 ==>
            && i + 1 <= k + 1
            && Run(Renormalised(s), i + 1, k - i, prices) == goal
            && PositiveTotal(Renormalised(s).share, k) == 1.0
            && Measure(Renormalised(s), i + 1) < Measure(cur, i))
      && (s.kept <= 0.0 ==> s == goal)
  {
    if i >= 1 {
      WholeHasPositive(cur.share);
    }
    RoundStep(cur, i, prices);
  }

  /** Firm `j`'s turn in place, as `Visit` describes: updates the firm's
      working share, supply left, sales and unsatisfied demand, and returns
      the new residual (`v[2]`), share kept (`v[3]`) and total (`v[0]`). */
  method VisitInPlace(f2: array<real>, sup2: array<real>, d2: array<real>, l2: array<real>, j: nat,
                      v1: real, v2: real, v3: real, v0: real, prices: seq<real>, first: bool)
    returns (v2': real, v3': real, v0': real)
    requires f2.Length == sup2.Length == d2.Length == l2.Length == |prices| && PositivePrices(prices)
    requires f2 != sup2 && f2 != d2 && f2 != l2 && sup2 != d2 && sup2 != l2 && d2 != l2
    requires j < |prices|
    modifies f2, sup2, d2, l2
    ensures Tally(f2[..], sup2[..], d2[..], l2[..], v2', v3', v0') ==
            Visit(Tally(old(f2[..]), old(sup2[..]), old(d2[..]), old(l2[..]), v2, v3, v0), j, v1, prices, first)
  {
    ghost var t := Tally(f2[..], sup2[..], d2[..], l2[..], v2, v3, v0);
    v2', v3', v0' := v2, v3, v0;
    if f2[j] > 0.0 {
      if sup2[j] > 0.0 {
        var v4 := v1 * f2[j];
        var v5 := v4 / prices[j];
        if v5 <= sup2[j] {
          d2[j] := d2[j] + v5;
          v0' := v0' + v5;
          v2' := v2' - v4;
          v3' := v3' + f2[j];
          sup2[j] := sup2[j] - v5;
          assert d2[..] == t.sold[j := t.sold[j] + v5];
          assert sup2[..] == t.left[j := t.left[j] - v5];
        } else {
          if first {
            l2[j] := v5 - sup2[j];
          }
          assert l2[..] == if first then t.unfilled[j := v5 - t.left[j]] else t.unfilled;
          d2[j] := d2[j] + sup2[j];
          v0' := v0' + sup2[j];
          v2' := v2' - sup2[j] * prices[j];
          f2[j] := 0.0;
          sup2[j] := 0.0;
          assert d2[..] == t.sold[j := t.sold[j] + t.left[j]];
          assert f2[..] == t.share[j := 0.0];
          assert sup2[..] == t.left[j := 0.0];
        }
      } else {
        f2[j] := 0.0;
        assert f2[..] == t.share[j := 0.0];
      }
    }
  }

  /** One round in place: every firm in turn, as `Sweep` describes, with
      allocatable demand `v1`. Returns the residual (`v[2]`), the share
      kept (`v[3]`) and the running total (`v[0]`). */
  method SweepInPlace(f2: array<real>, sup2: array<real>, d2: array<real>, l2: array<real>,
                      v1: real, v0: real, prices: seq<real>, first: bool)
    returns (v2: real, v3: real, total: real)
    requires f2.Length == sup2.Length == d2.Length == l2.Length == |prices| && PositivePrices(prices)
    requires f2 != sup2 && f2 != d2 && f2 != l2 && sup2 != d2 && sup2 != l2 && d2 != l2
    modifies f2, sup2, d2, l2
    ensures Tally(f2[..], sup2[..], d2[..], l2[..], v2, v3, total) ==
            Sweep(Tally(old(f2[..]), old(sup2[..]), old(d2[..]), old(l2[..]), v1, 0.0, v0), |prices|, v1, prices, first)
  {
    ghost var start := Tally(f2[..], sup2[..], d2[..], l2[..], v1, 0.0, v0);
    v2, v3, total := v1, 0.0, v0;
    var j := 0;
    while j < |prices|
      invariant 0 <= j <= |prices|
      invariant Sweep(start, j, v1, prices, first) == Tally(f2[..], sup2[..], d2[..], l2[..], v2, v3, total)
    {
      v2, v3, total := VisitInPlace(f2, sup2, d2, l2, j, v1, v2, v3, total, prices, first);
      j := j + 1;
    }
  }

  /** Divides every working share by the share kept, in place. */
  method RenormaliseInPlace(f2: array<real>, v3: real)
    requires v3 > 0.0
    modifies f2
    ensures f2[..] == Scaled(old(f2[..]), v3)
  {
    var j := 0;
    while j < f2.Length
      invariant 0 <= j <= f2.Length
      invariant forall m :: 0 <= m < j ==> f2[m] == old(f2[m]) / v3
      invariant forall m :: j <= m < f2.Length ==> f2[m] == old(f2[m])
    {
      f2[j] := f2[j] / v3;
      j := j + 1;
    }
  }

  /** Round `i` in place: every firm's turn, then, when some share was
      kept, the renormalisation of the working shares. Returns the residual
      (`v[2]`), the share kept (`v[3]`) and the running total (`v[0]`). */
  method RoundInPlace(f2: array<real>, sup2: array<real>, d2: array<real>, l2: array<real>,
                      v1: real, v3: real, v0: real, prices: seq<real>, i: nat)
    returns (v2: real, v3': real, v0': real)
    requires f2.Length == sup2.Length == d2.Length == l2.Length == |prices| && PositivePrices(prices)
    requires f2 != sup2 && f2 != d2 && f2 != l2 && sup2 != d2 && sup2 != l2 && d2 != l2
    modifies f2, sup2, d2, l2
    ensures var s := Round(Tally(old(f2[..]), old(sup2[..]), old(d2[..]), old(l2[..]), v1, v3, v0), i, prices);
      && v3' == s.kept
      && Tally(f2[..], sup2[..], d2[..], l2[..], v2, v3', v0') == if s.kept > 0.0 then Renormalised(s) else s
  {
    v2, v3', v0' := SweepInPlace(f2, sup2, d2, l2, v1, v0, prices, i == 0);
    if v3' > 0.0 {
      ghost var swept := Tally(f2[..], sup2[..], d2[..], l2[..], v2, v3', v0');
      RenormaliseInPlace(f2, v3');
      assert Tally(f2[..], sup2[..], d2[..], l2[..], v2, v3', v0') == Renormalised(swept);
    }
  }

  /** The rationing loop itself, over working copies of the shares and the
      supplies (`f2`, `sup2`) and over the firms' sales and unsatisfied
      demand (`_D2`, `_l2`, reset to zero), all updated in place. Returns
      the sales, the unsatisfied demand and the total quantity sold, which
      are those of the rationing outcome. */
  method Ration(demand: real, shares: seq<real>, prices: seq<real>, supplies: seq<real>)
    returns (sold: seq<real>, unfilled: seq<real>, total: real)
    requires |shares| == |prices| == |supplies| && PositivePrices(prices)
    ensures var o := Outcome(demand, shares, prices, supplies);
      sold == o.sold && unfilled == o.unfilled && total == o.total
  {
    var k := |shares|;
    var f2 := new real[k](m requires 0 <= m < k => shares[m]);
    var sup2 := new real[k](m requires 0 <= m < k => supplies[m]);
    var d2 := new real[k](m => 0.0);
    var l2 := new real[k](m => 0.0);
    ghost var goal := Outcome(demand, shares, prices, supplies);
    var v1 := demand;
    var v0 := 0.0;
    var v3 := 0.0;
    var i := 0;
    ghost var state := Start(demand, shares, supplies);
    assert Tally(f2[..], sup2[..], d2[..], l2[..], v1, v3, v0) == state;
    PositiveCountBound(shares, k);
    while v1 > Tolerance
      invariant i <= k + 1
      invariant state == Tally(f2[..], sup2[..], d2[..], l2[..], v1, v3, v0)
      invariant Run(state, i, k + 1 - i, prices) == goal
      invariant i >= 1 ==> PositiveTotal(state.share, k) == 1.0
      invariant Measure(state, i) <= k + 2 - i
      decreases Measure(state, i)
    {
      ghost var cur := state;
      var v2;
      v2, v3, v0 := RoundInPlace(f2, sup2, d2, l2, v1, v3, v0, prices, i);
      LoopStep(cur, i, k, prices, goal);
      if v3 > 0.0 {
        state := Renormalised(Round(cur, i, prices));
      } else {
        state := Round(cur, i, prices);
        break;
      }
      v1 := v2;
      i := i + 1;
    }
    assert state == goal;
    sold := d2[..];
    unfilled := l2[..];
    total := v0;
  }
}
