/** A sector: its live firms in insertion order and the sector-level
    statistics the entry/exit equation writes. The share rescaler and the
    entry/exit sequence are the same for both sectors and live here. */
module Sectors {
  import opened Shares
  import opened Firms
  import opened Lifecycle

  /** `count` firms out of a population of `n`, as a fraction. */
  function Fraction(count: nat, n: nat): (r: real)
    requires n > 0
  {
    (count as real) / (n as real)
  }

  /** The firms created by the entrant policy: `newcomer(i)` is the i-th. */
  function Entrants<S>(newcomer: nat -> Firm<S>, n: nat): (r: seq<Firm<S>>)
    ensures |r| == n
    ensures forall i :: 0 <= i < n ==> r[i] == newcomer(i)
  {
    seq(n, i requires 0 <= i < n => newcomer(i))
  }

  class Sector<S> {
    /** The live firms, in the order the framework iterates over them. */
    var firms: seq<Firm<S>>
    /** Cost (new equity) of firm entries this period. */
    var cEntry: real
    /** Fraction of the population that exited insolvent this period. */
    var exitFail: real

    constructor (population: seq<Firm<S>>)
      ensures firms == population && cEntry == 0.0 && exitFail == 0.0
    {
      firms := population;
      cEntry := 0.0;
      exitFail := 0.0;
    }

    /** The share rescaler (`f1rescale`, `f2rescale`): adds up the shares;
        leaves them alone when the total rounds to one; otherwise divides
        every share by a positive total, or gives every firm 1/N when the
        total is not positive. Returns the sum of the shares it leaves. */
    method Rescale() returns (total: real)
      modifies this
      ensures firms == RescaledFirms(old(firms))
      ensures total == Sum(SharesOf(firms))
      ensures cEntry == old(cEntry) && exitFail == old(exitFail)
    {
      ghost var before := firms;
      ghost var shares := Rescaled(SharesOf(before));
      var sum := Sum(SharesOf(firms));
      if NearOne(sum) {
        assert Reshared(before, SharesOf(before)) == before;
        return sum;
      }
      var n := |firms|;
      // the fair share; never used when there are no firms
      var fair := if n > 0 then 1.0 / (n as real) else 0.0;
      total := 0.0;
      var j := 0;
      while j < n
        invariant 0 <= j <= n == |firms| == |before| == |shares|
        invariant forall i :: 0 <= i < j ==> firms[i] == before[i].(share := shares[i])
        invariant forall i :: j <= i < n ==> firms[i] == before[i]
        invariant total == Sum(shares[..j])
        invariant cEntry == old(cEntry) && exitFail == old(exitFail)
      {
        var share := if sum > 0.0 then firms[j].share / sum else fair;
        assert share == shares[j];
        firms := firms[j := firms[j].(share := share)];
        SumPrefix(shares, j);
        total := total + share;
        j := j + 1;
      }
      assert firms == RescaledFirms(before);
      RescaledFirmsFacts(before);
      assert shares[..n] == shares;
    }

    /** The exit half of the entry/exit sequence: mark the candidates, let
        them leave (keeping back and recapitalising the best one when all are
        candidates) and rescale the shares of the firms that remain. Returns
        the number of exits, of insolvent exits, the equity injected and, as
        a ghost, the index of the best candidate. */
    method Exit(standings: seq<Standing>, floor: real)
      returns (exits: nat, bankrupt: nat, injected: real, ghost k: nat)
      requires |standings| == |firms| >= 1
      modifies this
      ensures ExitOutcome(old(firms), standings, floor, k, firms, exits, bankrupt, injected)
      ensures cEntry == old(cEntry) && exitFail == old(exitFail)
    {
      var quit, h, best := Mark(firms, standings);
      k := best;
      var survivors;
      survivors, exits, bankrupt, injected := Resolve(firms, quit, h, best, floor);
      KeptSize(firms, quit, h, k, floor, |firms|);
      firms := survivors;
      var _ := Rescale();
    }

    /** The entry/exit sequence, after the sector has turned every firm into a
        `Standing`: the exit half, then as many entrants as there were exits,
        the equity injected as the entry cost, the insolvent-exit rate, and a
        second rescale. Returns the exit rate and, as a ghost, the index of
        the best candidate. */
    method EntryExit(standings: seq<Standing>, floor: real, newcomer: nat -> Firm<S>)
      returns (rate: real, ghost k: nat)
      requires |standings| == |firms| >= 1
      modifies this
      ensures EntryExitOutcome(old(firms), standings, floor, newcomer, k, firms, cEntry, exitFail, rate)
    {
      var population := |firms|;
      cEntry := 0.0;
      var exits, bankrupt, injected;
      exits, bankrupt, injected, k := Exit(standings, floor);
      var joined := firms + Entrants(newcomer, exits);
      firms := joined;
      cEntry := cEntry + injected;
      exitFail := Fraction(bankrupt, population);
      var _ := Rescale();
      rate := Fraction(exits, population);
    }
  }

  /** What the exit half leaves behind, given the population `before` and the
      best candidate `k`: the firms that remain, rescaled, and the counts of
      exits and insolvent exits and the equity injected. */
  ghost predicate ExitOutcome<S>(before: seq<Firm<S>>, standings: seq<Standing>, floor: real, k: nat,
                                 after: seq<Firm<S>>, exits: nat, bankrupt: nat, injected: real)
    requires |standings| == |before|
  {
    var quit := Marks(before, standings);
    var n := |before|;
    var h := n - CountTrue(quit, n);
    && IsBest(quit, StatsOf(standings), k)
    && after == RescaledFirms(Kept(before, quit, h, k, floor, n))
    && exits == Departures(quit, h, k, n)
    && |after| + exits == n
    && bankrupt == Failures(before, quit, h, k, n)
    && injected == Injected(before, quit, h, k, floor, n)
  }

  /** What one run of the entry/exit sequence leaves behind, given the
      population `before` and the best candidate `k`: the firms that remain,
      rescaled, followed by one entrant per exit, rescaled again; a closed
      population size; the injected equity as the entry cost; the insolvent
      exits and all exits as fractions of the population. */
  ghost predicate EntryExitOutcome<S>(before: seq<Firm<S>>, standings: seq<Standing>, floor: real,
                                      newcomer: nat -> Firm<S>, k: nat, after: seq<Firm<S>>,
                                      cEntry: real, exitFail: real, rate: real)
    requires |standings| == |before| >= 1
  {
    var quit := Marks(before, standings);
    var n := |before|;
    var h := n - CountTrue(quit, n);
    var gone := Departures(quit, h, k, n);
    && IsBest(quit, StatsOf(standings), k)
    && after == RescaledFirms(RescaledFirms(Kept(before, quit, h, k, floor, n)) + Entrants(newcomer, gone))
    && |after| == n
    && cEntry == Injected(before, quit, h, k, floor, n)
    && exitFail == Fraction(Failures(before, quit, h, k, n), n)
    && rate == Fraction(gone, n)
  }
}
