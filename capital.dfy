/** The capital-goods sector: the firm's own state and its entry/exit
    equation (`entry1exit`); the share rescaler (`f1rescale`) is the
    sector's `Rescale`. */
module Capital {
  import opened Firms
  import opened Lifecycle
  import opened Sectors

  /** What a capital-goods firm carries besides the common firm state: the
      period it entered the market and its number of customers in the
      current and past periods (most recent first). */
  datatype CapitalGoods = CapitalGoods(entry: int, customers: seq<real>)

  type Firm1 = Firm<CapitalGoods>

  /** The customers over the `j` most recent periods, added up. */
  function Customers(f: Firm1, j: nat): (r: real)
    requires j <= |f.own.customers|
  {
    if j == 0 then 0.0 else Customers(f, j - 1) + f.own.customers[j - 1]
  }

  /** Every firm has stored the customers of the `n1` periods of the window. */
  predicate Windowed(fs: seq<Firm1>, n1: nat)
  {
    forall i :: 0 <= i < |fs| ==> n1 <= |fs[i].own.customers|
  }

  /** A firm is an incumbent at time `t` once `n1` periods have passed since
      it entered. */
  predicate Incumbent(f: Firm1, t: int, n1: nat)
  {
    t >= f.own.entry + n1
  }

  /** The sector's view of a firm at time `t`: an incumbent after the
      window has passed since its entry; the customers over the window;
      unviable when it had none. The customers are only counted for firms
      that are insolvent or incumbent; the others cannot be candidates. */
  function Standing1(f: Firm1, t: int, n1: nat): (r: Standing)
    requires n1 <= |f.own.customers|
  {
    if f.nw < 0.0 || Incumbent(f, t, n1) then
      var c := Customers(f, n1);
      Standing(Incumbent(f, t, n1), c, c <= 0.0)
    else
      Standing(false, 0.0, false)
  }

  function Standings1Of(fs: seq<Firm1>, t: int, n1: nat): (r: seq<Standing>)
    requires Windowed(fs, n1)
    ensures |r| == |fs|
    ensures forall i :: 0 <= i < |fs| ==> r[i] == Standing1(fs[i], t, n1)
  {
    seq(|fs|, i requires 0 <= i < |fs| => Standing1(fs[i], t, n1))
  }

  /** The counting half of the marking pass: one standing per firm. */
  method Standings1(fs: seq<Firm1>, t: int, n1: nat) returns (sts: seq<Standing>)
    requires Windowed(fs, n1)
    ensures sts == Standings1Of(fs, t, n1)
  {
    sts := [];
    var i := 0;
    while i < |fs|
      invariant i <= |fs| && |sts| == i
      invariant forall m :: 0 <= m < i ==> sts[m] == Standing1(fs[m], t, n1)
    {
      var f := fs[i];
      var st := Standing(false, 0.0, false);
      if f.nw < 0.0 || t >= f.own.entry + n1 {
        var c := 0.0;
        var j := 0;
        while j < n1
          invariant j <= n1 && c == Customers(f, j)
        {
          c := c + f.own.customers[j];
          j := j + 1;
        }
        st := Standing(t >= f.own.entry + n1, c, c <= 0.0);
      }
      sts := sts + [st];
      i := i + 1;
    }
  }

  /** A window without customers in any period adds up to none; one with
      customers in no period fewer than none and more in some adds up to
      some. */
  lemma {:induction false} CustomerBounds(f: Firm1, j: nat)
    requires j <= |f.own.customers|
    ensures (forall m :: 0 <= m < j ==> f.own.customers[m] <= 0.0) ==> Customers(f, j) <= 0.0
    ensures (forall m :: 0 <= m < j ==> f.own.customers[m] >= 0.0) ==> Customers(f, j) >= 0.0
    ensures ((forall m :: 0 <= m < j ==> f.own.customers[m] >= 0.0) &&
             (exists m :: 0 <= m < j && f.own.customers[m] > 0.0)) ==> Customers(f, j) > 0.0
  {
    if j > 0 {
      CustomerBounds(f, j - 1);
      if (forall m :: 0 <= m < j ==> f.own.customers[m] >= 0.0) && f.own.customers[j - 1] <= 0.0 {
        assert forall m :: 0 <= m < j - 1 ==> f.own.customers[m] >= 0.0;
      }
    }
  }

  /** The exit rule of the sector: a firm is a candidate exactly when it
      is insolvent, or it is an incumbent without customers over the
      window. An entrant younger than the window that is solvent never is. */
  lemma ExitRule(f: Firm1, t: int, n1: nat)
    requires n1 <= |f.own.customers|
    ensures IsCandidate(f, Standing1(f, t, n1)) <==>
            f.nw < 0.0 || (Incumbent(f, t, n1) && Customers(f, n1) <= 0.0)
    ensures f.nw >= 0.0 && t < f.own.entry + n1 ==> !IsCandidate(f, Standing1(f, t, n1))
  {
  }

  /** An incumbent that had no customer in any period of the window is
      unviable; one that never lost customers below none and had some in
      one period is viable. */
  lemma WindowViability(f: Firm1, t: int, n1: nat)
    requires n1 <= |f.own.customers| && Incumbent(f, t, n1)
    ensures (forall m :: 0 <= m < n1 ==> f.own.customers[m] <= 0.0) ==> Standing1(f, t, n1).unviable
    ensures ((forall m :: 0 <= m < n1 ==> f.own.customers[m] >= 0.0) &&
             (exists m :: 0 <= m < n1 && f.own.customers[m] > 0.0)) ==> !Standing1(f, t, n1).unviable
  {
    CustomerBounds(f, n1);
  }

  /** `entry1exit`: every firm's standing at time `t` over the window of
      `n1` periods, then the shared entry/exit sequence with `floor` as the
      minimum net wealth of a kept-back firm and `newcomer` as the entrant
      policy. Returns the exit rate and, as a ghost, the index of the best
      candidate. */
  method Entry1Exit(s: Sector<CapitalGoods>, t: int, n1: nat, floor: real, newcomer: nat -> Firm1)
    returns (rate: real, ghost k: nat)
    requires |s.firms| >= 1 && Windowed(s.firms, n1)
    modifies s
    ensures EntryExitOutcome(old(s.firms), Standings1Of(old(s.firms), t, n1), floor, newcomer, k,
                             s.firms, s.cEntry, s.exitFail, rate)
  {
    var sts := Standings1(s.firms, t, n1);
    rate, k := s.EntryExit(sts, floor, newcomer);
  }
}
