/** The entry/exit engine that both sectors share. A sector turns each firm
    into a `Standing` (its own incumbency test, trailing statistic and
    viability threshold); the engine marks the exit candidates, picks the
    best of them, decides who leaves and recapitalises the one firm that is
    kept back when every firm is a candidate. */
module Lifecycle {
  import opened Firms

  /** What the sector's own rules say about one firm: whether it is an
      incumbent, its trailing statistic over the participation window, and
      whether that statistic is below the sector's viability threshold. */
  datatype Standing = Standing(incumbent: bool, stat: real, unviable: bool)

  /** A firm must consider leaving when it is insolvent, or when it is an
      incumbent whose trailing statistic is unviable. */
  predicate IsCandidate<S>(f: Firm<S>, st: Standing)
  {
    f.nw < 0.0 || (st.incumbent && st.unviable)
  }

  /** The `quit` vector: one mark per firm, in population order. */
  function Marks<S>(firms: seq<Firm<S>>, sts: seq<Standing>): (q: seq<bool>)
    requires |sts| == |firms|
    ensures |q| == |firms|
    ensures forall i :: 0 <= i < |firms| ==> q[i] == IsCandidate(firms[i], sts[i])
  {
    seq(|firms|, i requires 0 <= i < |firms| => IsCandidate(firms[i], sts[i]))
  }

  function StatsOf(sts: seq<Standing>): (r: seq<real>)
    ensures |r| == |sts|
    ensures forall i :: 0 <= i < |sts| ==> r[i] == sts[i].stat
  {
    seq(|sts|, i requires 0 <= i < |sts| => sts[i].stat)
  }

  /** Number of marked entries among the first `n`. */
  function CountTrue(q: seq<bool>, n: nat): (r: nat)
    requires n <= |q|
  {
    if n == 0 then 0 else CountTrue(q, n - 1) + (if q[n - 1] then 1 else 0)
  }

  /** Some candidate among the first `n` has a positive statistic. */
  ghost predicate HasPositive(quit: seq<bool>, stats: seq<real>, n: nat)
    requires n <= |stats| == |quit|
  {
    exists i :: 0 <= i < n && quit[i] && stats[i] > 0.0
  }

  /** `k` is the best of the first `n` firms: the first candidate among them
      with the strictly largest positive statistic, or firm 0 when none of
      their candidates has a positive one. */
  ghost predicate IsBestAmong(quit: seq<bool>, stats: seq<real>, n: nat, k: nat)
    requires n <= |stats| == |quit|
  {
    if HasPositive(quit, stats, n) then
      && k < n && quit[k]
      && (forall i :: 0 <= i < n && quit[i] ==> stats[i] <= stats[k])
      && (forall i :: 0 <= i < k && quit[i] ==> stats[i] < stats[k])
    else
      k == 0
  }

  /** `k` is the firm the engine keeps back: the best of all firms. */
  ghost predicate IsBest(quit: seq<bool>, stats: seq<real>, k: nat)
    requires |stats| == |quit|
  {
    IsBestAmong(quit, stats, |quit|, k)
  }

  /** One more firm for the best-candidate scan: it takes over, with its
      statistic as the best so far, exactly when it is a candidate whose
      statistic beats the best so far, which starts at zero. */
  lemma BestStep(quit: seq<bool>, stats: seq<real>, i: nat, k: nat, best: real)
    requires i < |stats| == |quit|
    requires IsBestAmong(quit, stats, i, k)
    requires best == if HasPositive(quit, stats, i) then stats[k] else 0.0
    ensures var better := quit[i] && stats[i] > best;
      var k' := if better then i else k;
      && IsBestAmong(quit, stats, i + 1, k')
      && (if better then stats[i] else best) == (if HasPositive(quit, stats, i + 1) then stats[k'] else 0.0)
  {
    if quit[i] && stats[i] > 0.0 {
      assert HasPositive(quit, stats, i + 1);
    }
    if HasPositive(quit, stats, i + 1) && !(quit[i] && stats[i] > 0.0) {
      var w :| 0 <= w < i + 1 && quit[w] && stats[w] > 0.0;
      assert HasPositive(quit, stats, i);
    }
  }

  /** Firm `i` leaves: it is a candidate and either some non-candidate
      survives or it is not the firm kept back. */
  predicate Leaves(quit: seq<bool>, h: int, k: nat, i: nat)
    requires i < |quit|
  {
    quit[i] && (h > 0 || i != k)
  }

  /** Firm `i` is the candidate kept back because every firm is a candidate. */
  predicate Spared(quit: seq<bool>, h: int, k: nat, i: nat)
    requires i < |quit|
  {
    quit[i] && h == 0 && i == k
  }

  /** New equity that brings the firm's net wealth to `floor` plus its debt. */
  function Injection<S>(f: Firm<S>, floor: real): (r: real)
  {
    floor + f.deb - f.nw
  }

  /** The kept-back firm after forced recapitalisation: debt cleared, and
      equity and net wealth raised by the same injection, which leaves its net
      wealth at the minimum wealth plus the debt it had. */
  function Recapitalised<S>(f: Firm<S>, floor: real): (r: Firm<S>)
    ensures r.deb == 0.0
    ensures r.nw == floor + f.deb
    ensures r.eq - f.eq == r.nw - f.nw == Injection(f, floor)
    ensures r.share == f.share && r.own == f.own
  {
    var injection := Injection(f, floor);
    f.(deb := 0.0, eq := f.eq + injection, nw := f.nw + injection)
  }

  /** The firms among the first `n` that remain, in order, after the exits. */
  function Kept<S>(firms: seq<Firm<S>>, quit: seq<bool>, h: int, k: nat, floor: real, n: nat): (r: seq<Firm<S>>)
    requires |quit| == |firms| && n <= |firms|
  {
    if n == 0 then []
    else
      var rest := Kept(firms, quit, h, k, floor, n - 1);
      if Leaves(quit, h, k, n - 1) then rest
      else if Spared(quit, h, k, n - 1) then rest + [Recapitalised(firms[n - 1], floor)]
      else rest + [firms[n - 1]]
  }

  /** Number of exits among the first `n` firms. */
  function Departures(quit: seq<bool>, h: int, k: nat, n: nat): (r: nat)
    requires n <= |quit|
  {
    if n == 0 then 0 else Departures(quit, h, k, n - 1) + (if Leaves(quit, h, k, n - 1) then 1 else 0)
  }

  /** Number of insolvent exits among the first `n` firms. */
  function Failures<S>(firms: seq<Firm<S>>, quit: seq<bool>, h: int, k: nat, n: nat): (r: nat)
    requires |quit| == |firms| && n <= |firms|
  {
    if n == 0 then 0
    else Failures(firms, quit, h, k, n - 1) + (if Leaves(quit, h, k, n - 1) && firms[n - 1].nw < 0.0 then 1 else 0)
  }

  /** Total new equity injected among the first `n` firms. */
  function Injected<S>(firms: seq<Firm<S>>, quit: seq<bool>, h: int, k: nat, floor: real, n: nat): (r: real)
    requires |quit| == |firms| && n <= |firms|
  {
    if k < n && Spared(quit, h, k, k) then Injection(firms[k], floor) else 0.0
  }

  /** The firms that are not candidates, in order. */
  function Unmarked<S>(firms: seq<Firm<S>>, quit: seq<bool>, n: nat): (r: seq<Firm<S>>)
    requires |quit| == |firms| && n <= |firms|
  {
    if n == 0 then []
    else Unmarked(firms, quit, n - 1) + (if quit[n - 1] then [] else [firms[n - 1]])
  }

  /** First pass of the source's entry/exit equation: mark the candidates,
      count the firms that are not candidates (`h`) and track the best
      candidate (`k`) with a strict comparison starting from zero. */
  method Mark<S>(firms: seq<Firm<S>>, sts: seq<Standing>) returns (quit: seq<bool>, h: int, k: nat)
    requires |sts| == |firms|
    ensures quit == Marks(firms, sts)
    ensures h == |firms| - CountTrue(quit, |quit|) && h >= 0
    ensures IsBest(quit, StatsOf(sts), k)
  {
    ghost var marks := Marks(firms, sts);
    ghost var stats := StatsOf(sts);
    quit := seq(|firms|, _ => false);
    h := |firms|;
    var best := 0.0;
    k := 0;
    var i := 0;
    while i < |firms|
      invariant 0 <= i <= |firms| == |quit|
      invariant forall j :: 0 <= j < i ==> quit[j] == marks[j]
      invariant forall j :: i <= j < |firms| ==> !quit[j]
      invariant h == |firms| - CountTrue(marks, i) && CountTrue(marks, i) <= i
      invariant IsBestAmong(marks, stats, i, k)
      invariant best == if HasPositive(marks, stats, i) then stats[k] else 0.0
    {
      BestStep(marks, stats, i, k, best);
      var f := firms[i];
      if f.nw < 0.0 || sts[i].incumbent {
        var v := sts[i].stat;
        if f.nw < 0.0 || sts[i].unviable {
          quit := quit[i := true];
          h := h - 1;
          if v > best {
            k := i;
            best := v;
          }
        }
      }
      i := i + 1;
    }
    assert quit == marks;
  }

  /** Second pass: every candidate leaves unless every firm is a candidate,
      in which case the best one stays and is recapitalised. Returns the
      remaining firms, the number of exits, the number of insolvent exits and
      the new equity injected. */
  method Resolve<S>(firms: seq<Firm<S>>, quit: seq<bool>, h: int, k: nat, floor: real)
    returns (survivors: seq<Firm<S>>, exits: nat, bankrupt: nat, injected: real)
    requires |quit| == |firms|
    ensures survivors == Kept(firms, quit, h, k, floor, |firms|)
    ensures exits == Departures(quit, h, k, |firms|)
    ensures bankrupt == Failures(firms, quit, h, k, |firms|)
    ensures injected == Injected(firms, quit, h, k, floor, |firms|)
  {
    survivors, exits, bankrupt, injected := [], 0, 0, 0.0;
    var i := 0;
    while i < |firms|
      invariant 0 <= i <= |firms|
      invariant survivors == Kept(firms, quit, h, k, floor, i)
      invariant exits == Departures(quit, h, k, i)
      invariant bankrupt == Failures(firms, quit, h, k, i)
      invariant injected == Injected(firms, quit, h, k, floor, i)
    {
      var f := firms[i];
      if quit[i] {
        if h > 0 || i != k {
          exits := exits + 1;
          if f.nw < 0.0 {
            bankrupt := bankrupt + 1;
          }
        } else if h == 0 && i == k {
          injected := injected + Injection(f, floor);
          survivors := survivors + [Recapitalised(f, floor)];
        } else {
          survivors := survivors + [f];
        }
      } else {
        survivors := survivors + [f];
      }
      i := i + 1;
    }
  }

  // ---------------------------------------------------------------------
  // Properties of the selection

  lemma {:induction false} CountTrueBounds(q: seq<bool>, n: nat)
    requires n <= |q|
    ensures CountTrue(q, n) <= n
    ensures CountTrue(q, n) == n <==> forall i :: 0 <= i < n ==> q[i]
  {
    if n > 0 {
      CountTrueBounds(q, n - 1);
    }
  }

  /** With at least one firm, the firm kept back is a real index; when every
      firm is a candidate it is one of them, so the sector is never emptied. */
  lemma BestInRange(quit: seq<bool>, stats: seq<real>, k: nat)
    requires |stats| == |quit| >= 1
    requires IsBest(quit, stats, k)
    ensures k < |quit|
    ensures (forall i :: 0 <= i < |quit| ==> quit[i]) ==> quit[k]
  {
  }

  /** The best candidate is unique: the first one with the largest statistic. */
  lemma BestUnique(quit: seq<bool>, stats: seq<real>, k1: nat, k2: nat)
    requires |stats| == |quit|
    requires IsBest(quit, stats, k1) && IsBest(quit, stats, k2)
    ensures k1 == k2
  {
  }

  /** Every firm is accounted for: it either remains or is counted as an exit. */
  lemma {:induction false} KeptSize<S>(firms: seq<Firm<S>>, quit: seq<bool>, h: int, k: nat, floor: real, n: nat)
    requires |quit| == |firms| && n <= |firms|
    ensures |Kept(firms, quit, h, k, floor, n)| + Departures(quit, h, k, n) == n
    ensures Failures(firms, quit, h, k, n) <= Departures(quit, h, k, n)
  {
    if n > 0 {
      KeptSize(firms, quit, h, k, floor, n - 1);
    }
  }

  /** When some firm is not a candidate (`h > 0`), exactly the candidates
      leave, nobody is recapitalised and the others remain unchanged, in order. */
  lemma {:induction false} CandidatesLeave<S>(firms: seq<Firm<S>>, quit: seq<bool>, h: int, k: nat, floor: real, n: nat)
    requires |quit| == |firms| && n <= |firms|
    requires h > 0
    ensures Kept(firms, quit, h, k, floor, n) == Unmarked(firms, quit, n)
    ensures Departures(quit, h, k, n) == CountTrue(quit, n)
    ensures Injected(firms, quit, h, k, floor, n) == 0.0
  {
    if n > 0 {
      CandidatesLeave(firms, quit, h, k, floor, n - 1);
    }
  }

  /** When every firm is a candidate (`h == 0`), all but firm `k` leave and
      firm `k` remains alone, recapitalised. */
  lemma {:induction false} AllButBestLeave<S>(firms: seq<Firm<S>>, quit: seq<bool>, k: nat, floor: real, n: nat)
    requires |quit| == |firms| && k < n <= |firms|
    requires forall i :: 0 <= i < |quit| ==> quit[i]
    ensures Kept(firms, quit, 0, k, floor, n) == [Recapitalised(firms[k], floor)]
    ensures Departures(quit, 0, k, n) == n - 1
    ensures Injected(firms, quit, 0, k, floor, n) == Injection(firms[k], floor)
  {
    if n - 1 > k {
      AllButBestLeave(firms, quit, k, floor, n - 1);
    } else {
      NoneKept(firms, quit, k, floor, n - 1);
    }
  }

  lemma {:induction false} NoneKept<S>(firms: seq<Firm<S>>, quit: seq<bool>, k: nat, floor: real, n: nat)
    requires |quit| == |firms| && n <= k && n <= |firms|
    requires forall i :: 0 <= i < |quit| ==> quit[i]
    ensures Kept(firms, quit, 0, k, floor, n) == []
    ensures Departures(quit, 0, k, n) == n
  {
    if n > 0 {
      NoneKept(firms, quit, k, floor, n - 1);
    }
  }

  /** The outcome of the two passes, stated for the population as a whole:
      the sector is never emptied, exits are exactly the candidates when some
      firm is not one and all but the best otherwise, and new equity is only
      injected in the second case. */
  lemma Selection<S>(firms: seq<Firm<S>>, sts: seq<Standing>, k: nat, floor: real)
    requires |sts| == |firms| >= 1
    requires IsBest(Marks(firms, sts), StatsOf(sts), k)
    ensures var quit := Marks(firms, sts);
      var h := |firms| - CountTrue(quit, |firms|);
      && |Kept(firms, quit, h, k, floor, |firms|)| >= 1
      && |Kept(firms, quit, h, k, floor, |firms|)| + Departures(quit, h, k, |firms|) == |firms|
      && (h > 0 ==>
            && Departures(quit, h, k, |firms|) == CountTrue(quit, |firms|)
            && Kept(firms, quit, h, k, floor, |firms|) == Unmarked(firms, quit, |firms|)
            && Injected(firms, quit, h, k, floor, |firms|) == 0.0)
      && (h == 0 ==>
            && Departures(quit, h, k, |firms|) == |firms| - 1
            && Kept(firms, quit, h, k, floor, |firms|) == [Recapitalised(firms[k], floor)]
            && Injected(firms, quit, h, k, floor, |firms|) == Injection(firms[k], floor))
  {
    var quit := Marks(firms, sts);
    var n := |firms|;
    var h := n - CountTrue(quit, n);
    CountTrueBounds(quit, n);
    BestInRange(quit, StatsOf(sts), k);
    KeptSize(firms, quit, h, k, floor, n);
    if h > 0 {
      CandidatesLeave(firms, quit, h, k, floor, n);
    } else {
      AllButBestLeave(firms, quit, k, floor, n);
    }
  }
}
