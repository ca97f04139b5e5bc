/** Market shares as plain sequences of reals: their sum and the rescaling
    rule that both sectors apply after every change of membership. */
module Shares {

  /** Tolerance of the "already adds up to one" test of the rescaler. */
  const RoundingTolerance: real := 0.001

  /** Sum of a sequence, accumulated front to back as the source's loops do. */
  function Sum(s: seq<real>): (r: real)
  {
    if |s| == 0 then 0.0 else Sum(s[..|s| - 1]) + s[|s| - 1]
  }

  /** The rescaler's test that a share total rounds to one: the total, rounded
      to the nearest unit when it lies within the tolerance of it, equals 1. */
  predicate NearOne(total: real)
  {
    1.0 - RoundingTolerance <= total <= 1.0 + RoundingTolerance
  }

  /** Every share divided by the common positive divisor `c`. */
  function Scaled(s: seq<real>, c: real): (r: seq<real>)
    requires c != 0.0
    ensures |r| == |s|
    ensures forall i :: 0 <= i < |s| ==> r[i] == s[i] / c
  {
    seq(|s|, i requires 0 <= i < |s| => s[i] / c)
  }

  /** `n` firms, each with the fair share 1/n. */
  function FairShares(n: nat): (r: seq<real>)
    ensures |r| == n
    ensures forall i :: 0 <= i < n ==> r[i] == 1.0 / (n as real)
  {
    seq(n, i requires 0 <= i < n => 1.0 / (n as real))
  }

  /** The share vector after rescaling: untouched when it already adds up to
      one, divided by its total when that total is positive, and the fair
      share 1/N for every firm otherwise. */
  function Rescaled(s: seq<real>): (r: seq<real>)
  {
    var total := Sum(s);
    if NearOne(total) then s
    else if total > 0.0 then Scaled(s, total)
    else FairShares(|s|)
  }

  lemma {:induction false} SumPrefix(s: seq<real>, j: nat)
    requires j < |s|
    ensures Sum(s[..j + 1]) == Sum(s[..j]) + s[j]
  {
    assert s[..j + 1][..j] == s[..j];
  }

  /** Replacing one entry changes the sum by the difference. */
  lemma {:induction false} SumUpdate(s: seq<real>, j: nat, v: real)
    requires j < |s|
    ensures Sum(s[j := v]) == Sum(s) - s[j] + v
  {
    var n := |s| - 1;
    if j < n {
      assert s[j := v][..n] == s[..n][j := v];
      SumUpdate(s[..n], j, v);
    } else {
      assert s[j := v][..n] == s[..n];
    }
  }

  lemma {:induction false} SumScaled(s: seq<real>, c: real)
    requires c != 0.0
    ensures Sum(Scaled(s, c)) == Sum(s) / c
  {
    if |s| > 0 {
      var n := |s| - 1;
      assert Scaled(s, c)[..n] == Scaled(s[..n], c);
      SumScaled(s[..n], c);
    }
  }

  /** The fair shares of a non-empty population add up to one. */
  lemma SumFair(n: nat)
    requires n > 0
    ensures Sum(FairShares(n)) == 1.0
  {
    var fair := 1.0 / (n as real);
    assert FairShares(n) == seq(n, i requires 0 <= i < n => fair);
    SumConstant(n, fair);
    DivisionMonotone(1.0, 1.0, n as real);
  }

  lemma {:induction false} SumConstant(n: nat, c: real)
    ensures Sum(seq(n, i requires 0 <= i < n => c)) == (n as real) * c
  {
    if n > 0 {
      assert seq(n, i requires 0 <= i < n => c)[..n - 1] == seq(n - 1, i requires 0 <= i < n - 1 => c);
      SumConstant(n - 1, c);
    }
  }

  /** Rescaling keeps the number of firms. */
  lemma RescaledLength(s: seq<real>)
    ensures |Rescaled(s)| == |s|
  {
  }

  /** After rescaling, a non-empty share vector adds up to one: exactly, when
      rescaling changed it, and within the tolerance when it was left alone. */
  lemma RescaledSumsToOne(s: seq<real>)
    requires |s| > 0
    ensures NearOne(Sum(Rescaled(s)))
    ensures !NearOne(Sum(s)) ==> Sum(Rescaled(s)) == 1.0
  {
    var total := Sum(s);
    if !NearOne(total) {
      if total > 0.0 {
        SumScaled(s, total);
        DivisionMonotone(total, total, total);
      } else {
        SumFair(|s|);
      }
    }
  }

  /** With a positive total, rescaling is proportional: every share is divided
      by the same total, so the ranking of firms is preserved. */
  lemma RescaledProportional(s: seq<real>, i: nat, j: nat)
    requires i < |s| && j < |s|
    requires Sum(s) > 0.0 && !NearOne(Sum(s))
    ensures Rescaled(s)[i] == s[i] / Sum(s)
    ensures s[i] <= s[j] <==> Rescaled(s)[i] <= Rescaled(s)[j]
  {
    DivisionMonotone(s[i], s[j], Sum(s));
  }

  lemma DivisionMonotone(a: real, b: real, c: real)
    requires c > 0.0
    ensures a <= b <==> a / c <= b / c
    ensures (a / c) * c == a
  {
    assert a == (a / c) * c && b == (b / c) * c;
  }

  /** A degenerate total (zero or negative) gives every firm the fair share
      1/N, which N firms together hold in full. */
  lemma RescaledDegenerate(s: seq<real>, i: nat)
    requires i < |s|
    requires Sum(s) <= 0.0
    ensures Rescaled(s)[i] == 1.0 / (|s| as real)
    ensures Rescaled(s)[i] * (|s| as real) == 1.0
  {
    assert !NearOne(Sum(s));
    assert Rescaled(s) == FairShares(|s|);
    DivisionMonotone(1.0, 1.0, |s| as real);
  }

  /** Rescaling twice is rescaling once. */
  lemma RescaledIdempotent(s: seq<real>)
    ensures Rescaled(Rescaled(s)) == Rescaled(s)
  {
    if |s| > 0 {
      RescaledSumsToOne(s);
    } else {
      assert Rescaled(s) == [];
    }
  }
}
