/** Labour allocation between the two sectors: the capital-goods sector's
    employment (`L1`), shared between R&D and production under a shortage
    factor, the R&D employment it starts from (`L1rd`), and the
    consumer-goods sector's employment (`L2`), which takes what is left. */
module Labour {

  function Min(a: real, b: real): (r: real)
    ensures r <= a && r <= b && (r == a || r == b)
  {
    if b < a then b else a
  }

  /** There is a labour shortage when the labour left after R&D falls short
      of what both sectors' production wants, every demand first capped at
      the labour supply. */
  predicate Shortage(supply: real, rd: real, wanted1: real, wanted2: real)
  {
    supply - Min(rd, supply) < Min(wanted1, supply) + Min(wanted2, supply)
  }

  /** The share of its production demand sector 1 gets: the labour left after
      R&D over both sectors' capped demands when there is a shortage, but
      never below one minus the maximum shortage, and all of it otherwise. */
  function ShortageFactor(supply: real, rd: real, wanted1: real, wanted2: real, shortMax: real): (r: real)
  {
    var rd' := Min(rd, supply);
    var d1 := Min(wanted1, supply);
    var d2 := Min(wanted2, supply);
    if supply - rd' < d1 + d2 then
      // the divisor exceeds the dividend, which is not negative
      var factor := (supply - rd') / (d1 + d2);
      if factor < 1.0 - shortMax then 1.0 - shortMax else factor
    else
      1.0
  }

  /** Employment in sector 1: its R&D labour plus the part of its capped
      production demand beyond that labour, scaled by the shortage factor. */
  function Employment1(supply: real, rd: real, wanted1: real, wanted2: real, shortMax: real): (r: real)
  {
    var rd' := Min(rd, supply);
    var d1 := Min(wanted1, supply);
    rd' + (d1 - rd') * ShortageFactor(supply, rd, wanted1, wanted2, shortMax)
  }

  /** R&D employment in sector 1: the firms' R&D labour demand, capped at the
      sector's maximum share of the labour supply. */
  function ResearchLabour(demandRD: real, supply: real, rdMax: real): (r: real)
    ensures r <= demandRD && r <= supply * rdMax
    ensures r == demandRD || r == supply * rdMax
  {
    Min(demandRD, supply * rdMax)
  }

  /** Employment in sector 2: its labour demand, up to the labour that
      sector 1 leaves. */
  function Employment2(supply: real, employed1: real, wanted2: real): (r: real)
    ensures r <= wanted2 && r <= supply - employed1
    ensures r == wanted2 || r == supply - employed1
  {
    Min(wanted2, supply - employed1)
  }

  /** The shortage factor never exceeds one when the maximum shortage is not
      negative; it is one exactly when there is no shortage, unless the cap
      is one itself; under a shortage it is at least one minus the maximum
      shortage and at least the labour left over the demands, so it is
      never negative. */
  lemma FactorBounds(supply: real, rd: real, wanted1: real, wanted2: real, shortMax: real)
    ensures var f := ShortageFactor(supply, rd, wanted1, wanted2, shortMax);
      && (shortMax >= 0.0 ==> f <= 1.0)
      && (!Shortage(supply, rd, wanted1, wanted2) ==> f == 1.0)
      && (Shortage(supply, rd, wanted1, wanted2) ==>
            && f >= 1.0 - shortMax
            && f >= 0.0
            && (shortMax > 0.0 ==> f < 1.0))
  {
    var rd' := Min(rd, supply);
    var d1 := Min(wanted1, supply);
    var d2 := Min(wanted2, supply);
    if supply - rd' < d1 + d2 {
      Quotient(supply - rd', d1 + d2);
    }
  }

  /** A dividend that is not negative over a larger divisor lies in [0, 1). */
  lemma Quotient(a: real, b: real)
    requires 0.0 <= a < b
    ensures 0.0 <= a / b < 1.0
  {
    assert a / b * b == a;
  }

  /** Without a shortage sector 1 gets its whole capped production demand. */
  lemma NoShortage(supply: real, rd: real, wanted1: real, wanted2: real, shortMax: real)
    requires !Shortage(supply, rd, wanted1, wanted2)
    ensures Employment1(supply, rd, wanted1, wanted2, shortMax) == Min(wanted1, supply)
  {
    FactorBounds(supply, rd, wanted1, wanted2, shortMax);
  }

  /** With a maximum shortage that is not negative, sector 1's employment lies
      between its capped R&D labour and its capped production demand, so it
      never exceeds the labour supply. */
  lemma Employment1Between(supply: real, rd: real, wanted1: real, wanted2: real, shortMax: real)
    requires shortMax >= 0.0
    ensures var e := Employment1(supply, rd, wanted1, wanted2, shortMax);
      var rd' := Min(rd, supply);
      var d1 := Min(wanted1, supply);
      && (rd' <= d1 ==> rd' <= e <= d1)
      && (d1 <= rd' ==> d1 <= e <= rd')
      && e <= supply
  {
    var rd' := Min(rd, supply);
    var d1 := Min(wanted1, supply);
    var f := ShortageFactor(supply, rd, wanted1, wanted2, shortMax);
    FactorBounds(supply, rd, wanted1, wanted2, shortMax);
    Interpolate(rd', d1, f);
  }

  /** A point of [0, 1] scales the gap between two values to a gap of the
      same sign that is no wider. */
  lemma Interpolate(a: real, b: real, f: real)
    requires 0.0 <= f <= 1.0
    ensures a <= b ==> 0.0 <= (b - a) * f <= b - a
    ensures b <= a ==> b - a <= (b - a) * f <= 0.0
  {
    var d := if a <= b then b - a else a - b;
    Product(d, f);
    Product(d, 1.0 - f);
    assert d * (1.0 - f) == d - d * f;
    assert (b - a) * f == if a <= b then d * f else -(d * f);
  }

  lemma Product(x: real, y: real)
    requires x >= 0.0 && y >= 0.0
    ensures x * y >= 0.0
  {
  }

  /** Both sectors together never employ more than the labour supply, and
      sector 2's employment is not negative when its demand is not, provided
      the maximum shortage is not negative. */
  lemma WithinSupply(supply: real, rd: real, wanted1: real, wanted2: real, shortMax: real)
    requires shortMax >= 0.0
    ensures var e1 := Employment1(supply, rd, wanted1, wanted2, shortMax);
      var e2 := Employment2(supply, e1, wanted2);
      && e1 + e2 <= supply
      && (wanted2 >= 0.0 ==> e2 >= 0.0)
  {
    Employment1Between(supply, rd, wanted1, wanted2, shortMax);
  }

  /** With the R&D share capped at one or less of a labour supply that is not
      negative, R&D employment never exceeds the labour supply. */
  lemma ResearchWithinSupply(demandRD: real, supply: real, rdMax: real)
    requires supply >= 0.0 && rdMax <= 1.0
    ensures ResearchLabour(demandRD, supply, rdMax) <= supply
  {
    assert supply * rdMax <= supply * 1.0;
  }
}
