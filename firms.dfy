/** The part of a firm record that both sectors share: market share and
    balance sheet. The sector-specific part is the type parameter. */
module Firms {
  import opened Shares

  /** A firm of either sector: market share (`_f1`/`_f2`), net wealth
      (`_NW1`/`_NW2`), debt (`_Deb1`/`_Deb2`), equity (`_Eq1`/`_Eq2`) and the
      sector's own fields in `own`. */
  datatype Firm<S> = Firm(share: real, nw: real, deb: real, eq: real, own: S)

  /** The share vector of a population, in population order. */
  function SharesOf<S>(fs: seq<Firm<S>>): (r: seq<real>)
    ensures |r| == |fs|
    ensures forall i :: 0 <= i < |fs| ==> r[i] == fs[i].share
  {
    seq(|fs|, i requires 0 <= i < |fs| => fs[i].share)
  }

  /** The population with its shares replaced by `s`, all else kept. */
  function Reshared<S>(fs: seq<Firm<S>>, s: seq<real>): (r: seq<Firm<S>>)
    requires |s| == |fs|
    ensures |r| == |fs|
    ensures forall i :: 0 <= i < |fs| ==> r[i] == fs[i].(share := s[i])
  {
    seq(|fs|, i requires 0 <= i < |fs| => fs[i].(share := s[i]))
  }

  /** The population after the share rescaler has run over it. */
  function RescaledFirms<S>(fs: seq<Firm<S>>): (r: seq<Firm<S>>)
    ensures |r| == |fs|
  {
    Reshared(fs, Rescaled(SharesOf(fs)))
  }

  /** Rescaling a population changes nothing but shares, and its shares then
      add up to one; a second rescale changes nothing. */
  lemma RescaledFirmsFacts<S>(fs: seq<Firm<S>>)
    ensures |RescaledFirms(fs)| == |fs|
    ensures SharesOf(RescaledFirms(fs)) == Rescaled(SharesOf(fs))
    ensures forall i :: 0 <= i < |fs| ==> RescaledFirms(fs)[i] == fs[i].(share := RescaledFirms(fs)[i].share)
    ensures |fs| > 0 ==> NearOne(Sum(SharesOf(RescaledFirms(fs))))
    ensures RescaledFirms(RescaledFirms(fs)) == RescaledFirms(fs)
  {
    var s := Rescaled(SharesOf(fs));
    assert SharesOf(Reshared(fs, s)) == s;
    if |fs| > 0 {
      RescaledSumsToOne(SharesOf(fs));
    }
    RescaledIdempotent(SharesOf(fs));
    assert Reshared(RescaledFirms(fs), s) == RescaledFirms(fs);
  }
}
