/** The numeric library the core calls into (numpy and scipy.stats), kept abstract:
    each routine is a function value, and `Sound` lists the only facts the model uses. */
module Numeric {

  /** What `scipy.stats.chisquare` returns: the statistic and its p-value. */
  datatype ChiSquare = ChiSquare(statistic: real, pValue: real)

  datatype Numerics = Numerics(
    sqrt: real -> real,                                // np.sqrt
    exp: real -> real,                                 // np.exp
    log: real -> real,                                 // np.log
    normCdf: real -> real,                             // stats.norm.cdf
    normPpf: real -> real,                             // stats.norm.ppf
    chiSquare: (real, real, real, real) -> ChiSquare)  // stats.chisquare([oA, oB], [eA, eB])
  {
    ghost predicate Sound() {
      && (forall x :: x >= 0.0 ==> sqrt(x) >= 0.0 && (sqrt(x) == 0.0 <==> x == 0.0))
      && (forall x :: exp(x) > 0.0)
      && exp(0.0) == 1.0
      && (forall z :: 0.0 <= normCdf(z) <= 1.0)
      && (forall z :: z >= 0.0 ==> normCdf(z) >= 0.5)
      && (forall z :: z <= 0.0 ==> normCdf(z) <= 0.5)
      && (forall q :: 0.5 <= q < 1.0 ==> normPpf(q) >= 0.0)
      && (forall oA, oB, eA, eB :: 0.0 <= chiSquare(oA, oB, eA, eB).pValue <= 1.0)
    }
  }

  /** np.clip(x, lo, hi). */
  function Clip(x: real, lo: real, hi: real): (r: real)
    requires lo <= hi
    ensures lo <= r <= hi
    ensures lo <= x <= hi ==> r == x
    ensures x < lo ==> r == lo
    ensures hi < x ==> r == hi
  {
    if x < lo then lo else if hi < x then hi else x
  }

  /** The logistic function 1 / (1 + e^-x): a probability strictly inside (0, 1). */
  function Sigmoid(num: Numerics, x: real): (p: real)
    requires num.Sound()
    ensures 0.0 < p < 1.0
  {
    var e := num.exp(-x);
    assert e > 0.0;
    1.0 / (1.0 + e)
  }

  function Abs(x: real): (r: real)
    ensures r >= 0.0 && (r == x || r == -x)
  {
    if x < 0.0 then -x else x
  }
}
