/**
 The source compares load ratios as float64 values (router/router.go), the model compares
 them exactly. Here the two are shown to pick the same server as long as the
 cross-products of inflight and maxConn add up to less than 2^53.
 */
module Rounding {
  import opened Common
  import opened Selection

  const TWO_TO_53 := 0x20_0000_0000_0000

  function Magnitude(x: real): real {
    if x < 0.0 then -x else x
  }

  function Size(n: int): nat {
    if n < 0 then -n else n
  }

  /** `r` is `x` up to a relative error of 2^-53. */
  predicate Close(r: real, x: real) {
    Magnitude(r - x) * TWO_TO_53 as real <= Magnitude(x)
  }

  /** `v` is the load ratio of `x` as a rounded division gives it, multiplied back to compare. */
  predicate IsRatio(v: real, x: Info) {
    Close(v * x.maxConn as real, x.inflight as real)
  }

  /** Rounded ratios of the candidates; a rounded ratio depends on nothing but the exact one. */
  ghost predicate AreRatios(rs: seq<real>, infos: seq<Info>) {
    && |rs| == |infos|
    && (forall i :: 0 <= i < |infos| ==> IsRatio(rs[i], infos[i]))
    && (forall i, j :: 0 <= i < j < |infos| && !LowerRatio(infos[i], infos[j]) && !LowerRatio(infos[j], infos[i])
                       ==> rs[i] == rs[j])
  }

  /** Integers up to 2^53 are exact as float64 values, and so is the order of the two ratios. */
  predicate Comparable(x: Info, y: Info) {
    Size(x.inflight * y.maxConn) + Size(y.inflight * x.maxConn) < TWO_TO_53
  }

  lemma OrderScales(d: real, m: real, n: real)
    requires n > 0.0 && d * TWO_TO_53 as real <= m
    ensures (d * n) * TWO_TO_53 as real <= m * n
  {
    assert (d * n) * TWO_TO_53 as real == (d * TWO_TO_53 as real) * n;
  }

  /** A small relative error stays small when both values are scaled by `n`. */
  lemma CloseScales(x: real, r: real, n: real, xn: real, rn: real)
    requires n > 0.0 && Close(r, x) && xn == x * n && rn == r * n
    ensures Close(rn, xn)
  {
    assert rn - xn == (r - x) * n;
    OrderScales(Magnitude(r - x), Magnitude(x), n);
  }

  /** Values at least 1 apart stay apart if their errors are together less than 1. */
  lemma CloseKeepsLess(p: int, q: int, rp: real, rq: real)
    requires p < q && Size(p) + Size(q) < TWO_TO_53 && Close(rp, p as real) && Close(rq, q as real)
    ensures rp < rq
  {
    var d, e := Magnitude(rp - p as real), Magnitude(rq - q as real);
    assert (d + e) * TWO_TO_53 as real <= (Size(p) + Size(q)) as real;
    assert (Size(p) + Size(q)) as real < TWO_TO_53 as real;
    assert d + e < 1.0;
    assert q as real - p as real >= 1.0;
  }

  lemma Unscaled(v: real, w: real, n: real, vn: real, wn: real)
    requires n > 0.0 && vn == v * n && wn == w * n && vn < wn
    ensures v < w
  {
  }

  lemma Associates(x: real, y: real, z: real)
    ensures (x * y) * z == x * (y * z)
  {
  }

  lemma IntegerProduct(x: int, y: int)
    ensures (x * y) as real == x as real * y as real
  {
  }

  lemma Commutes(x: real, y: real)
    ensures x * y == y * x
    ensures x > 0.0 && y > 0.0 ==> x * y > 0.0
  {
  }

  lemma CrossScaled(v: real, f: real, m: real, k: real, n: real, fk: real, vn: real)
    requires k > 0.0 && Close(v * m, f) && n == m * k && fk == f * k && vn == v * n
    ensures Close(vn, fk)
  {
    Associates(v, m, k);
    CloseScales(f, v * m, k, fk, vn);
  }

  /** Rounded quotients are ordered as the exact ones, compared by their cross-products. */
  lemma QuotientsLess(v: real, f: real, m: real, w: real, g: real, k: real, p: int, q: int)
    requires m > 0.0 && k > 0.0 && Close(v * m, f) && Close(w * k, g)
    requires p as real == f * k && q as real == g * m && p < q && Size(p) + Size(q) < TWO_TO_53
    ensures v < w
  {
    var n := m * k;
    Commutes(m, k);
    var vn, wn := v * n, w * n;
    CrossScaled(v, f, m, k, n, p as real, vn);
    CrossScaled(w, g, k, m, n, q as real, wn);
    CloseKeepsLess(p, q, vn, wn);
    Unscaled(v, w, n, vn, wn);
  }

  lemma IntegerQuotientsLess(v: real, f: int, m: int, w: real, g: int, k: int, p: int, q: int)
    requires m > 0 && k > 0 && Close(v * m as real, f as real) && Close(w * k as real, g as real)
    requires p == f * k && q == g * m && p < q && Size(p) + Size(q) < TWO_TO_53
    ensures v < w
  {
    IntegerProduct(f, k);
    IntegerProduct(g, m);
    QuotientsLess(v, f as real, m as real, w, g as real, k as real, p, q);
  }

  lemma RoundedLess(v: real, x: Info, w: real, y: Info)
    requires x.maxConn > 0 && y.maxConn > 0 && Comparable(x, y) && IsRatio(v, x) && IsRatio(w, y)
    requires LowerRatio(x, y)
    ensures v < w
  {
    IntegerQuotientsLess(v, x.inflight, x.maxConn, w, y.inflight, y.maxConn,
                         x.inflight * y.maxConn, y.inflight * x.maxConn);
  }

  ghost predicate AllComparable(infos: seq<Info>) {
    forall x, y :: x in infos && y in infos ==> x.maxConn > 0 && Comparable(x, y)
  }

  /** Comparing two rounded ratios is comparing the exact ones. */
  lemma RoundedComparisonIsExact(rs: seq<real>, infos: seq<Info>, i: nat, j: nat)
    requires AreRatios(rs, infos) && AllComparable(infos) && i < j < |infos|
    ensures rs[j] < rs[i] <==> LowerRatio(infos[j], infos[i])
  {
    assert infos[i] in infos && infos[j] in infos;
    assert IsRatio(rs[i], infos[i]) && IsRatio(rs[j], infos[j]);
    if LowerRatio(infos[i], infos[j]) {
      RoundedLess(rs[i], infos[i], rs[j], infos[j]);
    } else if LowerRatio(infos[j], infos[i]) {
      RoundedLess(rs[j], infos[j], rs[i], infos[i]);
    }
  }

  /** The running minimum over rounded ratios. */
  function RoundedBest(rs: seq<real>): (b: nat)
    requires rs != []
    ensures b < |rs|
  {
    var n := |rs| - 1;
    if n == 0 then 0
    else
      var b := RoundedBest(rs[..n]);
      if rs[n] < rs[b] then n else b
  }

  predicate SameOrder(rs: seq<real>, infos: seq<Info>, i: nat, j: nat)
    requires i < |infos| == |rs| && j < |infos|
  {
    rs[j] < rs[i] <==> LowerRatio(infos[j], infos[i])
  }

  lemma {:induction false} SameOrderSameBest(rs: seq<real>, infos: seq<Info>)
    requires |rs| == |infos| > 0
    requires forall i, j :: 0 <= i < j < |infos| ==> SameOrder(rs, infos, i, j)
    ensures RoundedBest(rs) == Best(infos)
  {
    var n := |infos| - 1;
    if n > 0 {
      forall i, j | 0 <= i < j < n ensures SameOrder(rs[..n], infos[..n], i, j) {
        assert SameOrder(rs, infos, i, j);
      }
      SameOrderSameBest(rs[..n], infos[..n]);
      assert SameOrder(rs, infos, Best(infos[..n]), n);
    }
  }

  /** The loop over rounded ratios picks the same server as the exact one. */
  lemma RoundedBestIsBest(rs: seq<real>, infos: seq<Info>)
    requires infos != [] && AreRatios(rs, infos) && AllComparable(infos)
    ensures RoundedBest(rs) == Best(infos)
  {
    forall i, j | 0 <= i < j < |infos| ensures SameOrder(rs, infos, i, j) {
      RoundedComparisonIsExact(rs, infos, i, j);
    }
    SameOrderSameBest(rs, infos);
  }

  /**
   The bound is on the sum: here each cross-product is below 2^53, the exact ratios differ,
   and one number is both of them when rounded.
   */
  lemma OneNumberForTwoRatios(u: Url) returns (x: Info, y: Info, v: real)
    ensures LowerRatio(x, y) && x.maxConn > 0 && y.maxConn > 0
    ensures x.inflight * y.maxConn < TWO_TO_53 && y.inflight * x.maxConn < TWO_TO_53
    ensures IsRatio(v, x) && IsRatio(v, y)
  {
    x, y := Info(u, 1, 94906264, 94906265), Info(u, 1, 94906263, 94906264);
    v := 18014397892875391.0 / 18014397703062864.0;
  }
}
