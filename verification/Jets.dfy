/** First-order expansions with a uniform second-order error, for polynomials and for the series of e^-u on [0, 5]. */
module Jets {
  import opened FixedPoint
  import opened ExponentialSeries

  /** A function near u: its value at u, its value at u + d, and its slope at u. */
  datatype Jet = Jet(at: real, after: real, slope: real)

  predicate Within(x: real, b: real) { -b <= x <= b }

  function Absolute(x: real): real { if x < 0.0 then -x else x }

  /** Values and slope are at most b; the value moves by at most b d, and off its tangent by at most b d^2. */
  predicate Near(j: Jet, d: real, b: real) {
    && Within(j.at, b) && Within(j.after, b) && Within(j.slope, b)
    && Within(j.after - j.at, Times(b, d)) && Within(j.after - j.at - Times(d, j.slope), Times(b, Times(d, d)))
  }

  function Sum(i: Jet, j: Jet): Jet { Jet(i.at + j.at, i.after + j.after, i.slope + j.slope) }

  function Product(i: Jet, j: Jet): Jet {
    Jet(Times(i.at, j.at), Times(i.after, j.after), Times(i.slope, j.at) + Times(i.at, j.slope))
  }

  function Constant(c: real): Jet { Jet(c, c, 0.0) }

  function Linear(c: real, u: real, d: real): Jet { Jet(Times(c, u), Times(c, u + d), c) }

  lemma ProductPositive(x: real, y: real)
    requires 0.0 <= x && 0.0 <= y
    ensures x * y >= 0.0
  {
  }

  lemma WithinProduct(x: real, b: real, y: real, c: real)
    requires Within(x, b) && Within(y, c)
    ensures Within(Times(x, y), Times(b, c))
  {
    ProductPositive(b - x, c + y);
    ProductPositive(b + x, c - y);
    assert (b - x) * (c + y) + (b + x) * (c - y) == 2.0 * (b * c) - 2.0 * (x * y);
    ProductPositive(b - x, c - y);
    ProductPositive(b + x, c + y);
    assert (b - x) * (c - y) + (b + x) * (c + y) == 2.0 * (b * c) + 2.0 * (x * y);
  }

  lemma NearConstant(c: real, d: real)
    requires 0.0 < d
    ensures Near(Constant(c), d, Absolute(c))
  {
    assert Absolute(c) * d >= 0.0 && Absolute(c) * (d * d) >= 0.0;
  }

  lemma NearLinear(c: real, u: real, d: real)
    requires 0.0 <= u < u + d <= 5.0 && Within(c, 1.0)
    ensures Near(Linear(c, u, d), d, 5.0)
  {
    WithinProduct(c, 1.0, u, 5.0);
    WithinProduct(c, 1.0, u + d, 5.0);
    WithinProduct(c, 1.0, d, d);
    assert Times(c, u + d) - Times(c, u) == Times(c, d);
    assert 5.0 * (d * d) >= 0.0;
  }

  lemma NearSum(i: Jet, b: real, j: Jet, c: real, d: real)
    requires Near(i, d, b) && Near(j, d, c)
    ensures Near(Sum(i, j), d, b + c)
  {
    hide Times;
    Distributed(b, c, d);
    Distributed(b, c, Times(d, d));
    Distributed(i.slope, j.slope, d);
  }

  lemma Distributed(a: real, b: real, c: real)
    ensures Times(a + b, c) == Times(a, c) + Times(b, c) && Times(c, a + b) == Times(c, a) + Times(c, b)
  {
  }

  /** The product rule. */
  lemma NearProduct(i: Jet, b: real, j: Jet, c: real, d: real)
    requires Near(i, d, b) && Near(j, d, c) && 0.0 < d && 0.0 <= b && 0.0 <= c
    ensures Near(Product(i, j), d, 3.0 * Times(b, c))
  {
    hide Times;
    WithinProduct(i.at, b, j.at, c);
    WithinProduct(i.after, b, j.after, c);
    WithinProduct(i.slope, b, j.at, c);
    WithinProduct(i.at, b, j.slope, c);
    var di, dj := i.after - i.at, j.after - j.at;
    var ei, ej := di - Times(d, i.slope), dj - Times(d, j.slope);
    WithinProduct(di, Times(b, d), j.after, c);
    WithinProduct(i.at, b, dj, Times(c, d));
    WithinProduct(ei, Times(b, Times(d, d)), j.at, c);
    WithinProduct(i.at, b, ej, Times(c, Times(d, d)));
    WithinProduct(di, Times(b, d), dj, Times(c, d));
    ProductSplit(i, j, d);
    Regrouped(b, c, d);
  }

  lemma ProductSplit(i: Jet, j: Jet, d: real)
    ensures var di, dj := i.after - i.at, j.after - j.at;
            var p := Product(i, j);
            && p.after - p.at == Times(di, j.after) + Times(i.at, dj)
            && p.after - p.at - Times(d, p.slope)
               == Times(di - Times(d, i.slope), j.at) + Times(i.at, dj - Times(d, j.slope)) + Times(di, dj)
  {
  }

  lemma Regrouped(b: real, c: real, d: real)
    requires 0.0 <= b && 0.0 <= c && 0.0 < d
    ensures Times(Times(b, d), c) == Times(b, Times(c, d)) == Times(Times(b, c), d) >= 0.0
    ensures Times(Times(b, Times(d, d)), c) == Times(b, Times(c, Times(d, d))) == Times(Times(b, d), Times(c, d)) == Times(Times(b, c), Times(d, d))
    ensures Times(3.0 * Times(b, c), d) == 3.0 * Times(Times(b, c), d)
    ensures Times(3.0 * Times(b, c), Times(d, d)) == 3.0 * Times(Times(b, c), Times(d, d))
    ensures Times(b, c) >= 0.0
  {
    assert b * c >= 0.0;
    assert b * c * d >= 0.0;
  }

  // ----- polynomials -----

  function PolySlope(p: seq<int>, u: real, n: nat): real
    requires n < |p|
  {
    if n == 0 then 0.0 else Times(PolySlope(p, u, n - 1), u) + PolyExact(p, u, n - 1)
  }

  function PolyJet(p: seq<int>, u: real, d: real, n: nat): Jet
    requires n < |p|
  {
    Jet(PolyExact(p, u, n), PolyExact(p, u + d, n), PolySlope(p, u, n))
  }

  function PolyBound(p: seq<int>, n: nat): (b: real)
    requires n < |p|
    ensures b >= 0.0
  {
    Absolute(p[n] as real) + if n == 0 then 0.0 else 15.0 * PolyBound(p, n - 1)
  }

  lemma PolyUnfolded(p: seq<int>, u: real, n: nat)
    requires n < |p|
    ensures n == 0 ==> PolyExact(p, u, n) == p[0] as real
    ensures n > 0 ==> PolyExact(p, u, n) == Times(PolyExact(p, u, n - 1), u) + p[n] as real
  {
    assert Pow(u, 0) == 1.0;
    if n > 0 { PolyExactStep(p, u, n); }
  }

  lemma {:induction false} PolyNear(p: seq<int>, u: real, d: real, n: nat)
    requires n < |p| && 0.0 <= u < u + d <= 5.0
    ensures Near(PolyJet(p, u, d, n), d, PolyBound(p, n))
  {
    hide Near, Times, PolyExact;
    NearConstant(p[n] as real, d);
    PolyUnfolded(p, u, n);
    PolyUnfolded(p, u + d, n);
    if n == 0 {
      assert PolyJet(p, u, d, 0) == Constant(p[0] as real);
    } else {
      PolyNear(p, u, d, n - 1);
      NearLinear(1.0, u, d);
      var b := PolyBound(p, n - 1);
      NearProduct(PolyJet(p, u, d, n - 1), b, Linear(1.0, u, d), 5.0, d);
      var product := Product(PolyJet(p, u, d, n - 1), Linear(1.0, u, d));
      NearSum(product, 3.0 * Times(b, 5.0), Constant(p[n] as real), Absolute(p[n] as real), d);
      TimesUnits(u, u + d, PolyExact(p, u, n - 1), b);
      assert PolyJet(p, u, d, n) == Sum(product, Constant(p[n] as real));
    }
  }

  lemma TimesUnits(u: real, w: real, v: real, b: real)
    ensures Times(1.0, u) == u && Times(1.0, w) == w && Times(v, 1.0) == v && Times(b, 5.0) == 5.0 * b
  {
  }

  // ----- the derivative and the products of polynomials, as sums of powers -----

  function Derived(p: seq<int>, n: nat): seq<int>
    requires n < |p|
  {
    seq(n, i requires 0 <= i < n => p[i] * (n - i))
  }

  lemma {:induction false} DerivedSum(p: seq<int>, u: real, n: nat, k: nat)
    requires k + 1 < n < |p|
    ensures PowerSum(Derived(p, n), u, n - 1, k) == PowerSum(Derived(p, n - 1), u, n - 1, k) + PowerSum(p, u, n - 1, k)
  {
    DerivedTerm(p[k], n - k, Pow(u, n - 1 - k));
    if k > 0 { DerivedSum(p, u, n, k - 1); }
  }

  lemma DerivedTerm(c: int, n: int, w: real)
    ensures (c * n) as real * w == (c * (n - 1)) as real * w + c as real * w
  {
  }

  lemma LastTerm(p: seq<int>, u: real, n: nat, c: int)
    requires n < |p| && p[n] == c
    ensures PowerSum(p, u, n, n) == c as real + if n == 0 then 0.0 else PowerSum(p, u, n, n - 1)
  {
    assert Pow(u, 0) == 1.0;
  }

  lemma ShiftedSum(p: seq<int>, u: real, n: nat, k: nat)
    requires k <= n && k < |p|
    ensures PowerSum(p, u, n + 1, k) == Times(PowerSum(p, u, n, k), u)
  {
    PowerSumShift(p, u, n, k);
  }

  lemma SlopeUnfolded(p: seq<int>, u: real, n: nat)
    requires n < |p|
    ensures PolySlope(p, u, n) == if n == 0 then 0.0 else Times(PolySlope(p, u, n - 1), u) + PolyExact(p, u, n - 1)
  {
  }

  lemma DerivedLast(p: seq<int>, n: nat)
    requires 0 < n < |p|
    ensures Derived(p, n)[n - 1] == p[n - 1]
  {
  }

  lemma TimesZeroUnit(u: real)
    ensures Times(0.0, u) == 0.0
  {
  }

  /** The slope of a polynomial is its derivative. */
  lemma {:induction false} SlopeIsDerivative(p: seq<int>, u: real, n: nat)
    requires 0 < n < |p|
    ensures PolySlope(p, u, n) == PolyExact(Derived(p, n), u, n - 1)
  {
    hide Pow, PowerSum, PolySlope, Times;
    SlopeUnfolded(p, u, n);
    DerivedLast(p, n);
    LastTerm(Derived(p, n), u, n - 1, p[n - 1]);
    LastTerm(p, u, n - 1, p[n - 1]);
    if n == 1 {
      SlopeUnfolded(p, u, 0);
      TimesZeroUnit(u);
    } else {
      SlopeIsDerivative(p, u, n - 1);
      ShiftedSum(Derived(p, n - 1), u, n - 2, n - 2);
      DerivedSum(p, u, n, n - 2);
    }
  }

  lemma {:induction false} PowTimes(p: seq<int>, u: real, n: nat, i: nat)
    requires n < |p|
    ensures Times(Pow(u, i), PolyExact(p, u, n)) == PowerSum(p, u, n + i, n)
  {
    hide Pow, PowerSum, Times;
    if i > 0 {
      PowTimes(p, u, n, i - 1);
      ShiftedSum(p, u, n + i - 1, n);
      MovePower(u, i, PolyExact(p, u, n));
    } else {
      PowZero(u);
      TimesOne(PolyExact(p, u, n));
    }
  }

  lemma PowZero(u: real)
    ensures Pow(u, 0) == 1.0
  {
  }

  lemma MovePower(u: real, i: nat, x: real)
    requires i > 0
    ensures Times(Pow(u, i), x) == Times(Times(Pow(u, i - 1), x), u)
  {
    var w := Pow(u, i - 1);
    assert u * w * x == w * x * u;
  }

  // ----- the series -----

  function TermSlope(u: real, i: nat): real { if i == 0 then 0.0 else -SeriesTerm(u, i - 1) }

  function TermJet(u: real, d: real, i: nat): Jet { Jet(SeriesTerm(u, i), SeriesTerm(u + d, i), TermSlope(u, i)) }

  function TermBound(i: nat): (b: real)
    ensures b >= 1.0
  {
    if i == 0 then 1.0 else 15.0 * TermBound(i - 1)
  }

  function SeriesSlope(u: real, m: nat): real { if m == 0 then 0.0 else -ExpSeries(u, m - 1) }

  function SeriesJet(u: real, d: real, m: nat): Jet { Jet(ExpSeries(u, m), ExpSeries(u + d, m), SeriesSlope(u, m)) }

  function SeriesBound(m: nat): (b: real)
    ensures b >= 1.0
  {
    TermBound(m) + if m == 0 then 0.0 else SeriesBound(m - 1)
  }

  /** The slope of each term of the series is minus the term before it. */
  lemma {:induction false} TermNear(u: real, d: real, i: nat)
    requires 0.0 <= u < u + d <= 5.0
    ensures Near(TermJet(u, d, i), d, TermBound(i))
  {
    hide Near, Times, SeriesTerm;
    if i == 0 {
      SeriesBase(u);
      SeriesBase(u + d);
      NearConstant(1.0, d);
    } else {
      TermNear(u, d, i - 1);
      var c := -1.0 / i as real;
      SmallFactor(i);
      NearLinear(c, u, d);
      NearProduct(Linear(c, u, d), 5.0, TermJet(u, d, i - 1), TermBound(i - 1), d);
      TermProduct(u, d, i);
      TimesUnits(0.0, 0.0, 0.0, TermBound(i - 1));
      assert Times(5.0, TermBound(i - 1)) == 5.0 * TermBound(i - 1) by { TimesFive(TermBound(i - 1)); }
    }
  }

  lemma TimesFive(b: real)
    ensures Times(5.0, b) == 5.0 * b
  {
  }

  lemma SmallFactor(i: nat)
    requires i > 0
    ensures Within(-1.0 / i as real, 1.0)
  {
  }

  lemma TermProduct(u: real, d: real, i: nat)
    requires i > 0
    ensures TermJet(u, d, i) == Product(Linear(-1.0 / i as real, u, d), TermJet(u, d, i - 1))
  {
    hide SeriesTerm;
    SeriesTermStep(u, i - 1);
    SeriesTermStep(u + d, i - 1);
    if i > 1 { SeriesTermStep(u, i - 2); } else { SeriesBase(u); }
    SlopeOfTerm(u, i as real, SeriesTerm(u, i - 1), if i > 1 then SeriesTerm(u, i - 2) else 0.0);
    FactorOfTerm(u, i as real);
    FactorOfTerm(u + d, i as real);
  }

  lemma FactorOfTerm(u: real, n: real)
    requires n > 0.0
    ensures Times(-1.0 / n, u) == -(u / n)
  {
  }

  lemma SlopeOfTerm(u: real, n: real, t: real, s: real)
    requires n >= 1.0 && (n > 1.0 ==> t == Times(-(u / (n - 1.0)), s)) && (n == 1.0 ==> s == 0.0)
    ensures Times(-1.0 / n, t) + Times(Times(-1.0 / n, u), -s) == -t
  {
    var q := 1.0 / n;
    assert q * n == 1.0;
    if n > 1.0 {
      var z := u / (n - 1.0);
      assert u == z * (n - 1.0);
      assert u * s == -(n - 1.0) * t;
    }
    assert -1.0 / n == -q;
    assert -q * t + q * (u * s) == -t;
  }

  lemma {:induction false} SeriesNear(u: real, d: real, m: nat)
    requires 0.0 <= u < u + d <= 5.0
    ensures Near(SeriesJet(u, d, m), d, SeriesBound(m))
  {
    hide Near, SeriesTerm;
    TermNear(u, d, m);
    if m == 0 {
      SeriesBase(u);
    } else {
      SeriesNear(u, d, m - 1);
      NearSum(TermJet(u, d, m), TermBound(m), SeriesJet(u, d, m - 1), SeriesBound(m - 1), d);
      assert SeriesJet(u, d, m) == Sum(TermJet(u, d, m), SeriesJet(u, d, m - 1));
    }
  }
}
