/** Partial sums of the exponential series of e^-u. */
module ExponentialSeries {
  import opened FixedPoint
  import opened Poisson

  /** u^i / i! */
  function Magnitude(u: real, i: nat): real {
    FactorialPositive(i);
    Ratio(1.0, Pow(u, i), Factorial(i) as real)
  }

  /** (-1)^i * u^i / i! */
  function SeriesTerm(u: real, i: nat): real {
    if i % 2 == 0 then Magnitude(u, i) else -Magnitude(u, i)
  }

  function ExpSeries(u: real, m: nat): real {
    SeriesTerm(u, m) + if m == 0 then 0.0 else ExpSeries(u, m - 1)
  }

  function TailStep(q: real, r: real): real { 1.0 - q * r }

  /** The terms i, .., m of the series divided by term i: 1 - u/(i+1) * (1 - u/(i+2) * ( .. )). */
  function SeriesTail(u: real, i: nat, m: nat): real
    decreases m - i
  {
    if i >= m then 1.0 else TailStep(u / (i + 1) as real, SeriesTail(u, i + 1, m))
  }

  function Times(a: real, b: real): real { a * b }

  lemma MagnitudeStep(u: real, i: nat)
    ensures Magnitude(u, i + 1) == Times(u / (i + 1) as real, Magnitude(u, i))
  {
    FactorialPositive(i);
    FactorialPositive(i + 1);
    assert Factorial(i + 1) as real == (i + 1) as real * Factorial(i) as real;
    QuotientStep(1.0, Pow(u, i), u, (i + 1) as real, Factorial(i) as real, Pow(u, i + 1), Factorial(i + 1) as real);
    SwapFactor(Magnitude(u, i), u, (i + 1) as real);
  }

  lemma SwapFactor(r: real, u: real, n: real)
    requires n > 0.0
    ensures r / n * u == Times(u / n, r)
  {
  }

  lemma TimesSigns(a: real, b: real)
    ensures Times(-a, b) == -Times(a, b) && Times(-a, -b) == Times(a, b)
  {
  }

  lemma SeriesTermStep(u: real, i: nat)
    ensures SeriesTerm(u, i + 1) == Times(-(u / (i + 1) as real), SeriesTerm(u, i))
  {
    hide Magnitude, Times;
    MagnitudeStep(u, i);
    TimesSigns(u / (i + 1) as real, Magnitude(u, i));
  }

  lemma UnfoldSeries(u: real, i: nat)
    requires 1 <= i
    ensures ExpSeries(u, i) == ExpSeries(u, i - 1) + SeriesTerm(u, i)
  {
  }

  lemma UnfoldTail(u: real, i: nat, m: nat)
    requires i < m
    ensures SeriesTail(u, i, m) == TailStep(u / (i + 1) as real, SeriesTail(u, i + 1, m))
  {
  }

  lemma Regroup(s: real, s1: real, s0: real, t: real, t1: real, q: real, r: real)
    requires s == s1 + Times(t1, r) && s1 == s0 + t && t1 == Times(-q, t)
    ensures s == s0 + Times(t, TailStep(q, r))
  {
  }

  /** The partial sum of order m, cut before term i. */
  lemma {:induction false} SeriesSplit(u: real, i: nat, m: nat)
    requires 1 <= i <= m
    ensures ExpSeries(u, m) == ExpSeries(u, i - 1) + Times(SeriesTerm(u, i), SeriesTail(u, i, m))
    decreases m - i
  {
    if i < m {
      hide *;
      SeriesSplit(u, i + 1, m);
      SeriesTermStep(u, i);
      UnfoldSeries(u, i);
      UnfoldTail(u, i, m);
      Regroup(ExpSeries(u, m), ExpSeries(u, i), ExpSeries(u, i - 1), SeriesTerm(u, i), SeriesTerm(u, i + 1),
              u / (i + 1) as real, SeriesTail(u, i + 1, m));
    } else {
      TimesOne(SeriesTerm(u, i));
    }
  }

  lemma SeriesBase(u: real)
    ensures ExpSeries(u, 0) == SeriesTerm(u, 0) == 1.0 && SeriesTail(u, 0, 0) == 1.0
  {
    assert Pow(u, 0) == 1.0;
  }

  lemma TimesOne(r: real)
    ensures Times(1.0, r) == r
  {
  }

  lemma SeriesAsTail(u: real, m: nat)
    ensures ExpSeries(u, m) == SeriesTail(u, 0, m)
  {
    hide *;
    SeriesBase(u);
    if m > 0 {
      SeriesSplit(u, 1, m);
      SeriesTermStep(u, 0);
      UnfoldTail(u, 0, m);
      Regroup(ExpSeries(u, m), ExpSeries(u, 0), 0.0, 1.0, SeriesTerm(u, 1), u / 1 as real, SeriesTail(u, 1, m));
      TimesOne(SeriesTail(u, 0, m));
    }
  }

  lemma {:induction false} SeriesTailRange(u: real, i: nat, m: nat)
    requires 0.0 <= u <= (i + 1) as real
    ensures 0.0 <= SeriesTail(u, i, m) <= 1.0
    decreases m - i
  {
    if i < m {
      SeriesTailRange(u, i + 1, m);
      DivMono(0.0, u, (i + 1) as real);
      DivMono(u, (i + 1) as real, (i + 1) as real);
      MulBounds(u / (i + 1) as real, SeriesTail(u, i + 1, m), 1.0, 1.0);
    }
  }
}
