/** Polynomials written about another centre, and what their first coefficients then say nearby. */
module Recentring {
  import opened ExponentialSeries
  import opened Jets

  /** A polynomial by its coefficients, from the lowest order up. */
  datatype Poly = Zero | Term(first: real, rest: Poly)

  function Value(p: Poly, u: real): real {
    match p
    case Zero => 0.0
    case Term(a, q) => a + Times(u, Value(q, u))
  }

  /** The coefficients of a + (c + v) * q(v). */
  function Shifted(a: real, c: real, q: Poly): Poly
    decreases q
  {
    match q
    case Zero => Term(a, Zero)
    case Term(b, r) => Term(a + Times(c, b), Shifted(b, c, r))
  }

  /** The coefficients of p about c. */
  function Recentred(p: Poly, c: real): Poly {
    match p
    case Zero => Zero
    case Term(a, q) => Shifted(a, c, Recentred(q, c))
  }

  lemma {:induction false} ShiftedValue(a: real, c: real, q: Poly, v: real)
    ensures Value(Shifted(a, c, q), v) == a + Times(c + v, Value(q, v))
    decreases q
  {
    hide Times;
    TimesZero(v);
    TimesZero(c + v);
    match q
    case Zero =>
    case Term(b, r) =>
      ShiftedValue(b, c, r, v);
      ShiftAlgebra(c, v, b, Value(r, v));
  }

  lemma TimesZero(v: real)
    ensures Times(v, 0.0) == 0.0
  {
  }

  lemma ShiftAlgebra(c: real, v: real, x: real, y: real)
    ensures Times(c, x) + Times(v, x + Times(c + v, y)) == Times(c + v, x + Times(v, y))
  {
  }

  lemma {:induction false} RecentredValue(p: Poly, c: real, v: real)
    ensures Value(Recentred(p, c), v) == Value(p, c + v)
  {
    match p
    case Zero =>
    case Term(a, q) =>
      RecentredValue(q, c, v);
      ShiftedValue(a, c, Recentred(q, c), v);
  }

  /** The sizes of the coefficients, weighted by powers of h. */
  function Size(p: Poly, h: real): real {
    match p
    case Zero => 0.0
    case Term(a, q) => Absolute(a) + Times(h, Size(q, h))
  }

  lemma {:induction false} ValueWithinSize(p: Poly, v: real, h: real)
    requires Within(v, h)
    ensures Within(Value(p, v), Size(p, h))
  {
    hide Times;
    match p
    case Zero =>
    case Term(a, q) =>
      ValueWithinSize(q, v, h);
      WithinProduct(v, h, Value(q, v), Size(q, h));
  }

  /** Near the centre a polynomial stays above its tangent, less what the curvature and the higher orders can take. */
  lemma AboveTangent(a: real, b: real, c: real, p: Poly, v: real, h: real, curve: real)
    requires Within(v, h) && c >= -curve && 0.0 <= curve
    ensures Value(Term(a, Term(b, Term(c, p))), v)
            >= a + Times(b, v) - Times(curve, Times(h, h)) - Times(h, Times(h, Times(h, Size(p, h))))
  {
    hide Times, Size;
    var t := Value(p, v);
    assert Value(Term(c, p), v) == c + Times(v, t);
    assert Value(Term(b, Term(c, p)), v) == b + Times(v, c + Times(v, t));
    ValueWithinSize(p, v, h);
    CubicWithin(t, v, h, Size(p, h));
    CurveWithin(c, v, h, curve);
    Expanded(a, b, c, t, v);
  }

  lemma Expanded(a: real, b: real, c: real, t: real, v: real)
    ensures a + Times(v, b + Times(v, c + Times(v, t))) == a + Times(b, v) + Times(c, Times(v, v)) + Times(v, Times(v, Times(v, t)))
  {
    Distributed(c, Times(v, t), v);
    Distributed(b, Times(v, c + Times(v, t)), v);
    Distributed(Times(v, c), Times(v, Times(v, t)), v);
    assert Times(v, Times(v, c)) == Times(c, Times(v, v));
  }

  lemma CubicWithin(t: real, v: real, h: real, size: real)
    requires Within(t, size) && Within(v, h)
    ensures Within(Times(v, Times(v, Times(v, t))), Times(h, Times(h, Times(h, size))))
  {
    hide Times;
    WithinProduct(v, h, t, size);
    WithinProduct(v, h, Times(v, t), Times(h, size));
    WithinProduct(v, h, Times(v, Times(v, t)), Times(h, Times(h, size)));
  }

  lemma CurveWithin(c: real, v: real, h: real, curve: real)
    requires c >= -curve && 0.0 <= curve && Within(v, h)
    ensures Times(c, Times(v, v)) >= -Times(curve, Times(h, h))
  {
    WithinProduct(v, h, v, h);
    var w := v * v;
    assert 0.0 <= w <= h * h;
    MulBelow(-curve, c, w);
    MulBelow(w, h * h, curve);
  }

  lemma MulBelow(x: real, y: real, z: real)
    requires x <= y && 0.0 <= z
    ensures x * z <= y * z
  {
  }

  predicate NoNegative(p: Poly) {
    p.Term? ==> p.first >= 0.0 && NoNegative(p.rest)
  }

  lemma {:induction false} ValuePositive(p: Poly, v: real)
    requires NoNegative(p) && 0.0 <= v
    ensures Value(p, v) >= 0.0
  {
    if p.Term? {
      ValuePositive(p.rest, v);
      assert v * Value(p.rest, v) >= 0.0;
    }
  }

  lemma TangentBelow(a: real, b: real, p: Poly, v: real)
    requires NoNegative(p) && 0.0 <= v
    ensures Value(Term(a, Term(b, p)), v) >= a + b * v
  {
    ValuePositive(p, v);
    var t := Value(p, v);
    assert Value(Term(b, p), v) == b + Times(v, t);
    assert v * (v * t) >= 0.0 by { assert v * t >= 0.0; }
    assert v * (b + v * t) == b * v + v * (v * t);
  }
}
