/** The rational approximation of e^-x with the real coefficient tables. */
module ExpNeg {
  import opened Common
  import opened FixedPoint

  // The coefficients in Q.128, highest order first.
  const NUM: seq<int> := [
    -648770010757830093818553637600,
    67469480939593786226847644286976,
    -3197587544499098424029388939001856,
    89244641121992890118377641805348864,
    -1579656163641440567800982336819953664,
    17685496037279256458459817590917169152,
    -115682590513835356866803355398940131328,
    340282366920938463463374607431768211456
  ]

  const DEN: seq<int> := [
    1225524182432722209606361,
    114095592300906098243859450,
    5665570424063336070530214243,
    194450132448609991765137938448,
    5068267641632683791026134915072,
    104716890604972796896895427629056,
    1748338658439454459487681798864896,
    23704654329841312470660182937960448,
    259380097567996910282699886670381056,
    2250336698853390384720606936038375424,
    14978272436876548034486263159246028800,
    72144088983913131323343765784380833792,
    224599776407103106596571252037123047424,
    340282366920938463463374607431768211456
  ]

  // Scaled to Q.256.
  const EXP_NUM_COEF: seq<int> := [
    NUM[0] * TWO_128, NUM[1] * TWO_128, NUM[2] * TWO_128, NUM[3] * TWO_128,
    NUM[4] * TWO_128, NUM[5] * TWO_128, NUM[6] * TWO_128, NUM[7] * TWO_128
  ]

  const EXP_DENO_COEF: seq<int> := [
    DEN[0] * TWO_128, DEN[1] * TWO_128, DEN[2] * TWO_128, DEN[3] * TWO_128, DEN[4] * TWO_128,
    DEN[5] * TWO_128, DEN[6] * TWO_128, DEN[7] * TWO_128, DEN[8] * TWO_128, DEN[9] * TWO_128,
    DEN[10] * TWO_128, DEN[11] * TWO_128, DEN[12] * TWO_128, DEN[13] * TWO_128
  ]

  const NUM_DEGREE: nat := 7
  const DENO_DEGREE: nat := 13

  function Numerator(x: int): int {
    Horner(EXP_NUM_COEF, x, NUM_DEGREE)
  }

  function Denominator(x: int): int {
    Horner(EXP_DENO_COEF, x, DENO_DEGREE)
  }

  lemma DenominatorAtLeastOne(x: int)
    requires 0 <= x
    ensures Denominator(x) >= ONE
  {
    HornerAtLeastConstant(EXP_DENO_COEF, x, DENO_DEGREE);
  }

  function Expneg(x: int): int
    requires 0 <= x
  {
    DenominatorAtLeastOne(x);
    LshDiv(PRECISION, Numerator(x), Denominator(x))
  }

  lemma ExpnegUnfolded(x: int)
    requires 0 <= x
    ensures Denominator(x) > 0 && Expneg(x) == Numerator(x) * ONE / Denominator(x)
  {
    hide Numerator, Denominator;
    DenominatorAtLeastOne(x);
    LshDiv256(Numerator(x), Denominator(x));
  }

  /** None stands for the panic of a division by zero, which no x >= 0 can cause. */
  method ComputeExpneg(x: int) returns (r: Option<int>)
    ensures r.None? <==> Denominator(x) == 0
    ensures r.Some? ==> r.value == Numerator(x) * ONE / Denominator(x)
    ensures 0 <= x ==> r == Some(Expneg(x))
  {
    hide Horner, Expneg;
    if 0 <= x { ExpnegUnfolded(x); }
    var num := Polyval(EXP_NUM_COEF, x);
    var deno := Polyval(EXP_DENO_COEF, x);
    num := num * ONE;
    if deno == 0 { return None; }
    r := Some(num / deno);
  }

  lemma NumeratorHornerRange()
    ensures ONE / 4 < HornerRange(EXP_NUM_COEF, NUM_DEGREE).lo
    ensures HornerRange(EXP_NUM_COEF, NUM_DEGREE).hi <= ONE
  {
    var p := EXP_NUM_COEF;
    assert HornerRange(p, 1) == StepRange(HornerRange(p, 0), p[1]);
    assert HornerRange(p, 2) == StepRange(HornerRange(p, 1), p[2]);
    assert HornerRange(p, 3) == StepRange(HornerRange(p, 2), p[3]);
    assert HornerRange(p, 4) == StepRange(HornerRange(p, 3), p[4]);
    assert HornerRange(p, 5) == StepRange(HornerRange(p, 4), p[5]);
    assert HornerRange(p, 6) == StepRange(HornerRange(p, 5), p[6]);
    assert HornerRange(p, 7) == StepRange(HornerRange(p, 6), p[7]);
  }

  lemma DenominatorHornerRange()
    ensures HornerRange(EXP_DENO_COEF, DENO_DEGREE).hi < 4 * ONE
  {
    var p := EXP_DENO_COEF;
    assert HornerRange(p, 1) == StepRange(HornerRange(p, 0), p[1]);
    assert HornerRange(p, 2) == StepRange(HornerRange(p, 1), p[2]);
    assert HornerRange(p, 3) == StepRange(HornerRange(p, 2), p[3]);
    assert HornerRange(p, 4) == StepRange(HornerRange(p, 3), p[4]);
    assert HornerRange(p, 5) == StepRange(HornerRange(p, 4), p[5]);
    assert HornerRange(p, 6) == StepRange(HornerRange(p, 5), p[6]);
    assert HornerRange(p, 7) == StepRange(HornerRange(p, 6), p[7]);
    assert HornerRange(p, 8) == StepRange(HornerRange(p, 7), p[8]);
    assert HornerRange(p, 9) == StepRange(HornerRange(p, 8), p[9]);
    assert HornerRange(p, 10) == StepRange(HornerRange(p, 9), p[10]);
    assert HornerRange(p, 11) == StepRange(HornerRange(p, 10), p[11]);
    assert HornerRange(p, 12) == StepRange(HornerRange(p, 11), p[12]);
    assert HornerRange(p, 13) == StepRange(HornerRange(p, 12), p[13]);
  }

  lemma QuotientRange(n: int, d: int, one: int)
    requires 4 <= n <= one <= d < 4 * one
    ensures 0 < n * one / d <= one
  {
    MulMono(n, d, one);
    DivAtMost(n * one, d, one);
    MulMono(4, n, one);
    DivAtLeast(n * one, d, 1);
  }

  /** For every lambda the election can produce, the approximated probability stays in (0, 1]. */
  lemma ExpnegRange(x: int)
    requires 0 <= x <= 2 * ONE
    ensures 0 < Expneg(x) <= ONE
  {
    hide Horner, Expneg;
    ExpnegUnfolded(x);
    NumeratorHornerRange();
    HornerInRange(EXP_NUM_COEF, x, NUM_DEGREE);
    DenominatorHornerRange();
    HornerInRange(EXP_DENO_COEF, x, DENO_DEGREE);
    DenominatorAtLeastOne(x);
    QuotientRange(Numerator(x), Denominator(x), ONE);
  }

  lemma ExpnegAtZero()
    ensures Expneg(0) == ONE
  {
    hide Horner, Expneg;
    ExpnegUnfolded(0);
    HornerAtZero(EXP_NUM_COEF, NUM_DEGREE);
    HornerAtZero(EXP_DENO_COEF, DENO_DEGREE);
  }
}
