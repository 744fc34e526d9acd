/** Where the error grows: the trend is minus a square, up to a remainder of degree 9. */
module ErrorTrend {
  import opened FixedPoint
  import opened ExpNeg
  import opened ExponentialSeries
  import opened Jets
  import opened Decay

  // ----- the slopes of numerator and denominator -----

  const NUM_SLOPE: seq<int> := [
    -4541390075304810656729875463200,
    404816885637562717361085865721856,
    -15987937722495492120146944695009280,
    356978564487971560473510567221395456,
    -4738968490924321703402947010459860992,
    35370992074558512916919635181834338304,
    -115682590513835356866803355398940131328
  ]

  const DEN_SLOPE: seq<int> := [
    15931814371625388724882693,
    1369147107610873178926313400,
    62321274664696696775832356673,
    1944501324486099917651379384480,
    45614408774694154119235214235648,
    837735124839782375175163421032448,
    12238370609076181216413772592054272,
    142227925979047874823961097627762688,
    1296900487839984551413499433351905280,
    9001346795413561538882427744153501696,
    44934817310629644103458789477738086400,
    144288177967826262646687531568761667584,
    224599776407103106596571252037123047424
  ]

  lemma TopSlopeIs(u: real)
    ensures TopSlope(u) == PolyExact(NUM_SLOPE, u, 6)
  {
    SlopeIsDerivative(NUM, u, 7);
    assert Derived(NUM, 7) == NUM_SLOPE;
  }

  lemma BottomSlopeIs(u: real)
    ensures BottomSlope(u) == PolyExact(DEN_SLOPE, u, 12)
  {
    SlopeIsDerivative(DEN, u, 13);
    assert Derived(DEN, 13) == DEN_SLOPE;
  }

  // ----- the square root of the leading half of the trend, in units of 10^-19 -----

  const ROOT: seq<int> := [
    10000000000000000000,
    -84482853681969953070,
    304019232965801590175,
    -607675702660364520945,
    737545924041305687013,
    -558111883563428991383,
    260127269438511025680,
    -71034572638186738623,
    10227862968375077724,
    -623012198574066338,
    8832418236177460
  ]

  function Root(u: real): real { PolyExact(ROOT, u, 10) }

  // What the square leaves, in units of 2^256 * 10^-35.
  const REST_COEF: seq<int> := [
    -373577,
    539378,
    6288629,
    -26822480,
    47378651,
    -45317352,
    24922136,
    -7636340,
    1730968,
    726513
  ]

  function Rest(u: real): real { PolyExact(REST_COEF, u, 9) / 100000.0 }

  // ----- the tables, as sums over given powers -----

  function NumSum(q0: real, q1: real, q2: real, q3: real, q4: real, q5: real, q6: real, q7: real): real {
    340282366920938463463374607431768211456.0 * q0 - 115682590513835356866803355398940131328.0 * q1
    + 17685496037279256458459817590917169152.0 * q2 - 1579656163641440567800982336819953664.0 * q3
    + 89244641121992890118377641805348864.0 * q4 - 3197587544499098424029388939001856.0 * q5
    + 67469480939593786226847644286976.0 * q6 - 648770010757830093818553637600.0 * q7
  }

  function NumSlopeSum(q0: real, q1: real, q2: real, q3: real, q4: real, q5: real, q6: real): real {
    -115682590513835356866803355398940131328.0 * q0 + 35370992074558512916919635181834338304.0 * q1
    - 4738968490924321703402947010459860992.0 * q2 + 356978564487971560473510567221395456.0 * q3
    - 15987937722495492120146944695009280.0 * q4 + 404816885637562717361085865721856.0 * q5
    - 4541390075304810656729875463200.0 * q6
  }

  function DenSum(q0: real, q1: real, q2: real, q3: real, q4: real, q5: real, q6: real, q7: real, q8: real, q9: real,
                  q10: real, q11: real, q12: real, q13: real): real {
    340282366920938463463374607431768211456.0 * q0 + 224599776407103106596571252037123047424.0 * q1
    + 72144088983913131323343765784380833792.0 * q2 + 14978272436876548034486263159246028800.0 * q3
    + 2250336698853390384720606936038375424.0 * q4 + 259380097567996910282699886670381056.0 * q5
    + 23704654329841312470660182937960448.0 * q6 + 1748338658439454459487681798864896.0 * q7
    + 104716890604972796896895427629056.0 * q8 + 5068267641632683791026134915072.0 * q9
    + 194450132448609991765137938448.0 * q10 + 5665570424063336070530214243.0 * q11
    + 114095592300906098243859450.0 * q12 + 1225524182432722209606361.0 * q13
  }

  function DenSlopeSum(q0: real, q1: real, q2: real, q3: real, q4: real, q5: real, q6: real, q7: real, q8: real,
                       q9: real, q10: real, q11: real, q12: real): real {
    224599776407103106596571252037123047424.0 * q0 + 144288177967826262646687531568761667584.0 * q1
    + 44934817310629644103458789477738086400.0 * q2 + 9001346795413561538882427744153501696.0 * q3
    + 1296900487839984551413499433351905280.0 * q4 + 142227925979047874823961097627762688.0 * q5
    + 12238370609076181216413772592054272.0 * q6 + 837735124839782375175163421032448.0 * q7
    + 45614408774694154119235214235648.0 * q8 + 1944501324486099917651379384480.0 * q9
    + 62321274664696696775832356673.0 * q10 + 1369147107610873178926313400.0 * q11
    + 15931814371625388724882693.0 * q12
  }

  function RootSum(q0: real, q1: real, q2: real, q3: real, q4: real, q5: real, q6: real, q7: real, q8: real, q9: real,
                   q10: real): real {
    8832418236177460.0 * q0 - 623012198574066338.0 * q1 + 10227862968375077724.0 * q2 - 71034572638186738623.0 * q3
    + 260127269438511025680.0 * q4 - 558111883563428991383.0 * q5 + 737545924041305687013.0 * q6
    - 607675702660364520945.0 * q7 + 304019232965801590175.0 * q8 - 84482853681969953070.0 * q9
    + 10000000000000000000.0 * q10
  }

  // ----- sums of powers, term by term -----

  function Powers(u: real): seq<real> { seq(21, i requires 0 <= i <= 20 => Pow(u, i)) }

  /** A sum of powers, with the powers given: p[0] * w[n] + .. + p[k] * w[n - k]. */
  function Dot(p: seq<int>, w: seq<real>, n: nat, k: nat): real
    requires k <= n < |w| && k < |p|
  {
    p[k] as real * w[n - k] + if k == 0 then 0.0 else Dot(p, w, n, k - 1)
  }

  lemma PowersAre(u: real)
    ensures |Powers(u)| == 21 && forall k :: 0 <= k <= 20 ==> Powers(u)[k] == Pow(u, k)
  {
  }

  lemma {:induction false} SumIsDot(p: seq<int>, u: real, n: nat, k: nat)
    requires k <= n <= 20 && k < |p|
    ensures PowerSum(p, u, n, k) == Dot(p, Powers(u), n, k)
  {
    hide Pow;
    if k > 0 { SumIsDot(p, u, n, k - 1); }
  }

  lemma PowTimesDot(p: seq<int>, u: real, n: nat, i: nat)
    requires n < |p| && n + i <= 20
    ensures Times(Pow(u, i), PolyExact(p, u, n)) == Dot(p, Powers(u), n + i, n)
  {
    hide Pow, PowerSum, Times, Dot, Powers;
    PowTimes(p, u, n, i);
    SumIsDot(p, u, n + i, n);
  }

  lemma DotStep(p: seq<int>, w: seq<real>, n: nat, k: nat, c: int)
    requires k <= n < |w| && k < |p| && p[k] == c
    ensures Dot(p, w, n, k) == c as real * w[n - k] + if k == 0 then 0.0 else Dot(p, w, n, k - 1)
  {
  }

  lemma NumExpanded(w: seq<real>, n: nat)
    requires 7 <= n < |w|
    ensures Dot(NUM, w, n, 7) ==
            NumSum(w[n - 7], w[n - 6], w[n - 5], w[n - 4], w[n - 3], w[n - 2], w[n - 1], w[n])
  {
    hide Dot;
    DotStep(NUM, w, n, 0, -648770010757830093818553637600);
    DotStep(NUM, w, n, 1, 67469480939593786226847644286976);
    DotStep(NUM, w, n, 2, -3197587544499098424029388939001856);
    DotStep(NUM, w, n, 3, 89244641121992890118377641805348864);
    DotStep(NUM, w, n, 4, -1579656163641440567800982336819953664);
    DotStep(NUM, w, n, 5, 17685496037279256458459817590917169152);
    DotStep(NUM, w, n, 6, -115682590513835356866803355398940131328);
    DotStep(NUM, w, n, 7, 340282366920938463463374607431768211456);
  }

  lemma NumSlopeExpanded(w: seq<real>, n: nat)
    requires 6 <= n < |w|
    ensures Dot(NUM_SLOPE, w, n, 6) ==
            NumSlopeSum(w[n - 6], w[n - 5], w[n - 4], w[n - 3], w[n - 2], w[n - 1], w[n])
  {
    hide Dot;
    DotStep(NUM_SLOPE, w, n, 0, -4541390075304810656729875463200);
    DotStep(NUM_SLOPE, w, n, 1, 404816885637562717361085865721856);
    DotStep(NUM_SLOPE, w, n, 2, -15987937722495492120146944695009280);
    DotStep(NUM_SLOPE, w, n, 3, 356978564487971560473510567221395456);
    DotStep(NUM_SLOPE, w, n, 4, -4738968490924321703402947010459860992);
    DotStep(NUM_SLOPE, w, n, 5, 35370992074558512916919635181834338304);
    DotStep(NUM_SLOPE, w, n, 6, -115682590513835356866803355398940131328);
  }

  lemma DenExpanded(w: seq<real>, n: nat)
    requires 13 <= n < |w|
    ensures Dot(DEN, w, n, 13) ==
            DenSum(w[n - 13], w[n - 12], w[n - 11], w[n - 10], w[n - 9], w[n - 8], w[n - 7], w[n - 6], w[n - 5],
                   w[n - 4], w[n - 3], w[n - 2], w[n - 1], w[n])
  {
    hide Dot;
    DotStep(DEN, w, n, 0, 1225524182432722209606361);
    DotStep(DEN, w, n, 1, 114095592300906098243859450);
    DotStep(DEN, w, n, 2, 5665570424063336070530214243);
    DotStep(DEN, w, n, 3, 194450132448609991765137938448);
    DotStep(DEN, w, n, 4, 5068267641632683791026134915072);
    DotStep(DEN, w, n, 5, 104716890604972796896895427629056);
    DotStep(DEN, w, n, 6, 1748338658439454459487681798864896);
    DotStep(DEN, w, n, 7, 23704654329841312470660182937960448);
    DotStep(DEN, w, n, 8, 259380097567996910282699886670381056);
    DotStep(DEN, w, n, 9, 2250336698853390384720606936038375424);
    DotStep(DEN, w, n, 10, 14978272436876548034486263159246028800);
    DotStep(DEN, w, n, 11, 72144088983913131323343765784380833792);
    DotStep(DEN, w, n, 12, 224599776407103106596571252037123047424);
    DotStep(DEN, w, n, 13, 340282366920938463463374607431768211456);
  }

  lemma DenSlopeExpanded(w: seq<real>, n: nat)
    requires 12 <= n < |w|
    ensures Dot(DEN_SLOPE, w, n, 12) ==
            DenSlopeSum(w[n - 12], w[n - 11], w[n - 10], w[n - 9], w[n - 8], w[n - 7], w[n - 6], w[n - 5], w[n - 4],
                        w[n - 3], w[n - 2], w[n - 1], w[n])
  {
    hide Dot;
    DotStep(DEN_SLOPE, w, n, 0, 15931814371625388724882693);
    DotStep(DEN_SLOPE, w, n, 1, 1369147107610873178926313400);
    DotStep(DEN_SLOPE, w, n, 2, 62321274664696696775832356673);
    DotStep(DEN_SLOPE, w, n, 3, 1944501324486099917651379384480);
    DotStep(DEN_SLOPE, w, n, 4, 45614408774694154119235214235648);
    DotStep(DEN_SLOPE, w, n, 5, 837735124839782375175163421032448);
    DotStep(DEN_SLOPE, w, n, 6, 12238370609076181216413772592054272);
    DotStep(DEN_SLOPE, w, n, 7, 142227925979047874823961097627762688);
    DotStep(DEN_SLOPE, w, n, 8, 1296900487839984551413499433351905280);
    DotStep(DEN_SLOPE, w, n, 9, 9001346795413561538882427744153501696);
    DotStep(DEN_SLOPE, w, n, 10, 44934817310629644103458789477738086400);
    DotStep(DEN_SLOPE, w, n, 11, 144288177967826262646687531568761667584);
    DotStep(DEN_SLOPE, w, n, 12, 224599776407103106596571252037123047424);
  }

  lemma RootExpanded(w: seq<real>, n: nat)
    requires 10 <= n < |w|
    ensures Dot(ROOT, w, n, 10) ==
            RootSum(w[n - 10], w[n - 9], w[n - 8], w[n - 7], w[n - 6], w[n - 5], w[n - 4], w[n - 3], w[n - 2],
                    w[n - 1], w[n])
  {
    hide Dot;
    DotStep(ROOT, w, n, 0, 10000000000000000000);
    DotStep(ROOT, w, n, 1, -84482853681969953070);
    DotStep(ROOT, w, n, 2, 304019232965801590175);
    DotStep(ROOT, w, n, 3, -607675702660364520945);
    DotStep(ROOT, w, n, 4, 737545924041305687013);
    DotStep(ROOT, w, n, 5, -558111883563428991383);
    DotStep(ROOT, w, n, 6, 260127269438511025680);
    DotStep(ROOT, w, n, 7, -71034572638186738623);
    DotStep(ROOT, w, n, 8, 10227862968375077724);
    DotStep(ROOT, w, n, 9, -623012198574066338);
    DotStep(ROOT, w, n, 10, 8832418236177460);
  }

  lemma RestExpanded(w: seq<real>, n: nat)
    requires 9 <= n < |w|
    ensures Dot(REST_COEF, w, n, 9) ==
            -373577.0 * w[n] + 539378.0 * w[n - 1] + 6288629.0 * w[n - 2] - 26822480.0 * w[n - 3]
            + 47378651.0 * w[n - 4] - 45317352.0 * w[n - 5] + 24922136.0 * w[n - 6] - 7636340.0 * w[n - 7]
            + 1730968.0 * w[n - 8] + 726513.0 * w[n - 9]
  {
    hide Dot;
    DotStep(REST_COEF, w, n, 0, -373577);
    DotStep(REST_COEF, w, n, 1, 539378);
    DotStep(REST_COEF, w, n, 2, 6288629);
    DotStep(REST_COEF, w, n, 3, -26822480);
    DotStep(REST_COEF, w, n, 4, 47378651);
    DotStep(REST_COEF, w, n, 5, -45317352);
    DotStep(REST_COEF, w, n, 6, 24922136);
    DotStep(REST_COEF, w, n, 7, -7636340);
    DotStep(REST_COEF, w, n, 8, 1730968);
    DotStep(REST_COEF, w, n, 9, 726513);
  }

  lemma RestSum(u: real)
    ensures Rest(u) ==
            7.26513 * Pow(u, 0) + 17.30968 * Pow(u, 1) - 76.3634 * Pow(u, 2) + 249.22136 * Pow(u, 3)
            - 453.17352 * Pow(u, 4) + 473.78651 * Pow(u, 5) - 268.2248 * Pow(u, 6) + 62.88629 * Pow(u, 7)
            + 5.39378 * Pow(u, 8) - 3.73577 * Pow(u, 9)
  {
    hide Pow, PowerSum, Dot, Powers;
    var w := Powers(u);
    PowersAre(u);
    SumIsDot(REST_COEF, u, 9, 9);
    RestExpanded(w, 9);
  }

  // ----- products -----

  lemma NumTimes(q0: real, q1: real, q2: real, q3: real, q4: real, q5: real, q6: real, q7: real, x: real)
    ensures Times(NumSum(q0, q1, q2, q3, q4, q5, q6, q7), x) ==
            NumSum(Times(q0, x), Times(q1, x), Times(q2, x), Times(q3, x), Times(q4, x), Times(q5, x), Times(q6, x),
                   Times(q7, x))
  {
  }

  lemma NumSlopeTimes(q0: real, q1: real, q2: real, q3: real, q4: real, q5: real, q6: real, x: real)
    ensures Times(NumSlopeSum(q0, q1, q2, q3, q4, q5, q6), x) ==
            NumSlopeSum(Times(q0, x), Times(q1, x), Times(q2, x), Times(q3, x), Times(q4, x), Times(q5, x),
                        Times(q6, x))
  {
  }

  lemma RootTimes(q0: real, q1: real, q2: real, q3: real, q4: real, q5: real, q6: real, q7: real, q8: real, q9: real,
                  q10: real, x: real)
    ensures Times(RootSum(q0, q1, q2, q3, q4, q5, q6, q7, q8, q9, q10), x) ==
            RootSum(Times(q0, x), Times(q1, x), Times(q2, x), Times(q3, x), Times(q4, x), Times(q5, x), Times(q6, x),
                    Times(q7, x), Times(q8, x), Times(q9, x), Times(q10, x))
  {
  }

  lemma DenRow(u: real, i: nat)
    requires 13 + i <= 20
    ensures Times(Pow(u, i), PolyExact(DEN, u, 13)) ==
            DenSum(Pow(u, i), Pow(u, i + 1), Pow(u, i + 2), Pow(u, i + 3), Pow(u, i + 4), Pow(u, i + 5),
                   Pow(u, i + 6), Pow(u, i + 7), Pow(u, i + 8), Pow(u, i + 9), Pow(u, i + 10), Pow(u, i + 11),
                   Pow(u, i + 12), Pow(u, i + 13))
  {
    hide Pow, PowerSum, Times, PolySlope, Dot, Powers, DenSum;
    PowersAre(u);
    PowTimesDot(DEN, u, 13, i);
    DenExpanded(Powers(u), 13 + i);
  }

  lemma DenSlopeRow(u: real, i: nat)
    requires 12 + i <= 20
    ensures Times(Pow(u, i), PolyExact(DEN_SLOPE, u, 12)) ==
            DenSlopeSum(Pow(u, i), Pow(u, i + 1), Pow(u, i + 2), Pow(u, i + 3), Pow(u, i + 4), Pow(u, i + 5),
                        Pow(u, i + 6), Pow(u, i + 7), Pow(u, i + 8), Pow(u, i + 9), Pow(u, i + 10), Pow(u, i + 11), Pow(u, i + 12))
  {
    hide Pow, PowerSum, Times, PolySlope, Dot, Powers, DenSlopeSum;
    PowersAre(u);
    PowTimesDot(DEN_SLOPE, u, 12, i);
    DenSlopeExpanded(Powers(u), 12 + i);
  }

  lemma RootRow(u: real, i: nat)
    requires 10 + i <= 20
    ensures Times(Pow(u, i), Root(u)) ==
            RootSum(Pow(u, i), Pow(u, i + 1), Pow(u, i + 2), Pow(u, i + 3), Pow(u, i + 4), Pow(u, i + 5),
                    Pow(u, i + 6), Pow(u, i + 7), Pow(u, i + 8), Pow(u, i + 9), Pow(u, i + 10))
  {
    hide Pow, PowerSum, Times, PolySlope, Dot, Powers, RootSum;
    PowersAre(u);
    PowTimesDot(ROOT, u, 10, i);
    RootExpanded(Powers(u), 10 + i);
  }

  function TopBottomSum(q0: real, q1: real, q2: real, q3: real, q4: real, q5: real, q6: real, q7: real, q8: real,
                        q9: real, q10: real, q11: real, q12: real, q13: real, q14: real, q15: real, q16: real, q17: real, q18: real,
                        q19: real, q20: real): real {
    NumSum(
      DenSum(q0, q1, q2, q3, q4, q5, q6, q7, q8, q9, q10, q11, q12, q13),
      DenSum(q1, q2, q3, q4, q5, q6, q7, q8, q9, q10, q11, q12, q13, q14),
      DenSum(q2, q3, q4, q5, q6, q7, q8, q9, q10, q11, q12, q13, q14, q15),
      DenSum(q3, q4, q5, q6, q7, q8, q9, q10, q11, q12, q13, q14, q15, q16),
      DenSum(q4, q5, q6, q7, q8, q9, q10, q11, q12, q13, q14, q15, q16, q17),
      DenSum(q5, q6, q7, q8, q9, q10, q11, q12, q13, q14, q15, q16, q17, q18),
      DenSum(q6, q7, q8, q9, q10, q11, q12, q13, q14, q15, q16, q17, q18, q19),
      DenSum(q7, q8, q9, q10, q11, q12, q13, q14, q15, q16, q17, q18, q19, q20))
  }

  function SlopeBottomSum(q0: real, q1: real, q2: real, q3: real, q4: real, q5: real, q6: real, q7: real, q8: real,
                          q9: real, q10: real, q11: real, q12: real, q13: real, q14: real, q15: real, q16: real, q17: real, q18: real,
                          q19: real): real {
    NumSlopeSum(
      DenSum(q0, q1, q2, q3, q4, q5, q6, q7, q8, q9, q10, q11, q12, q13),
      DenSum(q1, q2, q3, q4, q5, q6, q7, q8, q9, q10, q11, q12, q13, q14),
      DenSum(q2, q3, q4, q5, q6, q7, q8, q9, q10, q11, q12, q13, q14, q15),
      DenSum(q3, q4, q5, q6, q7, q8, q9, q10, q11, q12, q13, q14, q15, q16),
      DenSum(q4, q5, q6, q7, q8, q9, q10, q11, q12, q13, q14, q15, q16, q17),
      DenSum(q5, q6, q7, q8, q9, q10, q11, q12, q13, q14, q15, q16, q17, q18),
      DenSum(q6, q7, q8, q9, q10, q11, q12, q13, q14, q15, q16, q17, q18, q19))
  }

  function TopSlopeOfBottomSum(q0: real, q1: real, q2: real, q3: real, q4: real, q5: real, q6: real, q7: real, q8: real,
                               q9: real, q10: real, q11: real, q12: real, q13: real, q14: real, q15: real, q16: real, q17: real, q18: real,
                               q19: real): real {
    NumSum(
      DenSlopeSum(q0, q1, q2, q3, q4, q5, q6, q7, q8, q9, q10, q11, q12),
      DenSlopeSum(q1, q2, q3, q4, q5, q6, q7, q8, q9, q10, q11, q12, q13),
      DenSlopeSum(q2, q3, q4, q5, q6, q7, q8, q9, q10, q11, q12, q13, q14),
      DenSlopeSum(q3, q4, q5, q6, q7, q8, q9, q10, q11, q12, q13, q14, q15),
      DenSlopeSum(q4, q5, q6, q7, q8, q9, q10, q11, q12, q13, q14, q15, q16),
      DenSlopeSum(q5, q6, q7, q8, q9, q10, q11, q12, q13, q14, q15, q16, q17),
      DenSlopeSum(q6, q7, q8, q9, q10, q11, q12, q13, q14, q15, q16, q17, q18),
      DenSlopeSum(q7, q8, q9, q10, q11, q12, q13, q14, q15, q16, q17, q18, q19))
  }

  function TrendTerms(q0: real, q1: real, q2: real, q3: real, q4: real, q5: real, q6: real, q7: real, q8: real,
                      q9: real, q10: real, q11: real, q12: real, q13: real, q14: real, q15: real, q16: real, q17: real, q18: real,
                      q19: real, q20: real): real {
    -1461501637330902918203684832716283019655932542976.0 * q0
    + 85497845783857820714915562713902556649872053764096.0 * q1
    - 4513732683281802433588687513463563442652188703195136.0 * q2
    + 111274706616843303655833510054461385469933232351870976.0 * q3
    - 1571947318103809109914361955802701336603166109857742848.0 * q4
    + 14208463063357176393509836819165627633100867791654748160.0 * q5
    - 88059044627770045496502723154913334474048837446512148480.0 * q6
    + 391994979160801541652553641554824967698793344562544771072.0 * q7
    - 1294445453947553911494471371021862298905402904955842461696.0 * q8
    + 3243570421346361831872153165049656776585131356701830676480.0 * q9
    - 6264118417239995333899335869071974933296258375456934330368.0 * q10
    + 9416527387690917196108251887093614125347069165525083881472.0 * q11
    - 11072731289365708334185761418522797944964617176168284553216.0 * q12
    + 10185846408182097022817629403314596202374700244505087442944.0 * q13
    - 7292745805303884825252727001670432700801327456788688797696.0 * q14
    + 4017336726307470538686682807441675855536622951876382818304.0 * q15
    - 1668521878040522701224164277543686943440255513597823383040.0 * q16
    + 505055531112693583673817898933083057457068595948852995200.0 * q17
    - 105092026211671788616849146595979127625392639220555999968.0 * q18
    + 13434181845301112077127436257931676032064091190736375936.0 * q19
    - 795083337020858118403437037879834831965169460648773600.0 * q20
  }

  lemma TrendSum(q0: real, q1: real, q2: real, q3: real, q4: real, q5: real, q6: real, q7: real, q8: real, q9: real,
                 q10: real, q11: real, q12: real, q13: real, q14: real, q15: real, q16: real, q17: real, q18: real, q19: real,
                 q20: real)
    ensures TopBottomSum(q0, q1, q2, q3, q4, q5, q6, q7, q8, q9, q10, q11, q12, q13, q14, q15, q16, q17, q18, q19, q20)
            + SlopeBottomSum(q0, q1, q2, q3, q4, q5, q6, q7, q8, q9, q10, q11, q12, q13, q14, q15, q16, q17, q18, q19)
            - TopSlopeOfBottomSum(q0, q1, q2, q3, q4, q5, q6, q7, q8, q9, q10, q11, q12, q13, q14, q15, q16, q17, q18, q19) ==
            TrendTerms(q0, q1, q2, q3, q4, q5, q6, q7, q8, q9, q10, q11, q12, q13, q14, q15, q16, q17, q18, q19, q20)
  {
  }

  lemma TrendExpanded(u: real)
    ensures Trend(u) ==
            TrendTerms(Pow(u, 0), Pow(u, 1), Pow(u, 2), Pow(u, 3), Pow(u, 4), Pow(u, 5), Pow(u, 6), Pow(u, 7),
                       Pow(u, 8), Pow(u, 9), Pow(u, 10), Pow(u, 11), Pow(u, 12), Pow(u, 13), Pow(u, 14), Pow(u, 15), Pow(u, 16),
                       Pow(u, 17), Pow(u, 18), Pow(u, 19), Pow(u, 20))
  {
    hide Pow, PowerSum, PolySlope, Times, Dot, Powers, NumSum, NumSlopeSum, DenSum, DenSlopeSum, TrendTerms;
    PowersAre(u);
    TopSlopeIs(u);
    BottomSlopeIs(u);
    SumIsDot(NUM, u, 7, 7);
    NumExpanded(Powers(u), 7);
    SumIsDot(NUM_SLOPE, u, 6, 6);
    NumSlopeExpanded(Powers(u), 6);
    DenRow(u, 0);
    DenRow(u, 1);
    DenRow(u, 2);
    DenRow(u, 3);
    DenRow(u, 4);
    DenRow(u, 5);
    DenRow(u, 6);
    DenRow(u, 7);
    DenSlopeRow(u, 0);
    DenSlopeRow(u, 1);
    DenSlopeRow(u, 2);
    DenSlopeRow(u, 3);
    DenSlopeRow(u, 4);
    DenSlopeRow(u, 5);
    DenSlopeRow(u, 6);
    DenSlopeRow(u, 7);
    NumTimes(Pow(u, 0), Pow(u, 1), Pow(u, 2), Pow(u, 3), Pow(u, 4), Pow(u, 5), Pow(u, 6), Pow(u, 7), Bottom(u));
    NumSlopeTimes(Pow(u, 0), Pow(u, 1), Pow(u, 2), Pow(u, 3), Pow(u, 4), Pow(u, 5), Pow(u, 6), Bottom(u));
    NumTimes(Pow(u, 0), Pow(u, 1), Pow(u, 2), Pow(u, 3), Pow(u, 4), Pow(u, 5), Pow(u, 6), Pow(u, 7), BottomSlope(u));
    Distributed(Top(u), TopSlope(u), Bottom(u));
    TrendSum(Pow(u, 0), Pow(u, 1), Pow(u, 2), Pow(u, 3), Pow(u, 4), Pow(u, 5), Pow(u, 6), Pow(u, 7), Pow(u, 8),
             Pow(u, 9), Pow(u, 10), Pow(u, 11), Pow(u, 12), Pow(u, 13), Pow(u, 14), Pow(u, 15), Pow(u, 16),
             Pow(u, 17), Pow(u, 18), Pow(u, 19), Pow(u, 20));
  }

  lemma RootSquared(u: real)
    ensures Times(Root(u), Root(u)) ==
            78011611898760153576352612051600.0 * Pow(u, 0) - 11005408608093192930367787160682960.0 * Pow(u, 1)
            + 568817726370092195079419640738532324.0 * Pow(u, 2)
            - 13998980898820452953036982758292184584.0 * Pow(u, 3)
            + 197715097124661632548789808608172910924.0 * Pow(u, 4)
            - 1787047629161255925637993635935276242144.0 * Pow(u, 5)
            + 11075452293596546104364443972296355225637.0 * Pow(u, 6)
            - 49302377271711435746868250935420772118052.0 * Pow(u, 7)
            + 162806261061038781347438029642917110640262.0 * Pow(u, 8)
            - 407953515045014502399246079534462440158138.0 * Pow(u, 9)
            + 787856835323875391736358723570545400196559.0 * Pow(u, 10)
            - 1184344703157058512926515747517349274236568.0 * Pow(u, 11)
            + 1392650402013798921355702799155210427129259.0 * Pow(u, 12)
            - 1281104248310373379366901928411417580573820.0 * Pow(u, 13)
            + 917230366395235853043207773777255724279195.0 * Pow(u, 14)
            - 505272408469815563682139317433225624390570.0 * Pow(u, 15)
            + 209854967441828164440757047950468020632925.0 * Pow(u, 16)
            - 63522338803516394034871753283152246174500.0 * Pow(u, 17)
            + 13217737225565175859842434310298002424900.0 * Pow(u, 18)
            - 1689657073639399061400000000000000000000.0 * Pow(u, 19)
            + 100000000000000000000000000000000000000.0 * Pow(u, 20)
  {
    hide Pow, PowerSum, Times, Dot, Powers;
    PowersAre(u);
    SumIsDot(ROOT, u, 10, 10);
    RootExpanded(Powers(u), 10);
    RootTimes(Pow(u, 0), Pow(u, 1), Pow(u, 2), Pow(u, 3), Pow(u, 4), Pow(u, 5), Pow(u, 6), Pow(u, 7), Pow(u, 8),
              Pow(u, 9), Pow(u, 10), Root(u));
    RootRow(u, 0);
    RootRow(u, 1);
    RootRow(u, 2);
    RootRow(u, 3);
    RootRow(u, 4);
    RootRow(u, 5);
    RootRow(u, 6);
    RootRow(u, 7);
    RootRow(u, 8);
    RootRow(u, 9);
    RootRow(u, 10);
  }

  // ----- the trend from below -----

  const UNIT := 115792089237316195423570985008687907853269984666.0

  const SCALE := 7950833370208581.184034370378798348319651694606487736

  lemma PowStep(u: real, b: real, k: nat, y: real)
    requires 0.0 <= u <= b && 0.0 <= Pow(u, k) <= y
    ensures 0.0 <= Pow(u, k + 1) <= b * y
  {
    assert Pow(u, k + 1) == u * Pow(u, k);
    MulBounds(u, Pow(u, k), b, y);
  }

  lemma PowersNear(u: real)
    requires 0.0 <= u <= 2.5
    ensures 0.0 <= Pow(u, 0) <= 1.0
    ensures 0.0 <= Pow(u, 1) <= 2.5
    ensures 0.0 <= Pow(u, 2) <= 6.25
    ensures 0.0 <= Pow(u, 3) <= 15.625
    ensures 0.0 <= Pow(u, 4) <= 39.0625
    ensures 0.0 <= Pow(u, 5) <= 97.65625
    ensures 0.0 <= Pow(u, 6) <= 244.140625
    ensures 0.0 <= Pow(u, 7) <= 610.3515625
    ensures 0.0 <= Pow(u, 8) <= 1525.87890625
    ensures 0.0 <= Pow(u, 9) <= 3814.697265625
    ensures 0.0 <= Pow(u, 10) <= 9536.7431640625
    ensures 0.0 <= Pow(u, 11) <= 23841.85791015625
    ensures 0.0 <= Pow(u, 12) <= 59604.644775390625
    ensures 0.0 <= Pow(u, 13) <= 149011.6119384765625
    ensures 0.0 <= Pow(u, 14) <= 372529.02984619140625
    ensures 0.0 <= Pow(u, 15) <= 931322.574615478515625
    ensures 0.0 <= Pow(u, 16) <= 2328306.4365386962890625
    ensures 0.0 <= Pow(u, 17) <= 5820766.09134674072265625
    ensures 0.0 <= Pow(u, 18) <= 14551915.228366851806640625
    ensures 0.0 <= Pow(u, 19) <= 36379788.0709171295166015625
    ensures 0.0 <= Pow(u, 20) <= 90949470.17729282379150390625
  {
    hide Pow;
    PowZero(u);
    PowStep(u, 2.5, 0, 1.0);
    PowStep(u, 2.5, 1, 2.5);
    PowStep(u, 2.5, 2, 6.25);
    PowStep(u, 2.5, 3, 15.625);
    PowStep(u, 2.5, 4, 39.0625);
    PowStep(u, 2.5, 5, 97.65625);
    PowStep(u, 2.5, 6, 244.140625);
    PowStep(u, 2.5, 7, 610.3515625);
    PowStep(u, 2.5, 8, 1525.87890625);
    PowStep(u, 2.5, 9, 3814.697265625);
    PowStep(u, 2.5, 10, 9536.7431640625);
    PowStep(u, 2.5, 11, 23841.85791015625);
    PowStep(u, 2.5, 12, 59604.644775390625);
    PowStep(u, 2.5, 13, 149011.6119384765625);
    PowStep(u, 2.5, 14, 372529.02984619140625);
    PowStep(u, 2.5, 15, 931322.574615478515625);
    PowStep(u, 2.5, 16, 2328306.4365386962890625);
    PowStep(u, 2.5, 17, 5820766.09134674072265625);
    PowStep(u, 2.5, 18, 14551915.228366851806640625);
    PowStep(u, 2.5, 19, 36379788.0709171295166015625);
  }

  lemma PowersFar(u: real)
    requires 0.0 <= u <= 5.0
    ensures 0.0 <= Pow(u, 0) <= 1.0
    ensures 0.0 <= Pow(u, 1) <= 5.0
    ensures 0.0 <= Pow(u, 2) <= 25.0
    ensures 0.0 <= Pow(u, 3) <= 125.0
    ensures 0.0 <= Pow(u, 4) <= 625.0
    ensures 0.0 <= Pow(u, 5) <= 3125.0
    ensures 0.0 <= Pow(u, 6) <= 15625.0
    ensures 0.0 <= Pow(u, 7) <= 78125.0
    ensures 0.0 <= Pow(u, 8) <= 390625.0
    ensures 0.0 <= Pow(u, 9) <= 1953125.0
    ensures 0.0 <= Pow(u, 10) <= 9765625.0
    ensures 0.0 <= Pow(u, 11) <= 48828125.0
    ensures 0.0 <= Pow(u, 12) <= 244140625.0
    ensures 0.0 <= Pow(u, 13) <= 1220703125.0
    ensures 0.0 <= Pow(u, 14) <= 6103515625.0
    ensures 0.0 <= Pow(u, 15) <= 30517578125.0
    ensures 0.0 <= Pow(u, 16) <= 152587890625.0
    ensures 0.0 <= Pow(u, 17) <= 762939453125.0
    ensures 0.0 <= Pow(u, 18) <= 3814697265625.0
    ensures 0.0 <= Pow(u, 19) <= 19073486328125.0
    ensures 0.0 <= Pow(u, 20) <= 95367431640625.0
  {
    hide Pow;
    PowZero(u);
    PowStep(u, 5.0, 0, 1.0);
    PowStep(u, 5.0, 1, 5.0);
    PowStep(u, 5.0, 2, 25.0);
    PowStep(u, 5.0, 3, 125.0);
    PowStep(u, 5.0, 4, 625.0);
    PowStep(u, 5.0, 5, 3125.0);
    PowStep(u, 5.0, 6, 15625.0);
    PowStep(u, 5.0, 7, 78125.0);
    PowStep(u, 5.0, 8, 390625.0);
    PowStep(u, 5.0, 9, 1953125.0);
    PowStep(u, 5.0, 10, 9765625.0);
    PowStep(u, 5.0, 11, 48828125.0);
    PowStep(u, 5.0, 12, 244140625.0);
    PowStep(u, 5.0, 13, 1220703125.0);
    PowStep(u, 5.0, 14, 6103515625.0);
    PowStep(u, 5.0, 15, 30517578125.0);
    PowStep(u, 5.0, 16, 152587890625.0);
    PowStep(u, 5.0, 17, 762939453125.0);
    PowStep(u, 5.0, 18, 3814697265625.0);
    PowStep(u, 5.0, 19, 19073486328125.0);
  }

  lemma TrendNear(u: real)
    requires 0.0 <= u <= 2.5
    ensures -Trend(u) >= SCALE * Times(Root(u), Root(u)) + UNIT * (Rest(u) - 0.005)
  {
    hide Pow, PowerSum, Trend, Root, Times;
    TrendExpanded(u);
    RootSquared(u);
    RestSum(u);
    PowersNear(u);
  }

  lemma TrendFar(u: real)
    requires 0.0 <= u <= 5.0
    ensures -Trend(u) >= SCALE * Times(Root(u), Root(u)) + UNIT * (Rest(u) - 13.0)
  {
    hide Pow, PowerSum, Trend, Root, Times;
    TrendExpanded(u);
    RootSquared(u);
    RestSum(u);
    PowersFar(u);
  }
}
