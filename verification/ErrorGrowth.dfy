/** How fast the error grows on [0, 5]. */
module ErrorGrowth {
  import opened FixedPoint
  import opened ExpNeg
  import opened ExponentialSeries
  import opened Jets
  import opened Recentring
  import opened Decay
  import opened ErrorTrend

  const REST_TAIL :=
    Term(-453.17352, Term(473.78651, Term(-268.2248, Term(62.88629, Term(5.39378, Term(-3.73577, Zero))))))

  const REST := Term(7.26513, Term(17.30968, Term(-76.3634, Term(249.22136, REST_TAIL))))

  lemma ValueStep(u: real, k: nat, a: real, p: Poly)
    ensures Times(Pow(u, k), Value(Term(a, p), u)) == a * Pow(u, k) + Times(Pow(u, k + 1), Value(p, u))
  {
  }

  lemma ValueZero(u: real)
    ensures Value(Zero, u) == 0.0
  {
  }

  lemma RestIsValue(u: real)
    ensures Rest(u) == Value(REST, u)
  {
    hide Value, Pow, Times, Rest;
    RestSum(u);
    PowZero(u);
    TimesZero(Pow(u, 10));
    TimesOne(Value(REST, u));
    ValueZero(u);
    var p10 := Zero;
    var p9 := Term(-3.73577, p10);
    ValueStep(u, 9, -3.73577, p10);
    var p8 := Term(5.39378, p9);
    ValueStep(u, 8, 5.39378, p9);
    var p7 := Term(62.88629, p8);
    ValueStep(u, 7, 62.88629, p8);
    var p6 := Term(-268.2248, p7);
    ValueStep(u, 6, -268.2248, p7);
    var p5 := Term(473.78651, p6);
    ValueStep(u, 5, 473.78651, p6);
    var p4 := Term(-453.17352, p5);
    ValueStep(u, 4, -453.17352, p5);
    var p3 := Term(249.22136, p4);
    ValueStep(u, 3, 249.22136, p4);
    var p2 := Term(-76.3634, p3);
    ValueStep(u, 2, -76.3634, p3);
    var p1 := Term(17.30968, p2);
    ValueStep(u, 1, 17.30968, p2);
    var p0 := Term(7.26513, p1);
    ValueStep(u, 0, 7.26513, p1);
    assert p0 == REST;
  }

  lemma LowTail()
    ensures Recentred(REST_TAIL, 0.29) ==
            Term(-336.768917365578173, Term(334.4764206116115, Term(-211.7031432573, Term(66.00129223, Term(-0.0230865,
            Term(-3.73577, Zero))))))
  {
    var s := Recentred(REST_TAIL, 0.29);
    assert s.first == -336.768917365578173;
    assert s.rest.first == 334.4764206116115;
    assert s.rest.rest.first == -211.7031432573;
    assert s.rest.rest.rest.first == 66.00129223;
    assert s.rest.rest.rest.rest.first == -0.0230865;
    assert s.rest.rest.rest.rest.rest.first == -3.73577;
  }

  lemma LowCentre()
    ensures Recentred(REST, 0.29) ==
            Term(9.55913244260756504222387, Term(5.409316797949667688127, Term(1.6584330778539613852,
            Term(7.16012045263658972, Term(-49.163016765380598, Term(122.1763518743938, Term(-135.51774049652,
            Term(64.089442348, Term(-4.3565797, Term(-3.73577, Zero))))))))))
  {
    LowTail();
    var r3 := Shifted(249.22136, 0.29, Term(-336.768917365578173, Term(334.4764206116115, Term(-211.7031432573, Term(66.00129223, Term(-0.0230865,
        Term(-3.73577, Zero)))))));
    var r2 := Shifted(-76.3634, 0.29, r3);
    var r1 := Shifted(17.30968, 0.29, r2);
    var s := Shifted(7.26513, 0.29, r1);
    assert s.first == 9.55913244260756504222387;
    assert s.rest.first == 5.409316797949667688127;
    assert s.rest.rest.first == 1.6584330778539613852;
    assert s.rest.rest.rest.first == 7.16012045263658972;
    assert s.rest.rest.rest.rest.first == -49.163016765380598;
    assert s.rest.rest.rest.rest.rest.first == 122.1763518743938;
    assert s.rest.rest.rest.rest.rest.rest.first == -135.51774049652;
    assert s.rest.rest.rest.rest.rest.rest.rest.first == 64.089442348;
    assert s.rest.rest.rest.rest.rest.rest.rest.rest.first == -4.3565797;
    assert s.rest.rest.rest.rest.rest.rest.rest.rest.rest.first == -3.73577;
  }

  lemma LowRest(u: real)
    requires 0.0 <= u <= 0.58
    ensures Rest(u) >= 8.694 + 5.409 * (u - 0.29)
  {
    hide Recentred, Value, Size, Rest;
    LowCentre();
    RestIsValue(u);
    RecentredValue(REST, 0.29, u - 0.29);
    var p := Recentred(REST, 0.29);
    AboveTangent(p.first, p.rest.first, p.rest.rest.first, p.rest.rest.rest, u - 0.29, 0.29, 0.0);
    LowSize();
  }

  lemma LowSize()
    ensures Size(Term(7.16012045263658972, Term(-49.163016765380598, Term(122.1763518743938, Term(-135.51774049652,
            Term(64.089442348, Term(-4.3565797, Term(-3.73577, Zero))))))), 0.29) <= 35.463
  {
  }

  lemma MiddleTail()
    ensures Recentred(REST_TAIL, 0.885) ==
            Term(-199.08230159606401528125, Term(150.28746097505571875, Term(-101.8090838625125, Term(52.7207866175,
            Term(-11.13700225, Term(-3.73577, Zero))))))
  {
    var s := Recentred(REST_TAIL, 0.885);
    assert s.first == -199.08230159606401528125;
    assert s.rest.first == 150.28746097505571875;
    assert s.rest.rest.first == -101.8090838625125;
    assert s.rest.rest.rest.first == 52.7207866175;
    assert s.rest.rest.rest.rest.first == -11.13700225;
    assert s.rest.rest.rest.rest.rest.first == -3.73577;
  }

  lemma MiddleCentre()
    ensures Recentred(REST, 0.885) ==
            Term(13.39796062637181747870859669921875, Term(7.94933735168978447237018359375,
            Term(3.997483836114391082096875, Term(0.786959500666544991875, Term(-6.1585833840089754375,
            Term(4.4664205126101125, Term(22.127971697695, Term(-4.259892097, Term(-24.36162805, Term(-3.73577, Zero))))))))))
  {
    MiddleTail();
    var r3 := Shifted(249.22136, 0.885, Term(-199.08230159606401528125, Term(150.28746097505571875, Term(-101.8090838625125, Term(52.7207866175,
        Term(-11.13700225, Term(-3.73577, Zero)))))));
    var r2 := Shifted(-76.3634, 0.885, r3);
    var r1 := Shifted(17.30968, 0.885, r2);
    var s := Shifted(7.26513, 0.885, r1);
    assert s.first == 13.39796062637181747870859669921875;
    assert s.rest.first == 7.94933735168978447237018359375;
    assert s.rest.rest.first == 3.997483836114391082096875;
    assert s.rest.rest.rest.first == 0.786959500666544991875;
    assert s.rest.rest.rest.rest.first == -6.1585833840089754375;
    assert s.rest.rest.rest.rest.rest.first == 4.4664205126101125;
    assert s.rest.rest.rest.rest.rest.rest.first == 22.127971697695;
    assert s.rest.rest.rest.rest.rest.rest.rest.first == -4.259892097;
    assert s.rest.rest.rest.rest.rest.rest.rest.rest.first == -24.36162805;
    assert s.rest.rest.rest.rest.rest.rest.rest.rest.rest.first == -3.73577;
  }

  lemma MiddleRest(u: real)
    requires 0.55 <= u <= 1.22
    ensures Rest(u) >= 13.234 + 7.949 * (u - 0.885)
  {
    hide Recentred, Value, Size, Rest;
    MiddleCentre();
    RestIsValue(u);
    RecentredValue(REST, 0.885, u - 0.885);
    var p := Recentred(REST, 0.885);
    AboveTangent(p.first, p.rest.first, p.rest.rest.first, p.rest.rest.rest, u - 0.885, 0.335, 0.0);
    MiddleSize();
  }

  lemma MiddleSize()
    ensures Size(Term(0.786959500666544991875, Term(-6.1585833840089754375, Term(4.4664205126101125, Term(22.127971697695,
            Term(-4.259892097, Term(-24.36162805, Term(-3.73577, Zero))))))), 0.335) <= 4.345
  {
  }

  lemma HighTail()
    ensures Recentred(REST_TAIL, 1.38) ==
            Term(-144.021069618431136, Term(81.725662302104, Term(-44.4227969624, Term(21.51595172, Term(-20.383033,
            Term(-3.73577, Zero))))))
  {
    var s := Recentred(REST_TAIL, 1.38);
    assert s.first == -144.021069618431136;
    assert s.rest.first == 81.725662302104;
    assert s.rest.rest.first == -44.4227969624;
    assert s.rest.rest.rest.first == 21.51595172;
    assert s.rest.rest.rest.rest.first == -20.383033;
    assert s.rest.rest.rest.rest.rest.first == -3.73577;
  }

  lemma HighCentre()
    ensures Recentred(REST, 1.38) ==
            Term(18.37082560345561761928704, Term(12.804884248110577814272, Term(7.7844733975942014976,
            Term(-0.89732302846899712, Term(-48.230127904527936, Term(-145.4592835053472, Term(-197.83092188096,
            Term(-133.684792768, Term(-41.0044834, Term(-3.73577, Zero))))))))))
  {
    HighTail();
    var r3 := Shifted(249.22136, 1.38, Term(-144.021069618431136, Term(81.725662302104, Term(-44.4227969624, Term(21.51595172, Term(-20.383033,
        Term(-3.73577, Zero)))))));
    var r2 := Shifted(-76.3634, 1.38, r3);
    var r1 := Shifted(17.30968, 1.38, r2);
    var s := Shifted(7.26513, 1.38, r1);
    assert s.first == 18.37082560345561761928704;
    assert s.rest.first == 12.804884248110577814272;
    assert s.rest.rest.first == 7.7844733975942014976;
    assert s.rest.rest.rest.first == -0.89732302846899712;
    assert s.rest.rest.rest.rest.first == -48.230127904527936;
    assert s.rest.rest.rest.rest.rest.first == -145.4592835053472;
    assert s.rest.rest.rest.rest.rest.rest.first == -197.83092188096;
    assert s.rest.rest.rest.rest.rest.rest.rest.first == -133.684792768;
    assert s.rest.rest.rest.rest.rest.rest.rest.rest.first == -41.0044834;
    assert s.rest.rest.rest.rest.rest.rest.rest.rest.rest.first == -3.73577;
  }

  lemma HighRest(u: real)
    requires 1.18 <= u <= 1.58
    ensures Rest(u) >= 18.225 + 12.805 * (u - 1.38)
  {
    hide Recentred, Value, Size, Rest;
    HighCentre();
    RestIsValue(u);
    RecentredValue(REST, 1.38, u - 1.38);
    var p := Recentred(REST, 1.38);
    AboveTangent(p.first, p.rest.first, p.rest.rest.first, p.rest.rest.rest, u - 1.38, 0.2, 0.0);
    HighSize();
  }

  lemma HighSize()
    ensures Size(Term(-0.89732302846899712, Term(-48.230127904527936, Term(-145.4592835053472, Term(-197.83092188096,
            Term(-133.684792768, Term(-41.0044834, Term(-3.73577, Zero))))))), 0.2) <= 18.172
  {
  }

  lemma LateTail()
    ensures Recentred(REST_TAIL, 1.65) ==
            Term(-124.883748433753125, Term(60.7388265621875, Term(-36.6457263125, Term(-3.22110025, Term(-25.4263225,
            Term(-3.73577, Zero))))))
  {
    var s := Recentred(REST_TAIL, 1.65);
    assert s.first == -124.883748433753125;
    assert s.rest.first == 60.7388265621875;
    assert s.rest.rest.first == -36.6457263125;
    assert s.rest.rest.rest.first == -3.22110025;
    assert s.rest.rest.rest.rest.first == -25.4263225;
    assert s.rest.rest.rest.rest.rest.first == -3.73577;
  }

  lemma LateCentre()
    ensures Recentred(REST, 1.65) ==
            Term(21.82112337559412654296875, Term(7.048846164706737109375, Term(-62.92644604673065625,
            Term(-265.186196200470625, Term(-568.95383356464375, Term(-718.302066113875, Term(-540.370149245,
            Term(-232.0586317, Term(-50.0824045, Term(-3.73577, Zero))))))))))
  {
    LateTail();
    var r3 := Shifted(249.22136, 1.65, Term(-124.883748433753125, Term(60.7388265621875, Term(-36.6457263125, Term(-3.22110025, Term(-25.4263225,
        Term(-3.73577, Zero)))))));
    var r2 := Shifted(-76.3634, 1.65, r3);
    var r1 := Shifted(17.30968, 1.65, r2);
    var s := Shifted(7.26513, 1.65, r1);
    assert s.first == 21.82112337559412654296875;
    assert s.rest.first == 7.048846164706737109375;
    assert s.rest.rest.first == -62.92644604673065625;
    assert s.rest.rest.rest.first == -265.186196200470625;
    assert s.rest.rest.rest.rest.first == -568.95383356464375;
    assert s.rest.rest.rest.rest.rest.first == -718.302066113875;
    assert s.rest.rest.rest.rest.rest.rest.first == -540.370149245;
    assert s.rest.rest.rest.rest.rest.rest.rest.first == -232.0586317;
    assert s.rest.rest.rest.rest.rest.rest.rest.rest.first == -50.0824045;
    assert s.rest.rest.rest.rest.rest.rest.rest.rest.rest.first == -3.73577;
  }

  lemma LateRest(u: real)
    requires 1.55 <= u <= 1.75
    ensures Rest(u) >= 20.862 + 7.049 * (u - 1.65)
  {
    hide Recentred, Value, Size, Rest;
    LateCentre();
    RestIsValue(u);
    RecentredValue(REST, 1.65, u - 1.65);
    var p := Recentred(REST, 1.65);
    AboveTangent(p.first, p.rest.first, p.rest.rest.first, p.rest.rest.rest, u - 1.65, 0.1, 62.927);
    LateSize();
  }

  lemma LateSize()
    ensures Size(Term(-265.186196200470625, Term(-568.95383356464375, Term(-718.302066113875, Term(-540.370149245,
            Term(-232.0586317, Term(-50.0824045, Term(-3.73577, Zero))))))), 0.1) <= 329.829
  {
  }

  lemma LastTail()
    ensures Recentred(REST_TAIL, 1.825) ==
            Term(-115.41845250248447265625, Term(47.05428826044921875, Term(-43.2091046265625, Term(-22.1636055625,
            Term(-28.69512125, Term(-3.73577, Zero))))))
  {
    var s := Recentred(REST_TAIL, 1.825);
    assert s.first == -115.41845250248447265625;
    assert s.rest.first == 47.05428826044921875;
    assert s.rest.rest.first == -43.2091046265625;
    assert s.rest.rest.rest.first == -22.1636055625;
    assert s.rest.rest.rest.rest.first == -28.69512125;
    assert s.rest.rest.rest.rest.rest.first == -3.73577;
  }

  lemma LastCentre()
    ensures Recentred(REST, 1.825) ==
            Term(19.03807270007533076168060302734375, Term(-55.48563317567681779937744140625,
            Term(-353.633890753129189697265625, Term(-949.441746538169658203125, Term(-1492.5950865318248046875,
            Term(-1450.4058836849296875, Term(-869.269431893125, Term(-306.292684425, Term(-55.96624225, Term(-3.73577, Zero))))))))))
  {
    LastTail();
    var r3 := Shifted(249.22136, 1.825, Term(-115.41845250248447265625, Term(47.05428826044921875, Term(-43.2091046265625, Term(-22.1636055625,
        Term(-28.69512125, Term(-3.73577, Zero)))))));
    var r2 := Shifted(-76.3634, 1.825, r3);
    var r1 := Shifted(17.30968, 1.825, r2);
    var s := Shifted(7.26513, 1.825, r1);
    assert s.first == 19.03807270007533076168060302734375;
    assert s.rest.first == -55.48563317567681779937744140625;
    assert s.rest.rest.first == -353.633890753129189697265625;
    assert s.rest.rest.rest.first == -949.441746538169658203125;
    assert s.rest.rest.rest.rest.first == -1492.5950865318248046875;
    assert s.rest.rest.rest.rest.rest.first == -1450.4058836849296875;
    assert s.rest.rest.rest.rest.rest.rest.first == -869.269431893125;
    assert s.rest.rest.rest.rest.rest.rest.rest.first == -306.292684425;
    assert s.rest.rest.rest.rest.rest.rest.rest.rest.first == -55.96624225;
    assert s.rest.rest.rest.rest.rest.rest.rest.rest.rest.first == -3.73577;
  }

  lemma LastRest(u: real)
    requires 1.75 <= u <= 1.9
    ensures Rest(u) >= 16.597 + -55.486 * (u - 1.825)
  {
    hide Recentred, Value, Size, Rest;
    LastCentre();
    RestIsValue(u);
    RecentredValue(REST, 1.825, u - 1.825);
    var p := Recentred(REST, 1.825);
    AboveTangent(p.first, p.rest.first, p.rest.rest.first, p.rest.rest.rest, u - 1.825, 0.075, 353.634);
    LastSize();
  }

  lemma LastSize()
    ensures Size(Term(-949.441746538169658203125, Term(-1492.5950865318248046875, Term(-1450.4058836849296875,
            Term(-869.269431893125, Term(-306.292684425, Term(-55.96624225, Term(-3.73577, Zero))))))), 0.075) <= 1069.922
  {
  }

  // ----- numerator and denominator at a given place -----

  lemma PolyStep(p: seq<int>, u: real, n: nat, c: int)
    requires n < |p| && p[n] == c
    ensures PolyExact(p, u, n) == (if n == 0 then 0.0 else Times(u, PolyExact(p, u, n - 1))) + c as real
  {
    PolyUnfolded(p, u, n);
  }

  function TopAt(u: real): real {
    var x0 := -648770010757830093818553637600.0;
    var x1 := Times(u, x0) + 67469480939593786226847644286976.0;
    var x2 := Times(u, x1) - 3197587544499098424029388939001856.0;
    var x3 := Times(u, x2) + 89244641121992890118377641805348864.0;
    var x4 := Times(u, x3) - 1579656163641440567800982336819953664.0;
    var x5 := Times(u, x4) + 17685496037279256458459817590917169152.0;
    var x6 := Times(u, x5) - 115682590513835356866803355398940131328.0;
    var x7 := Times(u, x6) + 340282366920938463463374607431768211456.0;
    x7
  }

  lemma TopAtIs(u: real)
    ensures Top(u) == TopAt(u)
  {
    hide PolyExact, Times;
    PolyStep(NUM, u, 0, -648770010757830093818553637600);
    PolyStep(NUM, u, 1, 67469480939593786226847644286976);
    PolyStep(NUM, u, 2, -3197587544499098424029388939001856);
    PolyStep(NUM, u, 3, 89244641121992890118377641805348864);
    PolyStep(NUM, u, 4, -1579656163641440567800982336819953664);
    PolyStep(NUM, u, 5, 17685496037279256458459817590917169152);
    PolyStep(NUM, u, 6, -115682590513835356866803355398940131328);
    PolyStep(NUM, u, 7, 340282366920938463463374607431768211456);
  }

  function BottomAt(u: real): real {
    var x0 := 1225524182432722209606361.0;
    var x1 := Times(u, x0) + 114095592300906098243859450.0;
    var x2 := Times(u, x1) + 5665570424063336070530214243.0;
    var x3 := Times(u, x2) + 194450132448609991765137938448.0;
    var x4 := Times(u, x3) + 5068267641632683791026134915072.0;
    var x5 := Times(u, x4) + 104716890604972796896895427629056.0;
    var x6 := Times(u, x5) + 1748338658439454459487681798864896.0;
    var x7 := Times(u, x6) + 23704654329841312470660182937960448.0;
    var x8 := Times(u, x7) + 259380097567996910282699886670381056.0;
    var x9 := Times(u, x8) + 2250336698853390384720606936038375424.0;
    var x10 := Times(u, x9) + 14978272436876548034486263159246028800.0;
    var x11 := Times(u, x10) + 72144088983913131323343765784380833792.0;
    var x12 := Times(u, x11) + 224599776407103106596571252037123047424.0;
    var x13 := Times(u, x12) + 340282366920938463463374607431768211456.0;
    x13
  }

  lemma BottomAtIs(u: real)
    ensures Bottom(u) == BottomAt(u)
  {
    hide PolyExact, Times;
    PolyStep(DEN, u, 0, 1225524182432722209606361);
    PolyStep(DEN, u, 1, 114095592300906098243859450);
    PolyStep(DEN, u, 2, 5665570424063336070530214243);
    PolyStep(DEN, u, 3, 194450132448609991765137938448);
    PolyStep(DEN, u, 4, 5068267641632683791026134915072);
    PolyStep(DEN, u, 5, 104716890604972796896895427629056);
    PolyStep(DEN, u, 6, 1748338658439454459487681798864896);
    PolyStep(DEN, u, 7, 23704654329841312470660182937960448);
    PolyStep(DEN, u, 8, 259380097567996910282699886670381056);
    PolyStep(DEN, u, 9, 2250336698853390384720606936038375424);
    PolyStep(DEN, u, 10, 14978272436876548034486263159246028800);
    PolyStep(DEN, u, 11, 72144088983913131323343765784380833792);
    PolyStep(DEN, u, 12, 224599776407103106596571252037123047424);
    PolyStep(DEN, u, 13, 340282366920938463463374607431768211456);
  }

  lemma {:induction false} PolyGrows(p: seq<int>, u: real, b: real, n: nat)
    requires n < |p| && 0.0 <= u <= b && forall i :: 0 <= i < |p| ==> 0 <= p[i]
    ensures 0.0 <= PolyExact(p, u, n) <= PolyExact(p, b, n)
  {
    hide PolyExact;
    PolyUnfolded(p, u, n);
    PolyUnfolded(p, b, n);
    if n > 0 {
      PolyGrows(p, u, b, n - 1);
      MulBounds(PolyExact(p, u, n - 1), u, PolyExact(p, b, n - 1), b);
    }
  }

  // ----- from the trend to the rate -----

  const TINY := 0.000000000000000000000000000001

  const Q_128 := 340282366920938463463374607431768211456.0

  lemma RateAlgebra(x: real, k: real, beta: real, w: real, tiny: real, unit: real)
    requires 0.0 <= x <= beta * w && 0.0 <= k && 0.0 <= tiny && tiny * (w * w) <= unit
    ensures Times(k * tiny, Times(x, x)) <= unit * (k * (beta * beta))
  {
    MulBounds(x, x, beta * w, beta * w);
    MulBelow(x * x, (beta * w) * (beta * w), tiny);
    assert (beta * w) * (beta * w) * tiny == (tiny * (w * w)) * (beta * beta);
    MulBelow(tiny * (w * w), unit, beta * beta);
    MulBelow(x * x * tiny, unit * (beta * beta), k);
    assert Times(k * tiny, Times(x, x)) == x * x * tiny * k;
    assert unit * (beta * beta) * k == unit * (k * (beta * beta));
  }

  /** Up to b the denominator is at most beta in Q.128, so a trend of -k * beta^2 units gives the rate k. */
  lemma GrowsBy(k: real, u: real, b: real, beta: real)
    requires 0.0 <= u <= b && 0.0 <= k && BottomAt(b) <= beta * Q_128 && -Trend(u) >= UNIT * (k * (beta * beta))
    ensures Grows(k * TINY, u)
  {
    hide Trend, Bottom, BottomAt, Times;
    BottomAtIs(b);
    BottomGrows(u, b);
    assert TINY * (Q_128 * Q_128) <= UNIT;
    RateAlgebra(Bottom(u), k, beta, Q_128, TINY, UNIT);
  }

  lemma BottomGrows(u: real, b: real)
    requires 0.0 <= u <= b
    ensures 0.0 <= Bottom(u) <= Bottom(b)
  {
    hide PolyExact;
    PolyGrows(DEN, u, b, 13);
  }

  lemma SquareNotNegative(x: real)
    ensures Times(x, x) >= 0.0
  {
  }

  /** Where the remainder of the trend is positive. */
  lemma GrowsByRest(k: real, u: real, b: real, beta: real, rest: real)
    requires 0.0 <= u <= b <= 2.5 && 0.0 <= k && BottomAt(b) <= beta * Q_128 && Rest(u) >= rest && rest - 0.005 >= k * (beta * beta)
    ensures Grows(k * TINY, u)
  {
    hide Trend, Root, Rest, BottomAt, Times, Grows;
    TrendNear(u);
    SquareNotNegative(Root(u));
    GrowsBy(k, u, b, beta);
  }

  // ----- beyond 1.9 the square dominates -----

  const ROOT_TAIL :=
    Term(260127269438511025680.0, Term(-558111883563428991383.0, Term(737545924041305687013.0,
    Term(-607675702660364520945.0, Term(304019232965801590175.0, Term(-84482853681969953070.0,
    Term(10000000000000000000.0, Zero)))))))

  const ROOT_POLY :=
    Term(8832418236177460.0, Term(-623012198574066338.0, Term(10227862968375077724.0, Term(-71034572638186738623.0, ROOT_TAIL))))

  lemma RootIsValue(u: real)
    ensures Root(u) == Value(ROOT_POLY, u)
  {
    hide Value, Pow, Times, PowerSum, Dot, Powers;
    var w := Powers(u);
    PowersAre(u);
    SumIsDot(ROOT, u, 10, 10);
    RootExpanded(w, 10);
    PowZero(u);
    TimesZero(Pow(u, 11));
    TimesOne(Value(ROOT_POLY, u));
    ValueZero(u);
    var p11 := Zero;
    var p10 := Term(10000000000000000000.0, p11);
    ValueStep(u, 10, 10000000000000000000.0, p11);
    var p9 := Term(-84482853681969953070.0, p10);
    ValueStep(u, 9, -84482853681969953070.0, p10);
    var p8 := Term(304019232965801590175.0, p9);
    ValueStep(u, 8, 304019232965801590175.0, p9);
    var p7 := Term(-607675702660364520945.0, p8);
    ValueStep(u, 7, -607675702660364520945.0, p8);
    var p6 := Term(737545924041305687013.0, p7);
    ValueStep(u, 6, 737545924041305687013.0, p7);
    var p5 := Term(-558111883563428991383.0, p6);
    ValueStep(u, 5, -558111883563428991383.0, p6);
    var p4 := Term(260127269438511025680.0, p5);
    ValueStep(u, 4, 260127269438511025680.0, p5);
    var p3 := Term(-71034572638186738623.0, p4);
    ValueStep(u, 3, -71034572638186738623.0, p4);
    var p2 := Term(10227862968375077724.0, p3);
    ValueStep(u, 2, 10227862968375077724.0, p3);
    var p1 := Term(-623012198574066338.0, p2);
    ValueStep(u, 1, -623012198574066338.0, p2);
    var p0 := Term(8832418236177460.0, p1);
    ValueStep(u, 0, 8832418236177460.0, p1);
    assert p0 == ROOT_POLY;
  }

  lemma RootTailCentre()
    ensures Recentred(ROOT_TAIL, 1.9) ==
            Term(34796592652570938060.3532, Term(-14779143712485841544.385, Term(18987070870171279745.7,
            Term(24839449960612258558.0, Term(42932122987087036010.0, Term(29517146318030046930.0,
            Term(10000000000000000000.0, Zero)))))))
  {
    var s := Recentred(ROOT_TAIL, 1.9);
    assert s.first == 34796592652570938060.3532;
    assert s.rest.first == -14779143712485841544.385;
    assert s.rest.rest.first == 18987070870171279745.7;
    assert s.rest.rest.rest.first == 24839449960612258558.0;
    assert s.rest.rest.rest.rest.first == 42932122987087036010.0;
    assert s.rest.rest.rest.rest.rest.first == 29517146318030046930.0;
    assert s.rest.rest.rest.rest.rest.rest.first == 10000000000000000000.0;
  }

  lemma RootCentre()
    ensures Recentred(ROOT_POLY, 1.9) ==
            Term(1994235939026363682.61193772, Term(31014482650138370759.3806367, Term(200985815176794772122.340422,
            Term(717942750934623308641.04222, Term(1574725924584963349398.0982, Term(2230101209852596699456.028,
            Term(2077830100852602012334.58, Term(1264824973911004548737.8, Term(483862435004115392678.0,
            Term(105517146318030046930.0, Term(10000000000000000000.0, Zero)))))))))))
  {
    RootTailCentre();
    var r3 := Shifted(-71034572638186738623.0, 1.9, Term(34796592652570938060.3532, Term(-14779143712485841544.385, Term(18987070870171279745.7,
        Term(24839449960612258558.0, Term(42932122987087036010.0, Term(29517146318030046930.0,
        Term(10000000000000000000.0, Zero))))))));
    var r2 := Shifted(10227862968375077724.0, 1.9, r3);
    var r1 := Shifted(-623012198574066338.0, 1.9, r2);
    var s := Shifted(8832418236177460.0, 1.9, r1);
    assert s.first == 1994235939026363682.61193772;
    assert s.rest.first == 31014482650138370759.3806367;
    assert s.rest.rest.first == 200985815176794772122.340422;
    assert s.rest.rest.rest.first == 717942750934623308641.04222;
    assert s.rest.rest.rest.rest.first == 1574725924584963349398.0982;
    assert s.rest.rest.rest.rest.rest.first == 2230101209852596699456.028;
    assert s.rest.rest.rest.rest.rest.rest.first == 2077830100852602012334.58;
    assert s.rest.rest.rest.rest.rest.rest.rest.first == 1264824973911004548737.8;
    assert s.rest.rest.rest.rest.rest.rest.rest.rest.first == 483862435004115392678.0;
    assert s.rest.rest.rest.rest.rest.rest.rest.rest.rest.first == 105517146318030046930.0;
    assert s.rest.rest.rest.rest.rest.rest.rest.rest.rest.rest.first == 10000000000000000000.0;
  }

  lemma RootAbove(u: real)
    requires 1.9 <= u
    ensures Root(u) >= 1994235939026363682.0 + 31014482650138370759.0 * (u - 1.9)
  {
    hide Recentred, Value;
    RootCentre();
    RootIsValue(u);
    RecentredValue(ROOT_POLY, 1.9, u - 1.9);
    var p := Recentred(ROOT_POLY, 1.9);
    TangentBelow(p.first, p.rest.first, p.rest.rest, u - 1.9);
  }

  lemma {:induction false} ValueGrows(p: Poly, v: real, w: real)
    requires NoNegative(p) && 0.0 <= v <= w
    ensures 0.0 <= Value(p, v) <= Value(p, w)
  {
    if p.Term? {
      ValueGrows(p.rest, v, w);
      MulBounds(v, Value(p.rest, v), w, Value(p.rest, w));
    }
  }

  lemma RootPast(u: real)
    requires 4.7 <= u
    ensures Root(u) >= 6446377615895461088259195.0
  {
    hide Recentred, Value;
    RootCentre();
    RootIsValue(u);
    RecentredValue(ROOT_POLY, 1.9, u - 1.9);
    ValueGrows(Recentred(ROOT_POLY, 1.9), 2.8, u - 1.9);
    RootAt47();
  }

  lemma RootAt47()
    ensures Value(Term(1994235939026363682.61193772, Term(31014482650138370759.3806367, Term(200985815176794772122.340422,
                  Term(717942750934623308641.04222, Term(1574725924584963349398.0982, Term(2230101209852596699456.028,
                  Term(2077830100852602012334.58, Term(1264824973911004548737.8, Term(483862435004115392678.0,
                  Term(105517146318030046930.0, Term(10000000000000000000.0, Zero))))))))))), 2.8)
            >= 6446377615895461088259195.0
  {
  }

  lemma RestNear(u: real)
    requires 0.0 <= u <= 2.5
    ensures Rest(u) >= -97915.0
  {
    hide Pow, Rest;
    RestSum(u);
    PowersNear(u);
  }

  lemma RestFar(u: real)
    requires 0.0 <= u <= 5.0
    ensures Rest(u) >= -11772581.0
  {
    hide Pow, Rest;
    RestSum(u);
    PowersFar(u);
  }

  /** Where the square outweighs the remainder. */
  lemma GrowsBySquare(k: real, u: real, b: real, beta: real, root: real)
    requires 1.9 <= u <= b <= 5.0 && 0.0 <= k && BottomAt(b) <= beta * Q_128 && 0.0 <= root <= Root(u)
    requires SCALE * (root * root) >= UNIT * ((if u <= 2.5 then 97916.0 else 11772594.0) + k * (beta * beta))
    ensures Grows(k * TINY, u)
  {
    hide Trend, Root, Rest, BottomAt, Grows;
    MulBounds(root, root, Root(u), Root(u));
    if u <= 2.5 {
      TrendNear(u);
      RestNear(u);
    } else {
      TrendFar(u);
      RestFar(u);
    }
    GrowsBy(k, u, b, beta);
  }

  // ----- rates on intervals -----

  lemma LowGrows(k: real, a: real, b: real, beta: real)
    requires 0.0 <= a <= b <= 0.58 && 0.0 <= k && BottomAt(b) <= beta * Q_128
    requires 8.694 + 5.409 * (a - 0.29) - 0.005 >= k * (beta * beta)
    ensures GrowsOn(k * TINY, a, b)
  {
    hide Grows, Rest, BottomAt;
    var rate := k * TINY;
    forall u | a <= u <= b ensures Grows(rate, u) {
      LowRest(u);
      GrowsByRest(k, u, b, beta, 8.694 + 5.409 * (a - 0.29));
    }
  }

  lemma MiddleGrows(k: real, a: real, b: real, beta: real)
    requires 0.55 <= a <= b <= 1.22 && 0.0 <= k && BottomAt(b) <= beta * Q_128
    requires 13.234 + 7.949 * (a - 0.885) - 0.005 >= k * (beta * beta)
    ensures GrowsOn(k * TINY, a, b)
  {
    hide Grows, Rest, BottomAt;
    var rate := k * TINY;
    forall u | a <= u <= b ensures Grows(rate, u) {
      MiddleRest(u);
      GrowsByRest(k, u, b, beta, 13.234 + 7.949 * (a - 0.885));
    }
  }

  lemma HighGrows(k: real, a: real, b: real, beta: real)
    requires 1.18 <= a <= b <= 1.58 && 0.0 <= k && BottomAt(b) <= beta * Q_128
    requires 18.225 + 12.805 * (a - 1.38) - 0.005 >= k * (beta * beta)
    ensures GrowsOn(k * TINY, a, b)
  {
    hide Grows, Rest, BottomAt;
    var rate := k * TINY;
    forall u | a <= u <= b ensures Grows(rate, u) {
      HighRest(u);
      GrowsByRest(k, u, b, beta, 18.225 + 12.805 * (a - 1.38));
    }
  }

  lemma LateGrows(k: real, a: real, b: real, beta: real)
    requires 1.55 <= a <= b <= 1.75 && 0.0 <= k && BottomAt(b) <= beta * Q_128
    requires 20.862 + 7.049 * (a - 1.65) - 0.005 >= k * (beta * beta)
    ensures GrowsOn(k * TINY, a, b)
  {
    hide Grows, Rest, BottomAt;
    var rate := k * TINY;
    forall u | a <= u <= b ensures Grows(rate, u) {
      LateRest(u);
      GrowsByRest(k, u, b, beta, 20.862 + 7.049 * (a - 1.65));
    }
  }

  lemma GrowsEarly()
    ensures GrowsOn(3.4 * TINY, 0.0, 1.13)
  {
    hide Grows, GrowsOn;
    LowGrows(3.4, 0.0, 0.56, 1.4446);
    MiddleGrows(3.4, 0.56, 0.87, 1.7679);
    MiddleGrows(3.4, 0.87, 1.03, 1.9613);
    MiddleGrows(3.4, 1.03, 1.1, 2.0523);
    MiddleGrows(3.4, 1.1, 1.13, 2.0925);
    Joined(3.4 * TINY, 0.0, 0.56, 0.87);
    Joined(3.4 * TINY, 0.0, 0.87, 1.03);
    Joined(3.4 * TINY, 0.0, 1.03, 1.1);
    Joined(3.4 * TINY, 0.0, 1.1, 1.13);
  }

  lemma Joined(k: real, a: real, b: real, c: real)
    requires GrowsOn(k, a, b) && GrowsOn(k, b, c)
    ensures GrowsOn(k, a, c)
  {
    hide Grows;
    forall u | a <= u <= c ensures Grows(k, u) {
      assert u <= b || b <= u;
    }
  }

  lemma GrowsToTwo()
    ensures GrowsOn(12400.0 * TINY, 1.9, 2.0)
  {
    hide Grows, Root;
    var rate := 12400.0 * TINY;
    forall u | 1.9 <= u <= 2.0 ensures Grows(rate, u) {
      RootAbove(u);
      GrowsBySquare(12400.0, u, 2.0, 3.6557, 1994235939026363682.0);
    }
  }

  lemma GrowsToFive()
    ensures GrowsOn(4600000000000000.0 * TINY, 4.7, 5.0)
  {
    hide Grows, Root;
    var rate := 4600000000000000.0 * TINY;
    forall u | 4.7 <= u <= 5.0 ensures Grows(rate, u) {
      RootPast(u);
      GrowsBySquare(4600000000000000.0, u, 5.0, 23.2636, 6446377615895461088259195.0);
    }
  }

  lemma GrowsEverywhere()
    ensures GrowsOn(0.0, 0.0, 5.0)
  {
    hide Grows, Root, Rest;
    forall u | 0.0 <= u <= 5.0 ensures Grows(0.0, u) {
      if u <= 1.9 {
        RestPositive(u);
        GrowsByRest(0.0, u, 2.0, 3.6557, 0.005);
      } else {
        RootAbove(u);
        GrowsBySquare(0.0, u, 5.0, 23.2636, if u <= 2.5 then 1994235939026363682.0 else 20602925529109386137.4);
      }
      assert 0.0 * TINY == 0.0;
    }
  }

  lemma RestPositive(u: real)
    requires 0.0 <= u <= 1.9
    ensures Rest(u) >= 0.005
  {
    hide Rest;
    if u <= 0.58 {
      LowRest(u);
    } else if u <= 1.22 {
      MiddleRest(u);
    } else if u <= 1.58 {
      HighRest(u);
    } else if u <= 1.75 {
      LateRest(u);
    } else {
      LastRest(u);
    }
  }
}
