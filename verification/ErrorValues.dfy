/** The error of the rational approximation of e^-u at single places, from exact values of series, numerator and denominator. */
module ErrorValues {
  import opened FixedPoint
  import opened ExponentialSeries
  import opened Decay
  import opened ErrorGrowth

  // ----- the series at a given place -----

  /** SeriesTail(u, i, 40) * 40! / i! */
  function ScaledTail(u: real, i: nat): real
    requires i <= ORDER
  {
    Times(SeriesTail(u, i, ORDER), Scale(i))
  }

  /** 40! / i! */
  function Scale(i: nat): real
    requires i <= ORDER
    decreases ORDER - i
  {
    if i == ORDER then 1.0 else (i + 1) as real * Scale(i + 1)
  }

  lemma TailStepScaled(u: real, i: nat, c: real, d: real)
    requires i < ORDER && Scale(i + 1) == d && c == (i + 1) as real * d
    ensures Scale(i) == c && ScaledTail(u, i) == c - Times(u, ScaledTail(u, i + 1))
  {
    var q, r := u / (i + 1) as real, SeriesTail(u, i + 1, ORDER);
    UnfoldTail(u, i, ORDER);
    StepAway(u, (i + 1) as real, q, r, d);
  }

  lemma StepAway(u: real, n: real, q: real, r: real, d: real)
    requires n > 0.0 && q == u / n
    ensures Times(TailStep(q, r), n * d) == n * d - Times(u, Times(r, d))
  {
    assert q * n == u;
    assert (1.0 - q * r) * (n * d) == n * d - (q * n) * (r * d);
  }

  function TermsFrom30(u: real): real {
    var x40 := 1.0;
    var x39 := 40.0 - Times(u, x40);
    var x38 := 1560.0 - Times(u, x39);
    var x37 := 59280.0 - Times(u, x38);
    var x36 := 2193360.0 - Times(u, x37);
    var x35 := 78960960.0 - Times(u, x36);
    var x34 := 2763633600.0 - Times(u, x35);
    var x33 := 93963542400.0 - Times(u, x34);
    var x32 := 3100796899200.0 - Times(u, x33);
    var x31 := 99225500774400.0 - Times(u, x32);
    var x30 := 3075990524006400.0 - Times(u, x31);
    x30
  }

  lemma TermsFrom30Is(u: real)
    ensures ScaledTail(u, 30) == TermsFrom30(u) && Scale(30) == 3075990524006400.0
  {
    hide Times, ScaledTail, Scale;
    LastTerm(u);
    TailStepScaled(u, 39, 40.0, 1.0);
    TailStepScaled(u, 38, 1560.0, 40.0);
    TailStepScaled(u, 37, 59280.0, 1560.0);
    TailStepScaled(u, 36, 2193360.0, 59280.0);
    TailStepScaled(u, 35, 78960960.0, 2193360.0);
    TailStepScaled(u, 34, 2763633600.0, 78960960.0);
    TailStepScaled(u, 33, 93963542400.0, 2763633600.0);
    TailStepScaled(u, 32, 3100796899200.0, 93963542400.0);
    TailStepScaled(u, 31, 99225500774400.0, 3100796899200.0);
    TailStepScaled(u, 30, 3075990524006400.0, 99225500774400.0);
  }

  lemma LastTerm(u: real)
    ensures ScaledTail(u, ORDER) == 1.0 && Scale(ORDER) == 1.0
  {
  }

  function TermsFrom20(u: real): real {
    var x30 := TermsFrom30(u);
    var x29 := 92279715720192000.0 - Times(u, x30);
    var x28 := 2676111755885568000.0 - Times(u, x29);
    var x27 := 74931129164795904000.0 - Times(u, x28);
    var x26 := 2023140487449489408000.0 - Times(u, x27);
    var x25 := 52601652673686724608000.0 - Times(u, x26);
    var x24 := 1315041316842168115200000.0 - Times(u, x25);
    var x23 := 31560991604212034764800000.0 - Times(u, x24);
    var x22 := 725902806896876799590400000.0 - Times(u, x23);
    var x21 := 15969861751731289590988800000.0 - Times(u, x22);
    var x20 := 335367096786357081410764800000.0 - Times(u, x21);
    x20
  }

  lemma TermsFrom20Is(u: real)
    ensures ScaledTail(u, 20) == TermsFrom20(u) && Scale(20) == 335367096786357081410764800000.0
  {
    hide Times, ScaledTail, Scale, TermsFrom30;
    TermsFrom30Is(u);
    TailStepScaled(u, 29, 92279715720192000.0, 3075990524006400.0);
    TailStepScaled(u, 28, 2676111755885568000.0, 92279715720192000.0);
    TailStepScaled(u, 27, 74931129164795904000.0, 2676111755885568000.0);
    TailStepScaled(u, 26, 2023140487449489408000.0, 74931129164795904000.0);
    TailStepScaled(u, 25, 52601652673686724608000.0, 2023140487449489408000.0);
    TailStepScaled(u, 24, 1315041316842168115200000.0, 52601652673686724608000.0);
    TailStepScaled(u, 23, 31560991604212034764800000.0, 1315041316842168115200000.0);
    TailStepScaled(u, 22, 725902806896876799590400000.0, 31560991604212034764800000.0);
    TailStepScaled(u, 21, 15969861751731289590988800000.0, 725902806896876799590400000.0);
    TailStepScaled(u, 20, 335367096786357081410764800000.0, 15969861751731289590988800000.0);
  }

  function TermsFrom10(u: real): real {
    var x20 := TermsFrom20(u);
    var x19 := 6707341935727141628215296000000.0 - Times(u, x20);
    var x18 := 127439496778815690936090624000000.0 - Times(u, x19);
    var x17 := 2293910942018682436849631232000000.0 - Times(u, x18);
    var x16 := 38996486014317601426443730944000000.0 - Times(u, x17);
    var x15 := 623943776229081622823099695104000000.0 - Times(u, x16);
    var x14 := 9359156643436224342346495426560000000.0 - Times(u, x15);
    var x13 := 131028193008107140792850935971840000000.0 - Times(u, x14);
    var x12 := 1703366509105392830307062167633920000000.0 - Times(u, x13);
    var x11 := 20440398109264713963684746011607040000000.0 - Times(u, x12);
    var x10 := 224844379201911853600532206127677440000000.0 - Times(u, x11);
    x10
  }

  lemma TermsFrom10Is(u: real)
    ensures ScaledTail(u, 10) == TermsFrom10(u) && Scale(10) == 224844379201911853600532206127677440000000.0
  {
    hide Times, ScaledTail, Scale, TermsFrom20;
    TermsFrom20Is(u);
    TailStepScaled(u, 19, 6707341935727141628215296000000.0, 335367096786357081410764800000.0);
    TailStepScaled(u, 18, 127439496778815690936090624000000.0, 6707341935727141628215296000000.0);
    TailStepScaled(u, 17, 2293910942018682436849631232000000.0, 127439496778815690936090624000000.0);
    TailStepScaled(u, 16, 38996486014317601426443730944000000.0, 2293910942018682436849631232000000.0);
    TailStepScaled(u, 15, 623943776229081622823099695104000000.0, 38996486014317601426443730944000000.0);
    TailStepScaled(u, 14, 9359156643436224342346495426560000000.0, 623943776229081622823099695104000000.0);
    TailStepScaled(u, 13, 131028193008107140792850935971840000000.0, 9359156643436224342346495426560000000.0);
    TailStepScaled(u, 12, 1703366509105392830307062167633920000000.0, 131028193008107140792850935971840000000.0);
    TailStepScaled(u, 11, 20440398109264713963684746011607040000000.0, 1703366509105392830307062167633920000000.0);
    TailStepScaled(u, 10, 224844379201911853600532206127677440000000.0, 20440398109264713963684746011607040000000.0);
  }

  function TermsFrom0(u: real): real {
    var x10 := TermsFrom10(u);
    var x9 := 2248443792019118536005322061276774400000000.0 - Times(u, x10);
    var x8 := 20235994128172066824047898551490969600000000.0 - Times(u, x9);
    var x7 := 161887953025376534592383188411927756800000000.0 - Times(u, x8);
    var x6 := 1133215671177635742146682318883494297600000000.0 - Times(u, x7);
    var x5 := 6799294027065814452880093913300965785600000000.0 - Times(u, x6);
    var x4 := 33996470135329072264400469566504828928000000000.0 - Times(u, x5);
    var x3 := 135985880541316289057601878266019315712000000000.0 - Times(u, x4);
    var x2 := 407957641623948867172805634798057947136000000000.0 - Times(u, x3);
    var x1 := 815915283247897734345611269596115894272000000000.0 - Times(u, x2);
    var x0 := 815915283247897734345611269596115894272000000000.0 - Times(u, x1);
    x0
  }

  lemma TermsFrom0Is(u: real)
    ensures ScaledTail(u, 0) == TermsFrom0(u) && Scale(0) == 815915283247897734345611269596115894272000000000.0
  {
    hide Times, ScaledTail, Scale, TermsFrom10;
    TermsFrom10Is(u);
    TailStepScaled(u, 9, 2248443792019118536005322061276774400000000.0, 224844379201911853600532206127677440000000.0);
    TailStepScaled(u, 8, 20235994128172066824047898551490969600000000.0, 2248443792019118536005322061276774400000000.0);
    TailStepScaled(u, 7, 161887953025376534592383188411927756800000000.0, 20235994128172066824047898551490969600000000.0);
    TailStepScaled(u, 6, 1133215671177635742146682318883494297600000000.0, 161887953025376534592383188411927756800000000.0);
    TailStepScaled(u, 5, 6799294027065814452880093913300965785600000000.0, 1133215671177635742146682318883494297600000000.0);
    TailStepScaled(u, 4, 33996470135329072264400469566504828928000000000.0, 6799294027065814452880093913300965785600000000.0);
    TailStepScaled(u, 3, 135985880541316289057601878266019315712000000000.0, 33996470135329072264400469566504828928000000000.0);
    TailStepScaled(u, 2, 407957641623948867172805634798057947136000000000.0, 135985880541316289057601878266019315712000000000.0);
    TailStepScaled(u, 1, 815915283247897734345611269596115894272000000000.0, 407957641623948867172805634798057947136000000000.0);
    TailStepScaled(u, 0, 815915283247897734345611269596115894272000000000.0, 815915283247897734345611269596115894272000000000.0);
  }

  /** 40! */
  const SCALE_40 := 815915283247897734345611269596115894272000000000.0

  lemma SeriesIs(u: real)
    ensures TermsFrom0(u) == Times(SCALE_40, ExpSeries(u, ORDER))
  {
    hide TermsFrom0, ExpSeries, SeriesTail, Scale;
    SeriesAsTail(u, ORDER);
    TermsFrom0Is(u);
  }

  lemma Unscaled(x: real, s: real)
    ensures Times(SCALE_40, x) >= SCALE_40 * s ==> x >= s
    ensures Times(SCALE_40, x) <= SCALE_40 * s ==> x <= s
  {
  }

  lemma ErrorAbove(u: real, s: real, k: real)
    requires 0.0 <= u && TermsFrom0(u) >= SCALE_40 * s && (s - k * 0.000000000000000000000000000001) * BottomAt(u) > TopAt(u)
    ensures Error(u) > k * TINY
  {
    hide TermsFrom0, ExpSeries, Top, Bottom, TopAt, BottomAt, Times;
    SeriesIs(u);
    Unscaled(ExpSeries(u, ORDER), s);
    TopAtIs(u);
    BottomAtIs(u);
    BottomPositive(u);
    QuotientBelow(Top(u), Bottom(u), s - k * TINY);
  }

  lemma ErrorBelow(u: real, s: real, k: real)
    requires 0.0 <= u && TermsFrom0(u) <= SCALE_40 * s && (s - k * 0.000000000000000000000000000001) * BottomAt(u) < TopAt(u)
    ensures Error(u) < k * TINY
  {
    hide TermsFrom0, ExpSeries, Top, Bottom, TopAt, BottomAt, Times;
    SeriesIs(u);
    Unscaled(ExpSeries(u, ORDER), s);
    TopAtIs(u);
    BottomAtIs(u);
    BottomPositive(u);
    QuotientBelow(-Top(u), Bottom(u), k * TINY - s);
    assert -Top(u) / Bottom(u) == -(Top(u) / Bottom(u));
  }

  lemma QuotientBelow(a: real, b: real, x: real)
    requires b >= 1.0 && a < x * b
    ensures a / b < x
  {
    assert (a / b) * b == a;
  }

  // ----- the error at single places -----

  lemma Series08694()
    ensures TermsFrom0(0.8694) <= SCALE_40 * 0.419202995603550948866672435129806866924684906
  {
  }

  lemma At08694()
    ensures Error(0.8694) < 3.3999999 * TINY
  {
    hide Error, TermsFrom0;
    Series08694();
    ErrorBelow(0.8694, 0.419202995603550948866672435129806866924684906, 3.3999999);
  }

  lemma Series08695()
    ensures TermsFrom0(0.8695) >= SCALE_40 * 0.419161077399935706370250802408891672880158181
  {
  }

  lemma At08695()
    ensures Error(0.8695) > 3.4000753 * TINY
  {
    hide Error, TermsFrom0;
    Series08695();
    ErrorAbove(0.8695, 0.419161077399935706370250802408891672880158181, 3.4000753);
  }

  lemma Series09800()
    ensures TermsFrom0(0.98) <= SCALE_40 * 0.375311098851399538714267232477488769625545598
  {
  }

  lemma At09800()
    ensures Error(0.98) < 3.481 * TINY
  {
    hide Error, TermsFrom0;
    Series09800();
    ErrorBelow(0.98, 0.375311098851399538714267232477488769625545598, 3.481);
  }

  lemma Series11300()
    ensures TermsFrom0(1.13) >= SCALE_40 * 0.323033256422252934440585612640340502012331488
  {
  }

  lemma At11300()
    ensures Error(1.13) > 3.526172 * TINY
  {
    hide Error, TermsFrom0;
    Series11300();
    ErrorAbove(1.13, 0.323033256422252934440585612640340502012331488, 3.526172);
  }

  lemma Series12200()
    ensures TermsFrom0(1.22) >= SCALE_40 * 0.295230166924014209141512284320294107531196635
  {
  }

  lemma At12200()
    ensures Error(1.22) > 3.5230081 * TINY
  {
    hide Error, TermsFrom0;
    Series12200();
    ErrorAbove(1.22, 0.295230166924014209141512284320294107531196635, 3.5230081);
  }

  lemma Series13700()
    ensures TermsFrom0(1.37) >= SCALE_40 * 0.254106959552800303126014827728343638992322058
  {
  }

  lemma At13700()
    ensures Error(1.37) > 3.4893258 * TINY
  {
    hide Error, TermsFrom0;
    Series13700();
    ErrorAbove(1.37, 0.254106959552800303126014827728343638992322058, 3.4893258);
  }

  lemma Series14750()
    ensures TermsFrom0(1.475) >= SCALE_40 * 0.228778727045222439071248161883877647790346338
  {
  }

  lemma At14750()
    ensures Error(1.475) > 3.4397243 * TINY
  {
    hide Error, TermsFrom0;
    Series14750();
    ErrorAbove(1.475, 0.228778727045222439071248161883877647790346338, 3.4397243);
  }

  lemma Series15260()
    ensures TermsFrom0(1.526) >= SCALE_40 * 0.217403544582634965610043554034704006560837108
  {
  }

  lemma At15260()
    ensures Error(1.526) > 3.4154615 * TINY
  {
    hide Error, TermsFrom0;
    Series15260();
    ErrorAbove(1.526, 0.217403544582634965610043554034704006560837108, 3.4154615);
  }

  lemma Series15470()
    ensures TermsFrom0(1.547) >= SCALE_40 * 0.212885673819938156383817217683174924484327713
  {
  }

  lemma At15470()
    ensures Error(1.547) > 3.4042691 * TINY
  {
    hide Error, TermsFrom0;
    Series15470();
    ErrorAbove(1.547, 0.212885673819938156383817217683174924484327713, 3.4042691);
  }

  lemma Series15530()
    ensures TermsFrom0(1.553) >= SCALE_40 * 0.211612184066745073992344968985350241242032862
  {
  }

  lemma At15530()
    ensures Error(1.553) > 3.4007685 * TINY
  {
    hide Error, TermsFrom0;
    Series15530();
    ErrorAbove(1.553, 0.211612184066745073992344968985350241242032862, 3.4007685);
  }

  lemma Series15540()
    ensures TermsFrom0(1.554) >= SCALE_40 * 0.211400677653510480357627218841906376500174726
  {
  }

  lemma At15540()
    ensures Error(1.554) > 3.4001708 * TINY
  {
    hide Error, TermsFrom0;
    Series15540();
    ErrorAbove(1.554, 0.211400677653510480357627218841906376500174726, 3.4001708);
  }

  lemma Series15550()
    ensures TermsFrom0(1.555) <= SCALE_40 * 0.211189382640971156957114842980790385441979227
  {
  }

  lemma At15550()
    ensures Error(1.555) < 3.3995691 * TINY
  {
    hide Error, TermsFrom0;
    Series15550();
    ErrorBelow(1.555, 0.211189382640971156957114842980790385441979227, 3.3995691);
  }

  lemma Series15570()
    ensures TermsFrom0(1.557) <= SCALE_40 * 0.210767425973009389687578622129487980207642809
  {
  }

  lemma At15570()
    ensures Error(1.557) < 3.3983535 * TINY
  {
    hide Error, TermsFrom0;
    Series15570();
    ErrorBelow(1.557, 0.210767425973009389687578622129487980207642809, 3.3983535);
  }

  lemma Series15690()
    ensures TermsFrom0(1.569) <= SCALE_40 * 0.208253331596651534765329104696690642159898676
  {
  }

  lemma At15690()
    ensures Error(1.569) < 3.390737 * TINY
  {
    hide Error, TermsFrom0;
    Series15690();
    ErrorBelow(1.569, 0.208253331596651534765329104696690642159898676, 3.390737);
  }

  lemma Series16080()
    ensures TermsFrom0(1.608) <= SCALE_40 * 0.200287789345173073266035331429034423135019238
  {
  }

  lemma At16080()
    ensures Error(1.608) < 3.3642614 * TINY
  {
    hide Error, TermsFrom0;
    Series16080();
    ErrorBelow(1.608, 0.200287789345173073266035331429034423135019238, 3.3642614);
  }

  lemma Series16870()
    ensures TermsFrom0(1.687) <= SCALE_40 * 0.185073913733787189085277786649756599619471531
  {
  }

  lemma At16870()
    ensures Error(1.687) < 3.3124441 * TINY
  {
    hide Error, TermsFrom0;
    Series16870();
    ErrorBelow(1.687, 0.185073913733787189085277786649756599619471531, 3.3124441);
  }

  lemma Series17210()
    ensures TermsFrom0(1.721) <= SCALE_40 * 0.178887171266818789935235698116589235206996118
  {
  }

  lemma At17210()
    ensures Error(1.721) < 3.3610385 * TINY
  {
    hide Error, TermsFrom0;
    Series17210();
    ErrorBelow(1.721, 0.178887171266818789935235698116589235206996118, 3.3610385);
  }

  lemma Series17250()
    ensures TermsFrom0(1.725) <= SCALE_40 * 0.178173051772898426819819741143632716516907682
  {
  }

  lemma At17250()
    ensures Error(1.725) < 3.394547 * TINY
  {
    hide Error, TermsFrom0;
    Series17250();
    ErrorBelow(1.725, 0.178173051772898426819819741143632716516907682, 3.394547);
  }

  lemma Series19000()
    ensures TermsFrom0(1.9) <= SCALE_40 * 0.149568619222635052641012069103734897955501573
  {
  }

  lemma At19000()
    ensures Error(1.9) < 694.425 * TINY
  {
    hide Error, TermsFrom0;
    Series19000();
    ErrorBelow(1.9, 0.149568619222635052641012069103734897955501573, 694.425);
  }

  lemma Series20000()
    ensures TermsFrom0(2.0) <= SCALE_40 * 0.135335283236612691893999494972484403470376176
  {
  }

  lemma At20000()
    ensures Error(2.0) < 12400.0 * TINY
  {
    hide Error, TermsFrom0;
    Series20000();
    ErrorBelow(2.0, 0.135335283236612691893999494972484403470376176, 12400.0);
  }

  lemma Series29000()
    ensures TermsFrom0(2.9) <= SCALE_40 * 0.055023220056407229029946530834429238340470254
  {
  }

  lemma At29000()
    ensures Error(2.9) < 11387547348.355 * TINY
  {
    hide Error, TermsFrom0;
    Series29000();
    ErrorBelow(2.9, 0.055023220056407229029946530834429238340470254, 11387547348.355);
  }

  lemma Series38500()
    ensures TermsFrom0(3.85) <= SCALE_40 * 0.02127973643837716938364897486215214621993328
  {
  }

  lemma At38500()
    ensures Error(3.85) < 17608254117845.946 * TINY
  {
    hide Error, TermsFrom0;
    Series38500();
    ErrorBelow(3.85, 0.02127973643837716938364897486215214621993328, 17608254117845.946);
  }

  lemma Series44500()
    ensures TermsFrom0(4.45) <= SCALE_40 * 0.011678566970395445219074263161310486437634984
  {
  }

  lemma At44500()
    ensures Error(4.45) < 446085920704770.997 * TINY
  {
    hide Error, TermsFrom0;
    Series44500();
    ErrorBelow(4.45, 0.011678566970395445219074263161310486437634984, 446085920704770.997);
  }

  lemma Series47000()
    ensures TermsFrom0(4.7) <= SCALE_40 * 0.009095277101695817092150771173262423348073345
  {
  }

  lemma At47000()
    ensures Error(4.7) < 1403442949882247.543 * TINY
  {
    hide Error, TermsFrom0;
    Series47000();
    ErrorBelow(4.7, 0.009095277101695817092150771173262423348073345, 1403442949882247.543);
  }

  lemma Series49838()
    ensures TermsFrom0(4.9838) <= SCALE_40 * 0.006847990687703514416502144359783860203626398
  {
  }

  lemma At49838()
    ensures Error(4.9838) < 4599900000000000.0 * TINY
  {
    hide Error, TermsFrom0;
    Series49838();
    ErrorBelow(4.9838, 0.006847990687703514416502144359783860203626398, 4599900000000000.0);
  }

  lemma Series49839()
    ensures TermsFrom0(4.9839) >= SCALE_40 * 0.006847305922873556200330485520561679250060871
  {
  }

  lemma At49839()
    ensures Error(4.9839) > 4601149000000000.0 * TINY
  {
    hide Error, TermsFrom0;
    Series49839();
    ErrorAbove(4.9839, 0.006847305922873556200330485520561679250060871, 4601149000000000.0);
  }
}
