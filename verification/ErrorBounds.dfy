/** The error of the rational approximation of e^-u on [0, 5], against the two documented bounds. */
module ErrorBounds {
  import opened FixedPoint
  import opened ExponentialSeries
  import opened Recentring
  import opened Decay
  import opened ErrorGrowth
  import opened ErrorValues

  // ----- the first documented bound, 3.4e-30 -----

  /** Kept away from the bound itself, so that rounding in the last bits cannot matter. */
  const BELOW_FIRST := 3.3999999 * TINY

  const ABOVE_FIRST := 3.4000001 * TINY

  lemma EarlyHolds(u: real)
    requires 0.0 <= u <= 0.8694
    ensures Error(u) < BELOW_FIRST
  {
    hide Error, Grows;
    At08694();
    GrowsEarly();
    GrowsPart(3.4 * TINY, 0.0, 1.13, 0.0, 0.8694);
    LowerRate(3.4 * TINY, BELOW_FIRST, 0.0, 0.8694);
    BelowUpTo(BELOW_FIRST, BELOW_FIRST, 0.0, 0.8694, u);
  }

  lemma MiddleFails(u: real)
    requires 0.8695 <= u <= 1.13
    ensures Error(u) > ABOVE_FIRST
  {
    hide Error, Grows;
    At08695();
    GrowsEarly();
    GrowsPart(3.4 * TINY, 0.0, 1.13, 0.8695, 1.13);
    AboveFrom(ABOVE_FIRST, 3.4 * TINY, 0.8695, 1.13, u);
  }

  /** On [0, 0.8694] and on [1.5544, 1.725] the error is below the first bound. */
  lemma FirstBoundHolds(u: real)
    requires 0.0 <= u <= 0.8694 || 1.5544 <= u <= 1.725
    ensures Error(u) < BELOW_FIRST
  {
    hide Error, Grows, GrowsOn;
    if u <= 0.8694 {
      EarlyHolds(u);
    } else if u <= 1.555 {
      At15550();
      HighGrows(2.701, 1.5544, 1.555, 2.7513);
      BelowUpTo(BELOW_FIRST, 2.701 * TINY, 1.5544, 1.555, u);
    } else if u <= 1.557 {
      At15570();
      HighGrows(2.696, 1.555, 1.557, 2.7548);
      BelowUpTo(BELOW_FIRST, 2.696 * TINY, 1.555, 1.557, u);
    } else if u <= 1.569 {
      At15690();
      HighGrows(2.658, 1.557, 1.569, 2.7761);
      BelowUpTo(BELOW_FIRST, 2.658 * TINY, 1.557, 1.569, u);
    } else if u <= 1.608 {
      At16080();
      LateGrows(2.503, 1.569, 1.608, 2.8464);
      BelowUpTo(BELOW_FIRST, 2.503 * TINY, 1.569, 1.608, u);
    } else if u <= 1.687 {
      At16870();
      LateGrows(2.293, 1.608, 1.687, 2.9941);
      BelowUpTo(BELOW_FIRST, 2.293 * TINY, 1.608, 1.687, u);
    } else if u <= 1.721 {
      At17210();
      LateGrows(2.255, 1.687, 1.721, 3.0599);
      BelowUpTo(BELOW_FIRST, 2.255 * TINY, 1.687, 1.721, u);
    } else {
      At17250();
      LateGrows(2.269, 1.721, 1.725, 3.0677);
      BelowUpTo(BELOW_FIRST, 2.269 * TINY, 1.721, 1.725, u);
    }
  }

  /** From 0.8695 to 1.5542 it is above. */
  lemma FirstBoundFails(u: real)
    requires 0.8695 <= u <= 1.5542
    ensures Error(u) > ABOVE_FIRST
  {
    hide Error, Grows, GrowsOn;
    if u <= 1.13 {
      MiddleFails(u);
    } else if u <= 1.22 {
      At11300();
      MiddleGrows(3.085, 1.13, 1.22, 2.2177);
      AboveFrom(ABOVE_FIRST, 3.085 * TINY, 1.13, 1.22, u);
    } else if u <= 1.37 {
      At12200();
      HighGrows(2.709, 1.22, 1.37, 2.4429);
      AboveFrom(ABOVE_FIRST, 2.709 * TINY, 1.22, 1.37, u);
    } else if u <= 1.475 {
      At13700();
      HighGrows(2.648, 1.37, 1.475, 2.6135);
      AboveFrom(ABOVE_FIRST, 2.648 * TINY, 1.37, 1.475, u);
    } else if u <= 1.526 {
      At14750();
      HighGrows(2.664, 1.475, 1.526, 2.7006);
      AboveFrom(ABOVE_FIRST, 2.664 * TINY, 1.475, 1.526, u);
    } else if u <= 1.547 {
      At15260();
      HighGrows(2.681, 1.526, 1.547, 2.7372);
      AboveFrom(ABOVE_FIRST, 2.681 * TINY, 1.526, 1.547, u);
    } else if u <= 1.553 {
      At15470();
      HighGrows(2.696, 1.547, 1.553, 2.7477);
      AboveFrom(ABOVE_FIRST, 2.696 * TINY, 1.547, 1.553, u);
    } else if u <= 1.554 {
      At15530();
      HighGrows(2.703, 1.553, 1.554, 2.7495);
      AboveFrom(ABOVE_FIRST, 2.703 * TINY, 1.553, 1.554, u);
    } else {
      At15540();
      HighGrows(2.704, 1.554, 1.5542, 2.7499);
      AboveFrom(ABOVE_FIRST, 2.704 * TINY, 1.554, 1.5542, u);
    }
  }

  // ----- the second documented bound, 4.6e-15 -----

  lemma ErrorNotNegative(u: real)
    requires 0.0 <= u <= 5.0
    ensures Error(u) >= 0.0
  {
    hide Error, Grows, GrowsOn, Times;
    GrowsEverywhere();
    GrowsTo(u);
    ErrorAtZero();
    ErrorFalls(0.0, 0.0, u);
    TimesZeroLeft(1.0 - (u - 0.0));
  }

  lemma TimesZeroLeft(x: real)
    ensures Times(0.0 - 0.0, x) == 0.0
  {
  }

  lemma GrowsTo(u: real)
    requires GrowsOn(0.0, 0.0, 5.0) && 0.0 <= u <= 5.0
    ensures GrowsOn(0.0, 0.0, u)
  {
    hide Grows;
  }

  lemma ErrorAtZero()
    ensures Error(0.0) == 0.0
  {
    hide ExpSeries, Top, Bottom;
    SeriesIs(0.0);
    TopAtIs(0.0);
    BottomAtIs(0.0);
  }

  const TO_TWO := 12400.0 * TINY

  lemma ErrorToTwo(u: real)
    requires 0.0 <= u <= 2.0
    ensures Error(u) < TO_TWO
  {
    hide Error, Grows, GrowsOn;
    if u <= 0.8694 {
      EarlyHolds(u);
    } else if u <= 0.98 {
      At09800();
      GrowsEverywhere();
      GrowsPart(0.0, 0.0, 5.0, 0.02, 0.98);
      BelowUpTo(TO_TWO, 0.0, 0.02, 0.98, u);
    } else if u <= 1.9 {
      At19000();
      GrowsEverywhere();
      GrowsPart(0.0, 0.0, 5.0, 0.96, 1.9);
      BelowUpTo(TO_TWO, 0.0, 0.96, 1.9, u);
    } else {
      At20000();
      GrowsToTwo();
      BelowUpTo(TO_TWO, TO_TWO, 1.9, 2.0, u);
    }
  }

  const BELOW_SECOND := 4599900000000000.0 * TINY

  const ABOVE_SECOND := 4600100000000000.0 * TINY

  lemma SecondHoldsTo49838(u: real)
    requires 4.7 <= u <= 4.9838
    ensures Error(u) < BELOW_SECOND
  {
    hide Error, Grows;
    At49838();
    GrowsToFive();
    GrowsPart(4600000000000000.0 * TINY, 4.7, 5.0, 4.7, 4.9838);
    LowerRate(4600000000000000.0 * TINY, BELOW_SECOND, 4.7, 4.9838);
    BelowUpTo(BELOW_SECOND, BELOW_SECOND, 4.7, 4.9838, u);
  }

  /** On [0, 4.9838] the error is below the second bound. */
  lemma SecondBoundHolds(u: real)
    requires 0.0 <= u <= 4.9838
    ensures Error(u) < BELOW_SECOND
  {
    hide Error, Grows;
    if u <= 2.0 {
      ErrorToTwo(u);
    } else if u <= 2.9 {
      At29000();
      GrowsEverywhere();
      GrowsPart(0.0, 0.0, 5.0, 1.95, 2.9);
      BelowUpTo(BELOW_SECOND, 0.0, 1.95, 2.9, u);
    } else if u <= 3.85 {
      At38500();
      GrowsEverywhere();
      GrowsPart(0.0, 0.0, 5.0, 2.9, 3.85);
      BelowUpTo(BELOW_SECOND, 0.0, 2.9, 3.85, u);
    } else if u <= 4.45 {
      At44500();
      GrowsEverywhere();
      GrowsPart(0.0, 0.0, 5.0, 3.85, 4.45);
      BelowUpTo(BELOW_SECOND, 0.0, 3.85, 4.45, u);
    } else if u <= 4.7 {
      At47000();
      GrowsEverywhere();
      GrowsPart(0.0, 0.0, 5.0, 4.45, 4.7);
      BelowUpTo(BELOW_SECOND, 0.0, 4.45, 4.7, u);
    } else {
      SecondHoldsTo49838(u);
    }
  }

  /** From 4.9839 on it is above. */
  lemma SecondBoundFails(u: real)
    requires 4.9839 <= u <= 5.0
    ensures Error(u) > ABOVE_SECOND
  {
    hide Error, Grows;
    At49839();
    GrowsToFive();
    GrowsPart(4600000000000000.0 * TINY, 4.7, 5.0, 4.9839, 5.0);
    AboveFrom(ABOVE_SECOND, 4600000000000000.0 * TINY, 4.9839, 5.0, u);
  }

  lemma LowerRate(k: real, l: real, a: real, b: real)
    requires l <= k && GrowsOn(k, a, b)
    ensures GrowsOn(l, a, b)
  {
    hide Trend, Bottom;
    forall u | a <= u <= b ensures Grows(l, u) {
      assert Grows(k, u);
      SquareNotNegative(Bottom(u));
      MulBelow(l, k, Times(Bottom(u), Bottom(u)));
    }
  }
}
