/** The spread and total model: two linear blends of the four scores of a
    game (home pitcher, away pitcher, home hitters, away hitters), each
    rounded to two decimals. */
module Prediction {
  import opened Rounding
  import opened Scoring

  /** `predict_margin` before rounding: home minus away.  A home side that
      is at least as good on both scores is never predicted to lose, and one
      that is better on both is predicted to win. */
  function RawMargin(homeP: real, awayP: real, homeH: real, awayH: real): (m: real)
    ensures homeP >= awayP && homeH >= awayH ==> m >= 0.0
    ensures homeP > awayP && homeH > awayH ==> m > 0.0
    ensures homeP <= awayP && homeH <= awayH ==> m <= 0.0
  {
    (homeP - awayP) * 0.4 + (homeH - awayH) * 0.6
  }

  /** `predict_total` before rounding, with this file's coefficients.  When
      all four scores equal some s, the total is 8.5 + 0.04 s: a hitter point
      adds 0.1 run and a pitcher point takes 0.08 away. */
  function RawTotal(homeP: real, awayP: real, homeH: real, awayH: real): (t: real)
    ensures homeP == awayP == homeH == awayH ==> t == 8.5 + homeH * 0.04
  {
    (homeH + awayH) * 0.1 - (homeP + awayP) * 0.08 + 8.5
  }

  /** `predict_margin`: the blend rounded to two decimals. */
  function PredictMargin(homeP: real, awayP: real, homeH: real, awayH: real): (m: real)
    ensures RawMargin(homeP, awayP, homeH, awayH) - 0.005 <= m <= RawMargin(homeP, awayP, homeH, awayH) + 0.005
  {
    Round2(RawMargin(homeP, awayP, homeH, awayH))
  }

  /** `predict_total`: the blend rounded to two decimals. */
  function PredictTotal(homeP: real, awayP: real, homeH: real, awayH: real): (t: real)
    ensures RawTotal(homeP, awayP, homeH, awayH) - 0.005 <= t <= RawTotal(homeP, awayP, homeH, awayH) + 0.005
  {
    Round2(RawTotal(homeP, awayP, homeH, awayH))
  }

  /** Swapping home and away negates the margin, rounded or not. */
  lemma MarginAntisymmetric(homeP: real, awayP: real, homeH: real, awayH: real)
    ensures RawMargin(awayP, homeP, awayH, homeH) == -RawMargin(homeP, awayP, homeH, awayH)
    ensures PredictMargin(awayP, homeP, awayH, homeH) == -PredictMargin(homeP, awayP, homeH, awayH)
  {
    Round2Odd(RawMargin(homeP, awayP, homeH, awayH));
  }

  /** Two evenly matched sides are predicted a margin of 0. */
  lemma MarginZeroOnTie(p: real, h: real)
    ensures PredictMargin(p, p, h, h) == 0.0
  {
    Round2Exact(0);
  }

  /** For scores in [0, 100] the margin lies in [-100, 100]. */
  lemma MarginBounds(homeP: real, awayP: real, homeH: real, awayH: real)
    requires IsScore(homeP) && IsScore(awayP) && IsScore(homeH) && IsScore(awayH)
    ensures -100.0 <= RawMargin(homeP, awayP, homeH, awayH) <= 100.0
    ensures -100.0 <= PredictMargin(homeP, awayP, homeH, awayH) <= 100.0
  {
    var m := RawMargin(homeP, awayP, homeH, awayH);
    Round2Monotone(-100.0, m);
    Round2Monotone(m, 100.0);
    Round2Exact(-10000);
    Round2Exact(10000);
  }

  /** The total does not depend on which side is at home. */
  lemma TotalSymmetric(homeP: real, awayP: real, homeH: real, awayH: real)
    ensures PredictTotal(awayP, homeP, awayH, homeH) == PredictTotal(homeP, awayP, homeH, awayH)
  {
    assert RawTotal(awayP, homeP, awayH, homeH) == RawTotal(homeP, awayP, homeH, awayH);
  }

  /** Better hitting never lowers the total and better pitching never raises
      it: the total is non-decreasing in each hitter score and non-increasing
      in each pitcher score. */
  lemma TotalMonotone(homeP: real, awayP: real, homeH: real, awayH: real,
                      homeP': real, awayP': real, homeH': real, awayH': real)
    requires homeP' <= homeP && awayP' <= awayP
    requires homeH <= homeH' && awayH <= awayH'
    ensures PredictTotal(homeP, awayP, homeH, awayH) <= PredictTotal(homeP', awayP', homeH', awayH')
  {
    Round2Monotone(RawTotal(homeP, awayP, homeH, awayH), RawTotal(homeP', awayP', homeH', awayH'));
  }

  /** For scores in [0, 100] the total lies in [-7.5, 28.5]. */
  lemma TotalBounds(homeP: real, awayP: real, homeH: real, awayH: real)
    requires IsScore(homeP) && IsScore(awayP) && IsScore(homeH) && IsScore(awayH)
    ensures -7.5 <= RawTotal(homeP, awayP, homeH, awayH) <= 28.5
    ensures -7.5 <= PredictTotal(homeP, awayP, homeH, awayH) <= 28.5
  {
    var t := RawTotal(homeP, awayP, homeH, awayH);
    Round2Monotone(-7.5, t);
    Round2Monotone(t, 28.5);
    Round2Exact(-750);
    Round2Exact(2850);
  }

  /** The total can be negative: two perfect pitchers facing two lineups that
      score 0 are predicted -7.5 runs. */
  lemma TotalCanBeNegative()
    ensures PredictTotal(100.0, 100.0, 0.0, 0.0) == -7.5
  {
    Round2Exact(-750);
  }
}
