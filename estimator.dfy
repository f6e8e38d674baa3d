/**
 * `estimate_graphics_level` and `graphics_badge`: a compatibility score is
 * mapped to a graphics tier and an expected frame rate through four bands with
 * explicit integer boundaries, and a tier label to its display badge.
 */
module Estimator {

  import opened Text

  /** The tier labels the estimator returns. */
  const CannotRun: string := "Cannot run"
  const Low: string := "Low"
  const Medium: string := "Medium"
  const HighUltra: string := "High/Ultra"

  /** The `(level, fps)` pair. */
  datatype Estimate = Estimate(level: string, fps: nat)

  /** The four pairs the estimator can return, lowest tier first. */
  const Tiers: seq<Estimate> :=
    [Estimate(CannotRun, 0), Estimate(Low, 40), Estimate(Medium, 60), Estimate(HighUltra, 90)]

  /**
   * The bands are tested in order: at most 25, then 26 to 50, 51 to 75 and 76
   * to 100, each inclusive; a score in none of them (above 100, or strictly
   * between two bands) gets the "Low" pair. Only the first band returns 0 FPS.
   */
  function EstimateGraphicsLevel(score: real): (r: Estimate)
    ensures r in Tiers
    ensures r.fps == 0 <==> score <= 25.0
    ensures r.level == HighUltra <==> 76.0 <= score <= 100.0
  {
    if score <= 25.0 then Estimate(CannotRun, 0)
    else if 26.0 <= score <= 50.0 then Estimate(Low, 40)
    else if 51.0 <= score <= 75.0 then Estimate(Medium, 60)
    else if 76.0 <= score <= 100.0 then Estimate(HighUltra, 90)
    else Estimate(Low, 40)
  }

  /** The display text of each tier label. */
  const Badges: map<string, string> :=
    map[CannotRun := "\U{274C} Cannot Run",
        Low := "\U{1F422} Low",
        Medium := "\U{26A1} Medium",
        HighUltra := "\U{1F680} High/Ultra"]

  /**
   * The badge of a known label is an emoji, a space and the label itself up to
   * letter case; any other text is shown unchanged, and only then is the result
   * the text it was given.
   */
  function GraphicsBadge(level: string): (r: string)
    ensures r == level <==> level !in Badges
    ensures level in Badges ==> |r| == |level| + 2 && r[1] == ' ' && Lower(r[2..]) == Lower(level)
  {
    if level in Badges then Badges[level] else level
  }

  /** The bands on whole-number scores, the scale the estimator is designed for. */
  lemma WholeScoreBands(n: int)
    ensures n <= 25 ==> EstimateGraphicsLevel(n as real) == Estimate(CannotRun, 0)
    ensures 26 <= n <= 50 ==> EstimateGraphicsLevel(n as real) == Estimate(Low, 40)
    ensures 51 <= n <= 75 ==> EstimateGraphicsLevel(n as real) == Estimate(Medium, 60)
    ensures 76 <= n <= 100 ==> EstimateGraphicsLevel(n as real) == Estimate(HighUltra, 90)
    ensures 100 < n ==> EstimateGraphicsLevel(n as real) == Estimate(Low, 40)
  {
  }

  /** On whole-number scores from 0 to 100 the frame rate never falls as the score rises. */
  lemma FpsMonotoneOnScale(a: int, b: int)
    requires 0 <= a <= b <= 100
    ensures EstimateGraphicsLevel(a as real).fps <= EstimateGraphicsLevel(b as real).fps
  {
    WholeScoreBands(a);
    WholeScoreBands(b);
  }

  /**
   * The fallback: a fractional score between two bands, such as 25.5 or 50.5,
   * and any score above 100 get the "Low" pair, so past 100 the frame rate drops.
   */
  lemma FallbackToLow(score: real)
    requires (25.0 < score < 26.0) || (50.0 < score < 51.0) || (75.0 < score < 76.0) || 100.0 < score
    ensures EstimateGraphicsLevel(score) == Estimate(Low, 40)
  {
  }

  lemma FallbackExamples()
    ensures EstimateGraphicsLevel(50.5) == Estimate(Low, 40)
    ensures EstimateGraphicsLevel(101.0).fps < EstimateGraphicsLevel(100.0).fps
  {
    FallbackToLow(50.5);
    FallbackToLow(101.0);
  }

  /** Every level the estimator returns has a badge of its own, distinct from the label. */
  lemma EveryEstimateHasBadge(score: real)
    ensures EstimateGraphicsLevel(score).level in Badges
    ensures GraphicsBadge(EstimateGraphicsLevel(score).level) != EstimateGraphicsLevel(score).level
  {
  }

  /** Badges tell tiers apart: distinct known labels have distinct badges. */
  lemma BadgesDistinct(a: string, b: string)
    requires a in Badges && b in Badges && a != b
    ensures GraphicsBadge(a) != GraphicsBadge(b)
  {
  }
}
