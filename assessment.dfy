/**
 * The compatibility verdict the application shows for one game: the user's
 * profile is compared with the minimum and the recommended requirement blocks,
 * each standing in for the other when it is missing; the two scores are
 * averaged with floor division and mapped to a graphics tier, while the
 * verdict and the notes come from the minimum comparison alone.
 */
module Assessment {
  import opened Wrappers
  import opened Comparator
  import opened Estimator

  /** What is shown: no requirements, the ZeroDivisionError, or the verdict. */
  datatype Report =
    | NotAvailable
    | Crashed
    | Assessed(canRun: bool, notes: seq<Note>, score: int, estimate: Estimate)

  /** Python truthiness of a requirement block: present and not empty. */
  predicate Truthy(block: Option<seq<string>>)
  {
    block.Some? && block.value != []
  }

  /** `a or b`: the first block when it is truthy, the second otherwise. */
  function Or(a: Option<seq<string>>, b: Option<seq<string>>): (r: Option<seq<string>>)
    ensures Truthy(a) ==> r == a
    ensures Truthy(a) || Truthy(b) ==> Truthy(r)
    ensures r == a || r == b
  {
    if Truthy(a) then a else b
  }

  /**
   * Both comparisons are made, minimum first, so a division by zero in either
   * ends the assessment; the score is `(min + rec) // 2`. The assessment is
   * unavailable exactly when neither block is truthy.
   */
  function Assess(user: Profile, minimum: Option<seq<string>>, recommended: Option<seq<string>>): (r: Report)
    ensures r == NotAvailable <==> !Truthy(minimum) && !Truthy(recommended)
    ensures r.Assessed? ==> r.estimate in Tiers && r.score <= 100
  {
    if !Truthy(minimum) && !Truthy(recommended) then NotAvailable
    else
      match Compare(user, Or(minimum, recommended))
      case DivisionByZero => Crashed
      case Compared(low) =>
        match Compare(user, Or(recommended, minimum))
        case DivisionByZero => Crashed
        case Compared(high) =>
          var score := ((low.score + high.score) / 2.0).Floor;
          Assessed(low.canMeet, low.notes, score, EstimateGraphicsLevel(score as real))
  }

  /**
   * With non-negative memory sizes the averaged score is a whole number in
   * [0, 100], so the estimator's fallback is never reached: the tier follows
   * the four bands.
   */
  lemma ScoreOnScale(user: Profile, minimum: Option<seq<string>>, recommended: Option<seq<string>>)
    requires user.ramGb >= 0.0 && user.vramMb >= 0.0
    requires Assess(user, minimum, recommended).Assessed?
    ensures var a := Assess(user, minimum, recommended);
            && 0 <= a.score <= 100
            && a.estimate == EstimateGraphicsLevel(a.score as real)
            && (a.estimate.fps == 0 <==> a.score <= 25)
            && (a.estimate.level == HighUltra <==> a.score >= 76)
  {
    CompareScoreInRange(user, Or(minimum, recommended));
    CompareScoreInRange(user, Or(recommended, minimum));
    var a := Assess(user, minimum, recommended);
    WholeScoreBands(a.score);
  }

  /** "Can Run" is shown exactly when the minimum comparison left no notes. */
  lemma CanRunIffNoNotes(user: Profile, minimum: Option<seq<string>>, recommended: Option<seq<string>>)
    requires Assess(user, minimum, recommended).Assessed?
    ensures Assess(user, minimum, recommended).canRun <==> Assess(user, minimum, recommended).notes == []
  {
    CompareVerdict(user, Or(minimum, recommended));
  }

  /**
   * When the minimum block is truthy it alone decides "Can Run" and the notes;
   * the recommended block only moves the score.
   */
  lemma MinimumDecidesVerdict(user: Profile, minimum: Option<seq<string>>, recommended: Option<seq<string>>)
    requires Truthy(minimum) && Assess(user, minimum, recommended).Assessed?
    ensures Compare(user, minimum).Compared?
    ensures Assess(user, minimum, recommended).canRun == Compare(user, minimum).result.canMeet
    ensures Assess(user, minimum, recommended).notes == Compare(user, minimum).result.notes
  {
  }

  /**
   * With only one block available both comparisons use it, and the score is
   * the floor of that block's own score.
   */
  lemma SingleBlock(user: Profile, block: Option<seq<string>>, missing: Option<seq<string>>)
    requires Truthy(block) && !Truthy(missing)
    requires Compare(user, block).Compared?
    ensures Assess(user, block, missing) == Assess(user, missing, block)
    ensures Assess(user, block, missing).Assessed?
    ensures Assess(user, block, missing).score == Compare(user, block).result.score.Floor
  {
    var s := Compare(user, block).result.score;
    assert (s + s) / 2.0 == s;
  }

  /** A division by zero in either comparison crashes the assessment. */
  lemma CrashedExactly(user: Profile, minimum: Option<seq<string>>, recommended: Option<seq<string>>)
    requires Truthy(minimum) || Truthy(recommended)
    ensures Assess(user, minimum, recommended) == Crashed <==>
            Compare(user, Or(minimum, recommended)).DivisionByZero? || Compare(user, Or(recommended, minimum)).DivisionByZero?
  {
  }
}
