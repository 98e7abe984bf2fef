/**
 * The display classifiers the dashboard, competency, statistics, growth-plan and quiz pages
 * share: the 80 / 60 / 40 score bands, their labels, the contribution heat-map levels, the
 * first-match substring classification of a validation level, and the case-insensitive
 * priority and difficulty maps.  Scores are JavaScript numbers, modelled as `real`.
 */
module Bands {
  import opened Wrappers
  import opened Text

  const Excellent := "excellent"
  const Good := "good"
  const Average := "average"
  const NeedsImprovement := "needs-improvement"

  /** The position of a band in the order needs-improvement < average < good < excellent. */
  function Rank(band: string): nat {
    if band == Excellent then 3 else if band == Good then 2 else if band == Average then 1 else 0
  }

  /** `getProgressColor`, and the numeric part of every score colour. */
  function Band(score: real): (r: string)
    ensures r == Excellent <==> score >= 80.0
    ensures r == Good <==> 60.0 <= score < 80.0
    ensures r == Average <==> 40.0 <= score < 60.0
    ensures r == NeedsImprovement <==> score < 40.0
  {
    if score >= 80.0 then Excellent
    else if score >= 60.0 then Good
    else if score >= 40.0 then Average
    else NeedsImprovement
  }

  /** A higher score never lands in a lower band. */
  lemma BandMonotone(x: real, y: real)
    requires x <= y
    ensures Rank(Band(x)) <= Rank(Band(y))
  {
  }

  /** `getScoreLabel` of the statistics page: the same bands, capitalised, and no `N/A`. */
  function ScoreLabel(score: real): (r: string)
    ensures r == "Excellent" <==> Band(score) == Excellent
    ensures r == "Good" <==> Band(score) == Good
    ensures r == "Average" <==> Band(score) == Average
    ensures r == "Needs Improvement" <==> Band(score) == NeedsImprovement
  {
    if score >= 80.0 then "Excellent"
    else if score >= 60.0 then "Good"
    else if score >= 40.0 then "Average"
    else "Needs Improvement"
  }

  /** `getValidationScoreColor` of both dashboards: a missing or zero score needs improvement. */
  function ValidationScoreColor(score: Option<real>): (r: string)
    ensures score.None? ==> r == NeedsImprovement
    ensures score.Some? ==> r == Band(score.value)
  {
    if score.None? || score.value == 0.0 then NeedsImprovement else Band(score.value)
  }

  /** `getScoreColor` of the competency and statistics pages: only a missing score is special. */
  function ScoreColor(score: Option<real>): (r: string)
    ensures score.None? ==> r == NeedsImprovement
    ensures score.Some? ==> r == Band(score.value)
  {
    if score.None? then NeedsImprovement else Band(score.value)
  }

  /** The dashboards' falsy test and the pages' null test classify every score alike. */
  lemma ScoreColorsAgree(score: Option<real>)
    ensures ValidationScoreColor(score) == ScoreColor(score)
  {
  }

  /** `getScoreLabel` of the competency page: `N/A` for a missing score, else the label. */
  function OptionalScoreLabel(score: Option<real>): (r: string)
    ensures r == "N/A" <==> score.None?
    ensures score.Some? ==> r == ScoreLabel(score.value)
  {
    if score.None? then "N/A" else ScoreLabel(score.value)
  }

  /** `getContributionLevel`: the heat-map level of a percentage. */
  function ContributionLevel(percentage: real): (r: string)
    ensures r == "level-4" <==> percentage >= 40.0
    ensures r == "level-3" <==> 25.0 <= percentage < 40.0
    ensures r == "level-2" <==> 10.0 <= percentage < 25.0
    ensures r == "level-1" <==> 0.0 < percentage < 10.0
    ensures r == "level-0" <==> percentage <= 0.0
  {
    if percentage >= 40.0 then "level-4"
    else if percentage >= 25.0 then "level-3"
    else if percentage >= 10.0 then "level-2"
    else if percentage > 0.0 then "level-1"
    else "level-0"
  }

  /** The digit of a heat-map level. */
  function LevelDigit(level: string): nat {
    if level == "level-4" then 4 else if level == "level-3" then 3
    else if level == "level-2" then 2 else if level == "level-1" then 1 else 0
  }

  /** More contributions never give a paler cell. */
  lemma ContributionLevelMonotone(x: real, y: real)
    requires x <= y
    ensures LevelDigit(ContributionLevel(x)) <= LevelDigit(ContributionLevel(y))
  {
  }

  /**
   * `getValidationLevelColor`: a missing or empty level needs improvement; otherwise the
   * lower-cased level is searched, first match wins.
   */
  function ValidationLevelColor(level: Option<string>): (r: string)
    ensures level.None? || level.value == "" ==> r == NeedsImprovement
    ensures level.Some? && level.value != "" ==>
              var l := ToLower(level.value);
              (r == Excellent <==> Contains(l, "excellent") || Contains(l, "outstanding"))
              && (r == Good <==> !(Contains(l, "excellent") || Contains(l, "outstanding"))
                                 && (Contains(l, "good") || Contains(l, "strong")))
              && (r == Average <==> !(Contains(l, "excellent") || Contains(l, "outstanding"))
                                    && !(Contains(l, "good") || Contains(l, "strong"))
                                    && (Contains(l, "fair") || Contains(l, "moderate")))
              && (r == NeedsImprovement <==> !(Contains(l, "excellent") || Contains(l, "outstanding"))
                                             && !(Contains(l, "good") || Contains(l, "strong"))
                                             && !(Contains(l, "fair") || Contains(l, "moderate")))
  {
    if level.None? || level.value == "" then NeedsImprovement
    else
      var l := ToLower(level.value);
      if Includes(l, "excellent") || Includes(l, "outstanding") then Excellent
      else if Includes(l, "good") || Includes(l, "strong") then Good
      else if Includes(l, "fair") || Includes(l, "moderate") then Average
      else NeedsImprovement
  }

  /** Lower-casing is idempotent. */
  lemma ToLowerIdempotent(s: string)
    ensures ToLower(ToLower(s)) == ToLower(s)
  {
  }

  /** The level colour ignores case. */
  lemma ValidationLevelIgnoresCase(level: string)
    ensures ValidationLevelColor(Some(ToLower(level))) == ValidationLevelColor(Some(level))
  {
    ToLowerIdempotent(level);
  }

  /** `getPriorityColor`: `high`, `medium` and `low` in any case, `''` for anything else. */
  function PriorityColor(priority: string): (r: string)
    ensures r == "priority-high" <==> ToLower(priority) == "high"
    ensures r == "priority-medium" <==> ToLower(priority) == "medium"
    ensures r == "priority-low" <==> ToLower(priority) == "low"
    ensures r == "" <==> ToLower(priority) !in {"high", "medium", "low"}
  {
    var p := ToLower(priority);
    if p == "high" then "priority-high"
    else if p == "medium" then "priority-medium"
    else if p == "low" then "priority-low"
    else ""
  }

  /** `getDifficultyColor`: `beginner`, `intermediate` and `advanced` in any case, else `''`. */
  function DifficultyColor(difficulty: string): (r: string)
    ensures r == "difficulty-beginner" <==> ToLower(difficulty) == "beginner"
    ensures r == "difficulty-intermediate" <==> ToLower(difficulty) == "intermediate"
    ensures r == "difficulty-advanced" <==> ToLower(difficulty) == "advanced"
    ensures r == "" <==> ToLower(difficulty) !in {"beginner", "intermediate", "advanced"}
  {
    var d := ToLower(difficulty);
    if d == "beginner" then "difficulty-beginner"
    else if d == "intermediate" then "difficulty-intermediate"
    else if d == "advanced" then "difficulty-advanced"
    else ""
  }

  /** Both maps ignore case. */
  lemma ColorMapsIgnoreCase(s: string)
    ensures PriorityColor(ToLower(s)) == PriorityColor(s)
    ensures DifficultyColor(ToLower(s)) == DifficultyColor(s)
  {
    ToLowerIdempotent(s);
  }
}
