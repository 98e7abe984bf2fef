/**
 * The growth plan the `GrowthPlan/generate` endpoint returns, and the pure selectors the two
 * dashboards read from it: the high-priority skill gaps, the current and upcoming phases, the
 * recommended resources, and the daily learning plans built from the current phase.
 */
module Growth {
  import opened Wrappers
  import opened Text

  datatype SkillGap = SkillGap(skillName: string, priority: string)

  datatype LearningPhase = LearningPhase(title: string, learningObjectives: seq<string>,
                                         practicalProjects: seq<string>)

  datatype Resource = Resource(title: string, difficulty: string)

  datatype GrowthPlan = GrowthPlan(skillGaps: seq<SkillGap>, learningPhases: seq<LearningPhase>,
                                   recommendedResources: seq<Resource>, keyMilestones: seq<string>)

  /**
   * `s.slice(start, end)` for non-negative bounds: the elements from `start` up to, not
   * including, `end`, both cut down to the length.
   */
  function Slice<T>(s: seq<T>, start: nat, end: nat): (r: seq<T>)
    ensures start < end && start < |s| ==> |r| == (if end < |s| then end else |s|) - start
    ensures end <= start || |s| <= start ==> r == []
    ensures forall i :: 0 <= i < |r| ==> r[i] == s[start + i]
  {
    var e := if end < |s| then end else |s|;
    if start < e then s[start..e] else []
  }

  /** Two adjacent slices make one. */
  lemma SliceAdjacent<T>(s: seq<T>, a: nat, b: nat, c: nat)
    requires a <= b <= c
    ensures Slice(s, a, b) + Slice(s, b, c) == Slice(s, a, c)
  {
    if b < |s| && a < b {
      assert s[a..b] + s[b..if c < |s| then c else |s|] == s[a..if c < |s| then c else |s|];
    }
  }

  predicate IsHigh(gap: SkillGap) {
    ToLower(gap.priority) == "high"
  }

  /** `skillGaps.filter(gap => gap.priority.toLowerCase() === 'high')`. */
  function HighGaps(gaps: seq<SkillGap>): (r: seq<SkillGap>)
    ensures |r| <= |gaps|
    ensures forall i :: 0 <= i < |r| ==> IsHigh(r[i])
  {
    if gaps == [] then []
    else if IsHigh(gaps[0]) then [gaps[0]] + HighGaps(gaps[1..])
    else HighGaps(gaps[1..])
  }

  /** The filter keeps exactly the high-priority gaps. */
  lemma {:induction false} HighGapsMembers(gaps: seq<SkillGap>)
    ensures forall g :: g in HighGaps(gaps) <==> g in gaps && IsHigh(g)
  {
    if gaps != [] {
      HighGapsMembers(gaps[1..]);
      assert gaps == [gaps[0]] + gaps[1..];
    }
  }

  /** The filter keeps the original order: it distributes over concatenation. */
  lemma {:induction false} HighGapsConcat(a: seq<SkillGap>, b: seq<SkillGap>)
    ensures HighGaps(a + b) == HighGaps(a) + HighGaps(b)
  {
    if a == [] {
      assert a + b == b;
    } else {
      assert (a + b)[1..] == a[1..] + b;
      HighGapsConcat(a[1..], b);
    }
  }

  /** `getHighPrioritySkills`: the first five high-priority gaps, none without a plan. */
  function HighPrioritySkills(plan: Option<GrowthPlan>): (r: seq<SkillGap>)
    ensures |r| <= 5
    ensures forall i :: 0 <= i < |r| ==> IsHigh(r[i])
    ensures plan.None? ==> r == []
    ensures plan.Some? ==> r == Slice(HighGaps(plan.value.skillGaps), 0, 5)
  {
    if plan.None? then [] else Slice(HighGaps(plan.value.skillGaps), 0, 5)
  }

  /** Every high-priority gap among the first five such gaps is shown. */
  lemma HighPriorityComplete(plan: GrowthPlan)
    requires |HighGaps(plan.skillGaps)| <= 5
    ensures forall g :: g in HighPrioritySkills(Some(plan)) <==> g in plan.skillGaps && IsHigh(g)
  {
    HighGapsMembers(plan.skillGaps);
    assert HighPrioritySkills(Some(plan)) == HighGaps(plan.skillGaps);
  }

  /** `getCurrentPhase`: the first phase, or `null` without phases. */
  function CurrentPhase(plan: Option<GrowthPlan>): (r: Option<LearningPhase>)
    ensures r.Some? <==> plan.Some? && |plan.value.learningPhases| > 0
    ensures r.Some? ==> r.value == plan.value.learningPhases[0]
  {
    if plan.None? || |plan.value.learningPhases| == 0 then None else Some(plan.value.learningPhases[0])
  }

  /** `getUpcomingPhases`: the second and third phases, and nothing when there is at most one. */
  function UpcomingPhases(plan: Option<GrowthPlan>): (r: seq<LearningPhase>)
    ensures plan.None? || |plan.value.learningPhases| <= 1 ==> r == []
    ensures plan.Some? && |plan.value.learningPhases| >= 2 ==>
              |r| == (if |plan.value.learningPhases| >= 3 then 2 else 1)
              && forall i :: 0 <= i < |r| ==> r[i] == plan.value.learningPhases[i + 1]
  {
    if plan.None? || |plan.value.learningPhases| <= 1 then [] else Slice(plan.value.learningPhases, 1, 3)
  }

  /** The current phase followed by the upcoming ones are the first three phases, in order. */
  lemma CurrentThenUpcoming(plan: GrowthPlan)
    requires |plan.learningPhases| >= 1
    ensures [CurrentPhase(Some(plan)).value] + UpcomingPhases(Some(plan)) == Slice(plan.learningPhases, 0, 3)
  {
    SliceAdjacent(plan.learningPhases, 0, 1, 3);
    assert Slice(plan.learningPhases, 0, 1) == [plan.learningPhases[0]];
  }

  /** `getRecentRecommendations`: at most the first three resources. */
  function RecentRecommendations(plan: Option<GrowthPlan>): (r: seq<Resource>)
    ensures |r| <= 3
    ensures plan.None? ==> r == []
    ensures plan.Some? ==> |r| <= |plan.value.recommendedResources|
    ensures plan.Some? ==>
              |r| == (if |plan.value.recommendedResources| < 3 then |plan.value.recommendedResources| else 3)
    ensures plan.Some? ==> forall i :: 0 <= i < |r| ==> r[i] == plan.value.recommendedResources[i]
    ensures plan.Some? && |plan.value.recommendedResources| <= 3 ==> r == plan.value.recommendedResources
  {
    if plan.None? then [] else Slice(plan.value.recommendedResources, 0, 3)
  }

  /** A day's learning plan; the displayed date is not modelled. */
  datatype DailyLearning = DailyLearning(day: string, tasks: seq<string>, estimatedHours: int, completed: bool)

  /** Today's plan: the first three learning objectives of the current phase, three hours. */
  function TodayPlan(phase: LearningPhase): (r: DailyLearning)
    ensures r.day == "Today" && r.estimatedHours == 3 && !r.completed
    ensures r.tasks == Slice(phase.learningObjectives, 0, 3)
  {
    DailyLearning("Today", Slice(phase.learningObjectives, 0, 3), 3, false)
  }

  /**
   * Tomorrow's plan: objectives four to six when there are any, otherwise the first three
   * practical projects; four hours.
   */
  function TomorrowPlan(phase: LearningPhase): (r: DailyLearning)
    ensures r.day == "Tomorrow" && r.estimatedHours == 4 && !r.completed
    ensures |phase.learningObjectives| > 3 ==> r.tasks == Slice(phase.learningObjectives, 3, 6)
    ensures |phase.learningObjectives| <= 3 ==> r.tasks == Slice(phase.practicalProjects, 0, 3)
  {
    var next := Slice(phase.learningObjectives, 3, 6);
    DailyLearning("Tomorrow", if |next| > 0 then next else Slice(phase.practicalProjects, 0, 3), 4, false)
  }

  /** With more than three objectives, tomorrow continues exactly where today stops. */
  lemma PlansContinue(phase: LearningPhase)
    requires |phase.learningObjectives| > 3
    ensures TodayPlan(phase).tasks + TomorrowPlan(phase).tasks == Slice(phase.learningObjectives, 0, 6)
  {
    SliceAdjacent(phase.learningObjectives, 0, 3, 6);
  }
}
