/**
 * The skillset evaluation page (`SkillsetEvaluationComponent`): five editable lists that
 * never drop below one entry, the payload that drops blank entries, and the policy that a
 * submission ends on the statistics page whether it succeeds or fails.
 */
module Evaluation {
  import opened Wrappers
  import opened Text
  import opened JsValue
  import opened Api
  import opened Navigation

  const SubmitSuccessMessage := "Skillset evaluation submitted successfully!"
  const SubmitErrorDefault := "An error occurred. Please try again."

  /** The five `FormArray`s of the `aiProfile` group. */
  datatype ListKind = Skills | Interests | Goals | Topics | WeakAreas

  /**
   * The position `FormArray.removeAt(index)` passes to `splice(start, 1)`: a negative index
   * counts from the end once, and one still negative after that is clamped to 0, so an index
   * below minus the length removes the first entry; a start at or past the end removes
   * nothing.
   */
  function SpliceStart(length: nat, index: int): (start: nat)
    ensures start <= length
    ensures 0 <= index < length ==> start == index
    ensures index >= length ==> start == length
    ensures index < 0 && 0 <= index + length ==> start == index + length
    ensures index + length < 0 ==> start == 0
  {
    var adjusted := if index < 0 then index + length else index;
    if adjusted < 0 then 0
    else if adjusted > length then length
    else adjusted
  }

  function RemoveAt(entries: seq<string>, index: int): (r: seq<string>)
    ensures var start := SpliceStart(|entries|, index);
            (start < |entries| ==> r == entries[..start] + entries[start + 1..])
            && (start == |entries| ==> r == entries)
    ensures 0 <= index < |entries| ==> |r| == |entries| - 1
    ensures |entries| > 0 && index + |entries| < 0 ==> r == entries[1..]
    ensures |r| >= |entries| - 1
  {
    var start := SpliceStart(|entries|, index);
    if start < |entries| then entries[..start] + entries[start + 1..] else entries
  }

  /**
   * `filter(x => x.trim() !== '')`, with the test written as "not all white space"
   * (`TrimEmptyIffBlank` shows the two agree).
   */
  function NonBlank(entries: seq<string>): (r: seq<string>)
    ensures |r| <= |entries|
  {
    if entries == [] then []
    else if !Blank(entries[0]) then [entries[0]] + NonBlank(entries[1..])
    else NonBlank(entries[1..])
  }

  /** The filter keeps the surviving entries in their order: it distributes over concatenation. */
  lemma {:induction false} NonBlankConcat(a: seq<string>, b: seq<string>)
    ensures NonBlank(a + b) == NonBlank(a) + NonBlank(b)
  {
    if a != [] {
      assert (a + b)[1..] == a[1..] + b;
      NonBlankConcat(a[1..], b);
    } else {
      assert a + b == b;
    }
  }

  /** The filter keeps exactly the entries that are not all white space. */
  lemma {:induction false} NonBlankMembers(entries: seq<string>)
    ensures forall x :: x in NonBlank(entries) <==> x in entries && !Blank(x)
  {
    if entries != [] {
      NonBlankMembers(entries[1..]);
      assert entries == [entries[0]] + entries[1..];
    }
  }

  /** Filtering twice is filtering once. */
  lemma {:induction false} NonBlankIdempotent(entries: seq<string>)
    ensures NonBlank(NonBlank(entries)) == NonBlank(entries)
  {
    if entries != [] {
      NonBlankIdempotent(entries[1..]);
    }
  }

  /** An entry that is nothing but white space never reaches the payload. */
  lemma BlankEntriesDropped(entries: seq<string>, i: nat)
    requires i < |entries| && Trim(entries[i]) == ""
    ensures entries[i] !in NonBlank(entries)
  {
    TrimEmptyIffBlank(entries[i]);
    NonBlankMembers(entries);
  }

  /** An entry whose trimmed text is not empty always reaches the payload. */
  lemma FilledEntriesKept(entries: seq<string>, i: nat)
    requires i < |entries| && Trim(entries[i]) != ""
    ensures entries[i] in NonBlank(entries)
  {
    TrimEmptyIffBlank(entries[i]);
    NonBlankMembers(entries);
  }

  /** The scalar controls of the form, as the form value holds them. */
  datatype Details = Details(name: Value, email: Value, position: Value, department: Value,
                             joinedDate: Value, bio: Value, currentLevel: Value, learningStyle: Value,
                             availableHoursPerWeek: Value, preferredLearningTime: Value,
                             yearsOfExperience: Value)

  /** The `aiProfile` part of the posted `SkillsetEvaluationData`. */
  datatype AiProfile = AiProfile(skills: seq<string>, interests: seq<string>, goals: seq<string>,
                                 currentLevel: Value, learningStyle: Value, availableHoursPerWeek: Number,
                                 preferredLearningTime: Value, yearsOfExperience: Value,
                                 preferredTopics: seq<string>, weakAreas: seq<string>)

  /** The posted `SkillsetEvaluationData`. */
  datatype EvaluationData = EvaluationData(name: Value, email: Value, position: Value, department: Value,
                                           joinedDate: Value, bio: Value, aiProfile: AiProfile)

  /** The `evaluationData` posted to `Learners`: blank list entries dropped, hours made a number. */
  function Payload(details: Details, skills: seq<string>, interests: seq<string>, goals: seq<string>,
                   topics: seq<string>, weakAreas: seq<string>): (r: EvaluationData)
    ensures r.aiProfile.skills == NonBlank(skills) && r.aiProfile.interests == NonBlank(interests)
    ensures r.aiProfile.goals == NonBlank(goals) && r.aiProfile.preferredTopics == NonBlank(topics)
    ensures r.aiProfile.weakAreas == NonBlank(weakAreas)
    ensures r.aiProfile.availableHoursPerWeek == ToNumber(details.availableHoursPerWeek)
  {
    EvaluationData(
      details.name, details.email, details.position, details.department, details.joinedDate, details.bio,
      AiProfile(NonBlank(skills), NonBlank(interests), NonBlank(goals),
                details.currentLevel, details.learningStyle, ToNumber(details.availableHoursPerWeek),
                details.preferredLearningTime, details.yearsOfExperience,
                NonBlank(topics), NonBlank(weakAreas)))
  }

  class EvaluationComponent {
    var skills: seq<string>
    var interests: seq<string>
    var goals: seq<string>
    var topics: seq<string>
    var weakAreas: seq<string>

    var isLoading: bool
    var errorMessage: string
    var successMessage: string
    /** Navigations scheduled by a successful submit (these timers are never cleared). */
    var scheduled: seq<string>
    /** `navigationTimeout`: the clearable timer a failed submit sets, by its target. */
    var navigationTimeout: Option<string>
    /** How many 3-second backup checks failed submits have armed and not yet run. */
    var backupsPending: nat
    /** Assignments to `window.location.href`, oldest first. */
    var hardRedirects: seq<string>

    const router: Router

    function List(kind: ListKind): seq<string>
      reads this
    {
      match kind
      case Skills => skills
      case Interests => interests
      case Goals => goals
      case Topics => topics
      case WeakAreas => weakAreas
    }

    /** No list ever has fewer than one entry. */
    ghost predicate Valid()
      reads this
    {
      |skills| >= 1 && |interests| >= 1 && |goals| >= 1 && |topics| >= 1 && |weakAreas| >= 1
    }

    constructor(router: Router)
      ensures Valid() && this.router == router
      ensures forall kind :: List(kind) == [""]
      ensures !isLoading && errorMessage == "" && successMessage == ""
      ensures scheduled == [] && navigationTimeout.None? && backupsPending == 0 && hardRedirects == []
    {
      skills, interests, goals, topics, weakAreas := [""], [""], [""], [""], [""];
      isLoading, errorMessage, successMessage := false, "", "";
      scheduled, navigationTimeout, backupsPending, hardRedirects := [], None, 0, [];
      this.router := router;
    }

    method SetList(kind: ListKind, entries: seq<string>)
      modifies this
      ensures old(Valid()) && |entries| >= 1 ==> Valid()
      ensures List(kind) == entries
      ensures forall k :: k != kind ==> List(k) == old(List(k))
      ensures isLoading == old(isLoading) && errorMessage == old(errorMessage)
      ensures successMessage == old(successMessage) && scheduled == old(scheduled)
      ensures navigationTimeout == old(navigationTimeout) && backupsPending == old(backupsPending)
      ensures hardRedirects == old(hardRedirects)
    {
      match kind {
        case Skills => skills := entries;
        case Interests => interests := entries;
        case Goals => goals := entries;
        case Topics => topics := entries;
        case WeakAreas => weakAreas := entries;
      }
    }

    /** `addSkill`, `addInterest`, ...: one empty control appended to that list only. */
    method Add(kind: ListKind)
      requires Valid()
      modifies this
      ensures Valid()
      ensures List(kind) == old(List(kind)) + [""]
      ensures forall k :: k != kind ==> List(k) == old(List(k))
      ensures isLoading == old(isLoading) && errorMessage == old(errorMessage)
      ensures successMessage == old(successMessage) && scheduled == old(scheduled)
      ensures navigationTimeout == old(navigationTimeout) && backupsPending == old(backupsPending)
      ensures hardRedirects == old(hardRedirects)
    {
      SetList(kind, List(kind) + [""]);
    }

    /** `setValue` on one control: what the user typed into entry `i`. */
    method SetEntry(kind: ListKind, i: nat, text: string)
      requires Valid() && i < |List(kind)|
      modifies this
      ensures Valid()
      ensures List(kind) == old(List(kind))[i := text]
      ensures forall k :: k != kind ==> List(k) == old(List(k))
      ensures isLoading == old(isLoading) && errorMessage == old(errorMessage)
      ensures successMessage == old(successMessage) && scheduled == old(scheduled)
      ensures navigationTimeout == old(navigationTimeout) && backupsPending == old(backupsPending)
      ensures hardRedirects == old(hardRedirects)
    {
      SetList(kind, List(kind)[i := text]);
    }

    /** `removeSkill(index)`, ...: only when the list has more than one entry. */
    method Remove(kind: ListKind, index: int)
      requires Valid()
      modifies this
      ensures Valid()
      ensures |old(List(kind))| > 1 ==> List(kind) == RemoveAt(old(List(kind)), index)
      ensures |old(List(kind))| <= 1 ==> List(kind) == old(List(kind))
      ensures forall k :: k != kind ==> List(k) == old(List(k))
      ensures isLoading == old(isLoading) && errorMessage == old(errorMessage)
      ensures successMessage == old(successMessage) && scheduled == old(scheduled)
      ensures navigationTimeout == old(navigationTimeout) && backupsPending == old(backupsPending)
      ensures hardRedirects == old(hardRedirects)
    {
      var entries := List(kind);
      if |entries| > 1 {
        SetList(kind, RemoveAt(entries, index));
      }
    }

    /** `onSubmit`: an invalid form sends nothing; a valid one sends the payload. */
    method OnSubmit(formValid: bool, details: Details) returns (request: Option<EvaluationData>)
      requires Valid()
      modifies this
      ensures Valid()
      ensures !formValid ==> request.None? && unchanged(this)
      ensures formValid ==>
                request == Some(Payload(details, skills, interests, goals, topics, weakAreas))
                && isLoading && errorMessage == "" && successMessage == ""
      ensures skills == old(skills) && interests == old(interests) && goals == old(goals)
      ensures topics == old(topics) && weakAreas == old(weakAreas)
      ensures scheduled == old(scheduled) && navigationTimeout == old(navigationTimeout)
      ensures backupsPending == old(backupsPending) && hardRedirects == old(hardRedirects)
    {
      if !formValid {
        return None;
      }
      request := Some(Payload(details, skills, interests, goals, topics, weakAreas));
      isLoading, errorMessage, successMessage := true, "", "";
    }

    /** Success: the message is shown and the statistics page is two seconds away. */
    method OnSubmitSucceeded()
      requires Valid()
      modifies this
      ensures Valid()
      ensures !isLoading && successMessage == SubmitSuccessMessage && errorMessage == old(errorMessage)
      ensures scheduled == old(scheduled) + [StatisticsPath]
      ensures forall k :: List(k) == old(List(k))
      ensures navigationTimeout == old(navigationTimeout) && backupsPending == old(backupsPending)
      ensures hardRedirects == old(hardRedirects)
    {
      isLoading := false;
      successMessage := SubmitSuccessMessage;
      scheduled := scheduled + [StatisticsPath];
    }

    /** The oldest success timer fires: the router opens the route it was scheduled for. */
    method OnScheduledNavigation()
      requires Valid() && |scheduled| > 0
      modifies this, router
      ensures Valid()
      ensures router.navigations == old(router.navigations) + [old(scheduled)[0]]
      ensures scheduled == old(scheduled)[1..]
      ensures forall k :: List(k) == old(List(k))
      ensures isLoading == old(isLoading) && errorMessage == old(errorMessage)
      ensures successMessage == old(successMessage)
      ensures navigationTimeout == old(navigationTimeout) && backupsPending == old(backupsPending)
      ensures hardRedirects == old(hardRedirects)
    {
      var target := scheduled[0];
      scheduled := scheduled[1..];
      router.Navigate(target);
    }

    /**
     * Failure: the message is shown, any earlier navigation timer is replaced by one for the
     * statistics page, and one more backup check is armed (those timers are never cleared).
     */
    method OnSubmitFailed(fault: Fault)
      requires Valid()
      modifies this
      ensures Valid()
      ensures !isLoading && successMessage == old(successMessage)
      ensures errorMessage == (if fault.message != "" then fault.message else SubmitErrorDefault)
      ensures navigationTimeout == Some(StatisticsPath) && backupsPending == old(backupsPending) + 1
      ensures forall k :: List(k) == old(List(k))
      ensures scheduled == old(scheduled) && hardRedirects == old(hardRedirects)
    {
      isLoading := false;
      errorMessage := if fault.message != "" then fault.message else SubmitErrorDefault;
      navigationTimeout := Some(StatisticsPath);
      backupsPending := backupsPending + 1;
    }

    /**
     * The failure timer fires: the router is asked for the statistics page, and the page is
     * forced through `window.location` when the router reports failure or throws.
     */
    method OnNavigationTimeout(outcome: RouterOutcome)
      requires Valid() && navigationTimeout.Some?
      modifies this, router
      ensures Valid()
      ensures router.navigations == old(router.navigations) + [old(navigationTimeout).value]
      ensures hardRedirects == old(hardRedirects) + (if NeedsHardRedirect(outcome) then [StatisticsPath] else [])
      ensures navigationTimeout.None?
      ensures forall k :: List(k) == old(List(k))
      ensures isLoading == old(isLoading) && errorMessage == old(errorMessage)
      ensures successMessage == old(successMessage) && scheduled == old(scheduled)
      ensures backupsPending == old(backupsPending)
    {
      router.Navigate(navigationTimeout.value);
      if NeedsHardRedirect(outcome) {
        hardRedirects := hardRedirects + [StatisticsPath];
      }
      navigationTimeout := None;
    }

    /** The 3-second backup: still on the evaluation page means a forced redirect. */
    method OnBackupCheck(currentUrl: string)
      requires Valid() && backupsPending > 0
      modifies this
      ensures Valid()
      ensures Contains(currentUrl, "skillset-evaluation") ==> hardRedirects == old(hardRedirects) + [StatisticsPath]
      ensures !Contains(currentUrl, "skillset-evaluation") ==> hardRedirects == old(hardRedirects)
      ensures backupsPending == old(backupsPending) - 1
      ensures forall k :: List(k) == old(List(k))
      ensures isLoading == old(isLoading) && errorMessage == old(errorMessage)
      ensures successMessage == old(successMessage) && scheduled == old(scheduled)
      ensures navigationTimeout == old(navigationTimeout)
    {
      if Includes(currentUrl, "skillset-evaluation") {
        hardRedirects := hardRedirects + [StatisticsPath];
      }
      backupsPending := backupsPending - 1;
    }

    /** `ngOnDestroy`: the clearable navigation timer is cancelled. */
    method OnDestroy()
      requires Valid()
      modifies this
      ensures Valid() && navigationTimeout.None?
      ensures forall k :: List(k) == old(List(k))
      ensures isLoading == old(isLoading) && errorMessage == old(errorMessage)
      ensures successMessage == old(successMessage) && scheduled == old(scheduled)
      ensures backupsPending == old(backupsPending) && hardRedirects == old(hardRedirects)
    {
      navigationTimeout := None;
    }
  }

  /** How `router.navigate` ended: its promise resolved with a flag, was rejected, or the call threw. */
  datatype RouterOutcome = Resolved(success: bool) | Rejected | Threw

  /** The fallback to `window.location` runs on every outcome except a successful navigation. */
  predicate NeedsHardRedirect(outcome: RouterOutcome) {
    outcome != Resolved(true)
  }

  /** The evaluation page's own URL always triggers the backup redirect. */
  lemma BackupFiresOnEvaluationPage(prefix: string)
    ensures Contains(prefix + EvaluationPath, "skillset-evaluation")
  {
    assert prefix + EvaluationPath == prefix + "/" + "skillset-evaluation";
    ContainsAppended(prefix + "/", "skillset-evaluation");
  }
}
