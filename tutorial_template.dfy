/** The tutorial page's saved marker, problem list and problem-report form. */
module TutorialTemplate {
  import opened Wrappers
  import opened Types
  import opened Seqs
  import opened Text
  import opened AuthContext

  function ForTutorial(tutorialId: string): TutorialProblem -> bool
  {
    (p: TutorialProblem) => p.tutorialId == tutorialId
  }

  /** The problems reported against one tutorial, in store order. */
  function TutorialProblems(problems: seq<TutorialProblem>, tutorialId: string): (r: seq<TutorialProblem>)
    ensures IsSubsequence(r, problems)
    ensures forall i :: 0 <= i < |r| ==> r[i].tutorialId == tutorialId
    ensures forall i :: 0 <= i < |problems| ==> (problems[i] in r <==> problems[i].tutorialId == tutorialId)
  {
    Filter(problems, ForTutorial(tutorialId))
  }

  /** The bookmark state shown for a tutorial. */
  function IsSaved(user: Option<User>, tutorialId: string): (b: bool)
    ensures user.None? ==> !b
    ensures b <==> user.Some? && user.value.savedTutorials.Some? && tutorialId in user.value.savedTutorials.value
  {
    user.Some? && IsSavedIn(user.value.savedTutorials, tutorialId)
  }

  /** The optimistic toggle flips the bookmark for that tutorial and no other. */
  lemma ToggleFlipsIsSaved(u: User, tutorialId: string, other: string)
    ensures IsSaved(Some(u.(savedTutorials := Some(ToggledSaved(u.savedTutorials, tutorialId)))), tutorialId)
            <==> !IsSaved(Some(u), tutorialId)
    ensures other != tutorialId ==>
              (IsSaved(Some(u.(savedTutorials := Some(ToggledSaved(u.savedTutorials, tutorialId)))), other)
               <==> IsSaved(Some(u), other))
  {
  }

  /** The step selector's options: the general problem, then steps 1 to `stepCount`. */
  function StepChoices(stepCount: nat): (r: seq<Option<int>>)
    ensures |r| == stepCount + 1
    ensures r[0].None?
    ensures forall k :: 0 <= k < |r| && r[k].Some? ==> 1 <= r[k].value <= stepCount
    ensures forall n :: 1 <= n <= stepCount ==> r[n] == Some(n)
  {
    [None] + seq(stepCount, i requires 0 <= i < stepCount => Some(i + 1))
  }

  /** A selection is null or a step number of the tutorial. */
  predicate ValidStep(step: Option<int>, stepCount: nat)
  {
    step.None? || 1 <= step.value <= stepCount
  }

  /** Exactly the valid selections are offered. */
  lemma StepChoicesAreValidSteps(stepCount: nat, step: Option<int>)
    ensures step in StepChoices(stepCount) <==> ValidStep(step, stepCount)
  {
    var r := StepChoices(stepCount);
    if ValidStep(step, stepCount) {
      if step.None? {
        assert r[0] == step;
      } else {
        assert r[step.value] == step;
      }
    }
  }

  datatype ProblemReport = ProblemReport(
    tutorialId: string,
    userId: string,
    userName: string,
    stepNumber: Option<int>,
    description: string)

  /** The report a submit sends, or None when there is no user or the description is blank. */
  function ReportFor(user: Option<User>, tutorialId: string, selectedStep: Option<int>, description: string): (r: Option<ProblemReport>)
    ensures r.None? <==> user.None? || IsBlank(description)
    ensures r.Some? ==>
              && r.value.tutorialId == tutorialId
              && r.value.userId == user.value.id && r.value.userName == user.value.name
              && r.value.stepNumber == selectedStep
              && r.value.description == Trim(description) && r.value.description != []
  {
    if user.None? || IsBlank(description) then None
    else Some(ProblemReport(tutorialId, user.value.id, user.value.name, selectedStep, Trim(description)))
  }

  class ReportForm {
    var isOpen: bool
    var selectedStep: Option<int>
    var description: string

    constructor ()
      ensures !isOpen && selectedStep.None? && description == ""
    {
      isOpen := false;
      selectedStep := None;
      description := "";
    }

    method ToggleOpen()
      modifies this
      ensures isOpen == !old(isOpen)
      ensures selectedStep == old(selectedStep) && description == old(description)
    {
      isOpen := !isOpen;
    }

    /** Picking an option of the step selector. */
    method SelectStep(choice: Option<int>, stepCount: nat)
      requires choice in StepChoices(stepCount)
      modifies this
      ensures selectedStep == choice && ValidStep(selectedStep, stepCount)
      ensures isOpen == old(isOpen) && description == old(description)
    {
      StepChoicesAreValidSteps(stepCount, choice);
      selectedStep := choice;
    }

    /** Sends the report, if any, and then clears and closes the form. */
    method Submit(user: Option<User>, tutorialId: string) returns (report: Option<ProblemReport>)
      modifies this
      ensures report == ReportFor(user, tutorialId, old(selectedStep), old(description))
      ensures report.None? ==>
                isOpen == old(isOpen) && selectedStep == old(selectedStep) && description == old(description)
      ensures report.Some? ==> description == "" && selectedStep.None? && !isOpen
    {
      if user.None? || IsBlank(description) {
        report := None;
        return;
      }
      report := Some(ProblemReport(tutorialId, user.value.id, user.value.name, selectedStep, Trim(description)));
      description := "";
      selectedStep := None;
      isOpen := false;
    }
  }
}
