/** The tutorial editor: a list of steps that never becomes empty, and the insert built on submit. */
module CreateTutorialPage {
  import opened Wrappers
  import opened Types
  import opened Seqs
  import opened Text

  /** `removeStep`: with more than one step, drop the step at `index` (an index outside the list drops
      nothing); with a single step, keep it. */
  function RemoveStepAt(steps: seq<string>, index: int): (r: seq<string>)
    ensures |steps| <= 1 ==> r == steps
    ensures !(0 <= index < |steps|) ==> r == steps
    ensures |steps| > 1 && 0 <= index < |steps| ==>
              && |r| == |steps| - 1
              && (forall j :: 0 <= j < index ==> r[j] == steps[j])
              && (forall j :: index <= j < |r| ==> r[j] == steps[j + 1])
    ensures |steps| >= 1 ==> |r| >= 1
  {
    if |steps| > 1 && 0 <= index < |steps| then steps[..index] + steps[index + 1..] else steps
  }

  /** Adding a step and removing it again gives the steps back. */
  lemma AddThenRemoveStep(steps: seq<string>)
    requires |steps| >= 1
    ensures RemoveStepAt(steps + [""], |steps|) == steps
  {
  }

  predicate NotBlank(s: string)
  {
    !IsBlank(s)
  }

  /** The steps sent on submit: the non-blank ones, untrimmed, in their order. */
  function NonBlankSteps(steps: seq<string>): (r: seq<string>)
    ensures IsSubsequence(r, steps)
    ensures forall i :: 0 <= i < |r| ==> !IsBlank(r[i])
    ensures forall i :: 0 <= i < |steps| ==> (steps[i] in r <==> !IsBlank(steps[i]))
  {
    Filter(steps, NotBlank)
  }

  /** No step survives exactly when every step is blank. */
  lemma NoStepsIffAllBlank(steps: seq<string>)
    ensures NonBlankSteps(steps) == [] <==> forall i :: 0 <= i < |steps| ==> IsBlank(steps[i])
  {
    var r := NonBlankSteps(steps);
    if r != [] {
      assert r[0] in steps;
      var k :| 0 <= k < |steps| && steps[k] == r[0];
      assert !IsBlank(steps[k]);
    }
  }

  datatype TutorialInsert = TutorialInsert(
    title: string,
    description: string,
    steps: seq<string>,
    authorId: string,
    category: string,
    approved: bool)

  /** The row a submit inserts, or None when the submit does nothing. An administrator's tutorial is
      published at once; anyone else's awaits moderation. */
  function InsertPayload(user: Option<User>, title: string, description: string, category: string, steps: seq<string>): (r: Option<TutorialInsert>)
    ensures r.None? <==> user.None? || title == [] || description == [] || NonBlankSteps(steps) == []
    ensures r.Some? ==>
              && r.value.title == title && r.value.description == description && r.value.category == category
              && r.value.steps == NonBlankSteps(steps) && |r.value.steps| >= 1
              && r.value.authorId == user.value.id
              && (r.value.approved <==> user.value.role == ADMIN)
  {
    if user.None? || title == [] || description == [] || NonBlankSteps(steps) == [] then None
    else Some(TutorialInsert(title, description, NonBlankSteps(steps), user.value.id, category, user.value.role == ADMIN))
  }

  class TutorialDraft {
    var title: string
    var description: string
    var category: string
    var steps: seq<string>
    var isSubmitting: bool
    var navigatedHome: bool

    /** The editor always shows at least one step. */
    predicate Valid()
      reads this
    {
      |steps| >= 1
    }

    constructor ()
      ensures Valid()
      ensures title == "" && description == "" && category == "Tecnologia" && steps == [""]
      ensures !isSubmitting && !navigatedHome
    {
      title := "";
      description := "";
      category := "Tecnologia";
      steps := [""];
      isSubmitting := false;
      navigatedHome := false;
    }

    method AddStep()
      requires Valid()
      modifies this
      ensures Valid()
      ensures steps == old(steps) + [""]
      ensures title == old(title) && description == old(description) && category == old(category)
      ensures isSubmitting == old(isSubmitting) && navigatedHome == old(navigatedHome)
    {
      steps := steps + [""];
    }

    method UpdateStep(index: int, value: string)
      requires Valid()
      requires 0 <= index < |steps|
      modifies this
      ensures Valid()
      ensures steps == old(steps)[index := value]
      ensures title == old(title) && description == old(description) && category == old(category)
      ensures isSubmitting == old(isSubmitting) && navigatedHome == old(navigatedHome)
    {
      var updated := steps;
      updated := updated[index := value];
      steps := updated;
    }

    method RemoveStep(index: int)
      requires Valid()
      modifies this
      ensures Valid()
      ensures steps == RemoveStepAt(old(steps), index)
      ensures title == old(title) && description == old(description) && category == old(category)
      ensures isSubmitting == old(isSubmitting) && navigatedHome == old(navigatedHome)
    {
      steps := RemoveStepAt(steps, index);
    }

    /** Submits the draft. `insertSucceeds` stands for the outcome of the remote insert; `insert` is
        the row sent, None when nothing is sent. */
    method Submit(user: Option<User>, insertSucceeds: bool) returns (insert: Option<TutorialInsert>)
      requires Valid()
      modifies this
      ensures Valid()
      ensures insert == InsertPayload(user, old(title), old(description), old(category), old(steps))
      ensures title == old(title) && description == old(description) && category == old(category)
      ensures steps == old(steps)
      ensures insert.None? ==> isSubmitting == old(isSubmitting) && navigatedHome == old(navigatedHome)
      ensures insert.Some? && !insertSucceeds ==> !isSubmitting && navigatedHome == old(navigatedHome)
      ensures insert.Some? && insertSucceeds ==> isSubmitting && navigatedHome
    {
      if user.None? || title == [] || description == [] || NonBlankSteps(steps) == [] {
        insert := None;
        return;
      }
      isSubmitting := true;
      insert := Some(TutorialInsert(title, description, NonBlankSteps(steps), user.value.id, category, user.value.role == ADMIN));
      if !insertSucceeds {
        isSubmitting := false;
        return;
      }
      navigatedHome := true;
    }
  }
}
