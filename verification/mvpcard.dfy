/**
  The MVP plan card: the checklist toggles, the per-step build prompts with
  their cache, title editing under the lock/edit protocol, and the copy text
  of a prompt.
 */
module MvpPlanCard {
  import opened Wrappers
  import opened PlanTypes
  import opened PlanStore
  import EditState
  import Text

  datatype MvpCardState = MvpCardState(section: EditState.Section<seq<MvpStep>>, shown: Option<Prompt>)

  datatype Outcome = Outcome(card: MvpCardState, effect: Effect)

  function Mount(p: Plan): MvpCardState {
    MvpCardState(EditState.Mount(p.mvpPlan), None)
  }

  /** Flips the completion flag of every step with this id; the other steps are kept as they are. */
  function ToggleById(steps: seq<MvpStep>, id: int): (r: seq<MvpStep>)
    ensures |r| == |steps|
    ensures forall i :: 0 <= i < |steps| && steps[i].id == id ==>
              r[i] == steps[i].(completed := !steps[i].completed)
    ensures forall i :: 0 <= i < |steps| && steps[i].id != id ==> r[i] == steps[i]
    decreases |steps|
  {
    if |steps| == 0 then []
    else
      var s := steps[0];
      [if s.id == id then s.(completed := !s.completed) else s] + ToggleById(steps[1..], id)
  }

  /** Toggling the same id twice gives the original steps back. */
  lemma {:induction false} ToggleTwice(steps: seq<MvpStep>, id: int)
    ensures ToggleById(ToggleById(steps, id), id) == steps
    decreases |steps|
  {
    if |steps| > 0 {
      ToggleTwice(steps[1..], id);
      assert ToggleById(steps, id)[1..] == ToggleById(steps[1..], id);
    }
  }

  /** Stores the prompt on every step with this id; the other steps are kept as they are. */
  function PromptById(steps: seq<MvpStep>, id: int, prompt: Prompt): (r: seq<MvpStep>)
    ensures |r| == |steps|
    ensures forall i :: 0 <= i < |steps| && steps[i].id == id ==> r[i] == steps[i].(prompt := Some(prompt))
    ensures forall i :: 0 <= i < |steps| && steps[i].id != id ==> r[i] == steps[i]
    decreases |steps|
  {
    if |steps| == 0 then []
    else
      var s := steps[0];
      [if s.id == id then s.(prompt := Some(prompt)) else s] + PromptById(steps[1..], id, prompt)
  }

  /** Renames every step with this id; the other steps are kept as they are. */
  function RetitleById(steps: seq<MvpStep>, id: int, title: string): (r: seq<MvpStep>)
    ensures |r| == |steps|
    ensures forall i :: 0 <= i < |steps| && steps[i].id == id ==> r[i] == steps[i].(title := title)
    ensures forall i :: 0 <= i < |steps| && steps[i].id != id ==> r[i] == steps[i]
    ensures StepIds(r) == StepIds(steps)
    decreases |steps|
  {
    if |steps| == 0 then []
    else
      var s := steps[0];
      var rest := RetitleById(steps[1..], id, title);
      assert forall i :: 1 <= i < |steps| ==> steps[i] == steps[1..][i - 1];
      [if s.id == id then s.(title := title) else s] + rest
  }

  /** Id-keyed edits keep the ids, and so the order, of the steps. */
  lemma ByIdKeepsIds(steps: seq<MvpStep>, id: int, prompt: Prompt, title: string)
    ensures StepIds(ToggleById(steps, id)) == StepIds(steps)
    ensures StepIds(PromptById(steps, id, prompt)) == StepIds(steps)
    ensures StepIds(RetitleById(steps, id, title)) == StepIds(steps)
  {
  }

  /** With distinct ids, toggling changes exactly one step when the id occurs, and none otherwise. */
  lemma ToggleChangesOneStep(steps: seq<MvpStep>, id: int)
    requires DistinctIds(StepIds(steps))
    ensures var r := ToggleById(steps, id);
            (forall i :: 0 <= i < |steps| ==> steps[i].id != id) <==> r == steps
  {
    var r := ToggleById(steps, id);
    if exists i :: 0 <= i < |steps| && steps[i].id == id {
      var i :| 0 <= i < |steps| && steps[i].id == id;
      assert r[i].completed != steps[i].completed;
    } else {
      assert forall i :: 0 <= i < |steps| ==> r[i] == steps[i];
    }
  }

  /** `toggleStep`: ignored while the card is locked. */
  function ToggleStep(card: MvpCardState, p: Plan, id: int): (r: Outcome)
    ensures r.card == card
    ensures card.section.locked ==> r.effect == NoEffect
    ensures !card.section.locked ==> r.effect == Write(NoChange.(mvpPlan := Some(ToggleById(p.mvpPlan, id))))
  {
    if card.section.locked then Outcome(card, NoEffect)
    else Outcome(card, Write(NoChange.(mvpPlan := Some(ToggleById(p.mvpPlan, id)))))
  }

  /** Toggling a step twice on an unlocked card restores the plan. */
  lemma DoubleToggleRestoresPlan(card: MvpCardState, p: Plan, id: int)
    ensures var q := Merge(p, ToggleStep(card, p, id).effect.update);
            Merge(q, ToggleStep(card, q, id).effect.update) == p
  {
    if !card.section.locked {
      ToggleTwice(p.mvpPlan, id);
    }
  }

  /**
    `handleGeneratePrompt`, completed with `reply` from the generator.
    Ignored while locked; a step that already has a prompt only shows it unless
    regeneration is forced; a failed generation changes nothing.
   */
  function GeneratePrompt(card: MvpCardState, p: Plan, step: MvpStep, force: bool, reply: Option<Prompt>): (r: Outcome)
    ensures card.section.locked ==> r == Outcome(card, NoEffect)
    ensures !card.section.locked && step.prompt.Some? && !force ==>
              r == Outcome(card.(shown := step.prompt), NoEffect)
    ensures !card.section.locked && (step.prompt.None? || force) && reply.None? ==> r == Outcome(card, NoEffect)
    ensures !card.section.locked && (step.prompt.None? || force) && reply.Some? ==>
              r.card == card.(shown := reply)
              && r.effect == Write(NoChange.(mvpPlan := Some(PromptById(p.mvpPlan, step.id, reply.value))))
  {
    if card.section.locked then Outcome(card, NoEffect)
    else if step.prompt.Some? && !force then Outcome(card.(shown := step.prompt), NoEffect)
    else match reply
      case None => Outcome(card, NoEffect)
      case Some(pr) => Outcome(card.(shown := reply), Write(NoChange.(mvpPlan := Some(PromptById(p.mvpPlan, step.id, pr)))))
  }

  /**
    A stored prompt lands on the steps carrying the step's id and nowhere
    else: the other steps, and every other field of the plan, are unchanged.
   */
  lemma StoredPromptLandsById(card: MvpCardState, p: Plan, step: MvpStep, force: bool, pr: Prompt)
    requires !card.section.locked && (step.prompt.None? || force)
    ensures var q := Merge(p, GeneratePrompt(card, p, step, force, Some(pr)).effect.update);
            |q.mvpPlan| == |p.mvpPlan|
            && (forall i :: 0 <= i < |p.mvpPlan| ==>
                  (q.mvpPlan[i] != p.mvpPlan[i] ==> p.mvpPlan[i].id == step.id)
                  && (p.mvpPlan[i].id == step.id ==>
                        (q.mvpPlan[i].prompt == Some(pr)
                         && q.mvpPlan[i].title == p.mvpPlan[i].title
                         && q.mvpPlan[i].completed == p.mvpPlan[i].completed)))
            && forall f :: f != MvpPlanField ==> SameField(q, p, f)
  {
  }

  /** Whether the step's prompt button can be pressed: viewing needs only the lock open. */
  predicate PromptButtonEnabled(card: MvpCardState, loading: bool, step: MvpStep, force: bool) {
    if step.prompt.Some? && !force then !card.section.locked
    else !(loading || card.section.locked)
  }

  /** Closing the prompt modal. */
  function ClosePrompt(card: MvpCardState): (r: MvpCardState)
    ensures r.shown.None? && r.section == card.section
  {
    card.(shown := None)
  }

  function ToggleLock(card: MvpCardState): (r: MvpCardState)
    ensures r.section == EditState.ToggleLock(card.section) && r.shown == card.shown
  {
    card.(section := EditState.ToggleLock(card.section))
  }

  function BeginEdit(card: MvpCardState): (r: MvpCardState)
    ensures card.section.locked ==> r == card
    ensures !card.section.locked ==>
              r.section.editing && !r.section.locked && r.section.draft == card.section.draft
              && r.shown == card.shown
  {
    card.(section := EditState.BeginEdit(card.section))
  }

  /** `handleTitleChange`: only the draft step with that id is renamed; the plan is untouched. */
  function ChangeTitle(card: MvpCardState, id: int, title: string): (r: MvpCardState)
    ensures r.section.draft == RetitleById(card.section.draft, id, title)
    ensures r.section.locked == card.section.locked && r.section.editing == card.section.editing
    ensures r.shown == card.shown
  {
    card.(section := EditState.EditDraft(card.section, RetitleById(card.section.draft, id, title)))
  }

  /** `handleSave`: the draft steps become the plan's MVP plan. */
  function SaveSteps(card: MvpCardState): (r: Outcome)
    ensures r.effect == Write(NoChange.(mvpPlan := Some(card.section.draft)))
    ensures !r.card.section.editing && r.card.section.draft == card.section.draft
    ensures r.card.section.locked == card.section.locked
  {
    Outcome(card.(section := EditState.Save(card.section)), Write(NoChange.(mvpPlan := Some(card.section.draft))))
  }

  /** `handleCancel`: the draft returns to the plan's MVP plan. */
  function CancelSteps(card: MvpCardState, p: Plan): (r: MvpCardState)
    ensures !r.section.editing && r.section.draft == p.mvpPlan && r.section.locked == card.section.locked
  {
    card.(section := EditState.Cancel(card.section, p.mvpPlan))
  }

  /** The effect hook on `plan.mvpPlan`. */
  function ResyncSteps(card: MvpCardState, before: Plan, after: Plan): (r: MvpCardState)
    ensures before.mvpPlan == after.mvpPlan ==> r == card
    ensures before.mvpPlan != after.mvpPlan ==> r.section.draft == after.mvpPlan
    ensures r.section.locked == card.section.locked && r.section.editing == card.section.editing
  {
    card.(section := EditState.Resync(card.section, before.mvpPlan, after.mvpPlan))
  }

  /** A run of title edits. */
  function Retitle(card: MvpCardState, edits: seq<(int, string)>): (r: MvpCardState)
    ensures r.section.locked == card.section.locked && r.section.editing == card.section.editing
    ensures StepIds(r.section.draft) == StepIds(card.section.draft)
    ensures r.shown == card.shown
    decreases |edits|
  {
    if |edits| == 0 then card
    else
      Retitle(ChangeTitle(card, edits[0].0, edits[0].1), edits[1..])
  }

  /** Renaming steps and cancelling leaves the card as it was; saving keeps the step ids. */
  lemma RetitleThenCancelOrSave(card: MvpCardState, p: Plan, edits: seq<(int, string)>)
    requires !card.section.editing && card.section.draft == p.mvpPlan
    ensures CancelSteps(Retitle(BeginEdit(card), edits), p) == card
    ensures StepIds(Merge(p, SaveSteps(Retitle(BeginEdit(card), edits)).effect.update).mvpPlan) == StepIds(p.mvpPlan)
  {
  }

  /**
    A toggle that reaches a step while the card is in edit mode changes the
    committed plan, and the effect hook then overwrites the draft with it:
    unsaved title edits are lost.
   */
  lemma ToggleWhileEditingDropsDraft(card: MvpCardState, p: Plan, id: int)
    requires !card.section.locked && card.section.editing
    requires exists i :: 0 <= i < |p.mvpPlan| && p.mvpPlan[i].id == id
    ensures var q := Merge(p, ToggleStep(card, p, id).effect.update);
            ResyncSteps(card, p, q).section.draft == q.mvpPlan
  {
    var i :| 0 <= i < |p.mvpPlan| && p.mvpPlan[i].id == id;
    var q := Merge(p, ToggleStep(card, p, id).effect.update);
    assert q.mvpPlan[i] != p.mvpPlan[i];
  }

  /** The negative prompt as the copy text shows it, with "None" standing in for a missing or empty one. */
  function NegativeText(pr: Prompt): string {
    Text.OrElse(pr.negativePrompt.GetOr(""), "None")
  }

  /** The labels and the first four parts, up to where the negative prompt goes. */
  function CopyHead(pr: Prompt): string {
    CopyFields(pr) + "\n" + "Negative Prompt: "
  }

  function CopyFields(pr: Prompt): string {
    "Context: " + pr.context
    + "\nUser Journey: " + pr.userJourney
    + "\nTechnology: " + pr.technology
    + "\nDesign: " + pr.design
  }

  /** The text the Copy button puts on the clipboard: the five labelled parts, trimmed. */
  function PromptCopyText(pr: Prompt): string {
    Text.Trim("\n" + CopyHead(pr) + NegativeText(pr) + "\n    ")
  }

  /**
    The copy text is the labelled parts in order. Trimming removes only the
    template's outer line breaks and any white space closing the negative prompt.
    A negative prompt of white space only is not replaced by "None" (it is a
    non-empty string), so the trim removes it together with the space after
    the label.
   */
  lemma CopyTextShape(pr: Prompt)
    ensures !Text.AllSpace(NegativeText(pr)) ==>
              PromptCopyText(pr) == CopyHead(pr) + Text.TrimEnd(NegativeText(pr))
    ensures Text.AllSpace(NegativeText(pr)) ==>
              PromptCopyText(pr) == Text.TrimEnd(CopyHead(pr))
              && PromptCopyText(pr) == CopyFields(pr) + "\nNegative Prompt:"
  {
    var head := CopyHead(pr);
    assert head[0] == 'C';
    assert Text.AllSpace("\n    ");
    if Text.AllSpace(NegativeText(pr)) {
      Text.TrimFramedSpace(head, NegativeText(pr), "\n    ");
      LabelTrimmed(CopyFields(pr));
    } else {
      Text.TrimFramed(head, NegativeText(pr), "\n    ");
    }
  }

  /** Trimming the end of the head stops at the label's colon. */
  lemma LabelTrimmed(fields: string)
    ensures Text.TrimEnd(fields + "\n" + "Negative Prompt: ") == fields + "\nNegative Prompt:"
  {
    var k := fields + "\nNegative Prompt:";
    assert fields + "\n" + "Negative Prompt: " == k + " ";
    assert Text.AllSpace(" ");
    Text.TrimEndSpaceSuffix(k, " ");
    assert k[|k| - 1] == ':';
  }

  /** An absent or empty negative prompt makes the copy text end in "Negative Prompt: None". */
  lemma CopyTextNoneWhenAbsent(pr: Prompt)
    requires pr.negativePrompt.None? || pr.negativePrompt == Some("")
    ensures var t := PromptCopyText(pr);
            |t| >= 21 && t[|t| - 21..] == "Negative Prompt: None"
  {
    assert NegativeText(pr) == "None";
    Text.NoneIsTrimmed();
    CopyTextShape(pr);
    EndsWithNone(CopyFields(pr), PromptCopyText(pr));
  }

  /** A text that closes with the negative-prompt label and "None" ends in exactly that. */
  lemma EndsWithNone(fields: string, t: string)
    requires t == fields + "\n" + "Negative Prompt: " + "None"
    ensures |t| >= 21 && t[|t| - 21..] == "Negative Prompt: None"
  {
    assert t == (fields + "\n") + "Negative Prompt: None";
    Text.SuffixOfConcat(fields + "\n", "Negative Prompt: None");
  }
}
