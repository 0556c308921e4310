/**
  The idea card: the gated generation buttons, the review modal that stages
  each generated result until the user applies it, the pricing editor inside
  that modal, and the lock/edit protocol for the idea and its improvements.
 */
module IdeaCard {
  import opened Wrappers
  import opened PlanTypes
  import opened PlanStore
  import opened Gate
  import EditState
  import Lists
  import Text

  /** What a generation call returned, by kind. */
  datatype Reply =
    | ImprovementsReply(items: seq<string>)
    | ValidationReply(validation: MarketValidation)
    | PersonaReply(persona: Persona)
    | PricingReply(tiers: seq<PricingTier>)
    | TechReply(options: seq<TechStack>)
    | DesignDocReply(document: string)

  /** The open modal and its local state, one variant per modal key. */
  datatype Review =
    | ImprovementsReview(items: seq<string>)
    | ValidationReview(draft: MarketValidation, editing: bool)
    | PersonaReview(persona: Persona)
    | PricingReview(tiers: seq<PricingTier>)
    | TechReview(options: seq<TechStack>)
    | DesignDocReview(document: string)

  /** A reply is of the kind the action asked for. */
  predicate Answers(a: Action, reply: Reply) {
    match a
    case ImproveIdea => reply.ImprovementsReply?
    case MarketValidationAction => reply.ValidationReply?
    case AddPersona => reply.PersonaReply?
    case OutlinePricing => reply.PricingReply?
    case RecommendTechStack => reply.TechReply?
    case GenerateMvpPlan => false
    case GenerateDesignDoc => reply.DesignDocReply?
  }

  /** The modal a reply opens, with its local state freshly initialised. */
  function Staged(reply: Reply): Review {
    match reply
    case ImprovementsReply(items) => ImprovementsReview(items)
    case ValidationReply(v) => ValidationReview(v, false)
    case PersonaReply(q) => PersonaReview(q)
    case PricingReply(tiers) => PricingReview(tiers)
    case TechReply(options) => TechReview(options)
    case DesignDocReply(d) => DesignDocReview(d)
  }

  /** The card's local draft: the idea text and its improvements. */
  datatype IdeaDraft = IdeaDraft(idea: string, improvements: seq<string>)

  datatype IdeaCardState = IdeaCardState(modal: Option<Review>, section: EditState.Section<IdeaDraft>)

  /** What a handler leaves behind: the card's new state and the effect on the plan. */
  datatype Outcome = Outcome(card: IdeaCardState, effect: Effect)

  function Committed(p: Plan): IdeaDraft {
    IdeaDraft(p.idea, p.ideaImprovements)
  }

  function Mount(p: Plan): IdeaCardState {
    IdeaCardState(None, EditState.Mount(Committed(p)))
  }

  /**
    `handleAction`, completed: a reply of the requested kind opens its modal;
    a failure (`None`, or a reply of another shape) changes nothing.
   */
  function HandleAction(card: IdeaCardState, a: Action, reply: Option<Reply>): (r: IdeaCardState)
    ensures r.section == card.section
    ensures reply.Some? && Answers(a, reply.value) ==> r.modal == Some(Staged(reply.value))
    ensures !(reply.Some? && Answers(a, reply.value)) ==> r == card
  {
    if reply.Some? && Answers(a, reply.value) then card.(modal := Some(Staged(reply.value))) else card
  }

  /** The plan `handleGenerateMvpPlan` writes, and the phase it moves to. */
  const MvpPlanEffect: Effect := Effect(NoChange.(mvpPlan := Some(FreshMvpPlan())), Some(Features))

  /**
    Clicking one of the seven action buttons. A disabled button does nothing.
    Generating the MVP plan writes the template at once and moves to the
    Features phase; every other action only stages its reply for review.
   */
  function Click(card: IdeaCardState, p: Plan, loading: bool, a: Action, reply: Option<Reply>): (r: Outcome)
    ensures !Enabled(p, loading, a) ==> r == Outcome(card, NoEffect)
    ensures Enabled(p, loading, a) && a == GenerateMvpPlan ==> r == Outcome(card, MvpPlanEffect)
    ensures Enabled(p, loading, a) && a != GenerateMvpPlan ==>
              r.effect == NoEffect && r.card.section == card.section
    ensures Enabled(p, loading, a) && a != GenerateMvpPlan && reply.Some? && Answers(a, reply.value) ==>
              r.card.modal == Some(Staged(reply.value))
    ensures !(reply.Some? && Answers(a, reply.value)) && a != GenerateMvpPlan ==> r == Outcome(card, NoEffect)
  {
    if !Enabled(p, loading, a) then Outcome(card, NoEffect)
    else if a == GenerateMvpPlan then Outcome(card, MvpPlanEffect)
    else Outcome(HandleAction(card, a, reply), NoEffect)
  }

  /** The MVP plan the button writes: the six template steps, none completed, none prompted. */
  lemma MvpPlanFromTemplate()
    ensures var m := MvpPlanEffect.update.mvpPlan.value;
            |m| == 6 && StepIds(m) == [1, 2, 3, 4, 5, 6]
            && forall i :: 0 <= i < 6 ==> !m[i].completed && m[i].prompt.None?
    ensures MvpPlanEffect.phase == Some(Features)
    ensures forall f :: Mentions(MvpPlanEffect.update, f) <==> f == MvpPlanField
  {
    var m := FreshMvpPlan();
    TemplateShape();
    assert StepIds(m) == [1, 2, 3, 4, 5, 6];
  }

  /** Closing the modal discards whatever it staged. */
  function CloseModal(card: IdeaCardState): (r: Outcome)
    ensures r.card.modal.None? && r.card.section == card.section && r.effect == NoEffect
  {
    Outcome(card.(modal := None), NoEffect)
  }

  /** "Apply Improvements": the staged list becomes the plan's improvements. */
  function ApplyImprovements(card: IdeaCardState): (r: Outcome)
    ensures card.modal.Some? && card.modal.value.ImprovementsReview? ==>
              r.card.modal.None? && r.effect == Write(NoChange.(ideaImprovements := Some(card.modal.value.items)))
    ensures !(card.modal.Some? && card.modal.value.ImprovementsReview?) ==> r == Outcome(card, NoEffect)
  {
    match card.modal
    case Some(ImprovementsReview(items)) =>
      Outcome(card.(modal := None), Write(NoChange.(ideaImprovements := Some(items))))
    case _ => Outcome(card, NoEffect)
  }

  /** The edit button beside Market Validation reopens the committed validation for review. */
  function ViewValidation(card: IdeaCardState, p: Plan): (r: IdeaCardState)
    ensures p.marketValidation.Some? ==> r.modal == Some(ValidationReview(p.marketValidation.value, false))
    ensures p.marketValidation.None? ==> r == card
  {
    match p.marketValidation
    case Some(v) => card.(modal := Some(ValidationReview(v, false)))
    case None => card
  }

  datatype ValidationText = CoreProblem | FounderProfile | RiskAssessment
  datatype ValidationList = CommunityResearch | Competitors | Differentiation

  function TextOf(v: MarketValidation, f: ValidationText): string {
    match f
    case CoreProblem => v.coreProblem
    case FounderProfile => v.founderProfile
    case RiskAssessment => v.riskAssessment
  }

  function ListOf(v: MarketValidation, f: ValidationList): seq<string> {
    match f
    case CommunityResearch => v.communityResearch
    case Competitors => v.competitors
    case Differentiation => v.differentiation
  }

  /** The validation with one text field replaced. */
  function SetValidationText(v: MarketValidation, f: ValidationText, text: string): (r: MarketValidation)
    ensures TextOf(r, f) == text
    ensures forall g :: g != f ==> TextOf(r, g) == TextOf(v, g)
    ensures forall g :: ListOf(r, g) == ListOf(v, g)
  {
    match f
    case CoreProblem => v.(coreProblem := text)
    case FounderProfile => v.(founderProfile := text)
    case RiskAssessment => v.(riskAssessment := text)
  }

  /** A list field edited as a textarea: the text is split into one element per line. */
  function SetValidationList(v: MarketValidation, f: ValidationList, text: string): (r: MarketValidation)
    ensures ListOf(r, f) == Text.Split(text, '\n')
    ensures forall g :: g != f ==> ListOf(r, g) == ListOf(v, g)
    ensures forall g :: TextOf(r, g) == TextOf(v, g)
  {
    var items := Text.Split(text, '\n');
    match f
    case CommunityResearch => v.(communityResearch := items)
    case Competitors => v.(competitors := items)
    case Differentiation => v.(differentiation := items)
  }

  /**
    Writing back exactly what a list textarea shows leaves the validation
    unchanged if and only if the list is non-empty and no element holds a line break.
   */
  lemma ListTextareaRoundTrip(v: MarketValidation, f: ValidationList)
    ensures SetValidationList(v, f, Text.Join(ListOf(v, f), "\n")) == v <==>
              (|ListOf(v, f)| > 0 && forall i :: 0 <= i < |ListOf(v, f)| ==> '\n' !in ListOf(v, f)[i])
  {
    var xs := ListOf(v, f);
    assert "\n" == ['\n'];
    Text.SplitJoinRoundTrip(xs, '\n');
    var r := SetValidationList(v, f, Text.Join(xs, "\n"));
    if Text.Split(Text.Join(xs, "\n"), '\n') == xs {
      assert forall g :: ListOf(r, g) == ListOf(v, g);
      assert forall g :: TextOf(r, g) == TextOf(v, g);
      assert TextOf(r, CoreProblem) == TextOf(v, CoreProblem);
      assert TextOf(r, FounderProfile) == TextOf(v, FounderProfile);
      assert TextOf(r, RiskAssessment) == TextOf(v, RiskAssessment);
      assert ListOf(r, CommunityResearch) == ListOf(v, CommunityResearch);
      assert ListOf(r, Competitors) == ListOf(v, Competitors);
      assert ListOf(r, Differentiation) == ListOf(v, Differentiation);
    } else {
      assert ListOf(r, f) != ListOf(v, f);
    }
  }

  /** "Edit Validation" / "Stop Editing". */
  function ToggleValidationEditing(card: IdeaCardState): (r: IdeaCardState)
    ensures card.modal.Some? && card.modal.value.ValidationReview? ==>
              r.modal == Some(card.modal.value.(editing := !card.modal.value.editing))
    ensures !(card.modal.Some? && card.modal.value.ValidationReview?) ==> r == card
    ensures r.section == card.section
  {
    match card.modal
    case Some(ValidationReview(d, e)) => card.(modal := Some(ValidationReview(d, !e)))
    case _ => card
  }

  /** Typing in a text field of the validation modal; the fields exist only in edit mode. */
  function EditValidationText(card: IdeaCardState, f: ValidationText, text: string): (r: IdeaCardState)
    ensures card.modal.Some? && card.modal.value.ValidationReview? && card.modal.value.editing ==>
              r.modal == Some(ValidationReview(SetValidationText(card.modal.value.draft, f, text), true))
    ensures !(card.modal.Some? && card.modal.value.ValidationReview? && card.modal.value.editing) ==> r == card
    ensures r.section == card.section
  {
    match card.modal
    case Some(ValidationReview(d, true)) => card.(modal := Some(ValidationReview(SetValidationText(d, f, text), true)))
    case _ => card
  }

  /** Typing in a list textarea of the validation modal. */
  function EditValidationList(card: IdeaCardState, f: ValidationList, text: string): (r: IdeaCardState)
    ensures card.modal.Some? && card.modal.value.ValidationReview? && card.modal.value.editing ==>
              r.modal == Some(ValidationReview(SetValidationList(card.modal.value.draft, f, text), true))
    ensures !(card.modal.Some? && card.modal.value.ValidationReview? && card.modal.value.editing) ==> r == card
    ensures r.section == card.section
  {
    match card.modal
    case Some(ValidationReview(d, true)) => card.(modal := Some(ValidationReview(SetValidationList(d, f, text), true)))
    case _ => card
  }

  /** "Save & Close": the modal's validation replaces the plan's, whole. */
  function SaveValidation(card: IdeaCardState): (r: Outcome)
    ensures card.modal.Some? && card.modal.value.ValidationReview? ==>
              r.card.modal.None?
              && r.effect == Write(NoChange.(marketValidation := Some(Some(card.modal.value.draft))))
    ensures !(card.modal.Some? && card.modal.value.ValidationReview?) ==> r == Outcome(card, NoEffect)
  {
    match card.modal
    case Some(ValidationReview(d, _)) =>
      Outcome(card.(modal := None), Write(NoChange.(marketValidation := Some(Some(d)))))
    case _ => Outcome(card, NoEffect)
  }

  /** "Add Persona to Canvas": the staged persona goes to the end of the list. */
  function ApplyPersona(card: IdeaCardState, p: Plan): (r: Outcome)
    ensures card.modal.Some? && card.modal.value.PersonaReview? ==>
              && r.card.modal.None?
              && r.effect == Write(NoChange.(personas := Some(p.personas + [card.modal.value.persona])))
    ensures !(card.modal.Some? && card.modal.value.PersonaReview?) ==> r == Outcome(card, NoEffect)
  {
    match card.modal
    case Some(PersonaReview(q)) =>
      Outcome(card.(modal := None), Write(NoChange.(personas := Some(p.personas + [q]))))
    case _ => Outcome(card, NoEffect)
  }

  /** Applying a persona appends it: the earlier personas keep their places. */
  lemma ApplyPersonaAppends(card: IdeaCardState, p: Plan)
    requires card.modal.Some? && card.modal.value.PersonaReview?
    ensures var q := Merge(p, ApplyPersona(card, p).effect.update);
            |q.personas| == |p.personas| + 1
            && q.personas[..|p.personas|] == p.personas
            && q.personas[|p.personas|] == card.modal.value.persona
            && forall f :: f != PersonasField ==> SameField(q, p, f)
  {
  }

  // The pricing review edits its own copy of the tiers.

  function WithTierName(tiers: seq<PricingTier>, i: nat, name: string): (r: seq<PricingTier>)
    requires i < |tiers|
    ensures |r| == |tiers| && r[i] == tiers[i].(name := name)
    ensures forall k :: 0 <= k < |tiers| && k != i ==> r[k] == tiers[k]
  {
    Lists.ReplaceAt(tiers, i, tiers[i].(name := name))
  }

  function WithTierPrice(tiers: seq<PricingTier>, i: nat, price: string): (r: seq<PricingTier>)
    requires i < |tiers|
    ensures |r| == |tiers| && r[i] == tiers[i].(price := price)
    ensures forall k :: 0 <= k < |tiers| && k != i ==> r[k] == tiers[k]
  {
    Lists.ReplaceAt(tiers, i, tiers[i].(price := price))
  }

  /** The tiers with feature `j` of tier `i` replaced. */
  function WithTierFeature(tiers: seq<PricingTier>, i: nat, j: nat, text: string): (r: seq<PricingTier>)
    requires i < |tiers| && j < |tiers[i].features|
    ensures |r| == |tiers| && r[i].name == tiers[i].name && r[i].price == tiers[i].price
    ensures |r[i].features| == |tiers[i].features| && r[i].features[j] == text
    ensures forall m :: 0 <= m < |tiers[i].features| && m != j ==> r[i].features[m] == tiers[i].features[m]
    ensures forall k :: 0 <= k < |tiers| && k != i ==> r[k] == tiers[k]
  {
    Lists.ReplaceAt(tiers, i, tiers[i].(features := Lists.ReplaceAt(tiers[i].features, j, text)))
  }

  const NewFeatureText: string := "New Feature"

  /** `addFeature`: "New Feature" is appended to tier `i` only. */
  function WithAddedFeature(tiers: seq<PricingTier>, i: nat): (r: seq<PricingTier>)
    requires i < |tiers|
    ensures |r| == |tiers| && r[i] == tiers[i].(features := tiers[i].features + [NewFeatureText])
    ensures forall k :: 0 <= k < |tiers| && k != i ==> r[k] == tiers[k]
  {
    Lists.ReplaceAt(tiers, i, tiers[i].(features := tiers[i].features + [NewFeatureText]))
  }

  /** `removeFeature`: feature `j` of tier `i` is spliced out. */
  function WithoutFeature(tiers: seq<PricingTier>, i: nat, j: nat): (r: seq<PricingTier>)
    requires i < |tiers|
    ensures |r| == |tiers| && r[i] == tiers[i].(features := Lists.RemoveAt(tiers[i].features, j))
    ensures forall k :: 0 <= k < |tiers| && k != i ==> r[k] == tiers[k]
  {
    Lists.ReplaceAt(tiers, i, tiers[i].(features := Lists.RemoveAt(tiers[i].features, j)))
  }

  /** Adding a feature to a tier and removing that new last feature restores the tiers. */
  lemma AddThenRemoveFeature(tiers: seq<PricingTier>, i: nat)
    requires i < |tiers|
    ensures WithoutFeature(WithAddedFeature(tiers, i), i, |tiers[i].features|) == tiers
  {
    var fs := tiers[i].features;
    assert Lists.RemoveAt(fs + [NewFeatureText], |fs|) == fs;
    var r := WithoutFeature(WithAddedFeature(tiers, i), i, |fs|);
    assert forall k :: 0 <= k < |tiers| ==> r[k] == tiers[k];
  }

  datatype PricingEdit =
    | RenameTier(tier: nat, text: string)
    | RepriceTier(tier: nat, text: string)
    | EditTierFeature(tier: nat, feature: nat, text: string)
    | AddTierFeature(tier: nat)
    | RemoveTierFeature(tier: nat, feature: nat)

  /** The edit names a tier (and feature) the modal renders. */
  predicate ValidEdit(tiers: seq<PricingTier>, e: PricingEdit) {
    e.tier < |tiers| && (e.EditTierFeature? || e.RemoveTierFeature? ==> e.feature < |tiers[e.tier].features|)
  }

  function ApplyPricingEdit(tiers: seq<PricingTier>, e: PricingEdit): (r: seq<PricingTier>)
    requires ValidEdit(tiers, e)
    ensures |r| == |tiers|
    ensures forall k :: 0 <= k < |tiers| && k != e.tier ==> r[k] == tiers[k]
  {
    match e
    case RenameTier(i, t) => WithTierName(tiers, i, t)
    case RepriceTier(i, t) => WithTierPrice(tiers, i, t)
    case EditTierFeature(i, j, t) => WithTierFeature(tiers, i, j, t)
    case AddTierFeature(i) => WithAddedFeature(tiers, i)
    case RemoveTierFeature(i, j) => WithoutFeature(tiers, i, j)
  }

  /** An edit inside the open pricing review; anything else is ignored. */
  function EditPricing(card: IdeaCardState, e: PricingEdit): (r: IdeaCardState)
    ensures card.modal.Some? && card.modal.value.PricingReview? && ValidEdit(card.modal.value.tiers, e) ==>
              r.modal == Some(PricingReview(ApplyPricingEdit(card.modal.value.tiers, e)))
    ensures !(card.modal.Some? && card.modal.value.PricingReview? && ValidEdit(card.modal.value.tiers, e)) ==> r == card
    ensures r.section == card.section
  {
    match card.modal
    case Some(PricingReview(tiers)) =>
      if ValidEdit(tiers, e) then card.(modal := Some(PricingReview(ApplyPricingEdit(tiers, e)))) else card
    case _ => card
  }

  /** "Confirm Pricing": the edited tiers become the plan's pricing. */
  function ConfirmPricing(card: IdeaCardState): (r: Outcome)
    ensures card.modal.Some? && card.modal.value.PricingReview? ==>
              r.card.modal.None? && r.effect == Write(NoChange.(pricing := Some(card.modal.value.tiers)))
    ensures !(card.modal.Some? && card.modal.value.PricingReview?) ==> r == Outcome(card, NoEffect)
  {
    match card.modal
    case Some(PricingReview(tiers)) => Outcome(card.(modal := None), Write(NoChange.(pricing := Some(tiers))))
    case _ => Outcome(card, NoEffect)
  }

  /** Clicking option `i` of the tech-stack review selects exactly that option and closes. */
  function SelectTechStack(card: IdeaCardState, i: nat): (r: Outcome)
    ensures card.modal.Some? && card.modal.value.TechReview? && i < |card.modal.value.options| ==>
              r.card.modal.None?
              && r.effect == Write(NoChange.(techStack := Some(Some(card.modal.value.options[i]))))
    ensures !(card.modal.Some? && card.modal.value.TechReview? && i < |card.modal.value.options|) ==>
              r == Outcome(card, NoEffect)
  {
    match card.modal
    case Some(TechReview(options)) =>
      if i < |options| then Outcome(card.(modal := None), Write(NoChange.(techStack := Some(Some(options[i])))))
      else Outcome(card, NoEffect)
    case _ => Outcome(card, NoEffect)
  }

  /** The apply button of whatever review is open (`choice` picks the tech-stack option). */
  function AcceptReview(card: IdeaCardState, p: Plan, choice: nat): Outcome {
    match card.modal
    case Some(ImprovementsReview(_)) => ApplyImprovements(card)
    case Some(ValidationReview(_, _)) => SaveValidation(card)
    case Some(PersonaReview(_)) => ApplyPersona(card, p)
    case Some(PricingReview(_)) => ConfirmPricing(card)
    case Some(TechReview(_)) => SelectTechStack(card, choice)
    case _ => Outcome(card, NoEffect)
  }

  /**
    Following the gate keeps the prerequisite chain: an enabled action whose
    result is then applied (or the MVP plan written) leaves every later field
    resting on a filled earlier one.
   */
  lemma GatedActionKeepsPrerequisites(card: IdeaCardState, p: Plan, a: Action, reply: Option<Reply>, choice: nat)
    requires Prerequisites(p) && Enabled(p, false, a) && card.modal.None?
    ensures var o1 := Click(card, p, false, a, reply);
            var o2 := AcceptReview(o1.card, p, choice);
            Prerequisites(Merge(Merge(p, o1.effect.update), o2.effect.update))
  {
    var o1 := Click(card, p, false, a, reply);
    var o2 := AcceptReview(o1.card, p, choice);
    if a != GenerateMvpPlan && reply.Some? && Answers(a, reply.value) {
      assert o1.card.modal == Some(Staged(reply.value));
      assert Merge(p, o1.effect.update) == p;
    } else if a == GenerateMvpPlan {
      MvpPlanFromTemplate();
      var q := Merge(p, o1.effect.update);
      assert q.mvpPlan == FreshMvpPlan() && q.techStack == p.techStack;
      assert o2.effect == NoEffect;
      assert Merge(q, NoChange) == q;
    } else {
      assert o1 == Outcome(card, NoEffect) && o2.effect == NoEffect;
      assert Merge(Merge(p, NoChange), NoChange) == p;
    }
  }

  // The idea text and its improvements, edited under the card's lock.

  function ToggleLock(card: IdeaCardState): (r: IdeaCardState)
    ensures r.section == EditState.ToggleLock(card.section) && r.modal == card.modal
  {
    card.(section := EditState.ToggleLock(card.section))
  }

  function BeginEdit(card: IdeaCardState): (r: IdeaCardState)
    ensures card.section.locked ==> r == card
    ensures !card.section.locked ==>
              r.section.editing && !r.section.locked && r.section.draft == card.section.draft
              && r.modal == card.modal
  {
    card.(section := EditState.BeginEdit(card.section))
  }

  /** Typing in the idea textarea: only the draft idea changes. */
  function EditIdea(card: IdeaCardState, text: string): (r: IdeaCardState)
    ensures r.section.draft == card.section.draft.(idea := text)
    ensures r.section.locked == card.section.locked && r.section.editing == card.section.editing
    ensures r.modal == card.modal
  {
    card.(section := EditState.EditDraft(card.section, card.section.draft.(idea := text)))
  }

  /** `handleImprovementChange`: only entry `i` of the draft changes; the length is kept. */
  function EditImprovement(card: IdeaCardState, i: nat, text: string): (r: IdeaCardState)
    requires i < |card.section.draft.improvements|
    ensures var before := card.section.draft.improvements;
            var after := r.section.draft.improvements;
            |after| == |before| && after[i] == text
            && (forall k :: 0 <= k < |before| && k != i ==> after[k] == before[k])
    ensures r.section.draft.idea == card.section.draft.idea
    ensures r.section.locked == card.section.locked && r.section.editing == card.section.editing
    ensures r.modal == card.modal
  {
    var d := card.section.draft;
    card.(section := EditState.EditDraft(card.section, d.(improvements := Lists.ReplaceAt(d.improvements, i, text))))
  }

  /** Save: the draft idea and improvements are written together; the lock is not consulted. */
  function SaveIdea(card: IdeaCardState): (r: Outcome)
    ensures r.effect == Write(NoChange.(idea := Some(card.section.draft.idea),
                                        ideaImprovements := Some(card.section.draft.improvements)))
    ensures !r.card.section.editing && r.card.section.locked == card.section.locked && r.card.modal == card.modal
  {
    var d := card.section.draft;
    Outcome(card.(section := EditState.Save(card.section)),
            Write(NoChange.(idea := Some(d.idea), ideaImprovements := Some(d.improvements))))
  }

  /** Cancel: the draft returns to the plan's idea and improvements. */
  function CancelIdea(card: IdeaCardState, p: Plan): (r: IdeaCardState)
    ensures !r.section.editing && r.section.draft == Committed(p)
    ensures r.section.locked == card.section.locked && r.modal == card.modal
  {
    card.(section := EditState.Cancel(card.section, Committed(p)))
  }

  /** The effect hook on `plan.idea` and `plan.ideaImprovements`. */
  function ResyncIdea(card: IdeaCardState, before: Plan, after: Plan): (r: IdeaCardState)
    ensures Committed(before) == Committed(after) ==> r == card
    ensures Committed(before) != Committed(after) ==> r.section.draft == Committed(after)
    ensures r.modal == card.modal && r.section.locked == card.section.locked
    ensures r.section.editing == card.section.editing
  {
    card.(section := EditState.Resync(card.section, Committed(before), Committed(after)))
  }

  /** One keystroke in the idea card's edit mode. */
  datatype IdeaKeystroke = TypeIdea(text: string) | TypeImprovement(index: nat, text: string)

  /** A run of keystrokes; an improvement index the draft does not have is ignored. */
  function Type(card: IdeaCardState, keys: seq<IdeaKeystroke>): (r: IdeaCardState)
    ensures r.modal == card.modal
    ensures r.section.locked == card.section.locked && r.section.editing == card.section.editing
    ensures |r.section.draft.improvements| == |card.section.draft.improvements|
    decreases |keys|
  {
    if |keys| == 0 then card
    else
      var next := match keys[0]
        case TypeIdea(t) => EditIdea(card, t)
        case TypeImprovement(i, t) =>
          if i < |card.section.draft.improvements| then EditImprovement(card, i, t) else card;
      Type(next, keys[1..])
  }

  /** Any run of keystrokes followed by Cancel leaves the card as it was before editing. */
  lemma TypeThenCancel(card: IdeaCardState, p: Plan, keys: seq<IdeaKeystroke>)
    requires !card.section.editing && card.section.draft == Committed(p)
    ensures CancelIdea(Type(BeginEdit(card), keys), p) == card
  {
  }

  /** Saving after keystrokes changes only the idea and the improvements, and keeps the number of improvements. */
  lemma TypeThenSave(card: IdeaCardState, p: Plan, keys: seq<IdeaKeystroke>)
    requires card.section.draft == Committed(p)
    ensures var q := Merge(p, SaveIdea(Type(card, keys)).effect.update);
            |q.ideaImprovements| == |p.ideaImprovements|
            && forall f :: f != IdeaField && f != ImprovementsField ==> SameField(q, p, f)
  {
  }
}
