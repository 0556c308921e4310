/**
  The top-level application controller: the plan document it owns, the
  shallow-merge update every card writes through, starting and discarding a
  plan, the idea generator on the landing screen, and the export file name.
 */
module PlanStore {
  import opened Wrappers
  import opened PlanTypes
  import Text

  /** `Partial<AppPlan>`: every field is either replaced or left alone. */
  datatype PlanUpdate = PlanUpdate(
    idea: Option<string>,
    ideaImprovements: Option<seq<string>>,
    marketValidation: Option<Option<MarketValidation>>,
    personas: Option<seq<Persona>>,
    pricing: Option<seq<PricingTier>>,
    techStack: Option<Option<TechStack>>,
    mvpPlan: Option<seq<MvpStep>>,
    features: Option<seq<Feature>>)

  /** The empty update `{}`. */
  const NoChange: PlanUpdate := PlanUpdate(None, None, None, None, None, None, None, None)

  /** The fields of the plan document, for stating frame conditions. */
  datatype Field =
    | IdeaField | ImprovementsField | ValidationField | PersonasField
    | PricingField | TechStackField | MvpPlanField | FeaturesField

  /** Update `u` mentions field `f`. */
  predicate Mentions(u: PlanUpdate, f: Field) {
    match f
    case IdeaField => u.idea.Some?
    case ImprovementsField => u.ideaImprovements.Some?
    case ValidationField => u.marketValidation.Some?
    case PersonasField => u.personas.Some?
    case PricingField => u.pricing.Some?
    case TechStackField => u.techStack.Some?
    case MvpPlanField => u.mvpPlan.Some?
    case FeaturesField => u.features.Some?
  }

  /** Plans `p` and `q` agree on field `f`. */
  predicate SameField(p: Plan, q: Plan, f: Field) {
    match f
    case IdeaField => p.idea == q.idea
    case ImprovementsField => p.ideaImprovements == q.ideaImprovements
    case ValidationField => p.marketValidation == q.marketValidation
    case PersonasField => p.personas == q.personas
    case PricingField => p.pricing == q.pricing
    case TechStackField => p.techStack == q.techStack
    case MvpPlanField => p.mvpPlan == q.mvpPlan
    case FeaturesField => p.features == q.features
  }

  /** Field `f` of `p` holds the value update `u` supplies for it. */
  predicate Carries(p: Plan, u: PlanUpdate, f: Field) {
    match f
    case IdeaField => u.idea == Some(p.idea)
    case ImprovementsField => u.ideaImprovements == Some(p.ideaImprovements)
    case ValidationField => u.marketValidation == Some(p.marketValidation)
    case PersonasField => u.personas == Some(p.personas)
    case PricingField => u.pricing == Some(p.pricing)
    case TechStackField => u.techStack == Some(p.techStack)
    case MvpPlanField => u.mvpPlan == Some(p.mvpPlan)
    case FeaturesField => u.features == Some(p.features)
  }

  /** Two plans agreeing on every field are the same plan. */
  lemma SameFieldsEqual(p: Plan, q: Plan)
    requires forall f :: SameField(p, q, f)
    ensures p == q
  {
    assert SameField(p, q, IdeaField) && SameField(p, q, ImprovementsField);
    assert SameField(p, q, ValidationField) && SameField(p, q, PersonasField);
    assert SameField(p, q, PricingField) && SameField(p, q, TechStackField);
    assert SameField(p, q, MvpPlanField) && SameField(p, q, FeaturesField);
  }

  /** The plan with the fields the update mentions replaced and every other one kept. */
  function Merge(p: Plan, u: PlanUpdate): (r: Plan)
    ensures forall f :: Mentions(u, f) ==> Carries(r, u, f)
    ensures forall f :: !Mentions(u, f) ==> SameField(r, p, f)
  {
    Plan(
      u.idea.GetOr(p.idea),
      u.ideaImprovements.GetOr(p.ideaImprovements),
      u.marketValidation.GetOr(p.marketValidation),
      u.personas.GetOr(p.personas),
      u.pricing.GetOr(p.pricing),
      u.techStack.GetOr(p.techStack),
      u.mvpPlan.GetOr(p.mvpPlan),
      u.features.GetOr(p.features))
  }

  /** `updatePlan`: merges into the current plan, and does nothing while there is none. */
  function UpdatePlan(plan: Option<Plan>, u: PlanUpdate): (r: Option<Plan>)
    ensures plan.None? ==> r.None?
    ensures plan.Some? ==> r.Some? && r.value == Merge(plan.value, u)
  {
    match plan
    case None => None
    case Some(p) => Some(Merge(p, u))
  }

  /** The empty update leaves the plan as it was. */
  lemma MergeNoChange(p: Plan)
    ensures Merge(p, NoChange) == p
  {
  }

  /** Applying the same update twice is the same as applying it once. */
  lemma MergeIdempotent(p: Plan, u: PlanUpdate)
    ensures Merge(Merge(p, u), u) == Merge(p, u)
  {
  }

  /** Two updates combined into one; the later one wins on the fields both mention. */
  function Then(u1: PlanUpdate, u2: PlanUpdate): (u: PlanUpdate)
    ensures forall f :: Mentions(u, f) <==> Mentions(u1, f) || Mentions(u2, f)
  {
    PlanUpdate(
      if u2.idea.Some? then u2.idea else u1.idea,
      if u2.ideaImprovements.Some? then u2.ideaImprovements else u1.ideaImprovements,
      if u2.marketValidation.Some? then u2.marketValidation else u1.marketValidation,
      if u2.personas.Some? then u2.personas else u1.personas,
      if u2.pricing.Some? then u2.pricing else u1.pricing,
      if u2.techStack.Some? then u2.techStack else u1.techStack,
      if u2.mvpPlan.Some? then u2.mvpPlan else u1.mvpPlan,
      if u2.features.Some? then u2.features else u1.features)
  }

  /** Two successive merges are one merge of the combined update. */
  lemma MergeThen(p: Plan, u1: PlanUpdate, u2: PlanUpdate)
    ensures Merge(Merge(p, u1), u2) == Merge(p, Then(u1, u2))
  {
  }

  /** Updates touching disjoint fields commute. */
  lemma MergeCommutes(p: Plan, u1: PlanUpdate, u2: PlanUpdate)
    requires forall f :: !(Mentions(u1, f) && Mentions(u2, f))
    ensures Merge(Merge(p, u1), u2) == Merge(Merge(p, u2), u1)
  {
    var a := Merge(Merge(p, u1), u2);
    var b := Merge(Merge(p, u2), u1);
    forall f ensures SameField(a, b, f) {
      assert !(Mentions(u1, f) && Mentions(u2, f));
    }
    SameFieldsEqual(a, b);
  }

  /** What a card's handler asks of the controller: a plan update and possibly a new phase. */
  datatype Effect = Effect(update: PlanUpdate, phase: Option<Phase>)

  const NoEffect: Effect := Effect(NoChange, None)

  /** An effect that only writes the given update. */
  function Write(u: PlanUpdate): Effect {
    Effect(u, None)
  }

  /** The controller's state; the tutorial flag and the export menu are left out. */
  datatype AppState = AppState(
    plan: Option<Plan>,
    phase: Phase,
    loading: bool,
    category: string,
    generatedIdeas: seq<string>,
    error: Option<string>)

  const InitialApp: AppState := AppState(None, Setup, false, "", [], None)

  /** The plan `handleStartNewApp` builds around an idea. */
  function NewPlan(idea: string): Plan {
    Plan(idea, [], None, [], [], None, [], [])
  }

  /** `handleStartNewApp`: a fresh plan around `idea`, the Foundations phase, and a cleared landing screen. */
  function StartNewApp(s: AppState, idea: string): (r: AppState)
    ensures r.plan.Some? && r.plan.value.idea == idea
    ensures var p := r.plan.value;
            p.ideaImprovements == [] && p.personas == [] && p.pricing == []
            && p.mvpPlan == [] && p.features == []
            && p.marketValidation.None? && p.techStack.None?
    ensures r.phase == Foundations
    ensures r.generatedIdeas == [] && r.category == ""
    ensures r.loading == s.loading && r.error == s.error
  {
    s.(plan := Some(NewPlan(idea)), phase := Foundations, generatedIdeas := [], category := "")
  }

  /** Pressing Enter in the idea box: an empty box starts nothing. */
  function EnterIdea(s: AppState, text: string): (r: AppState)
    ensures text == "" ==> r == s
    ensures text != "" ==> r == StartNewApp(s, text)
  {
    if text == "" then s else StartNewApp(s, text)
  }

  /** Clicking generated idea `i` starts a plan around it. */
  function ChooseIdea(s: AppState, i: nat): (r: AppState)
    requires i < |s.generatedIdeas|
    ensures r.plan.Some? && r.plan.value.idea == s.generatedIdeas[i]
    ensures r.phase == Foundations && r.generatedIdeas == []
  {
    StartNewApp(s, s.generatedIdeas[i])
  }

  /** `resetApp`: the plan is discarded and the sidebar returns to Setup. */
  function ResetApp(s: AppState): (r: AppState)
    ensures r.plan.None? && r.phase == Setup
    ensures r.generatedIdeas == [] && r.category == ""
    ensures r.loading == s.loading && r.error == s.error
  {
    s.(plan := None, phase := Setup, generatedIdeas := [], category := "")
  }

  /** Typing in the category box. */
  function SetCategory(s: AppState, text: string): (r: AppState)
    ensures r.category == text && r.plan == s.plan && r.phase == s.phase
    ensures r.loading == s.loading && r.generatedIdeas == s.generatedIdeas && r.error == s.error
  {
    s.(category := text)
  }

  const CategoryMissing: string := "Please enter a category."
  const IdeasFailed: string := "Failed to generate ideas. Please try again."

  /**
    `handleGenerateIdeas`, completed: `reply` is what the generator returned,
    `None` when it failed. The button is disabled while loading.
   */
  function GenerateIdeas(s: AppState, reply: Option<seq<string>>): (r: AppState)
    ensures r.plan == s.plan && r.phase == s.phase && r.category == s.category
    ensures s.loading ==> r == s
    ensures !s.loading && s.category == "" ==>
              r.error == Some(CategoryMissing) && !r.loading && r.generatedIdeas == s.generatedIdeas
    ensures !s.loading && s.category != "" ==> !r.loading
    ensures !s.loading && s.category != "" && reply.Some? ==>
              r.generatedIdeas == reply.value && r.error.None?
    ensures !s.loading && s.category != "" && reply.None? ==>
              r.generatedIdeas == s.generatedIdeas && r.error == Some(IdeasFailed)
  {
    if s.loading then s
    else if s.category == "" then s.(error := Some(CategoryMissing))
    else match reply
      case Some(ideas) => s.(loading := false, error := None, generatedIdeas := ideas)
      case None => s.(loading := false, error := Some(IdeasFailed))
  }

  /** The controller carries out a card's effect: `updatePlan` then `setCurrentPhase`. */
  function Apply(s: AppState, e: Effect): (r: AppState)
    ensures r.plan == UpdatePlan(s.plan, e.update)
    ensures r.phase == e.phase.GetOr(s.phase)
    ensures r.loading == s.loading && r.generatedIdeas == s.generatedIdeas
  {
    s.(plan := UpdatePlan(s.plan, e.update), phase := e.phase.GetOr(s.phase))
  }

  /**
    The download name followed by the extension: the idea with spaces turned
    into underscores, or "app_plan" when there is no plan or that is empty.
   */
  function ExportFileName(plan: Option<Plan>, extension: string): (r: string)
    ensures |r| >= |extension| && r[|r| - |extension|..] == extension
    ensures var base := r[..|r| - |extension|];
            && ' ' !in base
            && (plan.None? || plan.value.idea == "" ==> base == "app_plan")
            && (plan.Some? && plan.value.idea != "" ==>
                  var idea := plan.value.idea;
                  |base| == |idea|
                  && forall i :: 0 <= i < |idea| ==> base[i] == (if idea[i] == ' ' then '_' else idea[i]))
  {
    var base := match plan
      case None => ""
      case Some(p) => Text.ReplaceChar(p.idea, ' ', '_');
    Text.OrElse(base, "app_plan") + extension
  }

  /** An idea without underscores is recovered from its export name. */
  lemma ExportNameRecoversIdea(p: Plan, extension: string)
    requires p.idea != "" && '_' !in p.idea
    ensures var r := ExportFileName(Some(p), extension);
            Text.ReplaceChar(r[..|r| - |extension|], '_', ' ') == p.idea
  {
    var r := ExportFileName(Some(p), extension);
    assert r[..|r| - |extension|] == Text.ReplaceChar(p.idea, ' ', '_');
    Text.ReplaceCharRoundTrip(p.idea, ' ', '_');
  }
}
