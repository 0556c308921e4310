/**
  The plan document: one app idea and everything derived from it, with the
  nested records it holds and the fixed MVP checklist template.

  The plan keeps an ordered list of personas. The older single-persona shape
  survives only in the readers that show "the persona", and those readers use
  `LeadPersona`, the first persona in the list.
 */
module PlanTypes {
  import opened Wrappers

  /** The four phases, in the order the sidebar lists them. */
  datatype Phase = Setup | Foundations | Features | Launch

  /** Position of a phase in the declaration order of the enum. */
  function PhaseIndex(p: Phase): nat {
    match p
    case Setup => 0
    case Foundations => 1
    case Features => 2
    case Launch => 3
  }

  /** The phases in their declared order, as the sidebar lists them. */
  const Phases: seq<Phase> := [Setup, Foundations, Features, Launch]

  predicate PhaseBefore(a: Phase, b: Phase) {
    PhaseIndex(a) < PhaseIndex(b)
  }

  /** The phases form a strict total order, and `Phases` lists them in that order. */
  lemma PhasesTotallyOrdered(a: Phase, b: Phase, c: Phase)
    ensures !PhaseBefore(a, a)
    ensures PhaseBefore(a, b) && PhaseBefore(b, c) ==> PhaseBefore(a, c)
    ensures a != b ==> PhaseBefore(a, b) || PhaseBefore(b, a)
    ensures |Phases| == 4 && Phases[PhaseIndex(a)] == a
    ensures PhaseBefore(Setup, Foundations) && PhaseBefore(Foundations, Features)
    ensures PhaseBefore(Features, Launch)
  {
  }

  /** A feature's impact: the union type 'High' | 'Medium' | 'Low'. */
  datatype Impact = High | Medium | Low

  function ImpactName(i: Impact): string {
    match i
    case High => "High"
    case Medium => "Medium"
    case Low => "Low"
  }

  /** A build prompt; only the negative prompt may be absent. */
  datatype Prompt = Prompt(
    context: string,
    userJourney: string,
    technology: string,
    design: string,
    negativePrompt: Option<string>)

  datatype MarketValidation = MarketValidation(
    coreProblem: string,
    founderProfile: string,
    communityResearch: seq<string>,
    competitors: seq<string>,
    differentiation: seq<string>,
    riskAssessment: string)

  datatype Persona = Persona(
    name: string,
    demographics: string,
    psychographics: string,
    bio: string,
    goals: seq<string>,
    painPoints: seq<string>)

  datatype PricingTier = PricingTier(name: string, price: string, features: seq<string>)

  datatype TechStack = TechStack(
    category: string,
    backend: string,
    database: string,
    authentication: string,
    payments: string,
    services: seq<string>)

  datatype MvpStep = MvpStep(id: int, title: string, completed: bool, prompt: Option<Prompt>)

  datatype Feature = Feature(id: string, title: string, impact: Impact, category: string, prompt: Option<Prompt>)

  /** The plan document. */
  datatype Plan = Plan(
    idea: string,
    ideaImprovements: seq<string>,
    marketValidation: Option<MarketValidation>,
    personas: seq<Persona>,
    pricing: seq<PricingTier>,
    techStack: Option<TechStack>,
    mvpPlan: seq<MvpStep>,
    features: seq<Feature>)

  /** The founder's own details and technology preferences. */
  datatype UserProfile = UserProfile(
    name: string,
    phone: string,
    address: string,
    bio: string,
    website: string,
    techPreferences: seq<string>)

  /** The persona that single-persona readers show: the first one, if any. */
  function LeadPersona(p: Plan): (r: Option<Persona>)
    ensures r.Some? <==> |p.personas| > 0
    ensures r.Some? ==> r.value == p.personas[0]
  {
    if |p.personas| > 0 then Some(p.personas[0]) else None
  }

  /** A checklist template entry: an MVP step without its prompt. */
  datatype TemplateStep = TemplateStep(id: int, title: string, completed: bool)

  const MvpChecklistTemplate: seq<TemplateStep> := [
    TemplateStep(1, "Set up your app (Project initialization, basic structure)", false),
    TemplateStep(2, "Add and test database", false),
    TemplateStep(3, "Add and test authentication", false),
    TemplateStep(4, "Add and test payments", false),
    TemplateStep(5, "Build and test core features (e.g., first feature, brain dump, SMS reminders)", false),
    TemplateStep(6, "Test and deploy your app", false)
  ]

  /** The template has six steps with ids 1..6 in ascending order, none completed. */
  lemma TemplateShape()
    ensures |MvpChecklistTemplate| == 6
    ensures forall i :: 0 <= i < 6 ==> MvpChecklistTemplate[i].id == i + 1
    ensures forall i :: 0 <= i < 6 ==> !MvpChecklistTemplate[i].completed
    ensures forall i, j :: 0 <= i < j < 6 ==> MvpChecklistTemplate[i].id < MvpChecklistTemplate[j].id
  {
  }

  /** The MVP plan a generation writes: the template's steps, each without a prompt. */
  function FreshMvpPlan(): (r: seq<MvpStep>)
    ensures |r| == |MvpChecklistTemplate|
    ensures forall i :: 0 <= i < |r| ==>
              r[i].id == MvpChecklistTemplate[i].id && r[i].title == MvpChecklistTemplate[i].title
              && !r[i].completed && r[i].prompt.None?
  {
    seq(|MvpChecklistTemplate|, i requires 0 <= i < |MvpChecklistTemplate| =>
      var t := MvpChecklistTemplate[i]; MvpStep(t.id, t.title, t.completed, None))
  }

  /** The ids of a list of MVP steps, in order. */
  function StepIds(steps: seq<MvpStep>): seq<int> {
    seq(|steps|, i requires 0 <= i < |steps| => steps[i].id)
  }

  /** Ids are pairwise distinct. */
  predicate DistinctIds<K(==)>(ids: seq<K>) {
    forall i, j :: 0 <= i < j < |ids| ==> ids[i] != ids[j]
  }

  /** The ids of a list of features, in order. */
  function FeatureIds(fs: seq<Feature>): seq<string> {
    seq(|fs|, i requires 0 <= i < |fs| => fs[i].id)
  }
}
