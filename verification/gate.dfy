/**
  The action gate of the idea card: which generation buttons are enabled for
  a plan, given the shared loading flag.
 */
module Gate {
  import opened Wrappers
  import opened PlanTypes
  import opened PlanStore

  datatype Action =
    | ImproveIdea | MarketValidationAction | AddPersona | OutlinePricing
    | RecommendTechStack | GenerateMvpPlan | GenerateDesignDoc

  /** Each button's own `disabled` expression, read off the plan alone. */
  predicate Disabled(p: Plan, a: Action) {
    match a
    case ImproveIdea => |p.ideaImprovements| > 0
    case MarketValidationAction => |p.ideaImprovements| == 0 || p.marketValidation.Some?
    case AddPersona => p.marketValidation.None?
    case OutlinePricing => |p.personas| == 0 || |p.pricing| > 0
    case RecommendTechStack => |p.pricing| == 0 || p.techStack.Some?
    case GenerateMvpPlan => p.techStack.None? || |p.mvpPlan| > 0
    case GenerateDesignDoc => |p.mvpPlan| == 0
  }

  /** A button is enabled when its own condition allows it and nothing is loading. */
  predicate Enabled(p: Plan, loading: bool, a: Action) {
    !(Disabled(p, a) || loading)
  }

  /** The gate in positive form: the prerequisite each action waits for, and the result it must not overwrite. */
  lemma GateTable(p: Plan, loading: bool)
    ensures loading ==> forall a :: !Enabled(p, loading, a)
    ensures !loading ==>
      && (Enabled(p, loading, ImproveIdea) <==> p.ideaImprovements == [])
      && (Enabled(p, loading, MarketValidationAction) <==>
            p.ideaImprovements != [] && p.marketValidation.None?)
      && (Enabled(p, loading, AddPersona) <==> p.marketValidation.Some?)
      && (Enabled(p, loading, OutlinePricing) <==> p.personas != [] && p.pricing == [])
      && (Enabled(p, loading, RecommendTechStack) <==> p.pricing != [] && p.techStack.None?)
      && (Enabled(p, loading, GenerateMvpPlan) <==> p.techStack.Some? && p.mvpPlan == [])
      && (Enabled(p, loading, GenerateDesignDoc) <==> p.mvpPlan != [])
  {
  }

  /** The gate reads only the seven gated fields: the idea text and the features never matter. */
  lemma GateReadsOnlyGatedFields(p: Plan, q: Plan, loading: bool, a: Action)
    requires forall f :: f != IdeaField && f != FeaturesField ==> SameField(p, q, f)
    ensures Enabled(p, loading, a) <==> Enabled(q, loading, a)
  {
    assert SameField(p, q, ImprovementsField) && SameField(p, q, ValidationField);
    assert SameField(p, q, PersonasField) && SameField(p, q, PricingField);
    assert SameField(p, q, TechStackField) && SameField(p, q, MvpPlanField);
  }

  /**
    The chain of prerequisites the gate protects: each later field is filled
    only once the one before it is. The plan type itself allows any combination.
   */
  predicate Prerequisites(p: Plan) {
    && (p.marketValidation.Some? ==> |p.ideaImprovements| > 0)
    && (|p.personas| > 0 ==> p.marketValidation.Some?)
    && (|p.pricing| > 0 ==> |p.personas| > 0)
    && (p.techStack.Some? ==> |p.pricing| > 0)
    && (|p.mvpPlan| > 0 ==> p.techStack.Some?)
  }

  /** A freshly started plan satisfies the chain and enables exactly one action, Improve Idea. */
  lemma FreshPlanGate(idea: string, a: Action)
    ensures Prerequisites(NewPlan(idea))
    ensures Enabled(NewPlan(idea), false, a) <==> a == ImproveIdea
  {
  }

  /**
    Market Validation stays enabled under every update that leaves the
    improvements and the validation alone, and writing a validation disables it.
   */
  lemma MarketValidationStaysEnabled(p: Plan, u: PlanUpdate, v: MarketValidation)
    requires Enabled(p, false, MarketValidationAction)
    ensures !Mentions(u, ImprovementsField) && !Mentions(u, ValidationField) ==>
              Enabled(Merge(p, u), false, MarketValidationAction)
    ensures !Enabled(Merge(p, NoChange.(marketValidation := Some(Some(v)))), false, MarketValidationAction)
  {
    var q := Merge(p, u);
    if !Mentions(u, ImprovementsField) && !Mentions(u, ValidationField) {
      assert SameField(q, p, ImprovementsField) && SameField(q, p, ValidationField);
    }
  }
}
