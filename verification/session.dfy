/**
  The application as a whole: the controller state with the idea, MVP-plan
  and feature cards mounted on the canvas, driven by one user event at a
  time. Each card event runs that card's handler and the controller applies
  the effect; afterwards the cards' effect hooks resynchronise their drafts,
  and a card that has just appeared mounts fresh.

  The feature card's visibility is a parameter: `AsWritten` is the canvas's
  own rule, `Intended` the corrected one the rest of the model uses.
 */
module Session {
  import opened Wrappers
  import opened PlanTypes
  import opened PlanStore
  import opened Gate
  import IdeaCard
  import MvpPlanCard
  import FeatureCard
  import Canvas
  import Sidebar

  datatype Session = Session(
    app: AppState,
    idea: IdeaCard.IdeaCardState,
    mvp: MvpPlanCard.MvpCardState,
    feat: FeatureCard.FeatureCardState)

  /** Card state for a canvas that is not on screen; it is replaced when a plan starts. */
  const Unmounted: Plan := NewPlan("")

  const InitialSession: Session :=
    Session(InitialApp, IdeaCard.Mount(Unmounted), MvpPlanCard.Mount(Unmounted), FeatureCard.Mount(Unmounted))

  datatype Event =
    | EnterIdea(text: string)
    | TypeCategory(text: string)
    | GenerateIdeas(ideasReply: Option<seq<string>>)
    | ChooseIdea(index: nat)
    | NewProject
    | IdeaClick(action: Action, reply: Option<IdeaCard.Reply>)
    | IdeaAccept(choice: nat)
    | IdeaClose
    | MvpLock
    | MvpToggle(id: int)
    | MvpPrompt(step: nat, force: bool, promptReply: Option<Prompt>)
    | FeatureLock
    | FeatureType(text: string)
    | FeatureAdd(featureId: string)
    | FeatureSuggest(suggestions: Option<seq<FeatureCard.Suggestion>>, ids: seq<string>)
    | FeaturePrompt(feature: nat, promptReply: Option<Prompt>)

  /** All cards mount fresh around a new plan. */
  function MountCards(s: Session): Session {
    match s.app.plan
    case None => s
    case Some(p) => s.(idea := IdeaCard.Mount(p), mvp := MvpPlanCard.Mount(p), feat := FeatureCard.Mount(p))
  }

  /**
    The controller applies a card's effect; the cards still on the canvas
    resynchronise, and a card that has just appeared mounts fresh. An effect
    that writes nothing changes no state, so no hook runs.
   */
  function Commit(s: Session, e: Effect, rule: Canvas.FeatureRule): (r: Session)
    ensures e == NoEffect ==> r == s
    ensures r.app == (if e == NoEffect then s.app else Apply(s.app, e))
  {
    if e == NoEffect then s
    else
      var app := Apply(s.app, e);
      match (s.app.plan, app.plan)
      case (Some(before), Some(after)) =>
        var idea := IdeaCard.ResyncIdea(s.idea, before, after);
        var mvp := if !Canvas.MvpShown(before) then MvpPlanCard.Mount(after)
                   else MvpPlanCard.ResyncSteps(s.mvp, before, after);
        var feat := if !Canvas.FeatureCardShown(before, rule) then FeatureCard.Mount(after)
                    else FeatureCard.ResyncFeatures(s.feat, before, after);
        Session(app, idea, mvp, feat)
      case _ => s.(app := app)
  }

  /** Applying the idea card's review never moves the phase and never writes features. */
  lemma AcceptReviewIsTame(card: IdeaCard.IdeaCardState, p: Plan, choice: nat)
    ensures Tame(IdeaCard.AcceptReview(card, p, choice).effect)
  {
  }

  /** The effect a card event hands the controller leaves features alone and moves the phase, if at all, to Features. */
  predicate Tame(e: Effect) {
    (e.phase.None? || e.phase == Some(Features)) && !Mentions(e.update, FeaturesField)
  }

  /** Events on the landing screen, where there is no plan yet. */
  function OnLanding(s: Session, e: Event): (r: Session)
    ensures Consistent(s) && s.app.plan.None? ==> Consistent(r)
    ensures s.app.plan.None? ==> r.app.plan.None? || r.app.plan.value.features == []
  {
    match e
    case EnterIdea(text) => MountCards(s.(app := PlanStore.EnterIdea(s.app, text)))
    case TypeCategory(text) => s.(app := SetCategory(s.app, text))
    case GenerateIdeas(reply) => s.(app := PlanStore.GenerateIdeas(s.app, reply))
    case ChooseIdea(i) =>
      if i < |s.app.generatedIdeas| then MountCards(s.(app := PlanStore.ChooseIdea(s.app, i))) else s
    case NewProject => s.(app := ResetApp(s.app))
    case _ => s
  }

  /** The idea card's buttons and modal; the card is always on the canvas. */
  function OnIdeaCard(s: Session, p: Plan, e: Event): (r: (Session, Effect))
    ensures Tame(r.1) && r.0.app == s.app
  {
    match e
    case IdeaClick(a, reply) =>
      var o := IdeaCard.Click(s.idea, p, s.app.loading, a, reply);
      (s.(idea := o.card), o.effect)
    case IdeaAccept(choice) =>
      AcceptReviewIsTame(s.idea, p, choice);
      var o := IdeaCard.AcceptReview(s.idea, p, choice);
      (s.(idea := o.card), o.effect)
    case IdeaClose =>
      var o := IdeaCard.CloseModal(s.idea);
      (s.(idea := o.card), o.effect)
    case _ => (s, NoEffect)
  }

  /** The MVP card's controls, live only while the card is on the canvas. */
  function OnMvpCard(s: Session, p: Plan, e: Event): (r: (Session, Effect))
    ensures Tame(r.1) && r.0.app == s.app
  {
    if !Canvas.MvpShown(p) then (s, NoEffect)
    else match e
      case MvpLock => (s.(mvp := MvpPlanCard.ToggleLock(s.mvp)), NoEffect)
      case MvpToggle(id) =>
        var o := MvpPlanCard.ToggleStep(s.mvp, p, id);
        (s.(mvp := o.card), o.effect)
      case MvpPrompt(i, force, reply) =>
        if i < |p.mvpPlan| then
          var o := MvpPlanCard.GeneratePrompt(s.mvp, p, p.mvpPlan[i], force, reply);
          (s.(mvp := o.card), o.effect)
        else (s, NoEffect)
      case _ => (s, NoEffect)
  }

  /**
    The feature card's controls, live only while the card is on the canvas;
    the input, "+" and suggest buttons are disabled while it is locked.
   */
  function OnFeatureCard(s: Session, p: Plan, e: Event, rule: Canvas.FeatureRule): (r: (Session, Effect))
    ensures r.1.phase.None? && r.0.app == s.app
    ensures !Canvas.FeatureCardShown(p, rule) ==> r == (s, NoEffect)
  {
    if !Canvas.FeatureCardShown(p, rule) then (s, NoEffect)
    else match e
      case FeatureLock => (s.(feat := FeatureCard.ToggleLock(s.feat)), NoEffect)
      case FeatureType(text) =>
        if !s.feat.section.locked then (s.(feat := FeatureCard.TypeCustom(s.feat, text)), NoEffect)
        else (s, NoEffect)
      case FeatureAdd(id) =>
        if !s.feat.section.locked then
          var o := FeatureCard.AddCustomFeature(s.feat, p, id);
          (s.(feat := o.card), o.effect)
        else (s, NoEffect)
      case FeatureSuggest(reply, ids) =>
        if FeatureCard.SuggestEnabled(s.feat, s.app.loading) && (reply.Some? ==> |ids| == |reply.value|) then
          var o := FeatureCard.SuggestFeatures(s.feat, p, reply, ids);
          (s.(feat := o.card), o.effect)
        else (s, NoEffect)
      case FeaturePrompt(i, reply) =>
        if i < |p.features| then
          var o := FeatureCard.GeneratePrompt(s.feat, p, p.features[i], reply);
          (s.(feat := o.card), o.effect)
        else (s, NoEffect)
      case _ => (s, NoEffect)
  }

  predicate IsIdeaEvent(e: Event) {
    e.IdeaClick? || e.IdeaAccept? || e.IdeaClose?
  }

  predicate IsMvpEvent(e: Event) {
    e.MvpLock? || e.MvpToggle? || e.MvpPrompt?
  }

  /** What a card event on the canvas does before the controller commits it. */
  function OnCanvas(s: Session, p: Plan, e: Event, rule: Canvas.FeatureRule): (r: (Session, Effect))
    ensures r.1.phase.None? || r.1.phase == Some(Features)
    ensures r.0.app == s.app
    ensures IsIdeaEvent(e) || IsMvpEvent(e) ==> !Mentions(r.1.update, FeaturesField)
    ensures !IsIdeaEvent(e) && !IsMvpEvent(e) && !Canvas.FeatureCardShown(p, rule) ==> r == (s, NoEffect)
  {
    if IsIdeaEvent(e) then OnIdeaCard(s, p, e)
    else if IsMvpEvent(e) then OnMvpCard(s, p, e)
    else OnFeatureCard(s, p, e, rule)
  }

  /** One user event. Controls that are not on screen, or disabled, do nothing. */
  function Step(s: Session, e: Event, rule: Canvas.FeatureRule): Session {
    match s.app.plan
    case None => OnLanding(s, e)
    case Some(p) =>
      if e.NewProject? then s.(app := ResetApp(s.app))
      else
        var o := OnCanvas(s, p, e, rule);
        Commit(o.0, o.1, rule)
  }

  /** A run of events. */
  function Run(s: Session, es: seq<Event>, rule: Canvas.FeatureRule): Session
    decreases |es|
  {
    if |es| == 0 then s else Run(Step(s, es[0], rule), es[1..], rule)
  }

  /** The phase and the plan agree: Setup exactly when there is no plan, and Launch is never reached. */
  predicate Consistent(s: Session) {
    (s.app.plan.None? <==> s.app.phase == Setup) && s.app.phase != Launch
  }

  /** A card event on the canvas leaves a plan in place and the phase short of Launch. */
  lemma CanvasKeepsConsistent(s: Session, p: Plan, e: Event, rule: Canvas.FeatureRule)
    requires Consistent(s) && s.app.plan == Some(p)
    ensures var o := OnCanvas(s, p, e, rule);
            Consistent(Commit(o.0, o.1, rule))
  {
  }

  /** Every event keeps the phase consistent with the plan. */
  lemma StepKeepsConsistent(s: Session, e: Event, rule: Canvas.FeatureRule)
    requires Consistent(s)
    ensures Consistent(Step(s, e, rule))
  {
    if s.app.plan.Some? && !e.NewProject? {
      CanvasKeepsConsistent(s, s.app.plan.value, e, rule);
    }
  }

  /** Starting from the landing screen, every run keeps the phase consistent with the plan. */
  lemma {:induction false} RunKeepsConsistent(s: Session, es: seq<Event>, rule: Canvas.FeatureRule)
    requires Consistent(s)
    ensures Consistent(Run(s, es, rule))
    decreases |es|
  {
    if |es| > 0 {
      StepKeepsConsistent(s, es[0], rule);
      RunKeepsConsistent(Step(s, es[0], rule), es[1..], rule);
    }
  }

  /** A consistent session shows one active phase in the sidebar when there is a plan, and no progress otherwise. */
  lemma SidebarAgreesWithPlan(s: Session, k: nat)
    requires Consistent(s) && k < |Sidebar.Statuses(s.app.plan.Some?, s.app.phase)|
    ensures var st := Sidebar.Statuses(s.app.plan.Some?, s.app.phase);
            (s.app.plan.Some? ==> (st[k] == Sidebar.Active <==> k == PhaseIndex(s.app.phase)))
            && (s.app.plan.None? ==> st[k] == Sidebar.Locked && !Sidebar.ConnectorGreen(s.app.phase, k))
  {
  }

  /** No plan, or a plan without features. */
  predicate NoFeatures(s: Session) {
    s.app.plan.None? || |s.app.plan.value.features| == 0
  }

  /** As written, a card event on a plan without features leaves it without features. */
  lemma CanvasAsWrittenAddsNoFeatures(s: Session, p: Plan, e: Event)
    requires s.app.plan == Some(p) && |p.features| == 0
    ensures var o := OnCanvas(s, p, e, Canvas.AsWritten);
            NoFeatures(Commit(o.0, o.1, Canvas.AsWritten))
  {
  }

  /**
    As written, no event gives a plan its first feature: the feature card,
    the only writer of features, is not on the canvas while there are none.
   */
  lemma StepAsWrittenAddsNoFeatures(s: Session, e: Event)
    requires NoFeatures(s)
    ensures NoFeatures(Step(s, e, Canvas.AsWritten))
  {
    if s.app.plan.Some? && !e.NewProject? {
      CanvasAsWrittenAddsNoFeatures(s, s.app.plan.value, e);
    }
  }

  /** As written, no run of events from the landing screen ever produces a feature. */
  lemma {:induction false} FeaturesNeverAppearAsWritten(s: Session, es: seq<Event>)
    requires NoFeatures(s)
    ensures NoFeatures(Run(s, es, Canvas.AsWritten))
    decreases |es|
  {
    if |es| > 0 {
      StepAsWrittenAddsNoFeatures(s, es[0]);
      FeaturesNeverAppearAsWritten(Step(s, es[0], Canvas.AsWritten), es[1..]);
    }
  }

  /** The four events that should add a custom feature once the tech stack is chosen. */
  function AddFirstFeature(title: string, id: string): seq<Event> {
    [IdeaClick(GenerateMvpPlan, None), FeatureLock, FeatureType(title), FeatureAdd(id)]
  }

  /** A run that starts with `e` continues from the state `e` leads to. */
  lemma RunFirst(s: Session, e: Event, rest: seq<Event>, rule: Canvas.FeatureRule)
    ensures Run(s, [e] + rest, rule) == Run(Step(s, e, rule), rest, rule)
  {
    assert ([e] + rest)[0] == e && ([e] + rest)[1..] == rest;
  }

  /** Generating the MVP plan, with the tech stack chosen, moves to Features and mounts the feature card. */
  lemma GenerateMvpStep(s: Session, rest: seq<Event>) returns (t: Session)
    requires s.app.plan.Some? && !s.app.loading
    requires var p := s.app.plan.value;
             p.techStack.Some? && |p.mvpPlan| == 0 && |p.features| == 0
    ensures Run(s, [IdeaClick(GenerateMvpPlan, None)] + rest, Canvas.Intended) == Run(t, rest, Canvas.Intended)
    ensures t.app.plan.Some? && t.app.plan.value.features == [] && |t.app.plan.value.mvpPlan| > 0
    ensures t.app.phase == Features && t.feat == FeatureCard.Mount(t.app.plan.value)
  {
    RunFirst(s, IdeaClick(GenerateMvpPlan, None), rest, Canvas.Intended);
    t := Step(s, IdeaClick(GenerateMvpPlan, None), Canvas.Intended);
    IdeaCard.MvpPlanFromTemplate();
    assert t.app.plan == Some(Merge(s.app.plan.value, IdeaCard.MvpPlanEffect.update));
  }

  /** A local control of the visible feature card changes only the card. */
  lemma FeatureCardLocalStep(s: Session, e: Event, rest: seq<Event>) returns (t: Session)
    requires s.app.plan.Some? && Canvas.FeatureCardShownIntended(s.app.plan.value)
    requires e == FeatureLock || (e.FeatureType? && !s.feat.section.locked)
    ensures Run(s, [e] + rest, Canvas.Intended) == Run(t, rest, Canvas.Intended)
    ensures t.app == s.app
    ensures e == FeatureLock ==> t.feat == FeatureCard.ToggleLock(s.feat)
    ensures e.FeatureType? ==> t.feat == FeatureCard.TypeCustom(s.feat, e.text)
  {
    RunFirst(s, e, rest, Canvas.Intended);
    t := Step(s, e, Canvas.Intended);
  }

  /** Pressing "+" on the unlocked, visible feature card with a title typed appends the custom feature. */
  lemma AddFeatureStep(s: Session, id: string) returns (t: Session)
    requires s.app.plan.Some? && Canvas.FeatureCardShownIntended(s.app.plan.value)
    requires !s.feat.section.locked && s.feat.custom != ""
    ensures Run(s, [FeatureAdd(id)], Canvas.Intended) == t
    ensures t.app.phase == s.app.phase
    ensures t.app.plan == Some(s.app.plan.value.(features := s.app.plan.value.features + [FeatureCard.CustomFeature(id, s.feat.custom)]))
  {
    RunFirst(s, FeatureAdd(id), [], Canvas.Intended);
    t := Step(s, FeatureAdd(id), Canvas.Intended);
    var p := s.app.plan.value;
    var q := p.(features := p.features + [FeatureCard.CustomFeature(id, s.feat.custom)]);
    assert t.app.plan.value.features == q.features;
    SameFieldsEqual(t.app.plan.value, q);
  }

  /**
    With the corrected rule, generating the MVP plan puts the feature card on
    the canvas, and unlocking it, typing a title and pressing "+" adds the
    feature: the plan's first feature is the custom one.
   */
  lemma FirstFeatureAddedIntended(s: Session, title: string, id: string)
    requires s.app.plan.Some? && !s.app.loading && title != ""
    requires var p := s.app.plan.value;
             p.techStack.Some? && |p.mvpPlan| == 0 && |p.features| == 0
    ensures var r := Run(s, AddFirstFeature(title, id), Canvas.Intended);
            r.app.plan.Some? && r.app.plan.value.features == [FeatureCard.CustomFeature(id, title)]
            && r.app.phase == Features
  {
    var es := AddFirstFeature(title, id);
    assert es == [es[0]] + ([es[1]] + ([es[2]] + [es[3]]));
    var s1 := GenerateMvpStep(s, es[1..]);
    var s2 := FeatureCardLocalStep(s1, FeatureLock, es[2..]);
    var s3 := FeatureCardLocalStep(s2, FeatureType(title), es[3..]);
    var s4 := AddFeatureStep(s3, id);
  }

  /** The same four events as written leave the plan without features. */
  lemma FirstFeatureLostAsWritten(s: Session, title: string, id: string)
    requires s.app.plan.Some? && |s.app.plan.value.features| == 0
    ensures var r := Run(s, AddFirstFeature(title, id), Canvas.AsWritten);
            r.app.plan.None? || |r.app.plan.value.features| == 0
  {
    FeaturesNeverAppearAsWritten(s, AddFirstFeature(title, id));
  }
}
