/**
  The canvas: the page heading, the persona cards with their replace and
  delete callbacks, and which cards are shown for a plan.
 */
module Canvas {
  import opened Wrappers
  import opened PlanTypes
  import opened PlanStore
  import PersonaCard
  import Lists

  /** Ideas longer than this are cut in the heading. */
  const TitleLimit: nat := 50

  /**
    The heading text: the idea itself when it has at most 50 characters,
    otherwise its first 50 characters followed by "...".
   */
  function DisplayTitle(idea: string): (r: string)
    ensures |idea| <= TitleLimit ==> r == idea
    ensures |idea| > TitleLimit ==>
              |r| == TitleLimit + 3 && r[..TitleLimit] == idea[..TitleLimit] && r[TitleLimit..] == "..."
  {
    if |idea| > TitleLimit then idea[..TitleLimit] + "..." else idea
  }

  /**
    Two ideas share a heading exactly when both are short and equal, or both
    are long and agree on their first 50 characters.
   */
  lemma SameTitleIff(a: string, b: string)
    ensures DisplayTitle(a) == DisplayTitle(b) <==>
              (|a| <= TitleLimit && |b| <= TitleLimit && a == b)
              || (|a| > TitleLimit && |b| > TitleLimit && a[..TitleLimit] == b[..TitleLimit])
  {
    var ta, tb := DisplayTitle(a), DisplayTitle(b);
    if ta == tb && |a| > TitleLimit && |b| > TitleLimit {
      assert a[..TitleLimit] == ta[..TitleLimit] == tb[..TitleLimit] == b[..TitleLimit];
    }
  }

  /** The `onUpdate` callback of persona card `i`: that persona is replaced. */
  function ReplacePersona(p: Plan, i: nat, updated: Persona): (e: Effect)
    requires i < |p.personas|
    ensures e.phase.None? && e.update.personas.Some?
    ensures var ps := e.update.personas.value;
            |ps| == |p.personas| && ps[i] == updated
            && forall j :: 0 <= j < |p.personas| && j != i ==> ps[j] == p.personas[j]
    ensures forall f :: f != PersonasField ==> !Mentions(e.update, f)
  {
    Write(NoChange.(personas := Some(Lists.ReplaceAt(p.personas, i, updated))))
  }

  /** The `onDelete` callback of persona card `i`: the list filtered by index. */
  function DeletePersona(p: Plan, i: nat): (e: Effect)
    ensures e.phase.None? && e.update.personas == Some(Lists.WithoutIndex(p.personas, i))
    ensures forall f :: f != PersonasField ==> !Mentions(e.update, f)
  {
    Write(NoChange.(personas := Some(Lists.WithoutIndex(p.personas, i))))
  }

  /**
    Deleting persona `i` removes exactly that persona: one fewer, the ones
    before it in place, the ones after it moved up by one.
   */
  lemma DeletePersonaRemovesOne(p: Plan, i: nat)
    requires i < |p.personas|
    ensures var q := Merge(p, DeletePersona(p, i).update);
            |q.personas| == |p.personas| - 1
            && (forall j :: 0 <= j < i ==> q.personas[j] == p.personas[j])
            && (forall j :: i < j < |p.personas| ==> q.personas[j - 1] == p.personas[j])
            && forall f :: f != PersonasField ==> SameField(q, p, f)
  {
    Lists.WithoutIndexIsRemoveAt(p.personas, i);
  }

  /** Replacing persona `i` with itself changes nothing. */
  lemma ReplaceWithSelf(p: Plan, i: nat)
    requires i < |p.personas|
    ensures Merge(p, ReplacePersona(p, i, p.personas[i]).update) == p
  {
    var q := Merge(p, ReplacePersona(p, i, p.personas[i]).update);
    assert q.personas == p.personas;
    SameFieldsEqual(q, p);
  }

  /**
    Whether the canvas hands a persona card the callback the card reads. The
    canvas passes `onUpdate` and `onDelete`; the card's props name the
    callback `updatePlan`, so the card receives none.
   */
  const PersonaCardGetsCallback: bool := false

  /** Saving persona card `i` as the canvas renders it. */
  function SavePersonaAsWritten(card: PersonaCard.PersonaCardState): (r: PersonaCard.Saved)
    ensures r.written.None?
    ensures !r.card.section.editing && r.card.section.draft == card.section.draft
  {
    PersonaCard.Save(card, PersonaCardGetsCallback)
  }

  /** As rendered, an edit saved on a persona card is handed to nobody, whatever it changed. */
  lemma PersonaEditLostAsWritten(p: Plan, i: nat, f: PersonaCard.TextField, v: string)
    requires i < |p.personas| && PersonaCard.TextOf(p.personas[i], f) != v
    ensures var card := PersonaCard.ToggleLock(PersonaCard.Mount(p.personas[i], false));
            var edited := PersonaCard.ChangeText(PersonaCard.BeginEdit(card), f, v);
            edited.section.draft != p.personas[i] && SavePersonaAsWritten(edited).written.None?
  {
    var card := PersonaCard.ToggleLock(PersonaCard.Mount(p.personas[i], false));
    var edited := PersonaCard.ChangeText(PersonaCard.BeginEdit(card), f, v);
    assert PersonaCard.TextOf(edited.section.draft, f) == v;
  }

  /** Saving persona card `i` with `onUpdate` wired as its callback: the draft replaces persona `i`. */
  function SavePersona(card: PersonaCard.PersonaCardState, p: Plan, i: nat): (r: (PersonaCard.PersonaCardState, Effect))
    requires i < |p.personas|
    ensures r.0 == PersonaCard.Save(card, true).card
    ensures r.1 == ReplacePersona(p, i, card.section.draft)
  {
    var saved := PersonaCard.Save(card, true);
    (saved.card, ReplacePersona(p, i, saved.written.GetOr(card.section.draft)))
  }

  /** With the callback wired, an edited field of persona `i` reaches the plan and nothing else changes. */
  lemma SavedPersonaReplacesIndex(p: Plan, i: nat, f: PersonaCard.TextField, v: string)
    requires i < |p.personas|
    ensures var card := PersonaCard.ToggleLock(PersonaCard.Mount(p.personas[i], false));
            var edited := PersonaCard.ChangeText(PersonaCard.BeginEdit(card), f, v);
            var q := Merge(p, SavePersona(edited, p, i).1.update);
            |q.personas| == |p.personas|
            && q.personas[i] == PersonaCard.WithText(p.personas[i], f, v)
            && (forall j :: 0 <= j < |p.personas| && j != i ==> q.personas[j] == p.personas[j])
            && forall g :: g != PersonasField ==> SameField(q, p, g)
  {
    var card := PersonaCard.ToggleLock(PersonaCard.Mount(p.personas[i], false));
    var edited := PersonaCard.ChangeText(PersonaCard.BeginEdit(card), f, v);
    PersonaCard.FieldsDetermine(edited.section.draft, PersonaCard.WithText(p.personas[i], f, v));
  }

  /** Which rule decides whether the feature card is on the canvas. */
  datatype FeatureRule = AsWritten | Intended

  /** The tech-stack card is shown once a tech stack is chosen. */
  predicate TechStackShown(p: Plan) {
    p.techStack.Some?
  }

  /** The MVP card is shown once the plan has steps. */
  predicate MvpShown(p: Plan) {
    |p.mvpPlan| > 0
  }

  /**
    The feature card as rendered: only while the plan already has features.
    The card is the only place features are created, so it never appears.
   */
  predicate FeatureCardShownAsWritten(p: Plan) {
    |p.features| > 0
  }

  /** The feature card as evidently intended: from the Features phase on, once the MVP plan exists. */
  predicate FeatureCardShownIntended(p: Plan) {
    |p.features| > 0 || |p.mvpPlan| > 0
  }

  predicate FeatureCardShown(p: Plan, rule: FeatureRule) {
    match rule
    case AsWritten => FeatureCardShownAsWritten(p)
    case Intended => FeatureCardShownIntended(p)
  }

  /** The corrected rule shows the card in every case the written one does, and also right after the MVP plan is generated. */
  lemma IntendedRuleExtendsWritten(p: Plan)
    ensures FeatureCardShown(p, AsWritten) ==> FeatureCardShown(p, Intended)
    ensures |p.features| == 0 ==>
              (!FeatureCardShown(p, AsWritten) && (FeatureCardShown(p, Intended) <==> MvpShown(p)))
  {
  }
}
