/**
  The tech-stack card: a local draft of the chosen stack, edited field by
  field and service by service, written back as the plan's `techStack`.
 */
module TechStackCard {
  import opened Wrappers
  import opened PlanTypes
  import opened PlanStore
  import EditState
  import Lists

  datatype TechCardState = TechCardState(section: EditState.Section<TechStack>)

  datatype Outcome = Outcome(card: TechCardState, effect: Effect)

  function Mount(t: TechStack): TechCardState {
    TechCardState(EditState.Mount(t))
  }

  /** The scalar fields `handleChange` is called with. */
  datatype StackField = Category | Backend | Database | Authentication | Payments

  function FieldOf(t: TechStack, f: StackField): string {
    match f
    case Category => t.category
    case Backend => t.backend
    case Database => t.database
    case Authentication => t.authentication
    case Payments => t.payments
  }

  /** The tech stack with one scalar field replaced. */
  function WithField(t: TechStack, f: StackField, v: string): (r: TechStack)
    ensures FieldOf(r, f) == v
    ensures forall g :: g != f ==> FieldOf(r, g) == FieldOf(t, g)
    ensures r.services == t.services
  {
    match f
    case Category => t.(category := v)
    case Backend => t.(backend := v)
    case Database => t.(database := v)
    case Authentication => t.(authentication := v)
    case Payments => t.(payments := v)
  }

  /** A stack is determined by its scalar fields and its services. */
  lemma FieldsDetermine(t: TechStack, u: TechStack)
    requires forall f :: FieldOf(t, f) == FieldOf(u, f)
    requires t.services == u.services
    ensures t == u
  {
    assert FieldOf(t, Category) == FieldOf(u, Category) && FieldOf(t, Backend) == FieldOf(u, Backend);
    assert FieldOf(t, Database) == FieldOf(u, Database);
    assert FieldOf(t, Authentication) == FieldOf(u, Authentication) && FieldOf(t, Payments) == FieldOf(u, Payments);
  }

  function ToggleLock(card: TechCardState): (r: TechCardState)
    ensures r.section == EditState.ToggleLock(card.section)
  {
    card.(section := EditState.ToggleLock(card.section))
  }

  /** The pencil, disabled while locked. */
  function BeginEdit(card: TechCardState): (r: TechCardState)
    ensures card.section.locked ==> r == card
    ensures !card.section.locked ==> r.section.editing && r.section.draft == card.section.draft && !r.section.locked
  {
    card.(section := EditState.BeginEdit(card.section))
  }

  /** `handleChange`: only that field of the draft. */
  function ChangeField(card: TechCardState, f: StackField, v: string): (r: TechCardState)
    ensures FieldOf(r.section.draft, f) == v
    ensures forall g :: g != f ==> FieldOf(r.section.draft, g) == FieldOf(card.section.draft, g)
    ensures r.section.draft.services == card.section.draft.services
    ensures r.section.locked == card.section.locked && r.section.editing == card.section.editing
  {
    card.(section := EditState.EditDraft(card.section, WithField(card.section.draft, f, v)))
  }

  /** `handleServiceChange`, for a service the card rendered. */
  function ChangeService(card: TechCardState, i: nat, v: string): (r: TechCardState)
    requires i < |card.section.draft.services|
    ensures var before := card.section.draft.services;
            var after := r.section.draft.services;
            |after| == |before| && after[i] == v
            && forall j :: 0 <= j < |before| && j != i ==> after[j] == before[j]
    ensures forall f :: FieldOf(r.section.draft, f) == FieldOf(card.section.draft, f)
    ensures r.section.locked == card.section.locked && r.section.editing == card.section.editing
  {
    var d := card.section.draft;
    card.(section := EditState.EditDraft(card.section, d.(services := Lists.ReplaceAt(d.services, i, v))))
  }

  /** `handleSave`: the draft becomes the plan's tech stack when there is a callback; edit mode ends either way. */
  function Save(card: TechCardState, hasCallback: bool): (r: Outcome)
    ensures hasCallback ==> r.effect == Write(NoChange.(techStack := Some(Some(card.section.draft))))
    ensures !hasCallback ==> r.effect == NoEffect
    ensures !r.card.section.editing && r.card.section.draft == card.section.draft
    ensures r.card.section.locked == card.section.locked
  {
    Outcome(card.(section := EditState.Save(card.section)),
            if hasCallback then Write(NoChange.(techStack := Some(Some(card.section.draft)))) else NoEffect)
  }

  /** `handleCancel`: the draft returns to the committed stack. */
  function Cancel(card: TechCardState, committed: TechStack): (r: TechCardState)
    ensures !r.section.editing && r.section.draft == committed && r.section.locked == card.section.locked
  {
    card.(section := EditState.Cancel(card.section, committed))
  }

  /** The effect hook on the `techStack` prop. */
  function Resync(card: TechCardState, before: TechStack, after: TechStack): (r: TechCardState)
    ensures before == after ==> r == card
    ensures before != after ==> r.section.draft == after
    ensures r.section.locked == card.section.locked && r.section.editing == card.section.editing
  {
    card.(section := EditState.Resync(card.section, before, after))
  }

  /**
    Editing one service and saving puts the committed stack with only that
    service replaced into the plan; nothing else in the plan changes.
   */
  lemma EditServiceThenSave(card: TechCardState, p: Plan, i: nat, v: string)
    requires p.techStack.Some? && !card.section.locked
    requires !card.section.editing && card.section.draft == p.techStack.value
    requires i < |p.techStack.value.services|
    ensures var edited := ChangeService(BeginEdit(card), i, v);
            var q := Merge(p, Save(edited, true).effect.update);
            q.techStack == Some(p.techStack.value.(services := p.techStack.value.services[i := v]))
            && forall f :: f != TechStackField ==> SameField(q, p, f)
  {
    var edited := ChangeService(BeginEdit(card), i, v);
    FieldsDetermine(edited.section.draft, p.techStack.value.(services := p.techStack.value.services[i := v]));
  }

  /** Editing a field and cancelling leaves the card as it was. */
  lemma EditThenCancel(card: TechCardState, committed: TechStack, f: StackField, v: string)
    requires !card.section.locked && !card.section.editing && card.section.draft == committed
    ensures Cancel(ChangeField(BeginEdit(card), f, v), committed) == card
  {
  }

  /** Writing a field and then its previous value back restores the draft. */
  lemma ChangeFieldBack(card: TechCardState, f: StackField, v: string)
    ensures ChangeField(ChangeField(card, f, v), f, FieldOf(card.section.draft, f)) == card
  {
    FieldsDetermine(ChangeField(ChangeField(card, f, v), f, FieldOf(card.section.draft, f)).section.draft, card.section.draft);
  }
}
