/**
  The persona card: a local draft of one persona, edited field by field and
  item by item, written back through an optional callback.
 */
module PersonaCard {
  import opened Wrappers
  import opened PlanTypes
  import EditState
  import Lists

  /** A preview card has no header buttons at all. */
  datatype PersonaCardState = PersonaCardState(section: EditState.Section<Persona>, preview: bool)

  function Mount(persona: Persona, preview: bool): PersonaCardState {
    PersonaCardState(EditState.Mount(persona), preview)
  }

  /**
    The text fields `handleChange` accepts. The edit form only offers name,
    bio and demographics; `Psychographics` is a field the handler can write
    but no input calls it with, so lemmas quantifying over every field cover
    one edit the interface cannot make.
   */
  datatype TextField = Name | Demographics | Psychographics | Bio

  /** The list fields `handleListChange` is called with. */
  datatype ListField = Goals | PainPoints

  function TextOf(p: Persona, f: TextField): string {
    match f
    case Name => p.name
    case Demographics => p.demographics
    case Psychographics => p.psychographics
    case Bio => p.bio
  }

  function ListOf(p: Persona, f: ListField): seq<string> {
    match f
    case Goals => p.goals
    case PainPoints => p.painPoints
  }

  /** The persona with one text field replaced. */
  function WithText(p: Persona, f: TextField, v: string): (r: Persona)
    ensures TextOf(r, f) == v
    ensures forall g :: g != f ==> TextOf(r, g) == TextOf(p, g)
    ensures forall l :: ListOf(r, l) == ListOf(p, l)
  {
    match f
    case Name => p.(name := v)
    case Demographics => p.(demographics := v)
    case Psychographics => p.(psychographics := v)
    case Bio => p.(bio := v)
  }

  /** The persona with one list field replaced. */
  function WithList(p: Persona, f: ListField, xs: seq<string>): (r: Persona)
    ensures ListOf(r, f) == xs
    ensures forall g :: g != f ==> ListOf(r, g) == ListOf(p, g)
    ensures forall t :: TextOf(r, t) == TextOf(p, t)
  {
    match f
    case Goals => p.(goals := xs)
    case PainPoints => p.(painPoints := xs)
  }

  /** A persona is determined by its text and list fields. */
  lemma FieldsDetermine(p: Persona, q: Persona)
    requires forall t :: TextOf(p, t) == TextOf(q, t)
    requires forall l :: ListOf(p, l) == ListOf(q, l)
    ensures p == q
  {
    assert TextOf(p, Name) == TextOf(q, Name) && TextOf(p, Bio) == TextOf(q, Bio);
    assert TextOf(p, Demographics) == TextOf(q, Demographics);
    assert TextOf(p, Psychographics) == TextOf(q, Psychographics);
    assert ListOf(p, Goals) == ListOf(q, Goals) && ListOf(p, PainPoints) == ListOf(q, PainPoints);
  }

  /** Writing a field its current value changes nothing. */
  lemma WithOwnText(p: Persona, f: TextField)
    ensures WithText(p, f, TextOf(p, f)) == p
  {
    FieldsDetermine(WithText(p, f, TextOf(p, f)), p);
  }

  /** The padlock; a preview card has none. */
  function ToggleLock(card: PersonaCardState): (r: PersonaCardState)
    ensures card.preview ==> r == card
    ensures !card.preview ==> r.section == EditState.ToggleLock(card.section) && !r.preview
  {
    if card.preview then card else card.(section := EditState.ToggleLock(card.section))
  }

  /** The pencil: disabled while locked, absent on a preview card. */
  function BeginEdit(card: PersonaCardState): (r: PersonaCardState)
    ensures card.section.locked || card.preview ==> r == card
    ensures !card.section.locked && !card.preview ==>
              r.section.editing && !r.section.locked && r.section.draft == card.section.draft
              && r.preview == card.preview
  {
    if card.preview then card else card.(section := EditState.BeginEdit(card.section))
  }

  /** Typing into one text field of the draft. */
  function ChangeText(card: PersonaCardState, f: TextField, v: string): (r: PersonaCardState)
    ensures TextOf(r.section.draft, f) == v
    ensures forall g :: g != f ==> TextOf(r.section.draft, g) == TextOf(card.section.draft, g)
    ensures forall l :: ListOf(r.section.draft, l) == ListOf(card.section.draft, l)
    ensures r.section.locked == card.section.locked && r.section.editing == card.section.editing
    ensures r.preview == card.preview
  {
    card.(section := EditState.EditDraft(card.section, WithText(card.section.draft, f, v)))
  }

  /** `handleListChange`, for an item the card rendered. */
  function ChangeListItem(card: PersonaCardState, f: ListField, i: nat, v: string): (r: PersonaCardState)
    requires i < |ListOf(card.section.draft, f)|
    ensures var before := ListOf(card.section.draft, f);
            var after := ListOf(r.section.draft, f);
            |after| == |before| && after[i] == v
            && forall j :: 0 <= j < |before| && j != i ==> after[j] == before[j]
    ensures forall g :: g != f ==> ListOf(r.section.draft, g) == ListOf(card.section.draft, g)
    ensures forall t :: TextOf(r.section.draft, t) == TextOf(card.section.draft, t)
    ensures r.section.locked == card.section.locked && r.section.editing == card.section.editing
  {
    var d := card.section.draft;
    card.(section := EditState.EditDraft(card.section, WithList(d, f, Lists.ReplaceAt(ListOf(d, f), i, v))))
  }

  /** Putting an item's old text back undoes the edit. */
  lemma ChangeListItemBack(card: PersonaCardState, f: ListField, i: nat, v: string)
    requires i < |ListOf(card.section.draft, f)|
    ensures var previous := ListOf(card.section.draft, f)[i];
            ChangeListItem(ChangeListItem(card, f, i, v), f, i, previous) == card
  {
    var previous := ListOf(card.section.draft, f)[i];
    var twice := ChangeListItem(ChangeListItem(card, f, i, v), f, i, previous);
    assert ListOf(twice.section.draft, f) == ListOf(card.section.draft, f);
    FieldsDetermine(twice.section.draft, card.section.draft);
  }

  /** What `handleSave` leaves behind: the card and the persona handed to the callback, if any. */
  datatype Saved = Saved(card: PersonaCardState, written: Option<Persona>)

  /** `handleSave`: the draft goes to the callback when there is one; edit mode ends either way. */
  function Save(card: PersonaCardState, hasCallback: bool): (r: Saved)
    ensures r.written.Some? <==> hasCallback
    ensures r.written.Some? ==> r.written.value == card.section.draft
    ensures !r.card.section.editing && r.card.section.draft == card.section.draft
    ensures r.card.section.locked == card.section.locked && r.card.preview == card.preview
  {
    Saved(card.(section := EditState.Save(card.section)), if hasCallback then Some(card.section.draft) else None)
  }

  /** `handleCancel`: the draft returns to the committed persona and edit mode ends. */
  function Cancel(card: PersonaCardState, committed: Persona): (r: PersonaCardState)
    ensures !r.section.editing && r.section.draft == committed
    ensures r.section.locked == card.section.locked && r.preview == card.preview
  {
    card.(section := EditState.Cancel(card.section, committed))
  }

  /** The effect hook on the `persona` prop. */
  function Resync(card: PersonaCardState, before: Persona, after: Persona): (r: PersonaCardState)
    ensures before == after ==> r == card
    ensures before != after ==> r.section.draft == after
    ensures r.section.locked == card.section.locked && r.section.editing == card.section.editing
  {
    card.(section := EditState.Resync(card.section, before, after))
  }

  /** Editing any field and cancelling leaves the card as it was. */
  lemma EditThenCancel(card: PersonaCardState, committed: Persona, f: TextField, v: string)
    requires !card.section.locked && !card.preview
    requires !card.section.editing && card.section.draft == committed
    ensures Cancel(ChangeText(BeginEdit(card), f, v), committed) == card
  {
  }

  /** Editing a field and saving with a callback hands over the committed persona with only that field changed. */
  lemma EditThenSave(card: PersonaCardState, committed: Persona, f: TextField, v: string)
    requires !card.section.locked && !card.preview
    requires !card.section.editing && card.section.draft == committed
    ensures Save(ChangeText(BeginEdit(card), f, v), true).written == Some(WithText(committed, f, v))
  {
    FieldsDetermine(ChangeText(BeginEdit(card), f, v).section.draft, WithText(committed, f, v));
  }
}
