/**
  The lock/edit protocol every card follows: a lock flag (engaged when the
  card mounts), an edit flag, and a local draft of the card's committed value.
 */
module EditState {

  datatype Section<T> = Section(locked: bool, editing: bool, draft: T)

  /** A freshly mounted card: locked, not editing, draft equal to the committed value. */
  function Mount<T>(committed: T): Section<T> {
    Section(true, false, committed)
  }

  /** The padlock button. */
  function ToggleLock<T>(s: Section<T>): (r: Section<T>)
    ensures r.locked == !s.locked && r.editing == s.editing && r.draft == s.draft
  {
    s.(locked := !s.locked)
  }

  /** The pencil button, disabled while the card is locked. */
  function BeginEdit<T>(s: Section<T>): (r: Section<T>)
    ensures s.locked ==> r == s
    ensures !s.locked ==> r.editing && !r.locked && r.draft == s.draft
  {
    if s.locked then s else s.(editing := true)
  }

  /** A keystroke: only the draft changes. */
  function EditDraft<T>(s: Section<T>, d: T): (r: Section<T>)
    ensures r.draft == d && r.locked == s.locked && r.editing == s.editing
  {
    s.(draft := d)
  }

  /** Cancel: leaves edit mode with the draft reset to the committed value. */
  function Cancel<T>(s: Section<T>, committed: T): (r: Section<T>)
    ensures !r.editing && r.draft == committed && r.locked == s.locked
  {
    s.(editing := false, draft := committed)
  }

  /** Save: leaves edit mode; the card then writes the draft through its callback. */
  function Save<T>(s: Section<T>): (r: Section<T>)
    ensures !r.editing && r.draft == s.draft && r.locked == s.locked
  {
    s.(editing := false)
  }

  /** The card's effect hook: a changed committed value overwrites the draft. */
  function Resync<T(==)>(s: Section<T>, before: T, after: T): (r: Section<T>)
    ensures before == after ==> r == s
    ensures before != after ==> r.draft == after && r.locked == s.locked && r.editing == s.editing
  {
    if before == after then s else s.(draft := after)
  }

  /** Outside edit mode the draft mirrors the committed value. */
  predicate InSync<T(==)>(s: Section<T>, committed: T) {
    !s.editing ==> s.draft == committed
  }

  /** Entering edit mode, changing the draft and cancelling restores the card exactly. */
  lemma EditCancelRoundTrip<T>(s: Section<T>, committed: T, d: T)
    requires !s.editing && s.draft == committed
    ensures Cancel(EditDraft(BeginEdit(s), d), committed) == s
  {
  }
}
