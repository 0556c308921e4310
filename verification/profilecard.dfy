/**
  The user-profile card: the founder's details, edited in place, and the list
  of technology preferences. The profile itself lives in the parent; every
  handler hands the parent a whole new profile.
 */
module ProfileCard {
  import opened PlanTypes
  import Text
  import Lists

  /** The card's own state: the padlock, edit mode and the preference input box. */
  datatype ProfileCardState = ProfileCardState(locked: bool, editing: bool, newTech: string)

  datatype Outcome = Outcome(card: ProfileCardState, profile: UserProfile)

  /** Unlike the plan cards, this card mounts unlocked and already in edit mode. */
  function Mount(): (r: ProfileCardState)
    ensures !r.locked && r.editing && r.newTech == ""
  {
    ProfileCardState(false, true, "")
  }

  /** The text fields `handleChange` is called with. */
  datatype ProfileField = Name | Phone | Address | Bio | Website

  function FieldOf(u: UserProfile, f: ProfileField): string {
    match f
    case Name => u.name
    case Phone => u.phone
    case Address => u.address
    case Bio => u.bio
    case Website => u.website
  }

  /** Typing into one profile field: that field is replaced. */
  function HandleChange(u: UserProfile, f: ProfileField, v: string): (r: UserProfile)
    ensures FieldOf(r, f) == v
    ensures forall g :: g != f ==> FieldOf(r, g) == FieldOf(u, g)
    ensures r.techPreferences == u.techPreferences
  {
    match f
    case Name => u.(name := v)
    case Phone => u.(phone := v)
    case Address => u.(address := v)
    case Bio => u.(bio := v)
    case Website => u.(website := v)
  }

  /** A profile is determined by its text fields and its preferences. */
  lemma FieldsDetermine(u: UserProfile, w: UserProfile)
    requires forall f :: FieldOf(u, f) == FieldOf(w, f)
    requires u.techPreferences == w.techPreferences
    ensures u == w
  {
    assert FieldOf(u, Name) == FieldOf(w, Name) && FieldOf(u, Phone) == FieldOf(w, Phone);
    assert FieldOf(u, Address) == FieldOf(w, Address);
    assert FieldOf(u, Bio) == FieldOf(w, Bio) && FieldOf(u, Website) == FieldOf(w, Website);
  }

  /** Changing a field and then writing its old value back gives the profile back. */
  lemma ChangeBack(u: UserProfile, f: ProfileField, v: string)
    ensures HandleChange(HandleChange(u, f, v), f, FieldOf(u, f)) == u
  {
    FieldsDetermine(HandleChange(HandleChange(u, f, v), f, FieldOf(u, f)), u);
  }

  /** Typing in the preference box. */
  function TypeTech(card: ProfileCardState, text: string): (r: ProfileCardState)
    ensures r.newTech == text && r.locked == card.locked && r.editing == card.editing
  {
    card.(newTech := text)
  }

  /** The profile with `t` added at the end of its preferences and everything else as it was. */
  function AppendTech(u: UserProfile, t: string): (r: UserProfile)
    ensures |r.techPreferences| == |u.techPreferences| + 1
    ensures r.techPreferences[..|u.techPreferences|] == u.techPreferences
    ensures r.techPreferences[|u.techPreferences|] == t
    ensures forall f :: FieldOf(r, f) == FieldOf(u, f)
  {
    u.(techPreferences := u.techPreferences + [t])
  }

  /**
    `addTech`: a box holding only white space changes nothing; otherwise its
    trimmed text goes at the end of the preferences and the box clears.
   */
  function AddTech(card: ProfileCardState, u: UserProfile): (r: Outcome)
    ensures Text.AllSpace(card.newTech) ==> r == Outcome(card, u)
    ensures !Text.AllSpace(card.newTech) ==>
              r == Outcome(card.(newTech := ""), AppendTech(u, Text.Trim(card.newTech)))
  {
    var t := Text.Trim(card.newTech);
    Text.TrimEmptyIff(card.newTech);
    if t != "" then Outcome(card.(newTech := ""), AppendTech(u, t))
    else Outcome(card, u)
  }

  /** An added preference is never empty and never starts or ends with white space. */
  lemma AddedTechIsTrimmed(card: ProfileCardState, u: UserProfile)
    requires !Text.AllSpace(card.newTech)
    ensures var t := AddTech(card, u).profile.techPreferences[|u.techPreferences|];
            t != "" && !Text.IsSpace(t[0]) && !Text.IsSpace(t[|t| - 1])
  {
    Text.TrimEmptyIff(card.newTech);
    Text.TrimEnds(card.newTech);
  }

  /** `removeTech`: splice index `i` out of the preferences. */
  function RemoveTech(u: UserProfile, i: nat): (r: UserProfile)
    ensures i < |u.techPreferences| ==> |r.techPreferences| == |u.techPreferences| - 1
    ensures i < |u.techPreferences| ==>
              r.techPreferences == u.techPreferences[..i] + u.techPreferences[i + 1..]
    ensures i >= |u.techPreferences| ==> r == u
    ensures forall f :: FieldOf(r, f) == FieldOf(u, f)
  {
    u.(techPreferences := Lists.RemoveAt(u.techPreferences, i))
  }

  /** Adding a preference and then removing the last one gives the profile back. */
  lemma AddThenRemoveTech(card: ProfileCardState, u: UserProfile)
    requires !Text.AllSpace(card.newTech)
    ensures RemoveTech(AddTech(card, u).profile, |u.techPreferences|) == u
  {
    var added := AddTech(card, u).profile;
    assert added.techPreferences[..|u.techPreferences|] == u.techPreferences;
    FieldsDetermine(RemoveTech(added, |u.techPreferences|), u);
  }

  /** The padlock; it only governs the pencil. */
  function ToggleLock(card: ProfileCardState): (r: ProfileCardState)
    ensures r.locked == !card.locked && r.editing == card.editing && r.newTech == card.newTech
  {
    card.(locked := !card.locked)
  }

  /** The pencil, disabled while locked. */
  function BeginEdit(card: ProfileCardState): (r: ProfileCardState)
    ensures card.locked ==> r == card
    ensures !card.locked ==> r.editing && !r.locked && r.newTech == card.newTech
  {
    if card.locked then card else card.(editing := true)
  }

  /** The save button only leaves edit mode: every change already went to the parent. */
  function Done(card: ProfileCardState): (r: ProfileCardState)
    ensures !r.editing && r.locked == card.locked && r.newTech == card.newTech
  {
    card.(editing := false)
  }
}
