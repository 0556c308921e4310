/**
  The feature card: suggested and custom features appended to the plan, the
  per-feature build prompts with their cache, and title/impact editing under
  the lock/edit protocol.
 */
module FeatureCard {
  import opened Wrappers
  import opened PlanTypes
  import opened PlanStore
  import EditState

  /** A generated suggestion: a feature without its id and prompt. */
  datatype Suggestion = Suggestion(title: string, impact: Impact, category: string)

  datatype FeatureCardState = FeatureCardState(
    section: EditState.Section<seq<Feature>>,
    shown: Option<Prompt>,
    custom: string)

  datatype Outcome = Outcome(card: FeatureCardState, effect: Effect)

  function Mount(p: Plan): FeatureCardState {
    FeatureCardState(EditState.Mount(p.features), None, "")
  }

  /** Ids handed out by the id generator: distinct among themselves and unused by `fs`. */
  predicate FreshFor(ids: seq<string>, fs: seq<Feature>) {
    DistinctIds(ids) && forall k :: 0 <= k < |ids| ==> ids[k] !in FeatureIds(fs)
  }

  /** Turns each suggestion into a feature without a prompt, giving the k-th suggestion the k-th id. */
  function Stamp(sugs: seq<Suggestion>, ids: seq<string>): (r: seq<Feature>)
    requires |ids| == |sugs|
    ensures |r| == |sugs|
    ensures forall k :: 0 <= k < |sugs| ==>
              r[k] == Feature(ids[k], sugs[k].title, sugs[k].impact, sugs[k].category, None)
  {
    seq(|sugs|, k requires 0 <= k < |sugs| =>
      Feature(ids[k], sugs[k].title, sugs[k].impact, sugs[k].category, None))
  }

  /**
    `handleSuggestFeatures`, completed with `reply` from the generator: the
    stamped suggestions go after the existing features; a failure changes nothing.
   */
  function SuggestFeatures(card: FeatureCardState, p: Plan, reply: Option<seq<Suggestion>>, ids: seq<string>): (r: Outcome)
    requires reply.Some? ==> |ids| == |reply.value|
    ensures r.card == card
    ensures reply.None? ==> r.effect == NoEffect
    ensures reply.Some? ==> r.effect.phase.None? && r.effect.update.features.Some?
    ensures reply.Some? ==>
              var fs := r.effect.update.features.value;
              var sugs := reply.value;
              |fs| == |p.features| + |sugs|
              && fs[..|p.features|] == p.features
              && forall k :: 0 <= k < |sugs| ==>
                   var f := fs[|p.features| + k];
                   f.id == ids[k] && f.prompt.None?
                   && f.title == sugs[k].title && f.impact == sugs[k].impact && f.category == sugs[k].category
    ensures forall f :: f != FeaturesField ==> !Mentions(r.effect.update, f)
  {
    match reply
    case None => Outcome(card, NoEffect)
    case Some(sugs) => Outcome(card, Write(NoChange.(features := Some(p.features + Stamp(sugs, ids)))))
  }

  /** The suggest button: disabled while loading or locked. */
  predicate SuggestEnabled(card: FeatureCardState, loading: bool) {
    !(loading || card.section.locked)
  }

  /** Typing in the custom-feature box. */
  function TypeCustom(card: FeatureCardState, text: string): (r: FeatureCardState)
    ensures r.custom == text && r.section == card.section && r.shown == card.shown
  {
    card.(custom := text)
  }

  /** The feature `handleAddCustomFeature` builds from the typed title. */
  function CustomFeature(id: string, title: string): Feature {
    Feature(id, title, Medium, "Custom", None)
  }

  /**
    `handleAddCustomFeature`: an empty box does nothing; otherwise the typed
    title becomes a Medium-impact "Custom" feature at the end and the box clears.
   */
  function AddCustomFeature(card: FeatureCardState, p: Plan, id: string): (r: Outcome)
    ensures card.custom == "" ==> r == Outcome(card, NoEffect)
    ensures card.custom != "" ==>
              r.card == card.(custom := "")
              && r.effect == Write(NoChange.(features := Some(p.features + [Feature(id, card.custom, Medium, "Custom", None)])))
  {
    if card.custom == "" then Outcome(card, NoEffect)
    else Outcome(card.(custom := ""), Write(NoChange.(features := Some(p.features + [CustomFeature(id, card.custom)]))))
  }

  /** Appending features with fresh ids keeps the feature ids distinct. */
  lemma {:induction false} AppendKeepsIdsDistinct(fs: seq<Feature>, added: seq<Feature>)
    requires DistinctIds(FeatureIds(fs))
    requires FreshFor(FeatureIds(added), fs)
    ensures DistinctIds(FeatureIds(fs + added))
  {
    var all := fs + added;
    var ids := FeatureIds(all);
    forall i, j | 0 <= i < j < |ids|
      ensures ids[i] != ids[j]
    {
      if j < |fs| {
        assert ids[i] == FeatureIds(fs)[i] && ids[j] == FeatureIds(fs)[j];
      } else if i < |fs| {
        assert ids[j] == FeatureIds(added)[j - |fs|];
        assert ids[i] == FeatureIds(fs)[i];
      } else {
        assert ids[i] == FeatureIds(added)[i - |fs|] && ids[j] == FeatureIds(added)[j - |fs|];
      }
    }
  }

  /** Suggested and custom features keep the feature ids distinct when the new ids are fresh. */
  lemma AddedFeaturesKeepIdsDistinct(card: FeatureCardState, p: Plan, sugs: seq<Suggestion>, ids: seq<string>, id: string)
    requires DistinctIds(FeatureIds(p.features))
    requires |ids| == |sugs| && FreshFor(ids, p.features)
    requires id !in FeatureIds(p.features)
    ensures DistinctIds(FeatureIds(Merge(p, SuggestFeatures(card, p, Some(sugs), ids).effect.update).features))
    ensures DistinctIds(FeatureIds(Merge(p, AddCustomFeature(card, p, id).effect.update).features))
  {
    var stamped := Stamp(sugs, ids);
    assert FeatureIds(stamped) == ids;
    AppendKeepsIdsDistinct(p.features, stamped);
    if card.custom != "" {
      var one := [CustomFeature(id, card.custom)];
      assert FeatureIds(one) == [id];
      AppendKeepsIdsDistinct(p.features, one);
    }
  }

  /** Stores the prompt on every feature with this id; the other features are kept as they are. */
  function PromptById(fs: seq<Feature>, id: string, prompt: Prompt): (r: seq<Feature>)
    ensures |r| == |fs|
    ensures forall i :: 0 <= i < |fs| && fs[i].id == id ==> r[i] == fs[i].(prompt := Some(prompt))
    ensures forall i :: 0 <= i < |fs| && fs[i].id != id ==> r[i] == fs[i]
    decreases |fs|
  {
    if |fs| == 0 then []
    else
      var f := fs[0];
      [if f.id == id then f.(prompt := Some(prompt)) else f] + PromptById(fs[1..], id, prompt)
  }

  /** Sets title and impact on every feature with this id; the other features are kept as they are. */
  function ChangeById(fs: seq<Feature>, id: string, title: string, impact: Impact): (r: seq<Feature>)
    ensures |r| == |fs|
    ensures forall i :: 0 <= i < |fs| && fs[i].id == id ==> r[i] == fs[i].(title := title, impact := impact)
    ensures forall i :: 0 <= i < |fs| && fs[i].id != id ==> r[i] == fs[i]
    decreases |fs|
  {
    if |fs| == 0 then []
    else
      var f := fs[0];
      [if f.id == id then f.(title := title, impact := impact) else f] + ChangeById(fs[1..], id, title, impact)
  }

  /** Changing a feature and then changing it back to its old title and impact restores the list. */
  lemma {:induction false} ChangeBack(fs: seq<Feature>, i: nat, title: string, impact: Impact)
    requires i < |fs| && DistinctIds(FeatureIds(fs))
    ensures ChangeById(ChangeById(fs, fs[i].id, title, impact), fs[i].id, fs[i].title, fs[i].impact) == fs
  {
    var id := fs[i].id;
    var once := ChangeById(fs, id, title, impact);
    var twice := ChangeById(once, id, fs[i].title, fs[i].impact);
    forall j | 0 <= j < |fs|
      ensures twice[j] == fs[j]
    {
      if j != i {
        assert FeatureIds(fs)[j] != FeatureIds(fs)[i];
      }
    }
  }

  /**
    `handleGeneratePrompt`, completed with `reply`: ignored while
    locked; a feature with a prompt only shows it; a failure changes nothing.
   */
  function GeneratePrompt(card: FeatureCardState, p: Plan, feature: Feature, reply: Option<Prompt>): (r: Outcome)
    ensures card.section.locked ==> r == Outcome(card, NoEffect)
    ensures !card.section.locked && feature.prompt.Some? ==> r == Outcome(card.(shown := feature.prompt), NoEffect)
    ensures !card.section.locked && feature.prompt.None? && reply.None? ==> r == Outcome(card, NoEffect)
    ensures !card.section.locked && feature.prompt.None? && reply.Some? ==>
              r.card == card.(shown := reply)
              && r.effect == Write(NoChange.(features := Some(PromptById(p.features, feature.id, reply.value))))
  {
    if card.section.locked then Outcome(card, NoEffect)
    else if feature.prompt.Some? then Outcome(card.(shown := feature.prompt), NoEffect)
    else match reply
      case None => Outcome(card, NoEffect)
      case Some(pr) => Outcome(card.(shown := reply), Write(NoChange.(features := Some(PromptById(p.features, feature.id, pr)))))
  }

  /**
    A stored prompt lands on the features carrying the feature's id and
    nowhere else; their titles, impacts and categories, and every other field
    of the plan, are unchanged.
   */
  lemma StoredPromptLandsById(card: FeatureCardState, p: Plan, feature: Feature, pr: Prompt)
    requires !card.section.locked && feature.prompt.None?
    ensures var q := Merge(p, GeneratePrompt(card, p, feature, Some(pr)).effect.update);
            |q.features| == |p.features|
            && FeatureIds(q.features) == FeatureIds(p.features)
            && (forall i :: 0 <= i < |p.features| ==>
                  (q.features[i] != p.features[i] ==> p.features[i].id == feature.id)
                  && (p.features[i].id == feature.id ==>
                        q.features[i].prompt == Some(pr) && q.features[i].title == p.features[i].title
                        && q.features[i].impact == p.features[i].impact
                        && q.features[i].category == p.features[i].category))
            && forall f :: f != FeaturesField ==> SameField(q, p, f)
  {
  }

  function ToggleLock(card: FeatureCardState): (r: FeatureCardState)
    ensures r.section == EditState.ToggleLock(card.section) && r.shown == card.shown && r.custom == card.custom
  {
    card.(section := EditState.ToggleLock(card.section))
  }

  function BeginEdit(card: FeatureCardState): (r: FeatureCardState)
    ensures card.section.locked ==> r == card
    ensures !card.section.locked ==>
              r.section.editing && !r.section.locked && r.section.draft == card.section.draft
              && r.shown == card.shown && r.custom == card.custom
  {
    card.(section := EditState.BeginEdit(card.section))
  }

  /** `handleFeatureChange`: only the draft changes, and only at that id. */
  function ChangeFeature(card: FeatureCardState, id: string, title: string, impact: Impact): (r: FeatureCardState)
    ensures r.section.draft == ChangeById(card.section.draft, id, title, impact)
    ensures r.section.locked == card.section.locked && r.section.editing == card.section.editing
    ensures r.shown == card.shown && r.custom == card.custom
  {
    card.(section := EditState.EditDraft(card.section, ChangeById(card.section.draft, id, title, impact)))
  }

  /** `handleSave`: the draft features become the plan's features. */
  function SaveFeatures(card: FeatureCardState): (r: Outcome)
    ensures r.effect == Write(NoChange.(features := Some(card.section.draft)))
    ensures !r.card.section.editing && r.card.section.draft == card.section.draft
    ensures r.card.section.locked == card.section.locked
  {
    Outcome(card.(section := EditState.Save(card.section)), Write(NoChange.(features := Some(card.section.draft))))
  }

  /** `handleCancel`: the draft returns to the plan's features. */
  function CancelFeatures(card: FeatureCardState, p: Plan): (r: FeatureCardState)
    ensures !r.section.editing && r.section.draft == p.features && r.section.locked == card.section.locked
  {
    card.(section := EditState.Cancel(card.section, p.features))
  }

  /** The effect hook on `plan.features`. */
  function ResyncFeatures(card: FeatureCardState, before: Plan, after: Plan): (r: FeatureCardState)
    ensures before.features == after.features ==> r == card
    ensures before.features != after.features ==> r.section.draft == after.features
    ensures r.section.locked == card.section.locked && r.section.editing == card.section.editing
  {
    card.(section := EditState.Resync(card.section, before.features, after.features))
  }

  /**
    Editing one feature and saving writes back the same features, in the same
    order, with only that feature's title and impact changed; cancelling
    instead leaves the card as it was.
   */
  lemma EditFeatureThenSaveOrCancel(card: FeatureCardState, p: Plan, i: nat, title: string, impact: Impact)
    requires !card.section.locked && !card.section.editing && card.section.draft == p.features
    requires i < |p.features| && DistinctIds(FeatureIds(p.features))
    ensures var edited := ChangeFeature(BeginEdit(card), p.features[i].id, title, impact);
            var q := Merge(p, SaveFeatures(edited).effect.update);
            FeatureIds(q.features) == FeatureIds(p.features)
            && q.features[i] == p.features[i].(title := title, impact := impact)
            && (forall j :: 0 <= j < |p.features| && j != i ==> q.features[j] == p.features[j])
            && CancelFeatures(edited, p) == card
  {
    forall j | 0 <= j < |p.features| && j != i
      ensures p.features[j].id != p.features[i].id
    {
      assert FeatureIds(p.features)[j] != FeatureIds(p.features)[i];
    }
  }
}
