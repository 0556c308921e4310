# Robo AI planner: the plan document and its UI operations

This project models the part of the "Robo AI - Software Development Planner" that holds real logic: the
app plan record and the pure operations the interface performs on it. The model states properties of
those operations and Dafny proves them.

- **The plan.** The plan record and its phases (`PlanTypes`). The shallow `updatePlan` merge, starting,
  resetting and idea generation, and the export file name (`PlanStore`).
- **Step buttons.** The gate that enables each step button (`Gate`).
- **Cards.** The lock/edit/draft protocol every card follows (`EditState`). Each card's handlers:
  - `IdeaCard`, including its review modals;
  - `MvpPlanCard`, `FeatureCard`, `PersonaCard`, `TechStackCard`, `ProfileCard`.
- **Canvas and sidebar.** The canvas title, persona callbacks and card visibility (`Canvas`). The
  sidebar's phase statuses (`Sidebar`).
- **String builders.** The HTML text export (`TextPlan`) and the prompt context string (`PlanContext`).
- **A session** (`Session`): a sequence of user events applied to the app in turn. The events come
  from the landing screen, the idea card's step buttons and review windows, the MVP-plan card and the
  feature card; the other card events are not part of it (see "Left out"). Over it the model proves
  app-level invariants and the two findings below.

Modelling choices:

- **Persona shape.** Personas are a plural `personas: seq<Persona>`. The step gate and the persona
  review use that shape. Where the source reads a single "persona", the model reads the first one
  (`PlanTypes.LeadPersona`). That covers the text export and the prompt context.
- **Generation calls.** Every call to the generation service is a parameter. `Some(reply)` means the
  call succeeded and `None` means it failed. A click handler together with its reply is one atomic step.
  `loading` is a plain flag.
- **Random ids.** The random ids the source draws are parameters too. Where a property needs
  freshness, the lemma requires the ids to be fresh.
- **Card resync.** Each plan card has a `useEffect` that resets its draft when the committed value changes.
  React compares arrays and objects by reference there; the model compares values (see "Left out").

Two behaviours of the program worth knowing:

- **Save ignores the lock.** Save buttons do not check the lock. The lock disables the edit button.
  On the MVP-plan card it also blocks step toggles and prompt generation. On the feature card it
  blocks prompt generation, the custom input, "+" and suggest. The idea card's step buttons ignore
  it. Save can therefore still write after the lock is re-engaged during an edit.
- **Persona field name.** `types.ts` and `App.tsx` name the persona field `persona` (singular). The
  step gate, the persona review and the canvas use `personas`. `PersonaCard.tsx` writes `persona`
  through a callback the canvas never passes (finding 2). As written, the first render of the canvas
  throws (see "Left out"); the model uses the plural `personas` schema with a profile present.

## Model

| member | source | states |
|---|---|---|
| PlanTypes.PhasesTotallyOrdered | types.ts:2-7 | The four phases are strictly and totally ordered Setup < Foundations < Features < Launch, and each sits at its own index of the phase list |
| PlanTypes.LeadPersona | App.tsx:140-147 | The plan's "persona" is present exactly when the persona list is non-empty, and it is the first one |
| PlanTypes.TemplateShape | types.ts:76-83 | The MVP template has exactly six steps with ids 1 to 6, strictly ascending, none completed |
| PlanTypes.FreshMvpPlan | components/cards/IdeaCard.tsx:46 | The generated MVP plan copies the template's ids and titles step by step, with every step pending and without a prompt |
| PlanStore.SameFieldsEqual | types.ts:9-18 | Two plans that agree on every one of the eight fields are equal |
| PlanStore.Merge | App.tsx:25-27 | Merging an update sets exactly the fields the update mentions to the given values and leaves every other field as it was |
| PlanStore.UpdatePlan | App.tsx:26 | Updating while there is no plan leaves no plan; with a plan the result is the merge |
| PlanStore.MergeNoChange | App.tsx:25-27 | An empty update changes nothing |
| PlanStore.MergeIdempotent | App.tsx:25-27 | Applying the same update twice is the same as applying it once |
| PlanStore.Then | App.tsx:25-27 | The combined update mentions a field exactly when one of its two parts does |
| PlanStore.MergeThen | App.tsx:25-27 | Two successive merges equal one merge of the combined update |
| PlanStore.MergeCommutes | App.tsx:25-27 | Updates that mention disjoint fields can be applied in either order |
| PlanStore.StartNewApp | App.tsx:36-50 | A new plan holds the idea with every list empty and every optional record absent. The phase is Foundations, and the generated ideas and category are cleared |
| PlanStore.EnterIdea | App.tsx:231 | Enter with empty text does nothing; with text it starts a new plan from that text |
| PlanStore.ChooseIdea | App.tsx:262-264 | Choosing generated idea i starts a plan from exactly that idea in the Foundations phase |
| PlanStore.ResetApp | App.tsx:75-80 | Reset leaves no plan, the Setup phase, no generated ideas and an empty category |
| PlanStore.SetCategory | App.tsx:244-245 | Typing a category changes only the category |
| PlanStore.GenerateIdeas | App.tsx:52-68 | An empty category sets the category error and leaves loading false. Otherwise a reply replaces the ideas and clears the error, a failure sets the failure error, and loading ends false. A click while loading does nothing |
| PlanStore.Apply | App.tsx:25-27 | Applying a card's effect merges its update into the plan and moves the phase only when the effect names one |
| PlanStore.ExportFileName | App.tsx:112 | The file name ends with the extension. Its base has no spaces: it is the idea with every space turned into "_" character for character, or "app_plan" when there is no plan or the idea is empty |
| PlanStore.ExportNameRecoversIdea | App.tsx:185 | For an idea without underscores, turning "_" back into spaces in the base name gives the idea back |
| EditState.ToggleLock | components/cards/MvpPlanCard.tsx:74 | The lock flips; edit mode and the draft stay |
| EditState.BeginEdit | components/cards/MvpPlanCard.tsx:78 | Edit mode cannot be entered while locked; otherwise it is entered with the draft unchanged |
| EditState.EditDraft | components/cards/MvpPlanCard.tsx:35-40 | Editing replaces the draft only |
| EditState.Cancel | components/cards/MvpPlanCard.tsx:30-33 | Cancel leaves edit mode with the draft back at the committed value |
| EditState.Save | components/cards/MvpPlanCard.tsx:25-28 | Save leaves edit mode and keeps the draft it wrote |
| EditState.Resync | components/cards/MvpPlanCard.tsx:21-23 | The card is untouched unless the committed value changed, in which case the draft follows it |
| EditState.EditCancelRoundTrip | components/cards/MvpPlanCard.tsx:30-33 | Begin, edit, cancel returns a card in sync to exactly where it started |
| Gate.GateTable | components/cards/IdeaCard.tsx:78-148 | While loading every step button is disabled. Otherwise each button is enabled exactly under its own condition on the populated plan fields |
| Gate.GateReadsOnlyGatedFields | components/cards/IdeaCard.tsx:133-148 | The gate does not depend on the idea or the features |
| Gate.FreshPlanGate | App.tsx:36-46 | A fresh plan has all prerequisites, and only "Improve Idea" is enabled on it |
| Gate.MarketValidationStaysEnabled | components/cards/IdeaCard.tsx:136 | "Market Validation" stays enabled until the improvements or the validation are written, and writing a validation disables it |
| IdeaCard.HandleAction | components/cards/IdeaCard.tsx:31-43 | A reply of the action's kind opens the matching review; a failure leaves the card (and so the modal) unchanged |
| IdeaCard.Click | components/cards/IdeaCard.tsx:31-78 | A disabled button does nothing. "MVP Plan" writes the template plan and moves to Features. The other buttons write nothing: they open a review on a reply and leave the card as it was on a failure |
| IdeaCard.MvpPlanFromTemplate | components/cards/IdeaCard.tsx:45-48 | The MVP effect writes only the MVP plan: six pending steps with ids 1 to 6 and no prompts. It moves the phase to Features |
| IdeaCard.CloseModal | components/cards/IdeaCard.tsx:152 | Closing a review drops it without writing anything |
| IdeaCard.ApplyImprovements | components/cards/IdeaCard.tsx:165-170 | Applying the improvements review writes exactly those improvements and closes it; without that review nothing happens |
| IdeaCard.ViewValidation | components/cards/IdeaCard.tsx:138-139 | The edit button opens the stored validation for review, not in edit mode; without a validation nothing happens |
| IdeaCard.SetValidationText | components/cards/IdeaCard.tsx:176-178 | Changing one text field of a validation sets that field only |
| IdeaCard.SetValidationList | components/cards/IdeaCard.tsx:192 | A list field edited as text becomes the text split at line breaks; every other field is kept |
| IdeaCard.ListTextareaRoundTrip | components/cards/IdeaCard.tsx:192 | Writing back a list's own textarea text leaves the validation unchanged exactly when the list is non-empty and no item holds a line break |
| IdeaCard.ToggleValidationEditing | components/cards/IdeaCard.tsx:205 | The validation review flips between viewing and editing, keeping its draft |
| IdeaCard.EditValidationText | components/cards/IdeaCard.tsx:194 | While editing, a text field of the validation draft changes; otherwise nothing does |
| IdeaCard.EditValidationList | components/cards/IdeaCard.tsx:192 | While editing, a list field of the validation draft is replaced by the split text; otherwise nothing changes |
| IdeaCard.SaveValidation | components/cards/IdeaCard.tsx:180-184 | Save writes the validation draft, and nothing else, and closes the review |
| IdeaCard.ApplyPersona | components/cards/IdeaCard.tsx:221-226 | Applying the persona review writes the persona list with the reviewed persona appended and closes the review |
| IdeaCard.ApplyPersonaAppends | components/cards/IdeaCard.tsx:223 | After applying, the persona list is one longer, starts with the old list and ends with the new persona, and no other field changes |
| IdeaCard.WithTierName | components/cards/IdeaCard.tsx:254-258 | Renaming tier i changes that tier's name only |
| IdeaCard.WithTierPrice | components/cards/IdeaCard.tsx:259-263 | Repricing tier i changes that tier's price only |
| IdeaCard.WithTierFeature | components/cards/IdeaCard.tsx:231-235 | Editing feature j of tier i changes that one entry only |
| IdeaCard.WithAddedFeature | components/cards/IdeaCard.tsx:237-241 | Adding a feature appends "New Feature" to tier i only |
| IdeaCard.WithoutFeature | components/cards/IdeaCard.tsx:243-247 | Removing feature j deletes that entry of tier i only |
| IdeaCard.AddThenRemoveFeature | components/cards/IdeaCard.tsx:237-247 | Removing the feature just added restores the tiers |
| IdeaCard.ApplyPricingEdit | components/cards/IdeaCard.tsx:231-263 | Any pricing edit keeps the number of tiers and touches only the tier it names |
| IdeaCard.EditPricing | components/cards/IdeaCard.tsx:229-263 | In the pricing review a valid edit updates the reviewed tiers; otherwise nothing changes |
| IdeaCard.ConfirmPricing | components/cards/IdeaCard.tsx:280 | Confirm writes exactly the reviewed tiers and closes the review |
| IdeaCard.SelectTechStack | components/cards/IdeaCard.tsx:285-300 | Choosing option i writes exactly that option as the tech stack and closes the review; an index out of range does nothing |
| IdeaCard.GatedActionKeepsPrerequisites | components/cards/IdeaCard.tsx:133-300 | Clicking any enabled step button and accepting its review keeps every later step's prerequisites in place |
| IdeaCard.ToggleLock | components/cards/IdeaCard.tsx:89 | The lock flips and nothing else changes |
| IdeaCard.BeginEdit | components/cards/IdeaCard.tsx:93 | Editing the idea cannot start while locked; otherwise edit mode starts with the lock open, the draft unchanged and the open review kept |
| IdeaCard.EditIdea | components/cards/IdeaCard.tsx:111 | Typing the idea changes only the idea draft |
| IdeaCard.EditImprovement | components/cards/IdeaCard.tsx:69-73 | Changing improvement i changes only that entry, keeps the length and leaves the idea draft alone |
| IdeaCard.SaveIdea | components/cards/IdeaCard.tsx:64-67 | Save writes the idea and the improvements from the draft and leaves edit mode |
| IdeaCard.CancelIdea | components/cards/IdeaCard.tsx:99 | Cancel restores the committed idea and improvements and leaves edit mode |
| IdeaCard.ResyncIdea | components/cards/IdeaCard.tsx:26-29 | The draft follows the plan's idea and improvements when those change, and is left alone otherwise |
| IdeaCard.Type | components/cards/IdeaCard.tsx:69-73 | Any typing keeps the number of improvements, the lock and edit mode |
| IdeaCard.TypeThenCancel | components/cards/IdeaCard.tsx:64-99 | Begin, type anything, cancel returns the card to exactly where it started |
| IdeaCard.TypeThenSave | components/cards/IdeaCard.tsx:64-73 | Saving after any typing keeps the number of improvements and touches no field but the idea and the improvements |
| MvpPlanCard.ToggleById | components/cards/MvpPlanCard.tsx:44-47 | Toggling flips completion on exactly the steps with that id and keeps length, order and every other step |
| MvpPlanCard.ToggleTwice | components/cards/MvpPlanCard.tsx:44-47 | Toggling the same id twice restores the steps |
| MvpPlanCard.PromptById | components/cards/MvpPlanCard.tsx:59-62 | Storing a prompt sets the prompt on exactly the steps with that id |
| MvpPlanCard.RetitleById | components/cards/MvpPlanCard.tsx:35-40 | A title change retitles exactly the steps with that id and keeps the list of step ids |
| MvpPlanCard.ByIdKeepsIds | components/cards/MvpPlanCard.tsx:35-62 | None of the id-keyed edits changes the list of step ids |
| MvpPlanCard.ToggleChangesOneStep | components/cards/MvpPlanCard.tsx:44-47 | With distinct ids, a toggle leaves the steps unchanged exactly when no step has that id |
| MvpPlanCard.ToggleStep | components/cards/MvpPlanCard.tsx:42-48 | While locked a toggle writes nothing; otherwise it writes the plan with that step toggled |
| MvpPlanCard.DoubleToggleRestoresPlan | components/cards/MvpPlanCard.tsx:42-48 | Toggling a step twice through the card returns the plan to where it was |
| MvpPlanCard.GeneratePrompt | components/cards/MvpPlanCard.tsx:50-70 | While locked nothing happens. An existing prompt is only shown unless regeneration is forced. A failure changes nothing, and a reply is shown and stored on the step with that id |
| MvpPlanCard.StoredPromptLandsById | components/cards/MvpPlanCard.tsx:59-62 | After storing, only steps with the id differ, and on them only the prompt; no other plan field changes |
| MvpPlanCard.ClosePrompt | components/cards/MvpPlanCard.tsx:144 | Closing the prompt view hides it and keeps the section |
| MvpPlanCard.ToggleLock | components/cards/MvpPlanCard.tsx:74 | The lock flips and the shown prompt stays |
| MvpPlanCard.BeginEdit | components/cards/MvpPlanCard.tsx:78 | Editing cannot start while locked; otherwise edit mode starts with the lock open, the draft unchanged and the shown prompt kept |
| MvpPlanCard.ChangeTitle | components/cards/MvpPlanCard.tsx:35-40 | A title edit changes the draft only, by id |
| MvpPlanCard.SaveSteps | components/cards/MvpPlanCard.tsx:25-28 | Save writes the draft steps as the MVP plan and leaves edit mode |
| MvpPlanCard.CancelSteps | components/cards/MvpPlanCard.tsx:30-33 | Cancel restores the committed MVP plan and leaves edit mode |
| MvpPlanCard.ResyncSteps | components/cards/MvpPlanCard.tsx:21-23 | The draft follows the MVP plan when it changes |
| MvpPlanCard.Retitle | components/cards/MvpPlanCard.tsx:35-40 | Any series of title edits keeps the step ids |
| MvpPlanCard.RetitleThenCancelOrSave | components/cards/MvpPlanCard.tsx:25-40 | After any title edits, Cancel returns the card to where it started, and Save keeps the plan's step ids |
| MvpPlanCard.ToggleWhileEditingDropsDraft | components/cards/MvpPlanCard.tsx:21-48 | A toggle during an edit replaces the draft with the toggled plan, so pending title edits are dropped |
| MvpPlanCard.CopyTextShape | components/cards/MvpPlanCard.tsx:155-161 | When the negative prompt holds a non-space, the copied text is the labelled fields followed by that prompt with trailing space trimmed; when it is white space only (truthy, so not replaced by "None"), the trim removes it and the space after the label, so the text ends in "Negative Prompt:" |
| MvpPlanCard.CopyTextNoneWhenAbsent | components/cards/MvpPlanCard.tsx:155-161 | With no (or an empty) negative prompt, the copied text ends in "Negative Prompt: None" |
| FeatureCard.Stamp | components/cards/FeatureCard.tsx:46-51 | Each suggestion becomes a feature with its own title, impact and category, the given id and no prompt |
| FeatureCard.SuggestFeatures | components/cards/FeatureCard.tsx:42-58 | Appending N suggestions to M features gives M+N. The first M are unchanged, and each new one has its given id and no prompt. Only the features field is written, and a failure writes nothing |
| FeatureCard.TypeCustom | components/cards/FeatureCard.tsx:160 | Typing sets the custom input only |
| FeatureCard.AddCustomFeature | components/cards/FeatureCard.tsx:60-71 | Empty input does nothing. Otherwise one feature is appended with impact Medium, category "Custom" and no prompt, and the input is cleared |
| FeatureCard.AppendKeepsIdsDistinct | components/cards/FeatureCard.tsx:46-51 | Appending features with fresh, distinct ids keeps all ids distinct |
| FeatureCard.AddedFeaturesKeepIdsDistinct | components/cards/FeatureCard.tsx:46-71 | Both ways of adding features keep feature ids distinct when the new ids are fresh |
| FeatureCard.PromptById | components/cards/FeatureCard.tsx:82-85 | Storing a prompt sets it on exactly the features with that id |
| FeatureCard.ChangeById | components/cards/FeatureCard.tsx:36-40 | A change sets title and impact on exactly the features with that id |
| FeatureCard.ChangeBack | components/cards/FeatureCard.tsx:36-40 | With distinct ids, changing a feature and then changing it back restores the list |
| FeatureCard.GeneratePrompt | components/cards/FeatureCard.tsx:73-93 | While locked nothing happens. An existing prompt is only shown. A failure changes nothing, and a reply is shown and stored on the feature with that id |
| FeatureCard.StoredPromptLandsById | components/cards/FeatureCard.tsx:82-85 | After storing, ids are unchanged, only the matching feature differs and only in its prompt, and no other plan field changes |
| FeatureCard.ToggleLock | components/cards/FeatureCard.tsx:103 | The lock flips; shown prompt and custom input stay |
| FeatureCard.BeginEdit | components/cards/FeatureCard.tsx:107 | Editing cannot start while locked; otherwise edit mode starts with the lock open, the draft unchanged, and the shown prompt and custom input kept |
| FeatureCard.ChangeFeature | components/cards/FeatureCard.tsx:36-40 | A change edits the draft only, by id |
| FeatureCard.SaveFeatures | components/cards/FeatureCard.tsx:26-29 | Save writes the draft as the features and leaves edit mode |
| FeatureCard.CancelFeatures | components/cards/FeatureCard.tsx:31-34 | Cancel restores the committed features and leaves edit mode |
| FeatureCard.ResyncFeatures | components/cards/FeatureCard.tsx:22-24 | The draft follows the features when they change |
| FeatureCard.EditFeatureThenSaveOrCancel | components/cards/FeatureCard.tsx:26-40 | Editing feature i and saving changes only its title and impact, keeping the ids; cancelling instead returns the card to where it started |
| PersonaCard.WithText | components/cards/PersonaCard.tsx:40-42 | Changing one text field of a persona changes that field only |
| PersonaCard.WithList | components/cards/PersonaCard.tsx:44-48 | Replacing one list of a persona changes that list only |
| PersonaCard.FieldsDetermine | types.ts:29-36 | Two personas that agree on every field are equal |
| PersonaCard.WithOwnText | components/cards/PersonaCard.tsx:40-42 | Writing a field's own value back changes nothing |
| PersonaCard.ToggleLock | components/cards/PersonaCard.tsx:52 | The lock flips, except on a preview card, which has no controls |
| PersonaCard.BeginEdit | components/cards/PersonaCard.tsx:56 | Editing cannot start while locked or on a preview; otherwise edit mode starts with the lock open and the draft unchanged |
| PersonaCard.ChangeText | components/cards/PersonaCard.tsx:40-42 | A text edit changes only that field of the draft |
| PersonaCard.ChangeListItem | components/cards/PersonaCard.tsx:44-48 | A list edit replaces entry i of goals or pain points only, keeping the length |
| PersonaCard.ChangeListItemBack | components/cards/PersonaCard.tsx:44-48 | Writing the previous entry back restores the card |
| PersonaCard.Save | components/cards/PersonaCard.tsx:28-33 | Save hands the draft on exactly when there is a callback, and always leaves edit mode |
| PersonaCard.Cancel | components/cards/PersonaCard.tsx:35-38 | Cancel restores the committed persona and leaves edit mode |
| PersonaCard.Resync | components/cards/PersonaCard.tsx:24-26 | The draft follows the persona when it changes |
| PersonaCard.EditThenCancel | components/cards/PersonaCard.tsx:35-42 | Begin, edit, cancel returns the card to where it started |
| PersonaCard.EditThenSave | components/cards/PersonaCard.tsx:28-42 | With a callback, saving after one edit hands on the committed persona with just that field changed |
| TechStackCard.WithField | components/cards/TechStackCard.tsx:35-37 | Changing one field of a tech stack changes that field only |
| TechStackCard.FieldsDetermine | types.ts:44-51 | Two tech stacks that agree on every field are equal |
| TechStackCard.ToggleLock | components/cards/TechStackCard.tsx:47 | The lock flips |
| TechStackCard.BeginEdit | components/cards/TechStackCard.tsx:51 | Editing cannot start while locked; otherwise edit mode starts with the lock open and the draft unchanged |
| TechStackCard.ChangeField | components/cards/TechStackCard.tsx:35-37 | A field edit changes only that field of the draft |
| TechStackCard.ChangeService | components/cards/TechStackCard.tsx:39-43 | A service edit replaces entry i only and keeps the length |
| TechStackCard.Save | components/cards/TechStackCard.tsx:23-28 | Save writes the draft as the tech stack exactly when there is a callback, and leaves edit mode |
| TechStackCard.Cancel | components/cards/TechStackCard.tsx:30-33 | Cancel restores the committed tech stack and leaves edit mode |
| TechStackCard.Resync | components/cards/TechStackCard.tsx:19-21 | The draft follows the tech stack when it changes |
| TechStackCard.EditServiceThenSave | components/cards/TechStackCard.tsx:23-43 | Editing service i and saving writes the stack with that one service replaced, touching no other plan field |
| TechStackCard.EditThenCancel | components/cards/TechStackCard.tsx:30-37 | Begin, edit, cancel returns the card to where it started |
| TechStackCard.ChangeFieldBack | components/cards/TechStackCard.tsx:35-37 | Writing the previous value back restores the card |
| ProfileCard.Mount | components/cards/UserProfileCard.tsx:12-14 | The card starts unlocked, in edit mode, with an empty input |
| ProfileCard.HandleChange | components/cards/UserProfileCard.tsx:16-18 | A change sets that profile field only |
| ProfileCard.FieldsDetermine | components/cards/UserProfileCard.tsx:16-18 | Two profiles that agree on every field are equal |
| ProfileCard.ChangeBack | components/cards/UserProfileCard.tsx:16-18 | Writing the previous value back restores the profile |
| ProfileCard.TypeTech | components/cards/UserProfileCard.tsx:107-112 | Typing sets the input only |
| ProfileCard.AppendTech | components/cards/UserProfileCard.tsx:24 | One preference is appended at the end; everything else is kept |
| ProfileCard.AddTech | components/cards/UserProfileCard.tsx:20-28 | Whitespace-only input changes nothing. Otherwise the trimmed input is appended and the input is cleared |
| ProfileCard.AddedTechIsTrimmed | components/cards/UserProfileCard.tsx:20-28 | The added preference is non-empty and starts and ends with a non-space |
| ProfileCard.RemoveTech | components/cards/UserProfileCard.tsx:30-34 | Removing i deletes exactly element i and keeps the order of the rest; an index out of range changes nothing |
| ProfileCard.AddThenRemoveTech | components/cards/UserProfileCard.tsx:20-34 | Removing the preference just added restores the profile |
| ProfileCard.ToggleLock | components/cards/UserProfileCard.tsx:38 | The lock flips |
| ProfileCard.BeginEdit | components/cards/UserProfileCard.tsx:42 | Editing cannot start while locked; otherwise edit mode starts with the lock open and the tech input kept |
| ProfileCard.Done | components/cards/UserProfileCard.tsx:46 | Done leaves edit mode |
| Canvas.DisplayTitle | components/Canvas.tsx:25 | The title is the idea when at most 50 characters, otherwise its first 50 characters followed by "..." |
| Canvas.SameTitleIff | components/Canvas.tsx:25 | Two ideas share a title exactly when both are short and equal or both are long and share their first 50 characters |
| Canvas.ReplacePersona | components/Canvas.tsx:38-42 | Replacing persona i changes that entry only, keeps the length and writes no other field |
| Canvas.DeletePersona | components/Canvas.tsx:43-46 | Deleting writes the persona list filtered by index and nothing else |
| Canvas.DeletePersonaRemovesOne | components/Canvas.tsx:43-46 | Deleting persona i removes exactly that entry, keeping the others in order, and changes no other field |
| Canvas.ReplaceWithSelf | components/Canvas.tsx:38-42 | Replacing a persona with itself leaves the plan unchanged |
| Canvas.SavePersonaAsWritten | components/Canvas.tsx:33-47 | As rendered, saving a persona card hands nothing on |
| Canvas.PersonaEditLostAsWritten | components/cards/PersonaCard.tsx:5-33 | As rendered, an edit that changes a persona is saved to nobody |
| Canvas.SavePersona | components/Canvas.tsx:38-42 | With the replace callback wired, saving card i replaces persona i with the draft |
| Canvas.SavedPersonaReplacesIndex | components/Canvas.tsx:38-42 | With the callback wired, an edited field of persona i reaches the plan, and nothing else changes |
| Canvas.IntendedRuleExtendsWritten | components/Canvas.tsx:53-59 | The corrected feature-card rule shows the card whenever the written one does, and without features exactly when the MVP plan exists |
| Sidebar.PhaseStatus | components/Sidebar.tsx:13-18 | Without a plan a phase is locked. With one it is completed exactly when before the current phase and active exactly at it |
| Sidebar.Statuses | components/Sidebar.tsx:45-46 | One status per phase, in order |
| Sidebar.NoPlanAllLocked | components/Sidebar.tsx:14 | With no plan every phase is locked |
| Sidebar.ExactlyOneActive | components/Sidebar.tsx:10-17 | With a plan exactly one phase is active, the current one; earlier ones are completed and later ones locked |
| Sidebar.ConnectorMatchesStatus | components/Sidebar.tsx:62-65 | A connector is green exactly when the phase above it is completed |
| Sidebar.SetupShowsNoProgress | components/Sidebar.tsx:62-65 | In Setup no connector is green and without a plan every phase is locked |
| TextPlan.AddAllRendersPresent | App.tsx:123-166 | Adding sections in turn to some text appends the rendering of exactly the present ones |
| TextPlan.ExportAddsAllKinds | App.tsx:117-169 | The export is the header followed by each of the six sections tried in order |
| TextPlan.TextPlanIsPresentSections | App.tsx:117-169 | The export is the header followed by the present sections, rendered in order |
| TextPlan.TextPlanOpening | App.tsx:118-123 | No plan gives "<h1>No plan available</h1>"; a plan's export begins with "<h1>App Plan: " + idea + "</h1>" |
| TextPlan.PresentAmongMembers | App.tsx:125-166 | A kind is kept exactly when it is among those tried and present |
| TextPlan.SectionShownIff | App.tsx:125-166 | A section appears exactly when its field is non-empty or set |
| TextPlan.PresentAmongOrdered | App.tsx:125-166 | Omitting sections keeps the rest in order |
| TextPlan.SectionsInOrder | App.tsx:125-166 | The sections that appear do so in that fixed order |
| TextPlan.StepItemDecodes | App.tsx:161 | An MVP item says "(Completed)" exactly when the step is completed |
| TextPlan.FeatureItemDecodes | App.tsx:165 | A feature item's "(Impact: X)" suffix reads back as the feature's impact |
| PlanContext.IdeaAlwaysPresent | services/geminiService.ts:31-35 | The context always carries the idea right after the fixed label |
| PlanContext.ImprovementsNoneIff | services/geminiService.ts:34 | "None" stands in exactly when the joined improvements are empty, that is no improvements or a single empty one; otherwise the join appears |
| PlanContext.PersonaLineIff | services/geminiService.ts:36-38 | After the opening block a line starting "- Persona: " follows exactly when there is a persona, and it carries that persona's name, then ", ", then its bio |
| PlanContext.TechLineIff | services/geminiService.ts:39-41 | The tech line is present exactly when a tech stack is set, and it is last, after any persona line |
| Session.Commit | App.tsx:25-27 | An event with no effect leaves the session alone; otherwise the effect is applied to the app |
| Session.AcceptReviewIsTame | components/cards/IdeaCard.tsx:165-300 | Accepting a review never moves the phase except to Features, and never writes the features |
| Session.OnLanding | App.tsx:215-264 | Events on the landing screen keep the session consistent and only create plans without features |
| Session.OnIdeaCard | components/cards/IdeaCard.tsx:31-300 | Idea-card events leave the app alone and produce only tame effects |
| Session.OnMvpCard | components/cards/MvpPlanCard.tsx:25-70 | MVP-card events leave the app alone and produce only tame effects |
| Session.OnFeatureCard | components/cards/FeatureCard.tsx:26-93 | Feature-card events never move the phase, and do nothing while the card is not on the canvas |
| Session.OnCanvas | components/Canvas.tsx:53-59 | Canvas events move the phase at most to Features; only the feature card writes features, and it does nothing while it is hidden |
| Session.CanvasKeepsConsistent | components/Canvas.tsx:11-19 | A canvas event keeps "no plan exactly in Setup, never Launch" |
| Session.StepKeepsConsistent | App.tsx:36-80 | Any one event keeps the session consistent |
| Session.RunKeepsConsistent | App.tsx:36-80 | Any sequence of events keeps the session consistent |
| Session.SidebarAgreesWithPlan | components/Sidebar.tsx:13-65 | In a consistent session the sidebar's single active phase is the current one, and without a plan everything is locked with no green connector |
| Session.CanvasAsWrittenAddsNoFeatures | components/Canvas.tsx:54 | As rendered, a canvas event on a plan without features adds none |
| Session.StepAsWrittenAddsNoFeatures | components/Canvas.tsx:54 | As rendered, no event adds the first feature |
| Session.FeaturesNeverAppearAsWritten | components/Canvas.tsx:54 | As rendered, no sequence of events from a state without features ever produces one |
| Session.GenerateMvpStep | components/cards/IdeaCard.tsx:45-48 | Generating the MVP plan gives a plan with steps, no features, the Features phase and a freshly mounted feature card |
| Session.FeatureCardLocalStep | components/cards/FeatureCard.tsx:103-160 | On a shown feature card, locking and typing change only the card |
| Session.AddFeatureStep | components/cards/FeatureCard.tsx:60-71 | On a shown, unlocked feature card with input, "+" appends the custom feature to the plan |
| Session.FirstFeatureAddedIntended | components/Canvas.tsx:54 | With the corrected rule, generating the MVP plan and adding a custom feature leaves exactly that feature, in Features |
| Session.FirstFeatureLostAsWritten | components/Canvas.tsx:54 | As rendered, the same events leave the plan without features |
| Lists.ReplaceAt | components/Canvas.tsx:38-42 | Replacing index i changes that entry only |
| Lists.RemoveAt | components/cards/UserProfileCard.tsx:30-34 | Removing index i shifts the later entries down by one and keeps the earlier ones |
| Lists.WithoutIndexIsRemoveAt | components/Canvas.tsx:43-46 | Filtering by index is the same as removing that index |
| Lists.RemoveAtKeepsOrder | components/Canvas.tsx:43-46 | Removing an entry keeps the relative order of every other pair |
| Text.JoinEmptyIff | services/geminiService.ts:34 | A join with a non-empty separator is empty exactly when there are no items or one empty item |
| Text.Split | components/cards/IdeaCard.tsx:192 | Splitting gives at least one piece and no piece holds the separator |
| Text.JoinSplitRoundTrip | components/cards/IdeaCard.tsx:192 | Joining the pieces of a split gives the text back |
| Text.SplitJoinRoundTrip | components/cards/IdeaCard.tsx:192 | Splitting a join gives the items back exactly when there is at least one item and none holds the separator |
| Text.TrimStart | components/cards/UserProfileCard.tsx:21 | Trimming the front removes exactly a leading run of whitespace |
| Text.TrimEnd | components/cards/UserProfileCard.tsx:21 | Trimming the back removes exactly a trailing run of whitespace |
| Text.TrimEmptyIff | components/cards/UserProfileCard.tsx:21 | Trimming gives "" exactly when the text is all whitespace |
| Text.TrimEnds | components/cards/UserProfileCard.tsx:21 | A trimmed text is empty or starts and ends with a non-space |
| Text.TrimOfTrimmed | components/cards/UserProfileCard.tsx:21 | Trimming a trimmed text changes nothing |
| Text.ReplaceChar | App.tsx:112 | Every occurrence of one character is replaced and nothing else changes |
| Text.ReplaceCharRoundTrip | App.tsx:185 | Replacing back is the identity when the replacement character did not occur |

## Left out

- Generation calls: the calls to the generation service, JSON parsing and the service's prompts (services/geminiService.ts:12-28, 45-251) are foreign. Each call is a parameter that succeeds with a payload or fails.
- The design document's content: `handleGenerateDesignDoc` (components/cards/IdeaCard.tsx:50-62) shows a generated document. The model gates the button and opens a read-only review holding the reply (`IdeaCard.Click`); the document's text is an opaque parameter.
- Random ids: `crypto.randomUUID` becomes an id parameter. Freshness is a precondition where it matters.
- Async interleaving: async sequencing and the `loading` flag. Each handler and its reply run as one step, and `loading` is a plain flag in the app state.
- Browser I/O: the tutorial flag in local storage, PDF export, the Word download plumbing, the export menu, the clipboard and timers, and the failure `alert`s (components/cards/IdeaCard.tsx:39 and :58, components/cards/FeatureCard.tsx:54 and :89, components/cards/MvpPlanCard.tsx:66), which only tell the user; the model keeps the state unchanged on a failed call.
- Presentation: JSX, styling, the modal, tutorial and card-resizing components.
- Pricing aliasing: the pricing review copies the tier list shallowly and then mutates nested arrays in place (components/cards/IdeaCard.tsx:232-233, 238-239, 244-245, 255-256). The model gives it value semantics.
- Out-of-range writes: a pricing, persona-list, service or improvement edit at an index past the end would grow a JavaScript array. The model requires an index in range. The interface only offers existing indices.
- Persona delete: `PersonaCard.tsx` has no delete button, so the canvas's `onDelete` is never invoked. `Canvas.DeletePersona` models the callback itself.
- The user profile: `UserProfile` is not defined in `types.ts`, and the app does not pass a profile to the canvas. It is modelled from the fields `UserProfileCard.tsx` uses.
- The canvas as written cannot render. `handleStartNewApp` (App.tsx:36-46) builds a plan with `persona: null` and no `personas`, and App.tsx:275 renders the canvas without `userProfile`. The first render therefore throws a TypeError at `userProfile.name` (components/cards/UserProfileCard.tsx:58, reached through components/Canvas.tsx:31), and `plan.personas.map` (components/Canvas.tsx:33) and `plan.personas.length` (components/cards/IdeaCard.tsx:145) would throw too. The model assumes the resolved schema: a fresh plan has `personas == []` and a profile is present. Every card event proved about, and the inputs of both findings below, rest on that assumption.
- String lengths: they are counted in characters. JavaScript counts UTF-16 code units, which differ only outside the basic plane.
- Session.OnLanding: the contract states only consistency and the absence of features. It does not say which landing handler took effect; `PlanStore` states that handler by handler.
- Session.Step: these events are not part of the session:
  - the persona, tech-stack and profile cards;
  - the idea card's lock, edit, typing, save and cancel;
  - opening, editing and saving the stored validation, and editing pricing tiers;
  - the MVP and feature cards' title and feature edits with their save and cancel.

  Each is modelled and proved on its own card. `Session.RunKeepsConsistent` and `Session.FeaturesNeverAppearAsWritten` hold over the events the session does include.
- EditState.Resync: redraws the draft on a change of value. React's effect hooks compare arrays and objects by reference, so they also fire when a handler writes a new array equal to the old one, and the unsaved draft is then lost. The model keeps the draft in that case.
- FeatureCard.ResyncFeatures: suppose the card has an unsaved edit and suggestions come back empty (components/cards/FeatureCard.tsx:42-51). The source writes a new, equal feature array, its hook fires and the edit is lost; the model keeps the edit.
- MvpPlanCard.ResyncSteps: the same gap. Toggling an id no step has writes an equal new step array. The source then resets the draft; the model does not.
- IdeaCard.ResyncIdea: the hook (components/cards/IdeaCard.tsx:26-29) compares the idea by value, as the model does. It compares the improvements array by reference, so re-applying equal improvements resets the draft in the source but not in the model.
- PersonaCard.Resync: the same gap, for a persona object replaced by an equal one.
- TechStackCard.Resync: the same gap, for a tech stack replaced by an equal one.
- Disabled controls: the suggest, custom-input and "+" handlers of the feature card do not check the lock themselves. Their controls are disabled while the card is locked (components/cards/FeatureCard.tsx:160-163). `FeatureCard.SuggestFeatures` therefore has no lock case, and `Session.OnFeatureCard` ignores those events while the card is locked.

## Findings

| source | as written | input that shows it | evidently intended | confidence | as-written member | corrected member |
|---|---|---|---|---|---|---|
| components/Canvas.tsx:54 | The feature card renders only when the plan already has features. The card is the only place features are added, so a plan never gets its first feature | Generate the MVP plan, then unlock the feature card, type a title and press "+": the card is not on the canvas, so nothing is added | Show the feature card from the Features phase on, once the MVP plan exists | not executed | Session.FirstFeatureLostAsWritten | Session.FirstFeatureAddedIntended |
| components/Canvas.tsx:33-47 | The canvas passes `onUpdate`, `onDelete` and `index` to each persona card, but the card's props read only an optional `updatePlan` (components/cards/PersonaCard.tsx:5-9, 19). Save finds no callback and writes nothing | Unlock persona card 0, edit its name, press Save: the plan's persona is unchanged | Save calls `onUpdate(draft)`, replacing persona `index` | not executed | Canvas.PersonaEditLostAsWritten | Canvas.SavedPersonaReplacesIndex |
