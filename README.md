# StudioShape wizard mapper and builder undo history, in Dafny

This project models two small pieces of the StudioShape "AI site builder" web app.

- **The guided start wizard** (`app/start/page.tsx`). The user answers five steps: site type, brand, goal and audience, tone and vibe, then review. The answers are mapped deterministically to a complete site configuration:
  - the vibe picks a theme palette laid over the default theme;
  - the lower-cased goal adds at most one goal feature to three baseline features;
  - fixed rules pick the two call-to-action labels;
  - empty answers fall back to literal placeholder copy;
  - a missing layout preset falls back to a per-site-type table.
  The Design & tone step, in advanced mode only, tells the user that tone and vibe "influence your theme colors and default CTA labels" (app/start/page.tsx:358-364). In the code only the vibe affects the generated configuration, and only through the theme. Neither reaches the labels. The tone reaches nothing in the generated configuration, though the page displays it (lines 361, 396 and 438).
  The step counter moves forward and back with clamping. The assistant hint falls back to the first hint for any index outside the table.
- **The template builder session** (`app/builder/page.tsx`). The session holds the current template, a history of earlier templates used as an undo stack, and a change log. Selecting a template replaces the current one. Applying a change pushes the replaced template onto the history. Undo pops the newest history entry back into place.

Modules:

- `Text` (`text.dfy`): `toLowerCase` limited to ASCII, and `includes` as a recursive substring test. A lemma shows the recursive test agrees with "occurs at some position".
- `StartWizard` (`start_wizard.dfy`): the wizard's data model, the lookup tables, the form's `setState` updaters, the pure mapping functions, and the step counter. The step counter is a class, because the page updates `step` in place.
- `GoalChoices` (`goal_choices.dfy`): the four goals the goal select box offers, each worked through the keyword rules to the labels and goal feature it produces.
- `BuilderSession` (`builder_session.dfy`):
  - the three `setSession` updaters, as pure functions on a session value;
  - the page's session as a class whose handlers update its fields;
  - the stack lemmas.
- `Wrappers` (`wrappers.dfy`): `Option`, standing for `null` and for "no value chosen".

`defaultStudioShapeTheme()` lives in `lib/dataStore`, which is not part of this model. `DeriveTheme` and `BuildConfigFromState` therefore take the default theme as a parameter. The template type and the change-log entry type come from `lib/aishape/model`, which is not part of this model either, so they are type parameters.

## Model

| member | source | states |
|---|---|---|
| Text.ToLower | app/start/page.tsx:58 | the lower-cased goal has the same length, and each character is the ASCII lower-case form of the original one |
| Text.ToLowerIdempotent | app/start/page.tsx:84-91 | lower-casing an already lower-cased goal changes nothing |
| Text.IncludesIffOccurs | app/start/page.tsx:65-70 | `includes` holds exactly when the pattern occurs at some index of the string (both directions) |
| Text.IncludesInfix | app/start/page.tsx:63 | a string includes any text placed verbatim inside it |
| StartWizard.SiteTypePreset | app/start/page.tsx:28-33 | launch maps to the product preset, portfolio to the portfolio preset, saas and info to minimal; no site type maps to the dark preset |
| StartWizard.ApplyAnswer | app/start/page.tsx:226-345 | a site-type button sets the site type and that button's layout preset together and nothing else; each of the brand name, tagline, description, goal, audience, tone and vibe controls sets its own field to the entered value and leaves every other field as it was |
| StartWizard.SiteTypeButtonsMatchPresets | app/start/page.tsx:226-232 | every site-type button sets the same preset that `siteTypePresets` (lines 28-33) gives its type, and every site type has a button |
| StartWizard.InitialStateKeepsInvariant | app/start/page.tsx:137-147 | the page's initial answers (launch with the product preset, goal "Collect leads") already have the preset in step with the type and an offered goal |
| StartWizard.PageStatesKeepInvariant | app/start/page.tsx:226-345 | any series of edits the page's controls can make keeps the layout preset equal to the site type's preset and the goal among the four offered ones |
| StartWizard.AssistantHint | app/start/page.tsx:35-44 | an index 0..4 gives that step's hint; any other index gives the first hint; the hint is never empty |
| StartWizard.NextStep | app/start/page.tsx:160 | the step moves forward by one, or stays at the last step (index 4), and never goes past it |
| StartWizard.PrevStep | app/start/page.tsx:161 | the step moves back by one, or stays at 0, and never goes below 0 |
| StartWizard.RunStaysInRange | app/start/page.tsx:149-161 | starting inside 0..4, every sequence of next/back presses ends inside 0..4 |
| StartWizard.StepCounter.constructor | app/start/page.tsx:135 | the wizard starts at step 0 |
| StartWizard.StepCounter.Next | app/start/page.tsx:160 | the step becomes `old + 1` below the last step and stays at the last step otherwise; the step stays in 0..4 |
| StartWizard.StepCounter.Prev | app/start/page.tsx:161 | the step becomes `old - 1` above 0 and stays 0 at 0; the step stays in 0..4 |
| StartWizard.StepCounter.CurrentHint | app/start/page.tsx:427 | the hint shown beside the wizard is always the current step's own hint, never the fallback |
| StartWizard.DeriveTheme | app/start/page.tsx:46-55 | dark vibe gives background #050914, primary #8b5cf6, accent #22d3ee, text #e2e8f0; bold vibe gives primary #f97316, accent #22d3ee, background #0b1224, text #e2e8f0; minimal gives the default theme unchanged; the other fields always come from the default theme |
| StartWizard.GoalFeature | app/start/page.tsx:65-71 | the lead feature exactly when the lower-cased goal mentions "lead"; the portfolio feature exactly when it mentions "portfolio" but not "lead"; the booking feature exactly when it mentions "booking" and neither of the others; none exactly when it mentions none of the three |
| StartWizard.BuildFeatures | app/start/page.tsx:57-73 | 3 or 4 features; the first three are the baseline (with the audience or "your audience" in the third); a fourth exists exactly when the lower-cased goal mentions "lead", "portfolio" or "booking"; a goal feature can only sit at index 3, so there is at most one; a fourth item is always `GoalFeature` of the goal |
| StartWizard.FeaturesNameAudience | app/start/page.tsx:59-63 | the third feature's description contains the audience, or "your audience" when it is empty |
| StartWizard.FeaturePriority | app/start/page.tsx:65-71 | "lead" wins over "portfolio", which wins over "booking": a goal mentioning "lead" and "booking" gets only "Lead capture ready" |
| StartWizard.PrimaryCta | app/start/page.tsx:84-89 | "Get started" exactly when the lower-cased goal mentions "lead" or "booking"; otherwise "View work" exactly for portfolio sites; otherwise "Learn more" |
| StartWizard.SecondaryCta | app/start/page.tsx:90-91 | "Contact" exactly when the site is a portfolio or the goal mentions "lead"; "See preview" otherwise |
| StartWizard.CtasAgreeWithFeatures | app/start/page.tsx:57-91 | a "Get started" label always comes with a fourth (goal) feature; a "Contact" label on a non-portfolio site always comes with the lead feature |
| StartWizard.BuildStats | app/start/page.tsx:75-79 | the stats section has exactly three items, each with a non-empty caption and value |
| StartWizard.StoryHeading | app/start/page.tsx:109 | with a tagline, "Why " + brand name, or "Why this brand" without a brand name; without a tagline, brand name + " story", or "Your story" without a brand name; never empty |
| StartWizard.StoryParagraphs | app/start/page.tsx:110-114 | two non-empty paragraphs; the first is the description, or the literal "Tell your audience exactly what matters - StudioShape keeps the structure and theme consistent." when it is empty |
| StartWizard.BuildConfigFromState | app/start/page.tsx:81-121 | id is the given site id; the layout preset is the chosen one, else the site type's preset (app/start/page.tsx:28-33); name and hero title fall back to their literals when the brand name is empty; the subtitle falls back tagline, then description, then a literal; the CTA labels, features, theme, story heading, story paragraphs and stats are those of the rules above; every text leaf and every section list is non-empty |
| StartWizard.PageConfigUsesSiteTypePreset | app/start/page.tsx:82 | on any series of edits the page's controls can make from its initial answers, the preset is always set, so the `siteTypePresets` fallback never fires, and the configuration's preset is the site type's own |
| StartWizard.StoryQuotesGoalAndAudience | app/start/page.tsx:113 | the second story paragraph contains the goal and the audience, or their fallbacks |
| StartWizard.GoalMatchIgnoresCase | app/start/page.tsx:84-91 | lower-casing the goal beforehand changes neither the features nor either CTA label, so the goal match is case-insensitive |
| StartWizard.CtasIgnoreToneAndVibe | app/start/page.tsx:84-91 | changing the tone or the vibe changes neither call-to-action label, although the Design & tone step's note (advanced mode only, lines 358-364) says these choices influence the default CTA labels |
| StartWizard.ToneIsIgnored | app/start/page.tsx:81-121 | the tone answer has no effect on the generated configuration |
| GoalChoices.CollectLeadsKeywords | app/start/page.tsx:301 | the offered goal "Collect leads", lower-cased, mentions "lead" and neither "booking" nor "portfolio" |
| GoalChoices.GetBookingsKeywords | app/start/page.tsx:302 | "Get bookings", lower-cased, mentions "booking" and neither "lead" nor "portfolio" |
| GoalChoices.ShowPortfolioKeywords | app/start/page.tsx:303 | "Show portfolio", lower-cased, mentions "portfolio" and neither "lead" nor "booking" |
| GoalChoices.ExplainProductKeywords | app/start/page.tsx:304 | "Explain a product", lower-cased, mentions none of "lead", "booking" and "portfolio" |
| GoalChoices.CollectLeadsOutcome | app/start/page.tsx:57-91 | goal "Collect leads" gives "Get started" and "Contact" and the lead feature fourth, on every site type |
| GoalChoices.GetBookingsOutcome | app/start/page.tsx:57-91 | goal "Get bookings" gives "Get started", the booking feature fourth, and "Contact" on portfolio sites but "See preview" elsewhere |
| GoalChoices.ShowPortfolioOutcome | app/start/page.tsx:57-91 | goal "Show portfolio" gives the portfolio feature fourth; "View work" and "Contact" on portfolio sites, "Learn more" and "See preview" elsewhere |
| GoalChoices.ExplainProductOutcome | app/start/page.tsx:57-91 | goal "Explain a product" adds no goal feature (only the three baseline features); a launch page, like any non-portfolio site, gets "Learn more" and "See preview"; a portfolio site gets "View work" and "Contact" |
| GoalChoices.InitialAnswersConfig | app/start/page.tsx:137-147 | left untouched, the wizard's answers give a product layout, "Get started" and "Contact", and the lead feature fourth |
| BuilderSession.InitialSession | app/builder/page.tsx:35-39 | the session starts with no current template, an empty history and an empty change log |
| BuilderSession.SelectTemplate | app/builder/page.tsx:48-54 | the chosen template becomes current; history and change log are unchanged, so selecting creates no undo point |
| BuilderSession.ApplyChange | app/builder/page.tsx:56-62 | the new template becomes current; with a current template, the old one is appended at the end of history (length + 1); without one, history is unchanged; the change log is unchanged |
| BuilderSession.Undo | app/builder/page.tsx:64-75 | with empty history or no current template, the identical session comes back; otherwise the last history entry becomes current and exactly that entry is removed, leaving the earlier prefix untouched; the change log is unchanged |
| BuilderSession.ChangeThenUndo | app/builder/page.tsx:56-75 | from a session with a current template, a change followed by an undo restores the original session |
| BuilderSession.UndoEnabledExactlyWithHistory | app/builder/page.tsx:113 | in a reachable session, undo changes something exactly when history is non-empty, which is when the page enables its undo button |
| BuilderSession.SelectCreatesNoUndoPoint | app/builder/page.tsx:48-54 | for the select updater on its own, an undo right after a selection restores the same template an undo would have restored before it (the page shows its template buttons only while no template is current, lines 87 and 98, so there this case does not arise) |
| BuilderSession.ChangesStackUp | app/builder/page.tsx:56-62 | with a current template, n changes grow history by exactly n, keep the earlier history as a prefix, and leave the change log alone |
| BuilderSession.UndoReversesChanges | app/builder/page.tsx:56-75 | history is LIFO: n changes followed by n undos give back the session from before the first change |
| BuilderSession.ReplayKeepsConsistent | app/builder/page.tsx:48-75 | from a consistent session, any series of select, change and undo presses keeps "non-empty history implies a current template" and leaves the change log as it was |
| BuilderSession.ReachableSessionsAreConsistent | app/builder/page.tsx:35-75 | every session reachable from the initial one by any series of select, change and undo presses has a current template whenever it has history, and an empty change log |
| BuilderSession.BuilderPage.constructor | app/builder/page.tsx:35-39 | the page's session starts as the initial session |
| BuilderSession.BuilderPage.HandleSelectTemplate | app/builder/page.tsx:48-54 | the fields become the select updater applied to the old session |
| BuilderSession.BuilderPage.HandleSiteConfigChange | app/builder/page.tsx:56-62 | the fields become the change updater applied to the old session: the old current template is pushed onto history |
| BuilderSession.BuilderPage.HandleUndo | app/builder/page.tsx:64-75 | the fields become the undo updater applied to the old session: history is popped into the current template, or nothing changes when history is empty |

## Left out

- `generateSite` (app/start/page.tsx:163-179): it calls the external site store (`createSite`, `updateSiteConfig`, `updateSite`) and the router.
- The JSX rendering of both pages. The form's `setState` updaters are modelled by `ApplyAnswer`. The text inputs are modelled as accepting any string. The tone and vibe selects are modelled as any value of their types, which is what their option lists offer.
- The template list produced by `generateTemplatesFromPrompt` (app/builder/page.tsx:41-44): it comes from `lib/aishape/templates`, which is not part of this model.
- `defaultStudioShapeTheme()` is an input, not a constant. `lib/types` is not part of this model. The six theme keys are taken from the theme editor (app/sites/[siteId]/edit/page.tsx:495-523). The two the wizard does not override, `secondaryColor` and `fontFamily`, pass through unchanged.
- Text.ToLower: lower-cases ASCII letters only. JavaScript's `toLowerCase` also folds non-ASCII letters. The keywords the goal is matched against are ASCII, but a goal such as "LEAD" written with non-ASCII look-alike letters behaves differently in the two.
- The `{ items }` wrappers around the feature and stats lists are flattened into plain sequences.
- A `layoutPreset` that is an empty string is modelled as `None`. The source type allows no other falsy value.
- `buildFeatures` pushes onto a fresh local array and then slices it. Nothing else can observe that array, so `BuildFeatures` builds the same sequence as a value.
- `getAssistantHint` is only modelled for integer indices. The page only ever passes the integer `step`.
- The `changeLog` entries are never written by the three handlers. Their type is a parameter, and the model only shows that the change log is left alone.
