# proctify-ui: a verified model of the project store, the builder wizard and the prompt box

proctify-ui is the front end of an "AI app builder" demo. Everything it keeps is
client-side state held in memory. This project models the three pieces of it
that hold logic, and proves their properties in Dafny.

- **The project store** (`src/contexts/ProjectContext.tsx`, module `Projects`,
  file `projects.dfy`). The store holds a list of project records that starts
  with three seed records. It has four operations:
  - `createProject` builds a record, derives a URL slug from the name, marks the
    record `deployed` and appends it;
  - `getProject` finds the first record with a given id;
  - `updateProject` merges a partial patch into every record with that id and
    stamps it `"just now"`;
  - `deleteProject` filters out every record with that id.

  The list operations are pure functions (`Find`, `UpdateAll`, `DeleteAll`,
  `NewProject`, `Slug`). The class `ProjectStore` holds the list in a `seq`
  field, and its methods replace the list through those functions.
- **The builder wizard** (`src/components/BuilderFlow.tsx`, module `Builder`,
  file `builder.dfy`). It is a four-step form:
  - Next and Back move a step counter;
  - the Next button is disabled on the first step until the name and the idea
    are filled in, and on every step while generation runs;
  - feature checkboxes toggle entries of a selection list;
  - Next on the last step hands the draft to the store.

  The class `Wizard` holds `currentStep`, `isGenerating` and the draft. Its
  methods are specified by the step functions `AfterNext`/`AfterBack`, by
  `Toggle`, and by the store's own functions.
- **The prompt box** (`src/components/PromptWriter.tsx`, module `Prompts`, file
  `prompts.dfy`). Sending ignores a blank prompt. Otherwise it prepends
  `{prompt, mock answer}` to the history and clears the box. A placeholder
  cycles through four hints by `(indexOf(prev) + 1) % length`. The class
  `PromptWriter` holds `prompt`, `history`, `loading` and `placeholder`.

Shared pieces live in `wrappers.dfy` (`Option`) and `text.dfy`. `text.dfy`
holds white space, ASCII lower-casing and `trim`. `cycle.dfy` (module `Cycle`) holds the
`indexOf`-based rotation for any list of strings.

Modelling decisions:
- Each asynchronous step is one atomic transition. This covers the 2-second
  generation wait in `createProject`, the 1.2-second answer wait in
  `handleSend`, and the `await` in `handleGenerate`.
- The time-based id of a new project is a parameter of `CreateProject`,
  `Wizard.Next` and `Wizard.Generate`. The source does not make ids unique.
  The lemmas that speak of distinct ids therefore assume a fresh id as a
  precondition.
- `navigate` to the new project's page is modelled as the method returning that
  project's id.
- JavaScript's `x || fallback` on a string treats `""` as missing. So an empty
  style or colour scheme passed to `createProject` becomes `"modern"` or
  `"blue"`, and an empty `type` query parameter becomes `"website"`. An array is
  never falsy, so a supplied feature list is kept even when it is empty.
- `\s` and `trim` are taken to remove the six ASCII white-space characters
  (space, tab, line feed, carriage return, vertical tab, form feed). The
  non-ASCII white space JavaScript also matches (no-break space, the byte-order
  mark, the Unicode space separators, U+2028 and U+2029) is not modelled.
  `toLowerCase` is taken to map only ASCII `A`-`Z`.

What the code does, and the model with it:
- `createProject` does no validation. An empty name or description is
  accepted, and there is no validation error.
- The store takes the project type as an unchecked string. The wizard's lookup
  tables know `website`, `chatbot` and `app`. A wizard opened with any other
  `type` parameter throws on its first render, because it reads
  `currentProjectType.gradient`. The model makes a known type a precondition of
  opening the wizard and an invariant of its state.
- Ids are not guaranteed unique.
- The Back button is not disabled while a generation runs. The model lets Back step back then too, but Next stays disabled, so no second generation starts.
- A created record is flipped to `deployed` before it is appended. So the list
  never holds it in the `building` state.
- A patch may overwrite any field, `id` and `status` included. It may not set
  `lastModified`: that field is always forced to `"just now"`.

## Model

| member | source | states |
|---|---|---|
| `Text.TrimStart` | src/components/PromptWriter.tsx:31 | the result is a suffix of the input, everything dropped is white space, and the result does not start with white space |
| `Text.TrimEnd` | src/components/PromptWriter.tsx:31 | the result is a prefix of the input, everything dropped is white space, and the result does not end with white space |
| `Text.BlankIffAllSpace` | src/components/PromptWriter.tsx:31 | `!prompt.trim()` holds exactly when every character of the prompt is white space (both directions) |
| `Text.Trim` | src/components/PromptWriter.tsx:31 | `prompt.trim()`: never longer than the prompt, and neither its first nor its last character is white space |
| `Text.IsBlank` | src/components/PromptWriter.tsx:31 | `!prompt.trim()`: the trimmed prompt is empty; characterised by `Text.BlankIffAllSpace` |
| `Text.ToLower` | src/contexts/ProjectContext.tsx:89 | lower-casing keeps the length and lower-cases each character in place |
| `Projects.Collapse` | src/contexts/ProjectContext.tsx:89 | the whitespace-run replacement never lengthens the string, leaves no white space, and outputs only `-` or characters of its input |
| `Projects.SlugWellFormed` | src/contexts/ProjectContext.tsx:89 | a slug holds no white space and no upper-case letter |
| `Projects.SlugIdempotent` | src/contexts/ProjectContext.tsx:89 | `slug(slug(x)) == slug(x)` |
| `Projects.SlugOfTwoWords` | src/contexts/ProjectContext.tsx:89 | two words separated by any non-empty white-space run become the lower-cased words joined by exactly one `-`; with no first word, the leading run becomes one `-` |
| `Projects.Slug` | src/contexts/ProjectContext.tsx:89 | `name.toLowerCase().replace(/\s+/g, '-')`: the slug is never longer than the name and holds no white space |
| `Projects.ProjectUrl` | src/contexts/ProjectContext.tsx:89 | the address is `https://`, then the slug, then `.proctify.ai`, so the slug can be read back from it |
| `Projects.TestSiteUrl` | src/contexts/ProjectContext.tsx:89 | the name "Test Site" gets the address `https://test-site.proctify.ai` |
| `Projects.OrDefault` | src/contexts/ProjectContext.tsx:87-88 | `value \|\| fallback`: a supplied non-empty string is kept; a missing or empty one becomes the fallback |
| `Projects.NewProject` | src/contexts/ProjectContext.tsx:79-90 | the new record has the given id, status `building` and `"just now"`; name, description and type are copied verbatim; features default to `[]`, style to `modern`, colour to `blue`; the address is derived from the name |
| `Projects.SeedFacts` | src/contexts/ProjectContext.tsx:39-76 | the seed list has three records with distinct ids `1`, `2`, `3` and statuses deployed, building, draft |
| `Projects.Find` | src/contexts/ProjectContext.tsx:101-103 | `find` returns none exactly when no record has the id; otherwise it returns a record with that id that sits at the first such position |
| `Projects.FindAppend` | src/contexts/ProjectContext.tsx:96-103 | a lookup in the list with one record appended finds the old list's match if there was one, else the appended record if its id matches, else nothing |
| `Projects.CreateThenFind` | src/contexts/ProjectContext.tsx:96-103 | after appending a record under an id the list did not hold, `getProject` of that id returns exactly that record |
| `Projects.CreateKeepsIdsDistinct` | src/contexts/ProjectContext.tsx:78-98 | appending a record under a fresh id keeps all ids distinct |
| `Projects.Merge` | src/contexts/ProjectContext.tsx:109 | every field the patch carries, `id` and `status` included, replaces the record's; every field it leaves out is kept; the stamp is always `"just now"`, whatever the patch says |
| `Projects.RenameThenFind` | src/contexts/ProjectContext.tsx:101-113 | renaming a present id and then looking it up gives the old record with the new name and `"just now"`, every other field unchanged |
| `Projects.UpdateAll` | src/contexts/ProjectContext.tsx:105-113 | the update keeps length and order; records with the id become the patch merged over them; all other records are unchanged |
| `Projects.UpdateAbsent` | src/contexts/ProjectContext.tsx:106-112 | updating an id that is not in the list leaves the list exactly unchanged |
| `Projects.UpdateIdempotent` | src/contexts/ProjectContext.tsx:105-113 | applying the same patch twice equals applying it once, even when the patch overwrites the id |
| `Projects.UpdateAwayThenFind` | src/contexts/ProjectContext.tsx:101-113 | after an update whose patch moves the record to another id, a lookup of the old id finds nothing |
| `Projects.UpdateThenFind` | src/contexts/ProjectContext.tsx:101-113 | after an update that does not rename the id, a lookup of the id finds the previously first match with the patch merged in, or nothing if there was none |
| `Projects.UpdateKeepsIdsDistinct` | src/contexts/ProjectContext.tsx:105-113 | an update that does not rename the id keeps the ids distinct |
| `Projects.DeleteAll` | src/contexts/ProjectContext.tsx:115-117 | after `filter` no record has the id, and a record survives exactly when it was in the list with another id |
| `Projects.DeleteAppend` | src/contexts/ProjectContext.tsx:115-117 | the filter distributes over concatenation, so survivors keep their relative order |
| `Projects.DeleteAbsent` | src/contexts/ProjectContext.tsx:115-117 | deleting leaves the list unchanged exactly when no record has the id, and otherwise shortens it |
| `Projects.DeleteIdempotent` | src/contexts/ProjectContext.tsx:115-117 | deleting the same id twice equals deleting it once |
| `Projects.DeleteThenFind` | src/contexts/ProjectContext.tsx:101-117 | after a delete, `getProject` of that id returns nothing |
| `Projects.DeleteKeepsIdsDistinct` | src/contexts/ProjectContext.tsx:115-117 | deleting keeps distinct ids distinct |
| `Projects.ProjectStore.constructor` | src/contexts/ProjectContext.tsx:39-76 | the store starts with the seed list |
| `Projects.ProjectStore.GetProject` | src/contexts/ProjectContext.tsx:101-103 | `getProject`: none exactly when no record in the current list has the id; otherwise a record of the list that carries the id (the first, by `Projects.Find`) |
| `Projects.ProjectStore.CreateProject` | src/contexts/ProjectContext.tsx:78-99 | the returned record is the built record flipped to `deployed`; the list becomes the old list with that record appended |
| `Projects.ProjectStore.UpdateProject` | src/contexts/ProjectContext.tsx:105-113 | the list becomes `UpdateAll` of the old list, with the same length |
| `Projects.ProjectStore.DeleteProject` | src/contexts/ProjectContext.tsx:115-117 | the list becomes `DeleteAll` of the old list, and `getProject` of the id is then none |
| `Builder.InitialDraft` | src/components/BuilderFlow.tsx:36-46 | the draft's type is the query parameter, or `website` when it is missing or empty; style is `modern`, colour `blue`; there are no features; name, description, idea, target audience and additional requirements are empty |
| `Builder.AfterNext` | src/components/BuilderFlow.tsx:149-155 | the step after Next is one more exactly below the last step; at the last step it stays put; it never leaves the wizard's steps |
| `Builder.AfterBack` | src/components/BuilderFlow.tsx:157-161 | the step after Back is one less from any later step and stays 0 at the first |
| `Builder.NextDisabled` | src/components/BuilderFlow.tsx:542 | the Next button's `disabled`: on step 0 while the name or the idea is empty, and on every step while generating (properties in `Builder.GuardFacts`) |
| `Builder.BackDisabled` | src/components/BuilderFlow.tsx:527 | the Back button's `disabled`: on step 0 (properties in `Builder.GuardFacts`) |
| `Builder.WalkStaysInRange` | src/components/BuilderFlow.tsx:149-161 | under any sequence of Next and Back presses the step stays in `0..3` |
| `Builder.RepeatedNext` | src/components/BuilderFlow.tsx:149-155 | `n` Next presses from step `k` reach `min(k + n, 3)` |
| `Builder.NextThenBack` | src/components/BuilderFlow.tsx:149-161 | Next below the last step adds exactly 1; Next then Back from any `k < 3` returns to `k`; Back at step 0 is a no-op |
| `Builder.GuardFacts` | src/components/BuilderFlow.tsx:527-542 | the description never affects the Next guard; past step 0 Next is disabled exactly while generating; Back is disabled exactly where it would do nothing |
| `Builder.Without` | src/components/BuilderFlow.tsx:173 | the filter removes every copy of the feature and keeps exactly the other features |
| `Builder.Toggle` | src/components/BuilderFlow.tsx:169-176 | after a toggle the feature is selected exactly when it was not before, and every other feature's membership is unchanged; an unselected feature is appended at the end, after the old selection kept as it was |
| `Builder.WithoutAppend` | src/components/BuilderFlow.tsx:173 | the filter distributes over concatenation, so the kept features keep their order |
| `Builder.ToggleKeepsNoDuplicates` | src/components/BuilderFlow.tsx:169-176 | a toggle keeps a duplicate-free selection duplicate-free |
| `Builder.ToggleTwiceRestores` | src/components/BuilderFlow.tsx:169-176 | toggling an unselected feature twice gives back exactly the original list |
| `Builder.ToggleKeepsOthersInOrder` | src/components/BuilderFlow.tsx:169-176 | apart from the toggled feature, the selection is the same list in the same order |
| `Builder.ToggleAllKeepsNoDuplicates` | src/components/BuilderFlow.tsx:42-176 | starting from the empty selection, any series of toggles yields a list without duplicates |
| `Builder.TablesDefinedForKnownTypes` | src/components/BuilderFlow.tsx:75-127 | both lookup tables are defined exactly for `website`, `chatbot` and `app`, with eight features each; the default type is one of these |
| `Builder.ProjectTypeInfo` | src/components/BuilderFlow.tsx:75-94 | `projectTypes[type]`: the display name and description for `website`, `chatbot` and `app`, nothing for any other type |
| `Builder.FeatureOptions` | src/components/BuilderFlow.tsx:96-127 | `featureOptions[type]`: the eight feature names for each known type, nothing for any other type |
| `Builder.WithField` | src/components/BuilderFlow.tsx:299-453 | `{ ...prev, [field]: value }` for the text inputs and the style and colour pickers; no edit changes the type or the feature selection; only the name input changes the name and only the idea input the idea |
| `Builder.FieldStep` | src/components/BuilderFlow.tsx:285-453 | the panel that shows each input: name, description, idea and audience on step 0, style and colour on step 1, the additional requirements on the feature step 2; no input is on the generation step |
| `Builder.DraftInput` | src/components/BuilderFlow.tsx:165 | the draft as passed to `createProject`: name, description, type, features, style and colour scheme, all present |
| `Builder.GeneratedFromDraft` | src/components/BuilderFlow.tsx:163-167 | the generated project carries the draft's name, description, type and features verbatim; it carries the draft's style and colour unless they are empty |
| `Builder.Wizard.constructor` | src/components/BuilderFlow.tsx:34-46 | opened with a `type` the tables know (any other throws on the first render), the wizard starts at step 0, not generating, with the initial draft, and with Next disabled |
| `Builder.Wizard.CurrentProjectType` | src/components/BuilderFlow.tsx:178 | `currentProjectType` is defined in every state the wizard can be in |
| `Builder.Wizard.CurrentFeatures` | src/components/BuilderFlow.tsx:179 | `currentFeatures` is defined in every state the wizard can be in and offers eight features |
| `Builder.Wizard.Next` | src/components/BuilderFlow.tsx:149-155 | called only while the Next button is enabled (its `onClick`, guarded by `disabled` at line 542); the step moves by `AfterNext` and the invariant (step in range, no duplicate features, known type, name and idea filled in past step 0) is kept; below the last step nothing else changes; at the last step generation starts, the store gains the draft's deployed project, and its id is returned for navigation; the generated project's type is one the tables know and its name is not empty; Next is then disabled, so no second generation starts |
| `Builder.Wizard.Back` | src/components/BuilderFlow.tsx:157-161 | the step moves by `AfterBack`; nothing else changes |
| `Builder.Wizard.Generate` | src/components/BuilderFlow.tsx:163-167 | called from Next on the last step while no generation runs; `isGenerating` becomes true; the store's list gains the project built from the draft, whose type is one the tables know and whose name is not empty; the new id is returned; Next is then disabled |
| `Builder.Wizard.ToggleFeature` | src/components/BuilderFlow.tsx:169-176 | from a checkbox of the feature step, the draft's features become `Toggle` of the old ones; the no-duplicates invariant is kept |
| `Builder.Wizard.Edit` | src/components/BuilderFlow.tsx:299-453 | from the step whose panel shows the input, the draft becomes `WithField` of the old draft; the step and the generating flag are unchanged; the type stays known, and the name and idea stay filled in past step 0 |
| `Prompts.MockResponseQuotes` | src/components/PromptWriter.tsx:36 | the answer is the fixed prefix `AI: "`, then the untrimmed prompt, then the fixed suffix `" (This is a mock response!)` |
| `Prompts.MockResponse` | src/components/PromptWriter.tsx:36 | the mock answer: the prompt, untrimmed, between the fixed prefix and suffix (stated by `Prompts.MockResponseQuotes`) |
| `Prompts.MockResponseInjective` | src/components/PromptWriter.tsx:36 | different prompts get different answers |
| `Prompts.Answered` | src/components/PromptWriter.tsx:35-38 | the history grows by one; the new entry comes first; the older entries follow unchanged and in order |
| `Prompts.SendEnabledIff` | src/components/PromptWriter.tsx:68-75 | the send button is enabled exactly when not loading and the prompt has a non-white-space character; while the input is disabled, Send is disabled too |
| `Prompts.SendDisabled` | src/components/PromptWriter.tsx:75 | the send button's `disabled`: `loading \|\| !prompt.trim()` |
| `Prompts.InputDisabled` | src/components/PromptWriter.tsx:68 | the input's `disabled`: `loading` |
| `Cycle.IndexOf` | src/components/PromptWriter.tsx:23 | `indexOf` is -1 exactly when the string is absent; otherwise it is the first position holding it |
| `Cycle.SuccessorIsModular` | src/components/PromptWriter.tsx:22-25 | the next placeholder is `list[(indexOf(prev) + 1) % length]` and always a member of the list |
| `Cycle.Successor` | src/components/PromptWriter.tsx:22-25 | the entry after `prev`: the next position after `indexOf(prev)`, or the first entry past the end (proved equal to the modular form by `Cycle.SuccessorIsModular`) |
| `Prompts.NextPlaceholder` | src/components/PromptWriter.tsx:22-25 | the interval's update: `Cycle.Successor` over the four hints (properties in `Prompts.PlaceholderRotation`) |
| `Cycle.SuccessorWraps` | src/components/PromptWriter.tsx:22-25 | in a list without repeats, the entry after the `i`-th is the `(i+1)`-th, wrapping to the first after the last |
| `Cycle.SuccessorOfStranger` | src/components/PromptWriter.tsx:23-24 | a placeholder that is not in the list is followed by the first hint |
| `Cycle.SuccessorOfEntry` | src/components/PromptWriter.tsx:22-25 | in a list without repeats, the entry after the `i`-th is the `(i + 1) % length`-th |
| `Prompts.FullCycle` | src/components/PromptWriter.tsx:19-27 | in a list without repeats, as many ticks as the list is long return to the starting entry |
| `Prompts.PlaceholderRotation` | src/components/PromptWriter.tsx:5-27 | for the four hints: the hint after the `i`-th is the `(i + 1) % 4`-th; a non-hint is followed by the first, so a tick always lands on a hint; four ticks return to the start |
| `Prompts.PromptWriter.constructor` | src/components/PromptWriter.tsx:13-16 | the box starts empty, with an empty history, not loading, showing the first hint |
| `Prompts.PromptWriter.Type` | src/components/PromptWriter.tsx:66 | typing sets the prompt and nothing else |
| `Prompts.PromptWriter.Send` | src/components/PromptWriter.tsx:30-43 | a blank prompt changes no state; otherwise the history becomes `[entry] + history`, the prompt is cleared and loading is off |
| `Prompts.PromptWriter.Tick` | src/components/PromptWriter.tsx:19-27 | the placeholder moves to `NextPlaceholder` of the old one and stays one of the hints; nothing else changes |

## Left out

- The timing layer: `setTimeout`, `setInterval` and `await`. Each handler is one atomic step. So the model does not show the `loading = true` state while an answer is pending, or `isGenerating` before the store returns. Interleavings of concurrent `createProject` calls are not modelled.
- `Date.now().toString()` id generation: the id is a parameter.
- Object identity: `createProject` returns the same object it appends. The model uses values, so both are the same value.
- JavaScript falsiness beyond strings: `data.style || 'modern'` is modelled for a string or a missing value only. `createProject` would throw on a missing `name`; the model makes `name` a required string.
- A patch field explicitly set to `undefined`: object spread would copy it over the record, but the model treats it as absent.
- Unicode white space and case mapping outside ASCII, as stated above.
- Rendering, animation, styling, the clipboard and focus handling (`inputRef.current?.focus()`).
- `navigate` and `useSearchParams`: the query parameter is an `Option` argument and the navigation target is a returned id.
- The icon and gradient columns of the lookup tables, and the `designStyles` and `colorSchemes` palettes. They are display data; the style and colour setters accept any string.
- Builder.Wizard.constructor: an unknown `type` parameter is a precondition, not an error path; the model does not show the thrown render error, only that no wizard state, and so no generated project, has an unknown type.
- `src/components/ProjectView.tsx` is not part of this model. It presents `getProject`, and its file-path slug is the same expression as `Slug`.
- `src/components/LandingPage.tsx`, `src/components/Dashboard.tsx`, `src/App.tsx` and `tailwind.config.js` are not part of this model. They hold marketing copy, static markup, route wiring and styling. The authentication stub they use is not part of this model either.
