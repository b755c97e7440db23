# Campaign viewer core, modelled in Dafny

This project models three parts of a browser-based tabletop campaign viewer.

- **The campaign session store** (`src/stores/campaignStore.ts`). One object holds the loaded campaign, the current scene, the game state, a loading flag and the last error. Its actions load a campaign document, move between scenes, merge updates into the game state, save and restore the game state, and reset the session.
- **The markdown prompt parser** (`src/services/promptParser.ts`). A line-by-line scan turns a markdown catalogue of image prompts into an ordered list of prompt records, each with an id, a folder and a sanitised file name. Two helpers group the records by category and list the distinct categories.
- **The image generation manager** (`src/components/tools/ImageGenerationManager.tsx`). A fixed catalogue of ten prompts can be filtered by type and selected one at a time or by type. A batch then requests one image per selected prompt, in catalogue order. It records a status per prompt and the progress of the batch.

Modules:

- `Wrappers`: `Option`.
- `Sequences`: filtering a sequence and first-appearance de-duplication, with their order facts.
- `JsStrings`: the JavaScript string built-ins the core relies on. These are `\s`, `trim`, `startsWith`, `indexOf`/`includes`, `replace` with a string pattern, `split('\n')` and the decimal rendering of an integer.
- `CampaignTypes`: the campaign document and the game state.
- `CampaignStore`: the store, as a class whose methods overwrite its fields.
- `ImageTypes`: the prompt record and the generation options.
- `PromptParser`: the parser. The scan loop is a method proved against a function over the lines.
- `ImageGeneration`: the manager, as a class whose handlers update its state.

Inputs the program takes from the outside world are parameters here:

- the fetched campaign document is a `FetchResult`;
- the storage slot is a `SnapshotSlot`, and whether a write succeeds is a `bool`;
- the outcome of each image request is `outcome(i)` for the `i`-th prompt of a batch.

Behaviours of the code that the model keeps as written:

- `completedScenes` keeps duplicates: revisiting a scene records it again.
- A successful transition leaves an earlier error set.
- Overlapping loads are not superseded: each applies its own result when it finishes.
- A campaign document is not validated. Only an empty scene list fails, because reading `scenes[0].id` throws.
- Restoring progress that names a campaign reloads it, and a successful reload sets the game state's scene back to the campaign's first scene. The restored state is therefore not always the one saved.

## Model

| member | source | states |
|---|---|---|
| `CampaignStore.LoadSucceeds` | dnd-campaign-game/src/stores/campaignStore.ts:48-62 | a load gets past `campaign.scenes[0].id` exactly when the response was ok, its body parsed and the scene list is not empty; `Store.LoadCampaign` states what each case does to the store |
| `CampaignStore.LoadErrorMessage` | dnd-campaign-game/src/stores/campaignStore.ts:49-68 | the error of a failed load: `Campaign <id> not found` for a response that is not ok, the thrown Error's message, `Failed to load campaign` for a non-Error value, and the TypeError message of reading `id` of a missing first scene; `Store.LoadCampaign` sets it |
| `CampaignStore.FirstSceneIndex` | dnd-campaign-game/src/stores/campaignStore.ts:76 | the position of the first scene with exactly that id, every scene before it having another id, or the length when none has it |
| `CampaignStore.FindScene` | dnd-campaign-game/src/stores/campaignStore.ts:76 | `find` gives nothing exactly when no scene has the id; otherwise the first scene with that id |
| `CampaignStore.FindSceneAt` | dnd-campaign-game/src/stores/campaignStore.ts:76 | a scene no earlier scene shares an id with is the one `find` returns for its id |
| `CampaignStore.RecordSceneLeft` | dnd-campaign-game/src/stores/campaignStore.ts:83-88 | a truthy current scene id is appended to `completedScenes` even when already there; nothing else in the progress changes |
| `CampaignStore.EnterScene` | dnd-campaign-game/src/stores/campaignStore.ts:83-96 | a successful transition sets the game state's scene id and records the scene left, and changes no other game-state field |
| `CampaignStore.Walk` | dnd-campaign-game/src/stores/campaignStore.ts:83-96 | the game state after successful transitions to each id of a path in turn; `WalkRecordsEveryDeparture` states what it records |
| `CampaignStore.WalkRecordsEveryDeparture` | dnd-campaign-game/src/stores/campaignStore.ts:83-96 | starting from a truthy scene, along non-empty ids, successful transitions make `completedScenes` grow by exactly one id per transition, in order, without de-duplication, and only the scene id and that list change |
| `CampaignStore.Merge` | dnd-campaign-game/src/stores/campaignStore.ts:101-103 | `{ ...gameState, ...updates }`: each field the update supplies replaces the current one. The lemmas below state what it does: exactly the supplied fields change, it is idempotent, the empty update is the identity, and two updates compose into one |
| `CampaignStore.MergeOverwritesExactlySupplied` | dnd-campaign-game/src/stores/campaignStore.ts:100-104 | the shallow merge gives each supplied field the update's value and keeps every other field |
| `CampaignStore.MergeIdempotent` | dnd-campaign-game/src/stores/campaignStore.ts:100-104 | applying the same update twice equals applying it once |
| `CampaignStore.MergeEmpty` | dnd-campaign-game/src/stores/campaignStore.ts:100-104 | an update that supplies no field changes nothing |
| `CampaignStore.MergeCompose` | dnd-campaign-game/src/stores/campaignStore.ts:100-104 | two updates in a row are one update with the fields of both, the later winning |
| `CampaignStore.SnapshotSlot.constructor` | dnd-campaign-game/src/stores/campaignStore.ts:117 | the storage slot starts with the given saved state or none |
| `CampaignStore.Store.constructor` | dnd-campaign-game/src/stores/campaignStore.ts:22-43 | the initial state: no campaign, no scene, the empty game state, not loading, no error |
| `CampaignStore.Store.LoadCampaign` | dnd-campaign-game/src/stores/campaignStore.ts:45-70 | a load with a non-empty scene list sets campaign, first scene and the game state's two ids together and clears the error, other game-state fields unchanged; a failed load (not ok, rejected, or empty scenes) leaves campaign, scene and game state as they were and sets the matching message; loading is false afterwards |
| `CampaignStore.Store.TransitionToScene` | dnd-campaign-game/src/stores/campaignStore.ts:72-98 | without a campaign nothing changes; an unknown id only sets the not-found error; otherwise the first scene with that id and the game state's scene id change together, the scene left is recorded, and the error is kept |
| `CampaignStore.Store.UpdateGameState` | dnd-campaign-game/src/stores/campaignStore.ts:100-104 | the game state becomes the shallow merge; campaign, scene, loading flag and error are untouched |
| `CampaignStore.Store.SaveProgress` | dnd-campaign-game/src/stores/campaignStore.ts:106-113 | a successful write puts the whole game state in the slot; a failed one leaves the slot as it was and the store unchanged |
| `CampaignStore.Store.LoadProgress` | dnd-campaign-game/src/stores/campaignStore.ts:115-130 | no saved state changes nothing; a saved state replaces the game state; when it names a campaign that loads, the scene id is overwritten with the first scene's; a failed reload keeps the restored state and sets the error |
| `CampaignStore.Store.ResetCampaign` | dnd-campaign-game/src/stores/campaignStore.ts:132-153 | campaign, scene, game state and error return to their initial values; the loading flag is kept (so a second reset changes nothing) |
| `JsStrings.Trim` | dnd-campaign-game/src/services/promptParser.ts:24 | `trim()`: white space and line terminators removed from both ends; `TrimIsTrimmed` and `TrimIdempotent` state its properties |
| `JsStrings.Split` | dnd-campaign-game/src/services/promptParser.ts:16 | `split('\n')` gives at least one piece and no piece contains the separator; `JoinSplit` states that joining the pieces gives back the document |
| `JsStrings.IndexOfFrom` | dnd-campaign-game/src/services/promptParser.ts:27 | `indexOf` finds an occurrence and no earlier one exists, or reports that none exists |
| `JsStrings.ReplaceFirst` | dnd-campaign-game/src/services/promptParser.ts:28 | `replace` with a string pattern replaces only the first occurrence, or returns the string unchanged |
| `JsStrings.TrimIsTrimmed` | dnd-campaign-game/src/services/promptParser.ts:24 | `trim` leaves no white space at either end |
| `JsStrings.TrimIdempotent` | dnd-campaign-game/src/services/promptParser.ts:24 | trimming twice is trimming once |
| `JsStrings.JoinSplit` | dnd-campaign-game/src/services/promptParser.ts:16 | joining the pieces of `split('\n')` with the separator gives back the document |
| `JsStrings.DecimalRoundTrip` | dnd-campaign-game/src/services/promptParser.ts:79 | reading back the decimal rendering of an index gives the index |
| `JsStrings.NatToDecimal` | dnd-campaign-game/src/services/promptParser.ts:79 | `${promptCounter}` is a non-empty string of decimal digits without a leading zero; `DecimalRoundTrip` states that it reads back as the number |
| `PromptParser.CategoryKey` | dnd-campaign-game/src/services/promptParser.ts:75 | the folder key is a non-empty lower-case word, and it is `misc` exactly for a category outside the seven known ones |
| `PromptParser.LowerKept` | dnd-campaign-game/src/services/promptParser.ts:90-91 | what survives of a lower-cased character is only letters, digits and white space |
| `PromptParser.LowerStrip` | dnd-campaign-game/src/services/promptParser.ts:90-91 | lower-casing and stripping leave only `a-z`, `0-9` and white space |
| `PromptParser.LowerStripOfPlain` | dnd-campaign-game/src/services/promptParser.ts:90-91 | a title already in `a-z0-9` passes through unchanged |
| `PromptParser.AsciiLower` | dnd-campaign-game/src/services/promptParser.ts:90 | `toLowerCase` on an ASCII letter, digit or white space: A-Z move to a-z, everything else stays, and the result is kept by the strip |
| `PromptParser.LowerStripOfTitle` | dnd-campaign-game/src/services/promptParser.ts:90-91 | on ASCII letters, digits and white space nothing is dropped: the result has the same length and each character is the input character lowered |
| `PromptParser.CollapseWhitespace` | dnd-campaign-game/src/services/promptParser.ts:92 | collapsing white-space runs never lengthens the string and empties only the empty string |
| `PromptParser.CollapseWhitespaceClean` | dnd-campaign-game/src/services/promptParser.ts:92 | after stripping, collapsing leaves only letters, digits and `_`, never two `_` in a row, with a trailing `_` exactly when the text ended in white space |
| `PromptParser.CollapseOfPlain` | dnd-campaign-game/src/services/promptParser.ts:92 | a title without white space is left alone by the collapse |
| `PromptParser.CollapseSnocWord` | dnd-campaign-game/src/services/promptParser.ts:92 | a character that is not white space, added at the end, is copied to the end of the result |
| `PromptParser.CollapseSnocRun` | dnd-campaign-game/src/services/promptParser.ts:92 | white space added after white space extends the current run and adds nothing |
| `PromptParser.CollapseSnocSpace` | dnd-campaign-game/src/services/promptParser.ts:92 | white space added after a non-space starts a run and adds one `_` |
| `PromptParser.CollapseSingleSpace` | dnd-campaign-game/src/services/promptParser.ts:92 | a lone white-space character becomes `_` |
| `PromptParser.CollapseRun` | dnd-campaign-game/src/services/promptParser.ts:92 | a non-empty run of white space collapses to exactly one `_` |
| `PromptParser.CollapseAppend` | dnd-campaign-game/src/services/promptParser.ts:92 | collapsing two pieces that do not join two white-space runs is collapsing each piece and concatenating |
| `PromptParser.CollapseBetweenWords` | dnd-campaign-game/src/services/promptParser.ts:92 | a white-space run between two words becomes exactly one `_` between their collapses |
| `PromptParser.CleanTitle` | dnd-campaign-game/src/services/promptParser.ts:89-93 | the cleaned title has at most 50 characters, only `a-z`, `0-9` and `_`, and no two `_` in a row |
| `PromptParser.CleanTitleOfPlain` | dnd-campaign-game/src/services/promptParser.ts:89-93 | a plain `a-z0-9` title is kept, cut to its first 50 characters |
| `PromptParser.GenerateFilename` | dnd-campaign-game/src/services/promptParser.ts:88-96 | the file name is the category, `_`, a clean title of at most 50 characters, and `.png` |
| `PromptParser.TavernInteriorLowered` | dnd-campaign-game/src/services/promptParser.ts:90-91 | `Tavern Interior` lower-cases to `tavern interior` |
| `PromptParser.TavernInteriorCollapsed` | dnd-campaign-game/src/services/promptParser.ts:92 | `tavern interior` collapses to `tavern_interior` |
| `PromptParser.TavernInteriorFilename` | dnd-campaign-game/src/services/promptParser.ts:88-96 | the file name of the title `Tavern Interior` in folder `scenes` is `scenes_tavern_interior.png` |
| `PromptParser.CreateImagePrompt` | dnd-campaign-game/src/services/promptParser.ts:69-86 | the folder is the category's key (`misc` if unknown), the id is `<folder>_<index>`, category and title are kept, the text is trimmed, the file name comes from title and folder |
| `PromptParser.IdDeterminesFolderAndIndex` | dnd-campaign-game/src/services/promptParser.ts:79 | two ids built from lower-case folders are equal only when folder and index are |
| `PromptParser.IsCategoryHeader` | dnd-campaign-game/src/services/promptParser.ts:27 | the header test: the trimmed line starts with `## ` and contains `Generation Prompts` anywhere; `CategoryHeaderSetsCategory` states what such a line does to the scan |
| `PromptParser.HeaderCategory` | dnd-campaign-game/src/services/promptParser.ts:28 | the category taken from a header line has no white space at either end |
| `PromptParser.DigitRun` | dnd-campaign-game/src/services/promptParser.ts:33 | `\d+` consumes every leading digit and stops at the first non-digit |
| `PromptParser.DigitRunTo` | dnd-campaign-game/src/services/promptParser.ts:33 | the digit run ends at the first non-digit |
| `PromptParser.LazyTitleEnd` | dnd-campaign-game/src/services/promptParser.ts:33 | the lazy `(.*?)` stops at the first `**` with no line terminator before it, and fails when a line terminator comes first |
| `PromptParser.LazyTitleEndAt` | dnd-campaign-game/src/services/promptParser.ts:33 | the lazy group stops at a `**` that nothing before it pre-empts |
| `PromptParser.MatchNumberedHeading` | dnd-campaign-game/src/services/promptParser.ts:33 | a matching line starts with a digit |
| `PromptParser.MatchNumberedHeadingSound` | dnd-campaign-game/src/services/promptParser.ts:33 | every match has the shape digits, `.`, one white space, `**`, a shortest title, `**` |
| `PromptParser.TitleRunsToClose` | dnd-campaign-game/src/services/promptParser.ts:33 | in a line of the heading shape, no title character stops the lazy group early |
| `PromptParser.MatchNumberedHeadingComplete` | dnd-campaign-game/src/services/promptParser.ts:33 | every line of that shape matches with exactly that title |
| `PromptParser.ScanLine` | dnd-campaign-game/src/services/promptParser.ts:24-53 | one loop iteration on the trimmed line: a category header sets the category; a numbered heading under a category flushes the pending prompt and starts a new title; other text after a title is appended to the body; anything else changes nothing. The lemmas below state each case and the invariant it keeps |
| `PromptParser.Finish` | dnd-campaign-game/src/services/promptParser.ts:56-64 | after the loop the pending prompt is emitted only when it has a body, a title and a category; `ParseMarkdownWellFormed` states the shape of the result |
| `PromptParser.ParseMarkdown` | dnd-campaign-game/src/services/promptParser.ts:14-67 | `parsePromptsFromMarkdown`: the scan of the lines of `split('\n')` followed by the final flush; `ParseMarkdownWellFormed` and `ParsedIdsDistinct` state its properties, and the method `ParsePromptsFromMarkdown` is proved to compute it |
| `PromptParser.EmitPreserves` | dnd-campaign-game/src/services/promptParser.ts:36-42 | emitting a pending prompt keeps the output well formed, with the counter equal to the number emitted |
| `PromptParser.AppendLineTrimmed` | dnd-campaign-game/src/services/promptParser.ts:51-53 | appending a trimmed line with one space keeps the body trimmed |
| `PromptParser.ScanLinePreserves` | dnd-campaign-game/src/services/promptParser.ts:23-54 | every iteration keeps the loop invariant: counter equals prompts emitted, these are well formed, the body is trimmed |
| `PromptParser.ScanLinesPreserves` | dnd-campaign-game/src/services/promptParser.ts:23-54 | the whole loop keeps that invariant |
| `PromptParser.ParseMarkdownWellFormed` | dnd-campaign-game/src/services/promptParser.ts:14-67 | the k-th prompt of the output has index k in its id, a category, a title, a non-empty trimmed text, the category's folder and its derived file name |
| `PromptParser.ParsedIdsDistinct` | dnd-campaign-game/src/services/promptParser.ts:36-64 | no two parsed prompts share an id |
| `PromptParser.ParsePromptsFromMarkdown` | dnd-campaign-game/src/services/promptParser.ts:14-67 | the loop returns what the line-by-line scan followed by the final flush gives, a well-formed output |
| `PromptParser.HeaderLineRecognised` | dnd-campaign-game/src/services/promptParser.ts:27 | a `## <name> Generation Prompts` line is already trimmed and is taken as a category header |
| `PromptParser.StripHeaderMark` | dnd-campaign-game/src/services/promptParser.ts:28 | removing the first `## ` of a header line removes its leading marker |
| `PromptParser.SuffixFirstAfterGFree` | dnd-campaign-game/src/services/promptParser.ts:28 | when the name has no `G`, the first ` Generation Prompts` of `<name> Generation Prompts` is the one after the name (so this holds for each of the seven known category names; see `KnownCategoryHeader`) |
| `PromptParser.StripHeaderSuffix` | dnd-campaign-game/src/services/promptParser.ts:28 | when the first ` Generation Prompts` of `<name> Generation Prompts` is the one after the name, removing it leaves the name |
| `PromptParser.StandardHeaderCategory` | dnd-campaign-game/src/services/promptParser.ts:27-29 | a `## <name> Generation Prompts` line yields the name as the category, when the name is trimmed and the suffix first occurs after it |
| `PromptParser.KnownCategoryHeader` | dnd-campaign-game/src/services/promptParser.ts:27-29 | the header line of each of the seven known categories yields that category |
| `PromptParser.CategoryHeaderSetsCategory` | dnd-campaign-game/src/services/promptParser.ts:24-30 | any line that is a category header once trimmed sets the category to the name taken from it and changes nothing else in the scan state |
| `PromptParser.HeaderRelabels` | dnd-campaign-game/src/services/promptParser.ts:27-29 | a `## <name> Generation Prompts` line with a trimmed name that the suffix first follows sets the category to that name and changes nothing else |
| `PromptParser.NothingBeforeFirstHeader` | dnd-campaign-game/src/services/promptParser.ts:34 | before any category header the scan state stays initial: numbered headings there are ignored |
| `PromptParser.MarkupLineSkipped` | dnd-campaign-game/src/services/promptParser.ts:51 | a line starting with `**`, or with `#` without being a header, changes nothing |
| `PromptParser.EmptyPromptDropped` | dnd-campaign-game/src/services/promptParser.ts:36 | a heading with no body before the next heading emits nothing |
| `PromptParser.HeadingFlushes` | dnd-campaign-game/src/services/promptParser.ts:34-47 | a numbered heading emits the pending prompt, with title and body, under the current category and the next index |
| `PromptParser.PendingPromptTakesNextCategory` | dnd-campaign-game/src/services/promptParser.ts:26-47 | a pending prompt followed by a `## <name> Generation Prompts` header (name trimmed, non-empty, suffix first after it) and a numbered heading is emitted under the new category, not the one it started under |
| `PromptParser.TrimEach` | dnd-campaign-game/src/services/promptParser.ts:24 | each line trimmed, one for one |
| `PromptParser.BodyIsJoinedLines` | dnd-campaign-game/src/services/promptParser.ts:50-53 | a prompt's text is its body lines trimmed and joined with single spaces |
| `PromptParser.OfCategory` | dnd-campaign-game/src/services/promptParser.ts:116-119 | a group holds only prompts of its category, and every prompt of that category |
| `PromptParser.OfCategorySnoc` | dnd-campaign-game/src/services/promptParser.ts:119 | a prompt is pushed at the end of its own group only |
| `PromptParser.AbsentCategoryEmpty` | dnd-campaign-game/src/services/promptParser.ts:114-122 | a category no prompt has gets an empty group |
| `PromptParser.GroupMap` | dnd-campaign-game/src/services/promptParser.ts:115-121 | the `reduce` accumulator: each prompt pushed onto the array of its category, created when missing; `GroupMapKeys` and `GroupMapContents` state what it holds |
| `PromptParser.GroupMapKeys` | dnd-campaign-game/src/services/promptParser.ts:115-121 | the accumulator has a key exactly for each category that occurs |
| `PromptParser.GroupMapContents` | dnd-campaign-game/src/services/promptParser.ts:115-121 | each key's array is the prompts of that category in input order |
| `PromptParser.GetPromptsByCategory` | dnd-campaign-game/src/services/promptParser.ts:114-122 | one group per category occurring, each holding exactly that category's prompts in input order |
| `PromptParser.GroupSizesSnoc` | dnd-campaign-game/src/services/promptParser.ts:114-122 | a pushed prompt adds one to the total size of the groups of distinct categories containing its own |
| `PromptParser.GroupSizesPartition` | dnd-campaign-game/src/services/promptParser.ts:114-127 | the group sizes over the distinct categories sum to the number of prompts |
| `PromptParser.CategoryList` | dnd-campaign-game/src/services/promptParser.ts:126 | `map(p => p.category)`, one category per prompt in order |
| `PromptParser.GetCategories` | dnd-campaign-game/src/services/promptParser.ts:125-127 | the categories without duplicates, each occurring in the input and every occurring one present |
| `PromptParser.GetCategoriesSnoc` | dnd-campaign-game/src/services/promptParser.ts:126 | a new prompt adds its category at the end only when it is new |
| `PromptParser.GetCategoriesFirstAppearance` | dnd-campaign-game/src/services/promptParser.ts:125-127 | the categories come in order of first appearance |
| `ImageGeneration.CatalogueUniqueIds` | dnd-campaign-game/src/components/tools/ImageGenerationManager.tsx:37-121 | the ten ids of the hard-coded catalogue `Catalogue` (a constant) are distinct |
| `ImageGeneration.CatalogueSizesAgree` | dnd-campaign-game/src/components/tools/ImageGenerationManager.tsx:37-121 | each entry of `Catalogue` has the recommended size that the batch requests for its type |
| `ImageGeneration.FilteredPrompts` | dnd-campaign-game/src/components/tools/ImageGenerationManager.tsx:123-125 | `'all'` lists the whole catalogue; a type lists only catalogue prompts of that type |
| `ImageGeneration.FilteredPromptsComplete` | dnd-campaign-game/src/components/tools/ImageGenerationManager.tsx:123-125 | filtering by type drops no prompt of that type |
| `ImageGeneration.FilteredPromptsInOrder` | dnd-campaign-game/src/components/tools/ImageGenerationManager.tsx:123-125 | the listed prompts keep the catalogue order |
| `ImageGeneration.Toggled` | dnd-campaign-game/src/components/tools/ImageGenerationManager.tsx:127-135 | exactly the given id changes membership |
| `ImageGeneration.ToggleTwice` | dnd-campaign-game/src/components/tools/ImageGenerationManager.tsx:127-135 | toggling the same id twice restores the selection |
| `ImageGeneration.TypeIds` | dnd-campaign-game/src/components/tools/ImageGenerationManager.tsx:138-139 | every listed id belongs to a catalogue prompt of the type |
| `ImageGeneration.TypeIdsComplete` | dnd-campaign-game/src/components/tools/ImageGenerationManager.tsx:138-139 | every prompt of the type has its id listed |
| `ImageGeneration.IdSetMembers` | dnd-campaign-game/src/components/tools/ImageGenerationManager.tsx:144-146 | after `forEach` over the first `n` ids, exactly those ids have been added or deleted |
| `ImageGeneration.SelectAllByType` | dnd-campaign-game/src/components/tools/ImageGenerationManager.tsx:137-149 | when every id of the type is selected all are removed, otherwise all are added; every other id keeps its membership |
| `ImageGeneration.SelectAllByTypeAllOrNone` | dnd-campaign-game/src/components/tools/ImageGenerationManager.tsx:142-147 | afterwards either all or none of the type's ids are selected |
| `ImageGeneration.SelectAllByTypeKeepsOtherType` | dnd-campaign-game/src/components/tools/ImageGenerationManager.tsx:137-149 | the selection of each prompt of the other type is unchanged |
| `ImageGeneration.RequestOptions` | dnd-campaign-game/src/components/tools/ImageGenerationManager.tsx:185-188 | characters are requested at 1024x1792, backgrounds at 1792x1024, with the chosen quality and style |
| `ImageGeneration.SelectedInCatalogueOrder` | dnd-campaign-game/src/components/tools/ImageGenerationManager.tsx:164 | the batch holds only selected catalogue prompts |
| `ImageGeneration.SelectedComplete` | dnd-campaign-game/src/components/tools/ImageGenerationManager.tsx:164 | every selected catalogue prompt is in the batch |
| `ImageGeneration.SelectedFollowCatalogueOrder` | dnd-campaign-game/src/components/tools/ImageGenerationManager.tsx:164 | the batch follows the catalogue order, not the selection order |
| `ImageGeneration.FilterUniqueIds` | dnd-campaign-game/src/components/tools/ImageGenerationManager.tsx:164 | the batch has distinct ids |
| `ImageGeneration.BatchRequests` | dnd-campaign-game/src/components/tools/ImageGenerationManager.tsx:172-194 | the requests of the loop, one per batch prompt in order; `BatchRequestsShape` states what each carries |
| `ImageGeneration.ProgressLog` | dnd-campaign-game/src/components/tools/ImageGenerationManager.tsx:166-179 | the progress values set before and during the loop; `ProgressLogShape` states each one |
| `ImageGeneration.FinalStatus` | dnd-campaign-game/src/components/tools/ImageGenerationManager.tsx:201-208 | a processed prompt ends `completed` when its request succeeded and `error` when it threw |
| `ImageGeneration.ApplyOutcomes` | dnd-campaign-game/src/components/tools/ImageGenerationManager.tsx:172-209 | the statuses after the loop, each processed prompt set to its final status in order; `ApplyOutcomesStep` and `ApplyOutcomesResult` state what changes |
| `ImageGeneration.BatchRequestsShape` | dnd-campaign-game/src/components/tools/ImageGenerationManager.tsx:185-194 | the `i`-th request carries the `i`-th prompt's text and file name and the options for its type |
| `ImageGeneration.ProgressLogShape` | dnd-campaign-game/src/components/tools/ImageGenerationManager.tsx:166-179 | progress starts at 0 of the batch size with no title; at step `i` it is `i + 1` with the `i`-th title |
| `ImageGeneration.BatchStep` | dnd-campaign-game/src/components/tools/ImageGenerationManager.tsx:172-194 | one more step adds exactly its request and its progress value |
| `ImageGeneration.ApplyOutcomesStep` | dnd-campaign-game/src/components/tools/ImageGenerationManager.tsx:182-209 | one more step sets only that prompt's status, to completed or error |
| `ImageGeneration.ApplyOutcomesResult` | dnd-campaign-game/src/components/tools/ImageGenerationManager.tsx:182-209 | over distinct ids, each processed prompt ends with its own outcome's status and every other status is unchanged |
| `ImageGeneration.GenerationStatuses` | dnd-campaign-game/src/components/tools/ImageGenerationManager.tsx:164-213 | after a batch each selected prompt is completed or error by its outcome, and unselected statuses are unchanged |
| `ImageGeneration.ImageGenerationManager.constructor` | dnd-campaign-game/src/components/tools/ImageGenerationManager.tsx:24-37 | no key, nothing selected, no statuses, no progress, not generating, filter `'all'`, options 1024x1024/standard/vivid, the catalogue with distinct ids |
| `ImageGeneration.ImageGenerationManager.SetApiKey` | dnd-campaign-game/src/components/tools/ImageGenerationManager.tsx:260-264 | the key is replaced and nothing else changes |
| `ImageGeneration.ImageGenerationManager.SetQuality` | dnd-campaign-game/src/components/tools/ImageGenerationManager.tsx:289 | only the quality of the options changes |
| `ImageGeneration.ImageGenerationManager.SetStyle` | dnd-campaign-game/src/components/tools/ImageGenerationManager.tsx:300 | only the style of the options changes |
| `ImageGeneration.ImageGenerationManager.Listed` | dnd-campaign-game/src/components/tools/ImageGenerationManager.tsx:123-125 | the listed prompts are the catalogue under the current filter |
| `ImageGeneration.ImageGenerationManager.HandleSelectPrompt` | dnd-campaign-game/src/components/tools/ImageGenerationManager.tsx:127-135 | the selection becomes the toggled one and nothing else changes |
| `ImageGeneration.ImageGenerationManager.HandleSelectAllByType` | dnd-campaign-game/src/components/tools/ImageGenerationManager.tsx:137-149 | the `forEach` loops leave the selection of `SelectAllByType`, decided before any change, and nothing else changes |
| `ImageGeneration.ImageGenerationManager.RunBatch` | dnd-campaign-game/src/components/tools/ImageGenerationManager.tsx:166-210 | the loop sends each batch prompt's request in order, goes through the progress values, and leaves each processed status completed or error by outcome |
| `ImageGeneration.ImageGenerationManager.HandleGenerateSelected` | dnd-campaign-game/src/components/tools/ImageGenerationManager.tsx:151-214 | a blank key after trimming, then an empty selection, refuse with nothing changed and no request; otherwise the catalogue-ordered batch is requested with type sizes, statuses follow the outcomes, and generation ends with no progress |

## Left out

- The `fetch` of the campaign document and of the prompt file (`loadPrompts`), and `response.json()`. The fetched result is an input; `loadPrompts` is not modelled beyond `ParsePromptsFromMarkdown`.
- `localStorage`, `JSON.stringify` and `JSON.parse`. The slot holds a game state or nothing, and a save either succeeds or fails. A snapshot that fails to parse is not modelled: it would only be logged.
- The text of the TypeError raised when the scene list is empty is V8's wording (Chrome, Edge, Node). Other JavaScript engines word it differently, and the model fixes the one wording.
- `CampaignStore.Merge`: an update is a `GameStatePatch` whose fields are supplied or absent. A key explicitly set to `undefined`, which `{ ...gameState, ...updates }` would copy over the field, cannot be written; no caller passes one.
- The failure of `JSON.parse` in `loadProgress` and any error logged with `console.error`: logging has no effect on the state.
- Asynchrony. Each action runs to completion. The un-awaited `loadCampaign` inside `loadProgress` is modelled as completing before `loadProgress` returns. The one-second delay between images and overlapping batches are not modelled.
- The intermediate `isLoading = true` of a load is not visible: actions run to completion, so `isLoading` is false between them.
- The intermediate statuses `generating` and `downloading` are set and then overwritten within the same step. Only the final status of each step is visible to a later step.
- The HTTP client, the blob download and `saveImageBlob`. The outcome of one prompt's request, download and save together is `outcome(i)`.
- `alert` on a refused batch: only the refusal reason is returned.
- Transition triggers, requirements, conditions and consequences. They are declared by the document and evaluated nowhere.
- Relationship, clue, choice and time updates. The code has no implementation of them.
- Validation of a campaign document (unique scene ids, transition targets) is not modelled, because the code does no such validation.
- Numbers are unbounded integers. The float cost estimate and the progress-bar percentage of the component are display values and are left out.
- String lengths count Unicode scalar values, not UTF-16 code units. The only length that matters, the 50-character cut of a file name, is taken after everything but ASCII letters, digits and white space has been removed, so both counts agree there.
- `PromptParser.LowerKept` models `toLowerCase` only for characters whose lower case has a character in `a-z0-9\s`. Other characters lower-case into letters outside that set and are removed either way.
- A category name that is a key inherited by every JavaScript object (`constructor`, `toString`, ...) is treated as unknown: the prototype lookup in `createImagePrompt` and in the `reduce` accumulator of `getPromptsByCategory` is not modelled.
- `selectedType` is never changed by the component, so its filter stays `'all'`. The filter is still modelled for every value.
- The rendering of the components, the layout panels, the test-card viewer, the scene renderer and the campaign loader.
