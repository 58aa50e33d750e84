# EduConsult AI: client-profile bookkeeping, in Dafny

EduConsult AI is a browser application for a music school's consultants. It keeps
a list of client profiles (parents and adult students, with their courses,
lesson packages, tags and a free-text history), analyses chat screenshots and
messages through a hosted language model, writes after-class feedback and plans
school activities. This project models the bookkeeping under the screens and
proves what it promises:

- `App` — the application state: load the list from storage or fall back to the
  demonstration profiles, select, add, update, delete and save profiles, attach
  files, run an interaction analysis and write its history entry and tags back.
  Every handler is a method of `App.ProfileStore` proved against a step function
  on `App.StoreState`; the lemmas speak about the step functions.
- `ProfileForm` — the profile editor's patches: status changes with their lesson
  defaults, screenshots appended or removed, history entries, numeric fields,
  and the personality-analysis button.
- `TagSelector` — tag lists edited as insertion-ordered sets.
- `ProfileList` — search, tab filter and per-tab ordering of the side list, the
  status grouping of the export, and the one-line history preview.
- `ClassFeedback` — the after-class feedback panel: identity and audience
  loading, the age rule, metric editing and rating scales, generation, and
  writing the history and the configuration back.
- `ActivityPlanner` and `ActivityPlannerModal` — the gift and material
  inventories, "save the last plan" in the planning chat, and the single-profile
  planning dialog.
- `GeminiService` — the request side of the model service: data-URL stripping,
  the order of request parts, the input check, identity fallback and audience
  mode of the feedback prompt, and the truncated profile context of the planner.
- `Constants`, `Types`, `Strings` — the constant tables, the datatypes, and the
  JavaScript string operations the code relies on (`includes`, `trim`,
  `split`, `pop`, `parseInt`).

The model calls, the clock, the locale date, the file reader, local storage and
the confirmation dialog are parameters: a model answer is a
`GatewayResult` (`Reply(value)` or `Failure(message)`), a date is a string, a
confirmation is a boolean, and stored text is a `StoredValue` (absent, empty,
unparseable, or a parsed list).

## Model

| member | source | states |
|---|---|---|
| App.MockProfilesShape | App.tsx:11-137 | the demonstration list has four profiles with pairwise distinct ids, the first being "1" |
| App.MockProfiles | App.tsx:11-137 | the four demonstration profiles, their creation dates taken from the load time; MockProfilesShape states their shape |
| App.LoadProfiles | App.tsx:177-188 | the initial list is the parsed saved list, otherwise the demonstration list; LoadPersisted and LoadFallsBackToMock state both cases |
| App.InitialSelection | App.tsx:190 | a profile is selected at start exactly when the list is non-empty, and it is the first one |
| App.LoadPersisted | App.tsx:177-188 | a saved list loads back unchanged |
| App.LoadFallsBackToMock | App.tsx:177-188 | absent, empty or unparseable storage starts the application on the four demonstration profiles with "1" selected |
| App.NewProfileAsWritten | App.tsx:139-163 | as written, the new profile's creation date is the time the template was evaluated (module load) |
| App.Template | App.tsx:139-163 | `NEW_PROFILE_TEMPLATE` built at a given time; NewProfileDiffersOnlyInDate compares the as-written and corrected uses |
| App.AsWrittenAddDateIgnoresCreationTime | App.tsx:160 | as written, two profiles added at different later moments get the same creation date, and neither gets its own moment |
| App.NewProfile | App.tsx:225-232 | the corrected definition of the first Findings row: the new profile carries the new id, the name "新学员", the template defaults (REGULAR, PARENT, 16 lessons, empty tags and history) and the time it is added as creation date, where the source gives it the load time (App.tsx:160) |
| App.NewProfileDiffersOnlyInDate | App.tsx:139-163 | the corrected new profile and the one as written differ in nothing but the creation date |
| App.MergeEmpty | App.tsx:218-223 | an empty update changes no profile |
| App.Merge | App.tsx:221 | `{ ...p, ...updates }`: each key present in the update replaces the profile's value; MergeEmpty, MergeFull and MergeIdempotent state its laws |
| App.MergeFull | App.tsx:218-223 | spreading a whole profile over another yields exactly that profile |
| App.MergeIdempotent | App.tsx:218-223 | applying the same update twice equals applying it once |
| App.FindById | App.tsx:216 | the lookup finds a profile exactly when one carries the id, and it is the first such profile in the list |
| App.UpdateWhere | App.tsx:220-222 | every profile carrying the id receives the update, every other is kept, the length is unchanged |
| App.RemoveId | App.tsx:239 | the remaining profiles are exactly the old ones without the id; a list without the id is kept as is |
| App.RemoveIdSnoc | App.tsx:239 | the remaining profiles keep their list order and repetitions (append law: a profile appended at the end stays last unless it has the id) |
| App.RemoveAt | App.tsx:312-314 | removing by index shifts the later entries down by one; an out-of-range index leaves the list |
| App.RemoveIdShorter | App.tsx:239 | removing an id that some profile carries shortens the list |
| App.RemoveAtMultiset | App.tsx:312-314 | removing by index takes out exactly that one element |
| App.AppendHistory | App.tsx:371-376 | an empty history becomes the entry; otherwise the old history is a prefix, its lines come first and the entry's lines after them |
| App.AppendOneLine | App.tsx:336-341 | a one-line entry adds exactly one history line and becomes the last line |
| App.Dedup | App.tsx:348 | the set-spread keeps each value once and loses none |
| App.Fresh | App.tsx:348 | the suggested values not yet present, in order |
| App.DedupOfNoDup | App.tsx:348 | a list without repetitions is unchanged by the set-spread |
| App.UnionAppendsFresh | App.tsx:347-355 | the union keeps the existing tags first, in order, and appends each new suggestion once in order of first suggestion |
| App.UnionTags | App.tsx:347-355 | `[...new Set([...old, ...suggested])]`; UnionAppendsFresh states its order and UnionIdempotent its idempotence |
| App.FreshOfCovered | App.tsx:347-355 | suggestions already present contribute nothing |
| App.UnionIdempotent | App.tsx:347-355 | merging the same suggestions twice is merging them once |
| App.NoDupCountsOnce | App.tsx:347-355 | in a list without repetitions each present value is counted once |
| App.MergeSuggestedTags | App.tsx:346-356 | a field with a suggestion becomes `UnionTags` of its old list and the suggestion (the old list in order, then the new tags in first-suggested order, by UnionAppendsFresh), holding exactly old and suggested tags without repetition; a field without a suggestion keeps its list exactly; other fields are untouched |
| App.AfterAnalysisEffect | App.tsx:331-356 | a successful analysis keeps earlier history lines, adds the dated perspective entry as the last line, sets each of the three tag fields to the union of its old list and its suggestion (or keeps it without one), so old and suggested tags of all three are present, and touches nothing else |
| App.AfterAnalysis | App.tsx:331-356 | the analysed profile: the dated entry appended to the history, then the suggested tags merged; AfterAnalysisEffect states its effect |
| App.SuggestedTagOnce | App.tsx:347-349 | a suggested learning-state tag occurs exactly once afterwards, even when it was already there |
| App.AcceptedFiles | App.tsx:255-277 | exactly the image and PDF files are attached, each with its kind; nothing is attached when none qualifies |
| App.AcceptedFilesSnoc | App.tsx:255-277 | the accepted files keep the order in which they were given (append law) |
| App.ChatImages | App.tsx:327 | at most one payload per attachment, none holding a comma; none exactly when all attachments are PDFs |
| App.ChatImagesSnoc | App.tsx:327 | only image attachments are sent, each as its stripped payload, in the order of the attachments (append law) |
| App.UpdateSelectedKeepsOthers | App.tsx:218-223 | an update touches only the profiles carrying the selected id and no other part of the state |
| App.UpdateWithWholeProfile | App.tsx:218-223 | writing back a whole profile replaces every profile carrying the selected id by it |
| App.AddedProfileIsSelected | App.tsx:225-232 | the new profile (NewProfile, with the corrected creation date) is first in the list and selected, the rest of the list follows unchanged, inputs and result are cleared |
| App.DeleteRemovesSelected | App.tsx:234-246 | a confirmed deletion removes the selected profile's id, keeps all others, stores a list that loads back as shown and clears the selection; otherwise nothing changes |
| App.AnalyzeAsksModelOnlyWithInput | App.tsx:316-362 | the model is asked exactly when a profile is selected and both the application's and the service's input checks pass |
| App.AppInputPresent | App.tsx:319 | the application's input check (attachments, text not blank once trimmed, or screenshots); used by AnalyzeAsksModelOnlyWithInput |
| App.AnalyzeStep | App.tsx:316-362 | `handleAnalyze` as a state step with the model's answer as input; AnalyzeAsksModelOnlyWithInput, AnalyzeFailureKeepsProfiles and AnalyzeSuccessUpdatesProfile state its effect |
| App.UpdateSelectedStep | App.tsx:218-223 | `handleProfileUpdate` as a state step; UpdateSelectedKeepsOthers and UpdateWithWholeProfile state its effect |
| App.AddProfileStep | App.tsx:225-232 | `handleAddProfile` as a state step, dating the profile when it is added (the corrected date); AddedProfileIsSelected states its effect |
| App.DeleteStep | App.tsx:234-246 | `handleDeleteProfile` with the confirmation answer as input; DeleteRemovesSelected states its effect |
| App.SelectStep | App.tsx:432-436 | selecting a profile clears the inputs and the result; ProfileStore.Select is proved against it |
| App.SaveStep | App.tsx:204-208 | `handleSaveData` stores the current list; LoadPersisted states that it reads back |
| App.AttachStep | App.tsx:255-277 | `processInputFiles` as a state step; AcceptedFiles and AcceptedFilesSnoc state what is attached |
| App.RemoveFileStep | App.tsx:312-314 | `removeUploadedFile` as a state step; RemoveAt and RemoveAtMultiset state its effect |
| App.SaveToHistoryStep | App.tsx:367-378 | `handleSaveToHistory` as a state step; SaveToHistoryAppends states its effect |
| App.AnalyzeFailureKeepsProfiles | App.tsx:319-322 | without input, or when the model fails, the profiles and the result are kept and a non-empty error is shown |
| App.AnalyzeSuccessUpdatesProfile | App.tsx:329-362 | a successful analysis shows its result, clears the error and replaces the selected profile by its updated copy |
| App.FindAfterReplace | App.tsx:216-222 | after every profile carrying an id is replaced by one profile with that id, the lookup finds that profile |
| App.PdfOnlyFailsInService | App.tsx:319 | with only PDFs attached and no text or screenshot, the application's check passes but the service refuses with its own message and the profiles stay |
| App.SaveToHistoryAppends | App.tsx:367-378 | the selected profile's history gets the summary appended by the history rule; the list length is kept |
| App.UpdateThenSaveAsWritten | components/ClassFeedbackGenerator.tsx:193-215 | as written, the list stored after "update then save" is the list before the update |
| App.AsWrittenSaveLosesUpdate | App.tsx:204-208 | as written, whenever the update changes the selected profile, what a reload brings back differs from what is shown |
| App.UpdateThenSaveReloads | App.tsx:204-208 | corrected, a reload after "update then save" gives back the shown list, which holds the updated profile |
| App.UpdateThenSave | App.tsx:204-222 | the corrected "update then save" sequence; UpdateThenSaveReloads states that it reloads the updated list |
| App.ProfileStore.constructor | App.tsx:177-202 | the state at start is the loaded list, its first profile selected, empty inputs |
| App.ProfileStore.UpdateSelected | App.tsx:218-223 | the new state is the update step of the old one |
| App.ProfileStore.AddProfile | App.tsx:225-232 | the new state is the add step of the old one, with the corrected creation date |
| App.ProfileStore.DeleteSelected | App.tsx:234-246 | the new state is the delete step of the old one for the user's answer |
| App.ProfileStore.ClearInputs | App.tsx:248-253 | attachments, text and error are cleared and the perspective is back to the parent's |
| App.ProfileStore.Select | App.tsx:432-436 | the new state selects the id, clears the result and the inputs |
| App.ProfileStore.SaveData | App.tsx:204-208 | the stored value becomes the current list |
| App.ProfileStore.AttachFiles | App.tsx:255-277 | accepted files are appended and the result and error cleared; nothing happens when none is accepted |
| App.ProfileStore.RemoveUploadedFile | App.tsx:312-314 | the attachment at the index is removed |
| App.ProfileStore.Analyze | App.tsx:316-362 | the new state and the "model asked" flag are those of the analysis step |
| App.ProfileStore.SaveToHistory | App.tsx:367-378 | the new state is the history step of the old one |
| ProfileForm.StatusChangePatch | components/ProfileForm.tsx:30-44 | the patch sets the status; one trial lesson exactly when entering TRIAL without trial lessons; 16 lessons and the standard package exactly when entering REGULAR with none left; nothing else |
| ProfileForm.StatusChangeEffect | components/ProfileForm.tsx:30-44 | after the change the status is the new one, TRIAL has trial lessons, REGULAR has lessons, non-zero counts are never overwritten, and other changes write only the status |
| ProfileForm.ImageUrls | components/ProfileForm.tsx:46-62 | the image files' data URLs; none exactly when no file is an image |
| ProfileForm.ImageUrlsKeepsImages | components/ProfileForm.tsx:47 | an image file's URL is taken in its place: after the images before it and before the images after it |
| ProfileForm.ProcessFilesPatch | components/ProfileForm.tsx:46-62 | no update without images; otherwise the screenshots become the current ones followed by the new images, and nothing else is written |
| ProfileForm.ProcessFilesAppends | components/ProfileForm.tsx:58-61 | every existing screenshot stays in place and at least one, at most one per file, is added |
| ProfileForm.RemoveImagePatch | components/ProfileForm.tsx:96-100 | the update writes only the screenshot list without the element at the index |
| ProfileForm.RemoveImageEffect | components/ProfileForm.tsx:96-100 | exactly that screenshot is removed and the others keep their order; an out-of-range index keeps the list |
| ProfileForm.ActivityHistoryPatch | components/ProfileForm.tsx:114-117 | `handleSaveActivityToHistory`, which nothing in the source calls, so no user action reaches it; only the history is written: the summary for an empty history, otherwise the old lines followed by the summary's lines |
| ProfileForm.ActivityHistoryMatchesStore | components/ProfileForm.tsx:114-117 | the form's history append and the application's give the same profile |
| ProfileForm.LessonFieldPatch | components/ProfileForm.tsx:529 | a lesson field edit writes only that field, with the value of `parseInt(text) \|\| 0` read as decimal text (see Strings.ParseIntOrZero under Left out) |
| ProfileForm.LessonFieldReadsBack | components/ProfileForm.tsx:529-548 | typing the decimal text of any count stores that count, and text without digits stores 0 |
| ProfileForm.PersonalityPanel.constructor | components/ProfileForm.tsx:21 | the button starts idle |
| ProfileForm.PersonalityPanel.TriggerPersonalityAnalysis | components/ProfileForm.tsx:102-112 | an answer replaces the selected profile's analysis; an error or no selection raises an alert and changes nothing; the busy flag ends false |
| ProfileForm.PersonalityResultReplacesAnalysis | components/ProfileForm.tsx:106 | the analysis of the selected profile(s) is replaced and every other profile is kept |
| TagSelector.RemoveAll | components/TagSelector.tsx:14 | every occurrence of the tag is removed and every other tag kept |
| TagSelector.RemoveAllSnoc | components/TagSelector.tsx:14 | the remaining tags keep their order and repetitions (append law) |
| TagSelector.RemoveAllKeepsNoDup | components/TagSelector.tsx:14 | removing keeps a list without repetitions |
| TagSelector.Toggle | components/TagSelector.tsx:12-18 | a selected tag is removed everywhere, the rest being the filtered list (in order, by RemoveAllSnoc); any other tag is appended at the end |
| TagSelector.ToggleKeepsNoDup | components/TagSelector.tsx:12-18 | toggling keeps a list without repetitions |
| TagSelector.ToggleTwice | components/TagSelector.tsx:12-18 | toggling an unselected tag twice restores the list; a selected one moves to the end |
| TagSelector.RemoveAllAppended | components/TagSelector.tsx:12-18 | removing a just-appended tag restores the list |
| TagSelector.CustomChips | components/TagSelector.tsx:47 | the custom chips are exactly the selected tags that are not offered options |
| TagSelector.EverySelectedTagShown | components/TagSelector.tsx:47 | every selected tag is shown, as an option or as a custom chip |
| TagSelector.CustomChipsAppend | components/TagSelector.tsx:47 | selecting one more tag keeps the earlier chips and appends the tag when it is not an offered option |
| TagSelector.TagInput.constructor | components/TagSelector.tsx:20 | the free-text entry starts empty |
| TagSelector.TagInput.AddCustom | components/TagSelector.tsx:22-27 | a non-empty entry that is not yet selected is appended once and the entry cleared; otherwise nothing is emitted and the entry kept |
| TagSelector.AppendFreshKeepsNoDup | components/TagSelector.tsx:22-27 | what the custom entry emits has no repetitions when the selection had none |
| ProfileList.FilteredProfiles | components/ProfileList.tsx:18-26 | exactly the profiles of the tab matching the search, each as often as in the list |
| ProfileList.FilteredProfilesSnoc | components/ProfileList.tsx:18-26 | the filtered profiles keep list order (append law) |
| ProfileList.MatchesSearch | components/ProfileList.tsx:20-23 | the search matches the name, the child's name or the course; FilteredProfiles and EmptySearchListsWholeTab use it |
| ProfileList.SortKey | components/ProfileList.tsx:28-41 | the key the tab sorts by: lessons left, trial lessons left (missing is 0), or creation time descending; ShownProfilesOrder states the order per tab |
| ProfileList.ShownProfiles | components/ProfileList.tsx:18-41 | the filtered profiles sorted by the tab's key; ShownProfilesOrder states its content and order |
| ProfileList.EmptySearchListsWholeTab | components/ProfileList.tsx:18-26 | with an empty search every profile of the tab is listed |
| ProfileList.Insert | components/ProfileList.tsx:28-41 | inserting keeps the list sorted by the tab's key and adds exactly the one profile |
| ProfileList.SortedProfiles | components/ProfileList.tsx:28-41 | the sorted copy is ordered by the tab's key and is a permutation of the filtered list |
| ProfileList.ShownProfilesOrder | components/ProfileList.tsx:18-41 | shown are exactly the tab's matching profiles; REGULAR ascends by lessons left, TRIAL by trial lessons left (missing counts as 0), LEAD and CHURNED descend by creation date |
| ProfileList.TabLabelsNameStatuses | components/ProfileList.tsx:43-51 | tab labels are distinct and, with "学员" appended, are the status names used as export headings |
| ProfileList.TabLabel | components/ProfileList.tsx:43-51 | `getTabLabel`; TabLabelsNameStatuses states its labels |
| ProfileList.WithStatus | components/ProfileList.tsx:64 | exactly the profiles with the status |
| ProfileList.GroupOf | components/ProfileList.tsx:64-65 | a status gives one non-empty group of its profiles, or none when it has no profile |
| ProfileList.ExportGroups | components/ProfileList.tsx:53-57 | an empty list exports nothing (an alert instead); any other list exports |
| ProfileList.ExportGroupsPartition | components/ProfileList.tsx:60-66 | the groups come in the order REGULAR, TRIAL, LEAD, CHURNED without empty ones, and each profile is in exactly one group, its status's |
| ProfileList.StatusCountsAddUp | components/ProfileList.tsx:60-66 | the four groups together are as large as the list |
| ProfileList.HistoryPreview | components/ProfileList.tsx:249-253 | a preview is shown exactly when there is a history and no other-package note; it is a line-free suffix of the history |
| ProfileList.PreviewShowsLatestEntry | components/ProfileList.tsx:251 | after a one-line entry is appended, the preview shows that entry |
| ClassFeedback.ModeForAge | components/ClassFeedbackGenerator.tsx:91-103 | 18 and over is ADULT, 12 to 17 TEEN, below 12 CHILD |
| ClassFeedback.ModeForAgeMonotone | components/ClassFeedbackGenerator.tsx:91-103 | an older student never gets a younger audience mode |
| ClassFeedback.Loaded | components/ClassFeedbackGenerator.tsx:42-88 | a saved mode wins over the age rule, saved metrics over the course defaults when non-empty; the age is the adult's or child's age or 0; the gender is never empty |
| ClassFeedback.AfterAgeEffect | components/ClassFeedbackGenerator.tsx:91-103 | a changed positive age sets the mode by the age rule; nothing else changes |
| ClassFeedback.SavedModeAndAgeEffect | components/ClassFeedbackGenerator.tsx:50-103 | a saved mode stays shown only when the age is unchanged or not positive; otherwise the age rule replaces it |
| ClassFeedback.ServiceUsesPanelIdentity | services/geminiService.ts:390-395 | the identity the service resolves from the panel's fields is the panel's, with "学员" for an empty name |
| ClassFeedback.SetMetricField | components/ClassFeedbackGenerator.tsx:105-110 | only the chosen field of the chosen metric changes; out of range nothing does |
| ClassFeedback.ApplyScaleTo | components/ClassFeedbackGenerator.tsx:133-140 | the metric takes the scale as options and its first entry as value, keeping id and name; other metrics unchanged |
| ClassFeedback.ApplyScaleWellFormed | components/ClassFeedbackGenerator.tsx:133-140 | after a scale is applied the value is one of the options |
| ClassFeedback.EditsKeepMetricsWellFormed | components/ClassFeedbackGenerator.tsx:105-140 | edits, scales, additions and removals keep every value among its metric's options |
| ClassFeedback.DefaultsWellFormed | constants.ts:55-96 | the panel's default metrics are well formed |
| ClassFeedback.SentFeedbackLines | components/ClassFeedbackGenerator.tsx:183-186 | saving a sent feedback adds an empty line, the dated heading, then the text's lines |
| ClassFeedback.SentFeedbackSummary | components/ClassFeedbackGenerator.tsx:185 | the sent-feedback history entry, starting with a line break; SentFeedbackLines states its lines |
| ClassFeedback.GeneratedSummary | components/ClassFeedbackGenerator.tsx:166 | the history entry of a generated feedback; FeedbackPanel.Generate states when it is saved |
| ClassFeedback.ConfigPatch | components/ClassFeedbackGenerator.tsx:193-209 | the identity goes to the adult's or the child's fields, the course and the whole configuration are written, nothing else |
| ClassFeedback.SaveConfigRoundTrip | components/ClassFeedbackGenerator.tsx:42-88 | loading a profile after its configuration was saved restores the panel (empty gender reads "未知", empty metrics the course defaults) |
| ClassFeedback.FeedbackPanel.constructor | components/ClassFeedbackGenerator.tsx:16-103 | mounting loads the profile and applies the age effect from age 0 |
| ClassFeedback.FeedbackPanel.ProfileChanged | components/ClassFeedbackGenerator.tsx:42-103 | the panel reloads only when the profile id changes, then applies the age effect; lesson text and results are kept |
| ClassFeedback.FeedbackPanel.Reload | components/ClassFeedbackGenerator.tsx:42-103 | the shown fields become the loaded profile's, after the age effect from the age shown before; nothing else changes |
| ClassFeedback.FeedbackPanel.SetStudentAge | components/ClassFeedbackGenerator.tsx:91-103 | a different positive age sets the mode by the age rule |
| ClassFeedback.FeedbackPanel.MetricChange | components/ClassFeedbackGenerator.tsx:105-110 | the metrics become the edited list |
| ClassFeedback.FeedbackPanel.AddMetric | components/ClassFeedbackGenerator.tsx:112-114 | one blank metric with the given id is appended |
| ClassFeedback.FeedbackPanel.RemoveMetric | components/ClassFeedbackGenerator.tsx:116-118 | the metric at the index is removed |
| ClassFeedback.FeedbackPanel.ApplyScale | components/ClassFeedbackGenerator.tsx:133-140 | the metrics become the list with the scale applied |
| ClassFeedback.FeedbackPanel.Generate | components/ClassFeedbackGenerator.tsx:142-175 | blank content is refused with its message; an answer is shown and, with variations, its dated summary added to the history; a failure shows the service's message, or the fixed "生成失败，请重试" when that is empty, and keeps the result and the profiles; the other inputs (homework, profile id, panel settings) are unchanged |
| ClassFeedback.FeedbackPanel.SaveFeedback | components/ClassFeedbackGenerator.tsx:183-190 | the sent text goes to the history and the corrected save stores the updated list (the source stores the list from before the update; see Findings) |
| ClassFeedback.FeedbackPanel.SaveConfig | components/ClassFeedbackGenerator.tsx:193-215 | the configuration patch goes to the selected profile and the corrected save stores the updated list (the source stores the list from before the update; see Findings) |
| GeminiService.StripDataUrl | services/geminiService.ts:160 | the result has no comma, and text without a comma is kept |
| GeminiService.StripDataUrlOfHeaderAndPayload | services/geminiService.ts:160 | a data URL loses exactly its header |
| GeminiService.StripDataUrlKeepsSecondPiece | services/geminiService.ts:160 | whatever follows a second comma is dropped |
| GeminiService.StripDataUrlIdempotent | services/geminiService.ts:172 | stripping twice is stripping once |
| GeminiService.ImageParts | services/geminiService.ts:159-167 | one JPEG part per image, in order, each stripped |
| GeminiService.ScreenshotParts | services/geminiService.ts:171-181 | screenshot parts are JPEG parts with non-empty data, at most one per screenshot |
| GeminiService.ScreenshotPartsOne | services/geminiService.ts:172-179 | one screenshot gives its stripped part, or nothing when the stripped data is empty |
| GeminiService.ScreenshotPartsConcat | services/geminiService.ts:171-181 | the parts keep the order of the screenshots: parts of a concatenation are the concatenated parts |
| GeminiService.ScreenshotPartsAt | services/geminiService.ts:171-181 | a screenshot's part sits after the parts of the screenshots before it and before those after it |
| GeminiService.ScreenshotPartsFilter | services/geminiService.ts:173 | every screenshot with data after stripping has its part; none is dropped when all have data (its place is given by ScreenshotPartsAt) |
| GeminiService.ScreenshotPartsKeepAll | services/geminiService.ts:172-179 | when every screenshot has data after stripping, the parts number exactly as many as the screenshots |
| GeminiService.InteractionPartsOrder | services/geminiService.ts:156-182 | the prompt first, chat image i at position 1+i, and after all chat images exactly the screenshot parts, in screenshot order |
| GeminiService.InteractionParts | services/geminiService.ts:156-182 | the parts of an interaction request; InteractionPartsOrder states their order and BuildInteractionParts is proved against it |
| GeminiService.InteractionInputPresent | services/geminiService.ts:184 | the service's untrimmed input check; AnalyzeInteraction and PdfOnlyFailsInService use it |
| GeminiService.PushImageParts | services/geminiService.ts:159-167 | pushing one part per image appends exactly the stripped image parts, in order |
| GeminiService.PushScreenshotParts | services/geminiService.ts:171-180 | pushing the screenshots appends exactly the filtered screenshot parts, in order |
| GeminiService.BuildInteractionParts | services/geminiService.ts:156-182 | the pushed parts are the specified parts sequence |
| GeminiService.BuildPersonalityParts | services/geminiService.ts:329-349 | the pushed parts are the prompt, the profile images then the chat images, none dropped |
| GeminiService.PersonalityParts | services/geminiService.ts:329-349 | the parts of a personality request; BuildPersonalityParts is proved against it |
| GeminiService.AnalyzeInteraction | services/geminiService.ts:184-186 | the model is asked exactly when some chat image, text or screenshot is given; otherwise the fixed error |
| GeminiService.ResolveIdentity | services/geminiService.ts:390-395 | each identity field is the override, else the profile's value, else "学员", 0 or "未知" |
| GeminiService.ProfileIsAdult | services/geminiService.ts:390 | an adult-student type or an age of at least 18; ResolveIdentity uses it |
| GeminiService.SelectModeInstruction | services/geminiService.ts:398-414 | an override chooses CHILD, TEEN or ADULT wording; without one adulthood decides |
| GeminiService.ProfileContextLines | services/geminiService.ts:567-569 | one context line per profile, in order |
| GeminiService.ProfileContextLine | services/geminiService.ts:567-569 | the context line of one profile; ProfileContextLines states one per profile |
| GeminiService.ProfileContext | services/geminiService.ts:579 | the context is a prefix of the joined lines, all of them when they fit in 3000 characters, exactly 3000 otherwise (characters are code points; see Left out) |
| Constants.TotalLessonsIncreaseWithTier | constants.ts:7-12 | a higher package tier gives strictly more lessons |
| Constants.PackageLabelMatchesData | constants.ts:7-12 | each package's label names the package and exactly its lessons and bonus |
| Constants.PackageData | constants.ts:7-12 | `PACKAGE_DATA`, unit prices in tenths; PackageLabelMatchesData and TotalLessonsIncreaseWithTier state its properties |
| Constants.RatingScale | constants.ts:27-38 | every rating scale is non-empty, so its first entry exists |
| Constants.RatingScaleLabel | constants.ts:41-52 | every scale key has a non-empty label |
| Constants.DefaultMetricsWellFormed | constants.ts:55-96 | every course has non-empty defaults whose values are among their options and whose ids are distinct |
| Constants.DefaultMetrics | constants.ts:55-96 | `DEFAULT_PERFORMANCE_METRICS` per course; DefaultMetricsWellFormed states its properties |
| Constants.ThemeListsNonEmpty | constants.ts:99-105 | both theme lists have a first entry |
| Strings.SplitAppend | App.tsx:336-341 | lines before an appended separator are kept as they were |
| Strings.Split | components/ProfileList.tsx:251 | `split('\n')`: at least one piece and no piece holds the separator; SplitAppend and LastPieceIsSuffix state its laws |
| Strings.IsBlank | App.tsx:319 | `!s.trim()`: every character is JavaScript white space |
| Strings.ParseIntOrZero | components/ProfileForm.tsx:529 | `parseInt(s) \|\| 0` on decimal text: leading white space, an optional sign and the leading digits, or 0 without digits; ParseIntOfIntToString and ParseIntWithoutDigits state its laws (hexadecimal text and values beyond 2^53 are under Left out) |
| Strings.LastPieceIsSuffix | components/ProfileList.tsx:251 | the last piece of a split has no separator and ends the text |
| Strings.ParseIntOfIntToString | components/ProfileForm.tsx:529 | reading back the decimal text of an integer gives it |
| Strings.ParseIntWithoutDigits | components/ProfileForm.tsx:529 | text without digits reads as 0 |
| ActivityPlanner.FixedTwo | components/ActivityPlanner.tsx:178 | `toFixed(2)` text ends with a point and two digits; its value is stated by FixedTwoReadsBack |
| ActivityPlanner.FixedTwoReadsBack | components/ActivityPlanner.tsx:178 | `toFixed(2)` text has a minus sign exactly for a negative amount, then digits, a point and two digits, which read as one number without the point give back the amount in cents |
| ActivityPlanner.WholeAmountText | components/ActivityPlanner.tsx:178 | a whole amount prints as its integer and its `toFixed(2)` ends in ".00" |
| ActivityPlanner.NumberText | components/ActivityPlanner.tsx:179 | `String(amount)` of an amount in cents; WholeAmountText states the whole case |
| ActivityPlanner.PriceText | components/ActivityPlanner.tsx:179 | `suggestedPrice \|\| '?'`: a missing or zero price shows a question mark; NoNewlineInAmounts keeps it single-line |
| ActivityPlanner.CostText | components/ActivityPlanner.tsx:179 | `totalCost.toFixed(2)`, or a question mark without an analysis; FixedTwo states its digits |
| ActivityPlanner.WithItems | components/ActivityPlanner.tsx:187-191 | replacing one inventory keeps the other and the price settings |
| ActivityPlanner.AddItemEffect | components/ActivityPlanner.tsx:184-194 | adding is refused exactly when name or price text is empty; otherwise one item is appended to the chosen list only |
| ActivityPlanner.AddItemStep | components/ActivityPlanner.tsx:184-194 | `addItem` on the configuration; AddItemEffect, RemoveUndoesAdd and DuplicatesAccepted state its effect |
| ActivityPlanner.RemoveItemStep | components/ActivityPlanner.tsx:196-201 | `removeItem` on the configuration; RemoveItemEffect states its effect |
| ActivityPlanner.RemoveUndoesAdd | components/ActivityPlanner.tsx:184-201 | removing the item just added restores the configuration |
| ActivityPlanner.DuplicatesAccepted | components/ActivityPlanner.tsx:184-194 | the same entry added twice is listed twice |
| ActivityPlanner.RemoveItemEffect | components/ActivityPlanner.tsx:196-201 | removal takes exactly that item from the chosen list only; out of range nothing changes |
| ActivityPlanner.InventoryEditor.constructor | components/ActivityPlanner.tsx:166-167 | both inputs start empty |
| ActivityPlanner.InventoryEditor.AddItem | components/ActivityPlanner.tsx:184-194 | the configuration takes the add step; an accepted item clears its own input only |
| ActivityPlanner.InventoryEditor.RemoveItem | components/ActivityPlanner.tsx:196-201 | the configuration takes the remove step |
| ActivityPlanner.Reversed | components/ActivityPlanner.tsx:176 | the reversed copy holds message i at position n-1-i |
| ActivityPlanner.FirstPlan | components/ActivityPlanner.tsx:176 | the plan of the first message carrying one, or none exactly when no message has one |
| ActivityPlanner.LastPlanIsLatest | components/ActivityPlanner.tsx:175-177 | the lookup finds the plan of the latest message carrying one, and none exactly when no message does |
| ActivityPlanner.LastPlan | components/ActivityPlanner.tsx:176 | `[...chat].reverse().find(m => m.plan)`; LastPlanIsLatest states that it is the latest plan |
| ActivityPlanner.LastPlanAfterMessage | components/ActivityPlanner.tsx:175-177 | a new message with a plan becomes the one saved; one without leaves the choice |
| ActivityPlanner.SaveLastPlan | components/ActivityPlanner.tsx:175-182 | a summary is saved exactly when some message has a plan, and it is the latest plan's |
| ActivityPlanner.LastPlanSummaryLines | components/ActivityPlanner.tsx:179 | the summary is three lines: dated theme, price, cost |
| ActivityPlanner.NoNewlineInAmounts | components/ActivityPlanner.tsx:179 | the price and cost texts are single-line |
| ActivityPlannerModal.Themes | components/ActivityPlannerModal.tsx:21-25 | every category offers at least one theme |
| ActivityPlannerModal.InstructionsDetermineChoice | components/ActivityPlannerModal.tsx:31 | the request names the chosen category and theme unambiguously |
| ActivityPlannerModal.Instructions | components/ActivityPlannerModal.tsx:31 | the request text naming category and theme; InstructionsDetermineChoice states that it determines both |
| ActivityPlannerModal.SaveSummaryLines | components/ActivityPlannerModal.tsx:51 | the saved summary is two lines: dated theme and renewal mechanism |
| ActivityPlannerModal.SaveSummary | components/ActivityPlannerModal.tsx:51 | the saved summary text; SaveSummaryLines states its two lines |
| ActivityPlannerModal.PlannerDialog.constructor | components/ActivityPlannerModal.tsx:14-18 | the dialog opens on the first festival with no plan and no error |
| ActivityPlannerModal.PlannerDialog.CategoryChange | components/ActivityPlannerModal.tsx:21-25 | the theme becomes the category's first and the plan is cleared |
| ActivityPlannerModal.PlannerDialog.SelectTheme | components/ActivityPlannerModal.tsx:93 | a theme of the category is chosen |
| ActivityPlannerModal.PlannerDialog.Generate | components/ActivityPlannerModal.tsx:27-39 | the request names the chosen category and a theme of that category (the dialog stays valid); an answer replaces the plan and clears the error, a failure keeps the plan and shows the fixed message; not busy afterwards |
| ActivityPlannerModal.PlannerDialog.Save | components/ActivityPlannerModal.tsx:49-55 | without a plan nothing happens; with one its summary is handed over once and the dialog closes |

## Left out

- The model calls themselves (`generateContent`), prompt wording, response schemas and JSON parsing of answers: answers are `GatewayResult` inputs. The API key check (services/geminiService.ts:6-10) is left out: the model assumes a configured key. In the source, `analyzeInteraction` asks for the client (services/geminiService.ts:19) before its input check (:184), so without a key and without input it throws "API Key not found" rather than the no-input message that GeminiService.AnalyzeInteraction and App.PdfOnlyFailsInService give.
- api/gemini.js is not part of this model: it is an HTTP proxy.
- Local storage and JSON: storage is a `StoredValue`; a saved list is modelled as parsing back to itself.
- `FileReader`, `Promise.all`, drag, drop, paste and clipboard: the files arrive as (MIME type, data URL) pairs.
- Asynchronous interleaving: every handler runs to completion at once, so the race between the profile read before `await` and the write after it (App.tsx:317-358) is not modelled.
- The clock and the locale date: ids, creation times and date texts are parameters.
- React rendering, toasts, timers, menus and `confirm()` (a boolean input).
- Export rendering: html2canvas, jsPDF, Word HTML and the HTML of the all-profiles export. Only the grouping order is modelled.
- Floating-point money: prices and costs are integers in cents, and `parseFloat` of a price is given as a parameter. The maximum-cost display of the planner is left out.
- The age and child-age fields of the profile form store `parseInt(text)` without a fallback, which can be NaN. Integers have no NaN, so these two edits are not modelled.
- App.ChatImages: the application's `split(',')[1]` yields `undefined` for data without a comma. Data URLs always hold one, so the model uses the service's stripping, which keeps such data as it is.
- ClassFeedback.FeedbackPanel.MetricChange: the source edits the metric objects in place. Those objects are shared with the configuration saved before, so the edit reaches the saved profile in memory before any save. The model copies by value.
- ProfileList.SortedProfiles: states order and permutation, not which of two equal keys comes first. The stable order of `Array.prototype.sort` is not claimed.
- The personality analysis request: the parts are modelled (`BuildPersonalityParts`), but the context App.tsx gathers for it (App.tsx:381-394) is passed to the model and not modelled further.
- The plan's cost breakdown, the SOP and the copy buttons of the plan view are display only.
- App.AddProfileStep: dates the new profile at the moment it is added (App.NewProfile), i.e. the corrected creation date of the first Findings row. As written, `NEW_PROFILE_TEMPLATE.addDate` is the load time (App.tsx:160); that profile is App.NewProfileAsWritten, and App.AsWrittenAddDateIgnoresCreationTime exhibits the difference.
- App.ProfileStore.AddProfile: uses App.AddProfileStep, so it adds the profile with the corrected creation date, not the load time.
- App.AddedProfileIsSelected: states the effect of the corrected add step, so the selected profile's creation date is the time it was added, not the load time.
- Strings.ParseIntOrZero: reads decimal text only, with exact integers. JavaScript's `parseInt` reads a `0x`/`0X` prefix after the sign as hexadecimal (`parseInt("0x1A")` is 26, the model gives 0), and it rounds values beyond 2^53 to the nearest double (`"9007199254740993"` gives 9007199254740992, the model keeps the exact value). The lesson fields are `type="number"` inputs (components/ProfileForm.tsx:527-529, 545-548), which do not yield hexadecimal text, but a long digit string can arrive.
- ClassFeedback.FeedbackPanel.SaveFeedback: stores the list with the update applied, i.e. the corrected save of the second Findings row. As written, the source stores the list from before the update (App.tsx:204-208); that behaviour is modelled and exhibited by App.UpdateThenSaveAsWritten and App.AsWrittenSaveLosesUpdate.
- ClassFeedback.FeedbackPanel.SaveConfig: stores the list with the configuration applied, i.e. the corrected save, for the same reason as SaveFeedback; the as-written loss is App.AsWrittenSaveLosesUpdate.
- ClassFeedback.FeedbackPanel.SetStudentAge: takes an integer. The source stores `parseInt` of the field (components/ClassFeedbackGenerator.tsx:272), which is NaN for an empty or non-numeric field; integers have no NaN, so that edit is not modelled.
- GeminiService.ProfileContext: a Dafny `char` is a Unicode scalar value, so the model truncates to 3000 code points. `slice(0, 3000)` counts UTF-16 code units: with characters outside the Basic Multilingual Plane the source keeps fewer characters and can cut a surrogate pair in half.

## Findings

| source | as written | input that shows it | evidently intended | confidence | as-written member | corrected member |
|---|---|---|---|---|---|---|
| App.tsx:160 | `NEW_PROFILE_TEMPLATE.addDate` is `Date.now()` in a module-level constant, evaluated once at load, so every added profile gets the load time as creation date | load at time 1000, add profiles at 2000 and 3000: both show creation date 1000 | each new profile is dated when it is added (the LEAD and CHURNED tabs sort by this date) | medium, not executed | App.AsWrittenAddDateIgnoresCreationTime | App.NewProfile |
| App.tsx:204-208 | `handleSaveData` stores the `profiles` of the render that created it; the feedback panel calls it right after an update (components/ClassFeedbackGenerator.tsx:186-187, 211-212), so the list before the update is stored | save a feedback configuration, then reload: the configuration is gone | the update is stored together with the save | medium, not executed | App.AsWrittenSaveLosesUpdate | App.UpdateThenSaveReloads |
