# AI video-generation MVP — verified model of the core

This project models, in Dafny, the logic of an AI video-generation MVP: a
NestJS API that turns course scripts into avatar videos through two render
providers (Synthesia and HeyGen), asks a language model (Groq) to write and
map scripts, stores uploaded media in object storage, and a React front end
whose pages build and reshape the scene forms sent to that API.

What is modelled, module by module:

- `Records` — the persisted rows (scripts, the legacy `RenderedVideo` table,
  the `SynthesiaRenderedVideo` table, uploaded assets), the errors the
  services raise, how a provider reply is read (JSON first, then the status
  code), and the database as a `class` holding one map per table.
- `Synthesia` — `generateVideo` (template mode against the `/videos`
  fall-through, the template-data merge, defaults for `test` and title, a
  legacy row created only after the provider returned a job id),
  `createVideoFromScratch`, and `checkStatus` / `checkStatusNew` (new table
  first, legacy table second, the two status vocabularies, the kept download
  URL).
- `HeyGen` — the API-key guard, avatar and voice defaulting (English first),
  the single-scene payload, job creation and the status reconciliation.
- `Groq` — the calendar-scene index, the spoken-word budget, the unwrapping
  and error paths of every completion, the scene summary and the per-scene
  prompt defaults; the language model itself is an uninterpreted function.
- `Scripts` — the scene count read from a template description with the
  pattern `(\d+)\s+scenes?\s+total` (a small scanner) and overridden by the
  number of voice-text variables, and the DRAFT row `createScript` stores.
- `Seed` — the tab-separated avatar and voice catalog parser, as the
  indexed loops of the seeder.
- `Assets` — mime-type classification, object keys and URLs, the upload
  flow with and without a provider key, and the asset status check.
- `TemplateData` — a template's variables as an ordered list of entries (a
  JavaScript object keeps insertion order), the spread update, key filters
  and the stable sort by numeric key suffix shared by three components.
- `ScriptEditor`, `VisualsEditor`, `SmartScripting` — the smart-scripting
  components and page: which keys each editor shows, how edits update the
  variables, and how the saved script's scenes are rebuilt from them.
- `SceneJson`, `SynthesiaScriptEditor`, `GenerateScriptScreen`,
  `VideoFromScratch` — the stored scene JSON and the three pages that load
  it into a form and save a form back; the scene-count sync of the script
  generator is a method on a `class` holding the field array, with loops.
- `ScriptsList`, `GenerationModal` — which videos the list page polls and its
  per-script status summary; the default selections of the generation modal
  and when its Generate button is enabled.

Providers, the language model, object storage, clocks and the environment
are parameters: a provider is a function from request to reply, the clock
readings are `nat` arguments, and environment variables are an `Env` value.
`Common` holds the JavaScript string and number helpers the source relies
on (`trim`, `split`, `join`, `startsWith`, `includes`, `replace` of the
first occurrence, `parseInt`, truthiness, `||` defaults).

## Model

| member | source | states |
|---|---|---|
| Records.Classify | apps/api/src/videos/synthesia.service.ts:62-92 | a reply is accepted exactly when its body is JSON and its status is 2xx, and then its body is returned; a non-JSON body is an invalid-format error whatever the status; a JSON body with another status is an API failure |
| Synthesia.MergeTemplateData | apps/api/src/videos/synthesia.service.ts:222-231 | the merged template data has the keys of both maps; every key of the request's data takes the request's value; every other stored key keeps its stored value; without request data the stored map is used as is |
| Synthesia.RequestFor | apps/api/src/videos/synthesia.service.ts:208-251 | a templated script naming a template goes to `/videos/fromTemplate` with that template and the merged data; otherwise a request template goes to `/videos/fromTemplate` with the request's data or `{}`; otherwise the endpoint stays `/videos` and the payload stays empty; `test` defaults to true and the title to `Script <id>` |
| Synthesia.BuildRequest | apps/api/src/videos/synthesia.service.ts:208-251 | the step-by-step reassignment of endpoint and payload ends with exactly the endpoint and payload of `RequestFor` |
| Synthesia.TemplatedScriptIgnoresRequestTemplate | apps/api/src/videos/synthesia.service.ts:215-251 | for a templated script with a template id, the request's own template id changes nothing and the script's template is the one sent |
| Synthesia.Submission | apps/api/src/videos/synthesia.service.ts:197-266 | a missing script is NotFound before any call; the submission succeeds exactly when the reply is JSON, 2xx and carries a truthy `id`; a non-JSON reply, a non-2xx reply and a reply without id are each their own error; on success the payload is the one `RequestFor` built |
| Synthesia.GenerateVideo | apps/api/src/videos/synthesia.service.ts:197-289 | a legacy row is created exactly when the submission succeeds, with status PENDING, provider SYNTHESIA, the provider's job id and the payload sent; on any error no row is written; no other table changes |
| Synthesia.CreateVideoFromScratch | apps/api/src/videos/synthesia.service.ts:29-60 | the request goes to `/videos`; only an accepted reply creates a new-table row, with status `processing`, the provider's id as returned and the script id only when it is truthy; a rejected reply writes nothing |
| Synthesia.KeepUrl | apps/api/src/videos/synthesia.service.ts:353 | the stored download URL is replaced only by a truthy new URL and is otherwise kept |
| Synthesia.LegacyStatus | apps/api/src/videos/synthesia.service.ts:330-345 | `complete` gives COMPLETED, `created` and `queued` give PENDING, `in_progress` gives PROCESSING, any other status containing `fail` or equal to `error` gives FAILED, anything else (or no status) keeps the stored status |
| Synthesia.NewTableStatus | apps/api/src/videos/synthesia.service.ts:371-382 | `complete` gives `completed`; `in_progress`, `created` and `queued` give `processing`; `failed` and `error` give `failed`; anything else keeps the stored status |
| Synthesia.ReconcileLegacy | apps/api/src/videos/synthesia.service.ts:330-355 | the legacy row written back differs from the stored one only in its status (mapped by `LegacyStatus`) and its download URL (kept unless a truthy one arrives) |
| Synthesia.ReconcileNew | apps/api/src/videos/synthesia.service.ts:371-392 | the new-table row written back differs from the stored one only in its status (mapped by `NewTableStatus`) and its download URL (kept unless a truthy one arrives) |
| Synthesia.ReconcileIdempotent | apps/api/src/videos/synthesia.service.ts:330-392 | applying the same provider answer twice stores what applying it once does, in both tables |
| Synthesia.TerminalStatusIsOverwritten | apps/api/src/videos/synthesia.service.ts:330-337 | a COMPLETED legacy row becomes PROCESSING when the provider later reports `in_progress`: the code does not protect terminal states |
| Synthesia.MappingsDisagree | apps/api/src/videos/synthesia.service.ts:330-382 | the two tables map the same answer differently: `queued` is PENDING in one and `processing` in the other; `payment_failed` is FAILED in the legacy table and leaves the new table unchanged |
| Synthesia.CheckStatus | apps/api/src/videos/synthesia.service.ts:291-363 | the new table is looked up first and the legacy table only for ids absent from it; an id in neither is NotFound; a legacy row of another provider or without external id is an error before any call; a failed provider call writes nothing; otherwise exactly the looked-up row is rewritten with the reconciled status and URL |
| Synthesia.CheckStatusNew | apps/api/src/videos/synthesia.service.ts:366-400 | the provider is asked about the row's provider id; a failed call writes nothing; otherwise exactly that row is rewritten by `ReconcileNew` and reported |
| HeyGen.Fetch | apps/api/src/videos/heygen.service.ts:17-41 | without a truthy API key the call is refused before any request; with one, the reply is accepted exactly when it is JSON and 2xx, and its body is returned |
| HeyGen.DefaultAvatar | apps/api/src/videos/heygen.service.ts:78-80 | the first catalog avatar's id, or `Anna_public_3_20240108` for an empty catalog |
| Common.Find | apps/api/src/videos/heygen.service.ts:82 | the position of the first element satisfying the predicate, none exactly when no element does; HeyGen tests language equal to `English` or locale equal to `en-US`, the modal tests that the language contains either |
| HeyGen.DefaultVoice | apps/api/src/videos/heygen.service.ts:81-84 | the first English voice if there is one, else the first voice, else the hard-coded voice id |
| HeyGen.ResolveIds | apps/api/src/videos/heygen.service.ts:70-85 | given ids are used unchanged; when either is missing both catalogs are fetched (a failed fetch is an error) and each missing id gets its default |
| HeyGen.GivenIdsNeedNoCatalog | apps/api/src/videos/heygen.service.ts:70-74 | with both ids given, the outcome depends neither on the API key nor on the provider |
| HeyGen.VideoInputs | apps/api/src/videos/heygen.service.ts:90-111 | at most one video input, present exactly when the script has a scene, carrying the chosen avatar in style `normal`, the chosen voice reading the first scene's `text`, and a white background |
| HeyGen.PayloadFor | apps/api/src/videos/heygen.service.ts:113-119 | the payload is 1280 by 720 and carries exactly `VideoInputs` |
| HeyGen.Submission | apps/api/src/videos/heygen.service.ts:54-131 | a missing script is NotFound; a failed avatar or voice resolution is that error; a script whose scenes are absent is a type error; otherwise a failed generate call is its error, a reply without a truthy `video_id` is a missing-id error, and a reply with one gives the payload sent and that id |
| HeyGen.GenerateVideo | apps/api/src/videos/heygen.service.ts:54-151 | a legacy row is created exactly when the submission succeeds, PENDING with the job id and no provider recorded; on any error nothing is written |
| HeyGen.HeyGenStatus | apps/api/src/videos/heygen.service.ts:181-189 | `completed`, `failed`, `processing` and `pending` map to COMPLETED, FAILED, PROCESSING and PENDING; anything else keeps the stored status |
| HeyGen.Reconcile | apps/api/src/videos/heygen.service.ts:172-199 | only status and download URL change; the URL changes only on `completed`, and then to the reported URL whenever one is reported; an absent URL keeps the stored one |
| HeyGen.ReconcileIdempotent | apps/api/src/videos/heygen.service.ts:178-199 | applying the same answer twice stores what applying it once does |
| HeyGen.CheckStatus | apps/api/src/videos/heygen.service.ts:153-206 | an unknown id is NotFound; a row without external id is an error before any call; a failed call writes nothing; otherwise exactly that row is rewritten by `Reconcile` |
| Groq.CalendarSceneIndex | apps/api/src/courses/groq.service.ts:130 | the calendar scene is `sceneCount - 1` when there is more than one scene, else 1; it is always at least 1 and never past the last scene |
| Groq.TargetWords | apps/api/src/courses/groq.service.ts:331-332 | the target is the floor of 2.5 words per second of duration |
| Groq.MaxWords | apps/api/src/courses/groq.service.ts:335 | the limit is always ten words over the target |
| Groq.WordBudgetOfTenSeconds | apps/api/src/courses/groq.service.ts:331-335 | a ten-second scene gets 25 target words and a 35-word limit |
| Groq.TargetWordsMonotone | apps/api/src/courses/groq.service.ts:332 | a longer scene never gets a smaller word target |
| Groq.ParseCompletion | apps/api/src/courses/groq.service.ts:209-219 | empty content is a generation error; content that does not parse is an invalid-JSON error; otherwise the parsed value is returned unvalidated |
| Groq.UnwrapScenes | apps/api/src/courses/groq.service.ts:47 | an array is returned as is; an object gives its truthy `scenes` field or `[]`; reading `scenes` of `null` fails |
| Groq.UnwrapUndoesWrapping | apps/api/src/courses/groq.service.ts:47 | scenes wrapped in an object's `scenes` field, or sent bare, come back unchanged |
| Groq.GenerateScript | apps/api/src/courses/groq.service.ts:39-51 | empty content is a generation error; content that does not parse is an invalid-JSON error; otherwise the result is exactly the unwrap of the parsed value, so a parsed `null` is an invalid-JSON error |
| Groq.CompletionIsUnvalidated | apps/api/src/scripts/scripts.service.ts:43-51 | whatever JSON the model returns is passed back unchanged: nothing checks the mapping rules the prompt states |
| Groq.SummaryLines | apps/api/src/courses/groq.service.ts:358 | one summary line per scene, in scene order |
| Groq.SummaryLineSingleLine | apps/api/src/courses/groq.service.ts:358 | a scene whose topic and text hold no newline gives a line without newline |
| Groq.ScenesSummaryLines | apps/api/src/courses/groq.service.ts:358 | with no newline in any topic or text, splitting the summary at newlines gives back exactly one line per scene |
| Groq.KeywordLine | apps/api/src/courses/groq.service.ts:376 | no keywords, empty text or an empty list give the fallback word; a list of one keyword is that keyword and a longer list is its first keyword, `, `, then the rest joined the same way; non-empty text throws a type error because a string has no `join` |
| Groq.PromptFieldsOf | apps/api/src/courses/groq.service.ts:277-283 | building fails with a type error exactly when the keyword line does; otherwise objective, complexity, point of view, emotion, duration and visual context fall back to `educational`, `general`, `second_person`, `neutral`, 10 and `N/A` when falsy, and the keywords are the keyword line |
| Groq.DefaultsFillEveryField | apps/api/src/courses/groq.service.ts:277-283 | when the prompt can be built, every configurable prompt field is non-empty and the duration is non-zero after defaulting |
| Groq.PromptsDifferOnlyInKeywordFallback | apps/api/src/courses/groq.service.ts:370-376 | the two prompts fail on the same scenes, and otherwise default a scene identically except that an empty keyword value reads `N/A` instead of `Ninguna` |
| Groq.TypedKeywordsFailRegenerate | apps/api/src/courses/groq.service.ts:376 | keywords that arrive as non-empty text, as the edit form sends them, make the regenerate prompt throw a type error before the model is called |
| Groq.RegenerateBudget | apps/api/src/courses/groq.service.ts:331-335 | the regenerate word budget uses the raw duration: none without one, otherwise the target and limit of that duration |
| Groq.ZeroDurationMismatch | apps/api/src/courses/groq.service.ts:374-381 | a zero-second scene is announced as 10 seconds but budgeted at 0 target words and a 10-word limit |
| Scripts.MatchPos | apps/api/src/scripts/scripts.service.ts:26 | the position of the first match of the scene-count pattern: a match starts there and at no earlier position; none when no position matches |
| Scripts.FirstMatch | apps/api/src/scripts/scripts.service.ts:26-29 | a number is captured exactly when some position matches, and it is the number read at the first match |
| Scripts.RenderedCountMatches | apps/api/src/scripts/scripts.service.ts:26-28 | `<n> scenes total` is read back as `n` |
| Scripts.VoiceVariableCount | apps/api/src/scripts/scripts.service.ts:31-32 | the number of variable ids containing `script_voice_text_`, zero exactly when none does |
| Scripts.VoiceVariableCountAppend | apps/api/src/scripts/scripts.service.ts:31-32 | the count adds up over concatenated id lists, and a single id counts one exactly when it contains `script_voice_text_` |
| Scripts.SceneCountOf | apps/api/src/scripts/scripts.service.ts:24-34 | without a description the count is 3; with one, the voice-variable count when positive, else the description's number, else 3; variables that are not a list fail |
| Scripts.SceneCount | apps/api/src/scripts/scripts.service.ts:24-34 | the step-by-step overwriting of the count ends with `SceneCountOf` |
| Scripts.NoDescriptionIgnoresVariables | apps/api/src/scripts/scripts.service.ts:25 | without a description the count stays 3 whatever the variables hold |
| Scripts.AnalyzeAndMap | apps/api/src/scripts/scripts.service.ts:17-51 | the model is asked with the computed scene count and its parsed answer is returned as it is |
| Scripts.BuildScriptData | apps/api/src/scripts/scripts.service.ts:55-77 | the row is a DRAFT of the given course; `originalScenes` is the request's scenes as given; templated only when the request says true; template id and data only when provided; a templated request without scenes stores an empty scene list |
| Scripts.CreateScript | apps/api/src/scripts/scripts.service.ts:53-80 | the stored row is a DRAFT under the fresh id with the request's course id; its original scenes are the scenes as given; it is templated exactly when requested; the template id is kept only when truthy and the template data as given; a templated request without scenes stores an empty list; no other table changes |
| Seed.NonBlankLines | packages/database/prisma/seed_synthesia_from_md.ts:19 | the kept lines are no more than the input, none is whitespace only, and every line that is not whitespace only is kept |
| Seed.AvatarOfLine | packages/database/prisma/seed_synthesia_from_md.ts:26-40 | a row with fewer than four tab fields gives nothing; otherwise the trimmed fields are name, gender, version and id in that order, and the row is kept exactly when id and name are non-empty |
| Seed.VoiceOfLine | packages/database/prisma/seed_synthesia_from_md.ts:71-89 | a row with fewer than six tab fields gives nothing; otherwise the trimmed fields are language, native name, language code, gender, name and id, kept exactly when id and name are non-empty |
| Seed.ParseAvatars | packages/database/prisma/seed_synthesia_from_md.ts:19-42 | the indexed loop from the second non-blank line on yields the avatars of the data rows, in row order |
| Seed.ParseVoices | packages/database/prisma/seed_synthesia_from_md.ts:64-91 | the indexed loop from the second non-blank line on yields the voices of the data rows, in row order |
| Seed.AvatarsOfAppend | packages/database/prisma/seed_synthesia_from_md.ts:24-42 | rows are parsed independently and the output keeps their order |
| Seed.VoicesOfAppend | packages/database/prisma/seed_synthesia_from_md.ts:69-91 | rows are parsed independently and the output keeps their order |
| Seed.HeaderIgnored | packages/database/prisma/seed_synthesia_from_md.ts:24-69 | the first non-blank line never yields a record, whatever it holds |
| Seed.AvatarsWellFormed | packages/database/prisma/seed_synthesia_from_md.ts:28-33 | every avatar record has a non-empty id and name, and every field is trimmed |
| Seed.VoicesWellFormed | packages/database/prisma/seed_synthesia_from_md.ts:73-80 | every voice record has a non-empty id and name, and every field is trimmed |
| Seed.ExtraAvatarColumnsIgnored | packages/database/prisma/seed_synthesia_from_md.ts:27-31 | columns after the fourth do not change an avatar row |
| Seed.ExtraVoiceColumnsIgnored | packages/database/prisma/seed_synthesia_from_md.ts:72-78 | columns after the sixth do not change a voice row |
| Seed.BlankLinesDropped | packages/database/prisma/seed_synthesia_from_md.ts:19-64 | a blank line anywhere, even before the header, changes nothing |
| Seed.NonBlankLinesAppend | packages/database/prisma/seed_synthesia_from_md.ts:19 | blank-line filtering works line by line and keeps order |
| Assets.BucketName | apps/api/src/assets/synthesia-asset.service.ts:10 | the configured bucket when set, else `synthesia-assets`; never empty |
| Assets.StatusApiKey | apps/api/src/assets/synthesia-asset.service.ts:11 | the configured key or a placeholder; never empty |
| Assets.ObjectKey | apps/api/src/assets/synthesia-asset.service.ts:86 | the key starts with the upload time and a dash and ends with the original file name |
| Assets.UrlEndsWithKey | apps/api/src/assets/synthesia-asset.service.ts:100 | the returned URL is `<endpoint>/<bucket>/<key>` and ends with the key |
| Assets.UploadKind | apps/api/src/assets/synthesia-asset.service.ts:106-115 | `video/*` is VIDEO to `/assets`, `audio/*` is AUDIO to `/scriptAudio`, anything else is IMAGE to `/assets`; only audio goes to `/scriptAudio` |
| Assets.ClassifyUpload | apps/api/src/assets/synthesia-asset.service.ts:106-115 | the step-by-step reassignment of type and endpoint ends with `UploadKind` |
| Assets.SynthesiaAssetId | apps/api/src/assets/synthesia-asset.service.ts:129-137 | the upload is accepted exactly when its reply is JSON and 2xx, and its id is taken; anything else is an upload failure |
| Assets.UploadAsset | apps/api/src/assets/synthesia-asset.service.ts:79-163 | a failed store is an error; with a provider key the upload succeeds exactly when the provider accepts it, and the provider's id is recorded; without one no upload happens and the mock id is recorded; the new asset's title is the file name and its URL is returned; errors write nothing |
| Assets.ListingUrls | apps/api/src/assets/synthesia-asset.service.ts:170-173 | one URL per asset, in listing order, each `<endpoint>/<bucket>/<key>` |
| Assets.StatusPathStripsUserPrefix | apps/api/src/assets/synthesia-asset.service.ts:195 | an id starting with `user.` is asked for without it; an id without `user.` is asked for as is |
| Assets.StatusPathRemovesOnlyFirst | apps/api/src/assets/synthesia-asset.service.ts:195 | only the first `user.` is removed |
| Assets.StatusOf | apps/api/src/assets/synthesia-asset.service.ts:203-221 | 404 is not found on Synthesia, another non-2xx is an error with its code, a 2xx JSON reply is found with its data, a failed call is an error; the unknown answer never arises |
| Assets.CheckAssetStatus | apps/api/src/assets/synthesia-asset.service.ts:175-223 | an unknown asset is NotFound; a known one gets the classification of the status reply; the no-key answer is never given |
| TemplateData.Put | apps/web/src/components/SmartScripting/ScriptEditor.tsx:17 | after the spread update the edited key reads the new value and every other key reads what it did |
| TemplateData.PutKeys | apps/web/src/components/SmartScripting/ScriptEditor.tsx:17 | an existing key keeps its position and a new key is added last |
| TemplateData.PutKeepsKeysDistinct | apps/web/src/components/SmartScripting/ScriptEditor.tsx:17 | the update never duplicates a key |
| TemplateData.ToMapGet | apps/web/src/components/SmartScripting/ScriptEditor.tsx:17 | the object the entries describe has exactly their keys and reads each key as the entries do |
| TemplateData.ToMapPut | apps/web/src/components/SmartScripting/ScriptEditor.tsx:17 | as a dictionary, the update is the map update at the edited key |
| TemplateData.KeysWithPrefix | apps/web/src/pages/SmartScriptingPage.tsx:53-54 | exactly the keys starting with the prefix are kept |
| TemplateData.EntriesWithoutPrefix | apps/web/src/components/SmartScripting/VisualsEditor.tsx:13-14 | exactly the entries whose key does not start with the prefix are kept |
| TemplateData.PrefixPartition | apps/web/src/components/SmartScripting/VisualsEditor.tsx:13-14 | the two filters split the keys: together they hold every key exactly as often as the object does |
| TemplateData.Insert | apps/web/src/pages/SmartScriptingPage.tsx:55-59 | inserting a key adds exactly that key to the sorted list |
| TemplateData.SortIsPermutation | apps/web/src/pages/SmartScriptingPage.tsx:55-59 | sorting by numeric suffix is a permutation of the keys |
| TemplateData.InsertKeepsSorted | apps/web/src/pages/SmartScriptingPage.tsx:55-59 | inserting a numbered key into a list sorted by number keeps it sorted |
| TemplateData.SortOrdersNumberedKeys | apps/web/src/pages/SmartScriptingPage.tsx:55-59 | when every suffix is a number, the sorted keys are in ascending numeric order |
| TemplateData.SortedKeysWithPrefix | apps/web/src/pages/SmartScriptingPage.tsx:53-59 | the sorted voice keys are a permutation of the keys with the prefix |
| TemplateData.SortedKeysMembers | apps/web/src/pages/SmartScriptingPage.tsx:53-59 | a key is among the sorted voice keys exactly when it is a key of the object starting with the prefix |
| TemplateData.SuffixNumberOfPrefixed | apps/web/src/pages/SmartScriptingPage.tsx:56-57 | the sort key of `prefix + suffix` is the suffix read as a decimal integer |
| TemplateData.TenAfterTwo | apps/web/src/pages/SmartScriptingPage.tsx:55-59 | the order is numeric, not textual: suffix 2 comes before suffix 10 |
| ScriptEditor.SceneKeysInNumericOrder | apps/web/src/components/SmartScripting/ScriptEditor.tsx:8-14 | when every `script_voice_text_` suffix is a number, the shown keys are in ascending numeric order |
| ScriptEditor.ViewOf | apps/web/src/components/SmartScripting/ScriptEditor.tsx:20-26 | the placeholder is shown exactly when no key starts with `script_voice_text_`; otherwise the fields are the sorted voice keys |
| ScriptEditor.HandleChange | apps/web/src/components/SmartScripting/ScriptEditor.tsx:16-18 | the edited object equals the old one except at the edited key; editing an existing key keeps the list of scene fields |
| ScriptEditor.PrefixesExclusive | apps/web/src/components/SmartScripting/ScriptEditor.tsx:9-27 | no key starts with both `scene_voice_text_` and `script_voice_text_` |
| ScriptEditor.VoiceKeyLabelIsWholeKey | apps/web/src/components/SmartScripting/ScriptEditor.tsx:27 | the label strips `scene_voice_text_`, which a `script_voice_text_` key does not contain, so the label is the whole key |
| VisualsEditor.VisibleEntries | apps/web/src/components/SmartScripting/VisualsEditor.tsx:13-14 | exactly the entries whose key does not start with `script_voice_text_` are shown |
| VisualsEditor.EditorsPartitionKeys | apps/web/src/components/SmartScripting/VisualsEditor.tsx:14 | the visuals editor and the script editor show disjoint keys that together cover every key once |
| VisualsEditor.HandleChange | apps/web/src/components/SmartScripting/VisualsEditor.tsx:7-9 | the edited object equals the old one except at the edited key, and an edited visual field is shown with its new value |
| VisualsEditor.Label | apps/web/src/components/SmartScripting/VisualsEditor.tsx:17 | every underscore becomes a space and every other character is kept |
| SmartScripting.AnalyzeRequestOf | apps/web/src/pages/SmartScriptingPage.tsx:19-27 | analysis is requested exactly when template, topic and source text are all present |
| SmartScripting.ScenesOf | apps/web/src/pages/SmartScriptingPage.tsx:53-61 | one scene per `scene_voice_text_` key, each the value of the key at that position of the sorted key list |
| SmartScripting.ScenesAreSceneValues | apps/web/src/pages/SmartScriptingPage.tsx:53-61 | the ordered scene keys are exactly the `scene_voice_text_` keys, each once, and the i-th scene is the value of the i-th of them |
| SmartScripting.EditorKeysGiveNoScenes | apps/web/src/pages/SmartScriptingPage.tsx:54 | variables whose voice keys use the editors' `script_voice_text_` prefix give no scenes at all |
| SmartScripting.CourseRequestOf | apps/web/src/pages/SmartScriptingPage.tsx:65-68 | an empty topic or content falls back to `Untitled Smart Script` / `Smart Script Content` |
| SmartScripting.SaveRequest | apps/web/src/pages/SmartScriptingPage.tsx:49-87 | without a template nothing is saved; otherwise the script is templated, names the template, carries the edited variables unchanged and the rebuilt scenes in order |
| SceneJson.LoadedTopic | apps/web/src/pages/SynthesiaScriptEditorPage.tsx:73 | the metadata topic when truthy, else the scene's own topic, else empty |
| SceneJson.DurationOr | apps/web/src/pages/SynthesiaScriptEditorPage.tsx:74 | a non-zero duration is kept; a missing or zero one gives the fallback |
| SceneJson.LoadedDuration | apps/web/src/pages/SynthesiaScriptEditorPage.tsx:74 | the stored non-zero duration, else 10; never zero |
| SceneJson.LoadedEmotion | apps/web/src/pages/SynthesiaScriptEditorPage.tsx:75 | the stored emotion when non-empty, else `neutral`; never empty |
| SceneJson.LoadedVisualContext | apps/web/src/pages/SynthesiaScriptEditorPage.tsx:76 | the stored visual context, else empty |
| SynthesiaScriptEditor.LoadScene | apps/web/src/pages/SynthesiaScriptEditorPage.tsx:72-85 | a loaded scene takes topic, duration, emotion and visual context with their fallbacks, and the script text or empty |
| SynthesiaScriptEditor.Load | apps/web/src/pages/SynthesiaScriptEditorPage.tsx:72-90 | the title passes through; one form row per stored scene in order; no scenes give no rows |
| SynthesiaScriptEditor.SaveScene | apps/web/src/pages/SynthesiaScriptEditorPage.tsx:123-133 | a saved scene holds only the script text and the four metadata fields; avatar, background and keywords are dropped |
| SynthesiaScriptEditor.Save | apps/web/src/pages/SynthesiaScriptEditorPage.tsx:121-134 | the title passes through and every row is saved, in order |
| SynthesiaScriptEditor.SaveThenLoadScene | apps/web/src/pages/SynthesiaScriptEditorPage.tsx:72-85 | loading a saved row gives the row back exactly when its emotion is non-empty and its duration non-zero |
| SynthesiaScriptEditor.SaveThenLoad | apps/web/src/pages/SynthesiaScriptEditorPage.tsx:72-133 | loading a saved form gives the form back when every row has an emotion and a non-zero duration |
| SynthesiaScriptEditor.LoadThenSaveScene | apps/web/src/pages/SynthesiaScriptEditorPage.tsx:72-133 | saving a loaded scene reproduces its text and its four metadata fields when all are present and non-zero |
| GenerateScriptScreen.Resized | apps/web/src/pages/GenerateScriptScreen.tsx:136-153 | in edit mode, or for a count that is not a positive number, the rows are unchanged; otherwise there are exactly `count` rows, the existing rows first and default rows after |
| GenerateScriptScreen.SceneFieldArray.constructor | apps/web/src/pages/GenerateScriptScreen.tsx:53-63 | a new form starts with three default scenes |
| GenerateScriptScreen.SceneFieldArray.Append | apps/web/src/pages/GenerateScriptScreen.tsx:65 | the row is added at the end |
| GenerateScriptScreen.SceneFieldArray.Remove | apps/web/src/pages/GenerateScriptScreen.tsx:65 | exactly the row at the index is removed |
| GenerateScriptScreen.SceneFieldArray.Update | apps/web/src/pages/GenerateScriptScreen.tsx:65 | exactly the row at the index is replaced |
| GenerateScriptScreen.SceneFieldArray.SyncSceneCount | apps/web/src/pages/GenerateScriptScreen.tsx:136-153 | the append loop and the remove-from-the-end loop leave exactly `Resized` of the rows |
| GenerateScriptScreen.SceneFieldArray.RegenerateScene | apps/web/src/pages/GenerateScriptScreen.tsx:268-329 | with a scene selected and a reply received only that row changes, to its merge with the reply |
| GenerateScriptScreen.GrowKeepsRows | apps/web/src/pages/GenerateScriptScreen.tsx:141-145 | growing ends with `count` rows and keeps every existing row in place |
| GenerateScriptScreen.ShrinkKeepsPrefix | apps/web/src/pages/GenerateScriptScreen.tsx:147-150 | shrinking keeps exactly the first `count` rows |
| GenerateScriptScreen.NonNumericCountIgnored | apps/web/src/pages/GenerateScriptScreen.tsx:138-139 | a count that does not parse leaves the rows unchanged |
| GenerateScriptScreen.ResizeIdempotent | apps/web/src/pages/GenerateScriptScreen.tsx:136-153 | syncing twice with the same count is syncing once |
| GenerateScriptScreen.UpdateKeywords | apps/web/src/pages/GenerateScriptScreen.tsx:244 | empty text gives no keywords, a list is kept as is, and text gives one trimmed keyword per comma-separated part |
| GenerateScriptScreen.CreateKeywords | apps/web/src/pages/GenerateScriptScreen.tsx:166 | text is split as on update; a list (as loaded from stored metadata) makes the create handler fail |
| GenerateScriptScreen.KeywordsRoundTrip | apps/web/src/pages/GenerateScriptScreen.tsx:166 | keywords joined with commas are split back into the same keywords |
| GenerateScriptScreen.CreateScenes | apps/web/src/pages/GenerateScriptScreen.tsx:163-167 | every row becomes one request scene in order, and the request fails exactly when some row holds a keyword list |
| GenerateScriptScreen.CreateRequest | apps/web/src/pages/GenerateScriptScreen.tsx:159-168 | the scene count sent is the number of rows, equal to the number of scenes sent; title and source pass through |
| GenerateScriptScreen.UpdateRequestOf | apps/web/src/pages/GenerateScriptScreen.tsx:235-246 | without an id nothing is sent; otherwise the title and one scene per row |
| GenerateScriptScreen.CreateAndUpdateAgree | apps/web/src/pages/GenerateScriptScreen.tsx:163-167 | when creation succeeds, the create and update payloads carry the same scenes |
| GenerateScriptScreen.Merged | apps/web/src/pages/GenerateScriptScreen.tsx:321-327 | fields returned by the model overwrite the row; topic and duration come from the returned metadata when set and otherwise stay; the configuration fields stay |
| GenerateScriptScreen.MergeWithoutMetadataKeepsConfig | apps/web/src/pages/GenerateScriptScreen.tsx:325-326 | a reply without metadata keeps the row's topic and duration |
| GenerateScriptScreen.LoadScene | apps/web/src/pages/GenerateScriptScreen.tsx:98-112 | a loaded row takes topic, duration 10 and emotion `neutral` fallbacks, objective EDUCATIONAL, complexity GENERAL, point of view SECOND_PERSON, the stored keywords when truthy, and the generated fields as stored |
| GenerateScriptScreen.Load | apps/web/src/pages/GenerateScriptScreen.tsx:114-119 | title passes through; one row per stored scene; the source text from the stored source content or empty; the scene count is the number of rows |
| GenerateScriptScreen.LoadedCountMatchesRows | apps/web/src/pages/GenerateScriptScreen.tsx:117-153 | after loading, the scene-count sync leaves the loaded rows unchanged in either mode |
| VideoFromScratch.TruthyOrAbsent | apps/web/src/pages/VideoFromScratchPage.tsx:260 | a value is kept exactly when truthy |
| VideoFromScratch.SubmitScene | apps/web/src/pages/VideoFromScratchPage.tsx:228-256 | a text scene keeps its text and drops audio and language; any other scene drops the text, keeps the audio and trims the language, blank becoming absent; the voice is trimmed the same way; the other avatar settings, avatar and backgrounds pass through; text and audio are never both sent |
| VideoFromScratch.SubmitRequest | apps/web/src/pages/VideoFromScratchPage.tsx:226-265 | one scene per form scene in order; callback id and description trimmed, blank becoming absent; soundtrack kept only when truthy; call-to-action kept only when both label and URL are non-empty; script id present exactly when the page has one |
| VideoFromScratch.LoadScene | apps/web/src/pages/VideoFromScratchPage.tsx:186-204 | each stored scene becomes a text scene with its text, avatar `anna_costume1_cameraA` and background `green_screen` |
| VideoFromScratch.Load | apps/web/src/pages/VideoFromScratchPage.tsx:206-213 | the title falls back to `AI Generated Video`; one scene per stored scene; private, 16:9, not a test |
| VideoFromScratch.LoadThenSubmit | apps/web/src/pages/VideoFromScratchPage.tsx:186-265 | submitting a loaded script sends one text scene per stored scene, each with its stored text, and no description |
| VideoFromScratch.SubmitSceneStable | apps/web/src/pages/VideoFromScratchPage.tsx:228-256 | a cleaned scene, fed back as a form scene of the same kind, comes out unchanged |
| VideoFromScratch.TrimmedOrAbsentIdempotent | apps/web/src/pages/VideoFromScratchPage.tsx:258-259 | trimming with blank-to-absent twice is trimming once |
| ScriptsList.SelectVideosToCheck | apps/web/src/pages/AiScriptsListScreen.tsx:44-52 | the nested loops collect exactly `PolledIds`: script order, then video order |
| ScriptsList.PolledInScriptExactly | apps/web/src/pages/AiScriptsListScreen.tsx:47-50 | an id is polled from a script exactly when one of its videos has that id and a pending status |
| ScriptsList.PolledExactly | apps/web/src/pages/AiScriptsListScreen.tsx:46-52 | an id is polled exactly when some video of some script has it and a lowercased status among processing, pending, created, queued, in_progress |
| ScriptsList.PolledIdsAppend | apps/web/src/pages/AiScriptsListScreen.tsx:46-51 | the ids of two runs of scripts are the first run's followed by the second's |
| ScriptsList.FinishedNeverPolled | apps/web/src/pages/AiScriptsListScreen.tsx:48 | a completed or failed video, in any letter case, is never polled |
| ScriptsList.LatestIndex | apps/web/src/pages/AiScriptsListScreen.tsx:74-75 | the latest video has the greatest creation time; among ties the first in list order |
| ScriptsList.VideoStatus | apps/web/src/pages/AiScriptsListScreen.tsx:71-80 | nothing for an absent or empty list; otherwise the count is the number of videos and the latest is one of them with the greatest creation time |
| GenerationModal.AfterFetch | apps/web/src/components/VideoGenerationModal.tsx:36-69 | loading ends; an error is set exactly when the fetch failed, and then the selections stay; an avatar list selects its first avatar, a voice list its first English voice or else its first voice, and an empty list keeps the selection |
| GenerationModal.Generate | apps/web/src/components/VideoGenerationModal.tsx:71-73 | when enabled, exactly the current selections are passed on, both non-empty |
| GenerationModal.FailedFetchDisablesGenerate | apps/web/src/components/VideoGenerationModal.tsx:158 | after a failed fetch Generate is disabled |
| GenerationModal.EmptyCatalogDisablesGenerate | apps/web/src/components/VideoGenerationModal.tsx:25-158 | on first opening with an empty avatar or voice list Generate stays disabled |
| GenerationModal.FetchedDefaultsAreGenerated | apps/web/src/components/VideoGenerationModal.tsx:56-158 | with both lists fetched, Generate is enabled and passes the first avatar and the first English voice |
| Common.TrimEmptyIffAllSpace | packages/database/prisma/seed_synthesia_from_md.ts:19 | a line trims to empty exactly when it is whitespace only |
| Common.TrimIdempotent | packages/database/prisma/seed_synthesia_from_md.ts:28-31 | trimming twice is trimming once |
| Common.IndexOf | apps/api/src/assets/synthesia-asset.service.ts:195 | the first position where the pattern occurs, none exactly when it occurs nowhere |
| Common.ReplaceFirstOfPrefix | apps/web/src/pages/SmartScriptingPage.tsx:56 | replacing a prefix that the string starts with removes exactly that prefix |
| Common.JoinSplit | apps/web/src/pages/GenerateScriptScreen.tsx:166 | joining the parts of a split with the separator gives the string back |
| Common.SplitJoin | apps/web/src/pages/GenerateScriptScreen.tsx:166 | splitting parts joined with a separator they do not contain gives the parts back |
| Common.SplitCount | packages/database/prisma/seed_synthesia_from_md.ts:26 | a split gives one more part than there are separators |
| Common.ParseNatToString | apps/web/src/pages/SmartScriptingPage.tsx:56 | `parseInt(_, 10)` reads a number's decimal text back as that number |
| Common.ParseAutoNatToString | apps/web/src/pages/GenerateScriptScreen.tsx:138 | `parseInt` without radix reads a number's decimal text back as that number |

## Left out

- HTTP, Prisma and S3 calls are not modelled as such: a provider or the object store is a parameter, a table is a map, and headers, base URLs and the bucket creation and policy setup at start-up are not part of the model.
- Clocks (`Date.now()`), generated row ids and environment variables are parameters of the members that read them.
- The language model's output and every rule the prompts state (mapping, completeness, word limits, preset copying) are not checked by the code and are not modelled; the model is an uninterpreted function, and the prompt text beyond the scene summary and per-scene defaults is not modelled.
- The Synthesia service's catalog lookups (`getAvatars`, `getVoices`, `getTemplates`, `getTemplateDetails`, `getAssets`) are thin pass-throughs of `fetchFromSynthesia` and are not modelled beyond `Records.Classify`; `Scripts.AnalyzeAndMap` takes the template's description and variable ids as arguments.
- The courses request sent before saving a smart script is reduced to its payload (`SmartScripting.CourseRequestOf`); the course id it returns is a parameter of `SmartScripting.SaveRequest`.
- Floating point: the avatar `scale` field and `parseFloat` are not modelled, `Number(duration)` is the identity on integer seconds, and durations are integers, so the word budget is `(5 * d) / 2`.
- JavaScript numbers are unbounded integers here; `parseInt` results beyond 2^53 and `NaN` arithmetic are not modelled, except that a comparator answer of `NaN` counts as a tie.
- TemplateData.SortBy: the source's `Array.prototype.sort` is modelled as a stable insertion sort; with keys whose suffixes are not numbers the comparator is inconsistent and the engine's order is implementation-defined, so only the permutation and, for all-numbered keys, the ascending order are proved.
- TemplateData.Keys: the object's key order is insertion order; JavaScript lists integer-like keys first, which no template variable name is, so that rule is not modelled.
- ScriptsList.NeedsCheck: `toLowerCase` is modelled on ASCII letters only; the statuses it is compared against are ASCII, so membership is the same, but a non-ASCII status is not lowercased as JavaScript would.
- Groq.SummaryLine: `substring(0, 50)` counts UTF-16 code units while the model counts characters, so a text holding characters outside the Basic Multilingual Plane is cut at a different place.
- ScriptsList.LatestIndex: creation times are integers; dates that do not parse (`NaN` times) are not modelled.
- Synthesia.TerminalStatusIsOverwritten: a finished job is not protected from a later provider answer, because the code does not protect it; no monotonicity of status is claimed.
- HeyGen.VideoInputs: a scene's `text` is read as given; a scene that is a bare string has no `text`, which the model records as an absent text rather than a failed request.
- The catalog seeder's `createMany` with `skipDuplicates`, its file-existence check and its logging are not modelled; the parsers return the records in file order.
- Assets.UploadAsset: the provider's reply is assumed to carry an `id` string when it is accepted; a 2xx reply whose body has no `id` (stored as `undefined`) is not modelled.
- GenerateScriptScreen.SceneFieldArray: only the scene rows of the form are a field; the other form values, React state, rendering, navigation and alerts are not modelled.
- GenerateScriptScreen.Merged: the regenerated scene is modelled with the fields the source reads or stores (script text, avatar, background, metadata); other fields the model might return are not carried.
- Avatar and voice catalog entries without ids, and provider replies whose fields have unexpected types, are not modelled beyond present-or-absent.
