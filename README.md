# Study-abroad appeal content generator: a verified model of its core

The system writes Xiaohongshu posts for students in academic trouble: deferrals, dismissal,
misconduct, failed modules, leave, withdrawal. A language model drafts the titles, the note body
and the cover text. The hashtags come from a fixed library. The cover colours come from a fixed
table keyed by the target emotion. Finished posts can be exported to a Feishu (Lark) Bitable.

This project models that core in Dafny and proves what its code promises:

- `xhs.dfy` (module `Xhs`): the reference tables of `shared/xhs.ts`. These are the scenarios,
  emotions, personas, hashtag library, school database and hot-post database. Proved facts about
  the tables: which keys they cover, how long their lists are, and that each hot post names a
  valid scenario and emotion.
- `env.dfy` (module `Env`): how `server/_core/env.ts` picks the model API key and base URL. It
  covers the placeholder-key detector and the fallback order of the environment variables.
- `ai.dfy` (module `Ai`): the parts of `server/ai.ts` that are not prompt text:
  - the `extractJSON` cascade (whole text, fenced block, braces, brackets, original) and
    `safeParseJSON`;
  - the empty-reply error;
  - the title-count clamp and the exact-count schema;
  - the deterministic hashtag builder;
  - the emotion colour scheme that overrides the model's choice on a cover.
- `routers.dfy` (module `Routers`): the concurrency pool `asyncPool`, the `generate.batch`
  procedure built on it, and the `hotContent.list` query of `server/routers.ts`.
- `feishu.dfy` (module `Feishu`): the Bitable export of `server/feishu.ts`:
  - record construction;
  - field creation for missing columns;
  - the token, field-list and record-add calls with their error prefixes;
  - single and batched export in chunks of 500;
  - configuration validation.
- `common.dfy` and `strings.dfy`: `Option`/`Result`, `Array.prototype.filter`, and the JavaScript
  string operations the core relies on: `indexOf`, `lastIndexOf`, `includes`, `trim`,
  `toLowerCase`, `join` and `split`.

Every call out of the process becomes a function-typed value that the operation takes as a
parameter. This covers the language model (`Ai.Llm`), the history database
(`Routers.Services`), the Feishu HTTP API (`Feishu.FeishuApi`), `Date` parsing and `Date.now`.
`JSON.parse` is split into a test `isJson` and a decoder `decode`. The environment variables are
`Option<string>` parameters.

Several parts of the code change state step by step, and these are methods with loop invariants:

- the pool loop;
- the field-creation loop over the required columns;
- the 500-record batch loop;
- the batch procedure that drives the pool.

Each method is proved against a specification function. For example, `GenerateBatch` returns
exactly `BatchSpec`, and the lemmas about `BatchSpec` state what a batch promises.

Two behaviours of the code are easy to miss, and the model keeps both:

- **History writes.** In `generate.batch`, `createGeneration` is awaited inside the item's
  `try` (server/routers.ts:240-288). A failed write therefore turns the item into `null`, and the
  item is dropped. `Routers.ItemOrNull` models this.
- **`asyncPool` rejections.** In `asyncPool`, a rejected task that does not win a
  `Promise.race` is swallowed by the race, and its slot stays `undefined`. `Routers.AsyncPool`
  keeps this. Its slots are `Option` values, and a slot is `None` only for such a task.

## Model

| member | source | states |
|---|---|---|
| Xhs.ParseScenario | shared/xhs.ts:5 | a decoded scenario name is the wire name of the scenario it returns |
| Xhs.ParseEmotion | shared/xhs.ts:8 | a decoded emotion name is the wire name of the emotion it returns |
| Xhs.KeysRoundTrip | shared/xhs.ts:5-8 | every scenario and emotion decodes back from its wire name |
| Xhs.TablesAreTotal | shared/xhs.ts:17-96 | SCENARIOS, EMOTIONS, DEFAULT_PERSONAS and the per-scenario hashtags have an entry for every key |
| Xhs.SchoolDatabaseRegions | shared/xhs.ts:163-269 | the school database has exactly the seven regions |
| Xhs.SchoolRegionLabels | shared/xhs.ts:165-206 | the uk and us regions carry the labels 英国 and 美国 |
| Xhs.SchoolListsWellFormed | shared/xhs.ts:165-269 | every region lists at least one school, and each school has a non-empty name and abbreviation |
| Xhs.HashtagRegions | shared/xhs.ts:143-149 | region hashtags exist exactly for uk, au, us, ca and hk, and for neither sg nor eu |
| Xhs.HashtagTableSizes | shared/xhs.ts:133-151 | 5 general and 5 appeal tags, at least 4 per scenario, at least 5 per region that has tags |
| Xhs.ScenarioTags | shared/xhs.ts:135-142 | a scenario's tag list is the library's entry for it and holds at least four tags |
| Xhs.HotContentWellFormed | shared/xhs.ts:272-293 | twenty hot posts, each with a scenario and an emotion that parse as valid keys |
| Env.IncludesAny | server/_core/env.ts:7-8 | true exactly when some lower-cased fragment occurs in the text |
| Env.PlaceholdersAreLowerCase | server/_core/env.ts:7 | lower-casing the fragment list changes none of them |
| Env.PlaceholderCharacterization | server/_core/env.ts:6-9 | a key is a placeholder iff it is shorter than 20 or its lower-cased form contains one of the four fragments |
| Env.ShortKeyIsPlaceholder | server/_core/env.ts:8 | every key shorter than 20 characters is a placeholder |
| Env.PlaceholderIgnoresCase | server/_core/env.ts:8 | a key and its lower-cased form get the same verdict |
| Env.FirstPlaceholderIsSubsumed | server/_core/env.ts:7 | text containing "your-api-key-here" also contains "your-api-key", so the first fragment is redundant |
| Env.GetValidApiKey | server/_core/env.ts:12-28 | the built-in key if usable, else the OpenAI key if usable, else ""; a non-empty result is never a placeholder |
| Env.HasContentMeansNonWhitespace | server/_core/env.ts:36-42 | `v && v.trim().length > 0` holds iff `v` has a non-whitespace character |
| Env.GetValidApiUrl | server/_core/env.ts:31-47 | the first non-blank of the built-in URL and the OpenAI base URL, else the Manus proxy; the result is never blank |
| Env.LoadForgeConfig | server/_core/env.ts:49-58 | the URL is the one `getValidApiUrl` selects and the key the one `getValidApiKey` selects; so the key is empty or usable, and the URL is never empty |
| Ai.FencedBlock | server/ai.ts:55-57 | a block exists iff there is a fence and another fence at or after the capture start; it is then the text from the capture start to that next fence, and it holds no fence |
| Ai.CaptureStart | server/ai.ts:55 | the capture starts after the fence, an optional `json` tag and the following whitespace; nothing skipped is a backtick |
| Ai.FencedBlockBetweenFences | server/ai.ts:55-57 | given the first fence and the first fence after its capture start, the block is exactly the text between them |
| Ai.NoClosingFenceNoBlock | server/ai.ts:55-56 | with no fence after the capture start there is no block |
| Ai.BraceCandidate | server/ai.ts:66-71 | exactly the slice from the first `{` to the last `}`; absent exactly when there is no `{`, no `}`, or the last `}` comes before the first `{` |
| Ai.BracketCandidate | server/ai.ts:80-87 | exactly the slice from the first `[` to the last `]`; present iff both exist, the `]` comes after the `[`, and the `[` comes before any `{` |
| Ai.Cleaned | server/ai.ts:51-57 | the text searched for braces and brackets is a substring of the content |
| Ai.ExtractJson | server/ai.ts:42-99 | parsable content is returned unchanged; otherwise the result is the content itself or a parsable substring of it; the stage lemmas below fix which, one per branch |
| Ai.ExtractJsonNothingParses | server/ai.ts:97-98 | when no substring parses, the content comes back unchanged |
| Ai.ExtractJsonPrefersFencedBlock | server/ai.ts:55-64 | an unparsable content whose trimmed fenced block parses gives that block |
| Ai.ExtractJsonSearchesInsideBlock | server/ai.ts:55-78 | when the fenced block does not parse, the brace candidate is taken from the trimmed block, not from the whole content |
| Ai.ExtractJsonBraceStage | server/ai.ts:66-77 | without a fenced block that parses, a brace candidate that parses is the result |
| Ai.ExtractJsonBracketStage | server/ai.ts:80-94 | when neither the block nor the brace candidate parses, a bracket candidate that parses is the result |
| Ai.ExtractJsonNothingInsideBlock | server/ai.ts:55-98 | when a block exists and nothing inside it parses, the content comes back unchanged, whatever lies outside the fences |
| Ai.ExtractJsonNoCandidate | server/ai.ts:52-98 | when neither the content, the block, the brace candidate nor the bracket candidate parses, the content comes back unchanged |
| Ai.ExtractJsonMissesObjectAfterBlock | server/ai.ts:52-98 | concretely, "```x```{}" comes back whole although "{}" alone parses |
| Ai.SafeParseJson | server/ai.ts:104-107 | it succeeds exactly when the text `extractJSON` picks parses, and then decodes that text; every failure is the parse error; parsable content decodes as itself; success means some parsable substring was decoded; no parsable substring is an error |
| Ai.ReplyToResult | server/ai.ts:225-228 | a failed call propagates; missing or empty content is "AI response is empty"; otherwise the result equals `SafeParseJson` of the content |
| Ai.ClampTitleCount | server/ai.ts:143 | always in 1..100; the identity inside that range; 1 below it; 100 above it |
| Ai.TitleRequestFor | server/ai.ts:143-204 | the title schema's minItems and maxItems both equal the clamped count |
| Ai.RelevantHotContent | server/ai.ts:139-141 | the first min(5, n) of the n database posts that share the scenario or the emotion, in database order |
| Ai.RelevantIn | server/ai.ts:139-141 | over any data: the prefix of length min(5, n) of the matching posts, each sharing the scenario or the emotion |
| Ai.RelevantKeepsFewMatches | server/ai.ts:139-141 | when at most five posts match, every matching post is quoted |
| Ai.GenerateTitlesWithCount | server/ai.ts:123-229 | the reply to a request for exactly the clamped count, parsed as `ReplyToResult` states |
| Ai.GenerateTitles | server/ai.ts:110-119 | the same call with a schema of exactly ten titles |
| Ai.GenerateNote | server/ai.ts:232-317 | a failed call propagates; an empty reply is "AI response is empty"; a non-empty reply gives `SafeParseJson` of it; a note is always decoded from a parsable substring of the reply |
| Ai.Take | server/ai.ts:345-348 | `slice(0, n)`: the prefix of length min(len, n) |
| Ai.GenerateHashtags | server/ai.ts:320-362 | the hashtags are general[..3], scenario[..3], school tags and appeal[..2] in order; the school name comes first; with region tags, the rest of the four school tags is the region list's prefix, in order |
| Ai.HashtagCount | server/ai.ts:332-356 | 12 tags with region tags, 9 with only a school name, 8 otherwise |
| Ai.HashtagsWithoutRegionTags | server/ai.ts:332-341 | for sg and eu the school tags are at most the school name |
| Ai.MergeColorScheme | server/ai.ts:561-564 | the merged cover has the given scheme and every other field of the draft |
| Ai.GenerateCover | server/ai.ts:455-565 | succeeds iff the draft parses; the error is passed through; the colour scheme is the emotion's fixed one whatever the model said |
| Common.FilterCount | server/routers.ts:525-526 | `filter` keeps each element that passes as often as it occurs, and drops every other |
| Routers.AsyncPool | server/routers.ts:19-47 | tasks start in index order; at most max(1, limit) run at once, a bound that is reached; Ok gives every task's value in its index; Err is a task's error; all succeed ⇒ Ok |
| Routers.StartTask | server/routers.ts:27-42 | task i joins the running set; below the limit nothing settles; at the limit a race runs, and a failure it reports is the error of a task already started |
| Routers.Race | server/routers.ts:40-42 | at least one running task settles; a failure is that task's error; settled slots hold their task's value and no other slot changes |
| Routers.AwaitAll | server/routers.ts:45-46 | Ok once every remaining task succeeds, with every slot holding its task's value; Err is a remaining task's error |
| Routers.ClampConcurrency | server/routers.ts:235-237 | the pool size is in 1..10, BATCH_CONCURRENCY in range is kept, and the default is 3 |
| Routers.NonEmptyTexts | server/routers.ts:229 | every kept text is non-empty and comes from a title; each non-empty text is kept as often as it occurs and an empty text never; empty only when every text is empty |
| Routers.NonEmptyTextsSingle | server/routers.ts:229 | one title gives its text when that is non-empty and nothing otherwise |
| Routers.NonEmptyTextsAppend | server/routers.ts:229 | the texts kept from two runs of titles are those of the first followed by those of the second, so the order of the titles is kept |
| Routers.ComposeItem | server/routers.ts:263-272 | the item carries the title, the note text, the generated hashtags, the cover and the request fields |
| Routers.ItemOrNull | server/routers.ts:239-289 | null when the note or cover fails or the history write fails; otherwise the composed item, recorded in history |
| Routers.RawResults | server/routers.ts:236-290 | the worker's result for each title, at the title's position |
| Routers.Survivors | server/routers.ts:292 | the non-null results, in order |
| Routers.SurvivorsAppend | server/routers.ts:292 | dropping nulls distributes over concatenation |
| Routers.BatchTitles | server/routers.ts:228-229 | the titles the batch works on are all non-empty |
| Routers.GenerateBatch | server/routers.ts:212-299 | the result is `BatchSpec`; item generation starts only when titles were obtained, once per title in order |
| Routers.BatchRejectsCount | server/routers.ts:216 | a count outside 1..50 is rejected before any call |
| Routers.BatchWithoutTitles | server/routers.ts:228-233 | when no title text survives, the batch fails with "标题生成失败：未返回有效标题" |
| Routers.BatchSuccessShape | server/routers.ts:292-298 | a successful batch has 1 ≤ count == number of items ≤ number of titles; each item has one of the titles, the request fields and the emotion's colour scheme |
| Routers.BatchAllSucceed | server/routers.ts:292-298 | when every item succeeds, there is one item per title, in title order |
| Routers.SortByLikes | server/routers.ts:527 | the result is sorted by likes, descending, and is a permutation of the input |
| Routers.FilterAndSort | server/routers.ts:524-527 | sorted by likes descending; each post occurs as often as in the data when it matches the given filters, and not at all otherwise; no filters gives a permutation of the data |
| Routers.HotContentList | server/routers.ts:517-528 | the same, over the hot-post database |
| Routers.Unfiltered | server/routers.ts:524-527 | without filters, every hot post is listed exactly as often as it occurs in the data, and the list has the data's length |
| Feishu.ContentToRecord | server/feishu.ts:144-157 | a record with exactly the ten column names; title, note, cover text, scenario, emotion and persona copied; hashtags joined by spaces; a missing subtitle or school is ""; the creation date or else now |
| Feishu.RequiredNames | server/feishu.ts:113-124 | the names of the required columns are exactly the ten record keys |
| Feishu.RecordFitsRequiredFields | server/feishu.ts:113-157 | every record cell has the kind of its column: text for text and single-select, a timestamp for the date column |
| Feishu.HashtagCellRoundTrip | server/feishu.ts:148 | splitting the joined hashtag cell at spaces restores the hashtags when none contains a space |
| Feishu.Records | server/feishu.ts:204 | one record per content, in order |
| Feishu.CheckReply | server/feishu.ts:43-47 | code 0 gives the data; another code throws the prefix plus the reply's message; a failed request propagates |
| Feishu.GetTenantAccessToken | server/feishu.ts:31-48 | the reply's token iff the code is 0; another code gives "获取飞书 token 失败: " and the message; a failed request propagates its message |
| Feishu.GetBitableFields | server/feishu.ts:82-102 | the reply's items, or none when absent, iff the code is 0; another code gives "获取多维表格字段失败: " and the message; a failed request propagates its message |
| Feishu.AddBitableRecords | server/feishu.ts:51-79 | the record ids iff the reply code is 0, else "添加多维表格记录失败: " and the message; a failed request propagates its message |
| Feishu.FieldNames | server/feishu.ts:111 | the set of names of the existing fields |
| Feishu.MissingFieldsCharacterization | server/feishu.ts:126-127 | a required column is created iff its name is not among the existing fields |
| Feishu.MissingNamesAreSetDifference | server/feishu.ts:110-127 | the names created are the required names minus the existing names |
| Feishu.NothingMissingWhenAllPresent | server/feishu.ts:126-127 | a table that already has every column gets no create request |
| Feishu.CreateMissingFields | server/feishu.ts:126-140 | one create request, in order, per missing column; a create failure stops the loop with that error |
| Feishu.EnsureBitableFields | server/feishu.ts:105-141 | a field-list failure sends nothing; otherwise the missing required columns are created in order; the outcome is done exactly when the list succeeds and every creation is done; a failure after the list is the outcome of one of the creations |
| Feishu.FlattenChunks | server/feishu.ts:210-213 | concatenating the batches gives back the records |
| Feishu.ChunkSizes | server/feishu.ts:210-211 | every batch holds between 1 and 500 records |
| Feishu.ChunksAreFull | server/feishu.ts:210-211 | every batch but the last holds exactly 500 |
| Feishu.AddInBatches | server/feishu.ts:207-214 | one add request per 500-record chunk, in order; the ids collected are those of the chunks; the chunks sent are a prefix of all chunks; an error is the error of the first chunk whose add failed; when every chunk's add succeeds so does the whole |
| Feishu.BatchExportToFeishu | server/feishu.ts:186-223 | missing table settings or an empty list fail without a request; on success, the batches are the chunks of the records, the ids their concatenation, count the number of ids and the url the table's; a field-list error or a failed fields step is returned as the error; the fields step is done exactly when the list and every creation succeed, and success implies it was; a batch error is the add error of the first failing chunk; when the fields step and every chunk's add succeed, the export succeeds |
| Feishu.BatchesCoverRecords | server/feishu.ts:204-214 | the exported batches together are exactly the records of the contents, in order |
| Feishu.ExportToFeishu | server/feishu.ts:160-183 | the same checks; the record id is the first id returned; the url ends with `&view=vewXXX`; a field-list error or a failed fields step is returned as the error; the fields step is done exactly when the list and every creation succeed, and success implies it was; after the fields step, the export succeeds exactly when its one add succeeds, and otherwise returns that add's error |
| Feishu.ValidateFeishuConfig | server/feishu.ts:226-244 | valid iff the token is obtained and, when both table settings are present, the fields can be listed, with the four messages of the code |
| Feishu.ValidationIgnoresTableWithoutSettings | server/feishu.ts:231-240 | without both table settings, the field-list call does not affect the verdict |

## Left out

- Prompt text, the model call itself and the response schema's wording are not modelled. Model replies are parameters. `server/_core/llm.ts` is not part of this model.
- `JSON.parse` is not modelled as a parser. It is a predicate `isJson` plus a decoder, and a decoder always yields a value of the expected type.
- Routers.BatchTitles: a title reply that parses but has no `titles` array makes `titlesResult.titles.map` (server/routers.ts:229) throw a `TypeError`, and the batch fails. `decodeTitles` always yields a list, so that failure is not modelled.
- Ai.SafeParseJson: when nothing parses, the source rethrows the `SyntaxError` of `JSON.parse`, whose message depends on the JavaScript engine. The model uses one fixed message, `JsonParseErrorMessage`, so the exact text of that error for notes and covers is not modelled.
- Routers.GenerateBatch: the model and history calls are pure functions of their request. Two identical titles in one batch therefore get the same note and cover outcome, while in the source each call is an independent request that may succeed or fail on its own.
- Env.PlaceholderCharacterization: the length test counts Unicode code points, while `key.length` counts UTF-16 code units. A 19-code-point key holding one character outside the Basic Multilingual Plane has length 20 in JavaScript, so the source accepts it and the model calls it a placeholder.
- Ai.ReplyToResult: content that is present but not a string is treated as missing. Both give "AI response is empty".
- Regular-expression matching in `extractJSON` is modelled directly, not through a regex engine. The lazy capture ends at the first closing fence. When the first fence has no closing fence, no later fence can match either, so the model reports no block.
- `analyzeXhsAccount`, `getFeishuBitables` and `getFeishuTables` are not modelled. Neither are the single-item `generate.*` procedures, the persona/history/draft/content procedures, authentication, the database and the client pages. These are HTTP plumbing or storage around the core.
- `TITLE_TEMPLATES`, `COVER_COLORS`, `COVER_TEMPLATES`, `MANUS_API_KEY` and the non-model parts of `ENV` are not modelled. No modelled operation reads them.
- Routers.AsyncPool: real interleaving is not modelled. Which running task settles next is a nondeterministic choice, so the contract holds for every order. The start order and the concurrency peak are ghost traces.
- Routers.ClampConcurrency: a non-numeric `BATCH_CONCURRENCY` makes `Number(...)` NaN, and NaN is not modelled. The variable is an optional integer.
- Routers.BatchRejectsCount: zod's own error text is not modelled. A non-integer count such as 1.5 passes zod but is not modelled either, because counts are integers here. The other enum fields are enforced by their Dafny types.
- Routers.SortByLikes: stability of `Array.prototype.sort` is not stated. The twenty like counts in the database are distinct, so the order is fully determined.
- Strings.ToLower: lower-cases ASCII letters only. JavaScript's full Unicode case mapping is not modelled. Some non-ASCII characters lower-case to ASCII letters: U+212A KELVIN SIGN becomes `k`, so `sk-xxx` written with that sign is a placeholder in the source but not in the model.
- Feishu.ContentToRecord: `new Date(createdAt).getTime()` and `Date.now()` are parameters. An invalid date (NaN) is not modelled.
- Feishu.CreateMissingFields: the reply of each field-creation request is ignored, as in the source. Only a request that throws is a failure.
- Failures of `response.json()` and of `fetch` are folded into one "request failed" reply carrying the thrown message.
- Feishu API pagination of the field list is not modelled, and the source does not page either.
