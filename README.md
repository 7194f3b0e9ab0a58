# A verified model of the AI influencer posting pipeline and tkRadar discovery

This project is a Dafny model of the decision logic of three pieces of one repository. Each piece's selection, fallback and record-keeping rules are proved against specifications.

- **The legacy posting loop** (`auto_ai_influencer/`). This covers:
  - configuration defaults and secret masking;
  - the picture folder: the sorted supported images and the first one not yet used;
  - caption generation, with the chat model first and a template as fallback;
  - the SQLite store of posts, errors and engagement rows, with its migration backfill;
  - the Twitter and Xiaohongshu posters' pure helpers and their access-token cache;
  - one cycle of the bot runner: the per-cycle budget, fan-out to every poster with failures isolated, and one record per platform that succeeded.
- **The current pipeline** (`src/`). This covers:
  - settings loading, with secret clean-up and the missing-secrets check;
  - the `post_history` and `caption_log` store;
  - the image provider: a local unposted picture, else a cloud image, else the placeholder;
  - the three-tier caption provider, whose cloud tiers are switched off for good after an "unauthorized" answer;
  - the scheduler's slot parsing, the fan-out to posters and the single history row each run writes;
  - the pure pieces of the web application context: template cleaning, prompt and template resolution, the settings-override merge, boolean environment variables and the ready-folder listing.
- **tkRadar's search discovery** (`opt/murray/data/tkRadar/services.py`). This covers:
  - pulling the result list out of a TikHub search response;
  - reading a live anchor out of one result;
  - one discovery round, which deduplicates ids within the round, skips anchors already stored, rolls back failed commits and caps the new anchors per round.

External calls are explicit values: the chat model, the image generators, the posting APIs, TikHub, the database commit, the clock and `random.choice`. Each becomes a function parameter or a reply datatype, so every property holds for every possible answer. SQL tables are sequences of rows in insertion order. Directory listings are values. Objects whose fields change become classes: the two databases, the caption and image providers, the scheduler, the Xiaohongshu token cache, the secret scan of `load_settings` and the tkRadar session. Their loops are methods proved against recursive specification functions.

Files:

- `wrappers.dfy`: `Option` and `Result`.
- `text.dfy`: Python's string and path operations.
- `json.dfy`: JSON-like values with Python truthiness.
- One `legacy_*.dfy`, `pipeline_*.dfy` or `tk_radar.dfy` file per source file.

## Model

| member | source | states |
|---|---|---|
| LegacyConfig.MaskSensitiveValue | auto_ai_influencer/config.py:24-33 | a missing or empty value masks to "未配置"; any other value keeps a leading and a trailing part of it around the stars, at most 8 characters of it and never the whole of a value of length 2 or more |
| LegacyConfig.MaskBands | auto_ai_influencer/config.py:29-33 | the exact masked form in each length band: first character for up to 4, two and two for 5 to 8, four and four beyond |
| LegacyConfig.IsConfiguredExactly | auto_ai_influencer/config.py:73-84 | the bearer token plays no part in `is_configured`, and a missing or empty key, key secret, access token or token secret makes it false |
| LegacyConfig.PyInt | auto_ai_influencer/config.py:138 | `int()` of an integer setting is that integer |
| LegacyConfig.AsTextList | auto_ai_influencer/config.py:129 | a template list read as text keeps one entry per element |
| LegacyConfig.BuildAppConfig | auto_ai_influencer/config.py:119-179 | a non-dict fails; a built configuration has non-empty paths (`value or fallback`), at least one template, the Twitter credentials of the environment and the OpenAI key read from it with placeholders dropped |
| LegacyConfig.UnreadKeysGiveDefaults | auto_ai_influencer/config.py:119-179 | a dict setting none of the keys the loader reads gives every default: "images", "data/auto_ai.db", "data/bot.log", no dry run, the default templates, prompt and model, prefix "", suffix "", 280, 60 minutes, "Asia/Shanghai", an initial run, one post per cycle |
| LegacyConfig.TemplatesFallback | auto_ai_influencer/config.py:129 | a missing, null or empty template list falls back to the default templates; a non-empty list of strings is taken as it is |
| LegacyConfig.AsTextListOfStrings | auto_ai_influencer/config.py:129 | reading a list of strings as text gives back exactly those strings |
| LegacyConfig.IntervalChosen | auto_ai_influencer/config.py:143 | the interval of a built configuration is the scheduler section's `interval_minutes`, else the top-level `post_interval_minutes`, else 60 |
| LegacyConfig.OpenAiPlaceholderDropped | auto_ai_influencer/config.py:159-163 | a placeholder key (compared stripped and lower-cased) is dropped; any other non-empty key is kept stripped |
| LegacyCaption.ClientExactlyWithKey | auto_ai_influencer/caption.py:28-33 | the generator gets an OpenAI client exactly when the key is a non-empty string |
| LegacyCaption.BuildPrompt | auto_ai_influencer/caption.py:42-45 | the prompt is the configured prompt, then the "文件名：" label on a new line, then the image's file name, and nothing else |
| LegacyCaption.FromTemplate | auto_ai_influencer/caption.py:50-54 | a template caption fails on an empty template list (IndexError of `random.choice`); when it succeeds it names no model, names the template it used, that template is one of the configured ones and the text is that template formatted with the file stem |
| LegacyCaption.EveryTemplateReachable | auto_ai_influencer/caption.py:51-54 | every configured template that formats can be the one chosen |
| LegacyCaption.Generate | auto_ai_influencer/caption.py:47-77 | without a client, or when the chat call raises, the caption comes from a template; otherwise it is the first choice's reply stripped, naming the model; a result names a model exactly when it names no template |
| LegacyCaption.FirstDefaultFormats | auto_ai_influencer/config.py:104 | the first default template formats to its lead text followed by the file name |
| LegacyCaption.SecondDefaultFormats | auto_ai_influencer/config.py:105 | the second default template formats to its lead, the file name and its tail |
| LegacyCaption.DefaultTemplatesAlwaysFormat | auto_ai_influencer/caption.py:50-54 | with the default templates a template caption never fails and is one of the two default sentences around the image's stem |
| LegacyImageSource.ImagePaths | auto_ai_influencer/image_source.py:26 | a path is collected exactly when it is a regular file of the folder whose lower-cased suffix is a supported image suffix |
| LegacyImageSource.ListImages | auto_ai_influencer/image_source.py:19-27 | the listing is sorted, and empty when the folder does not exist |
| LegacyImageSource.ListImagesContents | auto_ai_influencer/image_source.py:19-27 | the listing is a permutation of the folder's image files, and a path is listed exactly when the folder exists and holds it as an image file |
| LegacyImageSource.FirstUnusedIsFirst | auto_ai_influencer/image_source.py:32-36 | the scan finds nothing exactly when every entry is used; otherwise it returns an unused entry with no unused entry before it |
| LegacyImageSource.NextImageUnused | auto_ai_influencer/image_source.py:29-36 | the next image is a listed, unused image; there is none exactly when every listed image is used |
| LegacyImageSource.NextImageIsSmallest | auto_ai_influencer/image_source.py:25-34 | the next image is an image file of the folder and sorts before every other unused listed image |
| LegacyImageSource.MissingFolderIsEmpty | auto_ai_influencer/image_source.py:22-24 | a missing folder lists nothing and yields no next image |
| LegacyStorage.RowOf | auto_ai_influencer/storage.py:86-101 | the inserted row keeps the record's path, caption, time, platform and external id; `tweet_id` repeats the external id only for Twitter; `dry_run` is 1 exactly for a dry run and otherwise 0 |
| LegacyStorage.ReadBack | auto_ai_influencer/storage.py:149-158 | a row read back always has a non-empty platform and keeps its time |
| LegacyStorage.ReadBackOfRowOf | auto_ai_influencer/storage.py:83-158 | storing a record and reading it back gives the same record, except that an empty external id of a non-Twitter post comes back as None |
| LegacyStorage.BackfillKeepsEmptyId | auto_ai_influencer/storage.py:174-182 | the backfill as written leaves an empty `external_id` empty although its `WHERE` clause selects that row |
| LegacyStorage.BackfillIntended | auto_ai_influencer/storage.py:174-182 | the intended backfill copies `tweet_id` into every selected row (a `tweet_id` with a NULL or empty `external_id`) and leaves every other row alone |
| LegacyStorage.BackfillIntendedFills | auto_ai_influencer/storage.py:174-182 | after the intended backfill a row with a non-empty `tweet_id` has an `external_id`; neither backfill changes what `list_recent_posts` reads |
| LegacyStorage.MigrateTwice | auto_ai_influencer/storage.py:160-183 | running the column migration again on a migrated table changes no row |
| LegacyStorage.NewestFirst | auto_ai_influencer/storage.py:144 | `ORDER BY posted_at DESC` is a permutation of the rows in non-increasing time order |
| LegacyStorage.LimitCount | auto_ai_influencer/storage.py:145 | `LIMIT` never returns more rows than there are |
| LegacyStorage.RecentRowsAreNewest | auto_ai_influencer/storage.py:140-148 | the limited query returns `min(limit, rows)` rows (all of them for a negative limit), and every row it leaves out is no newer than every row it returns |
| LegacyStorage.RecentRowsStored | auto_ai_influencer/storage.py:139-148 | the rows the query reads are stored rows, newest first (`ORDER BY posted_at DESC`), as many as `LIMIT` allows |
| LegacyStorage.LegacyDatabase.constructor | auto_ai_influencer/storage.py:39-73 | a new store has empty tables |
| LegacyStorage.LegacyDatabase.EnsureNewColumns | auto_ai_influencer/storage.py:160-183 | each existing row gets the missing columns' defaults and, when `tweet_id` already existed, the backfill as written; nothing else changes |
| LegacyStorage.LegacyDatabase.PostedImages | auto_ai_influencer/storage.py:128-134 | a path is posted exactly when some row of `posts` (dry runs included) names it |
| LegacyStorage.LegacyDatabase.RecordPost | auto_ai_influencer/storage.py:83-103 | exactly one row is appended to `posts`, the other tables are untouched, and the posted images gain the record's path |
| LegacyStorage.LegacyDatabase.RecordError | auto_ai_influencer/storage.py:105-115 | exactly one error row with the context, message and time is appended; the other tables are untouched |
| LegacyStorage.LegacyDatabase.RecordEngagement | auto_ai_influencer/storage.py:117-126 | exactly one snapshot is appended to `engagements`; posts, errors and the posted images are untouched |
| LegacyStorage.LegacyDatabase.ListRecentPosts | auto_ai_influencer/storage.py:136-158 | the listing has `min(limit, rows)` records, newest first, each one read back from a stored row |
| LegacyPoster.PostResult.TweetId | auto_ai_influencer/poster.py:31-37 | `tweet_id` is the post id for Twitter and None for every other platform |
| LegacyPoster.NewTweetPoster | auto_ai_influencer/poster.py:60-66 | a Twitter poster runs dry exactly when asked to or when the credentials are incomplete |
| LegacyPoster.ItemPiece | auto_ai_influencer/poster.py:149-157 | an error item yields a piece only when it is a dict with a truthy `message` or `detail` |
| LegacyPoster.CollectAppend | auto_ai_influencer/poster.py:149-157 | collecting pieces over two lists is collecting over each in turn |
| LegacyPoster.CollectInOrder | auto_ai_influencer/poster.py:149-157 | there are never more pieces than items, and when every item yields one they come in the items' order |
| LegacyPoster.PiecesInOrder | auto_ai_influencer/poster.py:146-157 | the error pieces are at most one per item, in the items' order, and distribute over concatenation |
| LegacyPoster.ExtractTwitterErrorDetail | auto_ai_influencer/poster.py:133-168 | the loop over `errors` returns the detail text: the exception's text without a dict payload, else the pieces and the top-level `detail` joined by "；", else the payload dumped as JSON |
| LegacyPoster.ErrorDetailFallbacks | auto_ai_influencer/poster.py:133-168 | without a dict body the detail is the exception's text; a dict body with no `errors` list and no truthy `detail` reads as its JSON dump |
| LegacyPoster.CodedErrorWithDetail | auto_ai_influencer/poster.py:145-162 | for any non-empty code, message and detail, a body with one coded entry and a top-level detail reads "code: message；detail" |
| LegacyPoster.TweetPost | auto_ai_influencer/poster.py:92-130 | a dry run returns at once with no post id; a created tweet returns the text and `str` of its id; every API error or unexpected exception is an error; a success is always for Twitter with the given text |
| LegacyPoster.NormalizeMimeType | auto_ai_influencer/poster.py:211-236 | a missing or empty type gives None; a result is always an allowed type, reached directly or through the alias table from the lower-cased input; an allowed type is returned lower-cased, and an alias (in any case) gives the type it stands for |
| LegacyPoster.NormalizeMimeIdempotent | auto_ai_influencer/poster.py:211-236 | normalising a normalised type changes nothing |
| LegacyPoster.NormalizeMimeIgnoresCase | auto_ai_influencer/poster.py:218 | normalisation does not depend on letter case |
| LegacyPoster.CutLine | auto_ai_influencer/poster.py:358 | cutting a line that starts with a non-space to `n > 0` characters and stripping the right leaves a non-empty prefix of at most `n` characters |
| LegacyPoster.Summary | auto_ai_influencer/poster.py:357-360 | the summary is never empty and respects a positive maximum; for blank text it is a prefix of "AI 灵感", otherwise a prefix of the first line of the stripped text |
| LegacyPoster.BuildTitle | auto_ai_influencer/poster.py:354-365 | a positive `title_max_length` bounds the title's length |
| LegacyPoster.TitleFromSummary | auto_ai_influencer/poster.py:361-365 | with the `{summary}` template, or a template whose field is unknown (the formatting error is caught), the title is the summary |
| LegacyPoster.TitleIsSummary | auto_ai_influencer/poster.py:361-365 | whenever the template fails or formats to the summary, the title is the summary |
| LegacyPoster.BlankTextTitle | auto_ai_influencer/poster.py:357-365 | blank text with room for it gets the title "AI 灵感" |
| LegacyPoster.NoteIdFrom | auto_ai_influencer/poster.py:399-409 | a note id is found exactly when one of the keys yields one, and it is the one of the first such key |
| LegacyPoster.NoteIdOrder | auto_ai_influencer/poster.py:396-409 | `note_id` wins over `id`, which wins over `data`; there is no note id exactly when none of the three yields one |
| LegacyPoster.ExtractNoteId | auto_ai_influencer/poster.py:396-409 | a reply with none of "note_id", "id" and "data" has no note id; a non-empty text under "note_id" is the note id |
| LegacyPoster.SafeExtractError | auto_ai_influencer/poster.py:368-380 | without a dict body the reply text is the error; a non-empty text `error_description` is the error; with neither `error_description` nor `message` truthy the reply text is |
| LegacyPoster.SafeJson | auto_ai_influencer/poster.py:383-393 | a body accepted as JSON is always a dict |
| LegacyPoster.PublishOutcome | auto_ai_influencer/poster.py:289-301 | publishing succeeds exactly when the request went through with a status below 400 and a dict body, and then yields the note id extracted from that body |
| LegacyPoster.TokenGrant | auto_ai_influencer/poster.py:323-331 | a granted token is always truthy |
| LegacyPoster.Lifetime | auto_ai_influencer/poster.py:334 | a token lives `max(expires_in - 30, 60)` seconds: at least 60 and at least `expires_in - 30`, and equal to one of them |
| LegacyPoster.FreshTokenIsCached | auto_ai_influencer/poster.py:308-334 | a token just granted is reused for at least the next 30 seconds |
| LegacyPoster.XiaohongshuPoster.constructor | auto_ai_influencer/poster.py:248-254 | the poster runs dry exactly when asked to, when unconfigured or when disabled, and starts with no token |
| LegacyPoster.XiaohongshuPoster.EnsureAccessToken | auto_ai_influencer/poster.py:304-335 | a cached token still valid 30 seconds ahead is reused unchanged; otherwise a grant is cached with its lifetime; a failed grant is an error and leaves the cache as it was |
| LegacyPoster.XiaohongshuPoster.Post | auto_ai_influencer/poster.py:267-302 | a dry run returns at once with no note id and leaves the token cache alone; otherwise the post succeeds exactly when a token is at hand and the publish reply is accepted, and then carries the extracted note id; the token cache is kept when valid, replaced by a granted token, and kept when the grant fails |
| LegacyRunner.JoinedBareCaption | auto_ai_influencer/runner.py:79-80 | with a blank prefix and suffix the joined text is just the stripped caption |
| LegacyRunner.Truncate | auto_ai_influencer/runner.py:83-85 | a cut text ends in "…", keeps a prefix of the text with no trailing space before the mark, and fits a positive maximum |
| LegacyRunner.AssembleTweet | auto_ai_influencer/runner.py:76-85 | the tweet is the stripped non-empty parts joined by spaces when it fits `max_length`, and that text cut with "…" otherwise; it never exceeds a positive maximum |
| LegacyRunner.AssembleXiaohongshu | auto_ai_influencer/runner.py:87-97 | the note is the stripped non-empty parts joined by newlines, cut with "…" only when a positive maximum is exceeded; it never exceeds a positive maximum |
| LegacyRunner.TextFor | auto_ai_influencer/runner.py:117-124 | Twitter gets the assembled tweet, Xiaohongshu the assembled note, any other platform the stripped caption |
| LegacyRunner.EveryPosterAccounted | auto_ai_influencer/runner.py:99-115 | every poster yields either a result or an error row whose context is "post:" and its platform; with no failing poster there is no error row |
| LegacyRunner.AttemptStep | auto_ai_influencer/runner.py:106-114 | one more poster adds its result on success and its "post:platform" error otherwise, and nothing else |
| LegacyRunner.ErrorRows | auto_ai_influencer/runner.py:112 | one error row per failing poster |
| LegacyRunner.ErrorRowsContents | auto_ai_influencer/runner.py:112 | the k-th error row carries the k-th failure's context and message and the time of its insertion |
| LegacyRunner.PostToAll | auto_ai_influencer/runner.py:99-115 | the results are the successes in poster order; each failure appends its error row in order; no post row is written |
| LegacyRunner.CycleOf | auto_ai_influencer/runner.py:38-41 | a cycle scans the folder's sorted listing with the configured budget |
| LegacyRunner.PostRows | auto_ai_influencer/runner.py:52-61 | one post row per result |
| LegacyRunner.Run | auto_ai_influencer/runner.py:38-71 | a run only appends rows to both tables; a run that picks no image writes no post row; a spent budget ends it at once with nothing written |
| LegacyRunner.RunWithinBudget | auto_ai_influencer/runner.py:39-64 | the count grows by exactly the images picked and never passes `max_posts_per_cycle` |
| LegacyRunner.RunPicksDistinct | auto_ai_influencer/runner.py:38-63 | the images picked in one run are distinct, listed and not posted before |
| LegacyRunner.RunnerPicksFolderImages | auto_ai_influencer/runner.py:35-74 | a run posts at most `max_posts_per_cycle` images, distinct, from the folder and not posted before, and its count is the number picked |
| LegacyRunner.FactsAppend | auto_ai_influencer/runner.py:52-61 | the rows' recorded facts distribute over appending rows |
| LegacyRunner.PostRowsFacts | auto_ai_influencer/runner.py:52-61 | each result's row records its image, text, platform, post id and dry-run flag |
| LegacyRunner.OwedFromIsAppend | auto_ai_influencer/runner.py:52-61 | the rows owed for the picked images follow the rows already there |
| LegacyRunner.RunRecordsFrom | auto_ai_influencer/runner.py:40-64 | the post rows after a run are the earlier ones followed by the owed rows of each picked image in order |
| LegacyRunner.RunRecordsEverySuccess | auto_ai_influencer/runner.py:40-64 | every success of every picked image is recorded, in order, after the rows already there, and nothing else |
| LegacyRunner.FailureRowsFromPosters | auto_ai_influencer/runner.py:110-113 | the error rows `_post_to_all` writes all have a poster context |
| LegacyRunner.RunPostErrorEndsCycle | auto_ai_influencer/runner.py:68-71 | a run only appends error rows, and all but the last of them come from posters and none of those is a bare "post" row: a failing caption step ends the cycle |
| LegacyRunner.RecordResults | auto_ai_influencer/runner.py:52-61 | each result becomes one post row, in order; the error table is untouched |
| LegacyRunner.CycleStep | auto_ai_influencer/runner.py:41-71 | one pass of the loop either ends the run where the specification ends it or posts the next image and leaves the rest of the run to the specification |
| LegacyRunner.NextOf | auto_ai_influencer/runner.py:41 | the image chosen is the first unused one of the listing |
| LegacyRunner.Advance | auto_ai_influencer/runner.py:41-71 | one pass of the loop, measured against the end of the run: either the tables already are the final ones and the count is the final count, or the next image is used and posted and the rest of the run reaches the same end |
| LegacyRunner.RunCycle | auto_ai_influencer/runner.py:38-74 | the loop leaves the tables and the count exactly as the specification `Run` computes from the posted images |
| LegacyRunner.RunOnce | auto_ai_influencer/runner.py:35-74 | `run_once` leaves the tables and the count exactly as `Run` computes for the runner's folder and budget |
| PipelineConfig.CleanSecretMeaning | src/config.py:88-104 | a kept secret is the stripped value, non-empty and no placeholder; a value is dropped exactly when it strips to nothing or is a placeholder (compared lower-cased) |
| PipelineConfig.CleanSecretIdempotent | src/config.py:88-104 | cleaning a cleaned secret changes nothing |
| PipelineConfig.SecretScan.constructor | src/config.py:86 | the scan starts with no placeholder names |
| PipelineConfig.SecretScan.Normalize | src/config.py:88-104 | `_normalize_secret` returns the cleaned secret and adds the secret's name to the placeholder set exactly when the value was a placeholder |
| PipelineConfig.KeepStrippedClean | src/config.py:124 | every slot kept from a comma list is non-empty and already stripped |
| PipelineConfig.KeepStrippedComplete | src/config.py:124 | every part that is not blank is kept, stripped |
| PipelineConfig.KeepStrippedAvoids | src/config.py:124 | a character absent from every part is absent from every kept slot |
| PipelineConfig.SlotList | src/config.py:122-126 | a list is taken as it is; a string becomes its comma-separated, stripped, non-empty parts; any scalar other than a string is an error (`list()` of it raises) |
| PipelineConfig.SingleSlot | src/config.py:123-124 | a string without commas that is not blank is one slot, stripped |
| PipelineConfig.MissingSecretsNamed | src/config.py:145-153 | nothing is missing when the pipeline is disabled; the OpenAI key is missing exactly when enabled without it; a cloud token is missing exactly when enabled, that source is selected and its token is absent; no name is listed twice |
| PipelineConfig.CloudSourceSelected | src/config.py:48-52 | selecting "replicate" or "leonardo" enables cloud images |
| PipelineConfig.LowerCloudSource | src/config.py:48-52 | for a lower-case source, cloud images are enabled exactly for "replicate" and "leonardo" |
| PipelineConfig.NameOrder | src/config.py:156 | the three secret names compare, strictly, as their alphabetical ranks leonardo_token < openai_api_key < replicate_token |
| PipelineConfig.Ordered | src/config.py:155-161 | the ordered names are exactly the given set, each once, in rank order |
| PipelineConfig.SortedNamesExact | src/config.py:155-161 | `sorted(set(...))` lists each given name exactly once, in strictly increasing order |
| PipelineConfig.MissingNamesListed | src/config.py:155-156 | the message lists exactly the missing names |
| PipelineConfig.NormalizedIsClean | src/config.py:88-104 | a normalised secret is absent or a stripped, non-empty, non-placeholder string |
| PipelineConfig.ReadSecrets | src/config.py:106-120 | the three secrets are read exactly when none of the chosen values raises in `_normalize_secret`; each is the normalised chosen value, and the placeholder set gains exactly the names whose chosen value was a placeholder |
| PipelineConfig.BuildConfig | src/config.py:128-143 | the image source is lower-cased, `enable` is the truthiness of the setting, and the secrets are the cleaned ones |
| PipelineConfig.PlaceholdersMeaning | src/config.py:88-120 | a secret's name is in the placeholder set exactly when the value chosen for it is a text that is not blank once stripped and, stripped and lower-cased, is a known placeholder |
| PipelineConfig.SecretsAreClean | src/config.py:88-120 | secrets read through `_normalize_secret` are all clean |
| PipelineConfig.Assemble | src/config.py:122-143 | the record is built exactly when `post_slots` can be listed and the scheduler section is a dict; it is `BuildConfig` of those parts, with `enable` from its section and only clean secrets |
| PipelineConfig.ReadParts | src/config.py:79-120 | the paths and secrets are read exactly when the three paths are texts and no chosen secret value raises; they are the paths given and the normalised secrets, and the placeholder set names the placeholder secrets |
| PipelineConfig.ReadFromParts | src/config.py:122-143 | once paths and secrets are read, the whole read succeeds exactly when the slot list and the scheduler section do, and builds the record of those parts |
| PipelineConfig.ReadConfigClean | src/config.py:88-143 | a record read from the configuration has a lower-case image source, `enable` from its section and only clean secrets |
| PipelineConfig.ReadSettings | src/config.py:79-143 | reading succeeds exactly when the file holds a dict with a dict section, text paths, text-or-absent secrets, a listable `post_slots` and a dict scheduler section; the record is the one those settings, the environment and the base key determine, clean, with its placeholder names |
| PipelineConfig.BaseKey | src/config.py:76-111 | the key passed on from `load_config` is the base configuration's `OPENAI_API_KEY`, stripped and with placeholders dropped |
| PipelineConfig.LoadSettings | src/config.py:67-172 | a base configuration `build_app_config` rejects makes loading fail before the section is read; otherwise `missing` is the missing-secrets list of the record read with the base key (empty when reading fails); loading succeeds exactly when the base configuration builds, reading succeeds and nothing is missing, and returns that record, clean and with cloud images on exactly for "replicate" and "leonardo"; otherwise with secrets missing it fails with the message naming them and the placeholders, only for an enabled pipeline |
| PipelineConfig.Missing | src/config.py:145-153 | nothing is missing for a disabled pipeline, and at most two secrets are: the OpenAI key and the token of the one generator selected |
| PipelineConfig.NothingMissingExactly | src/config.py:145-153 | for a lower-case source the check passes exactly when the pipeline is disabled, or the OpenAI key is set and the selected generator, if any, has its token |
| PipelineDatabase.DictOrEmpty | src/database.py:73 | `result or {}`: a truthy payload is kept, any falsy one becomes the empty dict |
| PipelineDatabase.HistoryRowOf | src/database.py:73-90 | the row stores the path's file name and the path, the caption, style, time and error as given, the payload or `{}`, and `dry_run` as 1 exactly for a dry run and 0 otherwise |
| PipelineDatabase.LatestNamed | src/database.py:147-152 | the subquery finds no row exactly when no row has that name; otherwise it finds a row with that name and no later row has it |
| PipelineDatabase.MarkedChangesLatestOnly | src/database.py:136-156 | marking a result changes only the latest row with that name, setting its result (or `{}`) and error; no row changes when the name is absent; the row count is kept |
| PipelineDatabase.LatestNamedSkip | src/database.py:147-152 | a last row with another name does not change which row is the latest with that name |
| PipelineDatabase.Database.constructor | src/database.py:16-55 | a new database has empty tables |
| PipelineDatabase.Database.PostedImages | src/database.py:57-60 | the posted images are the stored file names, one per row, in insertion order (repeats kept) |
| PipelineDatabase.Database.RecordPost | src/database.py:62-91 | exactly one history row is appended; the caption log is untouched; the file name is then among the posted images and heads the history |
| PipelineDatabase.Database.LogCaption | src/database.py:93-118 | exactly one caption row with the file name, style, caption, provider, `extra or {}` and time is appended; the history is untouched |
| PipelineDatabase.Database.FetchPostHistory | src/database.py:120-126 | `ORDER BY id DESC LIMIT n` returns `min(n, rows)` rows (all for a negative limit), newest first, each one stored |
| PipelineDatabase.Database.FetchCaptionLogs | src/database.py:128-134 | the same for the caption log |
| PipelineDatabase.Database.MarkPostResult | src/database.py:136-156 | the history becomes the marked history (only the latest row with the name changes); the caption log is untouched |
| PipelineImage.FirstNotPostedIsFirst | src/pipeline/image_provider.py:82-86 | the scan finds nothing exactly when every candidate's file name is posted; otherwise it returns the first candidate whose name is not |
| PipelineImage.FirstNotPosted | src/pipeline/image_provider.py:82-86 | a found path is one of the candidates and its file name has not been posted |
| PipelineImage.PickLocalIsFirstUnposted | src/pipeline/image_provider.py:76-86 | a local pick is a "local" image file of the ready folder whose name is not posted and that sorts before every other unposted candidate; there is none exactly when every candidate's name is posted |
| PipelineImage.PickLocal | src/pipeline/image_provider.py:76-86 | a local pick has source "local" and the "ready_to_post" reason, is a candidate of the ready folder, and its file name has not been posted |
| PipelineImage.ReplicateFinish | src/pipeline/image_provider.py:166-176 | only a "succeeded" prediction with a truthy output yields an image; it is from "replicate" with the status as its metadata, and its URL is the first output of a list or the output string itself |
| PipelineImage.ReplicateRequest | src/pipeline/image_provider.py:117-176 | an image obtained through Replicate says it comes from "replicate" |
| PipelineImage.LeonardoRequest | src/pipeline/image_provider.py:178-220 | an image obtained through Leonardo says it comes from "leonardo" and carries the generation id metadata |
| PipelineImage.LeonardoFirstImage | src/pipeline/image_provider.py:208-220 | a reply whose first generation has an image URL yields that URL with that generation's id, whatever generations follow |
| PipelineImage.CloudGate | src/pipeline/image_provider.py:95-115 | no cloud call happens unless the source is a cloud one and either the call is forced or the pipeline is enabled; then "leonardo" goes to Leonardo and everything else to Replicate |
| PipelineImage.UnknownSourceIsReplicate | src/pipeline/image_provider.py:107-110 | a cloud source other than "leonardo" uses the Replicate generator |
| PipelineImage.FileName | src/pipeline/image_provider.py:225 | the downloaded file is named after its provider, an underscore, and ends in ".png" |
| PipelineImage.Downloaded | src/pipeline/image_provider.py:222-236 | a download succeeds exactly when `requests` is installed and the fetch succeeds, and then names the provider and the new file in the ready folder |
| PipelineImage.AddFile | src/pipeline/image_provider.py:230 | writing a file keeps every existing entry and adds one with the new name |
| PipelineImage.CloudImage | src/pipeline/image_provider.py:95-115 | no image is generated when the source is not a cloud one, nor unforced for a disabled pipeline; a generated image is the ready-folder file named after its provider |
| PipelineImage.CloudImageSource | src/pipeline/image_provider.py:95-236 | a cloud image comes from "replicate" or "leonardo", lies in the ready folder under its provider's file name, and that file now exists there |
| PipelineImage.PlaceholderServedNext | src/pipeline/image_provider.py:48-93 | a missing placeholder served by `get_image` and written directly into the ready folder under a supported, unposted name is served as a "local" image by the next `get_image`, whatever the cloud does then |
| PipelineImage.Served | src/pipeline/image_provider.py:48-64 | an unposted local image is served as it is; with none, a disabled pipeline or a non-cloud source serves the default image |
| PipelineImage.Regenerated | src/pipeline/image_provider.py:66-74 | with a non-cloud source a forced generation always serves the default image, whether or not the pipeline is enabled |
| PipelineImage.ServedOrder | src/pipeline/image_provider.py:48-64 | a local image always wins; otherwise a cloud image; the default image is served exactly when there is no local image and no cloud image |
| PipelineImage.DisabledServesOffline | src/pipeline/image_provider.py:56-105 | a disabled pipeline or a local source never depends on the network, and with nothing local it serves the default image |
| PipelineImage.RegeneratedNeverLocal | src/pipeline/image_provider.py:66-74 | a forced generation never returns a local image |
| PipelineImage.ImageProvider.constructor | src/pipeline/image_provider.py:41-46 | the provider keeps its configuration, its database and the ready folder it sees |
| PipelineImage.ImageProvider.DefaultImage | src/pipeline/image_provider.py:88-93 | the default result names the configured default image; a missing placeholder is written, and when it lies directly in the ready folder that folder gains it; an existing one leaves everything unchanged |
| PipelineImage.ImageProvider.DownloadRemoteImage | src/pipeline/image_provider.py:222-236 | the result is the specified download, and the ready folder gains the file exactly when it succeeds |
| PipelineImage.ImageProvider.GenerateCloudImage | src/pipeline/image_provider.py:95-115 | the result and the ready folder are those of the specified cloud generation |
| PipelineImage.ImageProvider.GetImage | src/pipeline/image_provider.py:48-64 | the image is the one served from the database's posted names; the folder is unchanged when a local image is found, gains the cloud file when one is downloaded, and gains a placeholder written into it when the default is served; the placeholder is written exactly when the default image is served |
| PipelineImage.ImageProvider.GenerateImage | src/pipeline/image_provider.py:66-74 | the result is the forced generation, or the default image when it yields nothing; the folder gains the downloaded file, or the placeholder written into it when the default is served |
| PipelineCaption.SettingsOf | src/pipeline/caption_provider.py:50-52 | reading the caption section succeeds exactly when it is a dict (or missing); without it the templates are `[]`, the prompt "" and the model default |
| PipelineCaption.EffectiveStyle | src/pipeline/caption_provider.py:70 | a non-empty style given by the caller wins; otherwise the configured caption style |
| PipelineCaption.Metadata | src/pipeline/caption_provider.py:71 | the metadata is a truthy dict holding the style and the image's file name |
| PipelineCaption.UserPrompt | src/pipeline/caption_provider.py:102-108 | the prompt always ends with the instruction sentence naming the file and style; a configured prompt comes first, and without one that sentence is all |
| PipelineCaption.ResponsesInput | src/pipeline/caption_provider.py:137-158 | one converted message per message |
| PipelineCaption.ConvertedKeepsRoleAndText | src/pipeline/caption_provider.py:142-157 | a message with string content keeps its role (default "user") and wraps its text in one text part; any other message is kept as it is |
| PipelineCaption.ConvertMessagesToResponses | src/pipeline/caption_provider.py:137-158 | the loop converts every message, in order, as `ConvertedMessage` says |
| PipelineCaption.ItemTextsFromDicts | src/pipeline/caption_provider.py:218-227 | at most one text per item, and none from a list with no dict items |
| PipelineCaption.NormalizeContentStripped | src/pipeline/caption_provider.py:212-229 | normalising normalised content changes nothing |
| PipelineCaption.NormalizeContent | src/pipeline/caption_provider.py:212-229 | normalised content never starts or ends with white space, and content that is neither a string nor a list normalises to "" |
| PipelineCaption.NormalizeOpenaiContent | src/pipeline/caption_provider.py:212-229 | the loop computes the normalised content, and content that is neither a string nor a list gives "" |
| PipelineCaption.SdkOutcome | src/pipeline/caption_provider.py:73-81 | an SDK answer is used only when its text is non-empty, and the tier reports an authorisation failure exactly when the SDK raised one |
| PipelineCaption.HttpText | src/pipeline/caption_provider.py:284-293 | a text taken from an HTTP reply is non-empty and stripped |
| PipelineCaption.HttpTextOfStringContent | src/pipeline/caption_provider.py:284-293 | with string content in the first choice the text is that content stripped, or nothing when it is blank, whatever choices follow |
| PipelineCaption.HttpTier | src/pipeline/caption_provider.py:248-293 | the HTTP tier yields only non-empty text |
| PipelineCaption.DefaultCaption | src/pipeline/caption_provider.py:300 | the caption without templates embeds the file stem between a fixed head and tail |
| PipelineCaption.TemplateCaption | src/pipeline/caption_provider.py:295-301 | without templates the default caption is used; with a list of templates a result is one of them formatted with the file name and style |
| PipelineCaption.RenderKnownFields | src/pipeline/caption_provider.py:298 | a template whose fields are all known formats |
| PipelineCaption.TemplateNeverFails | src/pipeline/caption_provider.py:295-301 | with no templates, or a list of string templates naming only `filename` and `style`, a template caption never fails |
| PipelineCaption.EveryTemplateReachable | src/pipeline/caption_provider.py:297-298 | every template that formats can be chosen, and then it gives its formatted text |
| PipelineCaption.ResolveTierOrder | src/pipeline/caption_provider.py:67-98 | the provider is "openai" exactly when the client tier answered; "openai_http" only when the SDK did not, the HTTP fallback is on, a key is set and the HTTP tier answered; otherwise the template caption; cloud text is never empty |
| PipelineCaption.Resolve | src/pipeline/caption_provider.py:67-98 | with both cloud tiers off only the templates answer and the tier state stays as it was; a call fails only when formatting the template fails |
| PipelineCaption.ResolveMetadata | src/pipeline/caption_provider.py:70-98 | every caption carries the effective style and the image's file name as metadata |
| PipelineCaption.ResolveOnlyDisables | src/pipeline/caption_provider.py:67-98 | a call never turns a tier on; the tiers either stay as they were or are all switched off |
| PipelineCaption.SdkAuthErrorDisables | src/pipeline/caption_provider.py:73-90 | an authorisation error from the SDK switches both cloud tiers off, skips the HTTP call and leaves the template caption |
| PipelineCaption.HttpStatusEffect | src/pipeline/caption_provider.py:88-94 | an HTTP 401 switches the cloud tiers off; any other HTTP error leaves them; either way the template caption is used |
| PipelineCaption.DisabledUsesTemplates | src/pipeline/caption_provider.py:73-98 | with the cloud tiers off no cloud call is made and the caption is the template caption |
| PipelineCaption.EmptySdkTextFallsThrough | src/pipeline/caption_provider.py:132-134 | an empty SDK answer is treated exactly like an exception from the SDK |
| PipelineCaption.CaptionProvider.constructor | src/pipeline/caption_provider.py:41-65 | a client exists exactly when a key is set, the SDK is installed and creating it succeeded; the HTTP fallback is on exactly when a key is set |
| PipelineCaption.CaptionProvider.HandleOpenaiAuthError | src/pipeline/caption_provider.py:327-333 | both cloud tiers are switched off |
| PipelineCaption.CaptionProvider.CallOpenai | src/pipeline/caption_provider.py:100-135 | the SDK call yields the specified tier outcome |
| PipelineCaption.CaptionProvider.CallOpenaiHttp | src/pipeline/caption_provider.py:248-293 | the HTTP call yields the specified tier outcome |
| PipelineCaption.CaptionProvider.LogCaption | src/pipeline/caption_provider.py:303-319 | exactly one caption row is appended; the post history is untouched |
| PipelineCaption.CaptionProvider.GetCaption | src/pipeline/caption_provider.py:67-98 | the caption and the new tier state are the ones `Resolve` specifies; a caption is logged once with the effective style; nothing is logged when formatting fails; the post history is untouched |
| PipelineScheduler.Clamp | src/scheduler.py:164-165 | `max(lo, min(hi, v))` lies in the range and keeps a value already in it |
| PipelineScheduler.ParseSlot | src/scheduler.py:162-168 | a parsed slot is an hour in 0..23 and a minute in 0..59; a non-string or a string without ':' is skipped |
| PipelineScheduler.ParseSlotClamps | src/scheduler.py:163-166 | "h:m" with integer parts gives the clamped hour and minute |
| PipelineScheduler.SlotsInRange | src/scheduler.py:159-169 | there are never more slots than entries, and every slot is in range |
| PipelineScheduler.SlotsAppend | src/scheduler.py:161-168 | normalising two lists is normalising each in turn |
| PipelineScheduler.SlotsSingle | src/scheduler.py:161-168 | one entry gives its slot, or nothing when it is invalid |
| PipelineScheduler.SlotsStep | src/scheduler.py:161-168 | each loop pass appends the current entry's slot, if any |
| PipelineScheduler.ReadSlot | src/scheduler.py:162-168 | the split-and-parse step computes the specified slot |
| PipelineScheduler.NormalizedSlots | src/scheduler.py:159-169 | the loop returns the valid slots, clamped, in their order |
| PipelineScheduler.Register | src/scheduler.py:56-59 | one job is registered per normalised slot, in order |
| PipelineScheduler.ResultsAndErrorsPartition | src/scheduler.py:175-191 | every poster gives a result or an error; there are no errors exactly when every poster succeeds |
| PipelineScheduler.ResultsAndErrorsAppend | src/scheduler.py:181-189 | results and errors over two poster lists are those of each in turn |
| PipelineScheduler.ResultsAndErrorsSingle | src/scheduler.py:182-189 | one poster gives its result, or an error naming its platform and message |
| PipelineScheduler.PostToAll | src/scheduler.py:175-191 | the loop returns the results and the errors, each in poster order |
| PipelineScheduler.PostsJson | src/scheduler.py:123-130 | one post entry per result, each built from that result |
| PipelineScheduler.ErrorsJson | src/scheduler.py:186 | one error entry per error |
| PipelineScheduler.PrepareFailureRow | src/scheduler.py:87-98 | a failure while preparing records the default image, an empty caption, the configured style, a dry run, the error text and the stage "prepare" with the reason |
| PipelineScheduler.RunRecord | src/scheduler.py:79-144 | a failed image or caption step always writes a dry-run row for the default image; no row is written only when both steps succeeded and the style cannot be read; otherwise the row records the prepared image and caption |
| PipelineScheduler.NoResultRow | src/scheduler.py:107-119 | with no result the row is a dry run of the image and caption whose error joins the posters' errors with "; ", or says that no channel was found |
| PipelineScheduler.PublishRecord | src/scheduler.py:107-144 | a publishing row is written exactly when the caption's style can be read; it records the image path, the caption text and that style, and carries an error exactly when no poster returned a result |
| PipelineScheduler.ResultRow | src/scheduler.py:121-143 | with results the row has no error, is a dry run exactly when every result is, and lists each result's platform under "posts" |
| PipelineScheduler.CaptionStyleRecorded | src/scheduler.py:112-138 | the style recorded is the one in the caption's metadata |
| PipelineScheduler.PipelineScheduler.constructor | src/scheduler.py:30-45 | the scheduler keeps its collaborators and starts without a running scheduler |
| PipelineScheduler.PipelineScheduler.Start | src/scheduler.py:47-62 | a disabled pipeline changes nothing; an enabled one runs a scheduler with one job per normalised slot |
| PipelineScheduler.PipelineScheduler.Shutdown | src/scheduler.py:64-68 | a running scheduler is dropped; otherwise nothing changes |
| PipelineScheduler.CaptionState | src/scheduler.py:80-86 | the caption log only grows, by at most one row; a run that served no image leaves the tiers and the log as they were, and one that did leaves the tiers `get_caption` leaves |
| PipelineScheduler.PipelineScheduler.Prepare | src/scheduler.py:80-86 | the image served is the specification `Served` of the ready folder and posted names, the caption is `get_caption`'s with the configured style (none when no image came back); the ready folder, the caption tiers and the caption log end as those calls leave them, and the post history is untouched |
| PipelineScheduler.PipelineScheduler.RunPipeline | src/scheduler.py:78-157 | one run serves an image, captions it with the configured style, posts it and appends exactly the history row the specification `RunRecord` gives; when that record cannot be built the error is raised and no row is written; the ready folder ends as `ServedEntries` says, and the caption tiers and caption log as `CaptionState` says, so consecutive runs can be chained |
| PipelineApp.CleanedItemsAppend | src/main.py:64-72 | cleaning two lists is cleaning each in turn |
| PipelineApp.CleanedItemsStripped | src/main.py:64-72 | every cleaned template is non-empty and stripped |
| PipelineApp.CleanedItemsSound | src/main.py:66-71 | every cleaned template is `str(item).strip()` of a non-None item |
| PipelineApp.CleanedItemsComplete | src/main.py:66-71 | every non-None item whose text is not blank is kept, stripped |
| PipelineApp.CleanTemplateItems | src/main.py:64-72 | the loop returns exactly the cleaned items, in order |
| PipelineApp.StripBlankOutStripped | src/main.py:130-132 | every kept line or template is non-empty and stripped |
| PipelineApp.StripBlankOutNonEmpty | src/main.py:130-132 | a text with a non-blank line keeps at least one line |
| PipelineApp.StripBlankOutIsCleaning | src/main.py:64-72 | keeping the non-blank stripped lines is cleaning them as template items |
| PipelineApp.InlinePrompt | src/main.py:75 | the inline prompt is stripped |
| PipelineApp.ResolvePromptContent | src/main.py:74-95 | the prompt is always stripped; without a prompt file, or when the file is missing, unreadable or blank, it is the inline prompt; otherwise it is the file's stripped, non-empty content |
| PipelineApp.Iterated | src/main.py:258-262 | iterating a list gives its items; only a list, a string or a dict can be iterated, anything else is an error |
| PipelineApp.ResolveTemplates | src/main.py:97-135 | resolving the templates fails exactly when the inline `templates` value cannot be iterated |
| PipelineApp.TemplatesFallBack | src/main.py:99-116 | without a templates file, or when it is missing, unreadable or blank, the inline templates are used |
| PipelineApp.TemplatesFromJsonList | src/main.py:118-128 | a file holding a JSON list gives its cleaned items, or the inline templates when none survive |
| PipelineApp.TemplatesFromLines | src/main.py:118-132 | a non-blank file that is not a JSON list gives its non-blank lines, stripped |
| PipelineApp.NonJsonTemplatesNeverFallBack | src/main.py:130-135 | a non-blank file that is not a JSON list never falls back to the inline templates |
| PipelineApp.ResolveTemplatesStripped | src/main.py:97-135 | every resolved template is non-empty and stripped |
| PipelineApp.InlineTemplatesStripped | src/main.py:98 | every inline template is non-empty and stripped |
| PipelineApp.FileTemplatesStripped | src/main.py:118-132 | every template read from a file is non-empty and stripped |
| PipelineApp.SetAt | src/main.py:250-275 | after `d[k] = v` the key holds v and every other key holds what it held |
| PipelineApp.PopAt | src/main.py:271-287 | after `d.pop(k, None)` the key is absent and every other key holds what it held |
| PipelineApp.StoredValue | src/main.py:249-252 | a string value is stored stripped; any other value as it is |
| PipelineApp.AiMergedUpdates | src/main.py:246-253 | after the update every payload key holds its stored value and every other key of `ai_pipeline` what it held |
| PipelineApp.MergeAiPayload | src/main.py:248-252 | the loop writes the payload's items in order |
| PipelineApp.UpdateFileSetting | src/main.py:268-287 | a file setting given as None or blank is removed, otherwise stored stripped; absent, it is kept; no other key changes |
| PipelineApp.UpdateTemplates | src/main.py:257-263 | given templates (None counting as none) are replaced by the stripped non-blank ones; no other key changes |
| PipelineApp.UpdateText | src/main.py:264-267 | a prompt or model given and not None is stored stripped; otherwise it is kept; no other key changes |
| PipelineApp.MergeCaptionPayload | src/main.py:255-288 | the new `caption` section has each given field updated as above and every other key kept |
| PipelineApp.WriteAiSection | src/main.py:246-253 | the section is written unless it is not a dict; only `ai_pipeline` changes |
| PipelineApp.WriteCaptionSection | src/main.py:255-288 | the section is written unless it is not a dict; only `caption` changes |
| PipelineApp.MergeSettingsUpdate | src/main.py:237-288 | an empty update keeps the file; an update of a non-dict file, or of a section that is not a dict, is an error; otherwise only `ai_pipeline` and `caption` change, each exactly as its merge says and only when its payload is non-empty |
| PipelineApp.BoolEnvIgnoresPadding | src/main.py:547 | surrounding spaces do not change a boolean setting |
| PipelineApp.BoolEnvIgnoresCase | src/main.py:547 | letter case does not change a boolean setting |
| PipelineApp.BoolEnvWords | src/main.py:547 | "1", "true", "yes" and "on", in any case, read as true |
| PipelineApp.ListReadyImages | src/main.py:200-222 | one item per image file of the ready folder in sorted order, with its path and file name, marked used exactly when that name is among the posted images |
| TkRadar.FirstList | opt/murray/data/tkRadar/services.py:72-76 | the first of the search keys whose value is a list wins; none is a list exactly when the result is None |
| TkRadar.ExtractSearchItems | opt/murray/data/tkRadar/services.py:66-81 | an empty/falsy payload gives no items, a list payload is itself the items, a dict gives the list under the first of data, list, items, results, aweme_list that holds one, or nothing, any other value gives nothing |
| TkRadar.DataFieldWins | opt/murray/data/tkRadar/services.py:72-76 | when "data" holds a list, that list is extracted whatever the other keys hold |
| TkRadar.ExtractedListIsInResponse | opt/murray/data/tkRadar/services.py:66-81 | what is extracted is empty, the payload list itself, or the list stored under one of the search keys |
| TkRadar.ParseAnchor | opt/murray/data/tkRadar/services.py:84-145 | a result parses exactly when it is a dict whose user record is a dict with a truthy unique_id, uid or sec_uid and something says it is live (a truthy is_live, live_status 1, or a live-room record with status 1 or "live"); the id is the truthy one of those user fields and the attributes mark a search_discovery clue |
| TkRadar.UniqueIdPreferred | opt/murray/data/tkRadar/services.py:108 | a truthy unique_id is preferred over sec_uid as the anchor id |
| TkRadar.RowOf | opt/murray/data/tkRadar/services.py:218-224 | the row stored for an anchor carries its id, status and source |
| TkRadar.IdsOf | opt/murray/data/tkRadar/services.py:53 | the id column of the anchor table, row by row |
| TkRadar.IdsOfAppend | opt/murray/data/tkRadar/services.py:53 | the id column of two tables appended is the two columns appended |
| TkRadar.Session.constructor | opt/murray/data/tkRadar/services.py:148-152 | a session opens on the rows already in the anchor table |
| TkRadar.Session.Has | opt/murray/data/tkRadar/services.py:209-213 | the existence query finds a row exactly when some stored anchor has that unique id |
| TkRadar.Session.AddAndCommit | opt/murray/data/tkRadar/services.py:218-232 | a commit that succeeds appends the one new row and reports success; one that fails rolls back, leaving the table as it was, and reports failure |
| TkRadar.ParseAll | opt/murray/data/tkRadar/services.py:200-202 | one parse result per search item, in order |
| TkRadar.ParseAllAt | opt/murray/data/tkRadar/services.py:200-202 | the i-th parse result is the parse of the i-th item |
| TkRadar.DistinctAppend | opt/murray/data/tkRadar/services.py:205-207 | adding an id not yet seen keeps the ids distinct |
| TkRadar.FirstAtMost | opt/murray/data/tkRadar/services.py:234-236 | the logged samples are a prefix of the new ids of at most the sample size |
| TkRadar.FirstAtMostAppend | opt/murray/data/tkRadar/services.py:234-236 | appending a sample while fewer than the sample size are held keeps the samples the first ids up to the cap |
| TkRadar.SeenGrows | opt/murray/data/tkRadar/services.py:205-216 | marking a new id as seen grows the seen-and-stored set by one exactly when the id was already stored |
| TkRadar.CountFailed | opt/murray/data/tkRadar/services.py:182-189 | the API error count is at most the number of searches made |
| TkRadar.CountFailedAppend | opt/murray/data/tkRadar/services.py:182-189 | one more search adds one to the error count exactly when it fails |
| TkRadar.StartInv | opt/murray/data/tkRadar/services.py:168-172 | the round's counters start in a state satisfying the scan invariant |
| TkRadar.CommitKeepsInv | opt/murray/data/tkRadar/services.py:218-236 | committing a new, unseen, unstored clue under the cap keeps the scan invariant (count equals rows added, ids distinct, samples the first ids) |
| TkRadar.CommitKeepsRows | opt/murray/data/tkRadar/services.py:218-232 | a committed id is not among the rows added before, and every added row stays unstored, committed and a search_discovery clue |
| TkRadar.ExistingKeepsInv | opt/murray/data/tkRadar/services.py:209-216 | an id already in the table is counted as existing and keeps the invariant |
| TkRadar.RefusedKeepsInv | opt/murray/data/tkRadar/services.py:225-232 | a rolled-back commit marks the id as seen and keeps the invariant |
| TkRadar.ItemStepKeepsInv | opt/murray/data/tkRadar/services.py:196-236 | handling one search item keeps the scan invariant and makes no search call |
| TkRadar.ItemsRunKeepsInv | opt/murray/data/tkRadar/services.py:196-236 | handling a whole result list keeps the scan invariant and makes no search call |
| TkRadar.KeywordStepKeepsInv | opt/murray/data/tkRadar/services.py:174-236 | handling one keyword keeps the scan invariant, failed fetches included |
| TkRadar.KeywordsRunKeepsInv | opt/murray/data/tkRadar/services.py:174-236 | handling every keyword keeps the scan invariant |
| TkRadar.DiscoveryGuarantees | opt/murray/data/tkRadar/services.py:148-245 | a round adds as many rows as it reports, at most the per-round cap, with distinct ids never stored before, every one a committed search_discovery clue; samples are the first new ids; existing counts the seen ids already stored; api_errors counts the failed searches |
| TkRadar.Discovery | opt/murray/data/tkRadar/services.py:148-166 | a disabled round or one with no keywords makes no search call, adds no row and counts nothing |
| TkRadar.DefaultsBound | opt/murray/data/tkRadar/services.py:23-34 | with the default settings a round adds at most 30 anchors and logs at most 5 samples |
| TkRadar.CappedItems | opt/murray/data/tkRadar/services.py:197-198 | once the cap is reached the remaining items change nothing |
| TkRadar.CappedKeywords | opt/murray/data/tkRadar/services.py:175-180 | once the cap is reached the remaining keywords change nothing and no more searches are made |
| TkRadar.ItemsRunKeepsCalls | opt/murray/data/tkRadar/services.py:196-236 | the item loop never calls the search API |
| TkRadar.KeywordStepSearches | opt/murray/data/tkRadar/services.py:182-183 | a keyword handled under the cap makes exactly one search call, for that keyword |
| TkRadar.KeywordsRunUnfold | opt/murray/data/tkRadar/services.py:174-194 | the keyword loop under the cap searches the first keyword and continues with the rest |
| TkRadar.SearchesArePrefix | opt/murray/data/tkRadar/services.py:174-194 | the searches made are a prefix of the keywords, and stop short only once the cap is reached |
| TkRadar.DiscoverySearches | opt/murray/data/tkRadar/services.py:160-194 | a disabled round or one with no keywords does nothing; otherwise the keywords are searched in order, all of them unless the cap is reached |
| TkRadar.VisitResult | opt/murray/data/tkRadar/services.py:200-236 | handling one parsed item against the live session computes the item step and keeps the table equal to the stored rows plus those added |
| TkRadar.ScanResults | opt/murray/data/tkRadar/services.py:196-236 | the item loop over a result list computes the item-run specification and keeps the table equal to the stored rows plus those added |
| TkRadar.DiscoveryScanBySearch | opt/murray/data/tkRadar/services.py:148-245 | the round leaves the table as the old rows plus the rows the discovery specification adds, makes its search calls, and reports the counters the round logs (disabled, no keywords, or round_done with keywords, new anchors, existed, api_errors, samples) |

## Left out

- Network and SDK calls are abstract outcomes, not modelled themselves. This covers tweepy, requests, the OpenAI SDK, Replicate and Leonardo, the Xiaohongshu HTTP API and the TikHub client. The model takes the reply each call produced.
- The Replicate poll loop with `time.sleep` is only its final answer (`PipelineImage.PollAnswer`). The number of polls and the waiting are not modelled.
- `_extract_text_from_openai_response` and `_to_dict` read SDK objects by duck typing. The model takes the text they yield.
- PIL transcoding (`_ensure_supported_media`), `_detect_media_type` (`mimetypes`), `_build_url` (`urljoin`) and base64 encoding are library semantics and are not modelled.
- File system I/O is values. A listing is a value, and the placeholder file is whether it exists. The placeholder's bytes, the caption log file and the override-file write of `apply_settings_update` are not modelled.
- The `size` and `modified_at` fields of `list_ready_images` are not modelled; they come from `stat`.
- Paths are the configured text. Resolution against a base directory and `load_dotenv` are not modelled.
- The reload, shutdown and restart that follow the merge in `apply_settings_update` are not modelled. Nor are the FastAPI routes, the legacy `main.py` entry point and logging setup, or the tkRadar web app.
- The cron library, `ZoneInfo`, misfire handling and the scheduler's `get_overview` dict are not modelled. A running scheduler is the list of slots it was given.
- Threads, locks, `asyncio.to_thread` and task creation are not modelled; everything is sequential.
- Logging is not modelled, except where a log line is the only output. tkRadar's `round_done` line is the `Report` value.
- The traceback column of the legacy `errors` table is not modelled.
- `str.lower` is modelled on ASCII letters only, and `int()` accepts ASCII digits only. Python also folds and accepts other Unicode letters and digits.
- Python `str.format` is modelled for the `{filename}`, `{style}` and `{summary}` fields only. Templates with other fields are outside the model.
- Cross-module wiring mismatches between `src/main.py`, `src/config.py`, `src/scheduler.py` and the caption provider are not modelled; each function follows its own text.
- The two legacy wiring mismatches are not modelled either; each function follows its own text.
  - auto_ai_influencer/runner.py:90 reads `self._config.xiaohongshu`, which `AppConfig` (auto_ai_influencer/config.py:87-100) does not have. As written, `_assemble_xiaohongshu` and the "xiaohongshu" branch of `_build_text_for_platform` raise `AttributeError` on every call.
  - auto_ai_influencer/poster.py:19 imports `XiaohongshuMcpConfig`, which auto_ai_influencer/config.py does not define. The poster module, and through auto_ai_influencer/runner.py:13 the whole legacy loop, fails at import.
  - The model supplies the missing pieces instead: the Xiaohongshu text settings (`LegacyRunner.TextConfig`'s `xiaohongshu` field, a `XiaohongshuText`) and the poster settings (`LegacyPoster.XiaohongshuSettings`).
  - `LegacyRunner.AssembleXiaohongshu`, `LegacyRunner.TextFor` and the `LegacyPoster.XiaohongshuPoster` members describe those functions as they would run once that wiring exists, not the `AttributeError` and `ImportError` the source raises as it stands.
- Floating-point JSON values are not modelled: the JSON value type has integers, strings, booleans, null, lists and dicts only. A float setting such as `live_status: 1.0` or a float template item is outside the model.
- LegacyConfig.BuildAppConfig: the model checks types when the configuration is built. A caption `prompt` or `model`, a tweet `prefix` or `suffix` or a scheduler `timezone` that is not a string is an error, and so is a truthy `templates` value that is not a list of strings. `build_app_config` stores such values unchecked, and only their later use fails.
- PipelineConfig.BuildConfig: `prompt_template`, `caption_style`, `timezone`, `replicate_model` and `leonardo_model` are kept as text, so a non-text JSON value is stored as its `str()`; `load_settings` keeps the raw value (src/config.py:132-141). For example a `null` `caption_style` is the text "None" in the model but `None` in Python, which `record_post` stores as NULL and the caption provider formats as "None". Only `image_source` is passed through `str()` in the source. The text type keeps the caption provider and the scheduler, which use these values as strings, on one record.
- PipelineScheduler.PipelineScheduler.RunPipeline: the publish-stage `except` branch is not modelled. It can only fire if `record_post` itself raises, because `_post_to_all` catches every poster error.
- PipelineApp.MergeSettingsUpdate: when the stored `caption` section is a list and the caption payload only sets `prompt` or `model` to `None`, Python writes nothing and succeeds. The model reports an error for any non-dict section.
- PipelineApp.PopAt: `dict.pop` is modelled on association lists without duplicate keys, so it removes every binding of the key.
- tkRadar: a `None` session or client is not modelled. Python would fail on the first call.
- tkRadar: the session's pending and autoflush state is not modelled. A commit either stores its one row or rolls back to the rows before it.
- tkRadar: an anchor id is kept as the JSON value read. The `String(128)` column's coercion and truncation are not modelled.
- tkRadar: `seen_ids` is modelled with JSON equality. Python's `1 == True` hashing and the `TypeError` for unhashable ids are not modelled.
- tkRadar: the count passed to the search call is the configured one; the client is trusted to honour it.
- tkRadar: `live_room_url` is parsed but not stored, because the anchors table has no such column.
- tkRadar: `collect_active_anchor_metrics` is a placeholder with no logic. The client protocol's `fetch_search_user` is never called. Neither is modelled.

## Findings

| source | as written | input that shows it | evidently intended | confidence | as-written member | corrected member |
|---|---|---|---|---|---|---|
| auto_ai_influencer/storage.py:174-182 | the backfill selects rows whose `external_id` is NULL or `''` but sets `external_id = COALESCE(external_id, tweet_id)`, which keeps `''` | a row with `tweet_id = '123'` and `external_id = ''` keeps `external_id = ''` after the migration | every selected row gets its `tweet_id` copied into `external_id` | not executed | LegacyStorage.BackfillKeepsEmptyId | LegacyStorage.BackfillIntended |
