# IBRS Document Auto-Classifier — a verified model of its deterministic core

The IBRS Document Auto-Classifier tags research documents against the IBRS taxonomy.
The taxonomy has seven tag types: Horizon, Practice, Stream, Role, Vendor, Product and Topic.
Tags are kept in Zoho CRM and copied into a cached snapshot by an admin sync endpoint.
A document is classified by the Gemini model.
The model's raw answer is then resolved against the snapshot and checked against the mandatory-tag rules.
Documents of 5 MB to 50 MB go through an asynchronous pipeline:
- submission creates a job and queues it for a worker;
- the worker downloads, extracts, classifies and records the outcome;
- pollers read the job's status.

This project models, in Dafny, the logic around the cloud services and the model call:

| module | file | what it models |
|---|---|---|
| `Config` | `config.dfy` | the shared constants: size limits, supported MIME types, the tag-type table, numeric limits |
| `Text` | `text.dfy` | the Python string operations the code uses: `lower`/`upper`, `strip`, `isalnum`, `str(int)`, `<` on `str`, `split`/`join` |
| `Tags` | `tag_cache.dfy` | the tag snapshot (`TagCache`): its index-building loop and its lookups by name, alias, name-or-alias and type |
| `Zoho` | `zoho_client.dfy` | record normalisation, tag validation, the page loop with its 100-page cap, and the access-token refresh rule |
| `SyncTags` | `sync_tags.dfy` | the sync endpoint: validation filter, id-keyed diff, changed-field descriptions, the saved record and the response summary |
| `Classifier` | `gemini_client.dfy` | enrichment of the raw answer (type filtering, the Solve and first-Practice fallbacks), the mandatory-tag rules, prompt truncation, and the retry/back-off loop |
| `DocumentParser` | `document_parser.dfy` | format detection, the unsupported-type guard of extraction, and the extracted-text sufficiency rule |
| `Auth` | `auth.dfy` | the cached key sets with their five-minute reuse, the per-key per-minute counter, and the key-resolution, expiry and rate-limit chain |
| `Jobs` | `jobs.dfy` | the job record and the store: jobs by id, temporary blobs, queued worker requests |
| `ClassifyAsync` | `classify_async.dfy` | admission, job creation and its completion estimate, and the status projection |
| `ClassifyWorker` | `classify_worker.dfy` | storage-reference parsing and the worker's sequence of job writes |

The code's form is kept:
- Objects whose fields the code updates are classes with `modifies` frames: the key cache and rate counter, the Zoho token, and the job store.
- Loops are `while`/`for` loops proved against a recursive specification function: index building, pagination, the sync's filter and diff loops, the enrichment loops and the retry loop.
- The worker is a chain of straight-line stage methods, as in the code. Each is proved against a stage function of the job store.
- The rest is functions and lemmas.

Parameters stand in for what the model cannot see:
- the model's reply to each attempt;
- the JSON parser and Python's `float()` of a string;
- the format extractors;
- each Zoho page outcome and the token endpoint's outcome;
- the key secrets;
- the outcome of loading and saving the tag cache;
- the outcome of each of submission's three writes (the blob upload, the job's `set` and the worker task) and of the worker's blob deletion;
- the clock, as integer seconds, and the caller's key hash.

Where the repository's design description and its code disagree, the model follows the code:
- **Aliases.** The design calls a tag's aliases a duplicate-free set. The code keeps duplicates (`Zoho.DuplicateAliasesKept`).
- **Matched via.** The design allows only `primary` or `alias`. The code also writes `default` for fallbacks.
- **Horizon fallback.** The design requires every enriched tag to resolve to a snapshot tag of the right type. The code does not check the fallback horizon's type: when "Solve" resolves to a tag of another type, that tag becomes the horizon (`Classifier.FallbackHorizonUnchecked`).
- **Job TTL.** The design bounds a job's life by its TTL. The status endpoint does not look at `ttl_expires_at` (`ClassifyAsync.ClassifyStatus`).
- **Job status updates.** Job updates use no compare-and-swap, so the worker marks a job processing whatever its stored status was (`ClassifyWorker.StartProcessing`).

## Model

| member | source | states |
|---|---|---|
| Config.SizeLimitsOrdered | functions/shared/config.py:26-27 | the synchronous limit (5·2^20 bytes) is strictly below the asynchronous limit (50·2^20 bytes) |
| Config.TagTypesShape | functions/shared/config.py:64-72 | there are exactly seven tag types; a type is exactly-one iff it is Horizon or Practice |
| Config.HorizonOnlyFixedValues | functions/shared/config.py:65-71 | only Horizon has a fixed value list, and it is Solve, Plan, Explore |
| Config.MimeTypeKeys | functions/shared/config.py:53-61 | the seven supported MIME types |
| Config.MimeTypeOrderIsKeys | functions/shared/config.py:53-61 | the ordered key list names each of the seven supported MIME types once, in the table's order, and nothing else |
| Config.MimeFormats | functions/shared/config.py:53-61 | the seven MIME types map onto exactly the five formats pdf, docx, pptx, txt, image |
| Config.ImageMimeTypes | functions/shared/config.py:58-60 | a supported type maps to image iff it is one of the three image types |
| Config.NumericLimits | functions/shared/config.py:28-48 | minimum text 50, retries 3, rate limit 60 per minute, job TTL 24 hours |
| Text.Lower | functions/shared/tag_cache.py:44 | lower-casing keeps the length and maps each character on its own |
| Text.Upper | functions/shared/zoho_client.py:160 | upper-casing keeps the length and maps each character on its own |
| Text.LowerIdempotent | functions/shared/tag_cache.py:61-67 | lower-casing a lowered string changes nothing, so lowering the query twice is harmless |
| Text.Strip | functions/shared/document_parser.py:199 | strip gives a slice of the input that neither starts nor ends with whitespace |
| Text.StripRemovesOnlySpace | functions/shared/document_parser.py:199 | everything strip removes is whitespace |
| Text.StripEmpty | functions/shared/document_parser.py:196-202 | strip gives the empty string iff the input is all whitespace |
| Text.StripNoOp | functions/shared/zoho_client.py:152 | a string with no whitespace at either end is unchanged by strip |
| Text.StripIdempotent | functions/shared/zoho_client.py:152-163 | stripping twice is stripping once |
| Text.UpperKeepsStripped | functions/shared/zoho_client.py:160 | upper-casing a stripped string leaves it stripped |
| Text.AlnumCount | functions/shared/document_parser.py:205 | the alphanumeric count never exceeds the length |
| Text.NatToString | functions/shared/document_parser.py:202 | str(n) is a non-empty string of digits |
| Text.LexLessIrreflexive | functions/shared/auth.py:157 | no string sorts after itself |
| Text.Split | functions/classify_worker/main.py:71 | split gives at least one part, and no part contains the separator |
| Text.JoinSplit | functions/classify_worker/main.py:71-72 | joining the split parts with the same separator gives back the string |
| Text.SplitAfterHead | functions/classify_worker/main.py:71-72 | a separator-free head splits off as exactly one part |
| Text.NonEmpty | functions/shared/tag_cache.py:100 | exactly the non-empty strings are kept |
| Text.NonEmptySingleton | functions/shared/zoho_client.py:152-154 | one string is kept iff it is non-empty |
| Text.NonEmptyAppend | functions/shared/zoho_client.py:150-154 | the filter distributes over concatenation, so it keeps order and every non-empty copy of a repeated string |
| Text.Repr | functions/shared/gemini_client.py:185 | repr() of a string starts and ends with the same quote, which is a double quote exactly when the string has a single quote and no double quote |
| Text.ReprInjective | functions/shared/gemini_client.py:84-85 | different strings have different reprs, so the float() error text names the unparsable confidence exactly |
| Text.ReprPlain | functions/shared/gemini_client.py:185 | a string with no single quote, backslash or control character is written between single quotes as it is |
| Text.ReprSingleQuoteExample | functions/shared/gemini_client.py:185 | a string with an apostrophe is written between double quotes |
| Text.ReprNewlineExample | functions/shared/gemini_client.py:185 | a newline is written as the two characters backslash and n |
| Tags.NameIndexLastWins | functions/shared/tag_cache.py:43-48 | each name-index entry is the last tag whose lowered name is the key |
| Tags.NameIndexComplete | functions/shared/tag_cache.py:43-48 | every tag's lowered name is a key of the name index |
| Tags.NameIndexSize | functions/shared/tag_cache.py:43-48 | the name index has at most one entry per tag |
| Tags.AddAliasesSpec | functions/shared/tag_cache.py:54-59 | one tag's aliases add exactly the keys of its non-empty aliases, all owned by that tag; other entries are untouched |
| Tags.AliasIndexLastWins | functions/shared/tag_cache.py:54-59 | each alias-index entry is the last tag with a non-empty alias that lowers to the key |
| Tags.AliasIndexComplete | functions/shared/tag_cache.py:54-59 | every non-empty alias of every tag is a key of the alias index |
| Tags.NoEmptyAliasKey | functions/shared/tag_cache.py:56-57 | the empty string is never an alias key |
| Tags.OfTypeMembers | functions/shared/tag_cache.py:50-52 | a type list holds exactly the tags of that type |
| Tags.OfTypeAppend | functions/shared/tag_cache.py:43-52 | type lists keep input order: the list of a concatenation is the concatenation of the lists |
| Tags.TypeIndexSnoc | functions/shared/tag_cache.py:31-52 | one more tag is appended to its type's list when its type is one of the seven; otherwise nothing changes |
| Tags.BuildIndexes | functions/shared/tag_cache.py:29-59 | the index loop builds exactly the specified name, alias and type indexes |
| Tags.TagCache.constructor | functions/shared/tag_cache.py:21-27 | the snapshot keeps its tags and timestamp, and its indexes are derived from its tags |
| Tags.TagCache.GetByName | functions/shared/tag_cache.py:61-63 | found iff some tag's lowered name equals the lowered query; then the last such tag is returned |
| Tags.TagCache.GetByAlias | functions/shared/tag_cache.py:65-67 | found iff some tag has a non-empty alias lowering to the lowered query; then the last such tag is returned |
| Tags.TagCache.GetByNameOrAlias | functions/shared/tag_cache.py:69-77 | primary iff a name matches; otherwise alias iff an alias matches; unresolved iff neither matches; the tag returned is a snapshot tag |
| Tags.TagCache.GetByType | functions/shared/tag_cache.py:79-81 | a type's tags in input order; [] for a type outside the seven |
| Tags.TagCache.GetAllTags | functions/shared/tag_cache.py:83-85 | every value any index holds is one of the tags |
| Tags.TagCache.GetTagsCount | functions/shared/tag_cache.py:87-89 | the number of tags, which bounds the number of distinct lowered names |
| Tags.TagCache.GetFormattedForPrompt | functions/shared/tag_cache.py:91-105 | one entry per tag, in order, with name, short form, public description as description, type, and the tag's non-empty aliases in their order, repeats kept |
| Tags.ResolutionIgnoresCase | functions/shared/tag_cache.py:61-77 | a query and its lower-cased form resolve identically |
| Zoho.AliasesNormalised | functions/shared/zoho_client.py:149-154 | at most four aliases, none empty, each already stripped |
| Zoho.TransformTagNormalised | functions/shared/zoho_client.py:156-166 | name, short form, descriptions and type are stripped; id and timestamps are copied unchanged |
| Zoho.ShortFormUpperCase | functions/shared/zoho_client.py:160 | the short form is upper case and as long as the stripped field |
| Zoho.AliasesInFieldOrder | functions/shared/zoho_client.py:149-154 | Alias_1 to Alias_4 contribute in field order, each exactly when it is non-empty after stripping |
| Zoho.DuplicateAliasesKept | functions/shared/zoho_client.py:149-154 | for any record with all four alias fields filled, the tag has those four stripped aliases in field order, equal or not: nothing is deduplicated |
| Zoho.ValidateTag | functions/shared/zoho_client.py:168-198 | valid iff no errors; valid iff name and short form are non-empty, the type is one of the seven, and a Horizon tag is named Solve, Plan or Explore |
| Zoho.ValidateTagTypeErrors | functions/shared/zoho_client.py:187-191 | a missing type is reported as missing and never also as invalid; a present type outside the table is reported as invalid |
| Zoho.PageTags | functions/shared/zoho_client.py:127-134 | one transformed tag per record of the page, in order; an absent data list gives none |
| Zoho.FetchAllTags | functions/shared/zoho_client.py:62-89 | the page loop computes the specified pagination outcome |
| Zoho.PaginateConcat | functions/shared/zoho_client.py:69-82 | the result is pages 1..last concatenated, where last is the first page without more records, or page 100 |
| Zoho.PaginateIgnoresLaterPages | functions/shared/zoho_client.py:79-82 | pages after 100 never affect the result |
| Zoho.PaginateFailure | functions/shared/zoho_client.py:84-86 | a failing page aborts the whole fetch with its own message |
| Zoho.RefreshedTokenLifetime | functions/shared/zoho_client.py:46-60 | a token refreshed at now is reused exactly until now + 3300 |
| Zoho.ZohoClient.constructor | functions/shared/zoho_client.py:20-21 | a new client has no token, expiring at 0 |
| Zoho.ZohoClient.GetAccessToken | functions/shared/zoho_client.py:30-60 | the stored token is reused while it is valid; otherwise a refresh stores the new token with expiry now + 3600, and a failed refresh raises with the prefixed message and changes nothing |
| SyncTags.IdOrder | functions/sync_tags/main.py:70 | the ids of the new-tags dict in iteration order: each once, and exactly its keys |
| SyncTags.IdMapKeys | functions/sync_tags/main.py:70 | the dict has an entry exactly for each tag id |
| SyncTags.IdMapLastWins | functions/sync_tags/main.py:70 | an id's entry is the last tag carrying it |
| SyncTags.ChangeList | functions/sync_tags/main.py:175-204 | the change list is non-empty iff some compared field differs |
| SyncTags.ChangeListNames | functions/sync_tags/main.py:191-202 | "name changed", "aliases updated" and "short form changed" each appear iff that field differs |
| SyncTags.ChangeListTexts | functions/sync_tags/main.py:191-202 | the two description entries and "type changed" each appear iff that field differs |
| SyncTags.ChangeListOrdered | functions/sync_tags/main.py:191-204 | the descriptions follow the fixed field order, each at most once |
| SyncTags.AddedMembers | functions/sync_tags/main.py:80-86 | exactly the new ids missing from the current snapshot are reported as added |
| SyncTags.UpdatedMembers | functions/sync_tags/main.py:87-93 | exactly the known new ids with a changed field are reported as updated, with their change lists |
| SyncTags.RemovedMembers | functions/sync_tags/main.py:97-105 | exactly the current ids missing from the new tags are reported as removed, with the fixed reason |
| SyncTags.ClassifyNew | functions/sync_tags/main.py:79-95 | the first diff loop computes the specified added, updated and unchanged results |
| SyncTags.CollectRemoved | functions/sync_tags/main.py:97-105 | the second diff loop computes the specified removed list |
| SyncTags.ComputeChanges | functions/sync_tags/main.py:69-105 | both loops together compute the specified diff |
| SyncTags.NewSideCounts | functions/sync_tags/main.py:79-95 | each new id is exactly one of added, updated or unchanged |
| SyncTags.RemovedCounts | functions/sync_tags/main.py:97-105 | each current id absent from the new tags is removed |
| SyncTags.DiffCounts | functions/sync_tags/main.py:79-105 | added + updated + unchanged = distinct new ids, and removed + updated + unchanged = distinct current ids |
| SyncTags.NoSnapshotAllAdded | functions/sync_tags/main.py:35-99 | without a current snapshot every distinct valid id is added, and nothing is updated, unchanged or removed |
| SyncTags.ValidTagsMembers | functions/sync_tags/main.py:59-67 | a tag is kept iff it was fetched and validates |
| SyncTags.FilterValid | functions/sync_tags/main.py:58-67 | the filter loop keeps the valid tags in fetch order; kept + skipped = fetched |
| SyncTags.Take | functions/sync_tags/main.py:150 | a slice cut to n: the first min(n, len) entries |
| SyncTags.Detail | functions/sync_tags/main.py:149-154 | a detail list is present iff non-empty, and then is a prefix of at most ten entries |
| SyncTags.SyncTags | functions/sync_tags/main.py:31-161 | a failed fetch gives 500 ZOHO_SYNC_FAILED with nothing saved; otherwise the valid tags are saved with their count; a failed save gives 500 CACHE_SAVE_FAILED; success gives 200 with the diff's counts, capped details and the skipped count when non-zero |
| SyncTags.TagsCountCanExceedIds | functions/sync_tags/main.py:59-115 | two valid tags sharing an id are both saved and counted, but diffed once |
| Classifier.NameOf | functions/shared/gemini_client.py:179-180 | an absent name reads as ""; a name that is read is the string stored there |
| Classifier.ConfidenceOf | functions/shared/gemini_client.py:185 | an absent confidence is 0.0; a float is kept; an integer is converted |
| Classifier.Accept | functions/shared/gemini_client.py:238-248 | a name that is not text raises; a name resolving to no tag, or to a tag of another type, is dropped; a name resolving to a tag of the wanted type is kept as that tag's name and short form, with the entry's confidence (or float()'s error) and primary or alias as the match |
| Classifier.OptionalList | functions/shared/gemini_client.py:236-237 | a missing or non-list value gives the empty list |
| Classifier.OptionalLists | functions/shared/gemini_client.py:229-237 | one list per kind when nothing raises |
| Classifier.OptionalListsEach | functions/shared/gemini_client.py:229-248 | each list of a successful result is that kind's own list |
| Classifier.CollectOfType | functions/shared/gemini_client.py:238-248 | the inner loop keeps, in order, exactly the specified entries, and stops at the first error |
| Classifier.CollectOptionalLists | functions/shared/gemini_client.py:229-248 | the outer loop over the five kinds gives the specified lists, and stops at the first error |
| Classifier.EnrichClassification | functions/shared/gemini_client.py:155-250 | the enrichment gives the specified result: horizon and practice with their fallbacks, then the five lists |
| Classifier.KeptEntriesResolve | functions/shared/gemini_client.py:238-248 | every kept entry is a snapshot tag of the list's type, matched by name or alias |
| Classifier.NonObjectsDropped | functions/shared/gemini_client.py:238-239 | entries that are not objects are dropped silently |
| Classifier.UnresolvedEntryDropped | functions/shared/gemini_client.py:240-242 | an entry that resolves to no tag, or to a tag of another type, is dropped |
| Classifier.HorizonSound | functions/shared/gemini_client.py:176-199 | an accepted horizon is a Horizon snapshot tag; the default is whatever "Solve" resolves to, at 0.5; it is absent only if "Solve" does not resolve |
| Classifier.PracticeMissingIffNoPracticeTags | functions/shared/gemini_client.py:201-226 | practice is absent iff the snapshot has no Practice tag |
| Classifier.HorizonKept | functions/shared/gemini_client.py:176-187 | a non-empty horizon object whose name resolves to a Horizon tag is kept as that tag, with its confidence and match type; the default is then not used |
| Classifier.HorizonFallbackWhenNotKept | functions/shared/gemini_client.py:189-199 | otherwise the horizon is whatever "Solve" resolves to, at 0.5 and matched via default, or absent when "Solve" resolves to nothing |
| Classifier.PracticeKept | functions/shared/gemini_client.py:201-212 | a non-empty practice object whose name resolves to a Practice tag is kept as that tag, with its confidence and match type |
| Classifier.PracticeFallbackFirst | functions/shared/gemini_client.py:214-226 | otherwise the practice is the snapshot's first Practice tag in list order, at 0.3 and matched via default, or absent when there is none |
| Classifier.OptionalListSound | functions/shared/gemini_client.py:236-248 | every entry kept under one key comes, by name or alias, from a snapshot tag of that key's type |
| Classifier.OptionalListsSound | functions/shared/gemini_client.py:228-248 | each of the five lists holds only snapshot tags of its own type, matched by name or alias |
| Classifier.NonObjectFails | functions/shared/gemini_client.py:177 | a top level that is not an object raises the "has no attribute 'get'" error |
| Classifier.ListJson | functions/shared/gemini_client.py:243-248 | one JSON entry per enriched tag |
| Classifier.ClassificationJson | functions/shared/gemini_client.py:166-174 | the stored result has exactly the seven keys horizon, practice, streams, roles, vendors, products, topics; the five optional ones are lists |
| Classifier.ValidateRules | functions/shared/gemini_client.py:252-274 | the verdict is true iff the error list is empty |
| Classifier.RulesReported | functions/shared/gemini_client.py:262-274 | passes iff horizon is Solve, Plan or Explore and practice is present; each missing tag is reported, a wrong horizon first, at most two errors |
| Classifier.FallbackHorizonUnchecked | functions/shared/gemini_client.py:189-199 | for every snapshot: when no horizon is kept and "Solve" resolves to a tag of another type, that tag becomes the horizon; the rules reject it iff its name is not Solve, Plan or Explore |
| Classifier.TruncateForPrompt | functions/shared/gemini_client.py:101-103 | text over 100000 characters keeps its first 100000 plus the marker; shorter text is unchanged |
| Classifier.ClassifyDocument | functions/shared/gemini_client.py:35-93 | the attempt loop computes the specified retry outcome and sleeps |
| Classifier.SleepsBounded | functions/shared/gemini_client.py:88-91 | at most one sleep per attempt, and none after the final attempt |
| Classifier.SleepsArePowers | functions/shared/gemini_client.py:88-91 | each sleep is 2^j seconds for an attempt j that is not the last |
| Classifier.NoSleepWithoutCallError | functions/shared/gemini_client.py:80-91 | without a failure other than a JSON decode error there is no back-off at all |
| Classifier.SleepsExactly | functions/shared/gemini_client.py:63-91 | 2^j seconds is slept iff attempt j was made, failed with an error other than a JSON decode error, and was not the final attempt |
| Classifier.SleepsIncreasing | functions/shared/gemini_client.py:84-91 | the sleeps strictly grow, so each is taken once and in attempt order |
| Classifier.FirstSuccessWins | functions/shared/gemini_client.py:63-78 | the first attempt that parses and enriches decides the result |
| Classifier.AllFailed | functions/shared/gemini_client.py:80-93 | when every attempt fails, the error names the attempt count and the last attempt's error, with the JSON prefix for a parse failure |
| DocumentParser.DetectFormat | functions/shared/document_parser.py:19-26 | the mapped format iff the MIME type is supported, None otherwise |
| DocumentParser.DetectedFormatHasExtractor | functions/shared/document_parser.py:49-61 | every detected format has an extractor, so the "Unsupported format" branch is never taken |
| DocumentParser.ExtractTextOutcome | functions/shared/document_parser.py:44-64 | an unsupported type is refused; otherwise the format's extractor decides, and its error is reported with the format named |
| DocumentParser.UnsupportedNeverExtracts | functions/shared/document_parser.py:44-47 | for an unsupported type the result does not depend on the extractors |
| DocumentParser.ValidateExtractedText | functions/shared/document_parser.py:185-209 | the text passes iff no message is returned |
| DocumentParser.ValidationChecksInOrder | functions/shared/document_parser.py:196-209 | passes iff present, non-empty, at least 50 characters after strip, and not mostly non-text; otherwise the first failing check gives the message |
| DocumentParser.WhitespaceOnlyTooShort | functions/shared/document_parser.py:196-202 | all-whitespace text is not "empty" but is too short with length 0 |
| DocumentParser.AlnumTextAccepted | functions/shared/document_parser.py:199-209 | stripped text of at least 50 characters, all alphanumeric, passes |
| DocumentParser.ValidationSeesStrippedText | functions/shared/document_parser.py:199-209 | the verdict depends only on the stripped text |
| Auth.ActiveKeysMembers | functions/shared/auth.py:43-47 | a key value is kept iff some active entry carries it, and it maps to an active entry with that value |
| Auth.ActiveKeysLastWins | functions/shared/auth.py:43-47 | a repeated key value keeps its last active entry |
| Auth.InactiveKeyDropped | functions/shared/auth.py:46 | a key value whose entries are all inactive is never usable |
| Auth.Bump | functions/shared/auth.py:69-82 | an unseen key starts the minute at 1; a later minute resets to 1; otherwise the count rises by one |
| Auth.FirstSixtyPass | functions/shared/auth.py:72-88 | in a fresh minute the n-th request counts n, so exactly the first 60 pass; other keys' counters are untouched |
| Auth.KeyGate | functions/shared/auth.py:117-163 | a missing header is refused first. Admin endpoints take only admin keys (403 otherwise). Other endpoints try the standard set, then the admin set (401 otherwise). A key found is admitted iff it has not expired, else EXPIRED_API_KEY. A membership test on a set never loaded crashes |
| Auth.ActiveStandardKeyAdmitted | functions/shared/auth.py:43-47 | once the secrets are loaded, the last active, unexpired standard entry with a key value is admitted on standard endpoints |
| Auth.ActiveAdminKeyAdmitted | functions/shared/auth.py:52-56 | the last active, unexpired admin entry is admitted on admin endpoints, and on standard endpoints when no active standard entry has its value |
| Auth.ExpiredKeyRefused | functions/shared/auth.py:152-163 | a key found only in expired entries is refused with EXPIRED_API_KEY |
| Auth.StandardSetFirst | functions/shared/auth.py:139-143 | a key in both sets resolves to its standard entry on standard endpoints |
| Auth.NoExpiryNeverExpires | functions/shared/auth.py:153 | a key without expires_at never expires |
| Auth.ExpiryIsStrict | functions/shared/auth.py:156-157 | a key is still valid at exactly its expires_at |
| Auth.Authenticator.constructor | functions/shared/auth.py:14-20 | nothing is loaded, the timestamp is 0 and no counters exist |
| Auth.Authenticator.LoadApiKeys | functions/shared/auth.py:31-61 | fresh, non-empty keys are reused; otherwise both sets are reloaded keeping only active keys; a failure leaves the timestamp and any set not yet replaced unchanged |
| Auth.Authenticator.CheckRateLimit | functions/shared/auth.py:64-88 | only the caller's counter changes, bumped; allowed iff the new count is at most 60 |
| Auth.Authenticator.RequireApiKey | functions/shared/auth.py:105-182 | the key sets are left as the load leaves them (reused, partly replaced or reloaded); an unloadable key set gives 500; otherwise the key gate's refusal is returned with no counter change; an admitted key's counter is bumped, and it is authorized iff within the limit, else 429 RATE_LIMIT_EXCEEDED with details giving the limit of 60 and the window "1 minute" |
| Jobs.StatusName | functions/classify_async/main.py:190-203 | the four statuses have four distinct stored names |
| ClassifyAsync.Admit | functions/classify_async/main.py:43-77 | admitted iff 5 MiB ≤ size ≤ 50 MiB and the type is supported; too small is checked first, then too large, then the format |
| ClassifyAsync.SizeCheckedBeforeFormat | functions/classify_async/main.py:43-68 | a size problem is reported even when the format is unsupported |
| ClassifyAsync.Refusal | functions/classify_async/main.py:43-77 | too large answers 413; the other refusals answer 400; an unsupported format lists the supported MIME types in the table's order |
| ClassifyAsync.EstimatedSeconds | functions/classify_async/main.py:114 | the estimate is always 10..60, and equals ⌊5·size/2^20⌋ inside that range |
| ClassifyAsync.EstimateMonotone | functions/classify_async/main.py:114 | a larger document never gets a shorter estimate |
| ClassifyAsync.AdmittedEstimate | functions/classify_async/main.py:114 | an admitted document's estimate is at least 25 seconds, and 60 from 12 MiB on |
| ClassifyAsync.StorageRef | functions/classify_async/main.py:101 | the reference is "gs://", the bucket, "/" and the object path, in that order |
| ClassifyAsync.NewJob | functions/classify_async/main.py:89-106 | a new job is pending, created and updated now, has no result, and expires 24 hours later; its document records name, size, type and storage reference |
| ClassifyAsync.Caught | functions/classify_async/main.py:124-141 | a ValueError answers 400 INVALID_REQUEST with its text; any other exception answers 500 JOB_CREATION_FAILED with its text in the details |
| ClassifyAsync.Submit | functions/classify_async/main.py:32-141 | a request that fails to decode, or a refused admission, answers with nothing written. Then the blob upload, the job write and the queueing each take effect in turn. The first one to raise is answered by its exception's class: a ValueError gives 400 and anything else 500. Full success answers accepted with the status URL and estimate |
| ClassifyAsync.ClassifyStatus | functions/classify_async/main.py:146-218 | unknown id 404, another key's job 403, no TTL check; a completed job without its completion time, or a failed one without its failure time, gets 500 INTERNAL_ERROR with the AttributeError text of `strftime` on None as `details.error`; otherwise the four base keys plus exactly the status's own keys, copied from the job |
| ClassifyWorker.StorageRefRoundTrip | functions/classify_worker/main.py:71-72 | parsing a reference built from a '/'-free bucket gives back the bucket and object path |
| ClassifyWorker.SubmittedBlobLocated | functions/classify_worker/main.py:67-76 | the worker looks for a submitted job's document exactly where submission uploaded it |
| ClassifyWorker.StartProcessing | functions/classify_worker/main.py:57-64 | the first write sets processing at downloading 10%, whatever the stored status |
| ClassifyWorker.Advance | functions/classify_worker/main.py:79-85 | a progress write sets the stage and percentage and the update time |
| ClassifyWorker.FailJob | functions/classify_worker/main.py:190-207 | a failure write sets failed, failed_at, updated_at and the error, and keeps the progress |
| ClassifyWorker.CompleteJob | functions/classify_worker/main.py:160-166 | the completion write sets completed, completed_at, updated_at, the result and the processing time |
| ClassifyWorker.OrderlyProgress | functions/classify_worker/main.py:57-142 | along the worker's writes the percentage never falls, and rises strictly up to each processing write |
| ClassifyWorker.Work | functions/classify_worker/main.py:29-187 | a missing job_id or an unknown job writes nothing; otherwise the worker's writes and answer are as specified, the last write stays stored, and the blob is deleted only on success when deletion works |
| ClassifyWorker.Handle | functions/classify_worker/main.py:54-180 | for a stored job: the specified writes and answer, then the blob deletion on success only |
| ClassifyWorker.Process | functions/classify_worker/main.py:54-76 | the processing write, then the download, where a missing or unparsable location answers 500 |
| ClassifyWorker.ExtractStage | functions/classify_worker/main.py:78-103 | the extraction stage writes 30% and then either the EXTRACTION_FAILED failure or the later stages |
| ClassifyWorker.CheckStage | functions/classify_worker/main.py:96-99 | insufficient text fails the job with EXTRACTION_NO_TEXT and the check's message |
| ClassifyWorker.ClassifyStage | functions/classify_worker/main.py:105-133 | the classification stage writes 50% and then TAG_CACHE_LOAD_FAILED, CLASSIFICATION_FAILED or the completion |
| ClassifyWorker.CompleteStage | functions/classify_worker/main.py:126-166 | failed rules give VALIDATION_FAILED with the errors joined by ", "; otherwise 100% and the completion write |
| ClassifyWorker.FailTail | functions/classify_worker/main.py:190-207 | a failure write ends the writes in order, with a failure code and a matching response |
| ClassifyWorker.CompletionTail | functions/classify_worker/main.py:126-166 | from classification on, the writes stay ordered and the answer matches the final status |
| ClassifyWorker.ClassificationTail | functions/classify_worker/main.py:105-166 | as above, from the 50% classification write on |
| ClassifyWorker.TextCheckTail | functions/classify_worker/main.py:96-166 | as above, from the text check on |
| ClassifyWorker.ExtractionTail | functions/classify_worker/main.py:78-166 | as above, from the 30% extraction write on |
| ClassifyWorker.RunWrites | functions/classify_worker/main.py:54-187 | the first write sets processing. The percentage then rises while the job stays processing, and only the last write may settle it. No write touches the job's id, owner, document or expiry. The answer matches the final status: completed at 100% with a result, failed with one of the five codes (200), or still processing when the download raised (500) |

## Left out

- Cloud plumbing: Flask routing, `jsonify`, `_extract_document_from_request` (base64 and multipart decoding) and `_create_worker_task`. These are I/O. The model sees only the decoded upload, or what decoding raised with whether it is a ValueError, and a queued job id.
- Firestore, Cloud Storage, Cloud Tasks and Secret Manager: calls into services the code cannot see. The job store is three fields of `Jobs.JobStore`. Only submission's three writes, the worker's deletion of the temporary blob, and the tag cache's load and save have outcome parameters; every other read and write of the store succeeds in the model.
- Job store failures outside submission: the worker's `job_ref.get` (functions/classify_worker/main.py:48), its five `job_ref.update` calls (:57, :79, :106, :136, :160), the update inside `_fail_job` (:199) and the status endpoint's `get` (functions/classify_async/main.py:156) always succeed in the model. In the code, a failing worker read or update raises to the outer handler, which answers 500 (functions/classify_worker/main.py:182-187) and leaves the job at the last write that succeeded. A `_fail_job` that fails inside the try blocks of extraction (:98) or classification (:128) is caught by their handlers (:101, :131), which call `_fail_job` again with EXTRACTION_FAILED or CLASSIFICATION_FAILED. A failing status `get` gives the status endpoint's INTERNAL_ERROR 500 (functions/classify_async/main.py:209-218).
- `load_tag_cache`, `save_tag_cache` and `get_cache_age_hours`: these depend on module-level globals and the wall clock. The snapshot is passed in as a value, and loading and saving are outcomes.
- The Gemini call, `GeminiClassifier.__init__` and the prompt text of `_build_classification_prompt`: foreign calls. Only the prompt's 100000-character truncation is modelled. The model's reply and the JSON parser are parameters.
- The Zoho HTTP requests: `_refresh_access_token`'s request, `_get_secret`, and `_fetch_tags_page`'s request with its 429 sleep-and-retry. These are foreign calls; each page outcome, and the refreshed token, is a parameter.
- `_hash_api_key` (SHA-256), `get_api_key_hash`, and the format extractors (PyPDF2, pdfplumber, python-docx, python-pptx, OCR, text decoding): libraries the model cannot see. The key hash is a string parameter and extraction a function parameter.
- functions/classify/main.py and functions/health/main.py are not part of this model.
- Floating point: confidences are exact reals, and `float()` of a string is a parameter. The 0.3 alphanumeric ratio is exact (10·alnum < 3·len), and the estimate is ⌊size·5/2^20⌋ in exact arithmetic, so float rounding is not modelled.
- Time: times are integer seconds, and each request uses a single `now` for all its writes, where the code reads the clock per write. The processing time is a parameter. ISO formatting of timestamps is not modelled, and the current ISO timestamp for key expiry is a string parameter.
- The `timestamp` field of error responses and the print/log output: they carry no decision.
- Text: casing and `isalnum()` cover ASCII letters and digits only, because Unicode tables are out of reach; `strip()` uses Python's full whitespace set.
- Text.Repr: non-ASCII characters are written as they are; repr() escapes the ones Unicode deems non-printable, which needs the Unicode tables.
- Outer `except Exception` handlers: sync's INTERNAL_ERROR (functions/sync_tags/main.py:163-172) and the worker's 500 message text are not modelled. `ClassifyWorker.WorkerCrashed` carries no text. A worker request body that `request.get_json()` refuses (functions/classify_worker/main.py:39) is answered by that outer handler with 500, not with the 400 for a missing `job_id`; the model takes the already-decoded `jobId`, and the status endpoint's INTERNAL_ERROR arises in the model only from a missing completion or failure time, a job record the worker never writes.
- Malformed records: a key entry without `key_value`, a non-boolean `active`, and Zoho fields that are not strings. These raise or use truthiness in the code; the model types these fields.
- Concurrency: several instances, Cloud Tasks redelivery and the sharing of module-level caches. The code has no locking, so none is modelled; a redelivered job is simply processed again.
- Firestore's removal of expired jobs: it is not in the code.
- Classifier.ConfidenceOf: the contract states the absent, float and integer cases only. Booleans, strings through `float()` and the error cases are in its definition.
- Classifier.OptionalListsSound: it states that entries come from snapshot tags of the right type. That the kept entries are all such entries, in order, is in the definition of `KeepOfType`, which `Classifier.CollectOfType` is proved against.
