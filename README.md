# app-boilerplate core, modelled in Dafny

This project models the service core of the app-boilerplate monorepo. At its centre
is the embedded JSON document store of `packages/db`: a `Database` object that keeps
a snapshot of nine record collections and rewrites the whole data file after every
change. The collections are users, products, subscriptions, threads, messages, audit
logs, knowledge-base documents, voice sessions and analytics events. Around the
store sit the thin service packages that read and append to it:

- `chat`: recent messages, and sending a message with a canned reply;
- `auth`: demo account, password check, in-memory sessions;
- `llm`: canned completion, usage counters;
- `payments`: pricing table, subscription lookup, checkout session;
- `analytics`, `voice` and `email`: appending records and listing them;
- `api`: the dashboard snapshot, the knowledge-base list and the thread view.

The project also covers the helpers these rely on:

- `utils`: the identifier format, the sentence chunker, `truncate`, `partition` and
  `capitalize`;
- `config`: the feature-flag configuration and its cache;
- `scripts/ingest.ts`: the command-line parser, the slug and title of a markdown
  file, and the paragraph chunker.

## How the model is organised

One Dafny module per package:

- `Db`, `DbRecords`, `Keyed`, `DbUpserts` and `DbAliasing` model `packages/db`.
- `Utils` models `packages/utils`.
- `Config`, `Ingest`, `Chat`, `Auth`, `Llm`, `Payments`, `Analytics`, `Voice`,
  `Email` and `Api` model the package or script of the same name.
- `JsString` states the JavaScript string and array built-ins the code uses: `trim`,
  `split`, `join`, `toLowerCase`, `<` on strings, `slice(-n)` and `reverse`.
- `Json` and `Wrappers` hold JSON values and `Option`/`Result`.

Where the source changes state in place, the model is a class:

- `Db.Database` holds the snapshot and the data file;
- `Db.Registry` holds the `singleton` handle;
- `Config.ConfigCache` holds `envLoaded` and `cachedConfig`;
- `Auth.SessionStore` holds the `sessions` map;
- `Llm.UsageTracker` holds the `usage` record.

Each method states its whole new state in terms of specification functions. Lemmas
prove what the source promises about those functions. Loops stay loops:

- `Utils.ChunkText`, `Utils.Partition`, `Ingest.ParseArgs`,
  `Ingest.ChunkParagraphs` and `Llm.EmitTokens` are each proved equal to a fold;
- `Voice.SortNewestFirst` sorts an array in place.

The file system is a `Db.Disk` object mapping paths to parsed file contents; a path
that is not in the map is a missing file. Anything random or external is a
parameter:

- random bytes: `Entropy` values and byte sequences;
- the clock: a `now` string;
- `scrypt`, `JSON.parse`, `Intl.NumberFormat`, `toLocaleDateString` and
  `encodeURIComponent`: function parameters.

Two behaviours follow the code where a reader might expect otherwise:

- The `messageCount` of a thread whose id is the empty string counts every message.
  `getMessages('')` treats a falsy id as "all threads".
- An empty-string id given to an upsert falls back to the natural-key lookup but is
  stored as `''`.

## Model

| member | source | states |
|---|---|---|
| DbRecords.Load | packages/db/src/index.ts:96-123 | a missing data file loads as nine empty collections; the extra top-level keys of a present file are kept |
| DbRecords.LoadStore | packages/db/src/index.ts:116-132 | reading back what `writeSchema` wrote gives the same snapshot |
| DbRecords.StoreLoad | packages/db/src/index.ts:116-132 | after a read and a write, every collection is present in the file, a missing one as empty, and the extra keys are unchanged; a file with all nine keys is rewritten unchanged |
| Db.ResolveDatabasePath | packages/db/src/index.ts:108-114 | a configured path starting with `/` is used verbatim, any other is resolved under the repository root |
| Db.ThreadMessages | packages/db/src/index.ts:263-266 | the filtered messages are exactly the stored messages with that thread id |
| Db.ThreadMessagesAppend | packages/db/src/index.ts:263-266 | filtering distributes over concatenation, so the stored order is kept |
| Db.MessagesFor | packages/db/src/index.ts:263-268 | `getMessages(threadId)`: every message of the result is stored; with a truthy id all of them belong to that thread; with a falsy id the result is every message |
| Db.MessagesForSnoc | packages/db/src/index.ts:263-279 | a message just added is the last of its thread's messages, after the earlier ones |
| Db.Database.constructor | packages/db/src/index.ts:137-139 | the new store holds the snapshot read from the data file |
| Db.Database.Reload | packages/db/src/index.ts:141-143 | the snapshot is re-read from the file; right after a flush it is unchanged |
| Db.Database.Flush | packages/db/src/index.ts:125-147 | the data file, and no other file, now holds exactly the snapshot |
| Db.Database.UpsertUser | packages/db/src/index.ts:153-176 | the users become the keyed upsert of the candidate (by id when truthy, else by email); no other collection changes; the file holds the new snapshot |
| Db.Database.UpsertProduct | packages/db/src/index.ts:182-203 | the same, by id or else by name |
| Db.Database.UpsertSubscription | packages/db/src/index.ts:209-231 | the same, by id or else by user id |
| Db.Database.UpsertThread | packages/db/src/index.ts:237-261 | the same, by id or else by title, with `createdAt` defaulting to now on insert |
| Db.Database.UpsertKnowledgeBaseDocument | packages/db/src/index.ts:300-325 | the same, by id or else by slug, with `updatedAt` forced to now on update |
| Db.UpsertUsers | packages/db/src/index.ts:153-176 | the user returned is stored, and the users either keep their number or gain exactly it at the end |
| Db.UpsertProducts | packages/db/src/index.ts:182-203 | the same for products |
| Db.UpsertSubscriptions | packages/db/src/index.ts:209-231 | the same for subscriptions |
| Db.UpsertThreads | packages/db/src/index.ts:237-261 | the same for threads |
| Db.UpsertDocuments | packages/db/src/index.ts:300-325 | the same for knowledge-base documents |
| Db.Database.AddMessage | packages/db/src/index.ts:270-279 | exactly one message is appended at the end; nothing else changes; the file holds the new snapshot |
| Db.Database.AddAuditLog | packages/db/src/index.ts:285-294 | exactly one audit-log entry is appended; nothing else changes; the file is rewritten |
| Db.Database.AddAnalyticsEvent | packages/db/src/index.ts:331-340 | exactly one event is appended; nothing else changes; the file is rewritten |
| Db.Database.AddVoiceSession | packages/db/src/index.ts:346-355 | exactly one voice session is appended; nothing else changes; the file is rewritten |
| Db.Registry.constructor | packages/db/src/index.ts:358 | no handle is open at start |
| Db.Registry.GetDatabase | packages/db/src/index.ts:360-365 | the same handle is returned every time until a reset; a fresh one is read from the file otherwise |
| Db.Registry.ResetDatabase | packages/db/src/index.ts:367-369 | the handle is dropped |
| Db.Registry.InitializeDatabase | packages/db/src/index.ts:371-380 | the empty snapshot is written only when the data file does not exist; an existing file is left alone |
| Keyed.LookupIndex | packages/db/src/index.ts:154-156 | the index is the first record matching by id when the candidate id is truthy, else by natural key, or -1 when none matches |
| Keyed.Upsert | packages/db/src/index.ts:153-176 | the record an upsert returns is in the new collection, which either keeps its length or is the old one with that record appended |
| Keyed.FirstWith | packages/payments/src/index.ts:27 | `find` by a key: the first record with that key, or none |
| Keyed.UpsertUpdatesFirstMatch | packages/db/src/index.ts:158-166 | with a match, that record is replaced at the same index by the merge, which keeps the existing id; the length and every other record are unchanged |
| Keyed.UpsertAppendsWithoutMatch | packages/db/src/index.ts:169-175 | without a match, exactly the new record is appended and the earlier records are untouched |
| Keyed.UpsertTwice | packages/db/src/index.ts:153-176 | upserting the same candidate twice gives the same collection as once, when the merge is idempotent and keeps matching |
| DbUpserts.UpsertUserUpdatesMatch | packages/db/src/index.ts:158-166 | a matching user keeps its id and index; the other fields are overwritten by the candidate's, optional ones only when given |
| DbUpserts.UpsertUserAppendsNew | packages/db/src/index.ts:169-175 | a new user is appended under the candidate id, or a fresh `usr_` id when none was given |
| DbUpserts.UpsertUserTwice | packages/db/src/index.ts:153-176 | upserting the same user twice changes nothing the second time |
| DbUpserts.UpsertUserUnknownIdInserts | packages/db/src/index.ts:153-176 | a candidate id that no user has is inserted, even when a user with that email exists, so emails are not kept unique |
| DbUpserts.UpsertUserEmptyIdsCollide | packages/db/src/index.ts:153-176 | two new users with the empty id are both stored under `''` |
| DbUpserts.UpsertProductUpdatesMatch | packages/db/src/index.ts:186-195 | a matching product is updated in place and keeps its id |
| DbUpserts.UpsertProductAppendsNew | packages/db/src/index.ts:196-202 | a new product is appended under the given id or a fresh `prd_` id |
| DbUpserts.UpsertProductTwice | packages/db/src/index.ts:182-203 | upserting the same product twice changes nothing the second time |
| DbUpserts.UpsertSubscriptionUpdatesMatch | packages/db/src/index.ts:213-222 | a matching subscription is updated in place and keeps its id |
| DbUpserts.UpsertSubscriptionAppendsNew | packages/db/src/index.ts:224-230 | a new subscription is appended under the given id or a fresh `sub_` id |
| DbUpserts.UpsertSubscriptionTwice | packages/db/src/index.ts:209-231 | upserting the same subscription twice changes nothing the second time |
| DbUpserts.UpsertThreadUpdatesMatch | packages/db/src/index.ts:242-251 | a matching thread is updated in place and keeps its id |
| DbUpserts.UpsertThreadAppendsNew | packages/db/src/index.ts:253-260 | a new thread is appended under the given id or a fresh `thr_` id, created now unless a time was given |
| DbUpserts.UpsertThreadTwice | packages/db/src/index.ts:237-261 | upserting the same thread twice changes nothing the second time |
| DbUpserts.UpsertDocumentUpdatesMatch | packages/db/src/index.ts:305-315 | a matching document is updated in place, keeps its id and gets `updatedAt` = now whatever the candidate says |
| DbUpserts.UpsertDocumentAppendsNew | packages/db/src/index.ts:317-324 | a new document is appended under the given id or a fresh `doc_` id, updated now unless a time was given |
| DbUpserts.UpsertDocumentTwice | packages/db/src/index.ts:300-325 | upserting the same document twice at the same instant changes nothing the second time |
| DbAliasing.ReadSchemaAsWritten | packages/db/src/index.ts:116-123 | as written, a missing file yields `DEFAULT_SCHEMA` itself, sharing all nine arrays |
| DbAliasing.ReloadAsWritten | packages/db/src/index.ts:116-143 | as written, reloading without a data file makes the snapshot the default arrays themselves, and a file without `messages` shares the default messages array |
| DbAliasing.AddMessageAsWritten | packages/db/src/index.ts:270-279 | as written, the message is appended, lands in the default array too when the messages array is shared, and the file holds the new snapshot |
| DbAliasing.InitializeAsWritten | packages/db/src/index.ts:371-380 | as written, an existing file is left alone and a missing one receives whatever the defaults hold now |
| DbAliasing.DeletedFileComesBack | packages/db/src/index.ts:96-380 | as written, a message added with no data file reappears after the file is deleted and the store reloads or is initialised |
| DbAliasing.MissingKeySharesDefault | packages/db/src/index.ts:116-279 | as written, messages pushed into a file without a `messages` key become the default for the next such file |
| Utils.HexDigit | packages/utils/src/index.ts:14 | each nibble is written as a lower-case hexadecimal digit |
| Utils.Hex | packages/utils/src/index.ts:14 | `toString('hex')` gives two hexadecimal digits per byte |
| Utils.HexInjective | packages/utils/src/index.ts:14 | different bytes give different hexadecimal text |
| Utils.CreateId | packages/utils/src/index.ts:13-16 | an id is the prefix, `_` and twelve hexadecimal digits |
| Utils.CreateIdInjective | packages/utils/src/index.ts:13-16 | different random bytes give different ids |
| Utils.RoundedAverage | packages/utils/src/index.ts:76-81 | `Math.round(average(values))` is 0 for no values, and otherwise within half of the mean, a half rounding up |
| Utils.SumBounds | packages/utils/src/index.ts:80 | the sum of values between two bounds lies between n times each bound |
| Utils.RoundedAverageBounds | packages/utils/src/index.ts:76-81 | the rounded mean lies between the smallest and the largest value, and equals the value when all are equal |
| Utils.Truncate | packages/utils/src/index.ts:53-58 | text that fits is unchanged; otherwise the first `max(0, maxLength-3)` characters plus `...`, at most `max(3, maxLength)` long |
| Utils.Capitalize | packages/utils/src/index.ts:96-101 | the length is kept, only the first character is upper-cased, and empty stays empty |
| Utils.Partition | packages/utils/src/index.ts:83-94 | the left side holds the items that pass the test and the right side those that fail, each in input order |
| Utils.PartitionSplitsItems | packages/utils/src/index.ts:83-94 | together the two sides are a permutation of the input and their lengths add up to its length |
| Utils.SpaceRunEnd | packages/utils/src/index.ts:35 | the white-space run after a sentence end extends to the next non-space character |
| Utils.SplitSentences | packages/utils/src/index.ts:35 | the split after sentence ends always yields at least one piece; SplitSentencesKeepsText proves it drops only white space |
| Utils.SplitSentencesKeepsText | packages/utils/src/index.ts:35 | splitting after `.`, `!` or `?` followed by white space drops only white space |
| Utils.ChunkText | packages/utils/src/index.ts:27-51 | the loop returns the chunks of the fold that specifies the chunker |
| Utils.SentenceChunks | packages/utils/src/index.ts:27-51 | what `chunkText` returns: nothing for a blank source (the converse is SentenceChunksEmptyIffBlank, the grouping SentenceChunksGroups) |
| Utils.SentenceChunksEmptyIffBlank | packages/utils/src/index.ts:27-51 | the chunker returns no chunk exactly when the source is blank |
| Utils.SentenceChunksGroups | packages/utils/src/index.ts:35-48 | chunk k is made of group k of consecutive sentences; the groups cover the sentences in order, so no sentence is split or reordered; only blank sentences are left over |
| Utils.CloseJoinedGroup | packages/utils/src/index.ts:35-44 | a chunk of joined sentences is at most `maxLength + 1` long, and none of its sentences is over-long |
| Utils.CloseSingleGroup | packages/utils/src/index.ts:36-40 | a chunk that was not joined has at most one non-blank sentence, and only its last sentence may be over-long |
| Utils.SentenceChunksKeepText | packages/utils/src/index.ts:27-51 | the chunks hold every visible character of the source, in order and once |
| Config.TrimmedPairs | packages/config/src/index.ts:84-87 | the fallback keeps only non-empty pairs |
| Config.TrimmedPairsSound | packages/config/src/index.ts:84-87 | every pair kept is the trim of one of the comma-separated pieces, and there are no more pairs than pieces |
| Config.TrimmedPairsComplete | packages/config/src/index.ts:84-87 | every piece whose trim is not empty is kept, trimmed |
| Config.FallbackOverridesSpec | packages/config/src/index.ts:84-95 | the fallback sets exactly the non-empty keys of the pairs, each to whether the value after `=` is `true`, and the last pair for a key wins |
| Config.FeatureOverrides | packages/config/src/index.ts:72-97 | what `parseFeatureOverrides` returns is always an object (`typeof` object, arrays included), and `{}` for an absent or empty input |
| Config.ParseFeatureOverrides | packages/config/src/index.ts:72-97 | the parser returns `{}` for an absent or empty input and for JSON that is not an object, the object itself for a JSON object, and the fallback pairs when `JSON.parse` throws |
| Config.ValidateOverrides | packages/config/src/index.ts:12-30 | validation succeeds exactly when every present feature key holds a boolean, and keeps exactly those keys |
| Config.MergedFlags | packages/config/src/index.ts:12-58 | every feature is on unless overridden |
| Config.ParseNodeEnv | packages/config/src/index.ts:24 | `NODE_ENV` is accepted exactly when it is absent or one of `development`, `test`, `production`, and defaults to development |
| Config.BuildConfig | packages/config/src/index.ts:23-68 | an invalid `NODE_ENV` fails the configuration; a built configuration has a valid email, and a feature is off only when `FEATURE_FLAGS` sets it to `false` |
| Config.DefaultConfig | packages/config/src/index.ts:23-68 | without those variables the configuration is development, `data/database.json`, `founder@example.com`, with every feature on |
| Config.WithDotenv | packages/config/src/index.ts:6-10 | loading the env file adds its variables and keeps existing ones |
| Config.WithDotenvTwice | packages/config/src/index.ts:6-10 | loading the env file twice is the same as once |
| Config.IsFeatureEnabled | packages/config/src/index.ts:107-110 | the caller's override wins when present, else the configured flag |
| Config.ConfigCache.constructor | packages/config/src/index.ts:4-40 | nothing is loaded or cached at start |
| Config.ConfigCache.EnsureEnvLoaded | packages/config/src/index.ts:6-10 | the env file is loaded the first time only |
| Config.ConfigCache.GetConfig | packages/config/src/index.ts:42-70 | a cached configuration is returned unchanged; otherwise it is built and cached; the env file is loaded at most once |
| Config.ConfigCache.ResetConfigCache | packages/config/src/index.ts:112-115 | both the cache and the loaded flag are cleared |
| Ingest.ParseArgs | scripts/ingest.ts:30-52 | the loop returns what the argument fold returns |
| Ingest.ParseArgsAppend | scripts/ingest.ts:37-49 | arguments are read left to right: the rest continues from the options the prefix built |
| Ingest.ParseArgsLaterArguments | scripts/ingest.ts:32-49 | a later `--path`/`-p` overrides the path, `--dry-run` only sets the flag, any other argument is ignored, and a missing or empty value fails with "Missing value for --path" |
| Ingest.IndexOfFrom | scripts/ingest.ts:72 | the first occurrence of the root in the path, if any |
| Ingest.StripLeadingSeparators | scripts/ingest.ts:73 | the leading `/` and `\` are removed and nothing else |
| Ingest.SlashesToColons | scripts/ingest.ts:74 | every `/` becomes `:` and every other character is kept, as the evidently intended `/\//g` does |
| Ingest.RegexBodyEnd | scripts/ingest.ts:74 | a regular expression literal closes at an unescaped `/` outside a class, and never across a line terminator (section 12.9.5 of ECMA-262) |
| Ingest.SlashRegexAsWritten | scripts/ingest.ts:74 | the literal on that line, as written, is not closed before the line ends |
| Ingest.SlashRegexCorrected | scripts/ingest.ts:74 | the literal `/\//g` closes right after its escaped slash |
| Ingest.StripMarkdownExtension | scripts/ingest.ts:75 | a trailing `.mdx` or `.md` is removed, and nothing else |
| Ingest.SlugFromPath | scripts/ingest.ts:70-77 | a slug is never longer than the file path; SlugShape and SlugUnderRoot state its shape |
| Ingest.SlugShape | scripts/ingest.ts:70-77 | a slug holds no `/` and no upper-case ASCII letter, and does not start with `\` |
| Ingest.SlugUnderRoot | scripts/ingest.ts:70-77 | for a file under the root, the slug depends only on the path below the root |
| Ingest.ParagraphBreakEnd | scripts/ingest.ts:80 | a paragraph break is a line break, white space, and a later line break |
| Ingest.SplitParagraphs | scripts/ingest.ts:80 | `split(/\n\s*\n/)` always yields at least one piece, and a text without a line break is one piece, itself |
| Ingest.ChunkParagraphs | scripts/ingest.ts:79-99 | the loop returns the chunks of the fold that specifies the chunker |
| Ingest.ParagraphChunks | scripts/ingest.ts:79-99 | what `chunkText` returns; the empty source gives no chunk; ParagraphChunksGroups proves what the chunks are made of |
| Ingest.ParagraphChunksGroups | scripts/ingest.ts:80-98 | chunk k is group k of consecutive paragraphs, joined by blank lines and trimmed; the groups hold every non-empty paragraph in order; a chunk of two or more paragraphs fits in `maxLength` |
| Ingest.HeadingAt | scripts/ingest.ts:140 | a `#` heading match captures a non-empty text within one line |
| Ingest.Title | scripts/ingest.ts:140-141 | without a heading, the title is a suffix of the slug without `:` (TitleFallback pins it to the last segment) |
| Ingest.TitleFallback | scripts/ingest.ts:141 | without a heading, the title is the last `:`-separated segment of the slug: a suffix without `:` that is either the whole slug or follows a `:` |
| Ingest.TitleFromFirstLine | scripts/ingest.ts:140-141 | a document whose first line is `# ` and a heading gets that heading, trimmed |
| Chat.RecentMessages | packages/chat/src/index.ts:5-9 | the recent messages of a thread are messages of that thread |
| Chat.RecentMessagesAreLatest | packages/chat/src/index.ts:5-9 | they are the last `min(limit, n)` of the thread's `n` messages, in stored order |
| Chat.RecentMessagesAfterSend | packages/chat/src/index.ts:5-18 | a new message ends the recent list and pushes out the oldest when the list was full |
| Chat.AsChatMessages | packages/chat/src/index.ts:21-24 | the conversation sent to the completion is the stored messages' role and content, one for one, in order |
| Chat.ConversationPrompt | packages/chat/src/index.ts:20-24 | the conversation sent to the completion ends with the message just stored, so that message is the prompt |
| Chat.ConversationReply | packages/chat/src/index.ts:20-30 | the reply answers the content just sent |
| Chat.SendChatMessage | packages/chat/src/index.ts:11-38 | exactly two messages are appended, the user's content and then the reply, both with the given thread id, with no check that the thread exists; the usage tracker gains the completion's tokens, one response time (elapsed plus the completion's) and one session |
| Auth.HashPassword | packages/auth/src/index.ts:15-19 | a stored hash is the salt, `:`, and 64 hexadecimal digits |
| Auth.DecodeHexOfHex | packages/auth/src/index.ts:25 | decoding hexadecimal text undoes encoding it |
| Auth.VerifyPassword | packages/auth/src/index.ts:21-26 | no stored hash means false |
| Auth.VerifyHashed | packages/auth/src/index.ts:15-26 | a hash made with a salt without `:` verifies exactly the passwords that derive the same key |
| Auth.VerifyFreshHash | packages/auth/src/index.ts:15-26 | a password always verifies against a fresh hash of itself |
| Auth.DemoUsers | packages/auth/src/index.ts:28-46 | the users after `ensureDemoUser()`: the same number when a user has the default email, otherwise the old users followed by one new user |
| Auth.DemoUserCreated | packages/auth/src/index.ts:35-42 | without a user for the default email, the demo admin account is appended |
| Auth.DemoUserGetsHash | packages/auth/src/index.ts:43-44 | a demo user without a hash keeps its id and every other field and only gains the hash |
| Auth.DemoUserReady | packages/auth/src/index.ts:28-46 | afterwards the first user with the default email has a hash |
| Auth.DemoUsersIdempotent | packages/auth/src/index.ts:35-45 | a second call changes nothing |
| Auth.EnsureDemoUser | packages/auth/src/index.ts:28-46 | the users become the demo-user update, the demo user is ready, and the file is rewritten only when something changed |
| Auth.SessionStore.constructor | packages/auth/src/index.ts:13 | no session at start |
| Auth.SessionStore.GetSession | packages/auth/src/index.ts:65-68 | a missing or empty token has no session; otherwise the session stored under it, if any |
| Auth.SessionStore.GetCurrentUser | packages/auth/src/index.ts:74-79 | no session or no user with the session's user id gives none; otherwise the first user with that id, by index |
| Auth.SessionStore.SignOut | packages/auth/src/index.ts:70-72 | the token's session is removed, and that token then has none |
| Auth.SessionStore.Authenticate | packages/auth/src/index.ts:48-63 | success exactly when the first user with the email has a hash that verifies. No such user, or a wrong password, fails with "Invalid email or password". A stored hash that `verifyPassword` cannot check (no `:`, or a different length) fails with the error it throws. Every failure leaves the sessions unchanged. On success a session with the user's id is stored under its token |
| Auth.DemoSignInSucceeds | packages/auth/src/index.ts:28-63 | signing in with the demo password succeeds once the demo account was created |
| Llm.BulletLine | packages/llm/src/index.ts:29 | a bullet is the chunk clipped to 110 characters, with `…` exactly when it is longer |
| Llm.BulletLines | packages/llm/src/index.ts:28-30 | one bullet per chunk, in order |
| Llm.SynthesizeResponse | packages/llm/src/index.ts:26-32 | the reply opens with the header line and closes with the footer |
| Llm.SynthesizeBlankPrompt | packages/llm/src/index.ts:26-32 | a blank prompt gives the header and footer with no bullet |
| Llm.SynthesizeShortPrompt | packages/llm/src/index.ts:26-32 | a short single-sentence prompt is echoed whole in one bullet |
| Llm.LastUserIndex | packages/llm/src/index.ts:36 | the index of the last user-role message, or -1 when there is none |
| Llm.Prompt | packages/llm/src/index.ts:36-37 | the prompt is the content of the last user message, or `Hello!` when there is none |
| Llm.RoundQuarter | packages/llm/src/index.ts:39 | `Math.round(n / 4)`, a half rounding up |
| Llm.Completion | packages/llm/src/index.ts:34-44 | the completion is an assistant message, takes at least 100 ms, and counts the content length over four, rounded, as tokens |
| Llm.CompletionShape | packages/llm/src/index.ts:34-51 | the completion is an assistant message answering the prompt; its tokens are the content length over four, rounded; its response time is 100 ms plus 2 ms per prompt character |
| Llm.PromptOfAppended | packages/llm/src/index.ts:36-37 | appending non-user messages keeps the prompt; appending a user message makes it the prompt |
| Llm.EmitTokens | packages/llm/src/index.ts:55-57 | one token per space-separated piece, each with a trailing space; together they are the content plus a space |
| Llm.UsageTracker.constructor | packages/llm/src/index.ts:20-24 | all counters start at zero |
| Llm.UsageTracker.CreateChatCompletion | packages/llm/src/index.ts:34-51 | the tokens are added, one response time is appended, and the session count goes up by one |
| Llm.UsageTracker.StreamChatCompletion | packages/llm/src/index.ts:53-59 | the same counter updates, and the emitted tokens rebuild the content |
| Llm.UsageTracker.Statistics | packages/llm/src/index.ts:61-67 | the counters as they stand, with the mean response time rounded, and 0 before any completion |
| Llm.UsageTracker.ResetUsage | packages/llm/src/index.ts:69-73 | every counter is zeroed and the list is emptied |
| Payments.PricingTable | packages/payments/src/index.ts:14-20 | one plan per product, in store order, with every product field kept and the price formatted with `/` and the interval |
| Payments.PricingTableAppend | packages/payments/src/index.ts:14-20 | a new product adds its plan at the end |
| Payments.SubscriptionForUser | packages/payments/src/index.ts:22-36 | the user's first subscription and the product it names; none when either is missing; the product id equals the subscription's product id |
| Payments.LaterSubscriptionIgnored | packages/payments/src/index.ts:27 | only a user's first subscription counts |
| Payments.CreateCheckoutSession | packages/payments/src/index.ts:38-51 | "Product not found" exactly when no product has the id; otherwise the session holds the first product with that id, as `find` returns it, and its URL is the checkout prefix and the new id |
| Analytics.TrackEvent | packages/analytics/src/index.ts:10-18 | exactly one event with an `evt_` id and the given name, payload and user is appended |
| Analytics.ListAnalyticsEvents | packages/analytics/src/index.ts:20-23 | the last `min(10, n)` events, newest first |
| Analytics.TrackedEventFirst | packages/analytics/src/index.ts:10-23 | an event just tracked heads the list, followed by the nine before it |
| Voice.SortNewestFirst | packages/voice/src/index.ts:9 | the in-place sort leaves a permutation ordered newest first |
| Voice.Sink | packages/voice/src/index.ts:9 | one insertion step extends the sorted prefix by one, permuting the array |
| Voice.ListVoiceSessions | packages/voice/src/index.ts:5-10 | a permutation of the stored sessions ordered newest first; the store is not touched |
| Voice.DurationSeconds | packages/voice/src/index.ts:19 | `Math.max(1, Math.round(length / 80))`: 1 for a length under 40, and otherwise the length over 80 rounded half up |
| Voice.TranscribeAudio | packages/voice/src/index.ts:12-21 | exactly one session is appended, with the canned transcript, a title of at most 48 characters and a duration of at least 1 |
| Voice.SpokenText | packages/voice/src/index.ts:26 | `slice(0, 80)`: the whole text when it has at most 80 characters, otherwise exactly its first 80 |
| Voice.SynthesizeSpeech | packages/voice/src/index.ts:23-28 | the URL is the speech prefix, the new `evt_` id and `?text=`, followed by the encoded text (SpeechIgnoresTail: only the first 80 characters) |
| Voice.SpeechIgnoresTail | packages/voice/src/index.ts:23-28 | text after the 80th character does not reach the URL |
| Email.ListEmailCampaigns | packages/email/src/index.ts:12-31 | the two fixed campaigns, each opened at most as often as delivered |
| Email.CampaignIdsDistinct | packages/email/src/index.ts:12-27 | the two campaigns have different ids unless the same random bytes were drawn |
| Email.SendTransactionalEmail | packages/email/src/index.ts:33-49 | exactly one audit-log entry is appended; the result echoes the inputs with the preview URL |
| Email.SentLog | packages/email/src/index.ts:35-40 | the entry has the recipient as actor, `email.sent` as action, the template as target and the variables as metadata |
| Api.DashboardUser | packages/api/src/index.ts:51-53 | the user with the default email, else the first user, else none exactly when there are no users |
| Api.DashboardUserFirst | packages/api/src/index.ts:51-53 | of several users with the default email, the first is shown |
| Api.ProfileOf | packages/api/src/index.ts:66-71 | the user's own fields, or "Demo User", "demo@example.com" and role "user" |
| Api.DashboardProfile | packages/api/src/index.ts:51-71 | the dashboard profile is the demo fallback when there are no users and otherwise one user's own fields: the default account's when one exists, else the first user's |
| Api.SubscriptionSummaryOf | packages/api/src/index.ts:55-78 | none exactly when there is no user or no subscription with a product; otherwise the product name, status and formatted end date |
| Api.FeatureFlagRecord | packages/api/src/index.ts:58-65 | one entry per feature under its name, holding whether it is enabled, and no other key |
| Api.ProductSummaries | packages/api/src/index.ts:79-85 | one entry per plan in order, with the bare formatted price |
| Api.ProductsMatchPricingTable | packages/api/src/index.ts:79-85 | the products appear in pricing-table order |
| Api.ThreadSummaryOf | packages/api/src/index.ts:86-96 | the message count is the number of the thread's messages, the last message is absent exactly when it has none, and the average length is the rounded mean |
| Api.ThreadSummaries | packages/api/src/index.ts:86-97 | one entry per thread, in store order |
| Api.ThreadSummaryAfterSend | packages/api/src/index.ts:86-96 | a message stored in a thread adds one to its count and becomes its last message |
| Api.AverageLengthBounds | packages/api/src/index.ts:95 | the average length lies between the shortest and the longest message |
| Api.GetDashboardSnapshot | packages/api/src/index.ts:48-103 | each field is what its service returns, and the store is not modified |
| Api.Excerpt | packages/api/src/index.ts:111 | the first 180 characters of the body |
| Api.KnowledgeBaseDocuments | packages/api/src/index.ts:105-114 | one summary per document, in order, with the excerpt |
| Api.GetThread | packages/api/src/index.ts:116-126 | none exactly when no thread has the id; otherwise the first thread with that id, as `find` returns it, and its 50 most recent messages |
| Api.ThreadViewLatest | packages/api/src/index.ts:116-126 | the view holds the last 50 of the thread's messages, in stored order |

## Left out

- Db.ResolveDatabasePath: `path.resolve` is modelled as joining the repository root and the relative path; its normalisation of `..`, `.` and repeated separators is not modelled.
- Db.Database: the data path is resolved once, when the `Db.Registry` is created, and every store it opens keeps it. The source re-resolves it through `getConfig()` on every read and write, so a configuration reset between calls would move the file; the model does not capture that.
- File I/O and JSON text: the data file is its parsed content. `JSON.stringify` formatting, `mkdirSync`, and the exception `JSON.parse` throws on an unparseable data file are not modelled.
- Aliasing of returned arrays: getters return copies in the source; the model returns sequence values, so no caller can alias the snapshot.
- Randomness, the clock, `scryptSync`, `timingSafeEqual`'s constant-time comparison, `Intl.NumberFormat`, `toLocaleDateString` and `encodeURIComponent` are parameters. Nothing is stated about their values beyond what the source relies on.
- JavaScript numbers are doubles; the model uses unbounded integers for counts, lengths, prices, token counts and response times. `Math.round(average(…))` is modelled exactly over integers. `median`, `sleep`, `ensureError` and `safeNumber`/`analyticsFlushInterval` are not part of this model.
- Strings are sequences of code points, not UTF-16 code units, so lengths and `<` differ from JavaScript outside the Basic Multilingual Plane. `toLowerCase` and `toUpperCase` are modelled for ASCII letters only.
- Voice.SortNewestFirst: the array is sorted by insertion sort, not by the engine's algorithm. The contract fixes what the source's comparator fixes: a permutation ordered newest first. The order of sessions with equal `createdAt` is unspecified in both.
- Llm.UsageTracker.StreamChatCompletion: the `onToken` callback is modelled as the returned list of its arguments.
- Config: zod validation is modelled for the six feature flags and the node environment. The email check is a parameter.
- Auth.DemoUserGetsHash: assumes no earlier user shares the demo user's id. Otherwise the upsert by id updates that earlier user instead; `Auth.DemoUsers` models that case as the code does.
- Ingest.SlashesToColons: models the evidently intended replacement, not the unterminated literal at scripts/ingest.ts:74 (see "## Findings"). Replacing every `/` with `:` matches the `split(':')` at line 141.
- `collectMarkdownFiles`, `pseudoEmbedding` and the body of `ingest()`: file-system and Postgres I/O, and floating-point embeddings.
- `getCustomerPortalUrl` (packages/payments/src/index.ts:53-55): only URL encoding, which is a parameter elsewhere.
- The scenario in scripts/seed.ts is not part of this model.

## Findings

| source | as written | input that shows it | evidently intended | confidence | as-written member | corrected member |
|---|---|---|---|---|---|---|
| packages/db/src/index.ts:116-123 | a missing data file, or a missing collection key, hands out the arrays of the module-level `DEFAULT_SCHEMA`, which later `push`es grow | start with no data file, add a message, delete the file, reload: the message is back | every read starts from fresh empty collections | not executed | DbAliasing.DeletedFileComesBack | DbRecords.Load |
| scripts/ingest.ts:74 | `.replace(/\/g, ':')`: the `\/` is an escaped slash, so the regular expression literal is still open when the line ends, and the script is rejected before it runs | the script file itself | `.replace(/\//g, ':')`, every `/` of the relative path becomes `:` | not executed | Ingest.SlashRegexAsWritten | Ingest.SlashesToColons |
