# podcast_summarizer — a verified model of its deterministic core

podcast_summarizer turns podcast feeds into transcribed, summarised episodes and e-mails digests of the summaries. Requests enter through a public forwarding endpoint and travel over a Service Bus queue to an API listener. A catalogue of podcasts, episodes and summaries lives in Supabase, and audio and transcripts live in Azure Blob Storage. Language models write the summaries, key points and highlights.

Most of the repository is glue around those services. This project models the small, deterministic rules inside that glue and proves properties about them. External services are not modelled directly: the queue, the database, the blob container, the HTTP calls, the language models and spaCy are in-memory state, parameters or uninterpreted functions. Fresh uuids and clock readings are parameters too.

One Dafny module per source file:

- **Queue pipeline.**
  - `FrontendApi` covers `podcast-frontend-api/app.py`.
  - `QueueProcessor` covers `api/queue_processor.py`, with the dispatcher as a class over its handler map.
  - `Handlers` covers `api/handlers.py`.
  - `Pipeline` connects the three.
  - `RequestModels` covers the Pydantic request models in `api/models.py`.
- **Episode selection.**
  - `EpisodeIndices` holds the index syntax the clients share.
  - `Gui`, `Cli`, `ApiTest` and `ApiTestCore` hold each client's own parser and payload.
  - `EpisodeData` and `FeedProcessor` narrow the episodes to process.
- **Test tooling.** `CommandProcessor`, `ParamValidator` and `TestRunners`, which covers `tests/local_tests.py` and `tests/container_tests.py`.
- **Summarisation.** `KeyPoints` (`base_summarizer.py`), `LangchainSummarizer`, `SpacySummarizer`, `TextUtils`, `PromptTemplates`, `Summarization` and `SummarizerService`.
- **E-mail digest.** `EmailWorkflow` and `EmailContent`. `Ordering` is the newest-first sort both the workflow and the database use.
- **Catalogue and storage.**
  - `Database` models `SupabaseManager` as a class over three tables.
  - `PodcastDbService` brings a crawled podcast into the catalogue.
  - `BlobStorage` models the blob operations over a map.
- **Feeds and downloads.** `Downloader`, `PodcastDownloader`, `FeedParser` and `CrawlerFeedParser`.
- **Shared.** `Wrappers` (Option, Result), `Json` (Python's JSON-shaped values, with dicts in insertion order) and `Strings` (the ASCII slice of Python's `str`).

Where the source changes state step by step, the model is imperative. Each method is proved equal to a specification function, and the properties are proved about that function.

## Model

| member | source | states |
|---|---|---|
| EpisodeIndices.Tokens | cli.py:44 | every token of `replace(',', ' ').split()` is non-empty and holds no whitespace |
| EpisodeIndices.TextParts | cli.py:44-49 | one part per token, in order, each classified as a range, a number or something skipped |
| EpisodeIndices.Range | cli.py:58 | `range(start, end + 1)` is `start, start+1, …, end`, and empty when start > end |
| EpisodeIndices.RangeMembers | cli.py:57-58 | a value is in a range exactly when it lies between the two ends |
| EpisodeIndices.PartValuesSelected | cli.py:49-68 | a part contributes a value exactly when it selects it: a valid range covers it or a number equals it; bad parts contribute nothing |
| EpisodeIndices.CollectedMembers | cli.py:40-68 | a value ends up in `result` exactly when some part selects it |
| EpisodeIndices.AppendRange | cli.py:58 | `extend(range(...))` appends exactly the range's values |
| EpisodeIndices.AppendPart | cli.py:49-68 | one pass of the loop appends exactly that part's values |
| EpisodeIndices.CollectIndices | cli.py:40-68 | the loop leaves `result` equal to the values of all parts in order |
| EpisodeIndices.Insert | cli.py:70 | inserting into a strictly increasing list keeps it strictly increasing and adds exactly that value |
| EpisodeIndices.SortedUnique | cli.py:70 | `sorted(set(xs))` is strictly increasing and has exactly the members of `xs` |
| EpisodeIndices.IncreasingByMembers | cli.py:70 | two strictly increasing lists with the same members are equal |
| EpisodeIndices.SortedUniqueCanonical | cli.py:70 | `sorted(set(xs))` is the only strictly increasing list with the members of `xs` |
| EpisodeIndices.SortedIndices | cli.py:40-70 | the parsed list is strictly increasing and holds exactly the selected values |
| EpisodeIndices.BaseRequest | cli.py:88-93 | the request body has the keys feed_url, limit_episodes, split_size_mb and include_transcription, in that order, with the given values, and no episode_indices |
| EpisodeIndices.BuildRequest | cli.py:88-97 | the limit becomes 0 and `episode_indices` is added exactly when the parsed list is non-empty |
| Cli.Indices | cli.py:25-70 | None for a falsy argument; otherwise a strictly increasing list holding exactly the selected values |
| Cli.ParseEpisodeIndices | cli.py:37-70 | the loop-based parser returns `Cli.Indices` |
| Cli.ParsedArg | cli.py:81-85 | the indices are parsed only for a truthy argument |
| Cli.TestPodcastProcessing | cli.py:72-97 | the body describes the request, with the default feed URL when none is given |
| Cli.RequestAsksForSelection | cli.py:81-97 | the body asks for episode v exactly when the argument selects v |
| ApiTest.TestPodcastProcessing | api_test.py:75-97 | the body describes the request; with no feed URL given it sends `feed_url: null`, as the function does |
| ApiTestCore.Indices | podcast_summarizer/core/api_test_core.py:27-61 | `[]` for a falsy argument; otherwise a strictly increasing list holding exactly the selected values |
| ApiTestCore.ParseEpisodeIndices | podcast_summarizer/core/api_test_core.py:32-61 | the loop-based parser returns `ApiTestCore.Indices` |
| ApiTestCore.AgreesWithCli | podcast_summarizer/core/api_test_core.py:32-33 | the core parser equals the CLI's, except that a falsy argument gives `[]` rather than None |
| ApiTestCore.ProcessPodcast | podcast_summarizer/core/api_test_core.py:63-79 | the body describes the request; a missing feed URL is sent as null |
| Gui.Indices | podcast_summarizer_gui.py:13-36 | None for an empty string or when nothing is selected; otherwise a non-empty, strictly increasing list holding exactly the selected values |
| Gui.ParseEpisodeIndices | podcast_summarizer_gui.py:13-36 | the loop-based parser returns `Gui.Indices` |
| Gui.Singles | podcast_summarizer_gui.py:225-229 | one copy of the base payload per index, in order, each with `episode_indices` set to that index alone |
| Gui.QueueSingles | podcast_summarizer_gui.py:225-229 | the fan-out loop queues exactly `Gui.Singles` |
| Gui.Enqueue | podcast_summarizer_gui.py:217-247 | the queued payloads are the fan-out of the parsed indices |
| Gui.HandleProcessPodcast | podcast_summarizer_gui.py:207-247 | the payloads put on the task queue, in order, are those of the form's texts: none when `int()` of the limit or `float()` of the split size raises, otherwise the fan-out of the converted values |
| Gui.FormQueues | podcast_summarizer_gui.py:208-212 | something is queued exactly when both number fields convert, and then the payloads of the converted limit and split size |
| Gui.WordFieldQueuesNothing | podcast_summarizer_gui.py:209-211 | a word such as "ten" in the limit or split-size field raises `ValueError`, so nothing is queued |
| Gui.FanOutShape | podcast_summarizer_gui.py:217-247 | at least one request is queued, all for the same feed, and a request with indices has `limit_episodes` 0 |
| Gui.RequestsPut | podcast_summarizer_gui.py:227 | a payload whose indices are `xs` asks for v exactly when v is in `xs` |
| Gui.FanOutRequests | podcast_summarizer_gui.py:217-247 | together the queued requests ask for exactly the parsed indices |
| Gui.FanOutOrder | podcast_summarizer_gui.py:217-229 | with more than one request, there is one per parsed index, in the parsed order |
| Gui.FieldIndicesMembers | podcast_summarizer_gui.py:210-213 | the stripped field's parse holds v exactly when the field selects v |
| Gui.PayloadsRequestSelection | podcast_summarizer_gui.py:207-247 | the queued requests ask for exactly the episodes the indices field selects |
| Gui.PayloadsAscending | podcast_summarizer_gui.py:217-229 | with more than one request, each asks for one index, and the indices strictly ascend |
| FrontendApi.Route | podcast-frontend-api/app.py:91-107 | the three exact paths map to their own endpoint name; after them `/send-user-emails/…` then `/send-episode-summary/…` prefixes; any other path has no route |
| FrontendApi.BarePrefixesRejected | podcast-frontend-api/app.py:100-107 | a prefix without its trailing slash is not routed |
| FrontendApi.ExactRoutes | podcast-frontend-api/app.py:91-99 | each exact path is validated by its own model and routed to its name without the leading '/' |
| FrontendApi.CreateEnvelope | podcast-frontend-api/app.py:53-66 | the envelope holds exactly payload, metadata (correlation id, timestamp, source endpoint) and routing (target endpoint) |
| FrontendApi.ForwardRequest | podcast-frontend-api/app.py:73-132 | a message is sent exactly when the reply is 202, and every reply is 202, 400, 422 or 500 |
| FrontendApi.ForwardRejectsMissingInput | podcast-frontend-api/app.py:80-87 | an empty body, or a body without a truthy `target_path`, gets 400 with its message and nothing is sent |
| FrontendApi.ForwardRejectsUnknownPath | podcast-frontend-api/app.py:106-107 | a 400 for a body with a truthy `target_path` means that no route accepts the path |
| FrontendApi.UnknownPathRejected | podcast-frontend-api/app.py:91-107 | conversely, a dict body whose `target_path` is a non-empty str no route accepts gets 400 "Invalid target_path: <path>" and nothing is sent |
| FrontendApi.ForwardAccepted | podcast-frontend-api/app.py:89-119 | a 202 means the path was routed, the body validated, and the envelope of the dump was sent; the reply echoes its correlation id and timestamp |
| FrontendApi.ForwardValidationFailure | podcast-frontend-api/app.py:121-126 | a 422 means the path was routed and its model refused the body |
| FrontendApi.SentPayloadIsDump | podcast-frontend-api/app.py:110-112 | the payload sent holds only keys of the request, and never `target_path` |
| RequestModels.ParseDetailLevel | podcast_summarizer/api/models.py:8-12 | a string names a detail level exactly when it is one of the three values, and parses to the level with that name |
| RequestModels.ParseMethod | podcast_summarizer/api/models.py:14-20 | a string names a method exactly when it is one of the five values, and parses to the method with that name |
| RequestModels.EnumNamesRoundTrip | podcast_summarizer/api/models.py:8-20 | every level and method name parses back to its member |
| RequestModels.Check | podcast_summarizer/api/models.py:28-64 | a value accepted for a choice field is kept as given, and an accepted non-null value lies within the field's bounds |
| RequestModels.Validate | podcast_summarizer/api/models.py:28-64 | validation succeeds exactly when every declared field accepts the data; the dump holds only declared fields the request set, each with its checked value |
| RequestModels.ModelsHaveUniqueNames | podcast_summarizer/api/models.py:28-64 | no model declares a field twice |
| RequestModels.NoModelDeclaresTargetPath | podcast_summarizer/api/models.py:28-64 | no request model declares `target_path` |
| RequestModels.ChunkSizeBounds | podcast_summarizer/api/models.py:45 | `chunk_size` is accepted exactly when it is between 500 and 8000 |
| RequestModels.ChunkOverlapBounds | podcast_summarizer/api/models.py:46 | `chunk_overlap` is accepted exactly when it is between 0 and 1000 |
| RequestModels.TemperatureBounds | podcast_summarizer/api/models.py:49 | `temperature` is accepted exactly when it is between 0.0 and 1.0 |
| RequestModels.TemperatureNonFinite | podcast_summarizer/api/models.py:49 | an infinite or nan temperature is refused by the bounds |
| RequestModels.LaxNumbers | podcast_summarizer/api/models.py:31-49 | int fields take a bool as 0 or 1 and refuse an infinity; float fields take a bool and a string with an exponent |
| RequestModels.LaxFlags | podcast_summarizer/api/models.py:37 | bool fields take 0 and 1 and words such as "Yes" and "off", and refuse other numbers |
| RequestModels.KeepAudioWord | podcast_summarizer/api/models.py:28-38 | a feed request with `keep_audio_files` "no" validates, to False |
| RequestModels.DetailLevelClosed | podcast_summarizer/api/models.py:47 | `detail_level` accepts exactly the level names |
| RequestModels.MethodClosed | podcast_summarizer/api/models.py:48 | `method` accepts exactly the method names |
| RequestModels.FeedRequestDefaults | podcast_summarizer/api/models.py:28-38 | a feed request setting only `feed_url` dumps just that key; the unset fields read as their declared defaults |
| Handlers.Passthrough | podcast_summarizer/api/handlers.py:9-56 | a request is posted exactly for a dict payload whose `target_path` is truthy (and whose `str()` is modelled), to `http://localhost:80` followed by `str(target_path)`, with the payload minus that key; a falsy path raises "Missing target_path in payload"; success exactly when the post gets a 2xx, with the response's JSON |
| Handlers.IntTargetPath | podcast_summarizer/api/handlers.py:36 | an int path is formatted into the URL: `{"target_path": 5}` is posted to `http://localhost:805` |
| Handlers.ForwardedBodyDropsOnlyTargetPath | podcast_summarizer/api/handlers.py:33 | the forwarded body is the payload with exactly `target_path` removed, every other entry unchanged |
| QueueProcessor.CheckEnvelope | podcast_summarizer/api/queue_processor.py:38-51 | the checks pass exactly for a dict with a truthy dict `routing`, a truthy `targetEndpoint` and a non-null payload, giving those two; a non-dict gets its own message |
| QueueProcessor.SelectHandler | podcast_summarizer/api/queue_processor.py:54-56 | the endpoint's own handler when registered, else the default; no handler exactly when neither exists and the key is hashable |
| QueueProcessor.Dispatch | podcast_summarizer/api/queue_processor.py:27-68 | a failed check is reported without calling anything; a handler is called only with the envelope's payload and only when selected for its key; dispatch succeeds exactly when a handler was called and succeeded |
| QueueProcessor.SpecificHandlerWins | podcast_summarizer/api/queue_processor.py:54 | an endpoint with its own registration is handled by it, with the envelope's payload, and not by a different default handler |
| QueueProcessor.OwnRegistrationOverridesDefault | podcast_summarizer/api/queue_processor.py:53-60 | with a named handler for "/ingest" beside the default passthrough, an "/ingest" envelope is handled by the named handler and succeeds with it |
| QueueProcessor.OtherEndpointFallsBack | podcast_summarizer/api/queue_processor.py:53-60 | in the same table another endpoint falls back to the default passthrough, whose "Missing target_path" error is reported |
| QueueProcessor.Dispose | podcast_summarizer/api/queue_processor.py:88-112 | a message is completed exactly when it decodes, dispatches without error and the completion succeeds; a non-dict or one missing routing or payload is dead-lettered with its reason |
| QueueProcessor.EveryMessageSettledOnce | podcast_summarizer/api/queue_processor.py:84-116 | every delivered message is settled exactly once, in delivery order, and each receive failure costs one 5-second sleep |
| QueueProcessor.MessageDispatcher.constructor | podcast_summarizer/api/queue_processor.py:19-20 | the handler table starts empty |
| QueueProcessor.MessageDispatcher.RegisterHandler | podcast_summarizer/api/queue_processor.py:22-25 | sets exactly one entry, overwriting an earlier one, and keeps the others |
| QueueProcessor.MessageDispatcher.DispatchMessage | podcast_summarizer/api/queue_processor.py:27-68 | dispatches as `QueueProcessor.Dispatch` does on the current table |
| QueueProcessor.QueueProcessor.constructor | podcast_summarizer/api/queue_processor.py:73-76 | a new processor owns a fresh, empty dispatcher |
| QueueProcessor.QueueProcessor.ProcessMessages | podcast_summarizer/api/queue_processor.py:78-116 | the actions taken over a run of polls are the trace of which `EveryMessageSettledOnce` speaks |
| QueueProcessor.Startup | podcast_summarizer/api/main.py:28-30 | the processor started with the API has only the passthrough handler, under "default" |
| QueueProcessor.WiredDispatchUsesPassthrough | podcast_summarizer/api/main.py:28-30 | as wired, every envelope that passes the checks goes to the passthrough handler with its payload |
| Pipeline.EnvelopePassesChecks | podcast-frontend-api/app.py:53-66 | an envelope built with a non-empty endpoint passes the listener's checks, yielding that endpoint and the payload |
| Pipeline.SentEnvelopesPassChecks | podcast-frontend-api/app.py:109-112 | every envelope the forwarding endpoint sends passes the listener's checks with a dict payload |
| Pipeline.PathlessEnvelopeDeadLettered | podcast_summarizer/api/handlers.py:28-30 | an envelope whose payload lacks `target_path` is dead-lettered by the wired listener |
| Pipeline.ForwardedMessagesDeadLettered | podcast-frontend-api/app.py:110-112 | as written, every message the forwarding endpoint sends is dead-lettered by the wired listener |
| Pipeline.ForwardedEnvelope | podcast-frontend-api/app.py:109-111 | the corrected envelope carries the validated fields plus the requested `target_path`, routed to the endpoint |
| Pipeline.CorrectedEnvelopeReachesApi | podcast_summarizer/api/handlers.py:28-49 | with the corrected envelope the listener posts exactly the validated fields to the requested path, and completes the message exactly when the post succeeds |
| Pipeline.AcceptedRequestsFitCorrection | podcast-frontend-api/app.py:85-111 | every request the endpoint accepts meets the preconditions of the corrected round trip |
| Downloader.SafeTitle | podcast_summarizer/processors/downloader.py:26-31 | the safe title keeps the first 100 characters, each unsafe one replaced by '_' |
| Downloader.SafeTitleSafe | podcast_summarizer/processors/downloader.py:26-31 | a safe title holds only safe characters, never '/', and making it safe again changes nothing |
| Downloader.FileExtension | podcast_summarizer/processors/downloader.py:33-37 | the extension always starts with '.' |
| Downloader.FileExtensionShape | podcast_summarizer/processors/downloader.py:33-37 | the extension is the type's last path segment, with '.' added when missing; it has no '/' and is its own extension |
| Downloader.PlatformUrl | podcast_summarizer/processors/downloader.py:95-117 | a URL changes exactly when it is a Buzzsprout URL without a query string, and then only gains "?download=true" |
| Downloader.PlatformUrlIdempotent | podcast_summarizer/processors/downloader.py:95-117 | adjusting a URL twice is adjusting it once |
| Downloader.EntryEpisodes | podcast_summarizer/processors/downloader.py:73-81 | an entry yields one episode per audio enclosure, titled as the entry (or "Unknown_Episode"), each of an audio type |
| Downloader.FeedEpisodes | podcast_summarizer/processors/downloader.py:72-81 | every episode of a feed has an audio type |
| Downloader.FeedEpisodesAppend | podcast_summarizer/processors/downloader.py:72-81 | the episodes of two runs of entries are those of the first followed by those of the second |
| Downloader.FeedEpisodesCount | podcast_summarizer/processors/downloader.py:72-81 | a feed yields exactly one episode per audio enclosure |
| Downloader.Parsed | podcast_summarizer/processors/downloader.py:39-93 | parsing succeeds exactly for a feed without a parse error that has entries and audio episodes; the title has no spaces; every error names the invalid feed |
| Downloader.CollectEntry | podcast_summarizer/processors/downloader.py:73-81 | the loop over an entry's enclosures yields the episodes `Downloader.EntryEpisodes` describes |
| Downloader.ParseFeed | podcast_summarizer/processors/downloader.py:39-93 | `parse_feed` returns what `Downloader.Parsed` describes |
| Downloader.OutputFileInDir | podcast_summarizer/processors/downloader.py:139 | the output file is a direct child of the output directory |
| Downloader.FetchedFile | podcast_summarizer/processors/downloader.py:119-236 | a download returns only for an episode with audio, and then its output file; with no attempts it returns exactly when the existing file is reused |
| Downloader.DownloadEpisode | podcast_summarizer/processors/downloader.py:119-236 | the result is the one of `Downloader.Fetched`; at most max_retries requests are made, none for a reused file or no audio, the returned download is the first that succeeded, and a failure used every attempt |
| PodcastDownloader.Selected | podcast_downloader.py:285-287 | the episodes kept are a prefix of the feed's |
| PodcastDownloader.SelectedCount | podcast_downloader.py:285-287 | no limit or a zero one keeps all; a positive limit keeps at most that many; a negative one drops that many from the end |
| PodcastDownloader.DownloadsFromEpisodes | podcast_downloader.py:289-305 | each file downloaded is the output file of one of the episodes, and there are at most as many files as episodes |
| PodcastDownloader.PodcastFilesBound | podcast_downloader.py:257-311 | a feed that does not parse downloads nothing; every file lies in the podcast's directory; a positive limit bounds the count |
| PodcastDownloader.DownloadAll | podcast_downloader.py:289-305 | the download loop yields the successful downloads in episode order |
| PodcastDownloader.DownloadPodcast | podcast_downloader.py:257-311 | `download_podcast` yields the files of the parsed, limited feed |
| FeedParser.FirstAudioHref | podcast_summarizer/processors/feed_parser.py:48 | the href of the first link whose type mentions audio; "" when there is none; an error when that link has no href |
| FeedParser.Record | podcast_summarizer/processors/feed_parser.py:44-50 | an entry's record carries the entry's own title; an entry without a title is an error |
| FeedParser.RecordsPerEntry | podcast_summarizer/processors/feed_parser.py:42-51 | the records succeed exactly when every entry's does, and then there is one record per entry, in order |
| FeedParser.RecordsStop | podcast_summarizer/processors/feed_parser.py:42-51 | the first failing entry's error is the error of the whole list |
| FeedParser.RecordsStopFrom | podcast_summarizer/processors/feed_parser.py:42-51 | every prefix that reaches a failing entry fails with that entry's error |
| FeedParser.ParseFeedSpec | podcast_summarizer/processors/feed_parser.py:14-56 | a feed without entries is refused; a parsed feed records the feed URL and the feed's title; every error carries the parser's prefix |
| FeedParser.CollectRecords | podcast_summarizer/processors/feed_parser.py:42-51 | the loop yields what `FeedParser.Records` describes, stopping at the first error |
| FeedParser.ParsePodcastFeed | podcast_summarizer/processors/feed_parser.py:14-56 | `parse_podcast_feed` returns what `FeedParser.ParseFeedSpec` describes |
| CrawlerFeedParser.FallbackTitle | podcast_summarizer/processors/crawler_feed_parser.py:121-123 | a fallback title is never empty and has at most 28 characters |
| CrawlerFeedParser.FallbackTitleShape | podcast_summarizer/processors/crawler_feed_parser.py:121-123 | short notes are used whole, long ones cut to 25 characters and "...", and empty notes give "Unknown Episode" |
| CrawlerFeedParser.EpisodeTitle | podcast_summarizer/processors/crawler_feed_parser.py:119-123 | an item's non-empty title is kept; the title is never empty |
| CrawlerFeedParser.RecordFields | podcast_summarizer/processors/crawler_feed_parser.py:125-131 | a record's description is the item's notes, and an item without a title gets the fallback title |
| CrawlerFeedParser.RecordsPerEpisode | podcast_summarizer/processors/crawler_feed_parser.py:116-132 | one record per extracted item, in order |
| CrawlerFeedParser.ParseSite | podcast_summarizer/processors/crawler_feed_parser.py:74-139 | parsing succeeds exactly when the crawl succeeded and extracted a non-empty list; the record keeps the URL and the first page's title; every error carries the parser's prefix |
| CrawlerFeedParser.CollectRecords | podcast_summarizer/processors/crawler_feed_parser.py:116-132 | the loop yields what `CrawlerFeedParser.Records` describes |
| CrawlerFeedParser.ParsePodcastSite | podcast_summarizer/processors/crawler_feed_parser.py:74-139 | `parse_podcast_site_async` returns what `CrawlerFeedParser.ParseSite` describes |
| BlobStorage.TextBlobName | podcast_summarizer/core/azure_storage_package/operations.py:74-75 | the stored name ends with ".txt", starts with the given name, and equals it exactly when it already ends so |
| BlobStorage.TextBlobNameIdempotent | podcast_summarizer/core/azure_storage_package/operations.py:74-75 | naming a text blob twice is naming it once |
| BlobStorage.UploadName | podcast_summarizer/core/azure_storage_package/operations.py:39-40 | a non-empty given name is used; otherwise `Path(file_path).name`, which has no '/' and is never "." |
| BlobStorage.UploadNameIsLastComponent | podcast_summarizer/core/azure_storage_package/operations.py:37-40 | without a blob name, "dir/name", "dir/name/" and "dir/name/." are all uploaded as "name", as `pathlib` names them |
| BlobStorage.FolderBlobDownloadPath | podcast_summarizer/core/azure_storage_package/operations.py:111-114 | the blob "episodes/42/" is downloaded by default to "temp_downloads/42" |
| BlobStorage.TranscriptBlobKept | podcast_summarizer/services/podcast/episode_processor.py:46 | a transcript's blob name is stored unchanged and is protected from deletion |
| BlobStorage.AudioBlobDeletable | podcast_summarizer/processors/downloader_service.py:83-85 | an audio blob named from 8-character id segments without '_' is not protected |
| BlobStorage.BlobOperations.constructor | podcast_summarizer/core/azure_storage_package/operations.py:16-18 | the operations start with the client's state |
| BlobStorage.BlobOperations.Url | podcast_summarizer/core/azure_storage_package/operations.py:133-137 | a blob's URL is the container URL followed by '/' and the name |
| BlobStorage.BlobOperations.UploadFile | podcast_summarizer/core/azure_storage_package/operations.py:20-57 | without a client, or for a missing file, an error and nothing changes; otherwise the file is stored under its name, replacing any blob there, and its URL returned |
| BlobStorage.BlobOperations.UploadText | podcast_summarizer/core/azure_storage_package/operations.py:59-92 | without a client an error; otherwise the text is stored as "text/plain" under its ".txt" name, and its URL returned |
| BlobStorage.BlobOperations.DownloadBlob | podcast_summarizer/core/azure_storage_package/operations.py:94-131 | a download is produced exactly for a stored blob, with its content, at the output path or "temp_downloads/" and the blob's `pathlib` name |
| BlobStorage.BlobOperations.GetBlobUrl | podcast_summarizer/core/azure_storage_package/operations.py:133-137 | the blob's URL, or the not-initialised error |
| BlobStorage.BlobOperations.BlobExists | podcast_summarizer/core/azure_storage_package/operations.py:139-150 | true exactly when a blob of that name is stored |
| BlobStorage.BlobOperations.DeleteBlob | podcast_summarizer/core/azure_storage_package/operations.py:152-170 | true exactly when the blob was stored and is not a transcript, and then only it is removed; otherwise nothing changes |
| BlobStorage.TranscriptSurvivesDelete | podcast_summarizer/core/azure_storage_package/operations.py:152-170 | a transcript uploaded and then deleted is still stored with its text |
| CommandProcessor.Lookup | tests/command_processor.py:28 | a value found is one stored under the key; none is found only when no parameter has that key |
| CommandProcessor.AddParamsLoop | tests/command_processor.py:38-57 | the loop leaves the payload as `CommandProcessor.AddParams` describes |
| CommandProcessor.AddParamsGet | tests/command_processor.py:38-57 | after the loop a key holds its parameter's coerced value unless skipped for an e-mail route; other keys keep their values |
| CommandProcessor.AddProcessDefaults | tests/command_processor.py:59-64 | the block leaves the payload as `CommandProcessor.ProcessDefaults` describes: the process test gains `include_transcription` true and `split_size_mb` 25.0 where they are missing |
| CommandProcessor.BuildRequestPayload | tests/command_processor.py:19-74 | `build_request_payload` returns what `CommandProcessor.Payload` describes |
| CommandProcessor.PayloadValues | tests/command_processor.py:38-57 | without extra JSON, each parameter not skipped reaches the payload coerced; an absent one and an e-mail route's ids are not in it |
| CommandProcessor.PayloadTargetPath | tests/command_processor.py:24-35 | the target path is the one the test type calls for, with the ids in the path for the e-mail routes |
| CommandProcessor.ProcessPayloadDefaults | tests/command_processor.py:60-64 | a process payload always has `include_transcription` and `split_size_mb`, True and 25.0 when not given |
| CommandProcessor.ExtraParamsMerge | tests/command_processor.py:67-72 | extra text that does not decode changes nothing; decoded JSON is applied with `dict.update`: an object wins over every key it names and leaves the others, and a value that is not iterable raises "'<type>' object is not iterable" |
| CommandProcessor.ExtraPairList | tests/command_processor.py:67-72 | a JSON list of two-element pairs merges like an object: a key holds the value of the last pair naming it |
| CommandProcessor.CoerceIntText | tests/command_processor.py:44-45 | the text of an integer becomes that integer |
| CommandProcessor.CoerceBoolText | tests/command_processor.py:50-55 | "true" and "false" in any case become booleans |
| CommandProcessor.CoerceWord | tests/command_processor.py:43-55 | a word starting with a letter that is neither "true" nor "false" stays text, unless `float` reads it as inf, infinity or nan, which give a non-finite float |
| CommandProcessor.CoerceExponent | tests/command_processor.py:44-48 | "1.5e3" is not an int, and `float` reads it as 1500.0 |
| CommandProcessor.CoerceUrl | tests/command_processor.py:43-55 | a feed URL is neither a number nor a boolean and stays text |
| CommandProcessor.ProcessExample | tests/test_command_creator.py:31-40 | the process payload of the test suite has the target path, the URL as given and the limit as the integer 2 |
| CommandProcessor.CommandParts | tests/command_processor.py:91-99 | the command parts are the test flag, one `--name value` flag per parameter in order, then the extra text when non-empty |
| CommandProcessor.BuildTestCommand | tests/command_processor.py:88-115 | `build_test_command` returns what `CommandProcessor.TestCommand` describes |
| CommandProcessor.TestCommandShape | tests/command_processor.py:101-113 | the command starts with the api_test invocation and the test flag, inside the docker wrapper (ending in a quote) unless local, and holds every parameter's flag |
| CommandProcessor.CommandExampleHead | tests/test_command_creator.py:20-27 | the test suite's command holds `python src/api_test.py --test-process` |
| CommandProcessor.CommandExampleFlags | tests/test_command_creator.py:20-29 | the test suite's command holds both parameter flags |
| ParamValidator.PieceValues | tests/param_validator.py:51-55 | a piece that converts yields the values of its part, as the CLI parser reads it |
| ParamValidator.PieceResults | tests/param_validator.py:49-55 | one conversion per comma-separated piece, in order |
| ParamValidator.ExtendAllAccepts | tests/param_validator.py:47-56 | the loop finishes exactly when every piece converts |
| ParamValidator.ExtendAllMembers | tests/param_validator.py:47-56 | a finished loop holds v exactly when some piece yields v |
| ParamValidator.ExtendAllFails | tests/param_validator.py:57-59 | a piece that does not convert fails the whole parse |
| ParamValidator.PiecesContribute | tests/param_validator.py:49-55 | a piece yields v exactly when its part selects v, as in the CLI parser |
| ParamValidator.ParseEpisodeIndices | tests/param_validator.py:36-59 | the loop-based parser returns `ParamValidator.Indices` |
| ParamValidator.IndicesAccepts | tests/param_validator.py:46-59 | a value that is not a single number parses exactly when every comma-separated piece converts |
| ParamValidator.IndicesMembers | tests/param_validator.py:46-56 | a parsed list holds v exactly when some piece selects v |
| ParamValidator.DigitsAreOneIndex | tests/param_validator.py:43-44 | a single number, spaces aside, is a one-element list |
| ParamValidator.KeepsOrderAndRepeats | tests/param_validator.py:47-56 | unlike the CLI parser, order and repeats are kept: "3,1,1" gives [3, 1, 1] |
| ParamValidator.InvertedRangeIsEmpty | tests/param_validator.py:51-53 | an inverted range contributes nothing and is no error |
| ParamValidator.BadPieceFails | tests/param_validator.py:57-59 | one bad piece makes the whole value an error |
| ParamValidator.ValidateChunkSize | tests/param_validator.py:62-66 | accepted, unchanged, exactly between 500 and 8000; otherwise the bound's message |
| ParamValidator.ValidateChunkOverlap | tests/param_validator.py:69-73 | accepted, unchanged, exactly between 0 and 1000; otherwise the bound's message |
| ParamValidator.ValidateTemperature | tests/param_validator.py:76-80 | accepted, unchanged, exactly between 0.0 and 1.0; otherwise the bound's message |
| ParamValidator.BoundsMatchModels | tests/param_validator.py:62-80 | each of the three checks accepts exactly what the summary request model accepts |
| ParamValidator.ConvertToInt | tests/param_validator.py:14-21 | text converts exactly when `float` reads it as a finite number, to that number truncated toward zero; an infinity gives `OverflowError` "cannot convert float infinity to integer"; anything else, nan included, the parameter's number error |
| ParamValidator.IntParam | tests/param_validator.py:93-121 | the conversion's value, its number error unchanged, or its `OverflowError` wrapped as "Error processing parameter '<name>': …" |
| ParamValidator.ConvertToUnitFloat | tests/param_validator.py:24-33 | text converts exactly when it reads as a finite number between 0.0 and 1.0, to that number; unreadable text gives the number error, and a number read but refused (inf and nan included) the bounds error |
| ParamValidator.ConvertAndValidate | tests/param_validator.py:83-121 | empty text gives None; boolean words give booleans first; otherwise each bounded parameter is within its bounds, other names keep the text, an infinity for an int parameter gives the wrapped `OverflowError`, and a temperature that reads as a number but is refused gives the bounds error |
| ParamValidator.InfinityChunkSize | tests/param_validator.py:101-121 | "inf" as the chunk size is the wrapped "cannot convert float infinity to integer" |
| ParamValidator.ExponentInt | tests/param_validator.py:16-17 | "1.5e3" is read by `float()` and truncated to the int 1500 |
| ParamValidator.NanChunkSize | tests/param_validator.py:17-21 | "nan" as the chunk size is the number error (`int(nan)` raises `ValueError`) |
| ParamValidator.NanTemperature | tests/param_validator.py:27-30 | "nan" as the temperature fails the bounds test |
| ParamValidator.IntTextNotBool | tests/param_validator.py:90-91 | the text of an integer is never a boolean word |
| ParamValidator.ChunkSizeFieldAccepts | tests/param_validator.py:101-103 | the text of n as `chunk_size` gives n exactly when it is within the bounds, else the bound's error |
| ParamValidator.BoolTextBypassesBounds | tests/param_validator.py:89-91 | a boolean word is returned as a boolean even for a bounded number parameter |
| ParamValidator.ValidatePayload | tests/param_validator.py:124-138 | a process or upsert payload passes exactly with a truthy feed URL; a summarize payload exactly with truthy episode and user ids, the episode checked first; other types always pass |
| TestRunners.AddOption | tests/local_tests.py:26-27 | one `if key in kwargs: cmd.extend([...])` step appends exactly that key's option, if it is given |
| TestRunners.ProcessArgs | tests/local_tests.py:24-36 | the process branch adds its switch, the options of its keys in order, then `--include-transcription` when truthy |
| TestRunners.SummarizeArgs | tests/local_tests.py:38-53 | the summarize branch adds its switch and the options of its keys in order |
| TestRunners.UpsertArgs | tests/local_tests.py:55-62 | the upsert branch adds its switch and the options of its keys in order |
| TestRunners.BuildCommand | tests/local_tests.py:10-76 | `build_command` (and, quoting free text, `build_api_test_command`) returns what `TestRunners.CommandLine` describes |
| TestRunners.CommandStartsWithScript | tests/local_tests.py:21 | every command starts with `python src/api_test.py` |
| TestRunners.OptionsMembers | tests/local_tests.py:26-62 | an option is present exactly when its key is one of the branch's keys and is given, with the value's text (quoted for free text in the container runner) |
| TestRunners.OptionsOnce | tests/local_tests.py:26-62 | with distinct keys each key's option appears at most once |
| TestRunners.TypeOptionRule | tests/container_tests.py:10-76 | an option other than the ids is in the command exactly when its key belongs to the test type and is given, and the container runner quotes free text |
| TestRunners.TranscriptionRule | tests/local_tests.py:34-36 | `--include-transcription` appears exactly for a process test whose flag is given and truthy |
| TestRunners.Segments | tests/local_tests.py:21-76 | the command is the switch, the type's options, the transcription switch, then the common options |
| TestRunners.EpisodeIdPresent | tests/local_tests.py:40-41 | `--episode-id` appears exactly when an episode id is given |
| TestRunners.EpisodeIdOnce | tests/local_tests.py:73-74 | `--episode-id` never appears twice, even for summarize |
| TestRunners.UserIdAfterTypeOptions | tests/local_tests.py:71-74 | a given user id comes after all the type's options, followed by nothing but the episode id |
| TestRunners.EnvFileArgRule | tests/container_tests.py:89-92 | the env-file path has no backslashes, and is quoted exactly when it holds a space |
| TestRunners.DockerCommandShape | tests/container_tests.py:78-101 | the docker command starts with `docker run -it --rm --env-file`, holds the env-file argument and ends with the api_test command after the server start |
| TestRunners.ScanEnvFile | tests/local_tests.py:159-163 | the scan loop collects exactly `TestRunners.DeclaredNames` |
| TestRunners.DeclaredNamesMeaning | tests/local_tests.py:160-163 | a name is found exactly when some uncommented line with '=' declares it |
| TestRunners.VarNameShape | tests/local_tests.py:162 | a declared name has no '=' and no surrounding whitespace |
| TestRunners.Missing | tests/local_tests.py:165 | the missing names are exactly the required ones not found |
| TestRunners.MissingInOrder | tests/local_tests.py:165 | the missing names keep the order of the required list |
| TestRunners.EnvCheckPasses | tests/container_tests.py:173-226 | the local check passes exactly when the file exists and declares every required name; the container check also needs docker |
| TestRunners.ContainerRunExits | tests/container_tests.py:103-171 | a command runs exactly when `validate_environment` passes and the environment is "docker"; its failure is returned as is; the command is the docker command around the quoted api_test command |
| EpisodeData.FilterEpisodes | podcast_summarizer/services/podcast/episode_data.py:45-74 | the loop-based filter returns `EpisodeData.Filter` |
| EpisodeData.IndexMode | podcast_summarizer/services/podcast/episode_data.py:47-56 | index mode keeps the episodes at the in-range 1-based indices, in request order with repeats, never more than there are indices |
| EpisodeData.StartMode | podcast_summarizer/services/podcast/episode_data.py:58-69 | start mode keeps a contiguous run from the start episode (from the first when it is out of range), to the end or for `count` episodes |
| EpisodeData.LimitMode | podcast_summarizer/services/podcast/episode_data.py:71-74 | a positive limit keeps that many leading episodes; no limit keeps all |
| EpisodeData.Precedence | podcast_summarizer/services/podcast/episode_data.py:47-71 | indices win over start and count, which win over the limit |
| EpisodeData.FeedSelectionAgrees | podcast_summarizer/services/podcast/feed_processor.py:18-28 | without a start episode the feed path selects files as the stored path selects episodes |
| EpisodeData.StoredRecords | podcast_summarizer/services/podcast/episode_data.py:23-36 | one record per selected episode |
| EpisodeData.StoredRecordsAt | podcast_summarizer/services/podcast/episode_data.py:23-36 | the k-th record is built from the k-th episode and the k-th fresh id |
| EpisodeData.BuildStoredRecords | podcast_summarizer/services/podcast/episode_data.py:23-36 | the record loop yields `EpisodeData.StoredRecords` |
| EpisodeData.StoredRecordFields | podcast_summarizer/services/podcast/episode_data.py:24-34 | each record has the podcast id and a truthy id (its own when truthy, else a fresh one), "Unknown Episode" and "" for a missing title and audio url |
| EpisodeData.GetEpisodeData | podcast_summarizer/services/podcast/episode_data.py:13-43 | `get_episode_data` returns what `EpisodeData.EpisodeDataOf` describes |
| EpisodeData.FallsBackToFeed | podcast_summarizer/services/podcast/episode_data.py:18-41 | the feed is used exactly when there is no podcast id or the stored selection is empty; otherwise the records of the stored selection |
| FeedProcessor.Pick | podcast_summarizer/services/podcast/feed_processor.py:21-25 | an index picks one file exactly when it lies between 1 and the file count |
| FeedProcessor.ByIndex | podcast_summarizer/services/podcast/feed_processor.py:19-26 | never more files than indices |
| FeedProcessor.InRange | podcast_summarizer/services/podcast/feed_processor.py:22 | the in-range indices, never more than were asked for |
| FeedProcessor.ByIndexInRange | podcast_summarizer/services/podcast/feed_processor.py:21-25 | out-of-range indices contribute nothing |
| FeedProcessor.ByIndexExact | podcast_summarizer/services/podcast/feed_processor.py:19-26 | with in-range indices, the j-th file kept is the file at the j-th index |
| FeedProcessor.ByIndexOfNothing | podcast_summarizer/services/podcast/feed_processor.py:18 | there is nothing to pick from no files |
| FeedProcessor.SelectByIndex | podcast_summarizer/services/podcast/feed_processor.py:19-26 | the index loop yields `FeedProcessor.ByIndex` |
| FeedProcessor.FileRecords | podcast_summarizer/services/podcast/feed_processor.py:31-39 | one record per kept file |
| FeedProcessor.FileRecordsAt | podcast_summarizer/services/podcast/feed_processor.py:31-39 | the k-th record is built from the k-th file and the k-th fresh id |
| FeedProcessor.KeepFiles | podcast_summarizer/services/podcast/feed_processor.py:18-28 | the selection yields `FeedProcessor.SelectFiles` |
| FeedProcessor.BuildFileRecords | podcast_summarizer/services/podcast/feed_processor.py:31-39 | the record loop yields `FeedProcessor.FileRecords` |
| FeedProcessor.DownloadEpisodesFromFeed | podcast_summarizer/services/podcast/feed_processor.py:12-41 | `download_episodes_from_feed` returns what `FeedProcessor.FromFeed` describes |
| FeedProcessor.FromFeedRecords | podcast_summarizer/services/podcast/feed_processor.py:30-41 | one record per kept file, with its fresh id, the request's podcast id, the file's stem as title and the file as path |
| FeedProcessor.SelectFilesByIndex | podcast_summarizer/services/podcast/feed_processor.py:18-26 | with indices and files, the kept files are those at the in-range indices, in order |
| FeedProcessor.SelectFilesByLimit | podcast_summarizer/services/podcast/feed_processor.py:27-28 | otherwise a positive limit keeps that many leading files, and no limit keeps all |
| FeedProcessor.SelectFilesIgnoresStart | podcast_summarizer/services/podcast/feed_processor.py:18-28 | the feed path ignores the start episode and count |
| KeyPoints.DigitEnd | podcast_summarizer/processors/base_summarizer.py:41 | `\d+` from a position stops at the first non-digit |
| KeyPoints.MatchNumbered | podcast_summarizer/processors/base_summarizer.py:41 | a match yields a non-empty run of digits that starts the line and a non-empty point text that ends it, with something between; the strict form has a delimiter after the number |
| KeyPoints.MatchComposed | podcast_summarizer/processors/base_summarizer.py:41 | a number, an optional '.' or ')' (required in the strict parser), whitespace and text match, giving the number and the text |
| KeyPoints.StrictMatchIsLenientMatch | podcast_summarizer/processors/spacy_transformer_summarizer.py:411 | every strict match is the same lenient match; the lenient parser alone accepts a number followed directly by whitespace |
| KeyPoints.UndelimitedNumberExample | podcast_summarizer/processors/spacy_transformer_summarizer.py:411 | "1 Intro" is a numbered point for the base parser and not for the spaCy one |
| KeyPoints.Lines | podcast_summarizer/processors/base_summarizer.py:35 | `split('\n')` always yields at least one line |
| KeyPoints.NonBlank | podcast_summarizer/processors/base_summarizer.py:48 | at most one point per line, none of them empty |
| KeyPoints.NonEmptyImagesMembers | podcast_summarizer/processors/base_summarizer.py:48 | a comprehension with `if` keeps x exactly when x is non-empty and is the image of some element |
| KeyPoints.NonEmptyImagesEmpty | podcast_summarizer/processors/base_summarizer.py:48 | the comprehension is empty exactly when every image is empty |
| KeyPoints.NonBlankMembers | podcast_summarizer/processors/base_summarizer.py:48 | the fallback points are exactly the non-empty stripped lines, each already stripped |
| KeyPoints.NonBlankEmpty | podcast_summarizer/processors/base_summarizer.py:48 | there are no fallback points exactly when every line is blank |
| KeyPoints.PointOf | podcast_summarizer/processors/base_summarizer.py:36-44 | only a non-blank line yields a point |
| KeyPoints.Enumerated | podcast_summarizer/processors/base_summarizer.py:49-50 | the fallback dict numbers the points "1", "2", … in order |
| KeyPoints.ParseKeyPoints | podcast_summarizer/processors/base_summarizer.py:31-52 | the loop-based parser returns `KeyPoints.KeyPoints` (strict for the spaCy copy, podcast_summarizer/processors/spacy_transformer_summarizer.py:404-420) |
| KeyPoints.NumberedKeys | podcast_summarizer/processors/base_summarizer.py:35-44 | a number is a key exactly when some line is a point with that number |
| KeyPoints.NumberedLastWins | podcast_summarizer/processors/base_summarizer.py:44 | a repeated number keeps the text of its last line |
| KeyPoints.NumberedEmpty | podcast_summarizer/processors/base_summarizer.py:35-44 | no key is set exactly when no line is a numbered point |
| KeyPoints.FallbackNumbering | podcast_summarizer/processors/base_summarizer.py:47-50 | with no numbered line, the points are the non-blank lines numbered from 1 |
| KeyPoints.NumberedPoints | podcast_summarizer/processors/base_summarizer.py:35-45 | with numbered lines, a number's entry is its last line's text and the keys are exactly the numbers used |
| KeyPoints.KeyPointsNonEmpty | podcast_summarizer/processors/base_summarizer.py:31-52 | the result is empty exactly when every line is blank |
| KeyPoints.Highlights | podcast_summarizer/processors/base_summarizer.py:54-56 | the highlights are exactly the non-empty stripped lines, each already stripped |
| LangchainSummarizer.PrepareMapReduce | podcast_summarizer/processors/langchain_summarizer.py:57-139 | every chunk is stamped with its position, count and first/last flags, and the map and combine templates are the custom prompt when given, else those of the detail level |
| LangchainSummarizer.Finish | podcast_summarizer/processors/langchain_summarizer.py:167-286 | the summary is the map-reduce chain's text, as returned |
| LangchainSummarizer.FinishParsed | podcast_summarizer/processors/langchain_summarizer.py:216-286 | the key points are `{"points": …}` parsed leniently, non-empty exactly when some line is non-blank, and the highlights the non-blank stripped lines |
| TextUtils.ChunkMetaFields | podcast_summarizer/processors/text_utils.py:31-35 | a chunk's metadata gets its 1-based id, the chunk count and the first/last flags, every other key unchanged |
| TextUtils.AnnotateChunks | podcast_summarizer/processors/text_utils.py:31-35 | the loop stamps every chunk in place with the metadata of its position |
| TextUtils.SimilarSymmetric | podcast_summarizer/processors/text_utils.py:56-64 | the similarity test does not depend on which highlight is kept |
| TextUtils.WordlessNotSimilar | podcast_summarizer/processors/text_utils.py:59-60 | a highlight with no words is similar to nothing |
| TextUtils.DedupBy | podcast_summarizer/processors/text_utils.py:49-71 | never more highlights out than in |
| TextUtils.DeduplicateHighlights | podcast_summarizer/processors/text_utils.py:39-71 | the nested loop returns `TextUtils.Dedup` |
| TextUtils.IsUnique | podcast_summarizer/processors/text_utils.py:52-66 | the inner loop finds a highlight unique exactly when it is similar to none already kept |
| TextUtils.DedupSubsequence | podcast_summarizer/processors/text_utils.py:49-71 | the kept highlights are a subsequence of the input, in order |
| TextUtils.DedupPairwise | podcast_summarizer/processors/text_utils.py:49-71 | no two kept highlights are similar |
| TextUtils.DedupKeepsDissimilar | podcast_summarizer/processors/text_utils.py:49-71 | a list with no similar pair is kept whole |
| TextUtils.DedupByIdempotent | podcast_summarizer/processors/text_utils.py:49-71 | de-duplicating twice is de-duplicating once |
| TextUtils.DedupIdempotent | podcast_summarizer/processors/text_utils.py:39-71 | `deduplicate_highlights` applied twice changes nothing more |
| TextUtils.DedupPrefix | podcast_summarizer/processors/text_utils.py:51-69 | what is kept from a prefix is a prefix of what is kept from the whole |
| TextUtils.DedupKeepsUnmatched | podcast_summarizer/processors/text_utils.py:68-69 | a highlight similar to none kept before it is kept |
| TextUtils.DedupDrops | podcast_summarizer/processors/text_utils.py:64-66 | a dropped highlight is similar to one kept before it |
| TextUtils.DedupKeeps | podcast_summarizer/processors/text_utils.py:51-69 | the first highlight, and any without words, is always kept |
| SpacySummarizer.TruncDivTowardZero | podcast_summarizer/processors/spacy_transformer_summarizer.py:136 | `int(a / b)` truncates toward zero: the Euclidean quotient for a non-negative dividend, rounded up toward zero for a negative one |
| SpacySummarizer.OverlapCount | podcast_summarizer/processors/spacy_transformer_summarizer.py:136 | the number of retained sentences never exceeds the length of the current chunk |
| SpacySummarizer.Step | podcast_summarizer/processors/spacy_transformer_summarizer.py:118-143 | one loop iteration fails exactly when it must flush on an empty sentence (division by zero); otherwise the sentence is appended last, at most one group is emitted, earlier groups are untouched, a group is emitted iff the size test fires, and it holds exactly the previous sentences and topic-shift flag |
| SpacySummarizer.Chunks | podcast_summarizer/processors/spacy_transformer_summarizer.py:128-133 | one chunk record per group, numbered by position |
| SpacySummarizer.Chunked | podcast_summarizer/processors/spacy_transformer_summarizer.py:113-152 | on success the chunk indices are 0, 1, 2, … in order |
| SpacySummarizer.RunErrSticks | podcast_summarizer/processors/spacy_transformer_summarizer.py:118-143 | once an iteration raises, the whole call raises that same error |
| SpacySummarizer.ChunkSentences | podcast_summarizer/processors/spacy_transformer_summarizer.py:113-152 | the imperative loop returns exactly the chunking specification (chunks or the division-by-zero error) |
| SpacySummarizer.RunCurrent | podcast_summarizer/processors/spacy_transformer_summarizer.py:114-143 | the loop holds sentences iff it has read one, and emits no chunk before reading one |
| SpacySummarizer.ChunksExist | podcast_summarizer/processors/spacy_transformer_summarizer.py:145-152 | there is at least one chunk iff there is at least one sentence |
| SpacySummarizer.RunCovers | podcast_summarizer/processors/spacy_transformer_summarizer.py:118-152 | every sentence read is held by the current chunk or an emitted one, and nothing else is held |
| SpacySummarizer.EverySentenceChunked | podcast_summarizer/processors/spacy_transformer_summarizer.py:113-152 | every sentence appears in the text of some chunk |
| SpacySummarizer.OverlapKeepsTail | podcast_summarizer/processors/spacy_transformer_summarizer.py:136-138 | with a non-negative overlap the retained tail is the last min(overlap div size + 1, n) ≥ 1 sentences |
| SpacySummarizer.ConsecutiveChunksShare | podcast_summarizer/processors/spacy_transformer_summarizer.py:126-143 | with a non-negative overlap, the chunk after a flush starts with (at least) the last sentence of the emitted chunk |
| SpacySummarizer.OverlapZeroKeepsAll | podcast_summarizer/processors/spacy_transformer_summarizer.py:136-137 | a negative overlap making the count 0 keeps the whole chunk, since `current_chunk[-0:]` is the full list |
| SpacySummarizer.FirstSeen | podcast_summarizer/processors/spacy_transformer_summarizer.py:159-162 | keeps no more values than its input |
| SpacySummarizer.FirstSeenMembers | podcast_summarizer/processors/spacy_transformer_summarizer.py:161-162 | the kept values are exactly the input's values, none repeated |
| SpacySummarizer.FirstSeenPrefix | podcast_summarizer/processors/spacy_transformer_summarizer.py:161-162 | what is kept from a prefix is a prefix of what is kept (first-seen order) |
| SpacySummarizer.CollectedLists | podcast_summarizer/processors/spacy_transformer_summarizer.py:157-162 | a label has a list iff some entity carries it, and the list is that label's texts in first-seen order without repeats |
| SpacySummarizer.EntityListsDistinct | podcast_summarizer/processors/spacy_transformer_summarizer.py:157-162 | each label's list holds distinct texts, exactly those seen with the label |
| SpacySummarizer.CollectEntities | podcast_summarizer/processors/spacy_transformer_summarizer.py:157-162 | the in-place loop over the entities builds exactly the collected map |
| SpacySummarizer.BuildDocs | podcast_summarizer/processors/spacy_transformer_summarizer.py:165-183 | one document per chunk with the chunk's text, 1-based chunk id, total count, topic-shift flag and the chunk's entities |
| SpacySummarizer.TopicShiftNote | podcast_summarizer/processors/spacy_transformer_summarizer.py:281-285 | the transition note is chosen iff the document is marked as a topic shift |
| SpacySummarizer.EntitiesText | podcast_summarizer/processors/spacy_transformer_summarizer.py:287-292 | the fallback text for no entities, otherwise the first (at most) five entities joined by ", " |
| SpacySummarizer.EntitiesTextNames | podcast_summarizer/processors/spacy_transformer_summarizer.py:289-291 | each of the first five entities appears in the entity text |
| SpacySummarizer.TallyCounts | podcast_summarizer/processors/spacy_transformer_summarizer.py:296-303 | the counted entities are the distinct entities in first-seen order, each with its number of occurrences |
| SpacySummarizer.Insert | podcast_summarizer/processors/spacy_transformer_summarizer.py:306 | inserting one entry lengthens the list by one |
| SpacySummarizer.SortDesc | podcast_summarizer/processors/spacy_transformer_summarizer.py:306 | sorting keeps the length |
| SpacySummarizer.InsertPerm | podcast_summarizer/processors/spacy_transformer_summarizer.py:306 | insertion adds exactly the new entry to the multiset |
| SpacySummarizer.InsertStable | podcast_summarizer/processors/spacy_transformer_summarizer.py:306 | among entries with equal count, the new entry goes after the existing ones (stability) |
| SpacySummarizer.InsertSorted | podcast_summarizer/processors/spacy_transformer_summarizer.py:306 | insertion into a list sorted by descending count keeps it sorted |
| SpacySummarizer.SortDescPerm | podcast_summarizer/processors/spacy_transformer_summarizer.py:306 | the ranking is a permutation of its input |
| SpacySummarizer.SortDescDescending | podcast_summarizer/processors/spacy_transformer_summarizer.py:306 | the ranking is ordered by descending count |
| SpacySummarizer.SortDescStable | podcast_summarizer/processors/spacy_transformer_summarizer.py:306 | entries with equal count keep their input order, as Python's stable `sorted` does |
| SpacySummarizer.SortDescRanks | podcast_summarizer/processors/spacy_transformer_summarizer.py:306 | the ranking is a stable descending permutation of the counted entities |
| SpacySummarizer.TopEntities | podcast_summarizer/processors/spacy_transformer_summarizer.py:307 | at most ten names are kept |
| SpacySummarizer.GlobalEntitiesText | podcast_summarizer/processors/spacy_transformer_summarizer.py:294-309 | the fallback text when no entity is ranked, otherwise the top names joined by ", " |
| SpacySummarizer.TopAreMostFrequent | podcast_summarizer/processors/spacy_transformer_summarizer.py:306-307 | no entity below the top ten occurs more often than one in it, and the top ten are the ranking's first names |
| SpacySummarizer.TopEmptyIffNoEntities | podcast_summarizer/processors/spacy_transformer_summarizer.py:307-309 | the top list is empty iff no document carries an entity |
| SpacySummarizer.GlobalEntities | podcast_summarizer/processors/spacy_transformer_summarizer.py:294-309 | the two accumulation loops and the ranking produce exactly the global entity text |
| SpacySummarizer.Finish | podcast_summarizer/processors/spacy_transformer_summarizer.py:404-484 | the returned summary is the map-reduce chain's output unchanged |
| SpacySummarizer.FinishParsed | podcast_summarizer/processors/spacy_transformer_summarizer.py:404-422 | the key points are `{"points": d}` with `d` non-empty iff the chain's text has a non-blank line |
| PromptTemplates.ByLevel | podcast_summarizer/processors/prompt_templates.py:52 | "brief" and "detailed" pick their own template; every other level picks the standard one |
| PromptTemplates.MapPrompt | podcast_summarizer/processors/prompt_templates.py:10-52 | a given custom prompt is returned verbatim |
| PromptTemplates.CombinePrompt | podcast_summarizer/processors/prompt_templates.py:55-95 | a given custom prompt is returned verbatim |
| PromptTemplates.EnsemblePrompt | podcast_summarizer/processors/prompt_templates.py:183-222 | with a custom prompt: that prompt, a blank line, then the combined summaries |
| PromptTemplates.MapPromptPlaceholders | podcast_summarizer/processors/prompt_templates.py:14-52 | without a custom prompt, every map template holds `{chunk_id}`, `{total_chunks}` and `{text}` |
| PromptTemplates.CombinePromptPlaceholder | podcast_summarizer/processors/prompt_templates.py:59-95 | without a custom prompt, every combine template holds `{text}` |
| PromptTemplates.ExtractionPromptPlaceholders | podcast_summarizer/processors/prompt_templates.py:98-180 | the key-point and highlight map prompts hold `{chunk_id}` and `{text}`, their combine prompts `{text}` |
| PromptTemplates.EnsembleEmbedsSummaries | podcast_summarizer/processors/prompt_templates.py:183-222 | the ensemble prompt always contains the combined summaries, at every level and with or without a custom prompt |
| PromptTemplates.UnknownLevelIsStandard | podcast_summarizer/processors/prompt_templates.py:52 | an unknown detail level yields exactly the standard map, combine and ensemble prompts |
| PromptTemplates.SummaryPromptsIgnoreMethod | podcast_summarizer/processors/prompt_templates.py:10-95 | the `method` argument never changes the map or the combine prompt |
| PromptTemplates.ListPromptsIgnoreMethod | podcast_summarizer/processors/prompt_templates.py:98-180 | the `method` argument never changes a key-point or highlight prompt |
| Summarization.ToDict | podcast_summarizer/processors/summarization.py:52-62 | the dict has exactly the keys summary, key_points, highlights and metadata, in that order |
| Summarization.ToDictRoundTrip | podcast_summarizer/processors/summarization.py:52-62 | every field of the result can be read back from its dict form |
| Summarization.CallSizes | podcast_summarizer/processors/summarization.py:102-107 | "llamaindex" gets the sizes floor-divided by four; every other method gets them unchanged |
| Summarization.Summarize | podcast_summarizer/processors/summarization.py:68-146 | a method not registered raises the "not available" error with its exact message; a success only happens for "langchain" and carries the method name, the measured time, the summarizer's summary and highlights, and its `points` entry as key points |
| Summarization.DefaultMethodRaises | podcast_summarizer/processors/summarization.py:17-31 | the default "ensemble", and "llamaindex" and "spacy", are not registered, so they always raise |
| Summarization.SpeakerInfo | podcast_summarizer/processors/summarization.py:186-195 | speakers are found iff some pattern matches; the count is the number of distinct matches of the first pattern that matches, and 0 when none does |
| Summarization.TechnicalIff | podcast_summarizer/processors/summarization.py:231-237 | the transcript is technical iff it has words and more than one word in a hundred is a technical term |
| Summarization.RecommendedChunks | podcast_summarizer/processors/summarization.py:252-264 | (6000, 800) above 100000 characters, (5000, 600) above 50000, (4000, 500) otherwise |
| Summarization.RecommendedChunksMonotone | podcast_summarizer/processors/summarization.py:252-264 | a longer transcript never gets a smaller chunk size or overlap, and the overlap stays below the chunk size |
| Summarization.RecommendedMethod | podcast_summarizer/processors/summarization.py:266-278 | "spacy" iff at least two speakers; otherwise "llamaindex" iff longer than 50000; otherwise "ensemble" iff technical; otherwise "langchain" |
| Summarization.AnalyzeFeatures | podcast_summarizer/processors/summarization.py:148-281 | the speaker loop (stopping at the first pattern with matches) and the term-count loop produce exactly the specified features |
| Summarization.RecommendedSettings | podcast_summarizer/processors/summarization.py:283-299 | the recommended method, chunk size and overlap of the features |
| Summarization.RecommendationPriority | podcast_summarizer/processors/summarization.py:252-278 | "spacy" iff annotated speakers number at least two; "llamaindex" always comes with chunks of at least 5000; "ensemble" only when terms exceed one word in a hundred |
| SummarizerService.ValidDetail | podcast_summarizer/services/summarizer_service.py:124-126 | the result is always a valid level: the input when valid, "standard" otherwise |
| SummarizerService.AutoSelect | podcast_summarizer/services/summarizer_service.py:34-94 | spaCy iff it is available and speakers are annotated; otherwise LlamaIndex iff it is available and the transcript exceeds 50000 characters; never the ensemble |
| SummarizerService.Dispatch | podcast_summarizer/services/summarizer_service.py:96-197 | "ensemble" always reaches the ensemble backend and "langchain" always LangChain |
| SummarizerService.DispatchSound | podcast_summarizer/services/summarizer_service.py:96-197 | a backend is only called when it is available, always with a valid detail level; LlamaIndex gets the chunk settings floor-divided by four, the others unchanged |
| SummarizerService.UnavailableFallsBack | podcast_summarizer/services/summarizer_service.py:138-166 | an explicitly requested backend that is not available falls back to LangChain with the caller's settings |
| SummarizerService.UnknownMethodIsAuto | podcast_summarizer/services/summarizer_service.py:185-193 | "auto" and every unrecognised method name select automatically |
| EmailContent.MarkRun | podcast_summarizer/services/email_content_service.py:12 | the longest run of digits and bullet characters starting at a position |
| EmailContent.MarkerLen | podcast_summarizer/services/email_content_service.py:12 | the removed prefix lies within the text, consists only of whitespace, numbering/bullet characters and at most one `.`/`)`, and is followed by a non-space |
| EmailContent.Sanitize | podcast_summarizer/services/email_content_service.py:6-12 | the result is a suffix of the stripped text, after a removed prefix of markers holding at most one closer; it never starts with whitespace; a text not starting with a marker character is only stripped; a leading bullet is always removed |
| EmailContent.SecondNumberSurvives | podcast_summarizer/services/email_content_service.py:12 | "1. 2. Intro" keeps its second number: one marker is removed, not all |
| EmailContent.DecimalLosesIntegerPart | podcast_summarizer/services/email_content_service.py:12 | "1.5 million" becomes "5 million": a decimal number is read as numbering |
| EmailContent.CloseAt | podcast_summarizer/services/email_content_service.py:21-24 | the closing delimiter found lies at or after the start and matches the delimiter |
| EmailContent.Unwrap | podcast_summarizer/services/email_content_service.py:21-24 | removing bold/italic markers never lengthens the text, and a text with neither delimiter is unchanged |
| EmailContent.Uncode | podcast_summarizer/services/email_content_service.py:27 | removing inline-code backticks never lengthens the text, and a text without backticks is unchanged |
| EmailContent.LinkAt | podcast_summarizer/services/email_content_service.py:30 | a link found has a non-empty text and a non-empty target, closing inside the string |
| EmailContent.Unlink | podcast_summarizer/services/email_content_service.py:30 | replacing links by their text never lengthens the text, and a text without `[` is unchanged |
| EmailContent.StripMarkdown | podcast_summarizer/services/email_content_service.py:14-32 | the result is never longer than the stripped text, and a text without markup characters is only stripped |
| EmailContent.BoldUnwrapped | podcast_summarizer/services/email_content_service.py:21-24 | bold is removed before italics, so `**x**` becomes `x` |
| EmailContent.FormattedShape | podcast_summarizer/services/email_content_service.py:35-46 | at most one line per point, each starting with "- " and holding text |
| EmailContent.FormattedMembers | podcast_summarizer/services/email_content_service.py:40-46 | a line is formatted iff it is "- " plus the non-empty cleaned text of some point |
| EmailContent.FormattedAppend | podcast_summarizer/services/email_content_service.py:41-45 | the points are formatted independently and in order |
| EmailContent.FormatPoints | podcast_summarizer/services/email_content_service.py:35-46 | the loop produces exactly the formatted lines of the cleaned, non-empty points |
| EmailContent.ParseFlexible | podcast_summarizer/services/email_content_service.py:48-67 | the result is always a list or dict; a list or dict passes through; any other non-string gives `[]`; a string gives its parsed value only when that is a list or dict |
| EmailContent.ParseFlexibleIdempotent | podcast_summarizer/services/email_content_service.py:48-67 | parsing an already-parsed value changes nothing |
| EmailContent.Show | podcast_summarizer/services/email_content_service.py:98-123 | a string title is shown as itself |
| EmailContent.AsText | podcast_summarizer/services/email_content_service.py:42 | the points are usable iff every one is a string, and then they are those strings in order |
| EmailContent.Values | podcast_summarizer/services/email_content_service.py:92 | `dict.values()`: the values in key order |
| EmailContent.KeyPointValues | podcast_summarizer/services/email_content_service.py:90-92 | a dict of key points contributes its values, a list its items |
| EmailContent.HighlightValues | podcast_summarizer/services/email_content_service.py:94-96 | a list of highlights contributes its items; a dict contributes nothing |
| EmailContent.Section | podcast_summarizer/services/email_content_service.py:106-114 | a section appears iff there are points, and then starts with its heading |
| EmailContent.HeadingsDiffer | podcast_summarizer/services/email_content_service.py:106-114 | the key-point and highlight headings are distinct, so each section is recognisable |
| EmailContent.SectionsAfterHead | podcast_summarizer/services/email_content_service.py:98-114 | after the five head lines, the key-point heading appears iff there are key points, and the highlight heading follows the key-point section iff there are highlights |
| EmailContent.FailLines | podcast_summarizer/services/email_content_service.py:122-123 | one line per failed summary |
| EmailContent.ContentLinesOk | podcast_summarizer/services/email_content_service.py:84-114 | the body is formatted iff every item is, and then starts with the digest header |
| EmailContent.ContentLinesErrSticks | podcast_summarizer/services/email_content_service.py:86-114 | the first item that raises ends the whole formatting with its error |
| EmailContent.ContentLinesBlock | podcast_summarizer/services/email_content_service.py:86-114 | each item's block appears in the body, in order, right after the blocks of the items before it |
| EmailContent.ItemStartsWithHead | podcast_summarizer/services/email_content_service.py:87-104 | a formatted item has a text summary and starts with its five head lines |
| EmailContent.ItemHeadShowsTitle | podcast_summarizer/services/email_content_service.py:87-100 | the item heading shows "Unknown Episode" when there is no title, and the title itself when it is a string |
| EmailContent.SummaryMustBeText | podcast_summarizer/services/email_content_service.py:88 | a summary that is not a string makes `.strip()` raise |
| EmailContent.KeyPointsIff | podcast_summarizer/services/email_content_service.py:106-109 | the key-point heading follows the head iff the parsed key points are non-empty |
| EmailContent.HighlightsIff | podcast_summarizer/services/email_content_service.py:111-114 | the highlight heading follows the key-point section iff the highlights parse to a non-empty list |
| EmailContent.FailedSectionShape | podcast_summarizer/services/email_content_service.py:116-124 | no failure section without failures; otherwise a rule, the heading, a blank line, one line per failure in order and a closing blank line |
| EmailContent.EmailEndsWithFailures | podcast_summarizer/services/email_content_service.py:84-124 | the body starts with the header and ends with the failure section |
| EmailContent.ItemBlock | podcast_summarizer/services/email_content_service.py:86-114 | the per-item statements append exactly the item's specified lines, or raise its error |
| EmailContent.FailedBlock | podcast_summarizer/services/email_content_service.py:116-124 | the failure statements append exactly the failure section |
| EmailContent.FormatEmailContent | podcast_summarizer/services/email_content_service.py:69-126 | the imperative formatter returns exactly the specified body joined by newlines, or the first item's error |
| EmailWorkflow.DumpIfTruthy | podcast_summarizer/core/database/summaries.py:52-53 | a truthy value is stored as its JSON text, an empty one as None |
| EmailWorkflow.StoredRowOwner | podcast_summarizer/core/database/summaries.py:46-58 | the inserted row carries the episode id, the user id and the summary text |
| EmailWorkflow.StoredRowPayload | podcast_summarizer/core/database/summaries.py:52-54 | the inserted row carries the detail level, and the key points and highlights as JSON text (None when empty) |
| EmailWorkflow.FindRow | podcast_summarizer/services/email_workflow_service.py:82 | a row found belongs to the episode and user; when none is found, no row does |
| EmailWorkflow.SummaryTable.constructor | podcast_summarizer/core/database/summaries.py:60 | the table starts with the given rows |
| EmailWorkflow.SummaryTable.Find | podcast_summarizer/services/email_workflow_service.py:82 | the lookup reads the table's rows for that episode and user |
| EmailWorkflow.SummaryTable.Store | podcast_summarizer/core/database/summaries.py:17-66 | storing appends exactly one row, the one built from the arguments, and keeps every earlier row |
| EmailWorkflow.Candidates | podcast_summarizer/services/email_workflow_service.py:60 | the sort raises iff two or more episodes carry dates that cannot be compared; otherwise the episodes are reordered newest first, as a permutation |
| EmailWorkflow.CandidatesAsWrittenKeepOrder | podcast_summarizer/services/email_workflow_service.py:60 | sorting by "published_date", which no episode row carries, leaves the episodes in the order they were gathered |
| EmailWorkflow.OlderEpisodeVisitedFirst | podcast_summarizer/services/email_workflow_service.py:60 | with the key as written an older episode listed first stays first; sorting by "published_at" puts the newer one first |
| EmailWorkflow.EpisodeIds | podcast_summarizer/services/email_workflow_service.py:78 | the episode ids of the digest entries, in order |
| EmailWorkflow.WithTitle | podcast_summarizer/services/email_workflow_service.py:32-37 | the entry gets its episode's title and keeps every other field of the summary |
| EmailWorkflow.Titled | podcast_summarizer/services/email_workflow_service.py:30-38 | one titled entry per unemailed summary, in order |
| EmailWorkflow.NewEntryFields | podcast_summarizer/services/email_workflow_service.py:127-134 | a new entry carries the episode id, the generated summary, the title and `summary_emailed` false |
| EmailWorkflow.Reuse | podcast_summarizer/services/email_workflow_service.py:82-92 | a stored summary is added to the digest iff it has not been e-mailed; nothing is written and no failure is recorded |
| EmailWorkflow.Generate | podcast_summarizer/services/email_workflow_service.py:94-139 | an episode without a transcript only records the failure "Transcription not available" under its title; a summary is stored only when the `EpisodeSummaryRequest` validates, that is for a str id and a detail level of the enum |
| EmailWorkflow.InvalidLevelFails | podcast_summarizer/services/email_workflow_service.py:103-108 | with a detail level outside the enum, the request fails before generation: the candidate records one failure "Summary generation failed: Invalid value for detail_level" under its title, and nothing is stored or added |
| EmailWorkflow.Added | podcast_summarizer/services/email_workflow_service.py:110-135 | a generated summary is stored as one new row and then appended to the digest; no failure is recorded |
| EmailWorkflow.Visit | podcast_summarizer/services/email_workflow_service.py:70-139 | a full digest leaves everything unchanged; an entry is only added while the digest has room and for an episode not already in it; entries keep their episode ids |
| EmailWorkflow.Filled | podcast_summarizer/services/email_workflow_service.py:70-139 | every digest entry keeps an episode id |
| EmailWorkflow.FilledStaysFull | podcast_summarizer/services/email_workflow_service.py:71-72 | once the digest is full, the remaining candidates change nothing (the `break`) |
| EmailWorkflow.FilledAppends | podcast_summarizer/services/email_workflow_service.py:70-139 | the digest, the failures and the table only grow at their ends, and at most one row is written per added entry |
| EmailWorkflow.FilledBounded | podcast_summarizer/services/email_workflow_service.py:71-72 | the digest never grows beyond `max_episodes` |
| EmailWorkflow.FilledDistinct | podcast_summarizer/services/email_workflow_service.py:77-79 | no episode is put into the digest twice |
| EmailWorkflow.FilledNotEmailed | podcast_summarizer/services/email_workflow_service.py:83-135 | every entry the loop adds has not been e-mailed |
| EmailWorkflow.MissingTranscriptFails | podcast_summarizer/services/email_workflow_service.py:97-101 | a new candidate without transcript only records "Transcription not available" under its title |
| EmailWorkflow.ExistingNotRegenerated | podcast_summarizer/services/email_workflow_service.py:82-92 | an episode that already has a summary is never summarised again, nor recorded as failed |
| EmailWorkflow.GeneratedStoredThenAdded | podcast_summarizer/services/email_workflow_service.py:110-135 | a generated summary is stored for the episode and user, and the entry added has the same summary, the candidate's title and is not e-mailed |
| EmailWorkflow.TitledIds | podcast_summarizer/services/email_workflow_service.py:30-38 | adding titles keeps the episode ids |
| EmailWorkflow.AsWrittenStartsUntitled | podcast_summarizer/services/email_workflow_service.py:67-68 | as written, the loop starts from the untitled summary rows |
| EmailWorkflow.EnoughUnemailed | podcast_summarizer/services/email_workflow_service.py:40-43 | with enough unemailed summaries the digest is their first `max_episodes`, titled, with no failures and nothing written |
| EmailWorkflow.NoFollowedPodcasts | podcast_summarizer/services/email_workflow_service.py:47-50 | with no followed podcasts the titled summaries are returned as they are, with no failures |
| EmailWorkflow.PrepareWithSound | podcast_summarizer/services/email_workflow_service.py:40-139 | whatever list with the unemailed summaries' episodes seeds the loop and whatever the sort key, the digest holds at most `max_episodes` entries, for distinct episodes |
| EmailWorkflow.PreparedSound | podcast_summarizer/services/email_workflow_service.py:6-143 | the intended digest holds at most `max_episodes` entries, for distinct episodes |
| EmailWorkflow.PreparedAsWrittenSound | podcast_summarizer/services/email_workflow_service.py:6-143 | the digest as written holds at most `max_episodes` entries, for distinct episodes, too |
| EmailWorkflow.PreparedTitled | podcast_summarizer/services/email_workflow_service.py:6-143 | with the titled list carried into the loop, every digest entry has a title |
| EmailWorkflow.FilledTitled | podcast_summarizer/services/email_workflow_service.py:70-139 | the loop only adds titled entries |
| EmailWorkflow.UnemailedTitleDropped | podcast_summarizer/services/email_workflow_service.py:68 | one unemailed summary, room for two and a followed podcast: as written the digest entry has no title and the e-mail heads it "Unknown Episode"; the corrected workflow shows the episode's title |
| EmailWorkflow.TitleSummaries | podcast_summarizer/services/email_workflow_service.py:30-38 | the title loop builds exactly the titled summaries |
| EmailWorkflow.GatherEpisodes | podcast_summarizer/services/email_workflow_service.py:53-57 | the gathering loop collects exactly the latest episodes of each followed podcast, podcast after podcast |
| EmailWorkflow.VisitEpisode | podcast_summarizer/services/email_workflow_service.py:72-139 | one loop iteration changes the digest, the failures and the summary table exactly as the specification of a visit says |
| EmailWorkflow.FillDigest | podcast_summarizer/services/email_workflow_service.py:70-139 | the loop over the candidates leaves the digest, failures and table exactly as specified |
| EmailWorkflow.PrepareDigest | podcast_summarizer/services/email_workflow_service.py:6-143 | the loop-based workflow, with the seed list and the sort key as parameters, returns the digest and failures of its specification and leaves the table as specified, or raises the sort error with the table untouched |
| EmailWorkflow.PrepareEpisodesToEmail | podcast_summarizer/services/email_workflow_service.py:6-143 | as written (untitled rows seed the loop, sorted on `published_date`), the method returns the digest and failures of `PreparedAsWritten` and leaves the table as specified, or raises the sort error with the table untouched |
| EmailWorkflow.PrepareEpisodesCorrected | podcast_summarizer/services/email_workflow_service.py:6-143 | with the titled list seeding the loop and the sort on `published_at`, the method returns the digest and failures of `Prepared` |
| EmailWorkflow.BriefFields | podcast_summarizer/services/email_workflow_service.py:174-179 | the returned dict holds the given title and summary |
| EmailWorkflow.SingleSummary | podcast_summarizer/services/email_workflow_service.py:145-220 | a missing episode raises "Episode not found: <id>"; a success writes at most one row and keeps the earlier ones |
| EmailWorkflow.SingleSummaryReused | podcast_summarizer/services/email_workflow_service.py:171-179 | a stored summary is returned with the episode's title and nothing is written |
| EmailWorkflow.SummaryRequest | podcast_summarizer/services/email_workflow_service.py:187-192 | the `EpisodeSummaryRequest` built from the arguments (here and at lines 103-108) validates exactly when the episode id is a str and the detail level is a level name; otherwise it fails on `episode_id` first, then on `detail_level` |
| EmailWorkflow.SummaryRequestErrors | podcast_summarizer/services/email_workflow_service.py:103-108 | an id that is not a str is refused as `episode_id`; with a str id, a detail level outside the enum is refused as `detail_level` |
| EmailWorkflow.SummaryRequestIdError | podcast_summarizer/api/models.py:42 | an episode id that is not a str is the first field the request refuses |
| EmailWorkflow.SummaryRequestError | podcast_summarizer/services/email_workflow_service.py:187-192 | with a str id, a detail level outside the enum is the first field the request refuses |
| EmailWorkflow.SingleSummaryGenerated | podcast_summarizer/services/email_workflow_service.py:181-220 | without a stored summary: the missing-transcript error iff there is no transcript; then an invalid detail level raises the request's validation error unwrapped, before any generation; a summariser error becomes "Summary generation failed: …"; otherwise the summary is stored for the episode and user and returned with the episode's title |
| EmailWorkflow.BuildSingleEpisodeSummary | podcast_summarizer/services/email_workflow_service.py:145-220 | the method returns the specified summary and writes the specified row, or raises the specified error with the table untouched |
| EmailWorkflow.UntitledShownUnknown | podcast_summarizer/services/email_workflow_service.py:68 | a digest entry without a title is headed "Unknown Episode" in the e-mail |
| Ordering.Insert | podcast_summarizer/services/email_workflow_service.py:60 | inserting one episode lengthens the list by one |
| Ordering.SortNewestFirst | podcast_summarizer/services/email_workflow_service.py:60 | sorting keeps the number of episodes |
| Ordering.InsertPerm | podcast_summarizer/services/email_workflow_service.py:60 | insertion adds exactly the new episode to the multiset |
| Ordering.InsertKeys | podcast_summarizer/services/email_workflow_service.py:60 | every position after an insertion holds the new episode or an old one |
| Ordering.InsertNewestFirst | podcast_summarizer/services/email_workflow_service.py:60 | insertion into a newest-first list keeps it newest first |
| Ordering.SortNewestFirstSound | podcast_summarizer/services/email_workflow_service.py:60 | the sorted episodes are newest first and a permutation of the input |
| Ordering.SortSameKeyKeepsOrder | podcast_summarizer/services/email_workflow_service.py:60 | when every episode has the same (empty) key, the stable sort leaves the order unchanged |
| Database.First | podcast_summarizer/core/database.py:306-311 | a row returned is in the table and matches the filter; none is returned iff no row matches |
| Database.WhereExactly | podcast_summarizer/core/database.py:419-421 | the filter returns every matching row as often as the table holds it, and nothing else |
| Database.Assign | podcast_summarizer/core/database.py:185 | after an update each column of the data has its new value and every other column keeps its old one |
| Database.UpdateWhere | podcast_summarizer/core/database.py:185 | an update keeps the number of rows |
| Database.UpdateWhereRows | podcast_summarizer/core/database.py:185 | an update changes exactly the matching rows, each to the row with the data assigned |
| Database.Project | podcast_summarizer/core/database.py:387-392 | a projection holds exactly the selected columns, in order, NULL where the row lacks one |
| Database.WithId | podcast_summarizer/core/database.py:505-506 | an inserted row keeps a given id and otherwise receives a fresh one; every other column is the data's |
| Database.GetPodcast | podcast_summarizer/core/database.py:287-314 | raises "Supabase client not initialized" exactly when there is no client; otherwise returns a stored podcast whose `id` matches, and `None` exactly when no podcast has that id |
| Database.GetPodcastByFeedUrl | podcast_summarizer/core/database.py:316-343 | raises "Supabase client not initialized" exactly when there is no client; otherwise returns a stored podcast whose `feed_url` matches, and `None` exactly when no podcast has that feed URL |
| Database.GetEpisode | podcast_summarizer/core/database.py:373-401 | raises exactly without a client; otherwise an episode is returned iff one has that id |
| Database.ProjectAll | podcast_summarizer/core/database.py:360-368 | one projected row per row, in order |
| Database.ListEpisodes | podcast_summarizer/core/database.py:345-371 | raises "Supabase client not initialized" exactly when there is no client |
| Database.ListEpisodesSound | podcast_summarizer/core/database.py:359-368 | the rows are exactly the listed columns of the podcast's episodes, one per episode, newest `published_at` first |
| Database.UserSummaries | podcast_summarizer/core/database.py:403-432 | raises "Supabase client not initialized" exactly when there is no client |
| Database.UserSummariesExactly | podcast_summarizer/core/database.py:418-426 | exactly the user's summaries (of the episode, when one is given), each as often as stored, newest `created_at` first |
| Database.UpsertPodcast | podcast_summarizer/core/database.py:492-509 | a missing `feed_url` raises KeyError before anything else; no client raises the client error; only the podcasts table can change |
| Database.UpsertPodcastAddsOnlyNew | podcast_summarizer/core/database.py:497-507 | a known `feed_url` adds no row; an unknown one adds exactly the data, with an id, at the end |
| Database.UpsertPodcastLeavesFeed | podcast_summarizer/core/database.py:497-509 | after a successful call some podcast has the `feed_url` |
| Database.UpsertPodcastTwice | podcast_summarizer/core/database.py:497-509 | repeating the call never adds a second row for that `feed_url` |
| Database.SameTitle | podcast_summarizer/core/database.py:519 | a row found belongs to the podcast and has the title; when none is found, no row does |
| Database.UpsertEpisode | podcast_summarizer/core/database.py:511-537 | a missing `podcast_id` raises KeyError; no client raises the attribute error; only the episodes table can change |
| Database.UpsertEpisodeMatchesByTitle | podcast_summarizer/core/database.py:517-533 | a truthy title matching one of the podcast's episodes updates it and adds no row; any other episode is inserted as one new row with an id |
| Database.PublishedAt | podcast_summarizer/core/database.py:163-166 | `published_date` if truthy, else `published_at`, else the stored date, else now |
| Database.Merged | podcast_summarizer/core/database.py:170-174 | the given value when truthy, else the stored value or the default |
| Database.TranscriptUpdateMerges | podcast_summarizer/core/database.py:169-173 | the update's title, date and audio url are the merged values |
| Database.TranscriptUpdateStores | podcast_summarizer/core/database.py:175-180 | the update stores the transcription, and sets the episode number exactly when the data has one, to that number |
| Database.StoreTranscription | podcast_summarizer/core/database.py:118-196 | only the episodes table can change, and a failure changes nothing |
| Database.StoreTranscriptionChecks | podcast_summarizer/core/database.py:137-159 | the missing-episode-id error iff the id is falsy; the missing-podcast-id error iff the id is present and the podcast id falsy; success iff both are present and the podcast and the episode exist |
| Database.StoreTranscriptionUpdates | podcast_summarizer/core/database.py:161-189 | a success changes only the rows with that episode id, each to the row with the merged update assigned |
| Database.StoreSummary | podcast_summarizer/core/database.py:198-256 | no client raises the client error; an unknown episode raises "Referenced episode with ID … does not exist" with nothing inserted; a success returns the new id and appends exactly the new summary row |
| Database.StoredSummaryListed | podcast_summarizer/core/database.py:198-256 | a stored summary is returned among the user's summaries for that episode |
| Database.UpdatePodcast | podcast_summarizer/services/podcast_db_service.py:70-74 | no client raises the attribute error; only the podcasts table can change |
| Database.SupabaseManager.constructor | podcast_summarizer/core/database.py:21-46 | the manager starts with the given client flag and tables |
| Database.SupabaseManager.GetPodcastByFeedUrlM | podcast_summarizer/core/database.py:316-343 | the query on the manager's tables returns exactly the specified result |
| Database.SupabaseManager.ListEpisodesM | podcast_summarizer/core/database.py:345-371 | the query on the manager's tables returns exactly the specified result |
| Database.SupabaseManager.GetUserSummaries | podcast_summarizer/core/database.py:403-432 | the query on the manager's tables returns exactly the specified result |
| Database.SupabaseManager.UpsertPodcastM | podcast_summarizer/core/database.py:492-509 | returns the specified result and leaves the tables as specified |
| Database.SupabaseManager.UpsertEpisodeM | podcast_summarizer/core/database.py:511-537 | returns the specified result and leaves the tables as specified |
| Database.SupabaseManager.StoreTranscriptionM | podcast_summarizer/core/database.py:118-196 | returns the specified result and leaves the tables as specified |
| Database.SupabaseManager.StoreSummaryM | podcast_summarizer/core/database.py:198-256 | returns the specified result and leaves the tables as specified |
| Database.SupabaseManager.UpdatePodcastM | podcast_summarizer/services/podcast_db_service.py:70-74 | returns the specified result and leaves the tables as specified |
| PodcastDbService.CheckNeedsUpdate | podcast_summarizer/services/podcast_db_service.py:29-35 | the scan, stopping at the first changed field, reports an update exactly when some key of the new data is stored with a different value |
| PodcastDbService.WithPodcastId | podcast_summarizer/services/podcast_db_service.py:27-28 | the podcast data's id is forced to the stored podcast's; every other field is kept |
| PodcastDbService.ActivatedStatus | podcast_summarizer/services/podcast_db_service.py:70-73 | the status update sets "active" |
| PodcastDbService.Urls | podcast_summarizer/services/podcast_db_service.py:46-47 | a url is in the set iff it is truthy and some stored episode carries it |
| PodcastDbService.KeptExactly | podcast_summarizer/services/podcast_db_service.py:54-59 | an incoming episode is added exactly when its truthy audio or transcript url is not stored yet; no more episodes than given |
| PodcastDbService.KeptAll | podcast_summarizer/services/podcast_db_service.py:102-107 | a new podcast adds every incoming episode |
| PodcastDbService.Numbered | podcast_summarizer/services/podcast_db_service.py:60-61 | the added episode is tied to the podcast and carries its number; every other field is kept |
| PodcastDbService.AddStepAdded | podcast_summarizer/services/podcast_db_service.py:54-64 | one turn adds the numbered episode exactly when it is kept and no upsert has failed; a turn that skips the episode changes nothing |
| PodcastDbService.AddEpisodesStops | podcast_summarizer/services/podcast_db_service.py:54-64 | a failed upsert ends the loop: the later episodes change nothing |
| PodcastDbService.AddStepNumbers | podcast_summarizer/services/podcast_db_service.py:60-64 | each successful turn keeps the numbering in step with the kept episodes |
| PodcastDbService.AddEpisodesNumbers | podcast_summarizer/services/podcast_db_service.py:50-64 | when every upsert succeeds, the added episodes are exactly the kept ones, in input order, numbered consecutively from the first number |
| PodcastDbService.AddEpisodesNoneKept | podcast_summarizer/services/podcast_db_service.py:54-64 | with no new episode nothing is written |
| PodcastDbService.Refresh | podcast_summarizer/services/podcast_db_service.py:26-41 | the metadata refresh only touches the podcasts table |
| PodcastDbService.UpdateExistingSteps | podcast_summarizer/services/podcast_db_service.py:12-82 | a success went through the refresh and the episode loop; the podcast's episodes are unaffected by the refresh; the report counts the added episodes and the total; the status update happens iff an episode was added or a field changed |
| PodcastDbService.UpdateExistingCounts | podcast_summarizer/services/podcast_db_service.py:76-82 | the report names the stored podcast's id, counts the episodes whose url is new, and totals the stored count plus them |
| PodcastDbService.NumberedInOrderFields | podcast_summarizer/services/podcast_db_service.py:60-61 | each added episode carries the podcast's id and its consecutive number |
| PodcastDbService.UpdateExistingNumbers | podcast_summarizer/services/podcast_db_service.py:50-64 | the added episodes are the new ones in input order, numbered after the podcast's stored episodes |
| PodcastDbService.UpdateExistingUnchanged | podcast_summarizer/services/podcast_db_service.py:37-41 | with no changed field and no new episode, nothing is written |
| PodcastDbService.ActivatedRows | podcast_summarizer/services/podcast_db_service.py:70-73 | after the status update every row of the podcast is "active" |
| PodcastDbService.UpdateExistingActivates | podcast_summarizer/services/podcast_db_service.py:69-74 | when an episode was added, the podcast's rows end "active" |
| PodcastDbService.CreateNewNumbersAll | podcast_summarizer/services/podcast_db_service.py:84-123 | a new podcast gets every episode, in order, numbered 1 to n; the reported count is n; its rows end "active" |
| PodcastDbService.AddEpisodesTo | podcast_summarizer/services/podcast_db_service.py:54-64 | the loop against the manager adds exactly the specified episodes and leaves the tables as specified |
| PodcastDbService.UpdateExistingPodcast | podcast_summarizer/services/podcast_db_service.py:12-82 | the method returns the specified report or error and leaves the tables as specified |
| PodcastDbService.AddAndReportTo | podcast_summarizer/services/podcast_db_service.py:43-82 | the episode loop and the report against the manager return and write exactly what is specified |
| PodcastDbService.ReportTo | podcast_summarizer/services/podcast_db_service.py:66-82 | the status update and the report against the manager return and write exactly what is specified |
| PodcastDbService.CreateNewPodcast | podcast_summarizer/services/podcast_db_service.py:84-123 | the method returns the specified report or error and leaves the tables as specified |

## Left out

- External services: HTTP calls (`requests`, `httpx`, cloudscraper, crawl4ai), the Service Bus SDK, the Supabase client, the Azure Blob SDK and the SMTP mail service. Each is either a parameter (a response, an outcome, an uninterpreted function) or in-memory state (tables, a blob map, a message list). The model says nothing about their failure modes beyond the outcomes the code branches on.
- Service Bus receive, complete and dead-letter calls: abstract actions in an action log. The fixed 5-second sleep after a failed batch is a counted `Slept` action, not a clock.
- LLM chains (LangChain, LlamaIndex), `llm_provider.py`, `transcriber.py`, spaCy parsing and sentence embeddings. Their outputs are inputs to the model. In particular the topic-shift set computed from cosine similarities in `spacy_transformer_summarizer.py` is an input set.
- The regular-expression feature scans in `analyze_transcript_features` (speaker lines, technical terms, questions): their counts are inputs. The speaker, technical-density and length decisions are modelled; the `is_interview_style` flag (line 250) and the other features the recommendation does not read are not.
- `ensemble_summarizer.py`: its de-duplication computes `list | set`, which raises `TypeError` as soon as a second highlight is compared, so it has no working behaviour to model. Its key-point parse is the same as the spaCy one, which is modelled.
- `llamaindex_summarizer.py`, all audio processing (cleaning, detection, splitting, conversion), the Tk widgets and worker threads of the GUIs, every route module, `api/main.py`, `api/routes.py`, `api/common.py`, `config.py`, `logging_config.py`, `main.py` and `component_test.py`. These are UI, plumbing or numeric signal processing outside the modelled core.
- Download orchestration (`downloader_service.py` and the `downloader/` package): not modelled. `download_podcast` runs its downloads on a thread pool. The model runs them one after another in episode order, so completion order and concurrency are not captured.
- Supabase managers in `core/database/*.py`: thin query builders. Their upserts and default-filling are subsumed by the in-memory tables of `Database`. The other `SupabaseManager` methods (`store_podcast_feed`, `get_transcription`, `get_summary`, `get_episode_with_transcript`) are not part of this model.
- The summary manager's `get`, `get_unemailed_summaries` and `mark_as_emailed`: `core/database/summaries.py` defines only `store`. The e-mail workflow's lookups are modelled as a lookup in the summaries table and its unemailed list as an input.
- Import-time breakage is not modelled; the logic is modelled as written. This covers:
  - the `core/database/` package shadowing `core/database.py`;
  - `LLAMAINDEX_AVAILABLE` being imported from a module that does not define it;
  - `LangChainSummarizer` not existing;
  - the missing `download_with_selenium`;
  - the stray duplicated tail at `tests/local_tests.py:173-209`;
  - `api/main.py` storing the `None` returned by `initialize_queue_processor`.
- The e-mail workflow passes `config=` to `generate_episode_summary`, which does not take it. That call would raise `TypeError` at run time. The model takes the summariser's outcome (success or failure) as an input instead.
- Aliasing: Python dictionaries that callers share and mutate in place become values. Updates are returned or assigned to a field, so aliasing effects between callers are not captured.
- Python `==` on dictionaries and lists is datatype equality. Values that Python cannot hash, in the URL sets, are not modelled.
- SQL details: how `ORDER BY` sorts NULLs, dates compared as text, the column order of inserted rows, and NULL for missing columns. Rows are maps and dates are strings compared lexicographically.
- Unicode: `str.isalnum`, `str.isspace`, `str.lower`, `\s` and `\d` are their ASCII versions. No normalisation, case folding or encoding is modelled.
- Integer parsing: `int()` is modelled as surrounding whitespace, an optional sign and ASCII digits. Digit-group underscores and non-ASCII digits, which Python also accepts, are rejected by the model.
- Negative limits and counts slice from the end, as Python slicing does. The model follows Python's meaning; it is not a guard the code has.
- `BlobStorage.BlobOperations.Url`: joins the container URL and the blob name without URL quoting or path normalisation.
- `BlobStorage.BlobOperations.BlobExists`: returns false on any error, as the code does. Network errors are not distinguished from a missing blob.
- Only `RequestException` is modelled as a download failure. Other exceptions are not modelled.
- JSON: `json.loads` is outside the model. Decoded values are inputs, and a decoder error is an input message.
- `feedparser` internals: the parsed feed (entries, links, titles) is an input.
- `podcast_summarizer/utils/parsing.py` is not part of this model. `cli.py`, `api_test.py` and `core/api_test_core.py` import it only inside a `try`; the model follows their local `parse_episode_indices`, the path taken when that import fails.
- `TextUtils.SimilarBy`: the Jaccard test `> 0.6` is the equivalent integer inequality 5·|a∩b| > 3·|a∪b|. Floating-point rounding is not modelled.
- `Summarization.TechnicalIff`: the density test on technical terms per 100 words is the integer inequality terms·100 > words. Floating-point rounding is not modelled.
- `RequestModels.TemperatureBounds`: temperature is a `real` bound check. Floating-point representation is not modelled.
- Handlers.Passthrough: a truthy `target_path` that is a finite float, a list or a dict would be formatted into the URL with Python's `str()` (shortest round-trip digits, or the repr). The model does not write that text out; it returns an error instead of posting.
- Handlers.StatusError: the text of httpx's `HTTPStatusError` is not modelled. The model's message only names the URL.
- Gui.HandleProcessPodcast: a split-size field that `float()` reads as inf or nan is treated as refused and queues nothing. Python would queue a payload carrying that float; the request payload holds only finite split sizes here.
- QueueProcessor.Dispose: a failure of the `dead_letter_message` call itself is not modelled; only `complete_message` can fail.
- FrontendApi.ForwardRequest: the body arrives already decoded. The 400 "Invalid JSON in request body" for a body that does not decode (podcast-frontend-api/app.py:128-129) is not modelled.
- Strings.ParseFloat: a finite float is an exact real. Rounding to binary64, the overflow of a huge literal to infinity, and underscores in numeric literals are not modelled. The same holds wherever `float()` is read: CommandProcessor.Coerce, ParamValidator.ConvertToInt, ParamValidator.ConvertToUnitFloat and the float fields of RequestModels.Validate.
- CommandProcessor.ExtraParamsMerge: a pair whose key is a non-str scalar (an int, a float, a bool or null) gives the model's "dict key is not a str" error, where Python would store that key. The payload is keyed by strings.
- RequestModels.Validate: the error is the first refusing field in declaration order, with the model's own text; pydantic lists every error in its own words. Pydantic's other string forms for numbers and bools (surrounding whitespace, underscores, fractional strings for int fields) are not modelled.
- EmailWorkflow.SummaryRequest: the validation error raised for a bad detail level carries the model's text "Invalid value for detail_level", not pydantic's message.
- The frontend's request models come from a `models.py` that is not part of this model. The model assumes they are `podcast_summarizer/api/models.py`.

## Findings

| source | as written | input that shows it | evidently intended | confidence | as-written member | corrected member |
|---|---|---|---|---|---|---|
| podcast-frontend-api/app.py:109-111 | The queued payload is `model_dump(exclude_unset=True)` of the validated request. No request model declares `target_path`, so the payload never holds it. The passthrough handler then raises "Missing target_path in payload" (podcast_summarizer/api/handlers.py:28-30), and the listener dead-letters the message. | Any accepted request, e.g. `{"target_path": "/upsert-podcast", "feed_url": "u"}` | The envelope's payload carries the `target_path` the request named, so the listener posts it to `http://localhost:80` + that path and completes the message | high (not executed) | Pipeline.ForwardedMessagesDeadLettered | Pipeline.CorrectedEnvelopeReachesApi |
| podcast_summarizer/services/email_workflow_service.py:68 | `episodes_for_email = unemailed_summaries` replaces the titled copies built at lines 30-38 with the untitled rows. | One unemailed summary, room for two, one followed podcast: the digest entry has no `title` and is headed "Unknown Episode" | The titled list from lines 30-38 seeds the digest | high (not executed) | EmailWorkflow.UnemailedTitleDropped | EmailWorkflow.PreparedTitled |
| podcast_summarizer/services/email_workflow_service.py:60 | Candidates are sorted on `published_date`, a key episode rows do not have (they carry `published_at`). Every key is `''`, so the stable sort keeps list order. | Two followed podcasts, the first listing an older episode and the second a newer one: the older is visited first | Newest first by `published_at` | medium (not executed) | EmailWorkflow.OlderEpisodeVisitedFirst | Ordering.SortNewestFirstSound |
