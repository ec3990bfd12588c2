# rosetta — a Dafny model of the translation pipeline

rosetta translates a document with a language model. Its pipeline has five stages:

1. **Parser.** The parser (pandoc) turns the input into markdown. The *segmenter* splits that markdown into sections at blank lines. It cuts every over-long paragraph after sentence ends, until the remainder fits the configured limit.
2. **Cache.** A SQLite *translation cache* keeps every translated subsection. It is keyed by the source text and by a language pair that is trimmed and lower-cased.
3. **OpenAI assistant.** The *OpenAI session* posts every subsection to an assistant thread. It waits for the run with a run-status state machine, checks the shape of the reply, and retries transient errors within a budget of five sequential errors.
4. **Generator.** The *markdown generator* appends every translated section to a working markdown file. At the end it converts that file into the output, unless the output is itself markdown.
5. **Service.** The *translation service* (`LlmTranslationService::translate`) ties the stages together. For each section it:
   - takes the translation from the cache when every subsection is cached;
   - otherwise asks the model once for the whole section and caches the pairs;
   - writes the result and reports progress.

The project is made of these modules:

| module | file | models |
|---|---|---|
| `Text` | `text.dfy` | `str::trim`, the White_Space and Uppercase classes, `to_lowercase`, and `str::len` as a UTF-8 byte count |
| `Rosetta` | `rosetta.dfy` | sections, `TranslationConfig` and its default (`DEFAULT_CONFIG`), `Progress`, and the error types |
| `Utils` | `utils.dfy` | `substr_up_to_len` |
| `Segmenter` | `segmenter.dfy` | the segmentation loop of `PandocParser::parse` |
| `TranslationCache` | `cache.dfy` | `Cache`, over a `Database` object that holds the `translated` table |
| `OpenAi` | `openai.dfy` | `run_openai_request`, `run_with_backoff`, `translate`, `From<OpenAIError>` and `build` |
| `Generator` | `generator.dfy` | `PandocGeneratorBuilder::build`, `PandocGenrator::write` and `finalize` |
| `Pipeline` | `pipeline.dfy` | `LlmTranslationService::translate` |

The loops of the source are methods. Each method is proved equal to a recursive specification function, and the properties are lemmas about those functions:
- `Parse` and `CutParagraph` against `SegmentMarkdown` and `Cut`;
- `RunOpenAiRequest` against `Request`;
- `RunWithBackoff` against `RunOuter`/`RunPoll`;
- `Translate` against `TranslateSection`;
- `RunLoop` against `RunSections`.

Some objects change their fields in place. These are classes whose methods are specified by a function of the old state:
- the cache and its database;
- the generator;
- the model and the progress channel of the service.

The outside world is given as data:
- **OpenAI service.** Its replies are a script, one reply per request. The backoff schedule is a finite sequence of delays; when it runs out, `next_backoff` returns `None`.
- **Database.** It fails the statements whose numbers are in a set.
- **Working file.** It fails the file operations whose numbers are in a set.
- **Model.** Its answer to the n-th request is a function of n and the section.

## Model

| member | source | states |
|---|---|---|
| `Segmenter.FindSeparator` | src/parser/pandoc.rs:41 | the leftmost `"\n\n"` at or after a position, and none when there is none |
| `Segmenter.SplitParagraphs` | src/parser/pandoc.rs:41 | `split("\n\n")`: the pieces between the separators, at least one, in order |
| `Segmenter.SplitJoin` | src/parser/pandoc.rs:41 | the pieces of `split("\n\n")` glue back, with separators, into the text; no piece holds a separator |
| `Segmenter.JoinSplit` | src/parser/pandoc.rs:41 | splitting pieces glued with separators gives the pieces back, so the split is the inverse of the join |
| `Segmenter.FindBreakFromLeftmost` | src/parser/pandoc.rs:36-47 | `find_at` from a character on: a found match is a sentence break at or after the byte offset, and no break lies before it; none means there is no break at all |
| `Segmenter.FindBreakLeftmost` | src/parser/pandoc.rs:36-47 | `find_at(s, max/2)` returns the leftmost match of `[.!?]\p{White_Space}+\p{Uppercase}` that starts at byte `max/2` or later |
| `Segmenter.NextCut` | src/parser/pandoc.rs:45-57 | one cut leaves a remainder strictly shorter than the text, so the cutting loop ends |
| `Segmenter.FirstCut` | src/parser/pandoc.rs:53-57 | the piece cut off is a non-empty, unpadded prefix that ends with the `.`, `!` or `?` of the match and is longer than `max/2` bytes; the rest starts with an upper case letter and is the text after the piece with only the leading whitespace dropped |
| `Segmenter.Cut` | src/parser/pandoc.rs:44-61 | the subsections of one trimmed paragraph: while the remainder is over the limit, the piece through the punctuation of the first sentence break at or after byte `max/2` is cut off and both halves are trimmed; a non-empty remainder is the last subsection; nothing when a break is missing |
| `Segmenter.CutPieces` | src/parser/pandoc.rs:42-61 | the subsections of a paragraph are non-empty and unpadded; the last fits the limit; there are none exactly when the trimmed paragraph is empty; together they are the paragraph cut at some points with only whitespace dropped at each cut |
| `Segmenter.CutAtSentenceBreaks` | src/parser/pandoc.rs:45-56 | between consecutive subsections there is a sentence end: each but the last ends with `.`, `!` or `?` and is over `max/2` bytes, and the next starts upper case |
| `Segmenter.CutFailsWithoutBreak` | src/parser/pandoc.rs:47-51 | an over-long remainder with no sentence break at or after byte `max/2` makes the cut fail |
| `Segmenter.CutPieceMayExceedLimit` | src/parser/pandoc.rs:44-57 | with limit 4, `"Abcdefg. Hi"` is cut into `"Abcdefg."` (8 bytes) and `"Hi"`: only the remainder is made to fit, not each piece |
| `Segmenter.CutParagraph` | src/parser/pandoc.rs:42-61 | the inner `while` loop returns the cut of the trimmed paragraph, or nothing when a cut finds no break |
| `Segmenter.CutAdvance` | src/parser/pandoc.rs:53-57 | one loop iteration keeps the loop invariant (the result is the pieces so far followed by the cut of the remainder) and shortens the remainder |
| `Segmenter.ParagraphSections` | src/parser/pandoc.rs:42-64 | one paragraph: no section when it is blank after trimming, else one section of its cuts, or the no-break-point error |
| `Segmenter.Segment` | src/parser/pandoc.rs:41-67 | the sections of the paragraphs in order, or the error of the first paragraph that fails |
| `Segmenter.SegmentMarkdown` | src/parser/pandoc.rs:39-67 | the sections of the markdown: its `"\n\n"` pieces segmented in order |
| `Segmenter.Parse` | src/parser/pandoc.rs:39-67 | the loop over the paragraphs returns `SegmentMarkdown`: the sections in paragraph order, or the no-break-point error |
| `Segmenter.SegmentErrorSticks` | src/parser/pandoc.rs:47-51 | once a paragraph fails, the whole parse fails with that error |
| `Segmenter.SegmentSections` | src/parser/pandoc.rs:59-64 | every returned section has at least one subsection, and none is empty or padded |
| `Segmenter.SegmentFailsIff` | src/parser/pandoc.rs:47-51 | the parse fails exactly when some paragraph fails, and then with the no-break-point error |
| `Segmenter.ChainFails` | src/parser/pandoc.rs:41-67 | combining per-paragraph results fails exactly when one of them fails, and returns the first failure |
| `Segmenter.SegmentAppend` | src/parser/pandoc.rs:41-63 | the sections of two runs of paragraphs are those of the first followed by those of the second |
| `Segmenter.SegmentOne` | src/parser/pandoc.rs:42-64 | one paragraph gives one section of its cuts, none when it is blank, or the error |
| `Segmenter.BlankParagraphYieldsNothing` | src/parser/pandoc.rs:62-64 | a paragraph that is blank after trimming adds no section |
| `Segmenter.EmptyMarkdown` | src/parser/pandoc.rs:165-177 | empty markdown gives no sections |
| `TranslationCache.DefaultLanguageKeys` | src/lib.rs:66-77 | the default settings translate English to Russian, subject Unknown, formal tone, no extra instructions, subsections of 5000 bytes; the cache keys their pair as `english`/`russian` |
| `TranslationCache.LanguageKey` | src/cache.rs:36-37 | a stored language key is trimmed and has no upper case letter |
| `TranslationCache.LanguageKeyIgnoresCaseAndPadding` | src/cache.rs:36-37 | language names that differ only in letter case or surrounding whitespace have the same key |
| `TranslationCache.LanguageKeyIdempotent` | src/cache.rs:36-37 | normalising a key again changes nothing |
| `TranslationCache.Lookup` | src/cache.rs:45-57 | the `SELECT`: the translation in the first row with the source text and the language pair, if there is one |
| `TranslationCache.LookupFinds` | src/cache.rs:45-57 | the `SELECT` finds a translation exactly when a row with the source text and language pair exists, and returns the first such row's translation |
| `TranslationCache.LookupIgnoresOtherPairs` | src/cache.rs:47-51 | rows of another language pair are never returned |
| `TranslationCache.LookupUnique` | src/cache.rs:45-57 | with one row per key, the lookup returns that row's translation |
| `TranslationCache.GetResult` | src/cache.rs:55-58 | `get` fails exactly when its query fails, and then with a database error |
| `TranslationCache.InsertResult` | src/cache.rs:62-76 | `insert` adds at most the one new row, adds nothing when the key is cached (first write wins), changes no row when it fails, and always runs a statement |
| `TranslationCache.InsertThenLookup` | src/cache.rs:68-74 | after a successful insert the key has the new translation if it had none, else the old one; every other key keeps its translation |
| `TranslationCache.InsertKeepsUnique` | src/cache.rs:68-73 | insert keeps at most one row per source text and language pair |
| `TranslationCache.Database.constructor` | src/cache.rs:20-33 | an opened connection holds the table's existing rows and has run no statement |
| `TranslationCache.Cache.constructor` | src/cache.rs:34-38 | the cache stores the language names as trimmed, lower-cased keys |
| `TranslationCache.Cache.Get` | src/cache.rs:41-60 | `get` changes no row, runs one statement and returns `GetResult` |
| `TranslationCache.Cache.Insert` | src/cache.rs:62-76 | `insert` leaves the table as `InsertResult` says, and keeps at most one row per source text and language pair |
| `OpenAi.Request` | src/llm/openai.rs:346-392 | `run_openai_request` on a script of replies and a backoff schedule: the outcome and the number of attempts, from a fresh counter |
| `OpenAi.RequestFrom` | src/llm/openai.rs:351-391 | the request loop makes at most 6 attempts; a success is the reply of the last attempt, and a failure is an interaction error on an error reply |
| `OpenAi.RequestRetriesTransientOnly` | src/llm/openai.rs:355-390 | only transport and decoding errors are retried; a failure reports a non-transient error as it is, or the transient error after which the budget (6 attempts) or the backoff schedule ran out |
| `OpenAi.RequestReturnsFirstOk` | src/llm/openai.rs:380-382 | the first successful reply after at most five transient errors is returned |
| `OpenAi.RunOpenAiRequest` | src/llm/openai.rs:346-392 | the loop returns what `Request` says |
| `OpenAi.RunOuter` | src/llm/openai.rs:249-289 | every end of the run loop keeps the counter within 5 and never lowers it; it gives up on the budget only at 5 and on the schedule only once every delay is taken; it succeeds only with a completed run |
| `OpenAi.RunPoll` | src/llm/openai.rs:290-340 | the same invariant for the inner polling loop |
| `OpenAi.RetryOrBail` | src/llm/openai.rs:251-261 | the same invariant for `retry_or_bail!` |
| `OpenAi.RunToCompletion` | src/llm/openai.rs:242-342 | `run_with_backoff` on a script of replies and a schedule: the outer loop from the first reply, no delay taken, counter 0 |
| `OpenAi.RunWithBackoff` | src/llm/openai.rs:242-342 | the nested loops return what `RunToCompletion` says |
| `OpenAi.RateLimitIsFree` | src/llm/openai.rs:302-308 | runs that fail on the rate limit start over with a new delay and a new run, and the counter stays the same |
| `OpenAi.ServerErrorsCount` | src/llm/openai.rs:316-321 | each run that fails with a server error raises the counter by one and starts over; the one after the counter reached 5 ends the call |
| `OpenAi.TransportFaultsCount` | src/llm/openai.rs:264-277 | a transport or decoding error of the create or retrieve request raises the counter and starts over, or ends the call once it is at 5 |
| `OpenAi.PollFaultsCount` | src/llm/openai.rs:316-332 | a run that fails without an error or with a server error, or comes back incomplete, raises the counter and starts over, or ends the call at 5 |
| `OpenAi.FiveServerErrorsAreTolerated` | src/llm/openai.rs:316-321 | with the budget of 5 sequential errors, from a fresh loop, a run that completes after five server errors is returned; six server errors end the call |
| `OpenAi.WaitingRunsArePolled` | src/llm/openai.rs:297 | queued and in-progress runs are polled again with the counter untouched |
| `OpenAi.CompletedRunIsReturned` | src/llm/openai.rs:290-297 | a completed run is returned as it is after any number of queued or in-progress polls, with no further delay and the counter untouched |
| `OpenAi.FatalCause` | src/llm/openai.rs:298-335 | a run status is fatal exactly when it is cancelling, cancelled, expired, or failed with an invalid prompt |
| `OpenAi.FatalStatusFails` | src/llm/openai.rs:298-335 | a fatal run ends the call with its cause whatever the counter |
| `OpenAi.NoDelayNoRun` | src/llm/openai.rs:280-287 | even the first iteration takes a delay; with no delay the call fails with backoff exhausted before any request |
| `OpenAi.ReadReplyAsWritten` | src/llm/openai.rs:211-234 | the reply check as written: a wrong content-block count is always reported as 1 |
| `OpenAi.ReadReply` | src/llm/openai.rs:211-234 | a reply is accepted exactly when it is one message with one text block, whose text is the translation; each error reports the count or the kind that is wrong |
| `OpenAi.ReadReplyAsWrittenAgrees` | src/llm/openai.rs:211-234 | the check as written accepts and rejects the same replies as the corrected one |
| `OpenAi.ReadReplyAsWrittenMiscounts` | src/llm/openai.rs:219-224 | a message with two text blocks is reported as having 1 block |
| `OpenAi.Exchange` | src/llm/openai.rs:158-236 | a failed subsection exchange is an interaction error |
| `OpenAi.TranslateOne` | src/llm/openai.rs:158-236 | posting a subsection, waiting for the run and reading the reply returns what `Exchange` says |
| `OpenAi.Collect` | src/llm/openai.rs:157-237 | the subsections the loop has collected after the first `n` exchanges, or the first exchange that did not succeed |
| `OpenAi.TranslateSection` | src/llm/openai.rs:156-238 | `translate`: one exchange per subsection, in order, collected until one fails |
| `OpenAi.CollectShape` | src/llm/openai.rs:157-237 | collecting succeeds exactly when every exchange does, with one subsection per exchange in order; a failure is the first failed exchange |
| `OpenAi.CollectStops` | src/llm/openai.rs:158-236 | after the first failed exchange, later subsections change nothing |
| `OpenAi.TranslateSectionShape` | src/llm/openai.rs:157-237 | `translate` returns exactly one subsection per input subsection, in order, each the text its exchange read, and succeeds exactly when every exchange does |
| `OpenAi.Translate` | src/llm/openai.rs:156-238 | the loop over the subsections returns what `TranslateSection` says |
| `OpenAi.FromOpenAIError` | src/llm/openai.rs:394-410 | transport and stream errors are connection errors; service error objects are API errors; every other client error is an other error; the client error is carried along |
| `OpenAi.BuildSession` | src/llm/openai.rs:48-129 | `build`: list the assistants, update the first named one or create one, then create a thread; every request fails the build when it fails, and the request made to save the assistant is recorded |
| `OpenAi.FindAssistant` | src/llm/openai.rs:67-70 | the first listed assistant named `rosetta-translator`, and none exactly when there is no such assistant |
| `OpenAi.BuildFindsOrCreates` | src/llm/openai.rs:72-111 | once the assistants are listed, the first named one is updated, and an assistant is created exactly when none has the name |
| `OpenAi.BuildSessionParts` | src/llm/openai.rs:113-128 | a built session holds the assistant that the update or the create returned, and the new thread |
| `OpenAi.Build` | src/llm/openai.rs:48-129 | `build` returns what `BuildSession` says |
| `Generator.MarkdownPath` | src/generator/pandoc.rs:23 | the working file is the output path with the extension `md` |
| `Generator.MarkdownPathIsOutput` | src/generator/pandoc.rs:88-89 | the working file is the output itself exactly when the output's extension is `md` |
| `Generator.Build` | src/generator/pandoc.rs:17-51 | without continuing, an existing working file gives AlreadyExists and otherwise nothing is already translated; when continuing, a missing file gives NotFound and otherwise the file's sections are parsed again, with their parse error when that fails |
| `Generator.JoinLines` | src/generator/pandoc.rs:73 | the subsections of a section joined by `"\n"` |
| `Generator.Render` | src/generator/pandoc.rs:72-80 | what one `write` appends: the joined subsections and then `"\n\n"` |
| `Generator.Document` | src/generator/pandoc.rs:62-80 | the renderings of several sections, in order |
| `Generator.DocumentJoins` | src/generator/pandoc.rs:72-80 | the written document is the sections' lines, joined with blank lines and ended by one |
| `Generator.DocumentSplitsBack` | src/generator/pandoc.rs:72-80 | splitting a document of plain subsections at blank lines gives each section's joined subsections back, in order |
| `Generator.WriteResult` | src/generator/pandoc.rs:61-81 | the first write creates the file and later writes append to the same handle; a successful write appends the subsections joined by `"\n"` and then `"\n\n"`; it succeeds exactly when none of its file operations fails; a failure is an IO error |
| `Generator.WriteAll` | src/generator/pandoc.rs:61-81 | several writes in order, stopping at the first that fails |
| `Generator.WritesConcatenate` | src/generator/pandoc.rs:62-80 | after successful writes the file holds the renderings of the sections in order, and it was created once |
| `Generator.FinalizeResult` | src/generator/pandoc.rs:83-102 | `finalize` drops the handle; it converts the working file exactly when the paths differ; it fails only when the conversion fails |
| `Generator.FinalizeConvertsUnlessMarkdown` | src/generator/pandoc.rs:88-99 | a built generator converts exactly when the output is not a markdown file |
| `Generator.MarkdownGenerator.constructor` | src/generator/pandoc.rs:46-50 | a built generator has its output and working paths and no open file |
| `Generator.MarkdownGenerator.Write` | src/generator/pandoc.rs:61-81 | `write` leaves the generator as `WriteResult` says |
| `Generator.MarkdownGenerator.Finalize` | src/generator/pandoc.rs:83-102 | `finalize` leaves the generator as `FinalizeResult` says |
| `Pipeline.Lookups` | src/lib.rs:244-246 | the cache lookups of a section change no row; they succeed exactly when no query fails, with one result per subsection in order; the first failed query ends them |
| `Pipeline.Inserts` | src/lib.rs:262-264 | the inserts of the zipped pairs in order, stopping at the first database error; they only run statements |
| `Pipeline.InsertsCache` | src/lib.rs:262-264 | after the inserts succeed, every inserted source has a cached translation |
| `Pipeline.InsertsKeepCached` | src/lib.rs:262-264 | inserts never change a translation that was already cached |
| `Pipeline.Emit` | src/lib.rs:269-274 | the write of the translated section, then one progress report `current + 1` of `total` when the write succeeds; nothing else changes |
| `Pipeline.ProcessSection` | src/lib.rs:243-274 | one section asks the model at most once; it never builds the model or converts; a successful section reports progress `current + 1` of `total`, and its rendering is appended to the file; a failed one reports nothing |
| `Pipeline.SectionFromCache` | src/lib.rs:244-255 | a fully cached section is the cached translations in order, and the model is not asked |
| `Pipeline.SectionFromLlm` | src/lib.rs:248-266 | a section with an uncached subsection costs exactly one request with the whole section; what the model answers is written; every zipped source is then cached, and earlier translations stay |
| `Pipeline.RunSections` | src/lib.rs:243-275 | the loop never builds the model or converts, asks the model at most once per section, and on success returns one written section per input section |
| `Pipeline.RunSectionsReports` | src/lib.rs:271-274 | after the loop, progress was reported once per section, as `i + 1` of the number of parsed sections |
| `Pipeline.ReportsIncrease` | src/lib.rs:271-274 | the reported counts rise strictly, up to the number of sections |
| `Pipeline.RunSectionsDocument` | src/lib.rs:243-269 | after the loop, the working file holds one rendering per input section, in input order |
| `Pipeline.RunAndFinalize` | src/lib.rs:243-278 | `finalize` runs only after the loop got through; a loop error is returned with the state the loop left |
| `Pipeline.PipelineSpec` | src/lib.rs:209-281 | the whole run: missing input, directory, parse and cache failures in that order, each leaving everything untouched, then `WithCache` |
| `Pipeline.WithCache` | src/lib.rs:231-278 | after the cache opens: the generator failure, else one model build, its failure, else the loop and `finalize` |
| `Pipeline.PipelineOutcome` | src/lib.rs:209-281 | a missing input changes nothing; the model is built at most once, and exactly once in a successful run; its requests only grow and number at most one per section; a successful run finalizes, converting unless the working file is the output |
| `Pipeline.FinalizeAfterAllSections` | src/lib.rs:243-281 | a successful run, or any conversion, comes only after every section was reported |
| `Pipeline.ScriptedLlm.Build` | src/lib.rs:237-241 | building the model counts one build, asks nothing, and returns the scripted outcome |
| `Pipeline.ScriptedLlm.Translate` | src/lib.rs:257-260 | each request records the whole section and returns the model's answer to the n-th request |
| `Pipeline.ProgressLog.Send` | src/lib.rs:271-274 | every progress report is appended to the channel's log |
| `Pipeline.LookupSection` | src/lib.rs:244-246 | the lookup loop does what `Lookups` says |
| `Pipeline.InsertPairs` | src/lib.rs:262-264 | the insert loop does what `Inserts` says |
| `Pipeline.TranslateSection` | src/lib.rs:244-274 | one iteration of the loop does what `ProcessSection` says |
| `Pipeline.RunLoop` | src/lib.rs:243-278 | the loop and `finalize` do what `RunAndFinalize` says |
| `Pipeline.OpenAndRun` | src/lib.rs:231-278 | opening the cache, the generator check, building the model, the loop and `finalize` do what `WithCache` says |
| `Pipeline.Translate` | src/lib.rs:209-281 | the whole run does what `PipelineSpec` says: the missing-input, directory, parse and cache checks in order, then `WithCache` |
| `Utils.SubstrUpToLen` | src/utils.rs:3-9 | the result is the first `min(max_len, count)` graphemes; it is a prefix of the text; it is the whole text when the text has at most `max_len` bytes or at most `max_len` graphemes |

## Left out

- **The external converter.** Converting the input to markdown (src/parser/pandoc.rs:22-34) and converting the working file into the output (src/generator/pandoc.rs:89-99) are external processes:
  - the parser's markdown is an input string;
  - the parser's own result is an input of the service;
  - a conversion is recorded in the generator's state, and whether it fails is a constant.
- **Opening the database.** `Connection::open` and `CREATE TABLE` (src/cache.rs:17-33) are the `cacheOpens` input. SQLite errors are one abstract `DatabaseError`.
- **Async and other runtime machinery.**
  - Async execution, `tokio::time::sleep` and the HTTP client are left out.
  - The best-effort thread cleanup in `Drop` (src/llm/openai.rs:138-153) is left out.
  - `ExponentialBackoff`'s timing and jitter are left out. A schedule is a finite sequence of delays, and the delays are not used.
- **Assistant settings.** The prompt (`cfg_to_prompt`), `temperature`, `top_p` and the model name are not modelled.
- **Logging.** Logging is left out, including the `substr_up_to_len` calls and the `unwrap`s inside log arguments.
- **Other code.** The GUI and threads (src/main.rs), the stub models (src/llm/playground.rs, src/llm/dummy.rs) and the config-reading wrapper (src/lib.rs:21-54) are not modelled.
- **Display impls.** The `Display` impls of the errors are not modelled. An error carries a structured cause instead of a message.
- **Directory creation and the generator builder.**
  - `create_dir_all` is the `outputDirFails` input.
  - src/lib.rs:234 calls `build(output)` with a signature that differs from src/generator/pandoc.rs:17-22. The service therefore takes the outcome of building the generator as an input, and `Generator.Build` models the builder's decision separately.
- **Resuming a translation.** The sections `build` returns as already translated are never used by the loop of src/lib.rs:243-275, so nothing resumes from them.
- **Unicode.**
  - `\p{Uppercase}` is modelled as A-Z, U+00C0-U+00DE except U+00D7, the unaccented Greek capitals U+0391-U+03A9 and the Cyrillic capitals U+0400-U+042F.
  - Every other upper case letter is missed, among them the accented Greek capitals (U+0386, U+0388-U+038F), U+03CF-U+03FF, the Cyrillic capitals U+0460-U+04FF such as U+0490, and Latin Extended. A sentence break before a word that starts with one of them (such as "Έτσι") is missed by the model, and the source finds it.
  - `to_lowercase` maps exactly those letters to their lower-case forms. Σ always becomes σ: the final-sigma rule of `str::to_lowercase` (ς at the end of a word) is not modelled.
  - `Utils.SubstrUpToLen` takes the text already split into grapheme clusters: the Unicode segmentation rules are not modelled.
- **Service scripts.**
  - A reply that asks for a tool call (`RequiresAction`), an incomplete run without a reason, and a list with `has_more` all make the source panic. They are preconditions here.
  - When a script runs out before a call returns, the outcome is `Pending`, where the service would go on waiting.
- **I/O error kinds.** A failing `create_dir_all`, `File::create` or `write_all` is `IoError(OtherIo)`. The source passes on the `std::io::Error`'s own kind (PermissionDenied, NotFound, ...). Only the kinds the source creates itself, AlreadyExists and NotFound, are distinguished.
- **Failed writes.** A failed write is taken to write nothing. Partial writes of `write_all` are not modelled.
- **Paths.** A path is a stem and an optional extension.
- `OpenAi.Exchange`: reads the reply with the corrected `OpenAi.ReadReply`. A message with other than one content block fails with that block count, where src/llm/openai.rs:219-224 reports the number of messages, 1. `OpenAi.ReadReplyAsWrittenAgrees` shows that the two checks accept and reject the same replies, so only the count inside that one error differs.
- `OpenAi.TranslateOne`: returns what `OpenAi.Exchange` says, so its content-count error carries the corrected count.
- `OpenAi.Translate`: returns what `OpenAi.TranslateSection` says, over `OpenAi.Exchange`, so its content-count error carries the corrected count.
- `Generator.Build`: the parse of an existing working file is the segmenter applied to the markdown the converter made of it, given as an input string.
- `Pipeline.ScriptedLlm.Translate`: the model of the service takes the whole section in one request. What one such request does inside, subsection by subsection, is `OpenAi.Translate`.
- `Segmenter.CutPieces`: only the last subsection of a paragraph is promised to fit the limit, because the code cuts only the remainder. `Segmenter.CutPieceMayExceedLimit` shows a piece longer than the limit. The code is followed here.

## Findings

| source | as written | input that shows it | evidently intended | confidence | as-written member | corrected member |
|---|---|---|---|---|---|---|
| src/llm/openai.rs:219-224 | the error for a reply message without exactly one content block reports `msgs.data.len()`, the number of messages, which is always 1 at that point | one message with two text blocks: the error says the message has 1 section | report `msg.content.len()`, here 2 | high (not executed) | `OpenAi.ReadReplyAsWrittenMiscounts` | `OpenAi.ReadReply` |
