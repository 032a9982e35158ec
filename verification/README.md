# ModSecurity proxy-wasm filter: a verified model

This project models the parts of the filter where state, order and arithmetic matter, and proves what
they are there for. `dafny verify dfyconfig.toml` checks everything.

1. **One stream** (`StreamModel`, `StreamInvariants`, `StreamRuns`, `StreamReplies`, `StreamLaws`,
   `StreamScripts`, `StreamFlags`, `ModSecContext`). The host callbacks drive a transaction of the engine
   through flags, two body cursors, a message cursor and a capped export list. `StreamModel` gives every
   callback as a function on the stream's state and on the trace of everything it asks of the engine, the
   metrics and the host; `ModSecContext` is the object with updated fields and the worker's shared
   active-context pointer, proved equal to it call by call. `StreamScripts` has the table of the engine
   calls of each callback, and `StreamLaws` what statuses verdicts and replies have. The engine is an
   arbitrary function of everything that happened so far: it appends messages, calls the log callback and
   gives verdicts as it likes.
2. **The bodies on their way to the engine** (`BodyDelivery`, `ResponseDelivery`, `Fullwidth`).
3. **A worker** (`WorkerModel`): any number of streams, their callbacks interleaved in any way, one
   active-context pointer.
4. **The directive loader** (`LoaderModel`, `LoaderLines`, `LoaderWords`, `ConfigLoader`, `LoaderShapes`,
   `LoaderPacking`, `LoaderRefinement`, `LoaderHistories`): the scheduler with a 4096-byte batch, its chunk
   shapes, its refinement of the plain expander in the same source file, and when it fails closed.
5. **Decoders and scanners** (`Base64`, `Inflate`, `JsonScan`, `JsonText`, `JsonMeaning`, `DirectiveList`,
   `LogLine`, `DataFiles`, `DataFileText`).
6. **Metrics** (`MetricsModel`, `Metrics`, `MetricsNames`, `MetricsCaps`, `MetricsSeries`, `MetricsLedger`,
   `MetricsRuns`, `MetricsTwins`, `MetricsTotals`, `WorkerMetrics`): lazily defined counters, capped families,
   mirrored prefixes, the series each event counts, and what the counters of a worker say about its streams.
7. **WebAssembly memory limits** (`WasmMemory`): LEB128 and the section walk of the measuring script.

Loops and objects of the source are methods and classes; each is proved equal to a function, and the
theorems are lemmas about those functions.

## What was found

- A verdict with a status is not always answered. One taken in a callback is answered at once, by a local
  reply or a replaced body, if and only if the callback is not the deletion of the stream and, when it
  carries the response body, its buffer is neither empty nor unavailable (`StreamReplies.EveryVerdict`).
  `StreamReplies.TrailersWithoutBuffer` and `StreamReplies.DeletedUnanswered` are legal runs in which a
  forbidden response passes.
- A catalog asset loaded through the OWASP glob whose rejection carries an empty message goes unnoticed,
  and the configuration applies (`LoaderRefinement.SilentRejectionApplies`). It can happen only in that
  way (`LoaderRefinement.AppliedMeansAccepted`). Whatever the loader remembers of earlier chunks, a
  configuration that applies had every chunk accepted, for all catalogs and directives, if and only if no
  asset that a glob reaches after accepted chunks is rejected without a message
  (`LoaderHistories.FailsClosedExactly`); a loader that gives reasons for those assets, as the filter's own
  does, fails closed (`LoaderRefinement.FailsClosed`).
- A directive of several lines without Includes is given to the loader as the expander writes it if and
  only if all its lines are comments, or each of its lines is non-empty, already trimmed and no comment
  (`LoaderRefinement.BlobTextsAgree`): two rules agree, a comment before a rule or an indented line does
  not (`LoaderRefinement.SomeBlobs`). An Include line inside a blob is followed by the loader and is text to
  the expander (`LoaderRefinement.BlobWalks`, `LoaderRefinement.IncludeInBlob`).
- A JSON string of the directive list is extracted as it is meant (section 7 of RFC 8259) if and only if it
  is not spelled with `\b`, `\f` or a `\u` escape (`JsonMeaning.ExtractorReadsAsMeant`,
  `DirectiveList.ExtractsAsMeant`): of those only the character after the backslash is kept. The writer of
  the generated configurations so spells every character outside printable ASCII but newline, return and
  tab, and a directive with such a character comes back changed: U+00E9 is read as `u00e9` (`JsonMeaning.AccentIsLost`,
  `DirectiveList.GeneratedListReadsBack`).
- A line end between a name of the data_files object and its value, which JSON allows, makes the whole
  object fail (`DataFileText.LineEndRefused`); without one every object of strings is read
  (`DataFileText.PrintedObjectReads`). Names are taken as spelled, and of an escape in a value the character
  after the backslash (`DataFiles.NameAsMeant`, `DataFiles.PayloadAsMeant`).
- A part of a body that the host reports but does not let the filter read is skipped for good: the cursor goes
  to the end of the buffer (`StreamFlags.RequestChunkLeaves`, `StreamFlags.ResponseChunkLeaves`).
- A configuration of comments only is applied without a call of the loader, and is a failure for the expander
  (`LoaderRefinement.ChunkedLoadIsExpansion`).
- Folding a body chunk by chunk is the fold of the body exactly when no encoded form lies across a chunk
  boundary (`Fullwidth.FoldByChunks`).
- A control character other than newline, return and tab is escaped by the logger as six characters that
  the extractor reads back as five (`JsonText.UnescapeInvertsEscape`).
- With both prefixes on and a host that grants or refuses by name, the counters under the two prefixes
  agree after every run if and only if the host treats alike the two names of each counter that the
  options let the registry count (`MetricsTwins.TwinsAgreeExactly`). Pairs refused together stay even,
  and capped families are included, because slots are taken in pairs and both caps are even. A host that
  grants one prefix only makes them drift at the first allowed transaction (`MetricsTwins.OnePrefixDrifts`).
- LEB128 numbers are read up to six bytes, so reading inverts encoding exactly below 2^42.

## Assumptions

The host calls the request-headers callback at most once per stream, response callbacks only after
response headers, and nothing after deletion (`StreamModel.Next`). The engine's log callback fires only
for non-disruptive matches, and asking for an intervention appends no message. A verdict may carry any
status; one with status 0 is counted as an interruption and not answered. zlib consumes input or
produces output whenever it reports success. Configurations are generated by Python's `json.dumps` with its
default of ASCII output (`JsonMeaning.DumpChar`).

## Model

| member | source | states |
|---|---|---|
| `StreamRuns.WholeRun` | src/modsecurity_proxy_wasm.cc:1128-1515 | Every legal run from request headers to deletion, whatever the engine does, ends with the request-body phase and the logging phase run once; the response-body phase once, or not at all exactly if a verdict with a status on the response body, taken before that phase ran, sanitized the response; the request-body phase before every response phase; every disruptive message recorded once and in list order; the last disruptive rule id equal to the last of them; one tx.total; one tx.allowed unless interrupted |
| `StreamRuns.EveryMoment` | src/modsecurity_proxy_wasm.cc:908-1126 | In every reachable state the sanitized counter rose at most once, phases are in order, the export list is at most 16 long and no match reached the wrong stream; while the transaction is open, the sanitized flag implies a closed body phase and an interruption, the message cursor is inside the list, and exactly the disruptive messages before it are recorded |
| `StreamRuns.LaterMoments` | src/modsecurity_proxy_wasm.cc:775-1000 | Between any two moments of a run the cursor does not go back, nothing recorded or observed is taken back, and the first fifteen export entries are never displaced |
| `StreamRuns.SanitizedStaysSanitized` | src/modsecurity_proxy_wasm.cc:1440-1456 | After the first sanitization every later response buffer that is not empty is replaced whole, the counter does not rise again and the engine is not asked |
| `StreamInvariants.InterventionKeeps` | src/modsecurity_proxy_wasm.cc:958-1000 | Asking for a verdict keeps all invariants and drains the message list first; every verdict, the first or a later one, leaves its own entry, with its phase and the last disruptive rule, at the end of the export list |
| `StreamInvariants.CatchUp` | src/modsecurity_proxy_wasm.cc:931-956 | Recording what lies beyond the cursor, all of it or the disruptive part, leaves the books caught up with the engine's list |
| `StreamInvariants.PhaseCall` | src/modsecurity_proxy_wasm.cc:1079-1111 | A phase run adds one to the count of its own phase and to nothing else |
| `StreamInvariants.OrderedMeans` | src/modsecurity_proxy_wasm.cc:1344-1360 | In an ordered trace each response phase has the request-body phase before it, and each request-body byte has not |
| `StreamRuns.HandleKeeps` | src/modsecurity_proxy_wasm.cc:1128-1515 | Any callback that the host may make at a stage keeps the invariant of that stage |
| `StreamRuns.SanitizeKeeps` | src/modsecurity_proxy_wasm.cc:1113-1126 | The first sanitization closes the body phase and is counted once, and the body is replaced if and only if the buffer is not empty |
| `StreamReplies.EveryVerdict` | src/modsecurity_proxy_wasm.cc:1113-1126 | In every run, for every engine: a verdict with a status taken in a callback is answered at once, by a local reply or a body replaced at a length above zero, if and only if the callback is not the deletion and, where it carries the response body, the buffer is neither empty nor unavailable; a local reply to it has its status, or 403 if that is outside 100 to 599; and whenever a trace ends in a verdict with nothing but its answer after it, the export list ends in its tx_interrupt entry |
| `StreamReplies.HandleReplies` | src/modsecurity_proxy_wasm.cc:1128-1515 | The same of one callback from any state: all verdicts with a status taken in it are answered, or none is, and a local reply has the status of its verdict or 403 |
| `StreamLaws.EveryRunIsLawful` | src/modsecurity_proxy_wasm.cc:908-1017 | In every run, for every engine: a verdict comes right after the question, whenever the engine has one, with the configured status if that is in 100 to 599 and the engine's own otherwise, and with the last disruptive rule recorded before it; a local reply comes right after a verdict with a status and has that status, or 403 outside 100 to 599; the export list is, of the entries of all matches and verdicts in order, the first fifteen and the latest disruptive one |
| `StreamLaws.HandleLawful` | src/modsecurity_proxy_wasm.cc:1128-1515 | Any callback keeps those laws |
| `StreamScripts.HandleFollows` | src/modsecurity_proxy_wasm.cc:1128-1515 | From any state, for any engine, a callback makes exactly the engine calls of its line in a table, in order and with their arguments (path, headers and request chunks folded if the option is on), up to the verdict with a status that stops it, each verdict under the phase it was asked for, and returns the filter status of the table |
| `StreamScripts.RequestHeadersGiven` | src/modsecurity_proxy_wasm.cc:1190-1285 | Request headers that are let through have told the engine the connection, the path and method, each header with its value in order, Host if one was derived, and, exactly if no body is awaited, the request-body phase |
| `StreamScripts.RequestHeadersClose` | src/modsecurity_proxy_wasm.cc:1255-1285 | Request headers that are let through run the request-body phase exactly if no body is announced and the stream ends here or the method is GET, HEAD, OPTIONS or TRACE |
| `StreamScripts.ResponseHeadersGiven` | src/modsecurity_proxy_wasm.cc:1344-1408 | Response headers that are let through have told the engine the skipped request-body phase, each header with its value in order, the status code, and, exactly if no body is announced and the stream ends here or the status is below 200, 204 or 304, one zero byte and the response-body phase |
| `StreamFlags.HandleLeaves` | src/modsecurity_proxy_wasm.cc:1128-1515 | Which callbacks make their stream the worker's active one, and which leave the pointer as it was; only request headers open a transaction and only deletion closes it |
| `StreamFlags.RequestChunkLeaves` | src/modsecurity_proxy_wasm.cc:1036-1058 | A request chunk that is not the last moves the cursor past the bytes read, or to the end of a buffer that could not be read, and changes no other flag |
| `StreamFlags.ResponseChunkLeaves` | src/modsecurity_proxy_wasm.cc:1060-1077 | So does a response chunk, unless a verdict with a status closes the response |
| `StreamReplies.VerdictStrikes` | src/modsecurity_proxy_wasm.cc:958-1000 | From any state whatever, a verdict is the last thing that asking for one adds to the trace, and its entry the last of the export list |
| `StreamReplies.TrailersWithoutBuffer` | src/modsecurity_proxy_wasm.cc:1410-1438 | A legal run whose response trailers come without a buffer: a verdict of 403 is taken, and in the whole run no reply is sent and no body replaced |
| `StreamReplies.DeletedUnanswered` | src/modsecurity_proxy_wasm.cc:1490-1515 | A legal run deleted before its request body came: the late verdict is 403, and in the whole run no reply is sent and no body replaced |
| `WorkerModel.EveryInterleaving` | src/modsecurity_proxy_wasm.cc:1490-1515 | For every interleaving of any number of streams: tx.total = tx.allowed + streams ended interrupted + streams open, at least one interruption counted for each interrupted stream; the active pointer never names a deleted stream and no match is delivered to another stream; each stream whose latest act is a verdict, or the answer to one, has that verdict's entry at the end of its export list |
| `WorkerModel.PointerMoves` | src/modsecurity_proxy_wasm.cc:1490-1515 | After a callback the active pointer is at its stream if it had something to do, nowhere if it deleted an open stream, whichever was active, or the active one, and otherwise where it was |
| `WorkerModel.HostKeeps` | src/modsecurity_proxy_wasm.cc:696-698 | One callback of one stream keeps the worker's accounting, attribution and export entries |
| `BodyDelivery.RequestReachesEngine` | src/modsecurity_proxy_wasm.cc:1036-1058 | From request headers on: the chunks fed to the engine are the body, each byte once and in order, each chunk folded by itself; the engine sees the fold of the whole body exactly when no encoded form straddles a chunk boundary; nothing fed later changes that |
| `BodyDelivery.BodyReachesEngine` | src/modsecurity_proxy_wasm.cc:1287-1342 | The same from any state that is ready for the body, ended by the flag on the last chunk or by trailers |
| `BodyDelivery.CutShort` | src/modsecurity_proxy_wasm.cc:1344-1360 | A body cut short by response headers or by deletion: the engine has seen exactly the chunks delivered until then, and sees nothing more of it |
| `BodyDelivery.ChunksCover` | src/modsecurity_proxy_wasm.cc:1036-1058 | The parts of growing buffers beyond the cursor make up the final buffer |
| `ResponseDelivery.ResponseReachesEngine` | src/modsecurity_proxy_wasm.cc:1410-1479 | A response body in growing buffers, ended by the flag or by trailers: what the engine is fed is the body as it stood after k buffers, each byte once and in order, and that is all of it unless a verdict struck at the k-th buffer and at none before; no later callback feeds more |
| `ResponseDelivery.ResponseHeadersFeed` | src/modsecurity_proxy_wasm.cc:1344-1408 | Response headers that are let through feed one zero byte and close the response-body phase if and only if no body is announced and the stream ends here or the status is below 200, 204 or 304; otherwise they feed nothing and leave the phase as it was |
| `ModSecContexts.ModSecContext.OnRequestHeaders` | src/modsecurity_proxy_wasm.cc:1128-1285 | New state and reply are those of the stream model: phases and verdicts in order, the early logging phase, stop on a block |
| `ModSecContexts.ModSecContext.OnRequestBody` | src/modsecurity_proxy_wasm.cc:1305-1342 | New state and reply are those of the stream model, the body cursor included |
| `ModSecContexts.ModSecContext.OnRequestTrailers` | src/modsecurity_proxy_wasm.cc:1287-1303 | New state and reply are those of the stream model |
| `ModSecContexts.ModSecContext.OnResponseHeaders` | src/modsecurity_proxy_wasm.cc:1344-1408 | New state and reply are those of the stream model, a skipped request-body phase run first |
| `ModSecContexts.ModSecContext.OnResponseBody` | src/modsecurity_proxy_wasm.cc:1440-1479 | New state and reply are those of the stream model, replacement of interrupted bodies included |
| `ModSecContexts.ModSecContext.OnResponseTrailers` | src/modsecurity_proxy_wasm.cc:1410-1438 | New state and reply are those of the stream model |
| `ModSecContexts.ModSecContext.OnLog` | src/modsecurity_proxy_wasm.cc:1481-1488 | New state is that of the stream model |
| `ModSecContexts.ModSecContext.OnDelete` | src/modsecurity_proxy_wasm.cc:1490-1515 | New state is that of the stream model: skipped phases are run, the transaction is counted, the pointer is released |
| `ModSecContexts.ModSecContext.ProcessIntervention` | src/modsecurity_proxy_wasm.cc:958-1000 | New state and status are those of the stream model |
| `ModSecContexts.ModSecContext.FlushNewRuleMessages` | src/modsecurity_proxy_wasm.cc:931-956 | Exactly the disruptive messages beyond the cursor are recorded |
| `ModSecContexts.ModSecContext.RunLoggingPhaseIfNeeded` | src/modsecurity_proxy_wasm.cc:1090-1111 | The logging phase runs once, then all messages beyond the cursor are recorded |
| `ModSecContexts.ModSecContext.SanitizeInterruptedResponseBody` | src/modsecurity_proxy_wasm.cc:1113-1126 | A buffer that is not empty is replaced, and the sanitization is counted the first time only |
| `ModSecContexts.ModSecContext.StashExportMatch` | src/modsecurity_proxy_wasm.cc:775-798 | The list grows to sixteen; then only the latest disruptive match may take the last place |
| `ModSecContexts.ModSecContext.RecordRuleMatch` | src/modsecurity_proxy_wasm.cc:908-929 | One record, one export entry, and the last disruptive rule id |
| `ModSecContexts.WorkerThread.LogCallback` | src/modsecurity_proxy_wasm.cc:431-444 | The match goes to the worker's active stream, whichever that is; without one no stream changes and the match is only logged |
| `ModSecContexts.ModSecContext.Dispatch` | src/modsecurity_proxy_wasm.cc:1128-1515 | Any callback changes the object as the stream model does and replies as it does; afterwards the worker's active stream is this one, none if this one gave up the place or was deleted while open, or the one before |
| `ModSecContexts.ServeStream` | src/modsecurity_proxy_wasm.cc:1128-1515 | A new object led through any legal callbacks from request headers to deletion ends in the state of the stream model, with its books balanced as in `StreamRuns.WholeRun` |
| `Fullwidth.NormalizeFullwidthAsciiInPlace` | src/modsecurity_proxy_wasm.cc:133-191 | The string in place becomes its fold; the fast path for plain text changes nothing |
| `Fullwidth.MayContainFullwidth` | src/modsecurity_proxy_wasm.cc:124-131 | False only if no byte could begin an encoded form |
| `Fullwidth.FoldOfPlainBytes` | src/modsecurity_proxy_wasm.cc:124-137 | Without such a byte folding is the identity |
| `Fullwidth.RawTokenIsUtf8` | src/modsecurity_proxy_wasm.cc:139-158 | The byte tables recognise exactly the three-byte UTF-8 forms of U+FF01 to U+FF5E, with their ASCII value |
| `Fullwidth.EscapedTokenIsPercentEncodedRaw` | src/modsecurity_proxy_wasm.cc:159-187 | The percent form is recognised exactly when its three octets are a raw form, in either hex case |
| `Fullwidth.FoldInvertsEncoding` | src/modsecurity_proxy_wasm.cc:105-191 | For every mix of bytes sent as they are and raw or percent-encoded forms of the characters 0x21 to 0x7E, folding gives the text back if and only if no byte sent as it is begins, with the bytes after it, an encoded form; otherwise the result is shorter |
| `Fullwidth.OtherBytesAreUnmistaken` | src/modsecurity_proxy_wasm.cc:139-187 | Only the bytes 0xEF and '%' can begin one |
| `Fullwidth.FoldShrinksByTokens` | src/modsecurity_proxy_wasm.cc:133-191 | The output is shorter by 2 for each raw fold and 8 for each percent fold |
| `Fullwidth.SafeCut` | src/modsecurity_proxy_wasm.cc:133-191 | fold(a+b) = fold(a)+fold(b) if and only if no encoded form lies across the cut |
| `Fullwidth.FoldByChunks` | src/modsecurity_proxy_wasm.cc:133-191 | The same for any number of chunks |
| `LoaderWords.RequestsChainMeans` | src/waf_config.cc:777-784 | A line requests a chain if and only if `chain` stands in it after a comma and before a quote, a comma, a newline or its end, or alone between two quotes |
| `LoaderWords.NoChainWord` | src/waf_config.cc:777-784 | A line without the word requests none |
| `LoaderWords.PhraseFileMeans` | src/waf_config.cc:769-775 | A phrase-file line is one that contains `@pmFromFile` or `@ipMatchFromFile` |
| `LoaderWords.CommentsAreSkipped` | src/waf_config.cc:786-788 | A line that is empty or begins with `#` changes nothing wherever it stands among other lines, for any loader and for the expander |
| `LoaderWords.IncludeLine` | src/waf_config.cc:790-799 | An Include line has the pending batch loaded first, stopping if that is rejected, and then its target resolved, white space apart |
| `LoaderWords.IncludeNames` | src/waf_config.cc:655-707 | `@demo-conf`, `@ftw-conf`, `@crs-setup-conf` and `@owasp_crs/` followed by a name load and write the first catalog asset of that very path, once and unless it is empty, and fail without one, each with its own error; `@kubewaf-defaults` falls back to the built-in text; any other target fails |
| `LoaderWords.GlobLoads` | src/waf_config.cc:637-690 | For any loader, `@owasp_crs/*.conf` makes a call for each non-empty asset whose path begins with `@owasp_crs/`, other than `_all.conf`, in the order of the catalog, each path once and none seen before, up to the first rejected; it fails without such assets, and otherwise if and only if an error text is set |
| `Text.TrimIs` | src/waf_config.cc:38-44 | Any white space of the C locale around a text that has none at its ends is trimmed |
| `LoaderRefinement.ChunkedLoadIsExpansion` | src/waf_config.cc:709-972 | For directives of one line, and blobs without Includes whose lines read alike split and whole, and an accepting loader, both walks get through or stop at the same Include with the same error; the loader is given, joined, the text of the same rules and assets that the expander writes, which adds a newline after an asset and fails as well if nothing is written |
| `LoaderRefinement.BlobTextsAgree` | src/waf_config.cc:718-740 | For a directive of any number of lines without Includes, what the loader is given equals what the expander writes if and only if all its lines are comments, or each is non-empty, already trimmed and no comment |
| `LoaderRefinement.SomeBlobs` | src/waf_config.cc:946-972 | Two rules read alike; a comment and a rule, or a rule and an indented rule, do not |
| `LoaderRefinement.BlobWalks` | src/waf_config.cc:718-740 | Any directive whatever: the loader is given the items of its lines or stops at the first Include among them that is missing; the expander writes the directive as text, drops it as a comment, or takes all of it for one Include, which fails if more lines belong to the target |
| `LoaderRefinement.IncludeInBlob` | src/waf_config.cc:946-972 | A rule and an Include of a missing asset in one blob: the loader fails and the expander writes both lines |
| `LoaderLines.SplitOfTrimmed` | src/waf_config.cc:516-536 | A directive splits into the trimmed non-empty physical lines of its trimmed text |
| `LoaderLines.KeptIsShorter` | src/waf_config.cc:516-536 | Dropping comments and trimming lines shortens a text unless every line is whole, and then changes nothing |
| `LoaderRefinement.NoAssetTwice` | src/waf_config.cc:589-610 | No catalog asset is given to the loader twice, however globs and Includes overlap |
| `LoaderRefinement.AppliedMeansAccepted` | src/waf_config.cc:637-707 | For any loader, if the configuration applies, every rejected chunk was a non-empty asset behind the glob, rejected with an empty message |
| `LoaderHistories.FailsClosedExactly` | src/waf_config.cc:581-707 | For every loader, whatever it remembers: over all catalogs and directives, an applied configuration had every chunk accepted, if and only if no asset that a glob reaches, after directives that apply and with everything accepted so far, is rejected with an empty message |
| `LoaderRefinement.FailsClosedByItself` | src/waf_config.cc:581-707 | For loaders that judge each chunk by itself the condition is that no non-empty OWASP asset other than _all.conf is rejected with an empty message |
| `LoaderRefinement.FailsClosed` | src/waf_config.cc:581-610 | With any loader that gives reasons for the assets of the glob the configuration applies only if every chunk was accepted |
| `LoaderRefinement.SilentRejectionApplies` | src/waf_config.cc:637-645 | Whenever a non-empty asset behind the glob is rejected without a message as the first chunk, a one-line configuration applies although its only chunk was rejected |
| `LoaderRefinement.GlobLine` | src/waf_config.cc:655-707 | A line that leads there exists |
| `LoaderLines.SingleLine` | src/waf_config.cc:516-536 | A directive whose trimmed text has no newline splits into that text |
| `LoaderShapes.EveryChunkIsShaped` | src/waf_config.cc:746-848 | Every inline chunk given to any loader has exactly one of three shapes: a chain group, a lone phrase-file line, or a plain batch, which fits 4096 bytes if it has several lines |
| `LoaderShapes.OnlyIncludesCut` | src/waf_config.cc:746-848 | In any run, a chunk whose last line still asks for a continuation was the batch that an Include line or the end of the input found pending |
| `LoaderShapes.ChainStaysWhole` | src/waf_config.cc:762-848 | In any run, accepted or not, that gets past a line requesting a chain: the next call of the loader is for the batch that ends in that line, followed by the next rule line, whatever comments lie between and whether or not that one requests a continuation itself |
| `LoaderPacking.StretchIsGreedy` | src/waf_config.cc:743-848 | In a stretch of plain lines the chunks hold those lines in order, chunks of several lines fit 4096 bytes, no two neighbours would have fitted together, and k chunks need 4096*floor(k/2) bytes of text |
| `ConfigLoaders.SplitLines` | src/waf_config.cc:516-536 | The non-empty trimmed lines of a text, in order |
| `ConfigLoaders.ApplyDirectives` | src/waf_config.cc:709-849 | The loop with its batch, pending flag and seen set makes the calls of the loader model and ends with its verdict |
| `ConfigLoaders.ExpandDirectives` | src/waf_config.cc:946-972 | The loop writes the text of the expansion model, an empty text failing |
| `ConfigLoaders.ConfigLoader.ResolveInclude` | src/waf_config.cc:655-707 | Include targets resolve, load and mark assets as in the loader model |
| `ConfigLoaders.ConfigLoader.ApplyOneLine` | src/waf_config.cc:746-842 | One line changes batch, pending flag and calls as in the loader model |
| `ConfigLoaders.Expander.ResolveInclude` | src/waf_config.cc:873-944 | Include targets expand as in the expansion model |
| `Base64.Decode` | src/waf_config.cc:446-475 | The loop with the wrapping, never masked 32-bit accumulator decodes four digits to three octets, and fails as the specification does |
| `Base64.DigitStep` | src/waf_config.cc:456-472 | The wrapped accumulator agrees with the unbounded value of the digits in every bit the loop looks at |
| `Base64.OctetsAreTheValue` | src/waf_config.cc:446-475 | The octets are the unbounded base-64 value of the digits without the left-over bits |
| `Base64.FailsExactlyOnStrangers` | src/waf_config.cc:446-475 | Failure exactly on a character outside the alphabet, white space and '='; length floor(6n/8) for n digits |
| `Base64.EncodeDecodes` | src/waf_config.cc:446-475 | The digits of the encoding of section 4 of RFC 4648 decode to the octets |
| `Base64.RoundTrip` | src/waf_config.cc:446-475 | Decoding inverts encoding with or without padding and with white space anywhere |
| `Inflate.GzipInflate` | src/waf_config.cc:478-514 | Terminates, and succeeds exactly on the non-empty streams that end within 32 MiB, with their output |
| `JsonScan.FindJsonObjectEnd` | src/waf_config.cc:51-88 | The index found by the specification scanner |
| `JsonScan.FindJsonArrayEnd` | src/waf_config.cc:313-350 | The index found by the specification scanner |
| `JsonScan.ObjectEndIsExact` | src/waf_config.cc:51-88 | For every JSON object (RFC 8259) printed with any white space and followed by anything, exactly its closing brace |
| `JsonScan.ArrayEndIsExact` | src/waf_config.cc:313-350 | For every JSON array, exactly its closing bracket |
| `JsonText.JsonEscape` | src/modsecurity_proxy_wasm.cc:328-359 | The escaped text, character by character |
| `JsonText.ReadStringAt` | src/waf_config.cc:289-310 | Text and end of a string whose opening quote was just passed |
| `JsonText.UnescapeInvertsEscape` | src/modsecurity_proxy_wasm.cc:328-359 | Reading an escaped text stops at its closing quote and gives the text back if and only if its only control characters are newline, return and tab; each other one makes it four characters longer |
| `JsonText.LossyIsRead` | src/modsecurity_proxy_wasm.cc:349-353 | A control character without a short escape is read back as the letter u, two zeros and its two lower-case hexadecimal digits |
| `JsonText.UnitsRead` | src/waf_config.cc:289-310 | Any spelled string is read up to exactly its closing quote, one character for each escape |
| `JsonMeaning.ExtractorReadsAsMeant` | src/waf_config.cc:289-310 | Of any string of the grammar in section 7 of RFC 8259 the text read is, in UTF-16, the one meant if and only if it has no `\b`, `\f` or code unit escape |
| `JsonMeaning.LoggerSpells` | src/modsecurity_proxy_wasm.cc:328-359 | Whatever text is logged, the escaped form is a string of that grammar and means the text |
| `JsonMeaning.DumpReadsBack` | test/integration/generate-crs-path-b-config.py:538-538 | A text that the generator writes is read back if and only if it consists of printable ASCII, newlines, returns and tabs |
| `JsonMeaning.AccentIsLost` | test/integration/generate-crs-path-b-config.py:538-538 | The generator's spelling of U+00E9 means that character and is read as five others |
| `JsonText.ExtractDirectiveArray` | src/waf_config.cc:353-412 | The items of the profile's array, empty strings dropped |
| `DirectiveList.ExtractsPrintedList` | src/waf_config.cc:368-412 | Any list of strings printed as a JSON array, in any layout and spelled with any escapes, is extracted as its non-empty strings in order, each read as the extractor reads escapes |
| `DirectiveList.ExtractsAsMeant` | src/waf_config.cc:368-412 | For strings of the grammar of RFC 8259 the extracted list is, string by string, the list that was meant if and only if none is spelled with `\b`, `\f` or a code unit escape |
| `DirectiveList.GeneratedListReadsBack` | test/integration/generate-crs-path-b-config.py:488-538 | Non-empty directives as the generator writes them, in any layout, are extracted unchanged if and only if all their characters are printable ASCII, newlines, returns or tabs |
| `DirectiveList.ProfileValueIs` | src/waf_config.cc:353-366 | Where the value of a profile starts |
| `LogLine.RecordEndsBeforeTail` | src/modsecurity_proxy_wasm.cc:700-773 | For every log line the object-end scanner stops exactly at the record, which is the JSON object of the fields; what follows is, for a rule number above zero and a message, `[id "N"] [msg "M"]` with N in decimal and M at most 180 characters of the message, quotes, brackets and control characters blanked, and otherwise nothing |
| `LogLine.QuotedValueReadsBack` | src/modsecurity_proxy_wasm.cc:328-359 | Every quoted value reads back as the text logged, control characters apart |
| `LogLine.ClassicLogSanitize` | src/modsecurity_proxy_wasm.cc:96-110 | The first characters with quotes, brackets and control characters blanked |
| `DataFiles.ExtractDataFilesObject` | src/waf_config.cc:1159-1222 | The members of the data_files object, the last of a name winning, or the failure that ends the scan; terminates on every text |
| `DataFiles.ExtractStringValue` | src/waf_config.cc:280-311 | The unescaped value of the first occurrence of a key |
| `DataFiles.StringMemberRead` | src/waf_config.cc:280-311 | If the key first occurs in quotes at one place, the first colon after it at another and the first quote after that opens a spelled string, the value is that string with its escapes undone |
| `DataFiles.GivenIsRead` | src/waf_config.cc:280-311 | So it is for any text that gives a string for the key, and the value is empty if the quoted key occurs nowhere |
| `DataFiles.DecodeFiles` | src/waf_config.cc:1244-1272 | In whatever order the map is walked: succeeds exactly when all values decode and their sizes sum to at most 2 MiB, with every file decoded |
| `DataFiles.TotalSplits` | src/waf_config.cc:1244-1272 | The sum of the sizes does not depend on the order |
| `DataFiles.ParseDataFiles` | src/waf_config.cc:1224-1275 | The files, or a failure to read the object or to keep the budget |
| `DataFiles.MembersRead` | src/waf_config.cc:1173-1219 | Members written in order, with any white space and any JSON strings, are all read if in none of them a line ends between the name and the value; otherwise the whole object is refused |
| `DataFileText.PrintedObjectReads` | src/waf_config.cc:1173-1219 | The same of every JSON object (RFC 8259) whose values are strings, printed in any layout and followed by anything |
| `DataFileText.LineEndRefused` | src/waf_config.cc:1197-1202 | A valid object with a line end after the colon, which is refused |
| `DataFiles.PayloadAsMeant` | src/waf_config.cc:1204-1212 | A value is read as meant if and only if its only escapes are those of quote, backslash and slash |
| `DataFiles.NameAsMeant` | src/waf_config.cc:1187-1196 | A name is read as meant if and only if it has no escape |
| `DataFiles.ParsesWhatWasWritten` | src/waf_config.cc:1224-1275 | A configuration written from files in base64 under any names, deflated exactly if the string written for `data_files_encoding` is `gzip+base64` or `gzip`, parses back to those files if each name stands on one line with its value and all files together have at most 2097152 octets, and fails otherwise |
| `DataFiles.NothingWritten` | src/waf_config.cc:1159-1233 | A text that does not begin with a brace, or has no quoted `data_files`, has no files; a key with no brace after it is a failure |
| `Metrics.ModSecMetrics.Configure` | src/metrics.cc:31-49 | Definitions and counts forgotten, the label suffix rebuilt from the labels that pass the filter |
| `Metrics.ModSecMetrics.IncrementCounter` | src/metrics.cc:108-121 | A counter is defined on first use, and counted only if the host grants it |
| `Metrics.ModSecMetrics.TrackDistinct` | src/metrics.cc:164-173 | A slot for a new series unless the cap is reached |
| `Metrics.ModSecMetrics.TxTotal` | src/metrics.cc:175-181 | New registry state, the heap gauge recorded every hundredth time |
| `Metrics.ModSecMetrics.TxAllowed` | src/metrics.cc:183-185 | New registry state |
| `Metrics.ModSecMetrics.TxInterruption` | src/metrics.cc:187-218 | New registry state |
| `Metrics.ModSecMetrics.RuleMatch` | src/metrics.cc:220-289 | New registry state |
| `Metrics.ModSecMetrics.ResponseBodySanitized` | src/metrics.cc:291-293 | New registry state |
| `Metrics.ModSecMetrics.ConfigureFallbackRules` | src/metrics.cc:295-301 | Counted even while statistics are off, which stay off |
| `MetricsNames.SuffixIsSafe` | src/metrics.cc:14-45 | After the label filter no suffix begins with a label that a family of series uses, reserved keys included |
| `MetricsCaps.MatchesIsUntracked` | src/metrics.cc:14-29 | Thanks to the filter the one plain name that labels could make look like a series does not |
| `MetricsNames.SuffixIsKeptLabels` | src/metrics.cc:10-45 | The suffix of every series is the labels that are kept, in order: those with a reserved key, and those without an equals sign whose key neither is a word of the series nor ends in an underscore and one |
| `MetricsNames.SanitizedTagIs` | src/metrics.cc:92-106 | A tag gives its letters, digits, dots, dashes and underscores, a dash for each slash, or `unknown` if nothing is left |
| `MetricsNames.DecimalMeans` | src/metrics.cc:200-245 | Rule numbers and severities are written in decimal digits of that value, negative ones with a minus sign |
| `MetricsSeries.OpTells` | src/metrics.cc:175-301 | One operation tells a granting host to count exactly the series of a table of full names, in order, under one prefix or both: of a match those of its phase, severity, rule and interesting tags, each capped series only while it has or finds a slot below 512 or 128; nothing while statistics are off, the fallback counter apart; and at each hundredth transaction the heap gauge |
| `MetricsSeries.RunTells` | src/metrics.cc:31-301 | So it is for any operations after any configuration, which itself records the heap gauge |
| `WorkerMetrics.SeriesOfActs` | src/modsecurity_proxy_wasm.cc:908-1000 | What streams do is counted, act by act, in the series named after its own phase, rule, severity and tags |
| `MetricsRuns.EveryRunIsCapped` | src/metrics.cc:164-289 | In every reachable state, however the host answers and however often the plugin was configured before, rule series number at most the slots taken, which are at most 512; tag series 128 |
| `MetricsTwins.TwinsAgreeExactly` | src/metrics.cc:108-173 | With both prefixes on and a host that answers by name: after every run every counter shows the same number under both prefixes, capped ones included, if and only if the host grants or refuses together the two names of each counter that the options let the registry count |
| `MetricsTwins.TwinsAgree` | src/metrics.cc:31-49 | The same across any number of reconfigurations, each of them treated alike |
| `MetricsTwins.GrantedTwinsAgree` | src/metrics.cc:123-134 | In particular for a host that grants everything, whatever is configured and counted |
| `MetricsTwins.StepStaysEven` | src/metrics.cc:108-134 | For any host, one count leaves equal twins equal if and only if both names end up defined or neither does |
| `MetricsTwins.OnePrefixDrifts` | src/metrics.cc:183-185 | With a host that grants one prefix only, one allowed transaction makes the twins differ |
| `MetricsLedger.SeriesSplits` | src/metrics.cc:200-218 | With a host that treats the pair alike, both names of a capped pair are counted or neither, slots staying even |
| `MetricsRuns.OpStep` | src/metrics.cc:175-301 | Each operation keeps the invariants, the evenness of the twins if the host is fair to what it counts, and with a granting host counts exactly its own plain counters once |
| `MetricsTotals.BooksBalance` | src/metrics.cc:220-245 | With a granting host rule.matches is the number of matches and the sum of all its phase and severity series, and so for disruptive matches; transaction and interruption counters are exact |
| `WorkerMetrics.CountersTellTheStreams` | src/metrics.cc:175-218 | For any interleaving of streams the counters satisfy tx.total = tx.allowed + streams ended interrupted + streams open, interruption series sum to at least the interrupted streams, and rule.matches is the number of recorded matches |
| `WasmMemory.ReadLeb128` | test/perf/memory.py:48-60 | The loop with or and shift reads the number of the specification, failing when truncated or longer than six bytes |
| `WasmMemory.OrAdds` | test/perf/memory.py:55-55 | Bits that do not overlap are added by a bitwise or |
| `WasmMemory.ReadsExactly` | test/perf/memory.py:48-60 | Reading succeeds exactly on a well-formed number of bounded length, with its value and its end |
| `WasmMemory.ReadInvertsEncode` | test/perf/memory.py:48-60 | Reading inverts the encoding of section 5.2.2 of the WebAssembly Core Specification 1.0 if the number is below 2^42, and fails otherwise |
| `WasmMemory.ParseWasmLinearMemory` | test/perf/memory.py:63-106 | The section walk terminates with the limits of the specification walk, or nothing |
| `WasmMemory.FirstMemorySectionFound` | test/perf/memory.py:77-104 | After any well-formed earlier sections, and before anything, the limits of the first memory section in any LEB128 spelling |
| `WasmMemory.LimitsMean` | test/perf/memory.py:63-106 | Limits are found if and only if the binary is the magic number, four bytes, well-formed earlier sections and a memory section, and then they are that section's, in pages of 65536 bytes |
| `WasmMemory.NoMemorySection` | test/perf/memory.py:77-106 | Without a memory section there are none |

## Left out

- The engine, zlib and the proxy-wasm SDK: the engine and the decompressor are arbitrary functions, the host's buffers and answers are parameters.
- Parsing of Content-Length, Transfer-Encoding, :authority, the protocol token and the client address: whether a body is announced, and the Host value, are parameters of the request and response heads.
- Log fields and their selection, telemetry annotation of the export list, sampling and heap samples: one record of a rule match stands for its metrics, its log line and its export entry.
- Texts of error messages: a failed Include or data file is a value of a datatype that names the reason.
- The rule catalog as generated: a list of assets, walked in order, with an early stop when the walk fails.
- Reading a directive list from the compressed or the plain form of the configuration file, and all option filling.
- Metric ids: a counter goes by the name it was defined under. Heap sizes recorded in gauges are not modelled.
- Octets of a configuration: its text is a sequence of characters; the scanners single out ASCII characters only and pass all others on.
- Locale: white space and alphanumeric characters are those of the C locale.
- Memory tuning, the virtual file system, stubs and the randomness source.
- The content-length header that sanitizing rewrites: only the replacement of the body counts as an answer.
- BodyDelivery.RequestReachesEngine: no log callback between two chunks of the body; the host logs a stream once, when it is complete.
- LoaderRefinement.BlobTextsAgree: takes a blob without Include lines; what the two walks make of any other is in `LoaderRefinement.BlobWalks`, without a condition for equal texts, which would turn on the content of the assets.
- LoaderRefinement.ChunkedLoadIsExpansion: takes a non-empty built-in default rule set, as the source has.
- StreamRuns.WholeRun: a run that the engine's root context is not ready for opens no transaction, so it is not part of this statement; `StreamRuns.EveryMoment` covers it.
