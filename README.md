# Retrieval-augmented QA service: a Dafny model of its core

The service answers questions over a document store and offers chat on top of
large language models. This project models the parts of it that hold logic
of their own:

- **Streaming and stopping** (`model_utils.dfy`). A shared stop flag; an
  incremental decoder that hands text on only up to a word boundary; and a
  streamer that withholds everything from the first fragment whose accumulated
  text contains a stop word, and raises the stop flag.
- **Request limiting and the older streamer** (`routers_utils.dfy`). The
  semaphore that turns requests away with HTTP 503 when the server is busy.
  Also the streamer that queues every fragment, modelled as a class and
  compared with the stop-word streamer.
- **Chat back-ends** (`chat_models.dfy`). The prompt format shared by the
  local models; each adapter's default settings and description; the OpenAI
  adapter's token accounting and stream filter; the GPU adapter's generation
  loop, driven through the stop-word streamer; and the adapter factory.
- **Query requests** (`query.dfy`). Normalisation of search filters, and the
  `/qa` and `/search` endpoints inside the request limiter.
- **Tagging node** (`tagging_nodes.dfy`). The pipeline node that writes one
  metadata entry into every document passing through it.
- **ST4 importer** (`schema_st4.dfy`). The XML-to-text renderer with one
  rule per tag, and the conversion of one ST4 entry into a document.
- **Small helpers**: `api_main.dfy` (boolean settings) and `ui_utils.dfy`
  (the back-link of a search hit).

Python's values and string operations are modelled on their own terms:

- `py_value.dfy`: JSON-like values, and dicts as insertion-ordered entry lists.
- `py_text.dfy`: clamped slices, `rfind`, `strip`, `lower`, `join`.
- `wrappers.dfy`: `Option` and `Result`. Exceptions become their error cases.

Code that changes state is modelled as classes: the stop flag, both decoders
and streamers, the limiter, the adapters, the tagging node and documents.
Their methods are proved to follow pure step functions (`PutStep`, `Feed`,
`QueueFeed`, `Render`, …). The properties are proved about those functions.

## Model

| member | source | states |
|---|---|---|
| ModelUtils.ManualStopCondition.Stop | src/api/model_utils.py:19-20 | After `stop()` the flag is set. |
| ModelUtils.ManualStopCondition.Call | src/api/model_utils.py:22-23 | The generation loop reads exactly the current flag. |
| ModelUtils.Unwrap | src/api/model_utils.py:41-44 | A two-dimensional input is accepted only with exactly one row; more than one row is the "batch size 1" error; the ids are the single row or the one-dimensional input. |
| ModelUtils.CutPrintable | src/api/model_utils.py:55-63 | Text ending in a newline is flushed from the print position to its end and the position resets. Otherwise the fragment is empty exactly when no space follows the print position; when it is not empty it runs from the print position through the last space of the text, and the position advances by its length. Every fragment ends at a word boundary. |
| ModelUtils.PutStep | src/api/model_utils.py:37-65 | A bad batch raises and changes nothing. The first call with prompt skipping only clears the prompt mark. Any other call hands on the printable cut of the decoded cache (old cache plus the new ids); the new cache is empty after a flush and the whole cache otherwise, the print position is the cut's, and the prompt mark is kept. |
| ModelUtils.PutIds | src/api/model_utils.py:46-65 | With prompt skipping armed only the prompt mark is cleared. Otherwise the fragment handed on is the printable cut of the decoded cache plus the new ids, the cache is emptied on a flush and kept otherwise, the print position is the cut's, and the prompt mark is kept. |
| ModelUtils.EndStep | src/api/model_utils.py:67-79 | `end()` always empties the cache and re-arms prompt skipping; with a cache it resets the decoder, without one it hands on "". |
| ModelUtils.PutReassembles | src/api/model_utils.py:50-65 | When decoding more tokens keeps the earlier text, nothing is lost or repeated: printed text plus the new fragment is the whole line on a flush, and otherwise exactly the prefix the new print position marks. |
| ModelUtils.EndReassembles | src/api/model_utils.py:67-79 | Printed text plus the final fragment of `end()` is the whole decoded cache. |
| ModelUtils.RunSnoc | src/api/model_utils.py:98-110 | A run of calls extended by one call is that call applied after the run. |
| ModelUtils.OnTextWithholds | src/api/model_utils.py:98-110 | One `on_finalized_text` keeps the queue free of stop words and, until finished, equal to all text generated. |
| ModelUtils.OnTextTracksStop | src/api/model_utils.py:98-104 | One `on_finalized_text` keeps the stop flag equal to "the accumulated text contains a stop word". |
| ModelUtils.FeedKeepsInvariants | src/api/model_utils.py:37-110 | One `put` or `end`, with its stop-word check, keeps both invariants. |
| ModelUtils.FeedWithholds | src/api/model_utils.py:90-104 | One `put` or `end` keeps the queue free of stop words, whatever the stop words are. |
| ModelUtils.RunWithholds | src/api/model_utils.py:90-110 | Any sequence of calls keeps the queue free of stop words. |
| ModelUtils.OnTextGrows | src/api/model_utils.py:98-110 | The stop-word check only appends to the queue, keeps a finished streamer finished with nothing more queued, and never clears the flag. |
| ModelUtils.FeedIsMonotonic | src/api/model_utils.py:37-110 | The same holds for one whole `put` or `end` call. |
| ModelUtils.RunKeepsInvariants | src/api/model_utils.py:98-110 | Both invariants above survive any sequence of `put`/`end` calls. |
| ModelUtils.NoStopWordIsQueued | src/api/model_utils.py:90-110 | From a fresh streamer, for any stop-word list, the queued text never contains a stop word; when no stop word is empty, the flag is set exactly when the generated text contains one. |
| ModelUtils.RunIsMonotonic | src/api/model_utils.py:98-110 | The queue only grows at its end; a finished streamer stays finished and queues nothing more; a set stop flag stays set. |
| ModelUtils.EndFinishes | src/api/model_utils.py:67-79 | The end of the stream always finishes the streamer. |
| ModelUtils.TextStreamer.Put | src/api/model_utils.py:37-65 | The decoder's new state and output are those of `PutStep`. |
| ModelUtils.TextStreamer.PutUnwrapped | src/api/model_utils.py:46-65 | The decoder's new state and output are those of `PutIds`. |
| ModelUtils.TextStreamer.End | src/api/model_utils.py:67-79 | The decoder's new state and output are those of `EndStep`. |
| ModelUtils.StopWordStreamer.constructor | src/api/model_utils.py:90-96 | A fresh state; a missing stop-word list means no stop words. |
| ModelUtils.StopWordStreamer.OnFinalizedText | src/api/model_utils.py:98-109 | The state moves exactly as `OnText` says, checking the stop words in order until the first hit. |
| ModelUtils.StopWordStreamer.Put | src/api/model_utils.py:37-65 | The state moves as `Feed` says for a put; an error is reported exactly for a bad batch. |
| ModelUtils.StopWordStreamer.End | src/api/model_utils.py:67-79 | The state moves as `Feed` says for the end of the stream. |
| ModelUtils.StopWordStreamer.Next | src/api/model_utils.py:111-117 | Yields the oldest queued fragment, or ends when finished and empty, or waits; the abstract state is unchanged. |
| ModelUtils.StopWordStreamer.Drain | src/api/model_utils.py:111-117 | Yields every queued fragment in queue order, and ends exactly when the streamer is finished. |
| RoutersUtils.RequestLimiter.constructor | src/api/routers/utils.py:12-14 | `limit - 1` free permits and nobody admitted. |
| RoutersUtils.RequestLimiter.Enter | src/api/routers/utils.py:17-20 | Entry succeeds exactly when a permit is free, taking it; otherwise the 503 "busy" error and nothing changes. |
| RoutersUtils.RequestLimiter.Exit | src/api/routers/utils.py:21-24 | Leaving gives the permit back. |
| RoutersUtils.RequestLimiter.Run | src/api/routers/utils.py:16-24 | A whole scope is rejected with 503 exactly when no permit is free, otherwise runs its body; the permit count is the same afterwards on every path. |
| RoutersUtils.NewRequestLimiter | src/api/routers/utils.py:13-14 | Construction succeeds exactly when `limit - 1` is not negative. |
| RoutersUtils.AdmitUntilBusy | src/api/routers/utils.py:12-20 | Overlapping requests are admitted exactly `limit - 1` times, and the next is rejected as busy. |
| RoutersUtils.QueueFeedStep | src/api/routers/utils.py:95-98 | One call finishes the older streamer exactly when it ends the stream, and only appends to the queue. |
| RoutersUtils.QueueRunFinishesAtEnd | src/api/routers/utils.py:95-98 | The older streamer is finished exactly when the stream has ended at least once; its queue only grows. |
| RoutersUtils.StopWordsOnlyTruncate | src/api/model_utils.py:98-110 | Over the same calls, the stop-word streamer delivers a prefix of what the older streamer delivers, and all of it while not finished. |
| RoutersUtils.QueueStreamer.OnFinalizedText | src/api/routers/utils.py:95-98 | Every fragment is queued; the end of the stream finishes. |
| RoutersUtils.QueueStreamer.Put | src/api/routers/utils.py:37-65 | The state moves as `QueueFeed` says for a put; an error is reported exactly for a bad batch. |
| RoutersUtils.QueueStreamer.End | src/api/routers/utils.py:67-79 | The state moves as `QueueFeed` says for the end of the stream. |
| RoutersUtils.QueueStreamer.Next | src/api/routers/utils.py:100-105 | Yields the oldest queued fragment, or ends when finished and empty, or waits. |
| RoutersUtils.QueueStreamer.Drain | src/api/routers/utils.py:100-105 | Yields the queue in order, and ends exactly when finished. |
| ChatModels.BuildLlmPrompt | src/api/chat_models.py:112-126 | An empty conversation raises; otherwise the prompt is one line per message in order, with an open "AI:" turn after a final user message. |
| ChatModels.LinesAppend | src/api/chat_models.py:115-122 | The lines of two conversations in a row are the lines of each, concatenated. |
| ChatModels.LineOfEachMessage | src/api/chat_models.py:115-122 | Each message's line appears in the prompt right after the lines of the messages before it. |
| ChatModels.LineEndsWithNewline | src/api/chat_models.py:117-122 | Every message line ends with a newline. |
| ChatModels.PromptEnding | src/api/chat_models.py:124-126 | The prompt ends with "AI:" exactly when the last message is the user's, and with a newline otherwise. |
| ChatModels.CleanContentIsStripped | src/api/chat_models.py:116 | A cleaned content neither starts nor ends with whitespace, newlines included. |
| ChatModels.DefaultsBoundReplies | src/api/chat_models.py:47-48 | Every adapter caps replies at 256 new tokens; only the GPU adapter leaves the temperature unset; none uses the library defaults. |
| ChatModels.StreamIgnoresAfterStop | src/api/chat_models.py:101-107 | Nothing after the first chunk with neither role nor content is ever yielded. |
| ChatModels.StreamedContentComesFromChunks | src/api/chat_models.py:101-107 | Every yielded fragment is the content of some chunk. |
| ChatModels.ChatGptAdapter.constructor | src/api/chat_models.py:52-59 | The model is "gpt-3.5-turbo" and no tokens are counted yet. |
| ChatModels.ChatGptAdapter.Generate | src/api/chat_models.py:70-86 | Adds the reported usage to the running token count and returns the first choice's content. |
| ChatModels.ChatGptAdapter.GenerateStreaming | src/api/chat_models.py:88-110 | Yields exactly the filtered stream contents, and the token count does not change. |
| ChatModels.NewChatGptAdapter | src/api/chat_models.py:52-59 | Construction fails exactly when the token is missing or empty. |
| ChatModels.PutEvents | src/api/chat_models.py:193-203 | Generation puts the prompt once, then one call per produced token. |
| ChatModels.DriveGeneration | src/api/chat_models.py:193-203 | The model produces a prefix of its planned tokens. It stops early only after at least one token, and only when the flag is set after that token's put, before `end()`. The flag was clear after every earlier token's put, so generation halts at the first token whose put sets the flag. The streamer ends in the state of the corresponding run. |
| ChatModels.ProduceToken | src/api/chat_models.py:193-203 | One generated token extends the streamer's run by one put, and the stop answer is the flag after it; a clear answer extends the tokens known to have left the flag clear. |
| ChatModels.PutPrompt | src/api/chat_models.py:194-203 | Handing the prompt over is the first call of the run. |
| ChatModels.PutProduced | src/api/chat_models.py:196-203 | Each produced token handed over extends the run by one single-token put. |
| ChatModels.EndGeneration | src/api/chat_models.py:196-203 | Ending the stream completes the run of the whole generation and keeps a set stop flag set. |
| ChatModels.PutEventsSnoc | src/api/chat_models.py:193-203 | One more produced token adds one more single-token put at the end. |
| ChatModels.GenerationOutcome | src/api/chat_models.py:187-238 | After a whole generation the streamer is finished and the queue holds no stop word; when no stop word is empty, the flag is set exactly when the text contains a stop word. |
| ChatModels.HfGpuAdapter.constructor | src/api/chat_models.py:129-146 | Stores the settings; no stop reason yet. |
| ChatModels.HfGpuAdapter.Load | src/api/chat_models.py:183-184 | After loading, the tokenizer is available. |
| ChatModels.HfGpuAdapter.Generate | src/api/chat_models.py:187-212 | Fails for an empty conversation or an unloaded model. Otherwise returns the decoded output after the prompt's length, where the model's tokens are the planned ones up to and including the first whose put sets the stop flag (all of them when none does), and records "Stopword detected!" exactly when the stop flag was raised. |
| ChatModels.HfGpuAdapter.GenerateStreaming | src/api/chat_models.py:214-238 | Yields what the stop-word streamer queued from the model's tokens, which are the planned ones up to and including the first whose put sets the stop flag (all of them when none does); the yielded text holds no stop word, and the stop reason is recorded as above. |
| ChatModels.NewHfGpuAdapter | src/api/chat_models.py:148-149 | Construction fails exactly when no GPU is available. |
| ChatModels.CpuAdapter.constructor | src/api/chat_models.py:241-246 | Stores the settings. |
| ChatModels.InfoIdentifiesBackend | src/api/chat_models.py:64-65 | Two adapters report the same name, or the same accelerator, exactly when they are of the same kind. |
| ChatModels.Dispatch | src/api/chat_models.py:286-311 | "OPENAI" selects OpenAI given a token; "GPU" selects the GPU adapter only where LLaMA runs and a GPU exists; "CPU" selects the CPU adapter; any other name is an unknown-model error carrying that name. A failing "OPENAI" lacks its token; a failing "GPU" reports missing LLaMA support first, then a missing GPU. |
| ChatModels.AdapterFactory | src/api/chat_models.py:286-311 | Builds an adapter exactly when the decision succeeds, of the kind decided and with the configured settings; otherwise fails with the decided error. |
| Query.AsList | src/api/routers/query.py:94-99 | A list stays as it is; any other value becomes a one-element list. |
| Query.FormatFilters | src/api/routers/query.py:74-102 | `None` gives no filters; a mapping gives its normalised filters; anything else raises. |
| Query.FormattedEntriesGet | src/api/routers/query.py:86-101 | A key of the result holds its value as a list, a null key is dropped, and no other key appears. |
| Query.FormattedEntriesKeys | src/api/routers/query.py:86-101 | The result's keys are the non-null keys of the input, in the same order. |
| Query.FormattedEntriesAreLists | src/api/routers/query.py:94-101 | Every normalised filter value is a list. |
| Query.FormatNodeEntry | src/api/routers/query.py:62-64 | A node's entry keeps its key. |
| Query.GlobalFiltersFormattedTwice | src/api/routers/query.py:57-64 | As written, a global filter named "filters" is normalised twice and the second pass raises, although every filter in the request is a mapping. |
| Query.FormatNodeEntriesPointwise | src/api/routers/query.py:62-64 | When every node entry can be normalised, the result normalises each entry where it stands. |
| Query.FormatGlobalKeepsNodes | src/api/routers/query.py:57-59 | Normalising the global filters leaves every other entry where it was. |
| Query.FormatGlobalKeys | src/api/routers/query.py:57-59 | Normalising the global filters keeps the keys and their order. |
| Query.ProcessedSucceeds | src/api/routers/query.py:55-64 | When all filters are mappings, processing succeeds, keeps every key in place, and normalises each node's filters after the global ones. |
| Query.RevisitAgreesOrRaises | src/api/routers/query.py:58-64 | Meeting the normalised top-level "filters" entry again, the loop as written either leaves it alone or raises. |
| Query.NodeEntriesAgreeOrRaise | src/api/routers/query.py:61-64 | Node loops that agree entry by entry except where the first raises agree on the whole list except where the first raises. |
| Query.CorrectionOnlyRescuesFailures | src/api/routers/query.py:55-64 | Whenever the processing as written succeeds, the corrected processing gives the same parameters; whenever the corrected one raises, so does the original. |
| Query.ProcessParams | src/api/routers/query.py:55-64 | Processing the parameters gives the corrected result. |
| Query.FormatNodeFilters | src/api/routers/query.py:61-64 | The node loop, with the correction that it leaves the top-level "filters" entry alone: every other node's filters are normalised in order, failing at the first that raises. |
| Query.WithDefaultListGet | src/api/routers/query.py:31-34 | A missing key becomes an empty list, a present one is kept, and other keys are untouched. |
| Query.QueryEndpoint | src/api/routers/query.py:22-35 | Rejected with 503 exactly when the limiter is full. Otherwise the pipeline's result on the (corrected) processed parameters with "documents" and "answers" defaulted, or the exception processing raises. The permit count is unchanged. |
| Query.SearchEndpoint | src/api/routers/query.py:37-44 | The same for `/search` on the (corrected) processed parameters, with only "documents" defaulted. |
| Query.EndpointKeys | src/api/routers/query.py:31-34 | The results always hold "documents", and `/qa` results also "answers". |
| TaggingNodes.DocumentTaggingNode.TagAll | src/api/custom_nodes/tagging_nodes.py:24-26 | Every listed document gets the tag, even when it is listed twice; its content and other keys are kept. |
| TaggingNodes.DocumentTaggingNode.Run | src/api/custom_nodes/tagging_nodes.py:15-35 | All documents are tagged, and the inputs are handed on along "output_1". |
| TaggingNodes.DocumentTaggingNode.RunBatch | src/api/custom_nodes/tagging_nodes.py:38-71 | Every document of a flat or nested batch is tagged, and the inputs are handed on along "output_1". |
| TaggingNodes.DocumentTaggingNode.TagNested | src/api/custom_nodes/tagging_nodes.py:57-59 | Every document in every inner list gets the tag. |
| TaggingNodes.TaggingChangesOneKey | src/api/custom_nodes/tagging_nodes.py:26 | Tagging sets one key to the value, leaves every other key alone, and tagging again changes nothing. |
| SchemaSt4.ProcessNode | src/importer/schema_st4/main.py:14-106 | Renders an element exactly as the per-tag rules say, raising exactly where they raise. |
| SchemaSt4.CleanedTexts | src/importer/schema_st4/main.py:23-103 | The per-tag pieces before filtering. |
| SchemaSt4.ProcessChildren | src/importer/schema_st4/main.py:17-21 | The children's renderings in order, raising if one raises. |
| SchemaSt4.RenderFailurePersists | src/importer/schema_st4/main.py:17-21 | Once one of the first children raises, rendering all children raises. |
| SchemaSt4.InlineTexts | src/importer/schema_st4/main.py:24-27 | The stripped own text when there is any, then the children. |
| SchemaSt4.LinkTexts | src/importer/schema_st4/main.py:29-31 | The link target, then the children. |
| SchemaSt4.ListingTexts | src/importer/schema_st4/main.py:36-40 | "Listing:" and one dashed line per child. |
| SchemaSt4.SafetyTexts | src/importer/schema_st4/main.py:41-58 | A notice quotes its consequence. Any other kind gives its cause, severity, consequences and safety instructions. A missing part raises. |
| SchemaSt4.ImageContainerTexts | src/importer/schema_st4/main.py:60-65 | Only the title, and only when the title element has children. |
| SchemaSt4.TableContainerTexts | src/importer/schema_st4/main.py:67-75 | A type heading and the table, when the table element has children. |
| SchemaSt4.TableContainerRendering | src/importer/schema_st4/main.py:67-75 | A table container renders as "" unless its first `table` child has children; then as a "Table Type: \"<type>\"" heading ("Table:" for a header table) followed on the next line by the table's rendering, unless that is empty; a failing table fails the container. |
| SchemaSt4.ProceduralTexts | src/importer/schema_st4/main.py:92-96 | The numbered instructions found below, with a heading, or nothing. |
| SchemaSt4.Kept | src/importer/schema_st4/main.py:105 | A piece is kept exactly when it occurs in the list and is neither empty nor a lone newline; no kept piece is empty or a lone newline. |
| SchemaSt4.KeptAllVisible | src/importer/schema_st4/main.py:105 | Filtering keeps a list whose every piece is visible unchanged. |
| SchemaSt4.KeptAppend | src/importer/schema_st4/main.py:105 | The filter keeps order: filtering a concatenation filters each part and concatenates. |
| SchemaSt4.Find | src/importer/schema_st4/main.py:44 | `find` gives the first child with the tag (no earlier child has it), or no child has it. |
| SchemaSt4.WithTag | src/importer/schema_st4/main.py:48-49 | `findall` keeps exactly the elements with the tag, and is empty exactly when no element has it. |
| SchemaSt4.WithTagAppend | src/importer/schema_st4/main.py:48-49 | `findall` keeps document order: matches in a concatenation are the matches of each part, in order. |
| SchemaSt4.PassThroughPieces | src/importer/schema_st4/main.py:24-31 | Paragraph-like, link and unknown elements render their lead, then their children. |
| SchemaSt4.IndexEntryIsInvisible | src/importer/schema_st4/main.py:34-35 | Appending an index entry to a paragraph-like element leaves its text unchanged. |
| SchemaSt4.ChildFailureFails | src/importer/schema_st4/main.py:17-21 | A paragraph-like element or list raises when any child raises. |
| SchemaSt4.ListingLines | src/importer/schema_st4/main.py:36-40 | A list renders as "Listing:" and one "- " line per child, none filtered out. |
| SchemaSt4.ProceduralLines | src/importer/schema_st4/main.py:92-96 | Numbered lines from 1 under "Instructions:", or the empty text when there are none. |
| SchemaSt4.ImageContainerShowsOnlyTitle | src/importer/schema_st4/main.py:60-65 | An image container never shows its table's text, and shows no title whose element has no children. |
| SchemaSt4.SafetyNeedsItsParts | src/importer/schema_st4/main.py:41-49 | A safety element raises exactly when the notice lacks a consequence, or any other kind lacks a cause. |
| SchemaSt4.EntryDocument | src/importer/schema_st4/main.py:108-131 | A document exists exactly when the entry has English in its languages and content, the English content parses, every top-level element renders, and the titles exist. Its metadata keys are filename, type, label and title, and the title is the English one or "". |
| SchemaSt4.RenderFirstPointwise | src/importer/schema_st4/main.py:17-21 | The children render together exactly when each renders, and each rendering then sits in its child's place. |
| SchemaSt4.EntryText | src/importer/schema_st4/main.py:116-124 | The document text is the English title and a newline when there is a title, then the renderings of the top-level elements in order, none filtered out, joined by newlines. |
| SchemaSt4.ProcessEntry | src/importer/schema_st4/main.py:108-131 | Builds the document exactly when the entry can be processed, with the English text and metadata above. |
| SchemaSt4.EntryStartsWithTitle | src/importer/schema_st4/main.py:123-124 | A document with an English title starts with that title on a line of its own. |
| ApiMain.ParseBool | src/api/main.py:27-33 | A bool stays as it is. A string is true exactly when it matches "yes", "true", "t" or "1" up to letter case. Anything else is its truthiness. |
| ApiMain.LowerMatchesTrueWord | src/api/main.py:31-32 | Lower-casing matches a true word exactly when the string equals it up to case. |
| ApiMain.ParseBoolIdempotent | src/api/main.py:27-29 | Parsing an already parsed value gives the same answer. |
| ApiMain.ParseBoolIgnoresCase | src/api/main.py:30-31 | Two strings that differ only in letter case parse alike. |
| ApiMain.OnlyShortStringsAreTrue | src/api/main.py:30-31 | A string that reads as true has one to four characters. |
| UiUtils.GetBacklink | src/ui/utils.py:175-179 | Both url and title, exactly when both are present and truthy, otherwise neither. |
| PyValue.SetThenGet | src/api/custom_nodes/tagging_nodes.py:26 | After assigning a key, reading it gives the value. |
| PyValue.SetKeepsOthers | src/api/custom_nodes/tagging_nodes.py:26 | Assigning a key leaves every other key as it was. |
| PyText.TrimIsSlice | src/api/chat_models.py:116 | Stripping removes exactly a run of the given characters at each end. |

## Left out

- Threads, sleeping and polling. Generation runs on its own thread in the source. Here the producer's calls and the consumer's turns are separate methods, and `DriveGeneration` runs the generation loop before the consumer. The interleavings allowed by the queue's locking are not modelled.
- `generator_from_callback` (src/api/routers/utils.py:112-196) is not modelled: it is thread plumbing around a callback.
- `TextStreamer` is modelled once, as `ModelUtils.TextStreamer`. The copy in src/api/routers/utils.py:26-84 is identical.
- Foreign calls are inputs to the model, not modelled code. These are `tokenizer.decode`, tokenisation of the prompt, the model's sampled tokens, the OpenAI responses, `hf_hub_download`, `Llama`, `torch` and pandas' `read_html`/`to_string`.
- `ChatModels.HfGpuAdapter.Load` keeps only the tokenizer. Loading the model, PEFT, 8-bit loading and `torch.compile` are foreign calls.
- `apply_optimizations` only flips `torch` backend switches.
- The CPU adapter's `load`, `generate` and `generate_streaming` (src/api/chat_models.py:255-284) are not modelled: they only forward to `llama_cpp`.
- Cost logs are not modelled. They use floating point and only feed logging.
- The logging side effects of the ST4 renderer, the filters and the request processing are not modelled.
- Generation settings are optional values, with exact `real`s for the floating-point ones. The library's own defaults behind `GenerationConfig()` are shown as unset.
- `ChatModels.ChatGptAdapter.GenerateStreaming`: the token count is unchanged after streaming. The source adds a per-request counter to it that is never increased.
- `RoutersUtils.RequestLimiter.constructor` requires `limit >= 1`. The failing construction is modelled by `RoutersUtils.NewRequestLimiter`.
- `Query.ProcessParams` returns the processed parameters as a new value. The source rewrites the caller's request dict in place. The aliasing between request and pipeline input is not modelled.
- Query.QueryEndpoint follows the corrected request processing of the finding below, not the code as written. On `params = {"filters": {"filters": "x"}}` the source raises AttributeError while the model returns the pipeline's result. `Query.CorrectionOnlyRescuesFailures` shows that such requests are the only ones on which the two differ.
- Query.SearchEndpoint follows the corrected request processing in the same way, with the same difference.
- Query.FormatNodeFilters is the corrected node loop: it skips the top-level "filters" entry, which the source's loop visits again. `Query.ProcessedAsWritten` models the loop as written.
- The pipeline run is an opaque function parameter of the endpoints. The time measurement and JSON log are not modelled.
- The `/update_embeddings` endpoint (src/api/routers/query.py:46-50) is not modelled: it only calls the document store.
- `ModelUtils.PutReassembles` assumes that decoding more tokens keeps the text decoded before. An arbitrary `decode` need not do so.
- `SchemaSt4.Node` has no tail text: the renderer never reads it.
- The ST4 table text is an opaque parameter. It covers pandas' table detection, header detection and layout. Its failure is the only error it can add.
- XML parsing is an opaque parameter that may fail.
- The importer's `__main__` block (file discovery, pre-processing, writing to Elasticsearch) is I/O and is not modelled.
- An ST4 entry's type and label are strings in the model. The source also allows them to be missing.
- PyText.Lower lower-cases ASCII letters only, while Python's `str.lower` also maps non-ASCII characters. `ApiMain.ParseBool` gives the same answers either way, because no non-ASCII character lower-cases to a letter of "yes", "true", "t" or "1" (only the Kelvin sign becomes an ASCII letter, "k").

## Findings

| source | as written | input that shows it | evidently intended | confidence | as-written member | corrected member |
|---|---|---|---|---|---|---|
| src/api/routers/query.py:58-64 | The node loop also visits the top-level "filters" entry the global step has just normalised. If that entry has a filter named "filters", its list value is normalised again, and `.items()` on a list raises AttributeError. | `params = {"filters": {"filters": "x"}}` | Normalise the top-level filters once and skip them in the node loop. | medium, not executed | Query.GlobalFiltersFormattedTwice | Query.ProcessedSucceeds |
