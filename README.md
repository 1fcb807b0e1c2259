# Metadata summarization service: a Dafny model

This project models the core of a service that sits in front of a metadata
HTTP API. The service forwards each incoming request to the API. When asked
to, it is meant to shorten the answer by summarizing it with a large language
model. As written, the map step raises on the first prompt record, so nothing
with results is ever summarized (see "## Findings"). The parts are:

- **The token-bounded chunker** (`TokenOperator.chunk_data`). It makes one
  greedy pass over the `results` of a response. Each record gives one
  metadata item (the record without `attributes`) and then one item per
  attribute. The items are packed into chunks under a token limit of 120000.
  When a chunk is cut inside an attribute list, the next chunk is re-seeded
  with the latest metadata.
- **The map-reduce summarizer** (`Summarizer`). It chunks the results and
  builds one prompt record per chunk. It is meant to send each record to a
  chunk assistant and the list of partial summaries to a final assistant.
  As written, the first record already fails to unpack. The model covers both
  that code and the corrected flow.
- **The forwarding layer** (`MetadataService`). It covers:
  - filtering the query string;
  - building the forwarded URL and endpoint URLs;
  - classifying a response body as a result or a message;
  - deciding whether a response goes to the summarizer.

The tokenizer, the language model and HTTP are parameters of the model:

- `tokens: Json -> nat` is the token estimate of `json.dumps(item)`.
- `respond: Call -> Json` is the generation service.
- `fetch` is `requests.request` followed by `response.json()`. It returns
  `None` when the body is not valid JSON.
- `parseQsl`, `urlencode` and `format` stand for `parse_qsl`, `urlencode` and
  `str.format`.

Every assistant call is recorded, in order, in a returned trace `calls`.
The contracts can therefore say how many calls are made, and with what.

Files:

| file | content |
|---|---|
| `values.dfy` | JSON values, `dict.get`, one key removed from a dict, `for x in v`, truthiness, ASCII `lower` |
| `token_operator.dfy` | The chunker, specified by the functions `Traversal`, `Add`, `Pack` and `Chunked`. `ChunkAccumulator` is a class holding the five variables that `add_to_chunk` updates. `ChunkData` is the loop, proved equal to `Chunked`. |
| `token_operator_properties.dfy` | What the chunker guarantees, proved about the specification functions |
| `summarizer.dfy` | `_prepare_data`, the two map loops and `summarize`, both as written and as evidently intended |
| `metadata_service.dfy` | Query filtering, URLs, response parsing, `_summarize_metadata` and `get_metadata` |

## Behaviour worth noting

- **Leading empty chunk.** Nothing checks that the current chunk is
  non-empty before it is closed on overflow (token_operator.py:46-47).
  - So when the very first item alone exceeds the limit, an empty chunk is
    emitted as chunk 0.
  - `OnlyALeadingChunkIsEmpty` proves that this is the only way a chunk can
    be empty. `LeadingEmptyChunkExample` shows a concrete case.
- **Seeding with `{}`.** Before any metadata has been seen, `metadata` is
  `{}` at size 0 (token_operator.py:27-28). An attribute-typed entry that
  overflows then re-seeds the next chunk with `{}`. `SeedAfter` states this
  case, and `EmptyDictSeedExample` shows one.
- **No empty-input short-circuit in `summarize`.**
  - `summarize` still makes the final call on an empty list of summaries
    (summary_main.py:79-82); see `Summarizer.Summarize`.
  - Only `_summarize_metadata` has a short-circuit
    (metadata_service.py:102-104).
- **Only the plain-text assistants are called.** The JSON-response
  assistants are never called: that path is commented out
  (summary_main.py:84-92). `Summarizer.SendChunks` still models
  `_send_chunks_json_response` when its assistant is `ChunkJsonResponse`.
- **No fallback.** A summarization error propagates. Nothing falls back to
  the raw response; see `MetadataService.GetMetadata`.

## Model

| member | source | states |
|---|---|---|
| Values.Lookup | token_operator.py:64 | `d.get(key)` finds a value exactly when the key is one of the dict's keys |
| Values.WithoutKey | token_operator.py:60 | The metadata comprehension lacks `attributes`. It agrees with the record on every other key, and it is the record itself when there was no `attributes` key. |
| Values.TruthyIterationNonEmpty | metadata_service.py:102 | A truthy value that can be iterated yields at least one element |
| TokenOperator.ChunkAccumulator.constructor | token_operator.py:24-28 | The pass starts with no chunks, an empty current chunk of size 0, and metadata `{}` of size 0 |
| TokenOperator.ChunkAccumulator.AddToChunk | token_operator.py:30-55 | One `add_to_chunk` call updates the variables exactly as the packing rule `Add` says: metadata first, then overflow, seeding or append |
| TokenOperator.AddItem | token_operator.py:30-55 | An `add_to_chunk` call extends the packed state by one item |
| TokenOperator.AddAttributes | token_operator.py:64-65 | The attribute loop adds each attribute, in order, as an attribute-typed item |
| TokenOperator.AddRecord | token_operator.py:58-65 | A record adds its metadata and then its attributes. A non-iterable `attributes` value gives the TypeError. |
| TokenOperator.AddResult | token_operator.py:57-67 | One entry of `results`: a non-empty dict is a record; anything else is added unchanged as an attribute |
| TokenOperator.ChunkData | token_operator.py:22-78 | The loop computes exactly `Chunked`: the same chunks or the same exception |
| TokenOperator.TraversalFailurePropagates | token_operator.py:57-67 | The first entry that cannot be traversed decides the error of the whole pass |
| TokenOperatorProperties.TraversalAppend | token_operator.py:57-67 | Traversal is record after record. Two runs of entries together succeed exactly when both do, and their items concatenate. |
| TokenOperatorProperties.TraversalSingle | token_operator.py:57-67 | One entry alone traverses to exactly its own items |
| TokenOperatorProperties.RecordItemsShape | token_operator.py:58-67 | A record gives its metadata, without only `attributes`, then its attributes in order. Any other entry, including `{}`, gives itself as an attribute. |
| TokenOperatorProperties.TraversalCoversEveryEntry | token_operator.py:57-67 | Every entry contributes at least one item |
| TokenOperatorProperties.AddKeepsItems | token_operator.py:46-55 | One call appends its item to the items held by the chunks, with seeds removed |
| TokenOperatorProperties.PackKeepsEveryItem | token_operator.py:46-55 | The closed chunks and the current chunk, seeds removed, hold exactly the items added: none dropped, split or duplicated |
| TokenOperatorProperties.PackTracksLatestMetadata | token_operator.py:42-44 | `metadata` and `metadata_size` hold the latest metadata item and its size, or `{}` and 0 before any metadata |
| TokenOperatorProperties.PackEmptyChunks | token_operator.py:46-53 | The current chunk is non-empty once any item was added. No closed chunk after the first is empty. The first closed chunk is empty exactly when the first item alone exceeds the limit. |
| TokenOperatorProperties.AddKeepsSizes | token_operator.py:46-55 | One call preserves the size facts: tracked size equals chunk cost, every chunk is within the limit or a lone overflow, and the first chunk is within the limit |
| TokenOperatorProperties.PackSizes | token_operator.py:46-55 | The size facts hold after any run of calls |
| TokenOperatorProperties.PackHeads | token_operator.py:46-53 | Every chunk after the first starts with metadata or a seed, and seeds stand only at chunk heads |
| TokenOperatorProperties.AttributeOverflowSeedsLatestMetadata | token_operator.py:46-50 | An overflowing attribute closes the chunk and opens one holding the latest metadata and then the attribute, sized accordingly |
| TokenOperatorProperties.MetadataOverflowStartsClean | token_operator.py:46-53 | An overflowing metadata item closes the chunk and opens one holding only itself |
| TokenOperatorProperties.FittingItemJoinsCurrentChunk | token_operator.py:46-55 | An item that fits is appended to the current chunk, which stays within the limit |
| TokenOperatorProperties.ChunksKeepEveryItem | token_operator.py:69-70 | The emitted chunks, concatenated and with seeds removed, are exactly the traversal in order |
| TokenOperatorProperties.OnlyALeadingChunkIsEmpty | token_operator.py:46-70 | There are no chunks exactly when there are no items. Chunk k is empty exactly when k is 0 and the first item exceeds the limit. The last chunk is never empty. |
| TokenOperatorProperties.OversizedChunksAreLoneItems | token_operator.py:46-55 | A chunk over the limit is a lone metadata item or a seed with one attribute. Chunk 0 is within the limit. |
| TokenOperatorProperties.LaterChunksStartWithContext | token_operator.py:46-53 | Every chunk after the first starts with a metadata item or a seed, and seeds stand only at chunk heads. The seed is `{}` when no record has been seen yet. |
| TokenOperatorProperties.ChunkDataKeepsTraversal | token_operator.py:57-75 | The output is the erased tagged chunks, and those hold the traversal |
| TokenOperatorProperties.ChunkIdsAndTotals | token_operator.py:72-75 | Each output element carries its own position as `chunk_id` and the list length as `total_chunks` |
| TokenOperatorProperties.EmptyChunksIffNoResults | token_operator.py:57-75 | The chunk list is empty exactly when `results` iterates to nothing. A missing `results` counts as `[]`. |
| TokenOperatorProperties.LeadingEmptyChunkExample | token_operator.py:46-53 | A single record costing 500 under a limit of 100 gives `[[], [record]]` |
| TokenOperatorProperties.EmptyDictSeedExample | token_operator.py:46-50 | Two plain entries of 60 tokens under a limit of 100 give `[x]` and then `[{}, y]` |
| TokenOperatorProperties.SeededChunkExample | token_operator.py:46-55 | Metadata 40 with attributes 30, 30 and 50 under a limit of 100 gives `[meta, a, b]` and then `[meta, c]` |
| Summarizer.ChunkPromptFields | summary/summary_main.py:34-39 | A prompt record has the four keys, carrying the question, the chunk data, the constant `chunk_id` text and the total |
| Summarizer.PrepareData | summary/summary_main.py:28-40 | One four-key record per chunk, in order. Each carries the same `chunk_id` text. |
| Summarizer.FirstUnpackFailure | summary/summary_main.py:47 | The first record whose dict does not have exactly two keys, so that `for data_id, data in ...` cannot unpack it |
| Summarizer.SendChunks | summary/summary_main.py:42-62 | Both map loops: one call per record, with the record's second key as data, up to the first record that cannot be unpacked. That record raises the ValueError. |
| Summarizer.Summarize | summary/summary_main.py:64-96 | A chunking error propagates with no calls. No chunks gives exactly one final call, over `[]`. Any chunk raises ValueError(expected 2, got 4) with no calls. Only the final assistant is ever called. |
| Summarizer.PreparedRecordsNeverUnpack | summary/summary/summary_main.py:47 | Whenever there is a chunk, the first prepared record already fails to unpack |
| Summarizer.OneResultReachesTheMapStep | summary/summary/summary_main.py:70-77 | A single result entry already yields a chunk, so it reaches the failing map step |
| Summarizer.ChunkIdDoesNotIdentifyTheChunk | summary/summary/summary_main.py:37 | Any two chunks get the same `chunk_id` in their prompt records |
| Summarizer.PrepareDataIntended | summary/summary/summary_main.py:28-40 | Corrected: each record carries its own chunk's id |
| Summarizer.SendChunksIntended | summary/summary/summary_main.py:42-51 | Corrected: one call per record with the whole record, and summaries in record order |
| Summarizer.SummarizeIntended | summary/summary/summary_main.py:64-96 | Corrected: one chunk call per chunk, in chunk order, each record with chunk_id i. Then exactly one final call over the partial summaries in that order. |
| MetadataService.GetHeaders | metadata_service.py:57-59 | The only header is the API key, under its configured name |
| MetadataService.FilterQueryParams | metadata_service.py:90-94 | A pair survives exactly when its name is not `user_question` |
| MetadataService.FilterQueryParamsKeepsDuplicates | metadata_service.py:90-94 | A kept pair occurs as often as in the input; a `user_question` pair occurs never |
| MetadataService.FilterQueryParamsAppend | metadata_service.py:90-94 | Filtering commutes with concatenation, so the kept pairs keep their original order |
| MetadataService.FilterQueryParamsIdempotent | metadata_service.py:90-94 | Filtering twice is filtering once |
| MetadataService.FilterQueryParamsKeepsCleanQuery | metadata_service.py:90-94 | A query without `user_question` passes unchanged |
| MetadataService.RemoveExtraQueryParams | metadata_service.py:88-95 | The kept pairs are re-encoded. Nothing kept gives the empty string. |
| MetadataService.RemoveExtraQueryParamsDropsQuestion | metadata_service.py:88-95 | When encoding and decoding round-trip on the kept pairs, the result decodes to them, holds no `user_question`, and is unchanged by filtering again |
| MetadataService.GetPathAndQueryUrl | metadata_service.py:73-79 | The path alone when the query is empty or filters to nothing. Otherwise the path, `?` and the (filtered) query. |
| MetadataService.ForwardedQueryHasNoQuestion | metadata_service.py:73-79 | With filtering on, the forwarded path and query carry no `user_question` |
| MetadataService.GetUrl | metadata_service.py:61-65 | The base URL and the path and query, joined by a `/` unless the path already starts with one |
| MetadataService.BuildUrl | metadata_service.py:121-124 | The base URL, exactly one `/`, then the endpoint path, formatted only when path parameters are given |
| MetadataService.BuildUrlAgreesWithForwarding | metadata_service.py:61-65 | An endpoint without path parameters has the same address when built directly as when forwarded from `/` plus its path |
| MetadataService.HasMessageKey | metadata_service.py:174-177 | True exactly when some key equals `message` once lower-cased |
| MetadataService.ParseResponse | metadata_service.py:158-181 | `pass_empty` or an invalid body gives empty results. A message key, in any case, gives a message read under the exact key `message` with default `""`. Any other object gives a result. A non-object body raises. |
| MetadataService.MessageKeyInOtherCaseGivesEmptyMessage | metadata_service.py:173-179 | A body whose message key is spelt other than `message` gives the empty message |
| MetadataService.ForwardRequestToMetadata | metadata_service.py:43-55 | One request is made, with the request's method, the forwarded URL and the service's headers. It raises exactly when the answer is valid JSON but not an object. An invalid body gives the empty result. A result carries the body's own fields, and a message comes exactly from an object with a message key, read under `message` with default `""`. |
| MetadataService.EmptyResponsesAreNotSummarized | metadata_service.py:102-104 | The empty result and every message are passed through unsummarized |
| MetadataService.SummarizeMetadata | metadata_service.py:97-106 | Corrected: missing or falsy results return the response unchanged with no calls. Otherwise exactly the results are summarized: a chunking error propagates, and success makes one call per chunk plus the final call, whose answer is returned. |
| MetadataService.SummarizeMetadataAsWritten | metadata_service.py:97-106 | Missing or falsy results return the response unchanged with no calls. Any response with results to summarize raises before any call: the chunking error, or else ValueError(expected 2, got 4). |
| MetadataService.GetMetadata | metadata_service.py:29-41 | An error raised while parsing the forwarded response (valid JSON that is not an object) propagates. Without `summarize`, or with nothing to summarize, the forwarded response is returned unchanged with no calls. Asked to summarize a response with results, it raises before any assistant call: the chunking error, or else ValueError(expected 2, got 4). |
| MetadataService.GetMetadataIntended | metadata_service.py:29-41 | Corrected: the same as `GetMetadata` up to the summarizer. Then a chunking error propagates with no calls, and success makes one call per chunk plus the final call, whose answer is returned. |

## Findings

| source | as written | input that shows it | evidently intended | confidence | as-written member | corrected member |
|---|---|---|---|---|---|---|
| summary/summary_main.py:47 | `for data_id, data in data_list` unpacks each four-key record dict into two names, which raises ValueError. The same loop is at line 58. | Any response with one result entry, e.g. `{"results": ["x"]}` | `enumerate(data_list)`: one call per record, with the record as data | high (not executed) | Summarizer.PreparedRecordsNeverUnpack | Summarizer.SummarizeIntended |
| summary/summary_main.py:37 | `chunk_id` is `json.dumps(['chunk_id'])`, the constant text `["chunk_id"]`, not the chunk's id | Any two chunks: their records carry the same `chunk_id` | `chunk['chunk_id']` | high (not executed) | Summarizer.ChunkIdDoesNotIdentifyTheChunk | Summarizer.PrepareDataIntended |

`MetadataService.GetMetadata` and `SummarizeMetadataAsWritten` use the
summarizer as written, so a request to summarize a response with results
always raises. `MetadataService.GetMetadataIntended` and `SummarizeMetadata`
use the corrected summarizer. `Summarizer.Summarize`,
`SendChunks` and `OneResultReachesTheMapStep` state the as-written behaviour
end to end.

## Left out

- HTTP I/O: `requests.request`, `requests.get`, `raise_for_status` and JSON
  decoding. They are the parameter `fetch`, and an invalid body is `None`.
- The `_request` and `_get_results` pair and every `get_*`, `search_*` and
  `health_check` wrapper (metadata_service.py:126-156, 183-280). They are
  one-line endpoint calls over the `MetadataEndpoints` enum and the
  `requests` library. `MetadataEndpoints` is not part of this model, and
  neither is the possibly unbound `response` in the `except` branch (line
  156). `BuildUrl` and the `pass_empty` branch of `ParseResponse` cover the
  URL and the error fallback of those wrappers. Their `query_params`,
  `raise_for_status` and the `.results` read of `_get_results` are not
  modelled.
- `respond` is a function, so two identical prompts get the same answer. A
  language model need not answer that way. No proved property depends on this.
- `fetch` and `respond` never raise. Exceptions from `requests` (connection
  errors, time-outs) and from the assistants (`send_prompt` or its output
  parser, in a map call or the final call) are not modelled.
- The tiktoken tokenizer and `json.dumps`. They are the parameter `tokens`;
  `estimate_tokens` is not modelled.
- The language model, the prompts, LangChain output parsing and pydantic
  validation. `respond` is an arbitrary function.
- Pydantic validation of `MetadataResult(**body)`. A result keeps the body's
  fields, and a body without `results` is a result without that attribute.
- Construction side effects of `Summarizer()` and `LLMService()`
  (metadata_service.py:100; summary_main.py:20-26).
- Logging.
- Concurrency of the map phase. The code is sequential, and so is the model.
- JSON numbers are Dafny `real`s, not floating point.
- Values.Lower: only the ASCII letters are lower-cased. No other character
  lower-cases to a letter of `message`, so `HasMessageKey` is unaffected.
- Dict keys are taken to be distinct strings. JSON objects decode that way.
- The commented-out JSON-response flow and the post-processing code that is
  commented out (summary_main.py:84-125).
- TokenOperator.AddRecord: on a non-iterable `attributes` value, the contract
  does not state the accumulator's state after the metadata was added,
  because the exception discards it.
- MetadataService.RemoveExtraQueryParamsDropsQuestion and
  ForwardedQueryHasNoQuestion: `parse_qsl` and `urlencode` are arbitrary
  functions. The lemmas therefore assume the round trip on the kept pairs
  instead of proving it for the library's encoding.
