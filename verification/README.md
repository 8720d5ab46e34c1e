# RAG news chatbot: session pipeline and ingestion, in Dafny

This project models the two parts of the news chatbot that hold logic:

- **The backend's session pipeline** (`backend/src/server.js`).
  - `POST /chat` validates the session id. It then stores the user turn in the session's Redis list and refreshes the list's 24-hour time to live.
  - Next it embeds the question, searches the vector index and builds a grounding prompt from the passages found. It asks the language model and picks the answer out of the reply.
  - Finally it stores the assistant turn, refreshes the time to live, and returns the answer with the links of the passages.
  - `GET /history/:sessionId` reads the transcript.
  - `POST /reset/:sessionId` deletes it.
- **The ingestion script** (`ingest/ingest_news.py`).
  - It takes at most 30 entries per feed and 50 articles in all.
  - It cuts each article into chunks of at most 1500 characters and builds the parallel lists of texts and (point id, payload) pairs.
  - It embeds and upserts those lists in batches of 16.

Modules:

- `JsValues` (`js_values.dfy`) covers the JavaScript value rules the handler relies on. A missing value is falsy, and so is the empty string. A missing value interpolated into a template literal reads `undefined`. `a || b` yields `a` when `a` is truthy, and otherwise `b`, whatever `b` is.
- `Outcomes` is the success-or-failure result of an external call.
- `SessionStore` (`session_store.dfy`) is the Redis list store.
  - It is the class `ListStore`, whose fields are the lists and the expiry deadlines. Its methods `RPush`, `Expire`, `LRange` and `Del` are specified by functions on a `Snapshot` value of the store.
  - A key past its deadline reads as absent.
  - `RPUSH` on an absent or expired key starts a new list with no time to live.
  - `EXPIRE` does nothing on a missing key, and deletes the key when the timeout is not positive.
  - The predicate `Valid` is Redis's own invariant that only a key that exists carries a time to live. Every method keeps it.
- `Prompt` (`prompt.dfy`) holds the pure parts of `/chat`: passage text fallback, context blocks, prompt, answer selection, and sources.
- `Server` (`server.dfy`) holds the three handlers as methods over the store, and lemmas about series of requests.
  - The effect trace `Chat` returns makes the order of the store writes and service calls observable.
- `Chunking` (`chunking.dfy`) is the fixed-width splitter. It serves both `chunk_text` and the 16-wide batches.
- `Ingest` (`ingest.dfy`) covers the article caps, the list construction, and the batch loop with its pairing of embeddings to entries.

A passage whose title or link is missing shows `undefined` in its context block, because the template literal at `backend/src/server.js:45` renders a missing value that way. `Prompt.Block` does the same. Only the passage text falls back to the empty string.

## Model

| member | source | states |
|---|---|---|
| SessionStore.Pushed | backend/src/server.js:32 | RPUSH: the visible list grows by exactly the pushed value at its end, the key keeps its time to live only if it was live, every other key is untouched, and keys with a TTL still exist |
| SessionStore.Expired | backend/src/server.js:34 | EXPIRE with a positive timeout on a live key leaves its list as it was and sets the deadline to `now + seconds*1000`. With a timeout that is not positive it deletes a live key and its deadline. On a missing or expired key it changes nothing. Other keys are untouched |
| SessionStore.Deleted | backend/src/server.js:76 | DEL: the key and its expiry are gone, every other key is untouched |
| SessionStore.Range | backend/src/server.js:69 | LRANGE always answers a contiguous slice of the list |
| SessionStore.RangeWhole | backend/src/server.js:69 | `LRANGE key 0 -1` is the whole list |
| SessionStore.Appended | backend/src/server.js:31-34 | the handler's push-then-expire adds the turn at the end of the transcript and sets its deadline 24 hours after the turn's timestamp; other keys untouched |
| SessionStore.AppendedStaysVisible | backend/src/server.js:33-34 | after a write the transcript stays readable, with the new turn last, throughout the next 24 hours |
| SessionStore.AppendedExpires | backend/src/server.js:33-34 | once 24 hours have passed since the latest write, the transcript reads as empty |
| SessionStore.AppendedAllStep | backend/src/server.js:56-57 | a write within 24 hours of the previous one extends the transcript seen at that previous write by the new turn |
| SessionStore.AppendedAllInOrder | backend/src/server.js:32-57 | writes each within 24 hours of the previous one leave the transcript as it was followed by every turn, in write order |
| SessionStore.AppendedAllFrame | backend/src/server.js:32-57 | writes to one key never change what another key reads |
| SessionStore.DeletedIdempotent | backend/src/server.js:76 | a second DEL changes nothing and the key reads as empty afterwards |
| SessionStore.ListStore.RPush | backend/src/server.js:32 | the store's new contents are RPUSH's, and the answer is the list's new length |
| SessionStore.ListStore.Expire | backend/src/server.js:34 | the store's new contents are EXPIRE's, and the answer says whether the key was live |
| SessionStore.ListStore.LRange | backend/src/server.js:69 | reads the range of the visible list without changing the store |
| SessionStore.ListStore.Del | backend/src/server.js:76 | the store's new contents are DEL's, and the answer counts the live keys removed |
| Prompt.PassageText | backend/src/server.js:44-45 | the passage is `text` if truthy, else `content` if truthy, and it is empty exactly when neither is |
| Prompt.BlockWithoutPayload | backend/src/server.js:44-45 | `Block` of a result without a payload still yields a block. Its title and link are rendered by `Render` as `undefined`, and its passage is empty |
| Prompt.JoinPieceAt | backend/src/server.js:46 | `Join` keeps every part unchanged at its offset in the joined string |
| Prompt.Context | backend/src/server.js:43-46 | the context is empty exactly when the search found nothing |
| Prompt.ContextSnoc | backend/src/server.js:43-46 | one more result adds the separator and its block at the end, so nothing is reordered or dropped |
| Prompt.ContextBlockAt | backend/src/server.js:43-46 | `Blocks` makes one block per result, and the `Block` of every result appears unchanged at its own offset in the context |
| Prompt.BlockStartStep | backend/src/server.js:43-46 | the block of result `i+1` starts right after the block of result `i` and one `\n\n---\n\n` separator |
| Prompt.PromptContextAt | backend/src/server.js:48 | the prompt `BuildPrompt` makes holds the whole context, unchanged, right after the preamble and `CONTEXT:` header |
| Prompt.PromptWithoutResults | backend/src/server.js:48 | with no results the prompt is the preamble, the empty context and the question |
| Prompt.PromptDeterminesQuestion | backend/src/server.js:48 | two prompts over the same results are equal only if they carry the same question text |
| Prompt.Answer | backend/src/server.js:53 | the answer is the reply's `text` if truthy, else its `output` if truthy, else its serialization, by `OrElse`, the `\|\|` idiom; an empty answer means both fields were falsy |
| Prompt.Sources | backend/src/server.js:60 | one source per result, in result order: source `i` is result `i`'s payload link or missing |
| Prompt.SourcesConcat | backend/src/server.js:60 | the sources of concatenated result lists are the concatenated sources, with no deduplication |
| Server.SessionKeyInjective | backend/src/server.js:32 | `SessionKey` gives distinct session ids distinct store keys |
| Server.Chat | backend/src/server.js:25-65 | a falsy session id gets 400 with no write and no call. Otherwise the user turn is pushed and its TTL set before the query is embedded. The search asks for `Limit(topK)` passages: `topK`, or 5 only when the field is missing. Once the search succeeds the model is always called, with `GenerationInput`: the system instruction, then the prompt as the user's message. The first failure gives 500 with its detail and keeps the user turn without rollback. Success returns the answer that is stored as the assistant turn, after the user turn, with the sources |
| Server.History | backend/src/server.js:67-72 | the history is exactly the session's visible transcript, and reading it changes nothing |
| Server.Reset | backend/src/server.js:74-78 | always answers ok, and leaves the store with the session's key deleted and nothing else changed |
| Server.SuccessfulChatTranscript | backend/src/server.js:31-57 | a successful chat leaves the earlier transcript followed by the user turn then the assistant turn, expiring 24 hours after the latter, and every other session as it was |
| Server.SerialChatsHistory | backend/src/server.js:31-57 | N successful chats on one session add exactly 2N entries, user and assistant alternating, in issue order, after the untouched earlier history |
| Server.AfterChatsIsAppendedAll | backend/src/server.js:31-57 | a series of chats writes exactly the interleaved user and assistant turns, in order |
| Server.ResetIdempotent | backend/src/server.js:74-77 | resetting twice is resetting once; the history is empty afterwards and other sessions are untouched |
| Server.ElectionScenario | backend/src/server.js:25-72 | a fresh session asking one question with two passages found gets both links in order, and its history then holds the user turn and an assistant turn carrying the returned answer |
| Chunking.SplitFlatten | ingest/ingest_news.py:43-51 | concatenating the chunks `Split` cuts gives back the text exactly |
| Chunking.SplitPieces | ingest/ingest_news.py:47-50 | every chunk is non-empty and at most `max_chars` long, and all but the last are exactly `max_chars` long |
| Chunking.SplitCountBounds | ingest/ingest_news.py:43-51 | the number of chunks is the least whose full-width chunks hold the text, and empty text gives no chunk |
| Chunking.SplitCount | ingest/ingest_news.py:43-51 | the number of chunks is `ceil(len(text) / max_chars)` |
| Chunking.SplitAt | ingest/ingest_news.py:103-104 | piece `b` is the slice starting at `b*width` and ending `width` later or at the end |
| Chunking.FlattenUniform | ingest/ingest_news.py:103-109 | element `k` of uniformly-sized pieces laid end to end is element `k % width` of piece `k / width` |
| Chunking.ChunkText | ingest/ingest_news.py:43-51 | for positive `max_chars` the loop terminates and its chunks are the fixed-width pieces of the text: they concatenate back to it, have the length bounds above, and number `ceil(len / max_chars)` |
| Ingest.Take | ingest/ingest_news.py:27 | the slice `[:n]` is a prefix of at most `n` elements, the whole list when it is shorter |
| Ingest.FeedSharesBound | ingest/ingest_news.py:27 | `FeedShares` takes each feed's first 30 entries, so the feeds together contribute at most 30 articles each |
| Ingest.GatherArticles | ingest/ingest_news.py:67-71 | the articles are the feeds' shares, feed after feed, cut to the first 50; so at most 50, and at most 30 per feed |
| Ingest.ChunkMetas | ingest/ingest_news.py:88-99 | the payload list is as long as the text list |
| Ingest.LockstepAt | ingest/ingest_news.py:88-99 | `ArticleMetas` makes one payload per chunk; chunk `idx` of article `j` sits at the same position in the text list and the payload list, and its payload names article `j` and index `idx` |
| Ingest.ArticleChunksRoundTrip | ingest/ingest_news.py:89 | the chunks `ArticleChunks` cuts concatenate back to the article's `SourceText`: its content when that is non-empty, else its title. An article with neither yields no chunk. Each chunk is 1 to 1500 characters long |
| Ingest.BuildEmbeddingInputs | ingest/ingest_news.py:85-99 | the texts are every article's chunks in order; entry `k` pairs the `k`-th drawn id with the payload of text `k` |
| Ingest.AppendArticleChunks | ingest/ingest_news.py:89-99 | one article's pass appends its chunks to the texts and their payloads to the entries, in chunk order, each entry with the id drawn at its position |
| Ingest.PairBatch | ingest/ingest_news.py:107-109 | in `BatchPoints`, embedding `j` becomes a point with entry `start + j`'s id and payload, in order; the pairing fails exactly when the embeddings run past the end of `meta_list` |
| Ingest.BatchAt | ingest/ingest_news.py:103-104 | every batch the loop takes holds between 1 and 16 texts |
| Ingest.UpsertBatches | ingest/ingest_news.py:101-110 | batch `b` is the slice of the texts starting at `16*b`, and batches come in order. A run that does not fail takes `ceil(n/16)` batches and upserts each. In the batch starting at `i`, embedding `j` becomes a point with `meta_list[i+j]`'s id and payload. More embeddings than entries ends the run with an index error after the batches before it were upserted. An embedder returning one vector per text never fails |
| Ingest.BatchesAreSplit | ingest/ingest_news.py:102-104 | the batches taken are exactly the fixed-width 16-text pieces: they concatenate back to all texts, in order, and only the last may be shorter |
| Ingest.UpsertCoverage | ingest/ingest_news.py:103-109 | given one vector per text, the points laid end to end are the entries in order, each with the vector of its own text |
| Ingest.RunIngest | ingest/ingest_news.py:66-110 | given an embedder returning one vector per text, every chunk of every gathered article is upserted exactly once, under its drawn id and with its own payload |

## Left out

- The HTTP calls to the embedding service, the vector index and the language model are not modelled. They go through `embedQueryText` (`backend/src/server.js:18-23`), `backend/src/qdrantClient.js` and `backend/src/geminiClient.js`. `Chat` receives each call's outcome as a parameter. The index client's `result || data` fallback is folded into how the search results are supplied.
- A search result whose `results` is not a list is not modelled. Neither is a non-string `sessionId`, `message`, `title` or `link`. All request and payload fields are strings or missing. A non-integer `topK` is not modelled: `topK` is an integer or missing. A reply whose `text` or `output` is truthy but not a string is not modelled. The source would store and return such a value as it is.
- Store failures are not modelled. A Redis command that throws would also end `/chat` with a 500. `/history` and `/reset` have no handler for it.
- JSON encoding of turns on the way into and out of Redis is not modelled: turns are stored as values, a faithful round trip. `JSON.stringify(gemResp)` is the reply's `serialized` field. A missing reply (`gemResp` undefined) is not modelled.
- Concurrent requests on one session are not modelled. The model is sequential.
- The clock is not modelled. `Date.now()` readings are parameters of `Chat`, and the store's clock is taken to equal the handler's clock at each write.
- Express setup, CORS, body parsing, logging and `app.listen` are not modelled.
- Fetching and parsing the RSS feeds and article pages (`fetch_article_from_feed`) is not modelled. The feeds arrive as the articles their entries yield. The 30-entry cap is modelled on those lists.
- The embedding client (`embed_texts`) is not modelled. It is the function parameter `embed`.
- `uuid.uuid4()` is not modelled. It is the parameter `pidOf`, the id drawn for the `k`-th chunk.
- Qdrant collection creation, the upsert call itself, `time.sleep` and the progress output are not modelled. `UpsertBatches` returns the point lists it would upsert.
- The frontend is not part of this model.
- Chunking.ChunkText: requires a positive `max_chars`. Empty text gives no chunk for any width. On non-empty text the source's loop does not terminate with zero or a negative width.
- Ingest.RunIngest: states coverage only for an embedder that returns one vector per input. With fewer vectors, `UpsertBatches` still states the pairing of each vector with its entry, but some chunks are never upserted.
