# semantic-dj core, modelled in Dafny

semantic-dj collects a listener's saved Spotify tracks and downloads their
30-second Deezer previews. It turns each preview into a CLAP audio embedding
and stores the embeddings in a Supabase table, where a `match_embeddings`
function finds similar songs. This project models the deterministic logic
that sits between those remote and numeric calls, and proves what it does:

- `VectorStore` (vector_store.dfy): the `SupabaseVectorStore` gateway. It
  checks the configuration, checks batch lengths, shapes one row per item
  with allow-listed metadata, and builds the `match_embeddings` RPC and
  delete queries. The Supabase client is a class whose ghost `log` records
  every request it executes.
- `Filenames` (filenames.dfy): `get_safe_filename`, the `.mp3` to `.npy`
  rename of the embedding file, and joining a name onto a directory.
- `Deezer` (deezer.dfy): the `search_deezer_track` retry loop. It has a
  20 ms pause before each request and exponential backoff after a rate limit
  or an exception. The network is an oracle; sleeps are integer milliseconds.
- `Downloader` (downloader.dfy): `get_liked_songs` over a sequence of pages.
  Also the skip, search and write decisions of `download_preview` over a
  file system object.
- `Processor` (processor.dfy): `process_user_tracks` (metadata filter,
  processed/failed bookkeeping, summary) and the single-row insert of
  `save_embedding`.
- `Values` (values.dfy): Option/Result wrappers, dynamically typed values,
  Python truthiness and the exceptions raised.

`get_safe_filename` and `search_deezer_track` exist twice in the source, in
backend/pipeline.py and in downloading/spotify_downloader.py. The two
copies are identical, so each is modelled once.

## Model

| member | source | states |
|---|---|---|
| VectorStore.Credentials | backend/vector_store.py:25-31 | fails with the ValueError exactly when SUPABASE_URL or SUPABASE_KEY is missing or empty; otherwise yields both values, non-empty |
| VectorStore.SupabaseVectorStore.Create | backend/vector_store.py:8-35 | raises ValueError and creates no client when a credential is missing; otherwise a fresh client that has sent nothing, with the given table and columns and `None` metadata columns read as `[]` |
| VectorStore.CheckBatch | backend/vector_store.py:50-54 | passes exactly when the embedding and content counts match and a non-empty metadata list has that length too; the contents mismatch is reported first; a `None` or empty metadata list skips the second check |
| VectorStore.SupabaseVectorStore.AddEmbeddings | backend/vector_store.py:37-70 | a failed length check sends nothing; otherwise exactly one insert into the store's table carrying one row per item in input order, empty batches included |
| VectorStore.InsertedRecordFields | backend/vector_store.py:56-68 | row i has exactly the embedding column, the content column and the allow-listed keys present in metadata item i; metadata values are copied unchanged, and later assignments win when columns coincide |
| VectorStore.NoColumnsNoMetadata | backend/vector_store.py:35 | with no metadata columns, a row holds only the embedding and content columns, whatever metadata is given |
| VectorStore.AllowedStep | backend/vector_store.py:64-66 | one step of the allow-list loop adds the column exactly when the metadata item has it |
| VectorStore.SupabaseVectorStore.CopyMetadata | backend/vector_store.py:63-66 | the record gains exactly the allow-listed columns present in the metadata item, with their values |
| VectorStore.SupabaseVectorStore.SearchSimilar | backend/vector_store.py:72-107 | exactly one `match_embeddings` RPC with the query, `match_threshold` = the threshold and `match_count` = the count, unchecked; returns the database's rows unchanged |
| VectorStore.SupabaseVectorStore.DeleteEmbeddings | backend/vector_store.py:109-120 | exactly one delete on the store's table whose equality constraints are the filter's entries in order; an empty filter gives a delete with no constraint |
| Filenames.Filter | backend/pipeline.py:168 | the result is no longer than the input and every character is alphanumeric, space, `-`, `_` or `.` |
| Filenames.FilterAppend | backend/pipeline.py:168 | filtering distributes over concatenation |
| Filenames.FilterKeepsSafe | backend/pipeline.py:168 | a string made only of kept characters is returned unchanged |
| Filenames.FilterIdempotent | backend/pipeline.py:168 | filtering a filtered string changes nothing |
| Filenames.FilterIsSubsequence | backend/pipeline.py:165-168 | the result is an order-preserving subsequence of the input |
| Filenames.FilterCounts | backend/pipeline.py:168 | the result keeps every safe character as often as the input has it, and no unsafe one |
| Filenames.SafeFilenameParts | backend/pipeline.py:167-168 | the safe name is filter(artist) + " - " + filter(track) + ".mp3" |
| Filenames.SafeFilenameShape | downloading/spotify_downloader.py:152-155 | the safe name ends in ".mp3", holds only safe characters and never a '/' |
| Filenames.Mp3ToNpy | backend/pipeline.py:207 | the rename keeps the name's length |
| Filenames.Mp3ToNpyEnds | backend/pipeline.py:207 | a name ending in ".mp3" becomes one ending in ".npy" |
| Filenames.ShortNameHasOneMp3 | backend/pipeline.py:207 | a name of 5 to 7 characters ending in ".mp3" does not also start with it |
| Filenames.Mp3ToNpySafe | backend/pipeline.py:207 | the rename keeps a safe name safe |
| Filenames.JoinBasename | backend/pipeline.py:206-207 | a name without '/' joined onto any directory is the last component of the path |
| Filenames.EmbeddingPathShape | backend/pipeline.py:205-207 | the embedding file sits directly in the embeddings directory; its name ends in ".npy", is safe, and is as long as the preview's name |
| Filenames.PreviewPathShape | backend/pipeline.py:205-206 | the preview file sits directly in the preview directory under the safe name |
| Deezer.SearchDeezerTrack | backend/pipeline.py:120-163 | the loop's result, request count and pauses equal the branch-by-branch search function |
| Deezer.AfterAssoc | backend/pipeline.py:136-161 | pauses taken before a run compose: two prefixes in turn equal their concatenation |
| Deezer.ScheduleCons | backend/pipeline.py:139-159 | the pause schedule of attempts lo..hi is attempt lo's pauses followed by the schedule of lo+1..hi |
| Deezer.StepContinues | backend/pipeline.py:136-159 | an attempt that lets the loop go on (empty 200, 403/429, retried exception) pauses by its delays and the search goes on with the next attempt |
| Deezer.StepStops | backend/pipeline.py:143-161 | an attempt that ends the loop makes its pause and returns data[0] for a hit, None otherwise |
| Deezer.SearchFromOutcome | downloading/spotify_downloader.py:123-150 | from any attempt on: every request but the last lets the loop go on, an early stop comes only from an attempt that ends the loop, a result is returned exactly after a hit and is its first data element, and the pauses follow the schedule |
| Deezer.SearchOutcome | downloading/spotify_downloader.py:123-150 | at most max_retries requests and none when max_retries <= 0; the result is non-None exactly when the last request was a 200 with non-empty data, and then it is data[0]; the pauses are 20 ms before each request plus 2^k x 20 ms after a 403/429 or 2^k s after a retried exception |
| Deezer.FirstStopDecides | downloading/spotify_downloader.py:130-148 | the first attempt that does not let the loop go on decides the result after exactly k+1 requests: data[0] for a hit, None for another status or an exception on the last attempt |
| Deezer.ExhaustedReturnsNone | downloading/spotify_downloader.py:123-150 | when every attempt lets the loop go on, all max_retries requests are made and the result is None |
| Downloader.GetLikedSongs | downloading/spotify_downloader.py:57-71 | fetches pages up to and including the first without a next link, returns their items concatenated in page order, and calls `sp.next` once per fetched page that has a next link |
| Downloader.CountLinkedAll | downloading/spotify_downloader.py:66-67 | pages that all carry a next link are counted once each |
| Downloader.DownloadPreview | downloading/spotify_downloader.py:157-190 | a track without artists raises IndexError before any check, search or write; an existing target means no search and no write; otherwise exactly one Deezer search; no match or no preview writes nothing; a 200 download writes the content to exactly `output_dir/get_safe_filename(...)`; any other status writes nothing |
| Processor.ExtractMetadata | backend/app/processor.py:190-193 | the metadata keys are exactly the track's keys minus id, preview_url, embedding, created_at and updated_at, with values copied |
| Processor.ProcessUserTracks | backend/app/processor.py:143-218 | missing credentials raise ValueError, then a truthy query error raises, both before any track is processed; otherwise status "completed", total = number of tracks, the user id echoed, and processed + failed = total; only tracks with a preview URL are processed |
| Processor.CountsAddUp | backend/app/processor.py:174-210 | every track is counted once, as processed or as failed, never both |
| Processor.FailedIndicesIncrease | backend/app/processor.py:178-210 | the failing tracks' indices are track indices, in increasing order |
| Processor.FailedEntriesMatch | backend/app/processor.py:181-210 | entry j of failed_tracks is the failure of the j-th failing track: its id with "No preview URL" or the exception's message |
| Processor.FailedIndicesComplete | backend/app/processor.py:178-210 | every failing track has an entry |
| Processor.FailedInInputOrder | backend/app/processor.py:178-210 | failed_tracks lists exactly the failing tracks, each once and in input order, with "No preview URL" or the exception's message as reason |
| Processor.CallsHavePreview | backend/app/processor.py:181-200 | a track without a preview URL is never processed, and no processed track's metadata holds an excluded column |
| Processor.ProcessedAreSucceededCalls | backend/app/processor.py:195-202 | processed_tracks counts exactly the processing calls that returned normally |
| Processor.MetadataList | backend/app/processor.py:119 | `[metadata] if metadata else [{}]` is the one-element list of the metadata either way |
| Processor.ProbePairColumns | backend/vector_store.py:63-66 | with `metadata.items()` (backend/app/processor.py:113) as columns, the membership test raises TypeError exactly when some metadata value is a list, and otherwise hands back the record it was given, unchanged |
| Processor.SavedRow | backend/app/processor.py:116-120 | the row inserted holds only the embedding row and the URL |
| Processor.SaveEmbedding | backend/app/processor.py:105-125 | with the `id=` argument dropped: a configuration error, an empty embedding, or a list-valued metadata entry comes back as a wrapped connection error, in that order, with nothing sent; otherwise exactly one insert into song_embeddings of one row holding embedding[0] and the URL |
| VectorStore.UnknownKeyword | backend/vector_store.py:8-14 | binding keyword arguments to the constructor finds no unknown keyword exactly when every keyword is one of its four parameters; otherwise it points at the first unknown one in call order |
| Processor.SaveWithKeywords | backend/app/processor.py:105-125 | the save path with the constructor's keywords as given: an unknown keyword fails first with the wrapped TypeError naming it; past binding, a configuration error, an empty embedding or a list-valued metadata entry fails wrapped in that order; every failure sends nothing, and success sends exactly one insert of one row holding embedding[0] and the URL |
| Processor.SaveEmbeddingAsWritten | backend/app/processor.py:108-114 | with the keywords as written (`id` first), every call, whatever the credentials, embedding, URL and metadata, fails with "Failed to store embedding: " and the unexpected-keyword message for `id`, and sends nothing |

## Left out

- Spotify OAuth, the Spotify embed-page scraping, and the HTTP transport: pages, Deezer answers and preview downloads are parameters or oracles.
- CLAP, torch, librosa and pydub decoding and inference: embeddings are opaque sequences of reals, and processing one track is an oracle that returns normally or raises with a message.
- FastAPI, the server entry points, the example script, logging, `print` and `load_dotenv`.
- The Supabase client internals and the server-side `match_embeddings` function: the RPC's answer is a function of its name and arguments. It does not depend on rows inserted before.
- Exceptions raised by `execute()` or by `requests.get` in the store and the downloader are not modelled; the Deezer loop does model a raised request.
- Sleeps are integer milliseconds, not float seconds: 20 ms is `1.0 / 50` s.
- The URL encoding of the Deezer query and the track and artist text it carries; the search is keyed by the network oracle alone.
- Filenames.IsAlnum: `str.isalnum` is modelled for ASCII letters and digits only; other Unicode letters and digits are dropped by the model but kept by Python.
- Downloader.PreviewUrl: a truthy `preview` that is not a string is treated as no preview.
- Downloader.GetLikedSongs: the items are returned as a new sequence; that the first page's `items` list is extended in place, and so aliased, is not modelled.
- Downloader.GetLikedSongs: the pages are a finite sequence that ends with a page without a next link; a pagination whose next links never run out, on which the loop would not end, is not modelled.
- Processor.ProcessUserTracks: the `SupabaseVectorStore()` it builds and the select query are represented by the query's answer alone; the module-level environment check at backend/app/processor.py:39-46 is not modelled.
- Processor.ProcessUserTracks: backend/app/processor.py:17 imports `SupabaseConnectionError`, which backend/vector_store.py does not define, so the module as written cannot be imported; the model treats that exception as a connection error kind.
- Processor.SaveEmbedding: the `metadata_columns=metadata.items()` argument is modelled by its effect. Hashing a (key, value) pair whose value is a list raises TypeError; any other pair never equals a string key, so no metadata is copied.
- Processor.ProbePairColumns: the row actually inserted after a passing probe is built by add_embeddings with no metadata columns, which gives the same row as the pair loop that copies nothing; the probe's record is not what is sent.
- `search_similar` computes a select list it never uses; it has no effect and is left out.
- `process_track` in backend/pipeline.py beyond the path derivation at lines 205-207 (existence check, encoding, saving) is not part of this model.

## Findings

| source | as written | input that shows it | evidently intended | confidence | as-written member | corrected member |
|---|---|---|---|---|---|---|
| backend/app/processor.py:108-114 | `SupabaseVectorStore(id=id, ...)` passes a keyword the constructor at backend/vector_store.py:8-14 does not accept, so every call raises TypeError and is rewrapped as "Failed to store embedding: ..." | any input, e.g. credentials set, embedding [[0.5]], any URL, metadata {} | build the store without `id` and insert one row | high (not executed) | Processor.SaveEmbeddingAsWritten | Processor.SaveEmbedding |
