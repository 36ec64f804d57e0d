/** backend/app/processor.py: processing a user's tracks that have no
    embedding yet. The database query's answer is a parameter, and the
    per-track work (download, embedding, storing) is an oracle that either
    returns normally or raises with a message. Also the shaping of the
    single-row insert in `save_embedding`. */
module Processor {
  import opened Values
  import opened VectorStore

  const TableName := "song_embeddings"
  /** The track columns that are not metadata. */
  const Excluded: set<string> := {"id", "preview_url", "embedding", "created_at", "updated_at"}
  const NoPreviewReason := "No preview URL"
  const Completed := "completed"
  const StoreFailed := "Failed to store embedding: "
  const UnexpectedId := "SupabaseVectorStore.__init__() got an unexpected keyword argument 'id'"

  /** The metadata comprehension: every column of the track except the excluded ones. */
  function ExtractMetadata(track: Dict): (m: Dict)
    ensures m.Keys == track.Keys - Excluded
    ensures forall k :: k in m ==> m[k] == track[k]
  {
    map k | k in track && k !in Excluded :: Get(track, k)
  }

  /** The arguments of one `process_track_with_metadata` call. */
  datatype Call = Call(id: Value, audioUrl: Value, metadata: Dict)

  /** An entry of `failed_tracks`. */
  datatype FailedTrack = FailedTrack(id: Value, reason: string)

  /** The dictionary `process_user_tracks` returns. */
  datatype Summary = Summary(status: string, totalTracks: nat, processedTracks: nat,
                             failedTracks: seq<FailedTrack>, userId: string)

  /** The answer to the query for the user's tracks with a null embedding. */
  datatype QueryResponse = QueryResponse(error: Value, data: seq<Dict>)

  /** `track.get("preview_url")` is truthy. */
  predicate HasPreview(track: Dict)
  {
    Truthy(Get(track, "preview_url"))
  }

  function CallFor(track: Dict): Call
  {
    Call(Get(track, "id"), Get(track, "preview_url"), ExtractMetadata(track))
  }

  /** The failure a track leaves, if any: no preview URL, or the message of
      the exception its processing raised (`process` answers None when it
      returns normally). */
  function FailureOf(track: Dict, process: Call -> Option<string>): Option<FailedTrack>
  {
    if !HasPreview(track) then Some(FailedTrack(Get(track, "id"), NoPreviewReason))
    else match process(CallFor(track))
      case None => None
      case Some(message) => Some(FailedTrack(Get(track, "id"), message))
  }

  /** `[f]` for a failure `f`, `[]` for none. */
  function Listed(failure: Option<FailedTrack>): seq<FailedTrack>
  {
    match failure
    case None => []
    case Some(f) => [f]
  }

  /** The failures of the given tracks, in track order. */
  function FailedTracks(tracks: seq<Dict>, process: Call -> Option<string>): seq<FailedTrack>
  {
    if tracks == [] then []
    else FailedTracks(tracks[..|tracks| - 1], process) + Listed(FailureOf(tracks[|tracks| - 1], process))
  }

  /** How many of the given tracks were processed without failure. */
  function ProcessedCount(tracks: seq<Dict>, process: Call -> Option<string>): nat
  {
    if tracks == [] then 0
    else ProcessedCount(tracks[..|tracks| - 1], process) + (if FailureOf(tracks[|tracks| - 1], process).None? then 1 else 0)
  }

  /** The processing calls made for the given tracks, in order. */
  function Calls(tracks: seq<Dict>): seq<Call>
  {
    if tracks == [] then []
    else Calls(tracks[..|tracks| - 1]) + if HasPreview(tracks[|tracks| - 1]) then [CallFor(tracks[|tracks| - 1])] else []
  }

  /** How many of the given calls return normally. */
  function CountSucceeded(calls: seq<Call>, process: Call -> Option<string>): nat
  {
    if calls == [] then 0
    else CountSucceeded(calls[..|calls| - 1], process) + if process(calls[|calls| - 1]).None? then 1 else 0
  }

  /** `process_user_tracks(user_id)`: missing credentials raise ValueError
      and a query error raises, both before any track is processed;
      otherwise every track is either processed or recorded as failed, and
      the summary reports them. */
  method ProcessUserTracks(userId: string, env: Env, response: QueryResponse,
                           process: Call -> Option<string>)
    returns (r: Result<Summary, Error>, calls: seq<Call>)
    ensures Credentials(env).Failure? ==> r == Failure(ValueError(EnvMissing)) && calls == []
    ensures Credentials(env).Success? && Truthy(response.error) ==>
              r == Failure(QueryFailed(response.error)) && calls == []
    ensures Credentials(env).Success? && !Truthy(response.error) ==>
              && r == Success(Summary(Completed, |response.data|, ProcessedCount(response.data, process),
                                      FailedTracks(response.data, process), userId))
              && calls == Calls(response.data)
    ensures r.Success? ==> r.value.processedTracks + |r.value.failedTracks| == r.value.totalTracks
  {
    calls := [];
    if !IsSet(env, UrlVar) || !IsSet(env, KeyVar) {
      return Failure(ValueError(EnvMissing)), calls;
    }
    if Truthy(response.error) {
      return Failure(QueryFailed(response.error)), calls;
    }
    var tracks := response.data;
    var processedCount: nat := 0;
    var failedTracks: seq<FailedTrack> := [];
    for i := 0 to |tracks|
      invariant processedCount == ProcessedCount(tracks[..i], process)
      invariant failedTracks == FailedTracks(tracks[..i], process)
      invariant calls == Calls(tracks[..i])
      invariant processedCount + |failedTracks| == i
    {
      var track := tracks[i];
      assert tracks[..i + 1][..i] == tracks[..i];
      if !HasPreview(track) {
        failedTracks := failedTracks + [FailedTrack(Get(track, "id"), NoPreviewReason)];
        continue;
      }
      var metadata := ExtractMetadata(track);
      var call := Call(Get(track, "id"), Get(track, "preview_url"), metadata);
      calls := calls + [call];
      var outcome := process(call);
      if outcome.None? {
        processedCount := processedCount + 1;
      } else {
        failedTracks := failedTracks + [FailedTrack(Get(track, "id"), outcome.value)];
      }
    }
    assert tracks[..|tracks|] == tracks;
    r := Success(Summary(Completed, |tracks|, processedCount, failedTracks, userId));
  }

  /** Every track is counted once, as processed or as failed. */
  lemma {:induction false} CountsAddUp(tracks: seq<Dict>, process: Call -> Option<string>)
    ensures ProcessedCount(tracks, process) + |FailedTracks(tracks, process)| == |tracks|
  {
    if tracks != [] {
      CountsAddUp(tracks[..|tracks| - 1], process);
    }
  }

  /** The index of every failing track, in increasing order. */
  function FailedIndices(tracks: seq<Dict>, process: Call -> Option<string>): seq<nat>
  {
    if tracks == [] then []
    else FailedIndices(tracks[..|tracks| - 1], process) + (if FailureOf(tracks[|tracks| - 1], process).Some? then [|tracks| - 1] else [])
  }

  /** The failing indices are indices of the tracks, in increasing order. */
  lemma {:induction false} FailedIndicesIncrease(tracks: seq<Dict>, process: Call -> Option<string>)
    ensures forall j :: 0 <= j < |FailedIndices(tracks, process)| ==> FailedIndices(tracks, process)[j] < |tracks|
    ensures forall j, j' :: 0 <= j < j' < |FailedIndices(tracks, process)| ==>
              FailedIndices(tracks, process)[j] < FailedIndices(tracks, process)[j']
  {
    if tracks != [] {
      var n := |tracks| - 1;
      FailedIndicesIncrease(tracks[..n], process);
      var frontIdx := FailedIndices(tracks[..n], process);
      var idx := FailedIndices(tracks, process);
      assert idx == frontIdx + (if FailureOf(tracks[n], process).Some? then [n] else []);
      assert |tracks[..n]| == n;
      assert forall j :: 0 <= j < |frontIdx| ==> frontIdx[j] < n;
      assert forall j :: 0 <= j < |frontIdx| ==> idx[j] == frontIdx[j];
      assert forall j :: |frontIdx| <= j < |idx| ==> idx[j] == n;
    }
  }

  /** Entry `j` of `failed_tracks` is the failure of track `FailedIndices[j]`. */
  lemma {:induction false} FailedEntriesMatch(tracks: seq<Dict>, process: Call -> Option<string>)
    ensures var idx := FailedIndices(tracks, process);
            var failed := FailedTracks(tracks, process);
            && |idx| == |failed|
            && (forall j :: 0 <= j < |idx| ==> idx[j] < |tracks| && FailureOf(tracks[idx[j]], process) == Some(failed[j]))
  {
    if tracks != [] {
      var n := |tracks| - 1;
      var front := tracks[..n];
      FailedEntriesMatch(front, process);
      var frontIdx := FailedIndices(front, process);
      var frontFailed := FailedTracks(front, process);
      var f := FailureOf(tracks[n], process);
      assert FailedIndices(tracks, process) == frontIdx + (if f.Some? then [n] else []);
      assert FailedTracks(tracks, process) == frontFailed + Listed(f);
      forall j | 0 <= j < |frontIdx|
        ensures tracks[frontIdx[j]] == front[frontIdx[j]]
      {
      }
    }
  }

  /** Every failing track has its index among the failing indices. */
  lemma {:induction false} FailedIndicesComplete(tracks: seq<Dict>, process: Call -> Option<string>)
    ensures forall i :: 0 <= i < |tracks| && FailureOf(tracks[i], process).Some? ==> i in FailedIndices(tracks, process)
  {
    if tracks != [] {
      var n := |tracks| - 1;
      var front := tracks[..n];
      FailedIndicesComplete(front, process);
      assert forall i :: 0 <= i < n ==> front[i] == tracks[i];
    }
  }

  /** `failed_tracks` lists exactly the failing tracks, each once, in input
      order: entry `j` is the failure of track `FailedIndices[j]`, those
      indices increase, and every failing track has its index among them. */
  lemma FailedInInputOrder(tracks: seq<Dict>, process: Call -> Option<string>)
    ensures var idx := FailedIndices(tracks, process);
            var failed := FailedTracks(tracks, process);
            && |idx| == |failed|
            && (forall j :: 0 <= j < |idx| ==> idx[j] < |tracks| && FailureOf(tracks[idx[j]], process) == Some(failed[j]))
            && (forall j, j' :: 0 <= j < j' < |idx| ==> idx[j] < idx[j'])
            && (forall i :: 0 <= i < |tracks| && FailureOf(tracks[i], process).Some? ==> i in idx)
  {
    FailedIndicesIncrease(tracks, process);
    FailedEntriesMatch(tracks, process);
    FailedIndicesComplete(tracks, process);
  }

  /** Only tracks with a preview URL are handed to processing, and none of
      them carries an excluded column in its metadata. */
  lemma {:induction false} CallsHavePreview(tracks: seq<Dict>)
    ensures forall j :: 0 <= j < |Calls(tracks)| ==>
              Truthy(Calls(tracks)[j].audioUrl) && Calls(tracks)[j].metadata.Keys !! Excluded
  {
    if tracks != [] {
      CallsHavePreview(tracks[..|tracks| - 1]);
    }
  }

  /** `processed_tracks` counts the processing calls that returned normally. */
  lemma {:induction false} ProcessedAreSucceededCalls(tracks: seq<Dict>, process: Call -> Option<string>)
    ensures ProcessedCount(tracks, process) == CountSucceeded(Calls(tracks), process)
  {
    if tracks != [] {
      var front := tracks[..|tracks| - 1];
      ProcessedAreSucceededCalls(front, process);
      if HasPreview(tracks[|tracks| - 1]) {
        assert (Calls(front) + [CallFor(tracks[|tracks| - 1])])[..|Calls(front)|] == Calls(front);
      } else {
        assert Calls(tracks) == Calls(front);
      }
    }
  }

  /** `SupabaseConnectionError(f"Failed to store embedding: {e}")` */
  function Wrap(e: Error): Error
  {
    ConnectionError(StoreFailed + Message(e))
  }

  /** `[metadata] if metadata else [{}]`: the one-element list of the
      metadata either way, since the empty dict is `{}`. */
  function MetadataList(metadata: Dict): (r: seq<Dict>)
    ensures r == [metadata]
  {
    if |metadata| > 0 then [metadata] else [map[]]
  }

  const Unhashable := "unhashable type: 'list'"

  /** Some metadata value is a list, which Python cannot hash. */
  predicate HasListValue(metadata: Dict)
  {
    exists k :: k in metadata && metadata[k].Vector?
  }

  /** The allow-list loop of add_embeddings over `record` when the columns
      are `metadata.items()`: each column is a (key, value) pair, and testing
      `pair in metadata[0]` hashes it. A pair whose value is a list raises
      TypeError; any other pair is not a string key, so the test is false,
      nothing is copied and the record comes back as it went in. */
  method ProbePairColumns(record: Record, metadata: Dict) returns (r: Outcome<Error>, copied: Record)
    ensures r.Fail? <==> HasListValue(metadata)
    ensures r.Fail? ==> r.error == TypeError(Unhashable)
    ensures r.Pass? ==> copied == record
  {
    copied := record;
    var pending := metadata.Keys;
    while pending != {}
      invariant pending <= metadata.Keys
      invariant forall k :: k in metadata && k !in pending ==> !metadata[k].Vector?
      decreases |pending|
    {
      var k :| k in pending;
      if metadata[k].Vector? {
        return Fail(TypeError(Unhashable)), copied;
      }
      pending := pending - {k};
    }
    return Pass, copied;
  }

  /** The keywords `save_embedding` passes to the constructor, in call order. */
  const SaveKeywords := ["id", "table_name", "embedding_column", "content_column", "metadata_columns"]

  /** The body of `save_embedding`, with the constructor call's keywords as a
      parameter: binding them fails with TypeError on the first unknown one
      before anything else runs; then the configuration error, the
      IndexError of `embedding[0]` on an empty array, and the TypeError of
      hashing a list-valued pair, in that order. Every error comes back
      wrapped with nothing sent; otherwise exactly one insert of one row
      holding the first embedding row and the URL, and no metadata, since no
      pair equals a string key. */
  method SaveWithKeywords(keywords: seq<string>, env: Env, answer: (string, Dict) -> seq<Dict>,
                          embedding: seq<Embedding>, audioUrl: string, metadata: Dict)
    returns (r: Outcome<Error>, ghost sent: seq<Request>)
    ensures UnknownKeyword(keywords).Some? ==>
              r == Fail(Wrap(TypeError(UnexpectedKeyword(keywords[UnknownKeyword(keywords).value]))))
    ensures UnknownKeyword(keywords).None? && Credentials(env).Failure? ==> r == Fail(Wrap(ValueError(EnvMissing)))
    ensures UnknownKeyword(keywords).None? && Credentials(env).Success? && embedding == [] ==>
              r == Fail(Wrap(IndexError))
    ensures UnknownKeyword(keywords).None? && Credentials(env).Success? && embedding != [] && HasListValue(metadata) ==>
              r == Fail(Wrap(TypeError(Unhashable)))
    ensures UnknownKeyword(keywords).None? && Credentials(env).Success? && embedding != [] && !HasListValue(metadata) ==>
              r == Pass
    ensures r.Fail? ==> sent == []
    ensures r.Pass? ==>
              sent == [InsertRows(TableName, [map["embedding" := Vector(embedding[0]), "preview_url" := Str(audioUrl)]])]
  {
    var unknown := UnknownKeyword(keywords);
    if unknown.Some? {
      return Fail(Wrap(TypeError(UnexpectedKeyword(keywords[unknown.value])))), [];
    }
    var created := SupabaseVectorStore.Create(env, answer, TableName, "embedding", "preview_url", Some([]));
    if created.Failure? {
      return Fail(Wrap(created.error)), [];
    }
    var store := created.value;
    if |embedding| == 0 {
      return Fail(Wrap(IndexError)), [];
    }
    var row := map["embedding" := Vector(embedding[0]), "preview_url" := Str(audioUrl)];
    var probe, _ := ProbePairColumns(row, metadata);
    if probe.Fail? {
      return Fail(Wrap(probe.error)), [];
    }
    var added := store.AddEmbeddings([embedding[0]], [audioUrl], Some(MetadataList(metadata)));
    sent := store.client.log;
    r := match added
      case Pass => Pass
      case Fail(e) => Fail(Wrap(e));
    SavedRow(embedding[0], audioUrl, metadata);
  }

  /** `save_embedding` as written: the constructor call passes `id=`, which
      the constructor does not take, so whatever the credentials, the
      embedding, the URL and the metadata, the call fails with the wrapped
      TypeError and sends nothing. */
  method SaveEmbeddingAsWritten(env: Env, answer: (string, Dict) -> seq<Dict>, embedding: seq<Embedding>,
                                audioUrl: string, metadata: Dict)
    returns (r: Outcome<Error>, ghost sent: seq<Request>)
    ensures r == Fail(ConnectionError(StoreFailed + UnexpectedId))
    ensures sent == []
  {
    assert UnknownKeyword(SaveKeywords) == Some(0);
    assert UnexpectedKeyword(SaveKeywords[0]) == UnexpectedId;
    r, sent := SaveWithKeywords(SaveKeywords, env, answer, embedding, audioUrl, metadata);
  }

  /** `save_embedding` without the `id=` argument, which every keyword it
      passes then binds: the outcomes of SaveWithKeywords past the binding
      step. */
  method SaveEmbedding(env: Env, answer: (string, Dict) -> seq<Dict>, embedding: seq<Embedding>,
                       audioUrl: string, metadata: Dict)
    returns (r: Outcome<Error>, ghost sent: seq<Request>)
    ensures Credentials(env).Failure? ==> r == Fail(Wrap(ValueError(EnvMissing)))
    ensures Credentials(env).Success? && embedding == [] ==> r == Fail(Wrap(IndexError))
    ensures Credentials(env).Success? && embedding != [] && HasListValue(metadata) ==>
              r == Fail(Wrap(TypeError(Unhashable)))
    ensures Credentials(env).Success? && embedding != [] && !HasListValue(metadata) ==> r == Pass
    ensures r.Fail? ==> sent == []
    ensures r.Pass? ==>
              sent == [InsertRows(TableName, [map["embedding" := Vector(embedding[0]), "preview_url" := Str(audioUrl)]])]
  {
    assert UnknownKeyword(SaveKeywords[1..]) == None;
    r, sent := SaveWithKeywords(SaveKeywords[1..], env, answer, embedding, audioUrl, metadata);
  }

  /** The one row save_embedding inserts holds the embedding and the URL
      only: with no metadata columns, the metadata adds nothing. */
  lemma SavedRow(e: Embedding, audioUrl: string, metadata: Dict)
    ensures Records(Columns("embedding", "preview_url", []), [e], [audioUrl], Some([metadata])) ==
            [map["embedding" := Vector(e), "preview_url" := Str(audioUrl)]]
  {
    var cols := Columns("embedding", "preview_url", []);
    assert Allowed(metadata, []) == map[];
    assert MetadataAt(Some([metadata]), 0) == Some(metadata);
    assert BuildRecord(cols, e, audioUrl, Some(metadata)) ==
           map["embedding" := Vector(e), "preview_url" := Str(audioUrl)];
  }
}
