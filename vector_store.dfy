/** The vector-store gateway of backend/vector_store.py: a thin layer that
    checks its configuration and its arguments, shapes rows and RPC
    arguments, and hands them to the Supabase client. The client is a
    class whose ghost `log` records every request it executes; the remote
    database's answer to an RPC is the client's `answer` function. */
module VectorStore {
  import opened Values

  const UrlVar := "SUPABASE_URL"
  const KeyVar := "SUPABASE_KEY"
  const EnvMissing := "SUPABASE_URL and SUPABASE_KEY must be set in environment variables"
  const ContentsMismatch := "Number of embeddings must match number of contents"
  const MetadataMismatch := "Number of metadata items must match number of embeddings"
  const MatchFunction := "match_embeddings"

  /** A one-dimensional numpy array, as the list `tolist()` makes of it. */
  type Embedding = seq<real>

  /** One row handed to an insert: column name to value. */
  type Record = Dict

  /** The process environment `os.getenv` reads from. */
  type Env = map<string, string>

  /** The requests a client executes against the database. */
  datatype Request =
    | InsertRows(table: string, records: seq<Record>)
    | CallRpc(name: string, params: Dict)
    | DeleteRows(table: string, constraints: seq<(string, Value)>)

  /** `client.table(t).delete()` followed by a chain of `.eq(column, value)`. */
  datatype DeleteQuery = DeleteQuery(table: string, constraints: seq<(string, Value)>)
  {
    /** `.eq(column, value)`: one more equality constraint, after the others. */
    function Eq(column: string, value: Value): DeleteQuery
    {
      DeleteQuery(table, constraints + [(column, value)])
    }
  }

  /** The client `create_client(url, key)` returns. */
  class Client {
    const url: string
    const key: string
    /** What the database returns as `response.data` for an RPC. */
    const answer: (string, Dict) -> seq<Dict>
    /** Every request executed through this client, oldest first. */
    ghost var log: seq<Request>

    constructor (url: string, key: string, answer: (string, Dict) -> seq<Dict>)
      ensures this.url == url && this.key == key && this.answer == answer
      ensures log == []
    {
      this.url := url;
      this.key := key;
      this.answer := answer;
      log := [];
    }

    /** `client.table(table).insert(records).execute()` */
    method Insert(table: string, records: seq<Record>)
      modifies this
      ensures log == old(log) + [InsertRows(table, records)]
    {
      log := log + [InsertRows(table, records)];
    }

    /** `client.rpc(name, params).execute().data` */
    method Rpc(name: string, params: Dict) returns (data: seq<Dict>)
      modifies this
      ensures log == old(log) + [CallRpc(name, params)]
      ensures data == answer(name, params)
    {
      log := log + [CallRpc(name, params)];
      data := answer(name, params);
    }

    /** `query.execute()` on a delete query. */
    method Execute(query: DeleteQuery)
      modifies this
      ensures log == old(log) + [DeleteRows(query.table, query.constraints)]
    {
      log := log + [DeleteRows(query.table, query.constraints)];
    }
  }

  /** The keyword parameters of the constructor. */
  const Parameters: set<string> := {"table_name", "embedding_column", "content_column", "metadata_columns"}

  /** Binding a call's keyword arguments to the constructor's parameters,
      which happens before the constructor body runs: the position of the
      first keyword, in call order, that the constructor does not take. */
  function UnknownKeyword(keywords: seq<string>): (r: Option<nat>)
    ensures r.None? <==> forall i :: 0 <= i < |keywords| ==> keywords[i] in Parameters
    ensures r.Some? ==> r.value < |keywords| && keywords[r.value] !in Parameters
    ensures r.Some? ==> forall i :: 0 <= i < r.value ==> keywords[i] in Parameters
  {
    if keywords == [] then None
    else if keywords[0] !in Parameters then Some(0)
    else match UnknownKeyword(keywords[1..])
      case None => None
      case Some(i) => Some(i + 1)
  }

  /** The message of the TypeError raised for an unknown keyword. */
  function UnexpectedKeyword(keyword: string): string
  {
    "SupabaseVectorStore.__init__() got an unexpected keyword argument '" + keyword + "'"
  }

  /** `os.getenv(name)` is neither `None` nor the empty string. */
  predicate IsSet(env: Env, name: string)
  {
    name in env && env[name] != ""
  }

  /** The configuration check at the start of the constructor: both
      variables must be set and non-empty, otherwise ValueError. */
  function Credentials(env: Env): (r: Result<(string, string), Error>)
    ensures r.Failure? <==> !IsSet(env, UrlVar) || !IsSet(env, KeyVar)
    ensures r.Failure? ==> r.error == ValueError(EnvMissing)
    ensures r.Success? ==> r.value.0 != "" && r.value.1 != ""
    ensures r.Success? ==> r.value == (env[UrlVar], env[KeyVar])
  {
    if !IsSet(env, UrlVar) || !IsSet(env, KeyVar) then Failure(ValueError(EnvMissing))
    else Success((env[UrlVar], env[KeyVar]))
  }

  /** `metadata_columns or []` */
  function ColumnsOrEmpty(columns: Option<seq<string>>): seq<string>
  {
    match columns
    case None => []
    case Some(cs) => cs
  }

  /** The column configuration a store shapes its rows with. */
  datatype Columns = Columns(embedding: string, content: string, metadata: seq<string>)

  /** `if metadata:` in add_embeddings: a list that is present and non-empty. */
  predicate HasMetadata(metadata: Option<seq<Dict>>)
  {
    metadata.Some? && |metadata.value| > 0
  }

  /** The two length checks of add_embeddings, in the order the code makes them. */
  function CheckBatch(embeddings: nat, contents: nat, metadata: Option<seq<Dict>>): (r: Outcome<Error>)
    ensures r.Pass? <==> embeddings == contents && (HasMetadata(metadata) ==> |metadata.value| == embeddings)
    ensures embeddings != contents ==> r == Fail(ValueError(ContentsMismatch))
    ensures embeddings == contents && r.Fail? ==> r == Fail(ValueError(MetadataMismatch))
  {
    if embeddings != contents then Fail(ValueError(ContentsMismatch))
    else if HasMetadata(metadata) && |metadata.value| != embeddings then Fail(ValueError(MetadataMismatch))
    else Pass
  }

  /** The entries of `md` whose key is on the allow-list. */
  function Allowed(md: Dict, allow: seq<string>): Dict
  {
    map k | k in md && k in allow :: md[k]
  }

  /** The row add_embeddings builds for one item: the embedding and content
      columns first, then every allow-listed key present in the item's
      metadata, later assignments overwriting earlier ones. */
  function BuildRecord(cols: Columns, e: Embedding, c: string, md: Option<Dict>): Record
  {
    var base := map[cols.embedding := Vector(e)][cols.content := Str(c)];
    match md
    case None => base
    case Some(d) => base + Allowed(d, cols.metadata)
  }

  /** The metadata dictionary that goes with item `i`, if metadata is used at all. */
  function MetadataAt(metadata: Option<seq<Dict>>, i: nat): Option<Dict>
    requires HasMetadata(metadata) ==> i < |metadata.value|
  {
    if HasMetadata(metadata) then Some(metadata.value[i]) else None
  }

  /** The batch add_embeddings inserts: one row per (embedding, content) pair. */
  function Records(cols: Columns, embeddings: seq<Embedding>, contents: seq<string>,
                   metadata: Option<seq<Dict>>): seq<Record>
    requires CheckBatch(|embeddings|, |contents|, metadata).Pass?
  {
    seq(|embeddings|, i requires 0 <= i < |embeddings| =>
      BuildRecord(cols, embeddings[i], contents[i], MetadataAt(metadata, i)))
  }

  /** What the inserted batch holds: row `i` is made of item `i`; its keys
      are the embedding column, the content column and the allow-listed
      keys of metadata item `i`, and nothing else; a metadata value wins
      over the content, and the content over the embedding, when columns
      coincide. */
  lemma InsertedRecordFields(cols: Columns, embeddings: seq<Embedding>, contents: seq<string>,
                             metadata: Option<seq<Dict>>, i: nat, k: string)
    requires CheckBatch(|embeddings|, |contents|, metadata).Pass?
    requires i < |embeddings|
    ensures |Records(cols, embeddings, contents, metadata)| == |embeddings|
    ensures var r := Records(cols, embeddings, contents, metadata)[i];
            var copied := HasMetadata(metadata) && k in metadata.value[i] && k in cols.metadata;
            && (k in r <==> k == cols.embedding || k == cols.content || copied)
            && (copied ==> r[k] == metadata.value[i][k])
            && (!copied && k == cols.content ==> r[k] == Str(contents[i]))
            && (!copied && k != cols.content && k == cols.embedding ==> r[k] == Vector(embeddings[i]))
  {
  }

  /** With no allow-listed columns, a row holds only the embedding and the content. */
  lemma NoColumnsNoMetadata(cols: Columns, e: Embedding, c: string, md: Option<Dict>)
    requires cols.metadata == []
    ensures BuildRecord(cols, e, c, md).Keys == {cols.embedding, cols.content}
  {
    match md
    case None =>
    case Some(d) => assert Allowed(d, []) == map[];
  }

  /** One step of the allow-list loop: looking at column `k` adds it when present. */
  lemma AllowedStep(md: Dict, allow: seq<string>, k: nat)
    requires k < |allow|
    ensures Allowed(md, allow[..k + 1]) ==
            if allow[k] in md then Allowed(md, allow[..k])[allow[k] := md[allow[k]]]
            else Allowed(md, allow[..k])
  {
    assert allow[..k + 1] == allow[..k] + [allow[k]];
  }

  /** The arguments of the `match_embeddings` RPC. */
  function MatchParams(query: Embedding, threshold: real, count: int): Dict
  {
    map["query_embedding" := Vector(query), "match_threshold" := Num(threshold), "match_count" := Int(count)]
  }

  class SupabaseVectorStore {
    const client: Client
    const tableName: string
    const embeddingColumn: string
    const contentColumn: string
    const metadataColumns: seq<string>

    /** Sets the fields once the configuration check has passed. */
    constructor Init(client: Client, tableName: string, embeddingColumn: string,
                     contentColumn: string, metadataColumns: seq<string>)
      ensures this.client == client && this.tableName == tableName
      ensures this.embeddingColumn == embeddingColumn && this.contentColumn == contentColumn
      ensures this.metadataColumns == metadataColumns
    {
      this.client := client;
      this.tableName := tableName;
      this.embeddingColumn := embeddingColumn;
      this.contentColumn := contentColumn;
      this.metadataColumns := metadataColumns;
    }

    /** `SupabaseVectorStore(...)`: fails with ValueError, creating no client,
        unless both credentials are set; otherwise a fresh client that has
        sent nothing, and the given columns with `None` read as `[]`. */
    static method Create(env: Env, answer: (string, Dict) -> seq<Dict>,
                         tableName: string := "embeddings", embeddingColumn: string := "embedding",
                         contentColumn: string := "content",
                         metadataColumns: Option<seq<string>> := None)
      returns (r: Result<SupabaseVectorStore, Error>)
      ensures r.Failure? <==> !IsSet(env, UrlVar) || !IsSet(env, KeyVar)
      ensures r.Failure? ==> r.error == ValueError(EnvMissing)
      ensures r.Success? ==> fresh(r.value) && fresh(r.value.client) && r.value.client.log == []
      ensures r.Success? ==> r.value.client.url == env[UrlVar] && r.value.client.key == env[KeyVar]
      ensures r.Success? ==> r.value.client.answer == answer
      ensures r.Success? ==> r.value.tableName == tableName && r.value.embeddingColumn == embeddingColumn
      ensures r.Success? ==> r.value.contentColumn == contentColumn
      ensures r.Success? ==> r.value.metadataColumns == ColumnsOrEmpty(metadataColumns)
    {
      var creds := Credentials(env);
      if creds.Failure? {
        return Failure(creds.error);
      }
      var client := new Client(creds.value.0, creds.value.1, answer);
      var store := new SupabaseVectorStore.Init(client, tableName, embeddingColumn, contentColumn,
                                                ColumnsOrEmpty(metadataColumns));
      return Success(store);
    }

    function Cols(): Columns
    {
      Columns(embeddingColumn, contentColumn, metadataColumns)
    }

    /** `add_embeddings`: after the two length checks, exactly one insert of
        the whole batch (empty batches included); a failed check sends nothing. */
    method AddEmbeddings(embeddings: seq<Embedding>, contents: seq<string>,
                         metadata: Option<seq<Dict>> := None)
      returns (r: Outcome<Error>)
      modifies client
      ensures r == CheckBatch(|embeddings|, |contents|, metadata)
      ensures r.Fail? ==> client.log == old(client.log)
      ensures r.Pass? ==> client.log == old(client.log) + [InsertRows(tableName, Records(Cols(), embeddings, contents, metadata))]
    {
      r := CheckBatch(|embeddings|, |contents|, metadata);
      if r.Fail? {
        return;
      }
      ghost var all := Records(Cols(), embeddings, contents, metadata);
      var records: seq<Record> := [];
      var i := 0;
      while i < |embeddings|
        invariant 0 <= i <= |embeddings|
        invariant records == all[..i]
        invariant client.log == old(client.log)
      {
        var record := map[embeddingColumn := Vector(embeddings[i])][contentColumn := Str(contents[i])];
        if HasMetadata(metadata) {
          record := CopyMetadata(record, metadata.value[i]);
        }
        assert record == all[i];
        records := records + [record];
        i := i + 1;
      }
      assert records == all;
      client.Insert(tableName, records);
    }

    /** The allow-list loop of add_embeddings: every metadata column present
        in `md` is set in the record to its metadata value, in column order. */
    method CopyMetadata(record: Record, md: Dict) returns (r: Record)
      ensures r == record + Allowed(md, metadataColumns)
    {
      r := record;
      var k := 0;
      while k < |metadataColumns|
        invariant 0 <= k <= |metadataColumns|
        invariant r == record + Allowed(md, metadataColumns[..k])
      {
        AllowedStep(md, metadataColumns, k);
        var key := metadataColumns[k];
        if key in md {
          r := r[key := md[key]];
        }
        k := k + 1;
      }
      assert metadataColumns[..k] == metadataColumns;
    }

    /** `search_similar`: one `match_embeddings` RPC carrying the query, the
        threshold and the count as given (no range check), returning the
        database's rows unchanged. */
    method SearchSimilar(queryEmbedding: Embedding, numResults: int := 5,
                         similarityThreshold: real := 0.0)
      returns (rows: seq<Dict>)
      modifies client
      ensures client.log == old(client.log) + [CallRpc(MatchFunction, MatchParams(queryEmbedding, similarityThreshold, numResults))]
      ensures rows == client.answer(MatchFunction, MatchParams(queryEmbedding, similarityThreshold, numResults))
    {
      rows := client.Rpc(MatchFunction, MatchParams(queryEmbedding, similarityThreshold, numResults));
    }

    /** `delete_embeddings`: one equality constraint per filter entry, in the
        dictionary's iteration order, then a single execution. An empty filter
        sends a delete with no constraint. */
    method DeleteEmbeddings(filter: seq<(string, Value)>)
      modifies client
      ensures client.log == old(client.log) + [DeleteRows(tableName, filter)]
    {
      var query := DeleteQuery(tableName, []);
      var i := 0;
      while i < |filter|
        invariant 0 <= i <= |filter|
        invariant query == DeleteQuery(tableName, filter[..i])
        invariant client.log == old(client.log)
      {
        var (column, value) := filter[i];
        query := query.Eq(column, value);
        assert filter[..i + 1] == filter[..i] + [filter[i]];
        i := i + 1;
      }
      assert filter[..i] == filter;
      client.Execute(query);
    }
  }
}
