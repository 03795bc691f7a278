/**
 * The query orchestrator `query_collection` (claude-api.py:99-267): validation of
 * the request body, the collection lookup and the `near_text` search as inputs
 * from the backend, the filter compiler, and the assembly of one result per row.
 */
module Query {
  import opened Wrappers
  import opened JsonValues
  import opened Normalizer
  import opened FilterCompiler

  /** The fields of a request body that passed validation. */
  datatype Request = Request(
    collectionName: Json,
    query: Json,
    topK: int,
    excludeFields: seq<Json>,
    filters: Json)

  /** Why validation stopped: a 400 with its message, or an exception (turned into a 500). */
  datatype Rejection = BadRequest(message: string) | Raised

  const NotJsonMessage := "Request body must be JSON"
  const MissingFieldsMessage := "Missing required fields: 'collection_name' and 'query'"
  const ExcludeNotListMessage := "'exclude_fields' must be a list of strings"

  /** Python's `int(x)` on a parsed JSON value: floats are truncated toward zero, booleans are 0 or 1. */
  function IntOf(j: Json): (r: Option<int>)
    ensures j.JNum? && j.n >= 0.0 ==> r.Some? && 0 <= r.value && r.value as real <= j.n < r.value as real + 1.0
    ensures j.JNum? && j.n < 0.0 ==> r.Some? && r.value <= 0 && r.value as real - 1.0 < j.n <= r.value as real
    ensures j.JBool? ==> r == Some(if j.b then 1 else 0)
    ensures j.JNull? || j.JArr? || j.JObj? ==> r.None?
  {
    match j
    case JNum(n) => Some(if n >= 0.0 then n.Floor else -((-n).Floor))
    case JBool(b) => Some(if b then 1 else 0)
    case _ => None
  }

  /** Lines 135-150: the body must be truthy, name and query truthy, `exclude_fields` a list. */
  function ValidateRequest(data: Json): (r: Result<Request, Rejection>)
    ensures !Truthy(data) ==> r == Failure(BadRequest(NotJsonMessage))
    ensures r.Success? ==> data.JObj? && Truthy(r.value.collectionName) && Truthy(r.value.query)
    ensures r.Success? ==> "top_k" !in data.fields ==> r.value.topK == 5
  {
    if !Truthy(data) then Failure(BadRequest(NotJsonMessage))
    else if !data.JObj? then Failure(Raised)
    else
      var d := data.fields;
      var collectionName := Get(d, "collection_name");
      var queryText := Get(d, "query");
      if !Truthy(collectionName) || !Truthy(queryText) then Failure(BadRequest(MissingFieldsMessage))
      else
        match IntOf(GetOr(d, "top_k", JNum(5.0)))
        case None => Failure(Raised)
        case Some(topK) =>
          var excludeFields := GetOr(d, "exclude_fields", JArr([]));
          if !excludeFields.JArr? then Failure(BadRequest(ExcludeNotListMessage))
          else Success(Request(collectionName, queryText, topK, excludeFields.items, Get(d, "filters")))
  }

  /** A missing or falsy `collection_name` or `query` is a 400. */
  lemma RejectsMissingFields(d: map<string, Json>)
    requires d != map[]
    requires !Truthy(Get(d, "collection_name")) || !Truthy(Get(d, "query"))
    ensures ValidateRequest(JObj(d)) == Failure(BadRequest(MissingFieldsMessage))
  {
  }

  /** An `exclude_fields` that is present but not a list (JSON null included) is a 400. */
  lemma RejectsNonListExclusion(d: map<string, Json>)
    requires Truthy(Get(d, "collection_name")) && Truthy(Get(d, "query"))
    requires IntOf(GetOr(d, "top_k", JNum(5.0))).Some?
    requires "exclude_fields" in d && !d["exclude_fields"].JArr?
    ensures ValidateRequest(JObj(d)) == Failure(BadRequest(ExcludeNotListMessage))
  {
  }

  /**
   * Every body with a truthy name and query, a `top_k` that `int()` accepts (or
   * none) and an `exclude_fields` that is a list (or none) is accepted.
   */
  lemma ValidateAccepts(d: map<string, Json>)
    requires Truthy(Get(d, "collection_name")) && Truthy(Get(d, "query"))
    requires IntOf(GetOr(d, "top_k", JNum(5.0))).Some?
    requires GetOr(d, "exclude_fields", JArr([])).JArr?
    ensures ValidateRequest(JObj(d)).Success?
  {
  }

  /**
   * A valid request keeps what it was given: `top_k` is `int(top_k)` or 5 when absent,
   * `exclude_fields` is the given list or [], and `filters` is passed on unchanged.
   */
  lemma ValidateDefaults(d: map<string, Json>)
    requires ValidateRequest(JObj(d)).Success?
    ensures var req := ValidateRequest(JObj(d)).value;
            && req.collectionName == d["collection_name"] && Truthy(req.collectionName)
            && req.query == d["query"] && Truthy(req.query)
            && ("top_k" !in d ==> req.topK == 5)
            && ("top_k" in d ==> IntOf(d["top_k"]) == Some(req.topK))
            && req.filters == Get(d, "filters")
            && ("exclude_fields" !in d ==> req.excludeFields == [])
            && ("exclude_fields" in d ==> d["exclude_fields"] == JArr(req.excludeFields))
  {
  }

  /** One backend object of `response.objects`. A missing metadata record reads as no distance. */
  datatype Row = Row(properties: Option<map<string, Value>>, distance: Option<real>, uuid: Id)

  /** One element of the JSON response. */
  datatype SearchResult = SearchResult(
    properties: map<string, Value>,
    score: real,
    distance: Option<real>,
    uuid: string)

  /**
   * The property names `k not in exclude_fields` rejects: Python compares a string
   * key with each element, so only the string elements of the list can match.
   */
  function ExcludedKeys(excludeFields: seq<Json>): (r: set<string>)
    ensures forall k :: k in r <==> JStr(k) in excludeFields
  {
    set j | j in excludeFields && j.JStr? :: j.s
  }

  /** The result built for one row (lines 240-258). */
  function ResultFor(row: Row, excludeFields: seq<Json>): (r: SearchResult)
    ensures r.properties.Keys == ProcessedProperties(row.properties).Keys - ExcludedKeys(excludeFields)
    ensures forall k :: k in r.properties ==> r.properties[k] == ProcessedProperties(row.properties)[k]
    ensures row.distance.Some? ==> r.score + row.distance.value == 1.0
    ensures row.distance.None? ==> r.score == 0.0
    ensures r.distance == row.distance && r.uuid == row.uuid.canonical
  {
    var properties := ProcessedProperties(row.properties);
    SearchResult(
      map k | k in properties && JStr(k) !in excludeFields :: properties[k],
      if row.distance.Some? then 1.0 - row.distance.value else 0.0,
      row.distance,
      row.uuid.canonical)
  }

  /** The response list for the backend's rows: one result per row, in backend order. */
  function Assemble(rows: seq<Row>, excludeFields: seq<Json>): (r: seq<SearchResult>)
    ensures |r| == |rows|
    ensures forall i :: 0 <= i < |rows| ==> r[i].uuid == rows[i].uuid.canonical && r[i].distance == rows[i].distance
  {
    seq(|rows|, i requires 0 <= i < |rows| => ResultFor(rows[i], excludeFields))
  }

  /**
   * Lines 236-258 as written: a loop appending one result per backend row.
   * Exclusion removes exactly the keys named in `exclude_fields` and touches no
   * other key; the score is 1 - distance, or 0 without a distance.
   */
  method AssembleResults(rows: seq<Row>, excludeFields: seq<Json>) returns (results: seq<SearchResult>)
    ensures |results| == |rows|
    ensures forall i :: 0 <= i < |rows| ==>
      results[i].properties.Keys == ProcessedProperties(rows[i].properties).Keys - ExcludedKeys(excludeFields)
    ensures forall i, k :: 0 <= i < |rows| && k in results[i].properties ==>
      results[i].properties[k] == ProcessedProperties(rows[i].properties)[k]
    ensures forall i :: 0 <= i < |rows| && rows[i].distance.Some? ==>
      results[i].score == 1.0 - rows[i].distance.value
    ensures forall i :: 0 <= i < |rows| && rows[i].distance.None? ==> results[i].score == 0.0
    ensures forall i :: 0 <= i < |rows| ==>
      results[i].distance == rows[i].distance && results[i].uuid == rows[i].uuid.canonical
    ensures results == Assemble(rows, excludeFields)
  {
    results := [];
    for i := 0 to |rows|
      invariant |results| == i
      invariant forall j :: 0 <= j < i ==> results[j] == ResultFor(rows[j], excludeFields)
    {
      var obj := rows[i];
      var properties := ProcessProperties(obj.properties);
      var filteredProperties;
      if excludeFields != [] {
        filteredProperties := map k | k in properties && JStr(k) !in excludeFields :: properties[k];
      } else {
        filteredProperties := properties;
      }
      var distance := obj.distance;
      var score := if distance.Some? then 1.0 - distance.value else 0.0;
      results := results + [SearchResult(filteredProperties, score, distance, obj.uuid.canonical)];
    }
  }

  /** The outcome of `client.collections.get(name)`. */
  datatype LookupOutcome = Found | NotFound | LookupFailed

  /** The arguments of the `near_text` call. */
  datatype SearchCall = SearchCall(collection: Json, query: Json, limit: int, filter: Option<Filter>)

  /** The outcome of the `near_text` call: its objects (none for an empty response), or an exception. */
  datatype SearchOutcome = Rows(rows: seq<Row>) | SearchFailed

  /** What the endpoint answers. */
  datatype Response =
    | Results(results: seq<SearchResult>)
    | ClientError(message: string)
    | CollectionNotFound(name: Json)
    | ServerError

  /** The HTTP status of a response. */
  function Status(r: Response): int
  {
    match r
    case Results(_) => 200
    case ClientError(_) => 400
    case CollectionNotFound(_) => 404
    case ServerError => 500
  }

  /**
   * `query_collection` with the backend given as its two calls: validate, look the
   * collection up, compile the filters, search, assemble.
   */
  function Respond(data: Json, lookup: Json -> LookupOutcome, search: SearchCall -> SearchOutcome): (r: Response)
    ensures Status(r) == 400 <==> ValidateRequest(data).Failure? && ValidateRequest(data).error.BadRequest?
    ensures r.CollectionNotFound? ==> ValidateRequest(data).Success? && lookup(r.name) == NotFound
    ensures r.Results? ==> ValidateRequest(data).Success? && lookup(ValidateRequest(data).value.collectionName) == Found
  {
    match ValidateRequest(data)
    case Failure(BadRequest(message)) => ClientError(message)
    case Failure(Raised) => ServerError
    case Success(req) =>
      match lookup(req.collectionName)
      case NotFound => CollectionNotFound(req.collectionName)
      case LookupFailed => ServerError
      case Found =>
        match Compile(req.filters)
        case Failure(_) => ServerError
        case Success(filter) =>
          match search(SearchCall(req.collectionName, req.query, req.topK, filter))
          case SearchFailed => ServerError
          case Rows(rows) => Results(Assemble(rows, req.excludeFields))
  }

  /**
   * Both 400 rejections come before any backend call: a request that fails
   * validation gets the same response whatever the backend would have done.
   */
  lemma RejectionsPrecedeBackend(data: Json, lookup1: Json -> LookupOutcome, search1: SearchCall -> SearchOutcome,
                                 lookup2: Json -> LookupOutcome, search2: SearchCall -> SearchOutcome)
    requires ValidateRequest(data).Failure?
    ensures Respond(data, lookup1, search1) == Respond(data, lookup2, search2)
    ensures ValidateRequest(data).error.BadRequest? ==> Status(Respond(data, lookup1, search1)) == 400
    ensures ValidateRequest(data).error.Raised? ==> Status(Respond(data, lookup1, search1)) == 500
  {
  }

  /**
   * A successful response is the assembly of the rows of exactly one search, made
   * with the request's text, its `top_k` as the limit and the compiled filter.
   */
  lemma RespondSearches(data: Json, lookup: Json -> LookupOutcome, search: SearchCall -> SearchOutcome)
    requires Respond(data, lookup, search).Results?
    ensures ValidateRequest(data).Success?
    ensures var req := ValidateRequest(data).value;
            && lookup(req.collectionName) == Found
            && Compile(req.filters).Success?
            && var call := SearchCall(req.collectionName, req.query, req.topK, Compile(req.filters).value);
               && search(call).Rows?
               && Respond(data, lookup, search).results == Assemble(search(call).rows, req.excludeFields)
               && |Respond(data, lookup, search).results| == |search(call).rows|
  {
  }

  /**
   * Conversely, a valid request whose collection is found, whose filters compile
   * and whose search returns rows is answered with those rows assembled.
   */
  lemma RespondAnswers(data: Json, lookup: Json -> LookupOutcome, search: SearchCall -> SearchOutcome)
    requires ValidateRequest(data).Success?
    requires lookup(ValidateRequest(data).value.collectionName) == Found
    requires Compile(ValidateRequest(data).value.filters).Success?
    requires var req := ValidateRequest(data).value;
             search(SearchCall(req.collectionName, req.query, req.topK, Compile(req.filters).value)).Rows?
    ensures var req := ValidateRequest(data).value;
            var call := SearchCall(req.collectionName, req.query, req.topK, Compile(req.filters).value);
            Respond(data, lookup, search) == Results(Assemble(search(call).rows, req.excludeFields))
  {
  }

  /**
   * `{"collection_name": "Docs", "query": "hello"}` searches "Docs" for "hello" with
   * limit 5 and no filter; rows at distances 0.1 and 0.4 give scores 0.9 and 0.6,
   * in the backend's order.
   */
  lemma DocsHelloScenario(lookup: Json -> LookupOutcome, search: SearchCall -> SearchOutcome, a: Id, b: Id)
    requires lookup(JStr("Docs")) == Found
    requires search(SearchCall(JStr("Docs"), JStr("hello"), 5, None)) == Rows([Row(None, Some(0.1), a), Row(None, Some(0.4), b)])
    ensures var r := Respond(JObj(map["collection_name" := JStr("Docs"), "query" := JStr("hello")]), lookup, search);
            && r.Results? && |r.results| == 2
            && r.results[0].score == 0.9 && r.results[1].score == 0.6
            && r.results[0].uuid == a.canonical && r.results[1].uuid == b.canonical
  {
    var d := map["collection_name" := JStr("Docs"), "query" := JStr("hello")];
    ValidateAccepts(d);
    ValidateDefaults(d);
    assert ValidateRequest(JObj(d)).value == Request(JStr("Docs"), JStr("hello"), 5, [], JNull);
  }

  /** A collection the backend reports as absent is a 404 naming it, before the filters are read. */
  lemma MissingCollection(data: Json, lookup: Json -> LookupOutcome, search: SearchCall -> SearchOutcome)
    requires ValidateRequest(data).Success?
    requires lookup(ValidateRequest(data).value.collectionName) == NotFound
    ensures Respond(data, lookup, search) == CollectionNotFound(ValidateRequest(data).value.collectionName)
    ensures Status(Respond(data, lookup, search)) == 404
  {
  }

  /** Two rows at distances 0.1 and 0.4 give scores 0.9 and 0.6, in the backend's order. */
  lemma TwoRowScores(a: Id, b: Id)
    ensures var rs := Assemble([Row(None, Some(0.1), a), Row(None, Some(0.4), b)], []);
            |rs| == 2 && rs[0].score == 0.9 && rs[1].score == 0.6
            && rs[0].uuid == a.canonical && rs[1].uuid == b.canonical
  {
  }
}
