# Query gateway translation core, in Dafny

This project models the translation logic of a small Flask gateway that sits in
front of a Weaviate vector store (`claude-api.py`). Three pieces are modelled:

- **Value normalizer.** `process_single_value` and `process_properties` turn a
  backend property value of dynamic type into a JSON-safe value. A timestamp
  becomes its ISO text, a UUID becomes its string, and a geo-coordinate becomes a
  `{latitude, longitude}` object. Lists and dicts are normalized element by
  element. Anything else passes through unchanged. Module `Normalizer`, file
  `normalizer.dfy`.
- **Filter expression compiler.** This is the block inside `query_collection`
  that turns the request's optional `filters` object into no filter or one flat
  `all_of` / `any_of` group. Each member of the group is a per-field comparison
  taken from the seven-operator table (`eq`, `neq`, `gt`, `gte`, `lt`, `lte`,
  `like`). Invalid conditions are skipped. Module `FilterCompiler`, file
  `filter_compiler.dfy`.
- **Query orchestrator.** This covers request validation (`collection_name` and
  `query` are required, `top_k` defaults to 5, `exclude_fields` must be a list)
  and result assembly (one result per backend row, in backend order). Each
  result holds the normalized properties minus the excluded keys,
  `score = 1 - distance` (or 0 when there is no distance) and the uuid as a
  string. The backend's collection lookup and `near_text` search are parameters
  of `Query.Respond`, so the whole endpoint is one function of the request and
  the backend. Module `Query`, file `query.dfy`.

`json.dfy` (module `JsonValues`) models the parsed request body, Python's
truthiness test, `dict.get` and `str.lower()`. `wrappers.dfy` holds `Option` and
`Result`.

The three loops of the source are methods proved against pure specification
functions:

- `ProcessProperties` is proved against `Normalize` and `ProcessedProperties`.
- `CompileFilter` is proved against `Compile`.
- `AssembleResults` is proved against `Assemble`.

The pure functions are the ones used by the rest of the model and by `Respond`.

Points where the source's behaviour is easy to misread; the model follows the
source:

- `exclude_fields` is checked only to be a list, not a list of strings. Its
  non-string elements can never match a property name, so they are ignored
  (`Query.ExcludedKeys`).
- `collection_name` and `query` are rejected when they are falsy (for example
  `""` or `0`), not only when they are absent.
- The filter compiler can raise, which the outer handler turns into a 500:
  - on a top-level or per-condition `operator` that is present but not a string
    (JSON `null` included), because `.lower()` is called on it;
  - on a condition that is not an object.

  The top-level operator is read before the conditions are checked. So a
  non-string operator raises even when there are no conditions
  (`FilterCompiler.CompileOperatorFirst`).
- The collection lookup comes before the filter compilation. A missing
  collection is therefore reported as a 404 even if the filters would have
  raised (`Query.MissingCollection`).

Modelling choices:

- `datetime.isoformat()` and `str(uuid)` are not modelled as algorithms. A
  backend timestamp is represented by the text `isoformat()` gives for it
  (`Stamp.isoText`), and a UUID by its canonical text (`Id.canonical`).
- The backend's value kinds are tags of one datatype, so they are disjoint. The
  source's "first match wins" order (timestamp, UUID, geo-coordinate, list,
  dict, anything else) is the order of the cases in `Normalize`.
- `str.lower()` is modelled character by character: A–Z map to a–z, and KELVIN
  SIGN (U+212A) maps to `k`. Every other character Python lower-cases has a
  non-ASCII result, which no keyword (`eq` … `like`, `or`) contains. So
  "lower-cased text equals keyword" holds in the model exactly when it holds in
  Python.
- JSON numbers are reals. Distances and scores are reals, so
  `score == 1 - distance` holds exactly.
- `process_properties` iterates a Python dict in insertion order. The model
  iterates the keys of a Dafny map in an arbitrary order. The result is the same
  because each key is written once.

## Model

| member | source | states |
|---|---|---|
| `JsonValues.Truthy` | claude-api.py:136-142 | Python's `not x` holds of exactly null, false, 0, "", [] and {}; every other JSON value is truthy |
| `JsonValues.GetOr` | claude-api.py:145-146 | `dict.get(key, default)`: the stored value when the key is present, even a stored null, and the default only when it is absent |
| `JsonValues.Get` | claude-api.py:140-141 | `dict.get(key)`: the stored value when the key is present, null included, and None when it is absent |
| `JsonValues.LowerChar` | claude-api.py:169-185 | one character of `str.lower()`: A–Z become the letter 32 code points later (a–z), KELVIN SIGN becomes `k`, every other character is kept |
| `JsonValues.Lower` | claude-api.py:169-185 | `str.lower()` keeps the length and lower-cases each character as `LowerChar` does |
| `JsonValues.LowerOr` | claude-api.py:169-216 | a text lower-cases to "or" exactly when it is "or", "Or", "oR" or "OR" |
| `Normalizer.Normalize` | claude-api.py:70-82 | a timestamp becomes its `isoformat()` text, a UUID its `str()` text and a geo-coordinate the `{latitude, longitude}` object; the result is normalized: no timestamp, UUID or geo-coordinate is left at any depth of lists and dicts |
| `Normalizer.GeoObject` | claude-api.py:76-77 | a geo-coordinate becomes an object with exactly the keys `latitude` and `longitude`, holding its two coordinates |
| `Normalizer.NormalizeList` | claude-api.py:78-79 | a list normalizes to a list of the same length whose element i is element i normalized |
| `Normalizer.NormalizeDict` | claude-api.py:80-81 | a dict normalizes to a dict with exactly the same key set, each value normalized |
| `Normalizer.NormalizeFixesNormalized` | claude-api.py:70-82 | a value made only of strings, scalars, lists and dicts comes back unchanged |
| `Normalizer.NormalizeIdempotent` | claude-api.py:70-82 | normalizing twice gives the same as normalizing once |
| `Normalizer.NormalizeFixedPoints` | claude-api.py:70-82 | a value is left unchanged by normalization if and only if it is already normalized |
| `Normalizer.ProcessedProperties` | claude-api.py:46-68 | an absent property map gives `{}`; otherwise the output has exactly the input's keys, each value normalized |
| `Normalizer.ProcessProperties` | claude-api.py:46-68 | the loop fills a map with exactly the input's keys, and each value is what `process_single_value` gives for the input value: the top-level branches agree with it |
| `FilterCompiler.SupportedOperator` | claude-api.py:173-188 | an operator name is supported exactly when it is one of the seven table names, and the comparison found is the one that name denotes |
| `FilterCompiler.Convert` | claude-api.py:184-212 | a non-object condition raises; a kept condition yields a comparison on the condition's own truthy field and non-null value, and a `like` comparison's value is a string |
| `FilterCompiler.CompileAll` | claude-api.py:183-212 | the condition loop, when it raises nothing, produces at most one comparison per condition |
| `FilterCompiler.Compile` | claude-api.py:166-221 | absent, falsy or non-object filters give no filter; a compiled group is never empty and has at most as many members as the conditions list has elements |
| `FilterCompiler.OperatorTable` | claude-api.py:173-212 | the seven operator names and the seven comparisons correspond one to one (eq→equal, neq→not_equal, gt→greater_than, gte→greater_or_equal, lt→less_than, lte→less_or_equal, like→like); no other name is supported |
| `FilterCompiler.ConvertSkips` | claude-api.py:183-212 | a condition is skipped if and only if its field is missing or falsy, its lower-cased operator is unsupported, its value is None, or it is a `like` with a non-string value |
| `FilterCompiler.ConvertKeeps` | claude-api.py:192-212 | a kept condition becomes one comparison on its own field and value, with the comparison its lower-cased operator names in the table |
| `FilterCompiler.ConvertKeepsFalsyValues` | claude-api.py:184-190 | the values 0, false and "" are kept, not skipped, for every operator that accepts them |
| `FilterCompiler.CompileAllConcat` | claude-api.py:183-212 | the condition loop handles conditions one at a time and in order: the outcome for `a + b` is the outcome for `a` followed by that for `b`, and the first exception wins |
| `FilterCompiler.ConvertKeepsValid` | claude-api.py:184-212 | a condition object with a string or absent operator that passes the skip test is kept, as the comparison its lower-cased operator names, on its own field and value |
| `FilterCompiler.CompileAllSucceeds` | claude-api.py:183-212 | the condition loop raises nothing when every condition is an object whose operator is a string or absent |
| `FilterCompiler.CompileAllSingle` | claude-api.py:183-212 | one condition contributes its comparison, nothing, or the exception it raises |
| `FilterCompiler.CompileAllFromKept` | claude-api.py:183-212 | every comparison the condition loop produces is the comparison of some kept condition |
| `FilterCompiler.CompileAllKeepsKept` | claude-api.py:183-212 | every kept condition's comparison is among those the condition loop produces |
| `FilterCompiler.CompileAllProvenance` | claude-api.py:183-212 | every comparison produced comes from a kept condition, every kept condition's comparison is produced, and there are no more comparisons than conditions |
| `FilterCompiler.CompileNone` | claude-api.py:166-221 | there is no filter if and only if the filters are absent, empty or not an object, or the top-level operator is a string or absent and the conditions are missing, empty or not a list or no condition survives |
| `FilterCompiler.CompileGroup` | claude-api.py:166-219 | a compiled filter is `any_of` exactly when the lower-cased top-level operator is "or", and `all_of` otherwise, including when the operator is absent; its members are the surviving comparisons in their original order and are never empty |
| `FilterCompiler.CompileGroupOf` | claude-api.py:166-219 | filters with a string or absent operator whose conditions list yields comparisons compile to the group of exactly those comparisons: `any_of` when the operator lower-cases to "or", `all_of` otherwise and when it is absent |
| `FilterCompiler.CompileOperatorFirst` | claude-api.py:167-169 | a top-level operator that is not a string raises even when the conditions are missing |
| `FilterCompiler.UnsupportedOperatorGivesNoFilter` | claude-api.py:183-190 | a sole condition with an unsupported operator gives no filter and no error |
| `FilterCompiler.CompileFilter` | claude-api.py:166-221 | the loop that appends to `filter_conditions` and then picks the group computes exactly `Compile` |
| `Query.IntOf` | claude-api.py:145 | `int()` of a JSON number truncates toward zero; booleans give 0 or 1; null, lists and objects raise |
| `Query.ValidateRequest` | claude-api.py:136-150 | a falsy body is rejected as not JSON; an accepted body is an object whose name and query are truthy, and whose `top_k` is 5 when absent |
| `Query.ValidateAccepts` | claude-api.py:136-150 | every body with a truthy name and query, a `top_k` that `int()` accepts or none, and an `exclude_fields` list or none is accepted |
| `Query.RejectsMissingFields` | claude-api.py:140-143 | a missing or falsy `collection_name` or `query` is rejected with the missing-fields message |
| `Query.RejectsNonListExclusion` | claude-api.py:145-148 | whenever `int(top_k)` succeeds, an `exclude_fields` that is present but not a list (null included) is rejected |
| `Query.ValidateDefaults` | claude-api.py:140-150 | an accepted request carries the given name and query, `int(top_k)` when `top_k` is given and 5 when absent, the given `exclude_fields` list or [] when absent, and the body's `filters` unchanged |
| `Query.ExcludedKeys` | claude-api.py:243-244 | a property name is excluded exactly when it is an element of `exclude_fields` |
| `Query.ResultFor` | claude-api.py:240-258 | one row's result: its properties are the normalized properties minus exactly the excluded keys, values unchanged; score + distance is 1, or the score is 0 without a distance; distance and uuid text copied |
| `Query.Assemble` | claude-api.py:236-258 | one result per row, in row order, each carrying its row's uuid text and distance |
| `Query.AssembleResults` | claude-api.py:236-258 | one result per backend row, in backend order; properties are the normalized map minus exactly the excluded keys, other values untouched; score is 1 - distance, or 0 without a distance; distance copied; uuid is its string; zero rows give [] |
| `Query.RejectionsPrecedeBackend` | claude-api.py:134-162 | a request that fails validation gets the same response whatever the collection lookup and search would do: 400 for the two checks, 500 for an exception |
| `Query.RespondSearches` | claude-api.py:223-263 | a successful response means the collection was found, the filter compiled, and exactly one search was made with the query text, `top_k` as the limit and the compiled filter; the response is the assembly of that search's rows |
| `Query.Respond` | claude-api.py:99-267 | the response is a 400 exactly when validation rejects the body with a message; a 404 only for a collection the lookup reports absent; results only after a valid body and a found collection |
| `Query.RespondAnswers` | claude-api.py:223-263 | a valid body whose collection is found, whose filters compile and whose search returns rows is answered with those rows assembled |
| `Query.DocsHelloScenario` | claude-api.py:136-263 | `{"collection_name": "Docs", "query": "hello"}` searches Docs for "hello" with limit 5 and no filter; rows at distances 0.1 and 0.4 give scores 0.9 and 0.6 in order, with their uuids |
| `Query.MissingCollection` | claude-api.py:153-159 | a collection the backend reports as absent gives a 404 naming it |
| `Query.TwoRowScores` | claude-api.py:248-251 | rows at distances 0.1 and 0.4 give scores 0.9 and 0.6, in the backend's order |

## Left out

- The Weaviate connection made at import time, `connect`/`close`, and the server start (claude-api.py:27-43, 286-297). These are process lifecycle and I/O.
- Flask routing, `request.json` parsing (a body Flask refuses to parse), `jsonify`, and all logging. `Query.Status` gives only the status code of each response kind.
- `list_collections` and `health_check`. They are thin wrappers over backend calls.
- The collection lookup and its error-message test for "not found": the model takes the lookup's outcome (`Found`, `NotFound`, `LookupFailed`) as an input. The `near_text` search is also an input, a function from the call's arguments to rows or a failure. The backend's ranking and its own limits are not modelled.
- `Query.IntOf`: a `top_k` given as a decimal string, which Python's `int()` accepts, is treated as an exception. String parsing by `int()` is not modelled.
- IEEE floating point: distances, scores and coordinates are reals.
- The exact text of `datetime.isoformat()` and `str(uuid)`. These values are carried as text.
- What the backend's `Filter.by_property` and its comparison builders do with a field that is truthy but not a string, or with a condition `value` that is a JSON array or object (the source expects a string, number or boolean there). For every operator except `like`, the model keeps such a value and passes the field and value on unchanged, as the source does.
- JSON numbers: the model has one number kind, so a condition value written `2020` and one written `2020.0` give the same comparison. The source passes a Python `int` or `float` to the backend's comparison builder, and what the backend does with the two is not modelled.
- The metadata object of a row: a missing metadata record and a missing distance are both an absent distance.
