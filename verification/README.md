# Gremlin visualizer proxy: query building, sampling and result mapping

This project models the core of the proxy behind a Gremlin graph visualizer.
The browser posts `{host, port, query, nodeLimit}`. For each request, a
`QueryProcessor`:

- derives a node limit and a host mode ("neptune" for Amazon Neptune endpoints, "" otherwise);
- builds the Gremlin query texts:
  - the vertex listing;
  - the ids of a vertex's incident edges;
  - the detail of one edge.

  Against Neptune each query starts from a traversal source carrying the `Neptune#useDFE` query hint;
- caps an oversized vertex list by shuffling it in place (Fisher–Yates) and cutting it to the limit. An oversized list of a vertex's edge ids is shuffled too, but as written the cut discards the whole list whenever it holds two or more ids (see "## Findings"). The model also gives the intended edge tier, which cuts to the limit.

The `Mapper` turns raw backend records into the proxy's vertex shape
`{id, label, properties, edges}` and edge shape `{id, from, to, label, properties}`.
Neptune records are plain objects. Records from a generic Gremlin server are
JavaScript `Map`s.

Modules:

- `Js` (`js.dfy`): the JavaScript semantics the code relies on, written out:
  - values;
  - `Number::toString` on integers;
  - `split`/`join` on one character and `String.prototype.includes`;
  - template-literal `ToString`, including an array's comma join;
  - the string-to-number coercion;
  - `Array.prototype.slice` with negative and clamped positions.
- `Json` (`json.dfy`): `JSON.stringify` (with `QuoteJSONString`), plus a decoder for the JSON texts of scalar values (RFC 8259, sections 3, 6 and 7), which is its partner.
- `QueryText` (`query_text.dfy`): `addDFEtoQuery` and the three query builders.
- `Sampling` (`sampling.dfy`): `shuffleArrayInPlace` as an in-place array method, proved against a specification function, and the limit-and-sample policy. `Math.random` is a parameter: a stream of reals in [0, 1), one draw per loop step.
- `Processor` (`processor.dfy`):
  - the request body;
  - the `QueryProcessor` class: constant settings, a `warnings` field the edge tier appends to, and the two truncation blocks as methods on arrays;
  - the edge tier both as written and as intended (see Findings).
- `Mapping` (`mapper.dfy`): the four record mappers and `edgesToJson`/`nodesToJson`. A thrown `TypeError` is an `Err` result.

Two points where the intended behaviour and the code part ways; the model follows the code:

- A non-string edge id is meant to be JSON-encoded so that numeric and string ids stay distinguishable. The code leaves string ids unquoted, so the number 42 and the string "42" both become the id "42" (`Mapping.NumberAndDigitStringIdsCollide`).
- The limit is meant to be positive, with the default 100 for anything else. The code's `body.nodeLimit || 100` keeps any non-zero number, negative ones included, and the model keeps them. `slice` then counts a negative end from the back.

Only the "neptune" mode is reachable in the program: `performQuery` calls `performGremlinQuery()` without `this` (server/query_processor.js:139), which throws, and `performGremlinQuery` itself builds its query with an undefined `makeQuery` (line 146). The model still gives the builders with host mode "" and the Gremlin record mappers (`Mapping.MapGremlinEdge`, `Mapping.MapGremlinNode`) as the code writes them.

## Model

| member | source | states |
|---|---|---|
| Sampling.ShuffleInPlace | server/query_processor.js:16-21 | The array ends up as `Shuffled(old contents, draws)`, a permutation of what it held. |
| Sampling.ShufflePermutes | server/query_processor.js:16-21 | Whatever the random draws, the shuffle keeps the length and the multiset of elements. |
| Sampling.ShuffleFromPermutes | server/query_processor.js:17-20 | Every run of the remaining loop steps, from position i down to 1, is a permutation. |
| Sampling.Shuffled | server/query_processor.js:16-21 | The specification of the loop: the swaps of steps n-1 down to 1 with the drawn partners. It keeps the length, and an array of fewer than two elements is left as it is (the loop never runs). |
| Sampling.Pick | server/query_processor.js:18 | The swap partner at step i lies in [0, i]. |
| Sampling.PickIsFloor | server/query_processor.js:18 | The swap partner is `Math.floor(r * (i + 1))`: an integer j with j <= r·(i+1) < j+1. |
| Sampling.FloorBelow | server/query_processor.js:18 | For x in [0, i+1), returns j <= i with j <= x < j+1, i.e. `Math.floor(x)`. |
| Sampling.ScaleIsProduct | server/query_processor.js:18 | The repeated addition used for `Math.random() * (i + 1)` equals the product. |
| Sampling.DrawPick | server/query_processor.js:18 | The partner drawn at step i is the i-th entry of the pick sequence that the specification function uses. |
| Sampling.SwapInPlace | server/query_processor.js:19 | The destructuring swap leaves the array as the specification's `Swap` of its old contents. |
| Sampling.SwapPermutes | server/query_processor.js:19 | A swap keeps the multiset of elements. |
| Sampling.Sample | server/query_processor.js:159-165 | A list within the limit comes back unchanged. A list over a non-negative limit comes back with exactly `limit` elements. A negative limit keeps `length + limit` elements, at least 0. The result is always a sub-multiset of the input. |
| Processor.NodeLimitOf | server/query_processor.js:33 | `nodeLimit \|\| 100`: the requested number when non-zero, 100 when absent or 0; never 0. |
| Processor.HostModeOf | server/query_processor.js:35-38 | "neptune" exactly when `neptune.amazonaws.com` occurs somewhere in the host, "" otherwise. |
| Js.IncludesIff | server/query_processor.js:36 | `includes` holds exactly when the pattern occurs at some position. |
| Processor.QueryProcessor.constructor | server/query_processor.js:24-39 | The processor has: the body's host, port and query; limit `NodeLimitOf(body.nodeLimit)`; host mode `HostModeOf(body.host)`; no warnings. |
| QueryText.AddDfe | server/query_processor.js:50-54 | The result always starts with the DFE traversal source. |
| QueryText.AddDfeKeepsTail | server/query_processor.js:50-54 | For a query `first + "." + rest` with no dot in `first`, the result is the DFE source + "." + rest: everything after the first dot survives verbatim. |
| QueryText.AddDfeWithoutDot | server/query_processor.js:50-54 | A query without a dot is replaced by the DFE source alone. |
| QueryText.ReplaceFirstSegment | server/query_processor.js:51-53 | Splitting on '.', replacing segment 0 and joining again keeps everything after the first dot. |
| Js.JoinSplit | server/query_processor.js:51-53 | Joining the pieces of a split on a character gives back the string. |
| Js.SplitJoin | server/query_processor.js:51-53 | Splitting a join of separator-free pieces gives back the pieces. |
| Js.Split | server/query_processor.js:51 | A split has at least one piece, and no piece contains the separator. |
| QueryText.Source | server/query_processor.js:66-67 | The edge queries start from the DFE source against Neptune and from `g` otherwise. |
| QueryText.VerticesQuery | server/query_processor.js:56-63 | The vertex query always ends with the dedup/project suffix. Outside Neptune it is the user's query followed by that suffix. Against Neptune it starts with the DFE source. |
| QueryText.EmbeddedId | server/query_processor.js:68 | `${JSON.stringify(id)}`: "undefined" for an undefined id, otherwise the id's JSON text, which decodes back to the id when it is a null, boolean, integer or string. |
| QueryText.VertexEdgesQuery | server/query_processor.js:65-69 | The query is `<source>.V(`, then the embedded id, then `).bothE().id()`. |
| QueryText.VertexEdgesQueryCarriesId | server/query_processor.js:65-69 | For a null, boolean, integer or string id, the text between `<source>.V(` and `).bothE().id()` decodes back to the id. |
| QueryText.VertexEdgesQueryInjective | server/query_processor.js:65-69 | Distinct scalar vertex ids give distinct queries. |
| QueryText.EdgeDataQuery | server/query_processor.js:71-77 | The query is `<source>.E(`, then the embedded id, then the fixed projection. |
| QueryText.EdgeDataQueryCarriesId | server/query_processor.js:71-77 | For a scalar id, the text between `<source>.E(` and the fixed projection decodes back to the id. |
| QueryText.EdgeDataQueryInjective | server/query_processor.js:71-77 | Distinct scalar edge ids give distinct queries. |
| Json.Stringify | server/query_processor.js:68 | `JSON.stringify` has no result exactly for `undefined`. |
| Json.Quote | server/query_processor.js:68 | A serialized string is enclosed in double quotes. |
| Json.DecodeStringify | server/query_processor.js:68 | Every scalar value is read back from its JSON text. |
| Json.EscapeRoundTrip | server/query_processor.js:68 | A string's escaped form, closed by a quote, decodes to the string. |
| Json.StringifyInjective | server/query_processor.js:74 | Distinct scalar values have distinct JSON texts. |
| Processor.EdgeWarning | server/query_processor.js:106-107 | The edge warning contains the vertex id, the edge count and the limit as printed. |
| Processor.CommaJoinIsNaN | server/query_processor.js:111 | An array of two or more ids, converted to a number, is NaN: its comma-joined text is not numeric. |
| Processor.ArrayAsSliceEnd | server/query_processor.js:111 | Used as a `slice` end, an empty array or one of two or more ids converts to 0. A single integer id converts to that integer. |
| Js.StringToNumberOfDecimal | server/query_processor.js:111 | An integer's decimal text converts back to the integer. |
| Processor.EdgeSample | server/query_processor.js:103-112 | The edge tier as written. A list within the limit is kept. A list of two or more ids over the limit comes back empty. The result is a sub-multiset of the input. |
| Processor.TruncatedEdgesVanish | server/query_processor.js:105-112 | With a limit of at least 1, every truncated edge list ends up empty. |
| Processor.IntendedEdgeSample | server/query_processor.js:105-112 | The edge tier as intended. A list within the limit is kept. A list over a non-negative limit keeps exactly `limit` ids. The result is a sub-multiset of the input. |
| Processor.QueryProcessor.SampleEdges | server/query_processor.js:102-112 | Returns `EdgeSample` of the old ids. A list over the limit appends exactly one warning and is shuffled in place. Otherwise neither the warnings nor the array change. |
| Processor.QueryProcessor.SampleEdgesIntended | server/query_processor.js:105-112 | The same, with the list cut to the limit: returns `IntendedEdgeSample`. |
| Processor.QueryProcessor.SampleVertices | server/query_processor.js:159-165 | Returns `Sample` of the old vertices. A list over the limit is shuffled in place, otherwise the array is unchanged. No warning is stored. |
| Js.Slice | server/query_processor.js:164 | A slice is never longer than the array and is a sub-multiset of it. |
| Js.SliceFromStart | server/query_processor.js:164 | `slice(0, end)` is the prefix of length `min(end, n)`, or `max(n + end, 0)` for a negative end. |
| Js.StringToNumber | server/query_processor.js:111 | A string that reads as a number holds only digits, apart from a leading sign. |
| Mapping.StringId | server/mapper.js:7 | The id is a string exactly when the source id is not `undefined`. A string id is kept as it is. Any other scalar id becomes a JSON text that decodes back to it. |
| Mapping.MapNeptuneEdge | server/mapper.js:5-13 | The edge's `from`, `to`, `label` and `properties` are the record's own fields. Its `id` follows the id rule. |
| Mapping.MapNeptuneNode | server/mapper.js:15-22 | The vertex copies `id`, `label` and `properties`, and starts with no edges. |
| Mapping.MapGremlinNode | server/mapper.js:24-31 | Succeeds exactly on a Map record. It copies `get('id')` and `get('label')`. `properties` is `mapToObj(get('properties'))` and `edges` is `edgesToJson(get('edges'), 'gremlin')`. A plain object throws, because it has no `get`. |
| Mapping.MapGremlinEdge | server/mapper.js:33-41 | Succeeds exactly on a Map record. `from`, `to` and `label` are copied from `get`. `properties` is `mapToObj(get('properties'))`. The id follows the id rule. |
| Mapping.MapEdge | server/mapper.js:44 | The per-element choice: succeeds exactly in mode "neptune" or on a Map record. The id is the id rule applied to the record's `id`, read with `[]` in mode "neptune" and with `get` otherwise. |
| Mapping.MapNode | server/mapper.js:48 | The per-element choice: succeeds exactly in mode "neptune" or on a Map record. The id is the record's `id`, read with `[]` in mode "neptune" and with `get` otherwise. |
| Mapping.EdgesToJson | server/mapper.js:43-45 | On success, the same length, with element k the mode's mapping of record k. It fails exactly when some record's mapping throws, and with that record's error. |
| Mapping.NodesToJson | server/mapper.js:47-49 | The same as `EdgesToJson`, with the mode's node mapper. |
| Mapping.NeptuneEdgesMap | server/mapper.js:43-45 | In mode "neptune" every edge list maps without failure, element by element. |
| Mapping.NeptuneNodesMap | server/mapper.js:47-49 | In mode "neptune" every node list maps without failure, element by element. |
| Mapping.GremlinListsMap | server/mapper.js:43-45 | In any other mode a list maps exactly when every record is a Map. |
| Mapping.LookupAsField | server/mapper.js:26 | `Map.get` on the entries equals property access on the plain object built from them. |
| Mapping.SameEdgeFromBothShapes | server/mapper.js:5-41 | Two records of the same edge map to the same edge. One is a Map, the other a plain object. They must agree on id, from, to and label, and the plain object's properties must be `mapToObj` of the Map's. |
| Mapping.SameVertexFromBothShapes | server/mapper.js:15-31 | A Map record and the plain object with the same entries give the same vertex id and label. |
| Mapping.NeptuneEdgeRemapIsIdentity | server/mapper.js:5-13 | Mapping an already mapped Neptune edge again changes nothing. |
| Mapping.NumberAndDigitStringIdsCollide | server/mapper.js:7 | The number n and the string of its decimal digits get the same edge id. |

## Left out

- The HTTP front end, authentication, request ids and logging: `log` and the vertex-tier warning text, which is only logged.
- The `AWSConnection` error handler.
- `performQuery`, `performGremlinQuery` and `performNeptuneQuery` as control flow. The Neptune path's query texts and truncation steps are modelled. Submitting a query, the promise chains and the concurrent fan-out in `processVertices`/`processEdges` are I/O and concurrency.
- `performGremlinQuery`'s query `makeQuery(query, this.nodeLimit)`: `makeQuery` is not defined anywhere, and the method is never reached (the call at line 139 lacks `this`).
- The order in which concurrently fetched edge details are appended to `vertex.edges`: this depends on the network.
- `Math.random`: a parameter (a stream of reals in [0, 1)). Uniformity of the resulting permutation is not stated.
- Floating point. Numbers are integers, and reals are exact:
  - `Number::toString` is written for integers only, with no exponent form for magnitudes of 1e21 and above;
  - the string-to-number coercion reads only the empty string and optionally signed decimal digit strings; whitespace, decimals, exponents, hex and `Infinity` read as NaN;
- Js.StringToNumber: does not model the rest of the StringNumericLiteral grammar, because numbers are integers here. For arrays of two or more ids (the case the edge tier reaches) the comma makes the text non-numeric in either grammar.
- Lone surrogate code units in strings: Dafny characters are Unicode scalar values.
- `mapToObj` and the free-standing `edgesToJson(list, mode)` called from `mapGremlinNode`: `mapper.js` uses them without defining them. The model takes them as function parameters (`Mapping.Externals`).
- The request body's field types: `host` and `query` are taken to be strings and `nodeLimit` an integer or absent. A missing or non-string `host` makes `includes` (line 36) throw, and in the Neptune path a missing or non-string `query` makes `query.split` (line 51) throw; neither failure is modelled. `port` is stored but not used by the modelled code.

## Findings

| source | as written | input that shows it | evidently intended | confidence | as-written member | corrected member |
|---|---|---|---|---|---|---|
| server/query_processor.js:111 | `edges = edges.slice(0, edges)`: the array itself is the slice end. It converts through its comma-joined text to NaN, then to 0. | nodeLimit 1 and a vertex with edge ids [1, 2]. The warning says 1 edge is returned, but none are fetched. | `edges.slice(0, this.nodeLimit)`, as in the vertex tier at line 164 | not executed | Processor.TruncatedEdgesVanish | Processor.IntendedEdgeSample |
