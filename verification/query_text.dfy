/**
 * The Gremlin query strings the proxy sends: the vertex listing, the ids of
 * a vertex's incident edges and the detail of one edge. Against Amazon
 * Neptune every query starts from a traversal source that carries the
 * `Neptune#useDFE` query hint (Neptune's DFE engine for Gremlin).
 * `hostMode` is the processor's mode: "neptune" or "".
 */
module QueryText {
  import opened Js
  import Json
  import opened Modes

  /** The traversal source that turns on Neptune's DFE engine. */
  const DFE_SOURCE := "g.withSideEffect('Neptune#useDFE', true)"

  const VERTICES_PROJECTION :=
    ".dedup().project('id', 'label', 'properties').by(__.id()).by(__.label()).by(__.valueMap().by(__.unfold()))"

  const VERTEX_EDGES_TAIL := ").bothE().id()"

  const EDGE_DATA_TAIL :=
    ").project('id', 'from', 'to', 'label', 'properties')"
    + ".by(__.id()).by(__.outV().id()).by(__.inV().id()).by(__.label())"
    + ".by(__.valueMap()).by(__.bothE().project('id').by(__.id()).fold())"

  /**
   * addDFEtoQuery: split the query on '.', replace the first segment by the
   * DFE traversal source and join again.
   */
  function AddDfe(query: string): (r: string)
    ensures |DFE_SOURCE| <= |r| && r[..|DFE_SOURCE|] == DFE_SOURCE
  {
    var segments := Split(query, '.');
    JoinAfterHead(DFE_SOURCE, segments[1..]);
    Join([DFE_SOURCE] + segments[1..], '.')
  }

  /** Joining behind a first piece keeps that piece in front. */
  lemma JoinAfterHead(head: string, rest: seq<string>)
    ensures Join([head] + rest, '.') == if rest == [] then head else head + "." + Join(rest, '.')
  {
    if rest != [] {
      assert ([head] + rest)[1..] == rest;
    }
  }

  /** A query without a dot is replaced by the DFE source alone. */
  lemma AddDfeWithoutDot(query: string)
    requires '.' !in query
    ensures AddDfe(query) == DFE_SOURCE
  {
    SplitWithoutSeparator(query, '.');
  }

  /** Replacing the first '.'-separated segment keeps everything after the first dot. */
  lemma ReplaceFirstSegment(head: string, first: string, rest: string)
    requires '.' !in first
    ensures Join([head] + Split(first + "." + rest, '.')[1..], '.') == head + "." + rest
  {
    SplitAtSeparator(first, '.', rest);
    assert Split(first + "." + rest, '.')[1..] == Split(rest, '.');
    JoinAfterHead(head, Split(rest, '.'));
    JoinSplit(rest, '.');
  }

  /**
   * The first segment of the query, up to its first dot, is replaced by the
   * DFE source; the dot and everything after it are kept verbatim.
   */
  lemma AddDfeKeepsTail(first: string, rest: string)
    requires '.' !in first
    ensures AddDfe(first + "." + rest) == DFE_SOURCE + "." + rest
  {
    ReplaceFirstSegment(DFE_SOURCE, first, rest);
  }

  /** The traversal source the edge queries start from. */
  function Source(hostMode: string): (r: string)
    ensures r == if hostMode == NEPTUNE_MODE then DFE_SOURCE else "g"
  {
    if hostMode == NEPTUNE_MODE then AddDfeWithoutDot("g"); AddDfe("g") else "g"
  }

  /** An id as a template literal embeds JSON.stringify(id): "undefined" when that has no JSON form. */
  function EmbeddedId(id: Value): (r: string)
    ensures id.Undefined? ==> r == "undefined"
    ensures !id.Undefined? ==> Json.Stringify(id) == Some(r)
    ensures Json.IsScalar(id) ==> Json.DecodeScalar(r) == Some(id)
  {
    if Json.IsScalar(id) then Json.DecodeStringify(id); EmbeddedText(id) else EmbeddedText(id)
  }

  function EmbeddedText(id: Value): string {
    match Json.Stringify(id)
    case Some(t) => t
    case None => "undefined"
  }

  /** getVerticesQuery: the (hinted) query, deduplicated and projected to id, label and properties. */
  function VerticesQuery(hostMode: string, query: string): (r: string)
    ensures |r| >= |VERTICES_PROJECTION| && r[|r| - |VERTICES_PROJECTION|..] == VERTICES_PROJECTION
    ensures hostMode != NEPTUNE_MODE ==> r == query + VERTICES_PROJECTION
    ensures hostMode == NEPTUNE_MODE ==> |r| >= |DFE_SOURCE| && r[..|DFE_SOURCE|] == DFE_SOURCE
  {
    (if hostMode == NEPTUNE_MODE then AddDfe(query) else query) + VERTICES_PROJECTION
  }

  /** The text strictly between a head and a tail of `q`. */
  function Middle(q: string, head: string, tail: string): string
    requires |head| + |tail| <= |q|
  {
    q[|head|..|q| - |tail|]
  }

  /**
   * getVertexEdges: the ids of all edges incident to the vertex. The query is
   * the source and `.V(`, then the embedded id, then the fixed tail.
   */
  function VertexEdgesQuery(hostMode: string, vertexId: Value): (q: string)
    ensures var head := Source(hostMode) + ".V(";
            && |head| + |VERTEX_EDGES_TAIL| <= |q|
            && q[..|head|] == head
            && q[|q| - |VERTEX_EDGES_TAIL|..] == VERTEX_EDGES_TAIL
            && Middle(q, head, VERTEX_EDGES_TAIL) == EmbeddedId(vertexId)
  {
    var head := Source(hostMode) + ".V(";
    var q := head + EmbeddedId(vertexId) + VERTEX_EDGES_TAIL;
    assert q[..|head|] == head;
    assert Middle(q, head, VERTEX_EDGES_TAIL) == EmbeddedId(vertexId);
    q
  }

  /**
   * getEdgeDataQuery: one edge projected to id, from, to, label and
   * properties. The query is the source and `.E(`, the embedded id, then the
   * fixed projection.
   */
  function EdgeDataQuery(hostMode: string, edgeId: Value): (q: string)
    ensures var head := Source(hostMode) + ".E(";
            && |head| + |EDGE_DATA_TAIL| <= |q|
            && q[..|head|] == head
            && q[|q| - |EDGE_DATA_TAIL|..] == EDGE_DATA_TAIL
            && Middle(q, head, EDGE_DATA_TAIL) == EmbeddedId(edgeId)
  {
    var head := Source(hostMode) + ".E(";
    var q := head + EmbeddedId(edgeId) + EDGE_DATA_TAIL;
    assert q[..|head|] == head;
    assert Middle(q, head, EDGE_DATA_TAIL) == EmbeddedId(edgeId);
    q
  }

  /** Between its fixed head and tail, the query holds a JSON text that decodes to the id. */
  lemma VertexEdgesQueryCarriesId(hostMode: string, vertexId: Value)
    requires Json.IsScalar(vertexId)
    ensures var q := VertexEdgesQuery(hostMode, vertexId);
            Json.DecodeScalar(Middle(q, Source(hostMode) + ".V(", VERTEX_EDGES_TAIL)) == Some(vertexId)
  {
  }

  /** Between its fixed head and tail, the query holds a JSON text that decodes to the id. */
  lemma EdgeDataQueryCarriesId(hostMode: string, edgeId: Value)
    requires Json.IsScalar(edgeId)
    ensures var q := EdgeDataQuery(hostMode, edgeId);
            Json.DecodeScalar(Middle(q, Source(hostMode) + ".E(", EDGE_DATA_TAIL)) == Some(edgeId)
  {
  }

  /** Distinct scalar ids give distinct vertex-edges queries. */
  lemma VertexEdgesQueryInjective(hostMode: string, a: Value, b: Value)
    requires Json.IsScalar(a) && Json.IsScalar(b)
    ensures VertexEdgesQuery(hostMode, a) == VertexEdgesQuery(hostMode, b) ==> a == b
  {
    VertexEdgesQueryCarriesId(hostMode, a);
    VertexEdgesQueryCarriesId(hostMode, b);
  }

  /** Distinct scalar ids give distinct edge-data queries. */
  lemma EdgeDataQueryInjective(hostMode: string, a: Value, b: Value)
    requires Json.IsScalar(a) && Json.IsScalar(b)
    ensures EdgeDataQuery(hostMode, a) == EdgeDataQuery(hostMode, b) ==> a == b
  {
    EdgeDataQueryCarriesId(hostMode, a);
    EdgeDataQueryCarriesId(hostMode, b);
  }
}
