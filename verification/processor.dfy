/**
 * The request-scoped QueryProcessor: the settings it derives from the
 * request body (node limit and host mode), the warnings it collects, and the
 * two truncation steps of the pipeline, on the vertex list and on each
 * vertex's list of incident edge ids.
 */
module Processor {
  import opened Js
  import Sampling
  import Mapping
  import QueryText
  import opened Modes

  const DEFAULT_NODE_LIMIT := 100

  /** The host suffix of Amazon Neptune endpoints. */
  const NEPTUNE_HOST := "neptune.amazonaws.com"

  /** The fields of the request body the processor reads; `nodeLimit` is optional. */
  datatype RequestBody = RequestBody(host: string, port: int, query: string, nodeLimit: Option<int>)

  /** `body.nodeLimit || 100`: an absent limit or 0 (the falsy numbers) selects the default. */
  function NodeLimitOf(requested: Option<int>): (limit: int)
    ensures limit != 0
    ensures requested.Some? && requested.value != 0 ==> limit == requested.value
    ensures requested.None? || requested.value == 0 ==> limit == DEFAULT_NODE_LIMIT
  {
    match requested
    case Some(n) => if n != 0 then n else DEFAULT_NODE_LIMIT
    case None => DEFAULT_NODE_LIMIT
  }

  /** "neptune" exactly when the host contains the Neptune suffix somewhere, "" otherwise. */
  function HostModeOf(host: string): (mode: string)
    ensures mode == NEPTUNE_MODE <==> exists i :: OccursAt(host, NEPTUNE_HOST, i)
    ensures mode != NEPTUNE_MODE ==> mode == ""
  {
    IncludesIff(host, NEPTUNE_HOST);
    if Includes(host, NEPTUNE_HOST) then NEPTUNE_MODE else ""
  }

  /** The text of the edge warning, from the vertex id, edge count and limit as printed. */
  function EdgeWarningText(id: string, count: string, limit: string): string {
    "Vertex " + id + ": Number of edges (" + count + ") higher than nodeLimit(" + limit
    + "). Returning a random sample of " + limit + " elements"
  }


  lemma EdgeWarningTextNamesId(id: string, count: string, limit: string)
    ensures Includes(EdgeWarningText(id, count, limit), id)
  {
    assert Includes(id, id);
    IncludesAppend(id, "Vertex ", id);
    var w := "Vertex " + id;
    IncludesAppend(w, ": Number of edges (", id);
    w := w + ": Number of edges (";
    IncludesAppend(w, count, id);
    w := w + count;
    IncludesAppend(w, ") higher than nodeLimit(", id);
    w := w + ") higher than nodeLimit(";
    IncludesAppend(w, limit, id);
    w := w + limit;
    IncludesAppend(w, "). Returning a random sample of ", id);
    w := w + "). Returning a random sample of ";
    IncludesAppend(w, limit, id);
    w := w + limit;
    IncludesAppend(w, " elements", id);
  }

  lemma EdgeWarningTextNamesCount(id: string, count: string, limit: string)
    ensures Includes(EdgeWarningText(id, count, limit), count)
  {
    assert Includes(count, count);
    var w := "Vertex " + id + ": Number of edges (";
    IncludesAppend(count, w, count);
    w := w + count;
    IncludesAppend(w, ") higher than nodeLimit(", count);
    w := w + ") higher than nodeLimit(";
    IncludesAppend(w, limit, count);
    w := w + limit;
    IncludesAppend(w, "). Returning a random sample of ", count);
    w := w + "). Returning a random sample of ";
    IncludesAppend(w, limit, count);
    w := w + limit;
    IncludesAppend(w, " elements", count);
  }

  lemma EdgeWarningTextNamesLimit(id: string, count: string, limit: string)
    ensures Includes(EdgeWarningText(id, count, limit), limit)
  {
    assert Includes(limit, limit);
    var w := "Vertex " + id + ": Number of edges (" + count + ") higher than nodeLimit(";
    IncludesAppend(limit, w, limit);
    w := w + limit;
    IncludesAppend(w, "). Returning a random sample of ", limit);
    w := w + "). Returning a random sample of ";
    IncludesAppend(w, limit, limit);
    w := w + limit;
    IncludesAppend(w, " elements", limit);
  }

  /**
   * The warning recorded when a vertex has more incident edges than the
   * limit: it names the vertex, the number of edges and the limit.
   */
  function EdgeWarning(vertexId: Value, count: nat, limit: int): (w: string)
    ensures Includes(w, ToString(vertexId)) && Includes(w, Decimal(count)) && Includes(w, Decimal(limit))
  {
    var id, c, l := ToString(vertexId), Decimal(count), Decimal(limit);
    EdgeWarningTextNamesId(id, c, l);
    EdgeWarningTextNamesCount(id, c, l);
    EdgeWarningTextNamesLimit(id, c, l);
    EdgeWarningText(id, c, l)
  }

  /** With two or more elements the joined text holds a comma and reads as NaN. */
  lemma CommaJoinIsNaN(edges: seq<Value>)
    requires |edges| >= 2
    ensures StringToNumber(ToString(Arr(edges))).None?
  {
    var parts := seq(|edges|, k requires 0 <= k < |edges| =>
      if edges[k].Undefined? || edges[k].Null? then "" else ToString(edges[k]));
    var text := Join(parts, ',');
    assert ToString(Arr(edges)) == text;
    JoinHasSeparator(parts, ',');
    assert text[|parts[0]|] == ',';
    assert !IsDigit(text[|parts[0]|]);
  }

  /**
   * The end argument of `edges.slice(0, edges)`: the array itself, through
   * ToNumber (of its comma-joined text) and ToIntegerOrInfinity. An empty
   * array or one of two or more elements gives 0; a single integer gives
   * that integer.
   */
  function ArrayAsSliceEnd(edges: seq<Value>): (end: int)
    ensures |edges| == 0 || |edges| >= 2 ==> end == 0
    ensures |edges| == 1 && edges[0].Int? ==> end == edges[0].i
  {
    if |edges| >= 2 then
      CommaJoinIsNaN(edges);
      IntegerOrZero(StringToNumber(ToString(Arr(edges))))
    else if |edges| == 1 && edges[0].Int? then
      assert ToString(Arr(edges)) == Decimal(edges[0].i);
      StringToNumberOfDecimal(edges[0].i);
      IntegerOrZero(StringToNumber(ToString(Arr(edges))))
    else
      IntegerOrZero(StringToNumber(ToString(Arr(edges))))
  }

  /**
   * The edge tier as written: no edges stay empty; more edges than the limit
   * are shuffled and cut with slice(0, edges); otherwise they are kept.
   */
  function EdgeSample(edges: seq<Value>, limit: int, draws: seq<real>): (r: seq<Value>)
    requires Sampling.RandomStream(draws, |edges|)
    ensures |edges| <= limit ==> r == edges
    ensures 2 <= |edges| && limit < |edges| ==> r == []
    ensures multiset(r) <= multiset(edges)
  {
    if |edges| == 0 then []
    else if |edges| > limit then
      var shuffled := Sampling.Shuffled(edges, draws);
      Sampling.ShufflePermutes(edges, draws);
      Slice(shuffled, 0, ArrayAsSliceEnd(shuffled))
    else edges
  }

  /** With a limit of at least 1, every truncated edge list comes out empty. */
  lemma TruncatedEdgesVanish(edges: seq<Value>, limit: int, draws: seq<real>)
    requires Sampling.RandomStream(draws, |edges|)
    requires 1 <= limit < |edges|
    ensures EdgeSample(edges, limit, draws) == []
  {
  }

  /**
   * The edge tier as intended: the same limit-and-sample as the vertex tier,
   * so a truncated list keeps exactly `limit` of its edges.
   */
  function IntendedEdgeSample(edges: seq<Value>, limit: int, draws: seq<real>): (r: seq<Value>)
    requires Sampling.RandomStream(draws, |edges|)
    ensures |edges| <= limit ==> r == edges
    ensures 0 <= limit < |edges| ==> |r| == limit
    ensures multiset(r) <= multiset(edges)
  {
    if |edges| == 0 then [] else Sampling.Sample(edges, limit, draws)
  }

  /** One QueryProcessor per request. */
  class QueryProcessor {
    const host: string
    const port: int
    const query: string
    const nodeLimit: int
    const hostMode: string
    var warnings: seq<string>

    constructor (body: RequestBody)
      ensures host == body.host && port == body.port && query == body.query
      ensures nodeLimit == NodeLimitOf(body.nodeLimit) && nodeLimit != 0
      ensures hostMode == HostModeOf(body.host)
      ensures warnings == []
    {
      host := body.host;
      port := body.port;
      query := body.query;
      nodeLimit := NodeLimitOf(body.nodeLimit);
      hostMode := HostModeOf(body.host);
      warnings := [];
    }

    /**
     * The vertex tier: more vertices than the limit are shuffled in place and
     * cut to the limit. The warning text is only logged, so `warnings` is
     * left alone.
     */
    method SampleVertices(vertices: array<Mapping.Vertex>, draws: seq<real>)
      returns (sampled: seq<Mapping.Vertex>)
      requires Sampling.RandomStream(draws, vertices.Length)
      modifies vertices
      ensures sampled == Sampling.Sample(old(vertices[..]), nodeLimit, draws)
      ensures vertices[..] ==
        if vertices.Length > nodeLimit then Sampling.Shuffled(old(vertices[..]), draws) else old(vertices[..])
      ensures warnings == old(warnings)
    {
      sampled := vertices[..];
      if vertices.Length > nodeLimit {
        Sampling.ShuffleInPlace(vertices, draws);
        sampled := Slice(vertices[..], 0, nodeLimit);
      }
    }

    /**
     * The edge tier as written: an empty list is left alone; a list longer
     * than the limit adds one warning, is shuffled in place and is cut with
     * slice(0, edges).
     */
    method SampleEdges(vertexId: Value, edges: array<Value>, draws: seq<real>) returns (kept: seq<Value>)
      requires Sampling.RandomStream(draws, edges.Length)
      modifies this`warnings, edges
      ensures kept == EdgeSample(old(edges[..]), nodeLimit, draws)
      ensures warnings ==
        if 0 < edges.Length && nodeLimit < edges.Length
        then old(warnings) + [EdgeWarning(vertexId, edges.Length, nodeLimit)]
        else old(warnings)
      ensures edges[..] ==
        if 0 < edges.Length && nodeLimit < edges.Length
        then Sampling.Shuffled(old(edges[..]), draws)
        else old(edges[..])
    {
      if edges.Length == 0 {
        return [];
      }
      kept := edges[..];
      if edges.Length > nodeLimit {
        warnings := warnings + [EdgeWarning(vertexId, edges.Length, nodeLimit)];
        Sampling.ShuffleInPlace(edges, draws);
        kept := Slice(edges[..], 0, ArrayAsSliceEnd(edges[..]));
      }
    }

    /** The edge tier as intended: the list is cut to the limit instead. */
    method SampleEdgesIntended(vertexId: Value, edges: array<Value>, draws: seq<real>) returns (kept: seq<Value>)
      requires Sampling.RandomStream(draws, edges.Length)
      modifies this`warnings, edges
      ensures kept == IntendedEdgeSample(old(edges[..]), nodeLimit, draws)
      ensures warnings ==
        if 0 < edges.Length && nodeLimit < edges.Length
        then old(warnings) + [EdgeWarning(vertexId, edges.Length, nodeLimit)]
        else old(warnings)
      ensures edges[..] ==
        if 0 < edges.Length && nodeLimit < edges.Length
        then Sampling.Shuffled(old(edges[..]), draws)
        else old(edges[..])
    {
      if edges.Length == 0 {
        return [];
      }
      kept := edges[..];
      if edges.Length > nodeLimit {
        warnings := warnings + [EdgeWarning(vertexId, edges.Length, nodeLimit)];
        Sampling.ShuffleInPlace(edges, draws);
        kept := Slice(edges[..], 0, nodeLimit);
      }
    }
  }
}
