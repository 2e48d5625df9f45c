/**
 * The result mapper: raw backend records to the proxy's vertex shape
 * {id, label, properties, edges} and edge shape {id, from, to, label,
 * properties}. Neptune records are plain objects read with record[key];
 * records of a generic Gremlin server are JavaScript Maps read with
 * record.get(key).
 */
module Mapping {
  import opened Js
  import Json
  import opened Modes

  /** A raw record: a plain object, or a JavaScript Map with its entries in insertion order. */
  datatype RawRecord =
    | Plain(fields: map<string, Value>)
    | JsMap(entries: seq<(string, Value)>)

  /** A JavaScript exception raised while mapping, by its message. */
  datatype Result<T> = Ok(value: T) | Err(message: string)

  // `label` is a Dafny keyword, so the label fields are named after their entity.
  datatype Edge = Edge(id: Value, from: Value, to: Value, edgeLabel: Value, properties: Value)

  datatype Vertex = Vertex(id: Value, vertexLabel: Value, properties: Value, edges: seq<Edge>)

  /**
   * The two functions mapper.js calls without defining them: mapToObj, and a
   * free-standing edgesToJson(list, mode).
   */
  datatype Externals = Externals(mapToObj: Value -> Value, edgesToJson: (Value, string) -> seq<Edge>)

  const GET_NOT_A_FUNCTION := "TypeError: record.get is not a function"

  /** record[key]: a plain object's property, undefined when absent; a Map has no such properties. */
  function Field(r: RawRecord, key: string): Value {
    match r
    case Plain(fields) => if key in fields then fields[key] else Undefined
    case JsMap(_) => Undefined
  }

  /** Map.prototype.get on the entries: the first entry with the key, undefined when absent. */
  function Lookup(entries: seq<(string, Value)>, key: string): Value {
    if entries == [] then Undefined
    else if entries[0].0 == key then entries[0].1
    else Lookup(entries[1..], key)
  }

  /** record.get(key): a Map lookup; a plain object has no `get` method. */
  function Get(r: RawRecord, key: string): Result<Value> {
    match r
    case Plain(_) => Err(GET_NOT_A_FUNCTION)
    case JsMap(entries) => Ok(Lookup(entries, key))
  }

  /**
   * The edge id rule: a string id is kept, any other id is replaced by its
   * JSON text (which JSON.stringify leaves undefined for undefined).
   */
  function StringId(id: Value): (r: Value)
    ensures r.Str? <==> !id.Undefined?
    ensures id.Str? ==> r == id
    ensures Json.IsScalar(id) && !id.Str? ==> Json.DecodeScalar(r.s) == Some(id)
  {
    if !id.Str? then
      Json.DecodeStringify(if Json.IsScalar(id) then id else Null);
      match Json.Stringify(id)
      case Some(t) => Str(t)
      case None => Undefined
    else id
  }

  /** mapNeptuneEdge. */
  function MapNeptuneEdge(edge: RawRecord): (e: Edge)
    ensures e.id == StringId(Field(edge, "id"))
    ensures e.from == Field(edge, "from") && e.to == Field(edge, "to")
    ensures e.edgeLabel == Field(edge, "label") && e.properties == Field(edge, "properties")
  {
    Edge(StringId(Field(edge, "id")), Field(edge, "from"), Field(edge, "to"),
         Field(edge, "label"), Field(edge, "properties"))
  }

  /** mapNeptuneNode: the vertex fields copied, with no edges yet. */
  function MapNeptuneNode(node: RawRecord): (v: Vertex)
    ensures v.id == Field(node, "id") && v.vertexLabel == Field(node, "label")
    ensures v.properties == Field(node, "properties") && v.edges == []
  {
    Vertex(Field(node, "id"), Field(node, "label"), Field(node, "properties"), [])
  }

  /**
   * mapGremlinNode: fields read with get; properties through mapToObj and
   * edges through the free-standing edgesToJson.
   */
  function MapGremlinNode(ext: Externals, node: RawRecord): (r: Result<Vertex>)
    ensures r.Ok? <==> node.JsMap?
    ensures r.Ok? ==> r.value.id == Lookup(node.entries, "id") && r.value.vertexLabel == Lookup(node.entries, "label")
    ensures r.Ok? ==> r.value.properties == ext.mapToObj(Lookup(node.entries, "properties"))
    ensures r.Ok? ==> r.value.edges == ext.edgesToJson(Lookup(node.entries, "edges"), "gremlin")
  {
    match node
    case Plain(_) => Err(GET_NOT_A_FUNCTION)
    case JsMap(entries) =>
      Ok(Vertex(Lookup(entries, "id"), Lookup(entries, "label"),
                ext.mapToObj(Lookup(entries, "properties")),
                ext.edgesToJson(Lookup(entries, "edges"), "gremlin")))
  }

  /** mapGremlinEdge: the id rule applied to get('id'); properties through mapToObj. */
  function MapGremlinEdge(ext: Externals, edge: RawRecord): (r: Result<Edge>)
    ensures r.Ok? <==> edge.JsMap?
    ensures r.Ok? ==> r.value.id == StringId(Lookup(edge.entries, "id"))
    ensures r.Ok? ==> r.value.from == Lookup(edge.entries, "from") && r.value.to == Lookup(edge.entries, "to")
    ensures r.Ok? ==> r.value.edgeLabel == Lookup(edge.entries, "label")
    ensures r.Ok? ==> r.value.properties == ext.mapToObj(Lookup(edge.entries, "properties"))
  {
    match edge
    case Plain(_) => Err(GET_NOT_A_FUNCTION)
    case JsMap(entries) =>
      Ok(Edge(StringId(Lookup(entries, "id")), Lookup(entries, "from"), Lookup(entries, "to"),
              Lookup(entries, "label"), ext.mapToObj(Lookup(entries, "properties"))))
  }

  /** The per-element choice in edgesToJson: Neptune's mapper in mode "neptune", Gremlin's otherwise. */
  function MapEdge(mappingMode: string, ext: Externals, edge: RawRecord): (r: Result<Edge>)
    ensures r.Ok? <==> mappingMode == NEPTUNE_MODE || edge.JsMap?
    ensures r.Ok? ==> r.value.id == StringId(if mappingMode == NEPTUNE_MODE then Field(edge, "id") else Lookup(edge.entries, "id"))
  {
    if mappingMode == NEPTUNE_MODE then Ok(MapNeptuneEdge(edge)) else MapGremlinEdge(ext, edge)
  }

  /** The per-element choice in nodesToJson. */
  function MapNode(mappingMode: string, ext: Externals, node: RawRecord): (r: Result<Vertex>)
    ensures r.Ok? <==> mappingMode == NEPTUNE_MODE || node.JsMap?
    ensures r.Ok? ==> r.value.id == if mappingMode == NEPTUNE_MODE then Field(node, "id") else Lookup(node.entries, "id")
  {
    if mappingMode == NEPTUNE_MODE then Ok(MapNeptuneNode(node)) else MapGremlinNode(ext, node)
  }

  /**
   * edgesToJson: Array.prototype.map with the mode's edge mapper. The first
   * element whose mapping throws aborts the whole call with that exception.
   */
  function EdgesToJson(mappingMode: string, ext: Externals, edgeList: seq<RawRecord>): (r: Result<seq<Edge>>)
    ensures r.Ok? ==> |r.value| == |edgeList|
    ensures r.Ok? ==> forall k :: 0 <= k < |edgeList| ==> MapEdge(mappingMode, ext, edgeList[k]) == Ok(r.value[k])
    ensures r.Err? ==> exists k :: 0 <= k < |edgeList| && MapEdge(mappingMode, ext, edgeList[k]) == Err(r.message)
    ensures r.Err? <==> exists k :: 0 <= k < |edgeList| && MapEdge(mappingMode, ext, edgeList[k]).Err?
  {
    if edgeList == [] then Ok([])
    else
      match MapEdge(mappingMode, ext, edgeList[0])
      case Err(m) => Err(m)
      case Ok(e) =>
        match EdgesToJson(mappingMode, ext, edgeList[1..])
        case Err(m) => Err(m)
        case Ok(rest) => Ok([e] + rest)
  }

  /** nodesToJson: Array.prototype.map with the mode's node mapper. */
  function NodesToJson(mappingMode: string, ext: Externals, nodeList: seq<RawRecord>): (r: Result<seq<Vertex>>)
    ensures r.Ok? ==> |r.value| == |nodeList|
    ensures r.Ok? ==> forall k :: 0 <= k < |nodeList| ==> MapNode(mappingMode, ext, nodeList[k]) == Ok(r.value[k])
    ensures r.Err? ==> exists k :: 0 <= k < |nodeList| && MapNode(mappingMode, ext, nodeList[k]) == Err(r.message)
    ensures r.Err? <==> exists k :: 0 <= k < |nodeList| && MapNode(mappingMode, ext, nodeList[k]).Err?
  {
    if nodeList == [] then Ok([])
    else
      match MapNode(mappingMode, ext, nodeList[0])
      case Err(m) => Err(m)
      case Ok(v) =>
        match NodesToJson(mappingMode, ext, nodeList[1..])
        case Err(m) => Err(m)
        case Ok(rest) => Ok([v] + rest)
  }

  /** In mode "neptune" every edge list maps, element by element, with no failure. */
  lemma NeptuneEdgesMap(ext: Externals, edgeList: seq<RawRecord>)
    ensures EdgesToJson(NEPTUNE_MODE, ext, edgeList)
      == Ok(seq(|edgeList|, k requires 0 <= k < |edgeList| => MapNeptuneEdge(edgeList[k])))
  {
    forall k | 0 <= k < |edgeList| ensures MapEdge(NEPTUNE_MODE, ext, edgeList[k]).Ok? {}
    var r := EdgesToJson(NEPTUNE_MODE, ext, edgeList);
    assert r.Ok?;
    assert r.value == seq(|edgeList|, k requires 0 <= k < |edgeList| => MapNeptuneEdge(edgeList[k]));
  }

  /** In mode "neptune" every node list maps, element by element, with no failure. */
  lemma NeptuneNodesMap(ext: Externals, nodeList: seq<RawRecord>)
    ensures NodesToJson(NEPTUNE_MODE, ext, nodeList)
      == Ok(seq(|nodeList|, k requires 0 <= k < |nodeList| => MapNeptuneNode(nodeList[k])))
  {
    forall k | 0 <= k < |nodeList| ensures MapNode(NEPTUNE_MODE, ext, nodeList[k]).Ok? {}
    var r := NodesToJson(NEPTUNE_MODE, ext, nodeList);
    assert r.Ok?;
    assert r.value == seq(|nodeList|, k requires 0 <= k < |nodeList| => MapNeptuneNode(nodeList[k]));
  }

  /** In any other mode a list maps exactly when every record is a Map. */
  lemma GremlinListsMap(mappingMode: string, ext: Externals, edgeList: seq<RawRecord>)
    requires mappingMode != NEPTUNE_MODE
    ensures EdgesToJson(mappingMode, ext, edgeList).Ok? <==> forall k :: 0 <= k < |edgeList| ==> edgeList[k].JsMap?
  {
  }

  // ---------------------------------------------------------------------------
  // Relating the two record shapes

  /** The plain object with a Map's entries; the first entry of a key wins, as in `Lookup`. */
  function EntriesToFields(entries: seq<(string, Value)>): map<string, Value> {
    if entries == [] then map[] else EntriesToFields(entries[1..])[entries[0].0 := entries[0].1]
  }

  lemma {:induction false} LookupAsField(entries: seq<(string, Value)>, key: string)
    ensures Lookup(entries, key) == Field(Plain(EntriesToFields(entries)), key)
  {
    if entries != [] {
      LookupAsField(entries[1..], key);
    }
  }

  /**
   * The same logical edge, fetched as a Gremlin Map and as a Neptune plain
   * object, maps to the same edge: the two records agree on id, from, to and
   * label, and the plain object's properties are what mapToObj makes of the
   * Map's.
   */
  lemma SameEdgeFromBothShapes(ext: Externals, p: map<string, Value>, entries: seq<(string, Value)>)
    requires Field(Plain(p), "id") == Lookup(entries, "id")
    requires Field(Plain(p), "from") == Lookup(entries, "from") && Field(Plain(p), "to") == Lookup(entries, "to")
    requires Field(Plain(p), "label") == Lookup(entries, "label")
    requires Field(Plain(p), "properties") == ext.mapToObj(Lookup(entries, "properties"))
    ensures MapGremlinEdge(ext, JsMap(entries)) == Ok(MapNeptuneEdge(Plain(p)))
  {
  }

  /** A Gremlin Map record and the plain object with the same entries give the same vertex id and label. */
  lemma SameVertexFromBothShapes(ext: Externals, entries: seq<(string, Value)>)
    ensures MapGremlinNode(ext, JsMap(entries)).Ok?
    ensures MapGremlinNode(ext, JsMap(entries)).value.id == MapNeptuneNode(Plain(EntriesToFields(entries))).id
    ensures MapGremlinNode(ext, JsMap(entries)).value.vertexLabel == MapNeptuneNode(Plain(EntriesToFields(entries))).vertexLabel
  {
    LookupAsField(entries, "id");
    LookupAsField(entries, "label");
  }

  // ---------------------------------------------------------------------------
  // The id rule

  /** A mapped edge, read back as a plain object. */
  function EdgeFields(e: Edge): map<string, Value> {
    map["id" := e.id, "from" := e.from, "to" := e.to, "label" := e.edgeLabel, "properties" := e.properties]
  }

  /** Mapping an already mapped Neptune edge again changes nothing: its id is already a string. */
  lemma NeptuneEdgeRemapIsIdentity(edge: RawRecord)
    ensures MapNeptuneEdge(Plain(EdgeFields(MapNeptuneEdge(edge)))) == MapNeptuneEdge(edge)
  {
  }

  /**
   * The id rule does not keep numeric and string ids apart: the number n and
   * the string of its digits give the same edge id.
   */
  lemma NumberAndDigitStringIdsCollide(n: int)
    ensures StringId(Int(n)) == StringId(Str(Decimal(n)))
  {
  }
}
