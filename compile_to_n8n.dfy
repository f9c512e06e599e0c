/** The compiler from a workflow specification to n8n's workflow JSON:
    one n8n node per specification node, a connection map built from the
    edges, and fixed settings. A total function: nothing in it fails. */
module CompileToN8n {
  import opened Common
  import opened Specification

  const WebhookType := "n8n-nodes-base.webhook"
  const CronType := "n8n-nodes-base.cron"
  const HttpRequestType := "n8n-nodes-base.httpRequest"
  const PostgresType := "n8n-nodes-base.postgres"
  const ExecuteWorkflowType := "n8n-nodes-base.executeWorkflow"
  const CodeType := "n8n-nodes-base.code"
  const NoOpType := "n8n-nodes-base.noOp"

  const N8nTypes: set<string> :=
    {WebhookType, CronType, HttpRequestType, PostgresType, ExecuteWorkflowType, CodeType, NoOpType}

  /** The parameter key that carries the deployment's workflow id. */
  const TesseraIdKey := "tesseraId"

  const DefaultExecutionTimeout := 300

  datatype N8nNode = N8nNode(
    id: string, name: string, nodeType: string, typeVersion: int,
    position: seq<int>, parameters: map<string, Json>)

  datatype ConnectionTarget = ConnectionTarget(node: string, outputType: string, index: int)

  /** The outputs of one node: `main[slot]` lists the nodes fed from `slot`. */
  datatype ConnectionEntry = ConnectionEntry(main: seq<seq<ConnectionTarget>>)

  datatype Settings = Settings(executionOrder: string, executionTimeout: int)

  datatype CompiledWorkflow = CompiledWorkflow(
    nodes: seq<N8nNode>,
    connections: map<string, ConnectionEntry>,
    settings: Settings,
    staticData: Json,
    instanceId: string)

  // ---------------------------------------------------------------- node types

  /** The n8n type a data tag selects when the node's type matches it. */
  function TagType(d: NodeData): string
  {
    match d
    case Webhook(_, _) => WebhookType
    case Schedule(_) => CronType
    case Event(_) => WebhookType
    case HttpRequest(_, _, _, _) => HttpRequestType
    case DatabaseUpsert(_) => PostgresType
    case N8nWorkflow(_) => ExecuteWorkflowType
    case Untyped(_) => NoOpType
  }

  /** A trigger carrying a trigger source, or an action carrying an action
      target. */
  predicate HasTypedDispatch(node: WorkflowNode)
  {
    (node.kind == Trigger && node.data.IsTriggerSource())
    || (node.kind == Action && node.data.IsActionTarget())
  }

  /** The n8n node type of a specification node. */
  function MapNodeToN8nType(node: WorkflowNode): (r: string)
    ensures r in N8nTypes
    ensures HasTypedDispatch(node) ==> r == TagType(node.data)
    ensures r == CodeType <==> node.kind == Transform
    ensures r == NoOpType <==> node.kind != Transform && !HasTypedDispatch(node)
  {
    match node.kind
    case Trigger =>
      (match node.data
       case Webhook(_, _) => WebhookType
       case Schedule(_) => CronType
       case Event(_) => WebhookType
       case _ => NoOpType)
    case Action =>
      (match node.data
       case HttpRequest(_, _, _, _) => HttpRequestType
       case DatabaseUpsert(_) => PostgresType
       case N8nWorkflow(_) => ExecuteWorkflowType
       case _ => NoOpType)
    case Transform => CodeType
  }

  // ---------------------------------------------------------------- parameters

  /** JavaScript truthiness of a JSON value. */
  predicate JsonTruthy(j: Json)
  {
    match j
    case JString(s) => s != ""
    case JNumber(n) => n != 0
    case JBool(b) => b
    case JNull => false
    case JObject(_) => true
    case JArray(_) => true
  }

  /** The `{ name, value }` list n8n expects for request headers. */
  function HeaderParameters(headers: seq<(string, string)>): (r: seq<Json>)
    ensures |r| == |headers|
    ensures forall i :: 0 <= i < |headers| ==>
      r[i] == JObject(map["name" := JString(headers[i].0), "value" := JString(headers[i].1)])
  {
    seq(|headers|, i requires 0 <= i < |headers| =>
      JObject(map["name" := JString(headers[i].0), "value" := JString(headers[i].1)]))
  }

  /** The header parameters list exactly the entries of the node's header
      object: one `{ name, value }` per key, with that key's value. */
  lemma {:induction false} HeaderParametersMatchObject(headers: HeaderList)
    ensures |HeaderParameters(headers)| == |HeadersObject(headers)|
    ensures forall i :: 0 <= i < |headers| ==>
      var name := headers[i].0;
      && name in HeadersObject(headers)
      && HeaderParameters(headers)[i] == JObject(map["name" := JString(name), "value" := HeadersObject(headers)[name]])
    ensures forall k :: k in HeadersObject(headers) ==>
      exists i :: 0 <= i < |headers|
        && HeaderParameters(headers)[i] == JObject(map["name" := JString(k), "value" := HeadersObject(headers)[k]])
  {
    HeadersObjectSize(headers);
    HeadersObjectValues(headers);
    var obj := HeadersObject(headers);
    forall k | k in obj
      ensures exists i :: 0 <= i < |headers| &&
                HeaderParameters(headers)[i] == JObject(map["name" := JString(k), "value" := obj[k]])
    {
      assert k in HeaderNames(headers);
      var i :| 0 <= i < |headers| && headers[i].0 == k;
      assert HeaderParameters(headers)[i] == JObject(map["name" := JString(k), "value" := obj[k]]);
    }
  }

  /** Parameters of an HTTP_REQUEST action. Keys whose value would be
      `undefined` are absent, as they are once the object is serialised. */
  function HttpRequestParameters(
    url: string, m: HttpMethod, body: Option<Json>, headers: Option<HeaderList>,
    workflowId: string, stringify: Json -> string): (r: map<string, Json>)
    ensures TesseraIdKey in r && "url" in r && "method" in r && "sendBody" in r
    ensures r[TesseraIdKey] == JString(workflowId)
    ensures r["url"] == JString(url) && r["method"] == JString(m)
    ensures r["sendBody"] == JBool(body.Some? && JsonTruthy(body.value))
    ensures ("specifyBody" in r) <==> body.Some? && JsonTruthy(body.value)
    ensures ("jsonBody" in r) <==> body.Some? && JsonTruthy(body.value)
    ensures "jsonBody" in r ==>
      r["specifyBody"] == JString("json") && r["jsonBody"] == JString(stringify(body.value))
    ensures ("headerParameters" in r) <==> headers.Some?
    ensures headers.Some? ==>
      r["headerParameters"] == JObject(map["parameters" := JArray(HeaderParameters(headers.value))])
    ensures r.Keys <= {TesseraIdKey, "url", "method", "sendBody", "specifyBody", "jsonBody", "headerParameters"}
  {
    var sendBody := body.Some? && JsonTruthy(body.value);
    var base := map[TesseraIdKey := JString(workflowId), "url" := JString(url),
                    "method" := JString(m), "sendBody" := JBool(sendBody)];
    var withBody :=
      if sendBody then base["specifyBody" := JString("json")]["jsonBody" := JString(stringify(body.value))]
      else base;
    if headers.Some? then
      withBody["headerParameters" := JObject(map["parameters" := JArray(HeaderParameters(headers.value))])]
    else withBody
  }

  /** A trigger with a WEBHOOK or SCHEDULE source, or an action with an
      HTTP_REQUEST or DATABASE_UPSERT target: the kinds with their own
      parameter projection. */
  predicate HasTypedParameters(node: WorkflowNode)
  {
    (node.kind == Trigger && (node.data.Webhook? || node.data.Schedule?))
    || (node.kind == Action && (node.data.HttpRequest? || node.data.DatabaseUpsert?))
  }

  /** The parameters of one node. The typed projections carry the workflow
      id; every other node gets the base spread with its data, so a
      `tesseraId` key in the data replaces the injected one. */
  function MapNodeParameters(node: WorkflowNode, workflowId: string, stringify: Json -> string)
    : (r: map<string, Json>)
    ensures TesseraIdKey in r
    ensures HasTypedParameters(node) ==> r[TesseraIdKey] == JString(workflowId)
    ensures !HasTypedParameters(node) ==>
      r.Keys == {TesseraIdKey} + DataRecord(node.data).Keys
      && (forall k :: k in DataRecord(node.data) ==> r[k] == DataRecord(node.data)[k])
      && (TesseraIdKey !in DataRecord(node.data) ==> r[TesseraIdKey] == JString(workflowId))
    ensures node.kind == Trigger && node.data.Webhook? ==>
      && r.Keys == {TesseraIdKey, "path", "httpMethod", "responseMode"}
      && r["path"] == JString(if node.data.path != "" then node.data.path else workflowId)
      && r["httpMethod"] == JString(node.data.webhookMethod)
      && r["responseMode"] == JString("onReceived")
    ensures node.kind == Trigger && node.data.Schedule? ==>
      r.Keys == {TesseraIdKey, "cronExpression"} && r["cronExpression"] == JString(node.data.cron)
    ensures node.kind == Action && node.data.HttpRequest? ==>
      r == HttpRequestParameters(node.data.url, node.data.httpMethod, node.data.body,
                                 node.data.headers, workflowId, stringify)
    ensures node.kind == Action && node.data.DatabaseUpsert? ==>
      && r.Keys == {TesseraIdKey, "operation", "table"}
      && r["operation"] == JString("upsert") && r["table"] == JString(node.data.table)
  {
    var base := map[TesseraIdKey := JString(workflowId)];
    match (node.kind, node.data)
    case (Trigger, Webhook(path, m)) =>
      base["path" := JString(if path != "" then path else workflowId)]
          ["httpMethod" := JString(m)]["responseMode" := JString("onReceived")]
    case (Trigger, Schedule(cron)) => base["cronExpression" := JString(cron)]
    case (Action, HttpRequest(url, m, body, headers)) =>
      HttpRequestParameters(url, m, body, headers, workflowId, stringify)
    case (Action, DatabaseUpsert(table)) =>
      base["operation" := JString("upsert")]["table" := JString(table)]
    case _ => base + DataRecord(node.data)
  }

  // ---------------------------------------------------------------- connections

  /** The id → name lookup built from the nodes in order (`new Map`): a
      later node with the same id replaces the earlier name. */
  function NameLookup(nodes: seq<WorkflowNode>): (m: map<string, string>)
    ensures forall i :: 0 <= i < |nodes| ==> nodes[i].id in m
    ensures forall id :: id in m ==> exists i :: 0 <= i < |nodes| && nodes[i].id == id
  {
    if nodes == [] then map[]
    else
      var last := nodes[|nodes| - 1];
      NameLookup(nodes[..|nodes| - 1])[last.id := last.name]
  }

  /** Of several nodes sharing an id, the last one's name is kept. */
  lemma {:induction false} NameLookupLastWins(nodes: seq<WorkflowNode>, i: nat)
    requires i < |nodes|
    requires forall j :: i < j < |nodes| ==> nodes[j].id != nodes[i].id
    ensures NameLookup(nodes)[nodes[i].id] == nodes[i].name
  {
    if i < |nodes| - 1 {
      NameLookupLastWins(nodes[..|nodes| - 1], i);
    }
  }

  /** The name an edge endpoint resolves to; an unknown id or an empty
      name is falsy and resolves to nothing. */
  function ResolvedName(names: map<string, string>, id: string): (r: Option<string>)
    ensures r.Some? <==> id in names && names[id] != ""
    ensures r.Some? ==> r.value == names[id]
  {
    if id in names && names[id] != "" then Some(names[id]) else None
  }

  predicate Resolves(names: map<string, string>, e: WorkflowEdge)
  {
    ResolvedName(names, e.source).Some? && ResolvedName(names, e.target).Some?
  }

  /** The one-target entry every surviving edge writes. */
  function SingleConnection(target: string): ConnectionEntry
  {
    ConnectionEntry([[ConnectionTarget(target, "main", 0)]])
  }

  /** The `reduce` over the edges: each edge whose endpoints both resolve
      sets `connections[sourceName]` to a one-target entry, replacing
      whatever an earlier edge from that name wrote. */
  function Connections(edges: seq<WorkflowEdge>, names: map<string, string>)
    : map<string, ConnectionEntry>
  {
    if edges == [] then map[]
    else
      var acc := Connections(edges[..|edges| - 1], names);
      var e := edges[|edges| - 1];
      var sourceName := ResolvedName(names, e.source);
      var targetName := ResolvedName(names, e.target);
      if sourceName.None? || targetName.None? then acc
      else acc[sourceName.value := SingleConnection(targetName.value)]
  }

  /** The resolved source names of the edges. */
  function SourceNames(edges: seq<WorkflowEdge>, names: map<string, string>): set<string>
  {
    if edges == [] then {}
    else
      var e := edges[|edges| - 1];
      SourceNames(edges[..|edges| - 1], names)
        + (if Resolves(names, e) then {names[e.source]} else {})
  }

  /** The keys of the connection map are exactly the distinct resolved
      source names, so there are at most as many keys as edges. */
  lemma {:induction false} ConnectionKeys(edges: seq<WorkflowEdge>, names: map<string, string>)
    ensures Connections(edges, names).Keys == SourceNames(edges, names)
    ensures |SourceNames(edges, names)| <= |edges|
  {
    if edges != [] {
      ConnectionKeys(edges[..|edges| - 1], names);
    }
  }

  /** A name is a resolved source name iff some resolving edge starts there. */
  lemma {:induction false} SourceNamesMembers(edges: seq<WorkflowEdge>, names: map<string, string>, k: string)
    ensures k in SourceNames(edges, names) <==>
      exists i :: 0 <= i < |edges| && Resolves(names, edges[i]) && names[edges[i].source] == k
  {
    if edges != [] {
      var prefix := edges[..|edges| - 1];
      SourceNamesMembers(prefix, names, k);
      if k in SourceNames(prefix, names) {
        var i :| 0 <= i < |prefix| && Resolves(names, prefix[i]) && names[prefix[i].source] == k;
        assert edges[i] == prefix[i];
      }
      if exists i :: 0 <= i < |edges| && Resolves(names, edges[i]) && names[edges[i].source] == k {
        var i :| 0 <= i < |edges| && Resolves(names, edges[i]) && names[edges[i].source] == k;
        if i < |prefix| {
          assert prefix[i] == edges[i];
        }
      }
    }
  }

  /** Every entry of the connection map has one slot with one target at
      input index 0. */
  lemma {:induction false} ConnectionShape(edges: seq<WorkflowEdge>, names: map<string, string>, k: string)
    requires k in Connections(edges, names)
    ensures exists t :: t != "" && Connections(edges, names)[k] == SingleConnection(t)
  {
    var prefix := edges[..|edges| - 1];
    var e := edges[|edges| - 1];
    if !(Resolves(names, e) && names[e.source] == k) {
      ConnectionShape(prefix, names, k);
    }
  }

  /** Of several resolving edges from the same source name, the last
      declared one decides the single target. */
  lemma {:induction false} LastEdgeWins(edges: seq<WorkflowEdge>, names: map<string, string>, i: nat)
    requires i < |edges| && Resolves(names, edges[i])
    requires forall j :: i < j < |edges| && Resolves(names, edges[j]) ==>
      names[edges[j].source] != names[edges[i].source]
    ensures names[edges[i].source] in Connections(edges, names)
    ensures Connections(edges, names)[names[edges[i].source]] == SingleConnection(names[edges[i].target])
  {
    if i < |edges| - 1 {
      LastEdgeWins(edges[..|edges| - 1], names, i);
    }
  }

  // ---------------------------------------------------------------- compile

  function CompileNode(node: WorkflowNode, workflowId: string, stringify: Json -> string): N8nNode
  {
    N8nNode(node.id, node.name, MapNodeToN8nType(node), 1,
            [node.position.x, node.position.y], MapNodeParameters(node, workflowId, stringify))
  }

  /** `compileSpecToN8n`: one n8n node per specification node, in order,
      the connection map of the edges, and the fixed settings. */
  function CompileSpecToN8n(spec: WorkflowSpecification, workflowId: string, stringify: Json -> string)
    : (r: CompiledWorkflow)
    ensures |r.nodes| == |spec.nodes|
    ensures forall i :: 0 <= i < |spec.nodes| ==>
      && r.nodes[i].id == spec.nodes[i].id
      && r.nodes[i].name == spec.nodes[i].name
      && r.nodes[i].typeVersion == 1
      && r.nodes[i].position == [spec.nodes[i].position.x, spec.nodes[i].position.y]
      && r.nodes[i].nodeType == MapNodeToN8nType(spec.nodes[i])
      && r.nodes[i].parameters == MapNodeParameters(spec.nodes[i], workflowId, stringify)
    ensures r.connections == Connections(spec.edges, NameLookup(spec.nodes))
    ensures r.settings.executionTimeout ==
      if spec.metadata.expectedTimeout != 0 then spec.metadata.expectedTimeout else DefaultExecutionTimeout
    ensures r.settings.executionTimeout != 0
    ensures r.settings.executionOrder == "v1"
    ensures r.staticData == JNull && r.instanceId == "tessera-control-plane"
  {
    var nodes := seq(|spec.nodes|, i requires 0 <= i < |spec.nodes| =>
      CompileNode(spec.nodes[i], workflowId, stringify));
    var timeout :=
      if spec.metadata.expectedTimeout != 0 then spec.metadata.expectedTimeout else DefaultExecutionTimeout;
    CompiledWorkflow(nodes, Connections(spec.edges, NameLookup(spec.nodes)),
                     Settings("v1", timeout), JNull, "tessera-control-plane")
  }

  // ---------------------------------------------------------------- examples

  /** A `tesseraId` in the data of a node without a typed projection
      replaces the injected workflow id. */
  lemma TesseraIdOverridden(workflowId: string, stringify: Json -> string)
    requires workflowId != "spoofed"
    ensures
      var node := WorkflowNode("n", "N", Transform, Untyped(map[TesseraIdKey := JString("spoofed")]),
                               Position(0, 0));
      MapNodeParameters(node, workflowId, stringify)[TesseraIdKey] == JString("spoofed")
  {
  }

  /** Two edges from one node to two different nodes do not give two
      parallel branches: only the later target remains. */
  lemma {:induction false} ParallelBranchesCollapse(a: WorkflowNode, b: WorkflowNode, c: WorkflowNode)
    requires a.id != b.id && a.id != c.id && b.id != c.id
    requires a.name != "" && b.name != "" && c.name != ""
    ensures
      var edges := [WorkflowEdge("e1", a.id, b.id), WorkflowEdge("e2", a.id, c.id)];
      Connections(edges, NameLookup([a, b, c])) == map[a.name := SingleConnection(c.name)]
  {
    assert [a, b, c][..2] == [a, b] && [a, b][..1] == [a] && [a][..0] == [];
    assert NameLookup([a]) == map[a.id := a.name];
    assert NameLookup([a, b]) == map[a.id := a.name, b.id := b.name];
    var names := NameLookup([a, b, c]);
    assert names == map[a.id := a.name, b.id := b.name, c.id := c.name];
    var edges := [WorkflowEdge("e1", a.id, b.id), WorkflowEdge("e2", a.id, c.id)];
    assert edges[..1] == [WorkflowEdge("e1", a.id, b.id)] && edges[..1][..0] == [];
    assert Connections(edges[..1], names) == map[a.name := SingleConnection(b.name)];
  }
}
