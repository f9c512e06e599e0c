/** The typed workflow specification that users author and store: a small
    graph of trigger, action and transform nodes joined by edges. */
module Specification {
  import opened Common

  /** A JSON value. Numbers are carried as integers; object members are a
      map from key to value. */
  datatype Json =
    | JString(str: string)
    | JNumber(num: int)
    | JBool(boolean: bool)
    | JNull
    | JObject(members: map<string, Json>)
    | JArray(items: seq<Json>)

  datatype NodeType = Trigger | Action | Transform

  type WebhookMethod = m: string | m == "GET" || m == "POST" witness "POST"

  type HttpMethod = m: string | m == "GET" || m == "POST" || m == "PUT" || m == "DELETE"
    witness "GET"

  /** The strings the `type` field of node data may carry as a tag. */
  const DataTags: set<string> :=
    {"WEBHOOK", "SCHEDULE", "EVENT", "HTTP_REQUEST", "DATABASE_UPSERT", "N8N_WORKFLOW"}

  /** A record whose `type` field, if any, is not one of the tags. */
  type UntaggedRecord = m: map<string, Json>
    | "type" !in m || m["type"] !in set t | t in DataTags :: JString(t)
    witness map[]

  /** Node data: one of the three trigger sources, one of the three
      action targets, or an untyped record. Any node may carry any of
      them; the data is not tied to the node's type. */
  datatype NodeData =
    | Webhook(path: string, webhookMethod: WebhookMethod)
    | Schedule(cron: string)
    | Event(topic: string)
    | HttpRequest(url: string, httpMethod: HttpMethod, body: Option<Json>,
                  headers: Option<HeaderList>)
    | DatabaseUpsert(table: string)
    | N8nWorkflow(workflowId: string)
    | Untyped(fields: UntaggedRecord)
  {
    predicate IsTriggerSource() { Webhook? || Schedule? || Event? }
    predicate IsActionTarget() { HttpRequest? || DatabaseUpsert? || N8nWorkflow? }
  }

  datatype Position = Position(x: int, y: int)

  datatype WorkflowNode = WorkflowNode(
    id: string, name: string, kind: NodeType, data: NodeData, position: Position)

  /** An edge names its endpoints by node id; nothing requires them to
      resolve. */
  datatype WorkflowEdge = WorkflowEdge(id: string, source: string, target: string)

  datatype WorkflowMetadata = WorkflowMetadata(expectedTimeout: int, retries: int)

  datatype ParameterKind = TextParameter | SecretParameter

  datatype ParameterDeclaration = ParameterDeclaration(
    key: string, displayLabel: string, kind: ParameterKind, required: bool)

  datatype WorkflowSpecification = WorkflowSpecification(
    version: string,
    nodes: seq<WorkflowNode>,
    edges: seq<WorkflowEdge>,
    metadata: WorkflowMetadata,
    parameters: Option<seq<ParameterDeclaration>>)

  /** No header name occurs twice. */
  predicate UniqueHeaderNames(headers: seq<(string, string)>)
  {
    forall i, j :: 0 <= i < j < |headers| ==> headers[i].0 != headers[j].0
  }

  /** A header record (a string-to-string object), as its entries in
      insertion order; the names are the object's keys and so are
      distinct. */
  type HeaderList = h: seq<(string, string)> | UniqueHeaderNames(h) witness []

  /** A header record as a JSON object: every entry's name maps to its
      value as a string, and nothing else is present. */
  function HeadersObject(headers: HeaderList): (r: map<string, Json>)
    ensures r.Keys == HeaderNames(headers)
  {
    if headers == [] then map[]
    else
      var last := headers[|headers| - 1];
      var init: HeaderList := headers[..|headers| - 1];
      assert HeaderNames(headers) == HeaderNames(init) + {last.0} by {
        assert forall i :: 0 <= i < |init| ==> headers[i] == init[i];
      }
      HeadersObject(init)[last.0 := JString(last.1)]
  }

  /** Every entry's name maps to that entry's value. */
  lemma {:induction false} HeadersObjectValues(headers: HeaderList)
    ensures forall i :: 0 <= i < |headers| ==> HeadersObject(headers)[headers[i].0] == JString(headers[i].1)
  {
    if headers != [] {
      var last := headers[|headers| - 1];
      var init: HeaderList := headers[..|headers| - 1];
      HeadersObjectValues(init);
      assert forall i :: 0 <= i < |init| ==> headers[i] == init[i] && headers[i].0 != last.0;
    }
  }

  /** The names of a header list. */
  function HeaderNames(headers: seq<(string, string)>): set<string>
  {
    set i | 0 <= i < |headers| :: headers[i].0
  }

  /** The header object has exactly one key per entry. */
  lemma {:induction false} HeadersObjectSize(headers: HeaderList)
    ensures |HeadersObject(headers)| == |headers|
  {
    if headers != [] {
      var init: HeaderList := headers[..|headers| - 1];
      HeadersObjectSize(init);
      var last := headers[|headers| - 1];
      assert last.0 !in HeadersObject(init);
    }
  }

  /** The object a node's `data` is at run time: the tagged variants carry
      their tag in `type` together with their fields. */
  function DataRecord(d: NodeData): (r: map<string, Json>)
    ensures d.Untyped? ==> r == d.fields
    ensures ("type" in r && r["type"] in set t | t in DataTags :: JString(t)) <==> !d.Untyped?
  {
    match d
    case Webhook(path, m) =>
      map["type" := JString("WEBHOOK"), "path" := JString(path), "method" := JString(m)]
    case Schedule(cron) => map["type" := JString("SCHEDULE"), "cron" := JString(cron)]
    case Event(topic) => map["type" := JString("EVENT"), "topic" := JString(topic)]
    case HttpRequest(url, m, body, headers) =>
      var base := map["type" := JString("HTTP_REQUEST"), "url" := JString(url),
                      "method" := JString(m)];
      var withBody := if body.Some? then base["body" := body.value] else base;
      if headers.Some? then withBody["headers" := JObject(HeadersObject(headers.value))]
      else withBody
    case DatabaseUpsert(table) =>
      map["type" := JString("DATABASE_UPSERT"), "table" := JString(table)]
    case N8nWorkflow(workflowId) =>
      map["type" := JString("N8N_WORKFLOW"), "workflowId" := JString(workflowId)]
    case Untyped(fields) => fields
  }

  /** No two nodes share an id. */
  predicate UniqueNodeIds(spec: WorkflowSpecification)
  {
    forall i, j :: 0 <= i < j < |spec.nodes| ==> spec.nodes[i].id != spec.nodes[j].id
  }

  predicate HasNodeId(spec: WorkflowSpecification, id: string)
  {
    exists i :: 0 <= i < |spec.nodes| && spec.nodes[i].id == id
  }

  /** Every edge endpoint is the id of a node of the same specification. */
  predicate EdgesResolve(spec: WorkflowSpecification)
  {
    forall e :: e in spec.edges ==> HasNodeId(spec, e.source) && HasNodeId(spec, e.target)
  }
}
