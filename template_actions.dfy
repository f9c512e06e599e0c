/** Creating a workflow from one of the built-in blueprints. */
module TemplateActions {
  import opened Common
  import opened Strings
  import opened Specification
  import opened CompileToN8n
  import opened Schema

  function UntypedNode(id: string, name: string, kind: NodeType, x: int, y: int,
                       fields: UntaggedRecord): WorkflowNode
  {
    WorkflowNode(id, name, kind, Untyped(fields), Position(x, y))
  }

  const SlackNotification := WorkflowSpecification(
    "1.0.0",
    [ UntypedNode("1", "Webhook", Trigger, 100, 100, map["path" := JString("internal-slack-trigger")]),
      UntypedNode("2", "Slack Bot", Action, 400, 100, map["channel" := JString("#general")]) ],
    [ WorkflowEdge("e1-2", "1", "2") ],
    WorkflowMetadata(10, 3),
    None)

  const AiLeadAnalyzer := WorkflowSpecification(
    "1.0.0",
    [ UntypedNode("1", "Lead Webhook", Trigger, 50, 100, map[]),
      UntypedNode("2", "OpenAI Researcher", Action, 300, 100, map["model" := JString("gpt-4o")]),
      UntypedNode("3", "Slack Post", Action, 550, 100, map[]) ],
    [ WorkflowEdge("e1-2", "1", "2"), WorkflowEdge("e2-3", "2", "3") ],
    WorkflowMetadata(60, 2),
    None)

  /** The blueprint registered under a template id. */
  function Blueprint(templateId: string): (r: Option<WorkflowSpecification>)
    ensures r.Some? <==> templateId == "slack-notif" || templateId == "ai-lead-analyzer"
  {
    if templateId == "slack-notif" then Some(SlackNotification)
    else if templateId == "ai-lead-analyzer" then Some(AiLeadAnalyzer)
    else None
  }

  /** Every blueprint has unique node ids and edges whose endpoints are
      node ids. */
  lemma BlueprintsWellFormed(templateId: string)
    requires Blueprint(templateId).Some?
    ensures UniqueNodeIds(Blueprint(templateId).value)
    ensures EdgesResolve(Blueprint(templateId).value)
  {
    var b := Blueprint(templateId).value;
    assert b.nodes[0].id == "1" && b.nodes[1].id == "2";
    assert HasNodeId(b, "1") && HasNodeId(b, "2");
    if templateId == "ai-lead-analyzer" {
      assert b.nodes[2].id == "3";
      assert HasNodeId(b, "3");
    }
  }

  /** Blueprint node data carries no type tag, so no blueprint node gets a
      typed n8n node: each compiles to a no-op. */
  lemma BlueprintNodesCompileToNoOp(templateId: string, i: nat)
    requires Blueprint(templateId).Some? && i < |Blueprint(templateId).value.nodes|
    ensures MapNodeToN8nType(Blueprint(templateId).value.nodes[i]) == NoOpType
  {
    var n := Blueprint(templateId).value.nodes[i];
    assert n.kind != Transform && n.data.Untyped?;
  }

  const NamePrefix := "My "

  /** The new workflow's name: the prefix, then the template id with only
      its first `-` turned into a space. */
  function TemplateName(templateId: string): (r: string)
    ensures |r| == |NamePrefix| + |templateId|
    ensures r[..|NamePrefix|] == NamePrefix
  {
    NamePrefix + ReplaceFirst(templateId, '-', ' ')
  }

  /** Character `i` of the template id reappears after the prefix, except
      the first `-`, which becomes a space. */
  lemma TemplateNameAt(templateId: string, i: nat)
    requires i < |templateId|
    ensures TemplateName(templateId)[|NamePrefix| + i] ==
      if i == FirstIndex(templateId, '-') then ' ' else templateId[i]
  {
    ReplaceFirstAt(templateId, '-', ' ', i);
  }

  /** Only the first `-` is replaced. */
  lemma LeadAnalyzerName()
    ensures TemplateName("ai-lead-analyzer") == "My ai lead-analyzer"
  {
    LeadAnalyzerReplaced();
  }

  lemma LeadAnalyzerReplaced()
    ensures ReplaceFirst("ai-lead-analyzer", '-', ' ') == "ai lead-analyzer"
  {
    var s := "ai-lead-analyzer";
    assert s[1..][1..] == "-lead-analyzer";
    assert ReplaceFirst(s[1..][1..], '-', ' ') == " lead-analyzer";
  }

  datatype TemplateError = TemplateNotFound | InsertFailed(error: DbError)

  /** `createFromTemplateAction(orgId, templateId)`, where `id` is the id
      the new row receives. An unknown template id inserts nothing; a known
      one inserts one draft row holding the blueprint and returns its id. */
  method CreateFromTemplateAction(db: Database, orgId: string, templateId: string, id: string, now: int)
    returns (r: Result<string, TemplateError>)
    requires db.Valid()
    modifies db
    ensures db.Valid()
    ensures Blueprint(templateId).None? ==> r == Failure(TemplateNotFound)
    ensures Blueprint(templateId).Some? ==>
      (r.Success? <==> id !in old(db.workflows) && orgId in old(db.organizations))
    ensures r.Success? ==>
      && r.value == id
      && db.workflows == old(db.workflows)[id :=
           NewWorkflow(id, orgId, TemplateName(templateId), Blueprint(templateId).value, now)]
    ensures r.Failure? ==> db.workflows == old(db.workflows)
    ensures db.organizations == old(db.organizations) && db.users == old(db.users)
    ensures db.auditLogs == old(db.auditLogs) && db.secrets == old(db.secrets)
  {
    var blueprint := Blueprint(templateId);
    if blueprint.None? {
      return Failure(TemplateNotFound);
    }
    var inserted := db.InsertWorkflow(NewWorkflow(id, orgId, TemplateName(templateId), blueprint.value, now));
    if inserted.Failure? {
      return Failure(InsertFailed(inserted.error));
    }
    r := Success(id);
  }
}
