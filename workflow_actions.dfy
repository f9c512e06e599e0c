/** The workflow server actions: the test-trigger retry loop, deleting a
    workflow (remote clean-up, then the local row), and deploying one (the
    create, activate, fetch, deactivate, wait, activate sequence, then the
    row update). */
module WorkflowActions {
  import opened Common
  import opened Strings
  import opened Specification
  import opened CompileToN8n
  import opened Schema
  import opened N8nClient

  // ---------------------------------------------------------------- testWorkflowAction

  /** What one POST to the webhook produced. */
  datatype TestReply = HttpStatus(status: nat, text: string) | TransportError(thrown: Thrown)

  /** `{ success: true }`, `undefined` (no attempt made), or a thrown error. */
  datatype TestResult = TestSucceeded | TestUndefined | TestThrew(error: Thrown)

  predicate Succeeds(reply: TestReply)
  {
    reply.HttpStatus? && Ok(reply.status)
  }

  predicate IsNotFound(reply: TestReply)
  {
    reply.HttpStatus? && reply.status == 404
  }

  /** What a failed attempt throws: an error naming the status and body,
      or the transport error itself. */
  function TestError(reply: TestReply): Thrown
  {
    match reply
    case HttpStatus(status, text) =>
      ErrorObject("n8n responded with " + NatToString(status) + ": " + text)
    case TransportError(e) => e
  }

  /** The waits of the first `n` attempts: a 404 on attempt `j` before the
      last one waits 4000 + 2000 * j ms; no other failure waits. */
  function Waits(reply: nat -> TestReply, retries: int, n: nat): (r: seq<int>)
    ensures |r| <= n
    ensures forall i :: 0 <= i < |r| ==> 4000 <= r[i] < 4000 + 2000 * n
  {
    if n == 0 then []
    else
      Waits(reply, retries, n - 1)
        + (if IsNotFound(reply(n - 1)) && n - 1 < retries - 1 then [4000 + 2000 * (n - 1)] else [])
  }

  predicate StrictlyIncreasing(s: seq<int>)
  {
    forall i, j :: 0 <= i < j < |s| ==> s[i] < s[j]
  }

  /** The waits strictly increase. */
  lemma {:induction false} WaitsIncrease(reply: nat -> TestReply, retries: int, n: nat)
    ensures StrictlyIncreasing(Waits(reply, retries, n))
  {
    if n > 0 {
      WaitsIncrease(reply, retries, n - 1);
      var prev := Waits(reply, retries, n - 1);
      var w := Waits(reply, retries, n);
      var last := if IsNotFound(reply(n - 1)) && n - 1 < retries - 1 then [4000 + 2000 * (n - 1)] else [];
      assert w == prev + last;
      forall i, j | 0 <= i < j < |w| ensures w[i] < w[j] {
        if j < |prev| {
          assert w[i] == prev[i] && w[j] == prev[j];
          assert prev[i] < prev[j];
        } else {
          assert w[j] == 4000 + 2000 * (n - 1);
          assert w[i] == prev[i] < 4000 + 2000 * (n - 1);
        }
      }
    }
  }

  /** `testWorkflowAction(webhookUrl, workflowId, retries)`, where
      `reply(i)` is the outcome of attempt `i`. Returns the result, the
      number of attempts made and the waits, in order. */
  method TestWorkflowAction(reply: nat -> TestReply, retries: int)
    returns (result: TestResult, attempts: nat, delays: seq<int>)
    ensures result.TestUndefined? <==> retries <= 0
    ensures result.TestUndefined? ==> attempts == 0
    ensures !result.TestUndefined? ==> 1 <= attempts <= retries
    ensures forall j :: 0 <= j < attempts - 1 ==> !Succeeds(reply(j))
    ensures result.TestSucceeded? <==> exists j :: 0 <= j < retries && Succeeds(reply(j))
    ensures result.TestSucceeded? ==> Succeeds(reply(attempts - 1))
    ensures result.TestThrew? ==> attempts == retries && result.error == TestError(reply(retries - 1))
    ensures delays == Waits(reply, retries, attempts)
  {
    var i := 0;
    delays := [];
    while i < retries
      invariant 0 <= i
      invariant retries > 0 ==> i < retries
      invariant retries <= 0 ==> i == 0
      invariant forall j :: 0 <= j < i ==> !Succeeds(reply(j))
      invariant delays == Waits(reply, retries, i)
      decreases retries - i
    {
      var thrown: Thrown;
      match reply(i) {
        case TransportError(e) =>
          thrown := e;
        case HttpStatus(status, text) =>
          if status == 404 && i < retries - 1 {
            delays := delays + [4000 + 2000 * i];
            i := i + 1;
            continue;
          }
          if !Ok(status) {
            thrown := TestError(reply(i));
          } else {
            return TestSucceeded, i + 1, delays;
          }
      }
      if i == retries - 1 {
        return TestThrew(thrown), i + 1, delays;
      }
      i := i + 1;
    }
    return TestUndefined, 0, delays;
  }

  // ---------------------------------------------------------------- names and URLs

  const RemoteNamePrefix := "TESSERA_"

  /** The name a workflow is given on the engine: the prefix, then the
      workflow's name with each run of whitespace replaced by `_`. */
  function RemoteName(name: string): (r: string)
    ensures StartsWith(r, RemoteNamePrefix)
    ensures NoWhitespace(r[|RemoteNamePrefix|..])
    ensures NoWhitespace(name) ==> r == RemoteNamePrefix + name
    ensures r == RemoteNamePrefix + ReplaceWhitespaceRuns(name, "_")
  {
    ReplaceWhitespaceRunsClears(name, "_");
    assert NoWhitespace(name) ==> ReplaceWhitespaceRuns(name, "_") == name by {
      if NoWhitespace(name) {
        ReplaceWhitespaceRunsIdentity(name, "_");
      }
    }
    var r := RemoteNamePrefix + ReplaceWhitespaceRuns(name, "_");
    assert r[|RemoteNamePrefix|..] == ReplaceWhitespaceRuns(name, "_");
    r
  }

  /** The first node the engine reports with the webhook node type. */
  function FirstWebhookNode(nodes: seq<RemoteNode>): (r: Option<RemoteNode>)
    ensures r.Some? ==> r.value in nodes && r.value.nodeType == WebhookType
    ensures r.None? ==> forall i :: 0 <= i < |nodes| ==> nodes[i].nodeType != WebhookType
    ensures r.Some? ==>
      exists i :: 0 <= i < |nodes| && nodes[i] == r.value
                  && (forall j :: 0 <= j < i ==> nodes[j].nodeType != WebhookType)
  {
    if nodes == [] then None
    else if nodes[0].nodeType == WebhookType then Some(nodes[0])
    else
      var r := FirstWebhookNode(nodes[1..]);
      assert r.Some? ==>
        exists i :: 0 <= i < |nodes| && nodes[i] == r.value
                    && (forall j :: 0 <= j < i ==> nodes[j].nodeType != WebhookType)
      by {
        if r.Some? {
          var i :| 0 <= i < |nodes[1..]| && nodes[1..][i] == r.value
            && (forall j :: 0 <= j < i ==> nodes[1..][j].nodeType != WebhookType);
          assert nodes[i + 1] == r.value;
          assert forall j :: 1 <= j < i + 1 ==> nodes[j] == nodes[1..][j - 1];
        }
      }
      r
  }

  /** The webhook path: the first webhook node's path when it is a
      non-empty string, otherwise the workflow's own id. */
  function WebhookPath(nodes: Option<seq<RemoteNode>>, workflowId: string): (p: string)
    ensures nodes.None? ==> p == workflowId
    ensures nodes.Some? && FirstWebhookNode(nodes.value).None? ==> p == workflowId
    ensures nodes.Some? && FirstWebhookNode(nodes.value).Some?
            && Truthy(FirstWebhookNode(nodes.value).value.path)
            ==> p == FirstWebhookNode(nodes.value).value.path.value
    ensures nodes.Some? && FirstWebhookNode(nodes.value).Some?
            && !Truthy(FirstWebhookNode(nodes.value).value.path)
            ==> p == workflowId
  {
    if nodes.None? then workflowId
    else
      var node := FirstWebhookNode(nodes.value);
      if node.Some? && Truthy(node.value.path) then node.value.path.value else workflowId
  }

  const WebhookSegment := "/webhook/"

  /** `{base}/webhook/{id}/{path}`. */
  function WebhookUrl(base: string, id: string, path: string): (u: string)
    ensures StartsWith(u, base + WebhookSegment + id + "/")
    ensures |u| == |base| + |WebhookSegment| + |id| + 1 + |path|
    ensures u[|u| - |path|..] == path
  {
    var u := base + WebhookSegment + id + "/" + path;
    assert u[..|base + WebhookSegment + id + "/"|] == base + WebhookSegment + id + "/";
    u
  }

  /** Reads the engine id and the path back out of a webhook URL built on
      `base`: the id runs up to the first `/` after the webhook segment. */
  function ParseWebhookUrl(base: string, url: string): (r: Option<(string, string)>)
    ensures r.Some? ==> '/' !in r.value.0
  {
    var prefix := base + WebhookSegment;
    if !StartsWith(url, prefix) then None
    else
      var rest := url[|prefix|..];
      var k := FirstIndex(rest, '/');
      if k == |rest| then None
      else
        assert forall c :: c in rest[..k] ==> c != '/';
        Some((rest[..k], rest[k + 1..]))
  }

  /** The URL determines the engine id and the path, provided the id has
      no `/` in it. */
  lemma WebhookUrlRoundTrip(base: string, id: string, path: string)
    requires '/' !in id
    ensures ParseWebhookUrl(base, WebhookUrl(base, id, path)) == Some((id, path))
  {
    var prefix := base + WebhookSegment;
    var url := WebhookUrl(base, id, path);
    assert url == prefix + (id + "/" + path);
    assert url[..|prefix|] == prefix;
    var rest := url[|prefix|..];
    assert rest == id + "/" + path;
    assert rest[|id|] == '/';
    assert forall i :: 0 <= i < |id| ==> rest[i] == id[i];
    assert FirstIndex(rest, '/') == |id|;
    assert rest[..|id|] == id;
    assert rest[|id| + 1..] == path;
  }

  // ---------------------------------------------------------------- sessions and rows

  datatype Session = Session(userId: Option<string>, orgId: Option<string>)

  predicate Authenticated(s: Session)
  {
    Truthy(s.userId) && Truthy(s.orgId)
  }

  /** The row with that id exists and belongs to that organization. */
  predicate OwnsWorkflow(workflows: map<string, Workflow>, orgId: string, workflowId: string)
  {
    workflowId in workflows && workflows[workflowId].orgId == orgId
  }

  /** The message a caught error is reported with. */
  function MessageOf(t: Thrown): (m: string)
    ensures t.ErrorObject? ==> m == t.message
    ensures t.NonErrorValue? ==> m == "Deployment failed"
  {
    match t
    case ErrorObject(message) => message
    case NonErrorValue => "Deployment failed"
  }

  // ---------------------------------------------------------------- deleteWorkflowAction

  /** The session's organization is present and is the one asked for. */
  predicate MayAccess(s: Session, orgId: string)
  {
    Truthy(s.userId) && Truthy(s.orgId) && s.orgId.value == orgId
  }

  /** The engine calls of deleting a row: a remote delete only when the row
      has an engine id. */
  function RemoteCleanup(w: Workflow): (calls: seq<Call>)
    ensures |calls| <= 1
    ensures calls != [] <==> Truthy(w.n8nWorkflowId)
    ensures calls != [] ==> calls[0] == Delete(w.n8nWorkflowId.value)
  {
    if Truthy(w.n8nWorkflowId) then [Delete(w.n8nWorkflowId.value)] else []
  }

  /** `deleteWorkflowAction(orgId, workflowId)`. A failing remote delete is
      ignored; once access and ownership are established the local row and
      its audit rows are always deleted. */
  method DeleteWorkflowAction(db: Database, engine: Engine, session: Session,
                              orgId: string, workflowId: string)
    returns (r: Result<(), string>)
    requires db.Valid()
    modifies db, engine
    ensures db.Valid()
    ensures r.Success? <==> MayAccess(session, orgId) && OwnsWorkflow(old(db.workflows), orgId, workflowId)
    ensures !MayAccess(session, orgId) ==> r == Failure("Access denied")
    ensures MayAccess(session, orgId) && !OwnsWorkflow(old(db.workflows), orgId, workflowId) ==>
      r == Failure("Workflow not found")
    ensures r.Failure? ==>
      db.workflows == old(db.workflows) && db.auditLogs == old(db.auditLogs)
      && engine.trace == old(engine.trace)
    ensures r.Success? ==>
      && db.workflows == old(db.workflows) - {workflowId}
      && db.auditLogs == LogsAfterWorkflowDelete(old(db.auditLogs), workflowId)
      && engine.trace == old(engine.trace) + RemoteCleanup(old(db.workflows)[workflowId])
    ensures db.organizations == old(db.organizations) && db.users == old(db.users)
    ensures db.secrets == old(db.secrets)
  {
    if !MayAccess(session, orgId) {
      return Failure("Access denied");
    }
    if !OwnsWorkflow(db.workflows, orgId, workflowId) {
      return Failure("Workflow not found");
    }
    var w := db.workflows[workflowId];
    if Truthy(w.n8nWorkflowId) {
      var _ := engine.DeleteWorkflow(w.n8nWorkflowId.value);
    }
    db.DeleteWorkflow(workflowId);
    r := Success(());
  }

  // ---------------------------------------------------------------- deployWorkflowAction

  const ReactivationWait := 1500

  /** The engine calls after a successful create, in order. */
  function DeploySteps(id: string): seq<Call>
  {
    [Activate(id), Fetch(id), Deactivate(id), Sleep(ReactivationWait), Activate(id)]
  }

  /** The index in `DeploySteps` of the first call that throws when the
      steps start at trace position `p`, or 5 when none does. The wait at
      index 3 never throws. */
  function FirstFailedStep(reply: nat -> Attempt<RemoteWorkflow>, p: nat): (k: nat)
    ensures k in {0, 1, 2, 4, 5}
    ensures k < 5 ==> reply(p + k).Threw?
    ensures k > 0 ==> reply(p).Returned?
    ensures k > 1 ==> reply(p + 1).Returned?
    ensures k > 2 ==> reply(p + 2).Returned?
    ensures k > 4 ==> reply(p + 4).Returned?
  {
    if reply(p).Threw? then 0
    else if reply(p + 1).Threw? then 1
    else if reply(p + 2).Threw? then 2
    else if reply(p + 4).Threw? then 4
    else 5
  }

  /** The message of the first deploy step that throws. */
  function StepFailureMessage(reply: nat -> Attempt<RemoteWorkflow>, p: nat): (m: string)
    requires FirstFailedStep(reply, p) < 5
    ensures reply(p + FirstFailedStep(reply, p)).error.ErrorObject? ==>
              m == reply(p + FirstFailedStep(reply, p)).error.message
  {
    MessageOf(reply(p + FirstFailedStep(reply, p)).error)
  }

  /** The nodes of the fetched engine workflow, when every deploy step has
      succeeded. */
  function FetchedNodes(reply: nat -> Attempt<RemoteWorkflow>, p: nat): Option<seq<RemoteNode>>
    requires FirstFailedStep(reply, p) == 5
  {
    reply(p + 1).value.nodes
  }

  /** The row after a successful deploy. */
  function DeployedRow(w: Workflow, remoteId: string, url: string, now: int): (d: Workflow)
    ensures d.id == w.id && d.orgId == w.orgId && d.name == w.name
    ensures d.specification == w.specification
    ensures d.status == Deployed && d.version == w.version + 1 && d.updatedAt == now
    ensures d.n8nWorkflowId == Some(remoteId) && d.n8nWebhookUrl == Some(url)
  {
    w.(status := Deployed, updatedAt := now, n8nWorkflowId := Some(remoteId),
       n8nWebhookUrl := Some(url), version := w.version + 1)
  }

  /** The part of the deploy after a successful create of engine workflow
      `id`: activate, fetch, deactivate, wait, activate, then record the
      deploy on the row. It stops at the first call that throws and then
      leaves the row as it was. */
  method ActivateAndRecord(db: Database, engine: Engine, workflowId: string, id: string,
                           webhookBase: string, now: int)
    returns (r: Result<(), string>)
    requires db.Valid() && workflowId in db.workflows
    modifies db, engine
    ensures db.Valid()
    ensures db.organizations == old(db.organizations) && db.users == old(db.users)
    ensures db.auditLogs == old(db.auditLogs) && db.secrets == old(db.secrets)
    ensures var p := |old(engine.trace)|;
      var k := FirstFailedStep(engine.callReply, p);
      && engine.trace == old(engine.trace) + DeploySteps(id)[..if k == 5 then 5 else k + 1]
      && (k < 5 ==> r == Failure(StepFailureMessage(engine.callReply, p))
                    && db.workflows == old(db.workflows))
      && (k == 5 ==>
            var url := WebhookUrl(webhookBase, id, WebhookPath(FetchedNodes(engine.callReply, p), workflowId));
            && r == Success(())
            && db.workflows == old(db.workflows)[workflowId :=
                 DeployedRow(old(db.workflows)[workflowId], id, url, now)])
  {
    ghost var before := engine.trace;
    var activated := engine.ActivateWorkflow(id);
    assert engine.trace == before + DeploySteps(id)[..1];
    if activated.Threw? {
      return Failure(MessageOf(activated.error));
    }
    var data := engine.GetWorkflow(id);
    assert engine.trace == before + DeploySteps(id)[..2];
    if data.Threw? {
      return Failure(MessageOf(data.error));
    }
    var url := WebhookUrl(webhookBase, id, WebhookPath(data.value.nodes, workflowId));
    var deactivated := engine.DeactivateWorkflow(id);
    assert engine.trace == before + DeploySteps(id)[..3];
    if deactivated.Threw? {
      return Failure(MessageOf(deactivated.error));
    }
    engine.Wait(ReactivationWait);
    var reactivated := engine.ActivateWorkflow(id);
    assert engine.trace == before + DeploySteps(id)[..5];
    if reactivated.Threw? {
      return Failure(MessageOf(reactivated.error));
    }
    db.UpdateWorkflow(DeployedRow(db.workflows[workflowId], id, url, now));
    r := Success(());
  }

  /** The create call's body for a workflow row: its remote name and its
      compiled specification. */
  function DeployRequest(w: Workflow, workflowId: string, stringify: Json -> string): CreateRequest
  {
    CreateRequestFor(RemoteName(w.name), CompileSpecToN8n(w.specification, workflowId, stringify))
  }

  /** The deploy of a row the session owns: the retried create, then the
      steps of `ActivateAndRecord` on the engine workflow it made. */
  method CreateAndRecord(db: Database, engine: Engine, workflowId: string,
                         webhookBase: string, now: int, stringify: Json -> string)
    returns (r: Result<(), string>)
    requires db.Valid() && workflowId in db.workflows
    modifies db, engine
    ensures db.Valid()
    ensures db.organizations == old(db.organizations) && db.users == old(db.users)
    ensures db.auditLogs == old(db.auditLogs) && db.secrets == old(db.secrets)
    ensures
      var w := old(db.workflows)[workflowId];
      var run := engine.CreateRun(|old(engine.trace)|);
      var created := old(engine.trace) + RetryTrace(DeployRequest(w, workflowId, stringify), run.delays);
      && (run.outcome.Threw? ==>
            && r == Failure(MessageOf(run.outcome.error)) && engine.trace == created
            && db.workflows == old(db.workflows))
      && (run.outcome.Returned? ==>
            var id := run.outcome.value;
            var k := FirstFailedStep(engine.callReply, |created|);
            && engine.trace == created + DeploySteps(id)[..if k == 5 then 5 else k + 1]
            && (k < 5 ==> r == Failure(StepFailureMessage(engine.callReply, |created|))
                          && db.workflows == old(db.workflows))
            && (k == 5 ==>
                  var nodes := FetchedNodes(engine.callReply, |created|);
                  var url := WebhookUrl(webhookBase, id, WebhookPath(nodes, workflowId));
                  && r == Success(())
                  && db.workflows == old(db.workflows)[workflowId := DeployedRow(w, id, url, now)]))
  {
    var w := db.workflows[workflowId];
    var created := engine.DeployWorkflow(DeployRequest(w, workflowId, stringify));
    if created.Threw? {
      return Failure(MessageOf(created.error));
    }
    r := ActivateAndRecord(db, engine, workflowId, created.value, webhookBase, now);
  }

  /** `deployWorkflowAction(workflowId)`. Never throws: every failure is
      returned as a message. The engine calls are the retried create and
      then, when it succeeds, the steps of `ActivateAndRecord`; the row
      changes only when every one of them has succeeded. */
  method DeployWorkflowAction(db: Database, engine: Engine, session: Session, workflowId: string,
                              webhookBase: string, now: int, stringify: Json -> string)
    returns (r: Result<(), string>)
    requires db.Valid()
    modifies db, engine
    ensures db.Valid()
    ensures r.Failure? ==> db.workflows == old(db.workflows)
    ensures db.organizations == old(db.organizations) && db.users == old(db.users)
    ensures db.auditLogs == old(db.auditLogs) && db.secrets == old(db.secrets)
    ensures !Authenticated(session) ==>
      r == Failure("Authentication required") && engine.trace == old(engine.trace)
    ensures Authenticated(session) && !OwnsWorkflow(old(db.workflows), session.orgId.value, workflowId) ==>
      r == Failure("Workflow not found") && engine.trace == old(engine.trace)
    ensures Authenticated(session) && OwnsWorkflow(old(db.workflows), session.orgId.value, workflowId) ==>
      var w := old(db.workflows)[workflowId];
      var req := DeployRequest(w, workflowId, stringify);
      var run := engine.CreateRun(|old(engine.trace)|);
      var created := old(engine.trace) + RetryTrace(req, run.delays);
      && (run.outcome.Threw? ==>
            r == Failure(MessageOf(run.outcome.error)) && engine.trace == created)
      && (run.outcome.Returned? ==>
            var id := run.outcome.value;
            var k := FirstFailedStep(engine.callReply, |created|);
            && engine.trace == created + DeploySteps(id)[..if k == 5 then 5 else k + 1]
            && (k < 5 ==> r == Failure(StepFailureMessage(engine.callReply, |created|)))
            && (k == 5 ==>
                  var nodes := FetchedNodes(engine.callReply, |created|);
                  var url := WebhookUrl(webhookBase, id, WebhookPath(nodes, workflowId));
                  && r == Success(())
                  && db.workflows == old(db.workflows)[workflowId := DeployedRow(w, id, url, now)]))
    ensures r.Success? ==>
      && Authenticated(session)
      && OwnsWorkflow(old(db.workflows), session.orgId.value, workflowId)
      && db.workflows.Keys == old(db.workflows).Keys
      && db.workflows[workflowId].status == Deployed
      && db.workflows[workflowId].version == old(db.workflows)[workflowId].version + 1
  {
    if !Authenticated(session) {
      return Failure("Authentication required");
    }
    if !OwnsWorkflow(db.workflows, session.orgId.value, workflowId) {
      return Failure("Workflow not found");
    }
    r := CreateAndRecord(db, engine, workflowId, webhookBase, now, stringify);
  }
}
