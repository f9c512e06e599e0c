/** The relational schema as in-memory tables: row types, enumerations,
    column defaults, the constraints the database enforces, and the
    cascading deletes. */
module Schema {
  import opened Common
  import opened Specification
  import opened Entitlements

  datatype WorkflowStatus = Draft | Approved | Deployed | Paused

  /** The column text of a workflow status. */
  function StatusName(s: WorkflowStatus): string
  {
    match s
    case Draft => "draft"
    case Approved => "approved"
    case Deployed => "deployed"
    case Paused => "paused"
  }

  const DefaultPlanStatus := "free"
  const PlanStatusMaxLength := 50

  /** `planStatus` is free text, not an enumeration. */
  datatype Organization = Organization(
    id: string, name: string, planStatus: string,
    stripeCustomerId: Option<string>, stripeSubscriptionId: Option<string>,
    createdAt: int, updatedAt: int)

  datatype User = User(
    id: string, orgId: Option<string>, email: string, role: UserRole, createdAt: int)

  /** A workflow row. `n8nWorkflowId` and `n8nWebhookUrl` are the columns
      the deploy and delete actions read and write. */
  datatype Workflow = Workflow(
    id: string, orgId: string, name: string, status: WorkflowStatus,
    specification: WorkflowSpecification, version: int, updatedAt: int,
    n8nWorkflowId: Option<string>, n8nWebhookUrl: Option<string>)

  /** An audit row; `parentId` and `workflowId` are nullable, `action` is
      free text. */
  datatype AuditLog = AuditLog(
    id: string, parentId: Option<string>, orgId: string, workflowId: Option<string>,
    action: string, actorId: string, payload: map<string, Json>, timestamp: int)

  datatype Secret = Secret(
    id: string, orgId: string, keyName: string,
    encryptedValue: string, iv: string, authTag: string, createdAt: int)

  /** The values object handed to an insert into `secrets`: a column the
      object has no key for is `None`. */
  datatype SecretInsert = SecretInsert(
    id: string, orgId: string, keyName: string,
    encryptedValue: Option<string>, iv: Option<string>, authTag: Option<string>)

  datatype DbError =
    | NotNullViolation(column: string)
    | ForeignKeyViolation(column: string)
    | UniqueViolation(column: string)

  // ---------------------------------------------------------------- defaults

  /** A new organization row: plan status defaults to `free`. */
  function NewOrganization(id: string, name: string, now: int): (o: Organization)
    ensures o.id == id && o.name == name && o.planStatus == DefaultPlanStatus
    ensures o.stripeCustomerId.None? && o.stripeSubscriptionId.None?
    ensures o.createdAt == now && o.updatedAt == now
  {
    Organization(id, name, DefaultPlanStatus, None, None, now, now)
  }

  /** A new user row: the role defaults to viewer. */
  function NewUser(id: string, orgId: Option<string>, email: string, now: int): (u: User)
    ensures u.role == Viewer && u.email == email && u.orgId == orgId
  {
    User(id, orgId, email, Viewer, now)
  }

  /** A new workflow row: status defaults to draft and version to 1. */
  function NewWorkflow(id: string, orgId: string, name: string, spec: WorkflowSpecification, now: int)
    : (w: Workflow)
    ensures w.id == id && w.orgId == orgId && w.name == name && w.specification == spec
    ensures w.status == Draft && w.version == 1
    ensures w.n8nWorkflowId.None? && w.n8nWebhookUrl.None?
  {
    Workflow(id, orgId, name, Draft, spec, 1, now, None, None)
  }

  /** The row the `secrets` table stores for an insert, or the not-null
      column the insert leaves out. */
  function SecretRow(v: SecretInsert, now: int): (r: Result<Secret, DbError>)
    ensures r.Success? <==> v.encryptedValue.Some? && v.iv.Some? && v.authTag.Some?
    ensures r.Success? ==>
      r.value == Secret(v.id, v.orgId, v.keyName, v.encryptedValue.value, v.iv.value,
                        v.authTag.value, now)
  {
    if v.encryptedValue.None? then Failure(NotNullViolation("encrypted_value"))
    else if v.iv.None? then Failure(NotNullViolation("iv"))
    else if v.authTag.None? then Failure(NotNullViolation("auth_tag"))
    else Success(Secret(v.id, v.orgId, v.keyName, v.encryptedValue.value, v.iv.value,
                        v.authTag.value, now))
  }

  // ---------------------------------------------------------------- constraints

  predicate OrganizationsValid(orgs: map<string, Organization>)
  {
    forall id :: id in orgs ==> orgs[id].id == id && |orgs[id].planStatus| <= PlanStatusMaxLength
  }

  /** Users reference an existing organization, and no two share an email. */
  predicate UsersValid(users: map<string, User>, orgs: map<string, Organization>)
  {
    && (forall id :: id in users ==>
          users[id].id == id && (users[id].orgId.Some? ==> users[id].orgId.value in orgs))
    && (forall a, b :: a in users && b in users && users[a].email == users[b].email ==> a == b)
  }

  predicate WorkflowsValid(workflows: map<string, Workflow>, orgs: map<string, Organization>)
  {
    forall id :: id in workflows ==> workflows[id].id == id && workflows[id].orgId in orgs
  }

  predicate AuditLogValid(l: AuditLog, workflows: map<string, Workflow>, orgs: map<string, Organization>)
  {
    l.orgId in orgs && (l.workflowId.Some? ==> l.workflowId.value in workflows)
  }

  predicate AuditLogsValid(logs: seq<AuditLog>, workflows: map<string, Workflow>,
                           orgs: map<string, Organization>)
  {
    forall i :: 0 <= i < |logs| ==> AuditLogValid(logs[i], workflows, orgs)
  }

  predicate SecretsValid(secrets: seq<Secret>, orgs: map<string, Organization>)
  {
    forall i :: 0 <= i < |secrets| ==> secrets[i].orgId in orgs
  }

  /** The primary key of an audit row. */
  function AuditLogId(l: AuditLog): string
  {
    l.id
  }

  /** The primary key of a secret row. */
  function SecretId(v: Secret): string
  {
    v.id
  }

  // ---------------------------------------------------------------- cascades

  /** The audit rows that survive deleting workflow `id`. */
  function LogsAfterWorkflowDelete(logs: seq<AuditLog>, id: string): (r: seq<AuditLog>)
    ensures forall i :: 0 <= i < |r| ==> r[i] in logs && r[i].workflowId != Some(id)
    ensures forall i :: 0 <= i < |logs| && logs[i].workflowId != Some(id) ==> logs[i] in r
  {
    Filter(logs, (l: AuditLog) => l.workflowId != Some(id))
  }

  /** Whether an audit row goes when organization `orgId` is deleted:
      either it belongs to the organization, or it belongs to one of the
      organization's workflows. */
  predicate CascadesFromOrganization(l: AuditLog, workflows: map<string, Workflow>, orgId: string)
  {
    l.orgId == orgId
    || (l.workflowId.Some? && l.workflowId.value in workflows
        && workflows[l.workflowId.value].orgId == orgId)
  }

  function WorkflowsAfterOrganizationDelete(workflows: map<string, Workflow>, orgId: string)
    : (r: map<string, Workflow>)
    ensures forall id :: id in r <==> id in workflows && workflows[id].orgId != orgId
    ensures forall id :: id in r ==> r[id] == workflows[id]
  {
    map id | id in workflows && workflows[id].orgId != orgId :: workflows[id]
  }

  function LogsAfterOrganizationDelete(logs: seq<AuditLog>, workflows: map<string, Workflow>,
                                       orgId: string): (r: seq<AuditLog>)
    ensures forall i :: 0 <= i < |r| ==> r[i] in logs && !CascadesFromOrganization(r[i], workflows, orgId)
    ensures forall i :: 0 <= i < |logs| && !CascadesFromOrganization(logs[i], workflows, orgId) ==>
      logs[i] in r
  {
    Filter(logs, (l: AuditLog) => !CascadesFromOrganization(l, workflows, orgId))
  }

  function SecretsAfterOrganizationDelete(secrets: seq<Secret>, orgId: string): (r: seq<Secret>)
    ensures forall i :: 0 <= i < |r| ==> r[i] in secrets && r[i].orgId != orgId
    ensures forall i :: 0 <= i < |secrets| && secrets[i].orgId != orgId ==> secrets[i] in r
  {
    Filter(secrets, (s: Secret) => s.orgId != orgId)
  }

  /** Some user still references the organization; the users' foreign key
      has no cascade, so it blocks the delete. */
  predicate HasMembers(users: map<string, User>, orgId: string)
  {
    exists id :: id in users && users[id].orgId == Some(orgId)
  }

  /** The in-memory database. */
  class Database {
    var organizations: map<string, Organization>
    var users: map<string, User>
    var workflows: map<string, Workflow>
    var auditLogs: seq<AuditLog>
    var secrets: seq<Secret>

    ghost predicate Valid()
      reads this
    {
      && OrganizationsValid(organizations)
      && UsersValid(users, organizations)
      && WorkflowsValid(workflows, organizations)
      && AuditLogsValid(auditLogs, workflows, organizations)
      && DistinctKeys(auditLogs, AuditLogId)
      && SecretsValid(secrets, organizations)
      && DistinctKeys(secrets, SecretId)
    }

    constructor ()
      ensures Valid()
      ensures organizations == map[] && users == map[] && workflows == map[]
      ensures auditLogs == [] && secrets == []
    {
      organizations, users, workflows := map[], map[], map[];
      auditLogs, secrets := [], [];
    }

    /** An insert into `workflows`: refused on a taken id or an unknown
      organization, otherwise the one new row. */
    method InsertWorkflow(w: Workflow) returns (r: Result<(), DbError>)
      requires Valid()
      modifies this
      ensures Valid()
      ensures r.Failure? <==> w.id in old(workflows) || w.orgId !in old(organizations)
      ensures r.Success? ==> workflows == old(workflows)[w.id := w]
      ensures r.Failure? ==> workflows == old(workflows)
      ensures organizations == old(organizations) && users == old(users)
      ensures auditLogs == old(auditLogs) && secrets == old(secrets)
    {
      if w.id in workflows {
        return Failure(UniqueViolation("id"));
      }
      if w.orgId !in organizations {
        return Failure(ForeignKeyViolation("org_id"));
      }
      workflows := workflows[w.id := w];
      r := Success(());
    }

    /** An update of one existing workflow row by id; the owner stays. */
    method UpdateWorkflow(w: Workflow)
      requires Valid()
      requires w.id in workflows && workflows[w.id].orgId == w.orgId
      modifies this
      ensures Valid()
      ensures workflows == old(workflows)[w.id := w]
      ensures organizations == old(organizations) && users == old(users)
      ensures auditLogs == old(auditLogs) && secrets == old(secrets)
    {
      workflows := workflows[w.id := w];
    }

    /** Deleting a workflow removes its audit rows with it. */
    method DeleteWorkflow(id: string)
      requires Valid()
      modifies this
      ensures Valid()
      ensures workflows == old(workflows) - {id}
      ensures auditLogs == LogsAfterWorkflowDelete(old(auditLogs), id)
      ensures organizations == old(organizations) && users == old(users) && secrets == old(secrets)
    {
      FilterKeepsDistinctKeys(auditLogs, (l: AuditLog) => l.workflowId != Some(id), AuditLogId);
      workflows := workflows - {id};
      auditLogs := LogsAfterWorkflowDelete(auditLogs, id);
    }

    /** Deleting an organization removes its workflows, their audit rows,
      its own audit rows and its secrets; a user still in it blocks the
      delete. */
    method DeleteOrganization(orgId: string) returns (r: Result<(), DbError>)
      requires Valid()
      modifies this
      ensures Valid()
      ensures r.Failure? <==> HasMembers(old(users), orgId)
      ensures r.Failure? ==>
        && organizations == old(organizations) && workflows == old(workflows)
        && auditLogs == old(auditLogs) && secrets == old(secrets)
      ensures r.Success? ==>
        && organizations == old(organizations) - {orgId}
        && workflows == WorkflowsAfterOrganizationDelete(old(workflows), orgId)
        && auditLogs == LogsAfterOrganizationDelete(old(auditLogs), old(workflows), orgId)
        && secrets == SecretsAfterOrganizationDelete(old(secrets), orgId)
      ensures users == old(users)
    {
      if exists id :: id in users && users[id].orgId == Some(orgId) {
        return Failure(ForeignKeyViolation("org_id"));
      }
      var oldWorkflows := workflows;
      FilterKeepsDistinctKeys(auditLogs, (l: AuditLog) => !CascadesFromOrganization(l, oldWorkflows, orgId), AuditLogId);
      FilterKeepsDistinctKeys(secrets, (v: Secret) => v.orgId != orgId, SecretId);
      organizations := organizations - {orgId};
      workflows := WorkflowsAfterOrganizationDelete(oldWorkflows, orgId);
      auditLogs := LogsAfterOrganizationDelete(auditLogs, oldWorkflows, orgId);
      secrets := SecretsAfterOrganizationDelete(secrets, orgId);
      r := Success(());
    }

    /** An insert into `audit_logs`: refused when its id is taken or it
      names an unknown organization or workflow, otherwise one row
      appended at the end. */
    method InsertAuditLog(l: AuditLog) returns (r: Result<(), DbError>)
      requires Valid()
      modifies this
      ensures Valid()
      ensures r.Success? <==>
        !HasKey(old(auditLogs), AuditLogId, l.id) && AuditLogValid(l, old(workflows), old(organizations))
      ensures HasKey(old(auditLogs), AuditLogId, l.id) ==> r == Failure(UniqueViolation("id"))
      ensures r.Success? ==> auditLogs == old(auditLogs) + [l]
      ensures r.Failure? ==> auditLogs == old(auditLogs)
      ensures organizations == old(organizations) && users == old(users)
      ensures workflows == old(workflows) && secrets == old(secrets)
    {
      if exists i :: 0 <= i < |auditLogs| && auditLogs[i].id == l.id {
        return Failure(UniqueViolation("id"));
      }
      if l.orgId !in organizations {
        return Failure(ForeignKeyViolation("org_id"));
      }
      if l.workflowId.Some? && l.workflowId.value !in workflows {
        return Failure(ForeignKeyViolation("workflow_id"));
      }
      AppendKeepsDistinctKeys(auditLogs, l, AuditLogId);
      auditLogs := auditLogs + [l];
      r := Success(());
    }

    /** An insert into `secrets`: refused when a not-null column is
      missing, the id is taken or the organization is unknown; the key
      name itself is not unique. */
    method InsertSecret(v: SecretInsert, now: int) returns (r: Result<(), DbError>)
      requires Valid()
      modifies this
      ensures Valid()
      ensures r.Success? <==>
        SecretRow(v, now).Success? && !HasKey(old(secrets), SecretId, v.id) && v.orgId in old(organizations)
      ensures SecretRow(v, now).Failure? ==> r == Failure(SecretRow(v, now).error)
      ensures SecretRow(v, now).Success? && HasKey(old(secrets), SecretId, v.id) ==>
        r == Failure(UniqueViolation("id"))
      ensures r.Success? ==> secrets == old(secrets) + [SecretRow(v, now).value]
      ensures r.Failure? ==> secrets == old(secrets)
      ensures organizations == old(organizations) && users == old(users)
      ensures workflows == old(workflows) && auditLogs == old(auditLogs)
    {
      var row := SecretRow(v, now);
      if row.Failure? {
        return Failure(row.error);
      }
      if exists i :: 0 <= i < |secrets| && secrets[i].id == v.id {
        return Failure(UniqueViolation("id"));
      }
      if v.orgId !in organizations {
        return Failure(ForeignKeyViolation("org_id"));
      }
      AppendKeepsDistinctKeys(secrets, row.value, SecretId);
      secrets := secrets + [row.value];
      r := Success(());
    }

    /** An update of the plan columns of the organization with that id;
      with no such row nothing changes. */
    method UpdateOrganizationPlan(orgId: string, planStatus: string,
                                  subscriptionId: Option<string>, customerId: Option<string>)
      requires Valid()
      requires |planStatus| <= PlanStatusMaxLength
      modifies this
      ensures Valid()
      ensures organizations == if orgId in old(organizations)
        then old(organizations)[orgId := old(organizations)[orgId].(
          planStatus := planStatus, stripeSubscriptionId := subscriptionId,
          stripeCustomerId := customerId)]
        else old(organizations)
      ensures users == old(users) && workflows == old(workflows)
      ensures auditLogs == old(auditLogs) && secrets == old(secrets)
    {
      if orgId in organizations {
        organizations := organizations[orgId := organizations[orgId].(
          planStatus := planStatus, stripeSubscriptionId := subscriptionId,
          stripeCustomerId := customerId)];
      }
    }
  }
}
