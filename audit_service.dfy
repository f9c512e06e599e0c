/** The audit service: one audit row per recorded event, appended to the
    audit table. */
module AuditService {
  import opened Common
  import opened Specification
  import opened Schema

  datatype AuditAction = Create | Update | Approve | Deploy | Pause | Resume

  function ActionName(a: AuditAction): string
  {
    match a
    case Create => "CREATE"
    case Update => "UPDATE"
    case Approve => "APPROVE"
    case Deploy => "DEPLOY"
    case Pause => "PAUSE"
    case Resume => "RESUME"
  }

  /** The name of each action is distinct, so the stored text determines
      the action. */
  lemma ActionNameInjective(a: AuditAction, b: AuditAction)
    requires ActionName(a) == ActionName(b)
    ensures a == b
  {
  }

  /** The parameters of `recordEvent`; the optional ones are `None` when
      the caller leaves them out. */
  datatype EventParams = EventParams(
    orgId: string,
    workflowId: string,
    action: AuditAction,
    actorId: string,
    parentId: Option<string>,
    previousStatus: Option<string>,
    newStatus: Option<string>,
    payload: Option<map<string, Json>>)

  const PreviousStatusKey := "previousStatus"
  const NewStatusKey := "newStatus"

  /** `{ ...m, [key]: v }` as stored: an `undefined` value leaves the key
      out of the stored document. */
  function SetOrOmit(m: map<string, Json>, key: string, v: Option<string>): (r: map<string, Json>)
    ensures forall k :: k != key ==> (k in r <==> k in m)
    ensures forall k :: k != key && k in r ==> r[k] == m[k]
    ensures key in r <==> v.Some?
    ensures v.Some? ==> r[key] == JString(v.value)
  {
    if v.Some? then m[key := JString(v.value)] else m - {key}
  }

  /** The stored payload: the caller's payload, then the two status keys,
      which win over same-named keys of the payload. */
  function StoredPayload(p: EventParams): (r: map<string, Json>)
    ensures forall k :: k != PreviousStatusKey && k != NewStatusKey ==>
      (k in r <==> p.payload.Some? && k in p.payload.value)
    ensures forall k :: k != PreviousStatusKey && k != NewStatusKey && k in r ==>
      r[k] == p.payload.value[k]
    ensures PreviousStatusKey in r <==> p.previousStatus.Some?
    ensures NewStatusKey in r <==> p.newStatus.Some?
    ensures p.previousStatus.Some? ==> r[PreviousStatusKey] == JString(p.previousStatus.value)
    ensures p.newStatus.Some? ==> r[NewStatusKey] == JString(p.newStatus.value)
  {
    var base := if p.payload.Some? then p.payload.value else map[];
    SetOrOmit(SetOrOmit(base, PreviousStatusKey, p.previousStatus), NewStatusKey, p.newStatus)
  }

  /** The row `recordEvent` inserts, given the row id and the insertion
      time. */
  function AuditRow(p: EventParams, id: string, now: int): (l: AuditLog)
    ensures l.id == id && l.timestamp == now
    ensures l.orgId == p.orgId && l.workflowId == Some(p.workflowId)
    ensures l.action == ActionName(p.action) && l.actorId == p.actorId
    ensures l.parentId.Some? <==> Truthy(p.parentId)
    ensures l.parentId.Some? ==> l.parentId == p.parentId
    ensures l.payload == StoredPayload(p)
  {
    AuditLog(id, if Truthy(p.parentId) then p.parentId else None, p.orgId, Some(p.workflowId),
             ActionName(p.action), p.actorId, StoredPayload(p), now)
  }

  /** An empty parent id is stored as null, like a missing one. */
  lemma EmptyParentIsNull(p: EventParams, id: string, now: int)
    requires p.parentId == Some("")
    ensures AuditRow(p, id, now).parentId.None?
  {
  }

  /** A status passed as a parameter replaces a same-named key of the
      caller's payload. */
  lemma StatusWinsOverPayload(p: EventParams, id: string, now: int)
    requires p.payload.Some? && NewStatusKey in p.payload.value
    requires p.newStatus.Some?
    ensures AuditRow(p, id, now).payload[NewStatusKey] == JString(p.newStatus.value)
  {
  }

  /** `AuditService.recordEvent(params)`: inserts one row and touches
      nothing else; there is no other write to the audit table. */
  method RecordEvent(db: Database, p: EventParams, id: string, now: int)
    returns (r: Result<(), DbError>)
    requires db.Valid()
    modifies db
    ensures db.Valid()
    ensures r.Success? <==>
      && !HasKey(old(db.auditLogs), AuditLogId, id)
      && AuditLogValid(AuditRow(p, id, now), old(db.workflows), old(db.organizations))
    ensures HasKey(old(db.auditLogs), AuditLogId, id) ==> r == Failure(UniqueViolation("id"))
    ensures r.Success? ==> db.auditLogs == old(db.auditLogs) + [AuditRow(p, id, now)]
    ensures r.Failure? ==> db.auditLogs == old(db.auditLogs)
    ensures db.organizations == old(db.organizations) && db.users == old(db.users)
    ensures db.workflows == old(db.workflows) && db.secrets == old(db.secrets)
  {
    r := db.InsertAuditLog(AuditRow(p, id, now));
  }
}
