/** Permission checks over the role table. */
module Permissions {
  import opened Entitlements

  /** The table the checks consult; it is kept separately from
      `Entitlements.Permissions` and is proved equal to it. */
  function RolePermissions(p: Permission): seq<UserRole>
  {
    match p
    case CanEdit => [Developer, Admin]
    case CanApprove => [Approver, Admin]
    case CanDeploy => [Admin]
  }

  /** The two role tables agree permission by permission. */
  lemma RoleTablesAgree(p: Permission)
    ensures RolePermissions(p) == Entitlements.Permissions(p)
  {
  }

  /** Whether a role may perform an action: membership in its list. */
  function CanUserPerformAction(role: UserRole, action: Permission): (b: bool)
    ensures b <==> role in Entitlements.Permissions(action)
    ensures role == Viewer ==> !b
    ensures role == Admin ==> b
    ensures action == CanDeploy ==> (b <==> role == Admin)
  {
    role in RolePermissions(action)
  }

  /** Approval needs an approving role and a different user than the
      workflow's creator; admins do not escape the second condition. */
  function CanApproveWorkflow(userId: string, creatorId: string, role: UserRole): (b: bool)
    ensures b <==> CanUserPerformAction(role, CanApprove) && userId != creatorId
    ensures role == Viewer || role == Developer ==> !b
    ensures userId == creatorId ==> !b
  {
    if role != Approver && role != Admin then false
    else userId != creatorId
  }
}
