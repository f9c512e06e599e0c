/** The role table: which user roles hold which permission. */
module Entitlements {

  /** The four user roles; there are no others. */
  datatype UserRole = Viewer | Developer | Approver | Admin

  datatype Permission = CanEdit | CanApprove | CanDeploy

  /** The roles listed for each permission. */
  function Permissions(p: Permission): (roles: seq<UserRole>)
    ensures Admin in roles && Viewer !in roles
    ensures p == CanDeploy ==> forall r :: r in roles ==> r == Admin
  {
    match p
    case CanEdit => [Developer, Admin]
    case CanApprove => [Approver, Admin]
    case CanDeploy => [Admin]
  }
}
