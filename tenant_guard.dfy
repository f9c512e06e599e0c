/** The tenant guard of the dashboard pages: a signed-in user may only see
    the organization of their session. */
module TenantGuard {
  import opened Common

  datatype Outcome = Redirect(location: string) | Allow(userId: string, orgId: string)

  const SignInPath := "/sign-in"
  const OnboardingPath := "/onboarding"
  const DashboardPrefix := "/dashboard/"

  /** `protectTenant(requestedOrgId)` for the session's user and
      organization. */
  function ProtectTenant(userId: Option<string>, orgId: Option<string>, requestedOrgId: string): (g: Outcome)
    ensures !Truthy(userId) ==> g == Redirect(SignInPath)
    ensures g.Allow? <==> Truthy(userId) && orgId == Some(requestedOrgId)
    ensures g.Allow? ==> g.userId == userId.value && g.orgId == requestedOrgId
    ensures Truthy(userId) && orgId != Some(requestedOrgId) ==>
      g == if Truthy(orgId) then Redirect(DashboardPrefix + orgId.value) else Redirect(OnboardingPath)
  {
    if !Truthy(userId) then Redirect(SignInPath)
    else if orgId != Some(requestedOrgId) then
      if Truthy(orgId) then Redirect(DashboardPrefix + orgId.value) else Redirect(OnboardingPath)
    else Allow(userId.value, orgId.value)
  }

  /** A redirect to a dashboard always leads to the session's own
      organization, never to the one that was refused. */
  lemma DashboardRedirectIsOwnOrg(userId: Option<string>, orgId: Option<string>, requestedOrgId: string, target: string)
    requires ProtectTenant(userId, orgId, requestedOrgId) == Redirect(DashboardPrefix + target)
    ensures orgId == Some(target) && target != requestedOrgId
  {
    var g := ProtectTenant(userId, orgId, requestedOrgId);
    assert g != Redirect(SignInPath) by {
      assert (DashboardPrefix + target)[..2] == "/d";
      assert SignInPath[..2] == "/s";
    }
    assert g != Redirect(OnboardingPath) by {
      assert (DashboardPrefix + target)[..2] == "/d";
      assert OnboardingPath[..2] == "/o";
    }
    assert (DashboardPrefix + orgId.value)[|DashboardPrefix|..] == orgId.value;
    assert (DashboardPrefix + target)[|DashboardPrefix|..] == target;
  }
}
