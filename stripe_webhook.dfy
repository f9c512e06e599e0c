/** The Stripe webhook: subscription events reconciled into an
    organization's plan columns. */
module StripeWebhook {
  import opened Common
  import opened Schema

  /** The subscription statuses that are stored as they are. */
  const MappedStatuses: set<string> := {"active", "trialing", "past_due", "unpaid", "canceled"}

  /** `PLAN_STATUS_MAP[status] || 'free'`. */
  function PlanStatusFor(status: string): (r: string)
    ensures status in MappedStatuses ==> r == status
    ensures status !in MappedStatuses ==> r == DefaultPlanStatus
    ensures |r| <= PlanStatusMaxLength
  {
    if status in MappedStatuses then status else DefaultPlanStatus
  }

  /** Mapping is idempotent: a stored plan status maps to itself. */
  lemma PlanStatusIdempotent(status: string)
    ensures PlanStatusFor(PlanStatusFor(status)) == PlanStatusFor(status)
  {
    assert DefaultPlanStatus !in MappedStatuses;
  }

  datatype SubscriptionChange = Updated | Deleted

  /** A verified event, with only the fields the handler reads. */
  datatype StripeEvent =
    | CheckoutCompleted(orgId: Option<string>, subscription: Option<string>, customer: Option<string>)
    | SubscriptionEvent(change: SubscriptionChange, orgId: Option<string>, status: string,
                        subscriptionId: string, customer: Option<string>)
    | OtherEvent(eventType: string)

  /** The arguments of one `updateOrgPlan` call. */
  datatype PlanUpdate = PlanUpdate(orgId: string, status: string, subscriptionId: Option<string>,
                                   customerId: Option<string>)

  /** The plan update an event asks for, if any: a completed checkout
      with an organization and a subscription sets `active`; a subscription
      update or deletion with an organization sets the subscription's
      status; nothing else updates. */
  function UpdateFor(e: StripeEvent): (u: Option<PlanUpdate>)
    ensures e.OtherEvent? ==> u.None?
    ensures e.CheckoutCompleted? ==>
      (u.Some? <==> Truthy(e.orgId) && Truthy(e.subscription))
    ensures e.CheckoutCompleted? && u.Some? ==>
      u.value == PlanUpdate(e.orgId.value, "active", e.subscription, e.customer)
    ensures e.SubscriptionEvent? ==> (u.Some? <==> Truthy(e.orgId))
    ensures e.SubscriptionEvent? && u.Some? ==>
      u.value == PlanUpdate(e.orgId.value, e.status, Some(e.subscriptionId), e.customer)
  {
    match e
    case CheckoutCompleted(orgId, subscription, customer) =>
      if Truthy(orgId) && Truthy(subscription) then Some(PlanUpdate(orgId.value, "active", subscription, customer))
      else None
    case SubscriptionEvent(_, orgId, status, subscriptionId, customer) =>
      if Truthy(orgId) then Some(PlanUpdate(orgId.value, status, Some(subscriptionId), customer)) else None
    case OtherEvent(_) => None
  }

  /** `updateOrgPlan` on the organizations table: only the three plan
      columns of the one matching row change, and an unknown id changes
      nothing. */
  function ApplyPlanUpdate(orgs: map<string, Organization>, u: PlanUpdate): (r: map<string, Organization>)
    ensures r.Keys == orgs.Keys
    ensures forall id :: id in orgs && id != u.orgId ==> r[id] == orgs[id]
    ensures u.orgId in orgs ==>
      && r[u.orgId].planStatus == PlanStatusFor(u.status)
      && r[u.orgId].stripeSubscriptionId == u.subscriptionId
      && r[u.orgId].stripeCustomerId == u.customerId
      && r[u.orgId].id == orgs[u.orgId].id && r[u.orgId].name == orgs[u.orgId].name
      && r[u.orgId].createdAt == orgs[u.orgId].createdAt
      && r[u.orgId].updatedAt == orgs[u.orgId].updatedAt
  {
    if u.orgId in orgs then
      orgs[u.orgId := orgs[u.orgId].(planStatus := PlanStatusFor(u.status),
                                      stripeSubscriptionId := u.subscriptionId,
                                      stripeCustomerId := u.customerId)]
    else orgs
  }

  /** A deleted subscription stores its status `canceled`, not `free`.
      An unknown status is stored as `free`. */
  lemma DeletionKeepsCanceled(orgs: map<string, Organization>, orgId: string, subId: string)
    requires orgId in orgs
    ensures var u := UpdateFor(SubscriptionEvent(Deleted, Some(orgId), "canceled", subId, None));
      && (orgId != "" ==> u.Some? && ApplyPlanUpdate(orgs, u.value)[orgId].planStatus == "canceled")
      && ApplyPlanUpdate(orgs, PlanUpdate(orgId, "incomplete", None, None))[orgId].planStatus == "free"
  {
  }

  /** `POST /api/webhooks/stripe`. `event` is `None` when the signature
      does not verify; `updateFails` says whether the database update
      throws. Returns the response status. */
  method HandleWebhook(db: Database, event: Option<StripeEvent>, updateFails: bool) returns (status: nat)
    requires db.Valid()
    modifies db
    ensures db.Valid()
    ensures event.None? ==> status == 400
    ensures event.Some? && UpdateFor(event.value).None? ==> status == 200
    ensures event.Some? && UpdateFor(event.value).Some? ==> status == if updateFails then 500 else 200
    ensures db.organizations ==
      if event.Some? && UpdateFor(event.value).Some? && !updateFails
      then ApplyPlanUpdate(old(db.organizations), UpdateFor(event.value).value)
      else old(db.organizations)
    ensures db.users == old(db.users) && db.workflows == old(db.workflows)
    ensures db.auditLogs == old(db.auditLogs) && db.secrets == old(db.secrets)
  {
    if event.None? {
      return 400;
    }
    var update := UpdateFor(event.value);
    if update.Some? {
      if updateFails {
        return 500;
      }
      var u := update.value;
      db.UpdateOrganizationPlan(u.orgId, PlanStatusFor(u.status), u.subscriptionId, u.customerId);
    }
    status := 200;
  }
}
