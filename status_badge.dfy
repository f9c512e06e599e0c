/** The status badge: which colour variant a status string is shown in. */
module StatusBadge {
  import Common
  import opened Strings
  import Schema
  import StripeWebhook

  datatype Variant = Success | Warning | Error | Info | Disabled | Default

  /** The variant of every known status, by lower-case name: workflow
      statuses, subscription statuses and the generic ones. */
  const VariantTable: map<string, Variant> := map[
    "draft" := Info, "approved" := Warning, "deployed" := Success, "paused" := Disabled,
    "free" := Default, "trialing" := Warning, "active" := Success, "past_due" := Warning,
    "canceled" := Error, "unpaid" := Error,
    "success" := Success, "warning" := Warning, "error" := Error, "info" := Info,
    "disabled" := Disabled]

  /** The variant a badge for `status` takes: looked up case-insensitively,
      `Default` for an unknown status. */
  function StatusVariant(status: string): (v: Variant)
    ensures ToLower(status) in VariantTable ==> v == VariantTable[ToLower(status)]
    ensures ToLower(status) !in VariantTable ==> v == Default
  {
    var key := ToLower(status);
    if key in VariantTable then VariantTable[key] else Default
  }

  /** Two spellings that differ only in letter case get the same badge. */
  lemma CaseInsensitive(s: string, t: string)
    requires ToLower(s) == ToLower(t)
    ensures StatusVariant(s) == StatusVariant(t)
  {
  }

  /** Lower-casing a status first does not change its badge. */
  lemma LowerCasedStatus(s: string)
    ensures StatusVariant(ToLower(s)) == StatusVariant(s)
  {
    ToLowerIdempotent(s);
  }

  /** A string without capital letters is its own lower-case form. */
  lemma LowerCaseUnchanged(s: string)
    requires forall i :: 0 <= i < |s| ==> !('A' <= s[i] <= 'Z')
    ensures ToLower(s) == s
  {
  }

  lemma {:induction false} WorkflowStatusNameLower(s: Schema.WorkflowStatus)
    ensures ToLower(Schema.StatusName(s)) == Schema.StatusName(s)
  {
    var n := Schema.StatusName(s);
    assert forall i :: 0 <= i < |n| ==> 'a' <= n[i] <= 'z';
    LowerCaseUnchanged(n);
  }

  /** The four workflow statuses get four different variants, none of them
      the default one. */
  lemma {:induction false} WorkflowStatusesDistinguished(s: Schema.WorkflowStatus, t: Schema.WorkflowStatus)
    ensures StatusVariant(Schema.StatusName(s)) != Default
    ensures s != t ==> StatusVariant(Schema.StatusName(s)) != StatusVariant(Schema.StatusName(t))
  {
    WorkflowStatusNameLower(s);
    WorkflowStatusNameLower(t);
  }

  /** Every plan status the billing webhook stores has a badge of its own
      colour, and only `free` shows in the default variant. */
  lemma {:induction false} PlanStatusBadge(subscriptionStatus: string)
    ensures var p := StripeWebhook.PlanStatusFor(subscriptionStatus);
      ToLower(p) in VariantTable && (StatusVariant(p) == Default <==> p == Schema.DefaultPlanStatus)
  {
    var p := StripeWebhook.PlanStatusFor(subscriptionStatus);
    assert forall i :: 0 <= i < |p| ==> 'a' <= p[i] <= 'z' || p[i] == '_';
    LowerCaseUnchanged(p);
  }

  /** The badge's text: its children when they are non-empty, otherwise
      the status itself. */
  function Label(children: Common.Option<string>, status: string): (r: string)
    ensures Common.Truthy(children) ==> r == children.value
    ensures !Common.Truthy(children) ==> r == status
  {
    if Common.Truthy(children) then children.value else status
  }
}
