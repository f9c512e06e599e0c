/** The dashboard's workflow list: the search box and status filter, the
    colour strip of each row and the empty state. */
module WorkflowsList {
  import opened Common
  import opened Strings
  import Schema

  /** A workflow as the list receives it. */
  datatype ListedWorkflow = ListedWorkflow(id: string, name: string, status: string, updatedAt: int)

  const AllStatuses := "all"

  /** A row is shown when its name contains the query, ignoring letter
      case, and the status filter is `all` or equals its status exactly. */
  predicate Matches(query: string, statusFilter: string, wf: ListedWorkflow)
  {
    && Includes(ToLower(wf.name), ToLower(query))
    && (statusFilter == AllStatuses || wf.status == statusFilter)
  }

  /** The rows shown, in the order given. */
  function FilteredWorkflows(workflows: seq<ListedWorkflow>, query: string, statusFilter: string)
    : (r: seq<ListedWorkflow>)
    ensures |r| <= |workflows|
    ensures forall i :: 0 <= i < |r| ==> r[i] in workflows && Matches(query, statusFilter, r[i])
    ensures forall wf :: wf in workflows && Matches(query, statusFilter, wf) ==> wf in r
  {
    Filter(workflows, (wf: ListedWorkflow) => Matches(query, statusFilter, wf))
  }

  /** Filtering keeps the list's order. */
  lemma FilterKeepsOrder(workflows: seq<ListedWorkflow>, query: string, statusFilter: string)
    ensures SubsequenceOf(FilteredWorkflows(workflows, query, statusFilter), workflows)
  {
    FilterIsSubsequence(workflows, (wf: ListedWorkflow) => Matches(query, statusFilter, wf));
  }

  /** With an empty query and the `all` filter every workflow is shown. */
  lemma {:induction false} UnfilteredShowsAll(workflows: seq<ListedWorkflow>)
    ensures FilteredWorkflows(workflows, "", AllStatuses) == workflows
  {
    var p := (wf: ListedWorkflow) => Matches("", AllStatuses, wf);
    forall i | 0 <= i < |workflows| ensures p(workflows[i]) {
      IncludesEmpty(ToLower(workflows[i].name));
    }
    FilterAll(workflows, p);
  }

  /** A status filter shows only workflows of exactly that status. */
  lemma StatusFilterExact(workflows: seq<ListedWorkflow>, query: string, s: Schema.WorkflowStatus)
    ensures forall wf :: wf in FilteredWorkflows(workflows, query, Schema.StatusName(s)) ==>
      wf.status == Schema.StatusName(s)
  {
  }

  const DraftColor := "from-blue-500 to-sky-500"

  /** The colour strip of each workflow status. */
  const StatusColors: map<string, string> := map[
    "draft" := DraftColor,
    "approved" := "from-amber-400 to-amber-600",
    "deployed" := "from-emerald-400 to-emerald-600",
    "paused" := "from-slate-300 to-slate-400"]

  /** The strip colour of a row: by exact status, the draft colour for
      any other status. */
  function StatusColor(status: string): (c: string)
    ensures c in StatusColors.Values
    ensures status in StatusColors ==> c == StatusColors[status]
    ensures status !in StatusColors ==> c == DraftColor
  {
    if status in StatusColors then StatusColors[status]
    else
      assert StatusColors["draft"] == DraftColor;
      DraftColor
  }

  /** The four workflow statuses have four different colours. */
  lemma StatusColorsDistinct(s: Schema.WorkflowStatus, t: Schema.WorkflowStatus)
    ensures s != t ==> StatusColor(Schema.StatusName(s)) != StatusColor(Schema.StatusName(t))
  {
  }

  /** Whether a search or a status filter is in effect. */
  predicate Narrowed(query: string, statusFilter: string)
  {
    query != "" || statusFilter != AllStatuses
  }

  const NoneFound := "No workflows found"
  const NoneYet := "No workflows yet"

  /** The heading of the empty state. */
  function EmptyTitle(query: string, statusFilter: string): (t: string)
    ensures t == NoneYet <==> !Narrowed(query, statusFilter)
    ensures t == NoneFound <==> Narrowed(query, statusFilter)
  {
    if Narrowed(query, statusFilter) then NoneFound else NoneYet
  }

  /** "No workflows yet" is only shown when the organization has no
      workflows at all. */
  lemma NoneYetMeansEmpty(workflows: seq<ListedWorkflow>, query: string, statusFilter: string)
    requires FilteredWorkflows(workflows, query, statusFilter) == []
    requires EmptyTitle(query, statusFilter) == NoneYet
    ensures workflows == []
  {
    UnfilteredShowsAll(workflows);
  }
}
