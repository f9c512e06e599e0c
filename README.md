# Tessera control plane — a Dafny model

Tessera is a multi-tenant control plane for n8n automations. An
organization authors a workflow as a typed specification (trigger, action
and transform nodes joined by edges). An administrator deploys it. The
control plane compiles the specification into n8n's workflow JSON, creates
the workflow on the engine under a retry-with-backoff policy, activates it,
reads back its webhook path, and records the deployment on the workflow
row.

This project models that core:

- `specification.dfy`: the specification data model.
- `compile_to_n8n.dfy`: the compiler to n8n JSON.
- `n8n_client.dfy`: the engine client. It holds the retry combinator, the create call, and the engine as an object that records every call it receives.
- `workflow_actions.dfy`: the server actions that test, delete and deploy a workflow.
- `schema.dfy`: the relational schema as an in-memory `Database` class. It has the constraints the database enforces and its cascading deletes.
- `entitlements.dfy`, `permissions.dfy`: the role tables and permission checks.
- `audit_service.dfy`: the audit service.
- `execution_history.dfy`: how the execution-history view threads start and end entries.
- `template_actions.dfy`: creating a workflow from a built-in blueprint.
- `secret_actions.dfy`: storing an encrypted vault secret.
- `stripe_webhook.dfy`: the Stripe billing webhook.
- `proxy.dfy`: the request proxy, which adds a trace id and enforces JSON on the API.
- `tenant_guard.dfy`: the tenant guard of dashboard pages.
- `status_badge.dfy`: the status badge's colour table.
- `workflows_list.dfy`: the workflow list's search, filter, colours and empty state.
- `common.dfy`, `strings.dfy`: shared helpers.

JavaScript semantics are written out where they matter:

- truthiness of `||` and `if (x)`;
- object spread as map override;
- keys whose value is `undefined` disappear from stored JSON;
- `String.replace` with a string pattern replaces only the first match;
- `/\s+/g` replaces runs of whitespace.

The outside world is replaced by inputs:

- **Engine and webhook replies** are scripted functions of the call's position. The engine's reply depends on the call's position in the engine's `trace`. A test attempt's reply depends on its attempt number.
- **Fresh values** are parameters: row ids, the current time, the proxy's trace UUID and the webhook base URL.
- **Collaborators** are parameters too: the vault cipher and `JSON.stringify`.

Behaviour of the code that the model keeps as written:

- **Connections.** The compiled connection map has one target per source node name. A second edge from the same node replaces the first (`CompileToN8n.ParallelBranchesCollapse`).
- **Execution timeout.** It falls back to 300 only when `expectedTimeout` is 0. A negative timeout is passed through.
- **Test webhook.** The loop retries every failed attempt, not only 404s. Only a 404 waits before the next attempt.
- **Delete.** The delete action checks the session and the row before it touches the engine. So a second delete of the same row fails with "Workflow not found".
- **Data overrides.** For nodes without a typed projection, node data is spread after the injected workflow id. A `tesseraId` key in the data therefore wins (`CompileToN8n.TesseraIdOverridden`).

## Model

| member | source | states |
|---|---|---|
| Specification.HeadersObject | src/core/domain/specification.ts:16-25 | the keys of an HTTP action's headers object are exactly its header names (a record's names are distinct, as `HeaderList` requires) |
| Specification.HeadersObjectValues | src/core/domain/specification.ts:22 | every header name maps to that header's value, as a string |
| Specification.HeadersObjectSize | src/core/domain/specification.ts:22 | the headers object has exactly one key per header |
| Specification.DataRecord | src/core/domain/specification.ts:27-33 | untyped node data is passed as it is; the record carries a known `type` tag exactly when the data is one of the six tagged variants |
| CompileToN8n.MapNodeToN8nType | src/core/use-cases/compile-to-n8n.ts:12-30 | the result is one of the seven n8n types; a trigger or action whose data carries a matching tag gets that tag's type; `code` iff the node is a transform; `noOp` exactly for the other nodes |
| CompileToN8n.HeaderParameters | src/core/use-cases/compile-to-n8n.ts:61-65 | one `{name, value}` entry per header, in order |
| CompileToN8n.HeaderParametersMatchObject | src/core/use-cases/compile-to-n8n.ts:61-65 | the entries correspond one to one with the keys of the node's headers object: each entry carries a key and that key's value, and each key has an entry |
| CompileToN8n.HttpRequestParameters | src/core/use-cases/compile-to-n8n.ts:53-67 | url, method and workflow id are present; `sendBody` is the body's truthiness; `specifyBody`/`jsonBody` are present iff the body is truthy; `headerParameters` is present iff headers are given, and then lists them; no other key is present |
| CompileToN8n.MapNodeParameters | src/core/use-cases/compile-to-n8n.ts:32-75 | every projection has a `tesseraId`; typed projections carry the workflow id and their exact keys (webhook path falls back to the workflow id when empty); an HTTP action gets exactly the HTTP request parameters of its url, method, body and headers; other nodes get the base spread with the data, whose keys win |
| CompileToN8n.NameLookup | src/core/use-cases/compile-to-n8n.ts:78 | the lookup's keys are exactly the node ids |
| CompileToN8n.NameLookupLastWins | src/core/use-cases/compile-to-n8n.ts:78 | of several nodes sharing an id, the last one's name is kept |
| CompileToN8n.ResolvedName | src/core/use-cases/compile-to-n8n.ts:90-92 | an endpoint resolves iff its id is known and its name is non-empty (falsy names drop the edge) |
| CompileToN8n.ConnectionKeys | src/core/use-cases/compile-to-n8n.ts:89-98 | the connection map's keys are exactly the resolved source names, at most one per edge |
| CompileToN8n.SourceNamesMembers | src/core/use-cases/compile-to-n8n.ts:89-98 | a name is a connection key iff some edge whose endpoints both resolve starts there |
| CompileToN8n.ConnectionShape | src/core/use-cases/compile-to-n8n.ts:94-96 | every entry has one output slot with one target, of type `main` and index 0 |
| CompileToN8n.LastEdgeWins | src/core/use-cases/compile-to-n8n.ts:89-98 | of several resolving edges from one source name, the last one decides the target |
| CompileToN8n.ParallelBranchesCollapse | src/core/use-cases/compile-to-n8n.ts:94-96 | a node with edges to two different nodes is connected only to the second |
| CompileToN8n.TesseraIdOverridden | src/core/use-cases/compile-to-n8n.ts:74 | a `tesseraId` in untyped data replaces the injected workflow id |
| CompileToN8n.CompileSpecToN8n | src/core/use-cases/compile-to-n8n.ts:77-110 | one n8n node per specification node, in order, with its id, name, type, version 1, position and parameters; the connection map of the edges; timeout is the expected timeout, or 300 when that is 0, and never 0; fixed order, static data and instance id |
| Entitlements.Permissions | src/core/domain/entitlements.ts:3-7 | admins hold every permission, viewers none, and only admins may deploy |
| Permissions.RoleTablesAgree | src/core/use-cases/permissions.ts:3-7 | the table the checks use equals the entitlements table, permission by permission |
| Permissions.CanUserPerformAction | src/core/use-cases/permissions.ts:9-15 | true iff the role is listed for the action; never for viewers, always for admins, deploy only for admins |
| Permissions.CanApproveWorkflow | src/core/use-cases/permissions.ts:17-20 | true iff the role may approve and the user is not the creator; a creator cannot approve their own workflow, even as admin |
| Schema.NewOrganization | src/lib/db/schema.ts:16-26 | a new organization is on the `free` plan with no Stripe ids, created and updated now |
| Schema.NewUser | src/lib/db/schema.ts:30-36 | a new user's role defaults to viewer |
| Schema.NewWorkflow | src/lib/db/schema.ts:38-50 | a new workflow is a draft at version 1 with no engine id or webhook URL |
| Schema.SecretRow | src/lib/db/schema.ts:77-89 | a secret row is stored iff ciphertext, iv and auth tag are all given, and then holds exactly them |
| Schema.LogsAfterWorkflowDelete | src/lib/db/schema.ts:62-64 | exactly the audit rows of other workflows survive |
| Schema.WorkflowsAfterOrganizationDelete | src/lib/db/schema.ts:42-44 | exactly the workflows of other organizations survive, unchanged |
| Schema.LogsAfterOrganizationDelete | src/lib/db/schema.ts:59-64 | an audit row survives iff neither it nor its workflow belongs to the organization |
| Schema.SecretsAfterOrganizationDelete | src/lib/db/schema.ts:81-83 | exactly the secrets of other organizations survive |
| Schema.Database.constructor | src/lib/db/schema.ts:16-91 | an empty database satisfies every constraint |
| Schema.Database.InsertWorkflow | src/lib/db/schema.ts:38-50 | refused iff the id is taken or the organization is unknown; otherwise exactly the new row is added and the constraints still hold |
| Schema.Database.UpdateWorkflow | src/lib/db/schema.ts:38-50 | the row with that id is replaced and nothing else changes |
| Schema.Database.DeleteWorkflow | src/lib/db/schema.ts:62-64 | the row goes and so do its audit rows; other tables are unchanged |
| Schema.Database.DeleteOrganization | src/lib/db/schema.ts:30-33 | refused iff a user still references the organization (no cascade on users); otherwise the organization, its workflows, their and its audit rows and its secrets go |
| Schema.Database.InsertAuditLog | src/lib/db/schema.ts:54-68 | a taken id is refused with a unique violation; accepted iff the id is free and the organization and the workflow, if any, exist; then the row is appended and ids stay distinct |
| Schema.Database.InsertSecret | src/lib/db/schema.ts:77-89 | a missing not-null column is reported as such, then a taken id as a unique violation; accepted iff no column is missing, the id is free and the organization exists; then one row is appended and ids stay distinct |
| Schema.Database.UpdateOrganizationPlan | src/lib/db/schema.ts:16-23 | only the three plan columns of the matching organization change; an unknown id changes nothing |
| N8nClient.RetryFrom | src/lib/n8n/client.ts:20-32 | at most `retries + 1` attempts; every attempt but the last threw; the outcome is the last attempt's; a thrown outcome means retries ran out; the waits are `delay * 2^i` |
| N8nClient.RetryRequestOutcome | src/lib/n8n/client.ts:20-32 | the call returns iff one of its first `retries + 1` attempts returns; otherwise the last attempt's error is rethrown unchanged |
| N8nClient.DefaultBackoff | src/lib/n8n/client.ts:20-32 | with the defaults there are at most three attempts, with waits of 1000 and then 2000 ms |
| N8nClient.CreateRequestFor | src/lib/n8n/client.ts:46-50 | the create body is the name, the compiled workflow and `active: true` |
| N8nClient.CreateAttempt | src/lib/n8n/client.ts:40-64 | a 2xx response returns the new id; any other status throws an error carrying status and body; a transport error propagates |
| N8nClient.ServerErrorIsRetried | src/lib/n8n/client.ts:39-65 | a 500 followed by a 201 deploys on the second attempt after one 1000 ms wait |
| N8nClient.RetryTrace | src/lib/n8n/client.ts:20-32 | one create call per attempt, with each wait between consecutive attempts |
| N8nClient.Engine.DeployWorkflow | src/lib/n8n/client.ts:35-66 | the outcome is the retried create's, and the engine sees exactly its create calls and waits |
| N8nClient.Engine.ActivateWorkflow | src/actions/workflow-actions.ts:98 | one activate call is recorded and answered from the script |
| N8nClient.Engine.GetWorkflow | src/actions/workflow-actions.ts:99 | one fetch call is recorded and answered from the script |
| N8nClient.Engine.DeactivateWorkflow | src/actions/workflow-actions.ts:108 | one deactivate call is recorded and answered from the script |
| N8nClient.Engine.DeleteWorkflow | src/actions/workflow-actions.ts:66 | one delete call is recorded and answered from the script |
| N8nClient.Engine.Wait | src/actions/workflow-actions.ts:109 | the wait is recorded |
| WorkflowActions.Waits | src/actions/workflow-actions.ts:35-38 | only a 404 before the last attempt waits, and each wait lies between 4000 and 4000 + 2000·n ms |
| WorkflowActions.WaitsIncrease | src/actions/workflow-actions.ts:36 | the waits strictly increase |
| WorkflowActions.TestWorkflowAction | src/actions/workflow-actions.ts:21-50 | no attempt and an `undefined` result iff `retries <= 0`; success iff one of the first `retries` attempts gets a 2xx, and then it is the last one made; otherwise all attempts are made and the last one's error is thrown; the waits are exactly `Waits` |
| WorkflowActions.RemoteName | src/actions/workflow-actions.ts:94 | the engine name is `TESSERA_` followed by the name with every maximal whitespace run replaced by one `_`; it has no whitespace after the prefix; a name without whitespace is kept as it is |
| Strings.ReplaceWhitespaceRunsSplit | src/actions/workflow-actions.ts:94 | a maximal whitespace run between two parts becomes exactly one replacement, and the parts on either side are rewritten independently |
| Strings.ReplaceWhitespaceRunsAppend | src/actions/workflow-actions.ts:94 | text that ends outside a whitespace run is rewritten independently of what follows it |
| Strings.ReplaceWhitespaceRunsChar | src/actions/workflow-actions.ts:94 | a character that is not whitespace is kept |
| WorkflowActions.FirstWebhookNode | src/actions/workflow-actions.ts:102-104 | the first node of webhook type, or none when there is none |
| WorkflowActions.WebhookPath | src/actions/workflow-actions.ts:102-105 | the first webhook node's path when that is a non-empty string; the workflow id when there are no nodes, no webhook node, or a falsy path |
| WorkflowActions.WebhookUrl | src/actions/workflow-actions.ts:106 | the URL is the base, `/webhook/`, the engine id and `/`, followed by the path and nothing else |
| WorkflowActions.ParseWebhookUrl | src/actions/workflow-actions.ts:106 | a parsed engine id contains no `/` |
| WorkflowActions.WebhookUrlRoundTrip | src/actions/workflow-actions.ts:106 | the webhook URL gives back the engine id and the path |
| WorkflowActions.MessageOf | src/actions/workflow-actions.ts:128 | an `Error` reports its message, any other thrown value "Deployment failed" |
| WorkflowActions.RemoteCleanup | src/actions/workflow-actions.ts:64-70 | a remote delete happens iff the row has an engine id |
| WorkflowActions.DeleteWorkflowAction | src/actions/workflow-actions.ts:52-74 | succeeds iff the session's organization is the one asked for and owns the row; the two error messages; on success the row and its audit rows go and the engine sees the clean-up, even if that throws; on failure nothing changes |
| WorkflowActions.FirstFailedStep | src/actions/workflow-actions.ts:98-110 | the first of the post-create engine calls that throws, with every earlier call returning |
| WorkflowActions.StepFailureMessage | src/actions/workflow-actions.ts:125-128 | an `Error` thrown by the first failing step reports its own message |
| WorkflowActions.DeployedRow | src/actions/workflow-actions.ts:112-121 | the deployed row is `deployed`, one version up, with the engine id and webhook URL, other columns kept |
| WorkflowActions.ActivateAndRecord | src/actions/workflow-actions.ts:98-121 | the engine sees activate, fetch, deactivate, a 1500 ms wait and activate, up to the first call that throws; the row is updated only when none throws |
| WorkflowActions.CreateAndRecord | src/actions/workflow-actions.ts:93-121 | a failed create reports its error after the retried create calls; after a create, the first later call that throws reports its message and leaves the workflows unchanged; when none throws, the row becomes the deployed row with the engine id and the URL built from the fetched webhook path |
| WorkflowActions.DeployWorkflowAction | src/actions/workflow-actions.ts:76-131 | authentication and ownership errors with no engine call; a failed create reports its error after the retried create calls; after a create, the first later call that throws reports its message and leaves the workflows unchanged; when none throws, the row is replaced by the deployed row (`deployed`, one version up, engine id, webhook URL from the fetched path) |
| AuditService.ActionNameInjective | src/core/use-cases/audit-service.ts:8 | the stored action text determines the action |
| AuditService.SetOrOmit | src/core/use-cases/audit-service.ts:21-25 | an `undefined` status leaves its key out; a given one is stored; other keys are untouched |
| AuditService.StoredPayload | src/core/use-cases/audit-service.ts:21-25 | the caller's payload keys are kept, and the two status keys are present exactly when given, overriding the payload |
| AuditService.AuditRow | src/core/use-cases/audit-service.ts:15-26 | the row carries the organization, workflow, action text and actor; its parent is null unless a non-empty parent id is given |
| AuditService.EmptyParentIsNull | src/core/use-cases/audit-service.ts:20 | an empty parent id is stored as null |
| AuditService.StatusWinsOverPayload | src/core/use-cases/audit-service.ts:21-25 | a status parameter replaces a same-named payload key |
| AuditService.RecordEvent | src/core/use-cases/audit-service.ts:5-27 | a taken id is refused with a unique violation; appends exactly `AuditRow` iff the id is free and its references exist; nothing else changes |
| ExecutionHistory.FindEnd | src/components/features/ExecutionHistory.tsx:21 | the first entry, in order and whatever its action, whose parent is the start's id, or none when there is none |
| ExecutionHistory.Thread | src/components/features/ExecutionHistory.tsx:20-35 | success iff the end entry is an `EXECUTION_SUCCESS`, failed iff it is anything else, pending iff there is none; duration and output exactly when an end exists |
| ExecutionHistory.ThreadedLogs | src/components/features/ExecutionHistory.tsx:18-36 | one threaded execution per start entry, in order |
| ExecutionHistory.ThreadedCount | src/components/features/ExecutionHistory.tsx:18-38 | as many executions as start entries; none when there is no start entry |
| ExecutionHistory.ThreadedOrder | src/components/features/ExecutionHistory.tsx:18-20 | the executions follow the start entries in log order |
| ExecutionHistory.EndFoundByParentAlone | src/components/features/ExecutionHistory.tsx:21-29 | any entry naming the start as parent ends it, even another start, and the execution then counts as failed |
| TemplateActions.Blueprint | src/actions/template-actions.ts:8-55 | a blueprint exists exactly for `slack-notif` and `ai-lead-analyzer` |
| TemplateActions.BlueprintsWellFormed | src/actions/template-actions.ts:8-55 | every blueprint has unique node ids and its edges connect its own nodes |
| TemplateActions.BlueprintNodesCompileToNoOp | src/actions/template-actions.ts:8-55 | blueprint data carries no type tag, so every blueprint node compiles to a no-op |
| TemplateActions.TemplateName | src/actions/template-actions.ts:66 | the name is `My ` followed by the id with the same length |
| TemplateActions.TemplateNameAt | src/actions/template-actions.ts:66 | each character of the id reappears in place except the first `-`, which becomes a space |
| TemplateActions.LeadAnalyzerName | src/actions/template-actions.ts:66 | `ai-lead-analyzer` becomes `My ai lead-analyzer` |
| TemplateActions.LeadAnalyzerReplaced | src/actions/template-actions.ts:66 | only the first hyphen of `ai-lead-analyzer` is replaced |
| TemplateActions.CreateFromTemplateAction | src/actions/template-actions.ts:57-74 | an unknown template fails and inserts nothing; a known one inserts one draft row holding the blueprint, iff the id is free and the organization exists, and returns its id |
| SecretActions.FieldIssues | src/actions/secret-actions.ts:9-13 | a missing field is required, a non-string one has the wrong type, a string one gets its checks' issues |
| SecretActions.Validate | src/actions/secret-actions.ts:9-17 | accepted iff the organization id is a UUID, the key name is non-empty and at most 255 UTF-16 code units long and the value is non-empty; a refusal lists at least one issue |
| SecretActions.LongKeyNameRefused | src/actions/secret-actions.ts:11 | a key name over 255 UTF-16 code units is refused with one too-long issue on `keyName` |
| SecretActions.AstralKeyNameRefused | src/actions/secret-actions.ts:11 | 128 characters outside the Basic Multilingual Plane are already too long |
| SecretActions.BmpKeyNameAccepted | src/actions/secret-actions.ts:11 | within the Basic Multilingual Plane, 1 to 255 characters are accepted |
| Strings.Utf16Length | src/actions/secret-actions.ts:11 | a string's JavaScript length lies between its character count and twice that |
| Strings.Utf16LengthAstral | src/actions/secret-actions.ts:11 | characters outside the Basic Multilingual Plane count twice |
| Strings.Utf16LengthBmp | src/actions/secret-actions.ts:11 | characters inside the Basic Multilingual Plane count once |
| SecretActions.InsertAsWritten | src/actions/secret-actions.ts:21-27 | the values object has ciphertext and iv but no auth tag column |
| SecretActions.TagNeverStored | src/actions/secret-actions.ts:21-27 | that insert always violates the not-null `auth_tag` column |
| SecretActions.SecretInsertFor | src/actions/secret-actions.ts:21-27 | with the tag under `authTag` the row is stored with the cipher's three outputs |
| SecretActions.CreateSecretActionAsWritten | src/actions/secret-actions.ts:15-38 | as written, the action never succeeds: validation or encryption errors, else the not-null error; no secret is stored |
| SecretActions.CreateSecretAction | src/actions/secret-actions.ts:15-38 | validation and cipher errors are reported; a taken id is reported as the insert's unique violation; success iff input is valid, encryption succeeds, the id is free and the organization exists; then exactly one row holding the cipher's outputs is appended |
| StripeWebhook.PlanStatusFor | src/app/api/webhooks/stripe/route.ts:8-24 | the five known statuses are stored as they are, any other as `free`; the result fits the 50-character column |
| StripeWebhook.PlanStatusIdempotent | src/app/api/webhooks/stripe/route.ts:8-24 | a stored plan status maps to itself |
| StripeWebhook.UpdateFor | src/app/api/webhooks/stripe/route.ts:47-71 | a checkout with an organization and a subscription sets `active`; a subscription update or deletion with an organization sets its status; nothing else updates |
| StripeWebhook.ApplyPlanUpdate | src/app/api/webhooks/stripe/route.ts:16-33 | only the three plan columns of the matching organization change |
| StripeWebhook.DeletionKeepsCanceled | src/app/api/webhooks/stripe/route.ts:60-71 | a deleted subscription is stored as `canceled`, an unknown status as `free` |
| StripeWebhook.HandleWebhook | src/app/api/webhooks/stripe/route.ts:35-79 | 400 and no change on a bad signature; 500 and no change when the update fails; 200 otherwise, with the plan update applied when the event asks for one |
| Proxy.ProxyDecision | src/proxy.ts:3-24 | refused with 415 iff an `/api` write lacks the exact JSON content type; otherwise forwarded with the trace id set and every other header kept |
| Proxy.PassesThrough | src/proxy.ts:9-17 | GET requests and paths outside `/api` always pass |
| Proxy.CharsetParameterRefused | src/proxy.ts:10-11 | a JSON content type with a charset parameter is refused |
| Proxy.PrefixNotSegment | src/proxy.ts:9 | `/apix` is gated like `/api` |
| TenantGuard.ProtectTenant | src/lib/auth/tenant-guard.ts:4-22 | no user goes to sign-in; access iff the session's organization is the requested one; otherwise to the session's own dashboard or to onboarding |
| TenantGuard.DashboardRedirectIsOwnOrg | src/lib/auth/tenant-guard.ts:11-18 | a dashboard redirect targets the session's organization, never the refused one |
| StatusBadge.StatusVariant | src/components/tessera/status-badge.tsx:14-38 | the variant is the table's entry for the lower-cased status, `default` for unknown ones |
| StatusBadge.CaseInsensitive | src/components/tessera/status-badge.tsx:38 | spellings differing only in letter case get the same badge |
| StatusBadge.LowerCasedStatus | src/components/tessera/status-badge.tsx:38 | lower-casing first does not change the badge |
| StatusBadge.WorkflowStatusesDistinguished | src/components/tessera/status-badge.tsx:18-21 | the four workflow statuses get four different, non-default variants |
| StatusBadge.PlanStatusBadge | src/components/tessera/status-badge.tsx:23-28 | every plan status the billing webhook stores is in the table, and only `free` shows in the default variant |
| StatusBadge.Label | src/components/tessera/status-badge.tsx:42 | the badge shows its children when non-empty, else the status |
| WorkflowsList.FilteredWorkflows | src/components/features/WorkflowsList.tsx:35-39 | exactly the workflows whose name contains the query, ignoring case, and whose status matches the filter or the filter is `all` |
| WorkflowsList.FilterKeepsOrder | src/components/features/WorkflowsList.tsx:35 | the shown rows keep the list's order |
| WorkflowsList.UnfilteredShowsAll | src/components/features/WorkflowsList.tsx:31-39 | an empty query with the `all` filter shows every workflow |
| WorkflowsList.StatusFilterExact | src/components/features/WorkflowsList.tsx:37 | a status filter shows only workflows of exactly that status |
| WorkflowsList.StatusColor | src/components/features/WorkflowsList.tsx:23-28 | each status gets its colour, any other the draft colour |
| WorkflowsList.StatusColorsDistinct | src/components/features/WorkflowsList.tsx:23-28 | the four workflow statuses have four different colours |
| WorkflowsList.EmptyTitle | src/components/features/WorkflowsList.tsx:123 | "No workflows yet" iff no query and the `all` filter, else "No workflows found" |
| WorkflowsList.NoneYetMeansEmpty | src/components/features/WorkflowsList.tsx:82-123 | "No workflows yet" appears only when the organization has no workflows |

## Left out

- I/O is left out: the network, timers, the database driver, and Clerk's `auth()`. Each outcome is an input instead: a scripted reply, a given session, or a given database.
- Concurrency is left out. Concurrent actions on the same row are not modelled.
- `revalidatePath`, logging (`console.*`) and the rendered markup are left out; they have no effect on state.
- The vault cipher is an input function. The cipher itself is not part of this model.
- `JSON.stringify` is an input function (`stringify`). Byte-exact JSON is not modelled.
- Numbers are modelled as integers. Floating-point positions, timeouts and timestamps are not modelled.
- Lower-casing covers ASCII letters only. Unicode case mapping is not modelled.
- Keys inherited from `Object.prototype` are not modelled. In the source they make lookups on `BLUEPRINTS`, `PLAN_STATUS_MAP` and `statusVariantMap` return an inherited value (e.g. `constructor`).
- `retryRequest` with a negative `retries` never stops retrying. The model's `retries` is a `nat`, so that case is not modelled.
- `response.json()` failing to parse is not modelled; a 2xx create reply always carries an id.
- The deploy's final database update is modelled as always succeeding. The action's outer catch would report its failure like any other error.
- An unset `N8N_WEBHOOK_URL` makes the source build a URL starting with `undefined`. It is not modelled; the base URL is an input.
- Zod's and PostgreSQL's exact error messages are not modelled. Issues and violations are structured values.
- The `trigger.method || 'POST'` fallback is not modelled. The method is typed `GET` or `POST`, so the fallback never fires.
- Stripe's `session.subscription` and `customer` may be expanded objects. The model treats them as optional strings.
- The Clerk webhook, onboarding and billing actions are not part of this model. Neither is the vault service.
- WorkflowActions.DeployedRow, WorkflowActions.RemoteCleanup: the workflow row is given `n8nWorkflowId` and `n8nWebhookUrl` columns, which `src/lib/db/schema.ts` does not declare. As written, the delete action reads both as undefined, so its remote delete never runs. The deploy's update drops both keys, so the engine id and webhook URL are never stored. The model follows what the actions evidently intend.
- TemplateActions.CreateFromTemplateAction, AuditService.RecordEvent, SecretActions.CreateSecretAction: each new row's id is an input. As written, these inserts supply no id and the primary keys have no default, so each would fail with a not-null violation on `id`.
- N8nClient.Engine.ActivateWorkflow, N8nClient.Engine.GetWorkflow, N8nClient.Engine.DeactivateWorkflow, N8nClient.Engine.DeleteWorkflow: these calls are not defined in `src/lib/n8n/client.ts`. The model gives them the shape of the other calls: one recorded call and one scripted reply.
- CompileToN8n.HeaderParameters: lists headers in insertion order. `Object.entries` puts integer-like names (such as `"1"`) first, in ascending numeric order. That reordering is not modelled.
- Schema.Database.UpdateOrganizationPlan: requires the plan status to fit the 50-character column instead of modelling the database's length error. Every caller passes a mapped status, which always fits.

## Findings

| source | as written | input that shows it | evidently intended | confidence | as-written member | corrected member |
|---|---|---|---|---|---|---|
| src/actions/secret-actions.ts:21-27 | the insert passes the authentication tag under the key `tag`, which is not a column of `secrets`; the not-null `auth_tag` column (src/lib/db/schema.ts:87) gets no value | any valid form, e.g. a UUID org id, key name `API_KEY`, value `x`, with encryption succeeding | store the tag in `authTag`, so the row is inserted | high for the model; not executed | SecretActions.CreateSecretActionAsWritten | SecretActions.CreateSecretAction |
