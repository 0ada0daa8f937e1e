# SupabaseDal, modelled in Dafny

Robusta's Supabase sink persists cluster data through a data-access layer,
`SupabaseDal`. This project models it. Every operation of that class is
modelled:
- it publishes services, nodes, jobs, Helm releases, namespaces, the
  cluster status and the node count;
- it reads back the active entities of each kind;
- it deletes a removed job;
- it persists findings and their scan reports;
- it signs in to the identity service under a rate limit, and signs in
  again after backend errors (`handle_supabase_error`).

The model also covers the client subclass that builds the authentication
headers (`RobustaClient._get_auth_headers`).

The backend is a function `gateway: nat -> Response`. Its value at `n` is
the raw reply (status, body, parsed JSON or a parse failure) to the n-th
request the DAL sends. The identity service is `identity: nat -> Option<Session>`.
Its value at `k` answers the k-th login attempt, and `None` means the login
raises. The clock reading is a parameter of each operation.

The model is split into modules:
- `Wrappers` and `Json`: decoded JSON values, with Python's truthiness and `len`.
- `Normalizer`: the two request paths the class patches around the client
  library (`__delete_patch`, `__rpc_patch`), and the library's `execute()`,
  which raises when the body does not parse.
- `Auth`: the authentication headers, and `sign_in` as a step on the login
  state, with the rate-limit guarantee over any sequence of calls.
- `Codec`: the `to_*` / `__to_db_*` row builders, and the decoding done in
  `get_active_services`, with a write/read round trip.
- `Requests`: the requests, the accepted status sets, and the run of each
  single-request operation as a function of the reply.
- `Findings`: `persist_scan` and `persist_finding` as functions of the
  gateway.
- `Dal`: the class `SupabaseDal` itself. Its state is the login state plus
  the log of requests sent. Each method is proved to send exactly the
  requests of its run function, raise exactly when that run raises, and
  call the recovery hook exactly when that run does.

A `Run` records three things: the requests sent, whether
`handle_supabase_error` was called, and whether the operation raised.

The delete patch removes every `%22` from the query string. For a
well-formed percent-encoded query, the query then holds no `%22`, and a
second pass changes nothing (`StripQuotesSound`). On arbitrary text that is
not true: a single pass can create a new `%22`, as
`StripQuotesCanJoin` shows for `%2%222`. The library only hands this patch
encoded queries, so this is not a defect of the code.

## Model

| member | source | states |
|---|---|---|
| Json.Len | src/robusta/core/sinks/robusta/dal/supabase_dal.py:256 | `len` is defined exactly on strings, lists and dicts, and there a positive length coincides with truthiness |
| Normalizer.Execute | src/robusta/core/sinks/robusta/dal/supabase_dal.py:410-413 | the library's `execute()` yields a result exactly when the body parses, carrying the reply's status and parsed body |
| Normalizer.StripQuotes | src/robusta/core/sinks/robusta/dal/supabase_dal.py:418 | `replace("%22", "")` never lengthens the query and drops at least three characters when the query starts with `%22` |
| Normalizer.StripKeepsEscape | src/robusta/core/sinks/robusta/dal/supabase_dal.py:418 | an escape other than `%22` at the front of the text is kept whole and the replacement goes on after it |
| Normalizer.StripQuotesKeepsPrefix | src/robusta/core/sinks/robusta/dal/supabase_dal.py:418 | text holding no `%22` escape is kept verbatim in front of whatever follows it |
| Normalizer.StripQuotesDropsEscape | src/robusta/core/sinks/robusta/dal/supabase_dal.py:418 | a `%22` is removed and the text before it, holding no `%22` escape, survives unchanged |
| Normalizer.StripKeepsHead | src/robusta/core/sinks/robusta/dal/supabase_dal.py:418 | a leading character other than `%` survives the replacement unchanged |
| Normalizer.StripQuotesEncoded | src/robusta/core/sinks/robusta/dal/supabase_dal.py:418 | stripping a percent-encoded query leaves a percent-encoded query with no `%22` escape |
| Normalizer.EncodedQuoteFreeIsQuoteFree | src/robusta/core/sinks/robusta/dal/supabase_dal.py:418 | an encoded query without `%22` escapes holds the text `%22` nowhere |
| Normalizer.StripQuotesFixesQuoteFree | src/robusta/core/sinks/robusta/dal/supabase_dal.py:418 | text without `%22` is left unchanged by the replacement |
| Normalizer.StripQuotesSound | src/robusta/core/sinks/robusta/dal/supabase_dal.py:415-418 | on an encoded query the sent query holds no `%22`, and the replacement is idempotent |
| Normalizer.StripQuotesCanJoin | src/robusta/core/sinks/robusta/dal/supabase_dal.py:418 | on non-encoded text one pass can create a `%22` (`%2%222` becomes `%22`) |
| Normalizer.RStripSlash | src/robusta/core/sinks/robusta/dal/supabase_dal.py:414 | `rstrip("/")` returns a prefix that does not end in `/`, having removed only slashes |
| Normalizer.DeleteUrl | src/robusta/core/sinks/robusta/dal/supabase_dal.py:414-419 | the DELETE URL is exactly the base URL without trailing slashes, then `?`, then the builder's query with every `%22` removed; that query part holds no `%22` when the builder's query is encoded |
| Normalizer.DeleteResult | src/robusta/core/sinks/robusta/dal/supabase_dal.py:419-429 | the patched delete never fails: it returns the reply's status, with the parsed body as data, or `""` when the body is empty or does not parse |
| Normalizer.RpcResult | src/robusta/core/sinks/robusta/dal/supabase_dal.py:431-449 | the patched RPC never fails: it returns the reply's status; the data is `{}` for an empty or unparsable body and the parsed body otherwise |
| Auth.AuthHeaders | src/robusta/core/sinks/robusta/dal/supabase_dal.py:47-59 | exactly the `apiKey` and `Authorization` headers: the project key, and a bearer token that is the session's access token when it is non-empty and the project key otherwise |
| Auth.SignIn | src/robusta/core/sinks/robusta/dal/supabase_dal.py:451-455 | a login is attempted exactly when the cooldown has passed; the attempt time is recorded before the login, so a failed login also starts a cooldown; a successful login replaces the session, and a failed one is taken to keep it (see below); otherwise nothing changes |
| Auth.SignInRefreshesHeaders | src/robusta/core/sinks/robusta/dal/supabase_dal.py:47-59 | after a successful login with a non-empty token, requests carry that token as bearer |
| Auth.AttemptsSpaced | src/robusta/core/sinks/robusta/dal/supabase_dal.py:451-455 | over any sequence of calls, consecutive login attempts are more than the rate limit apart; each attempt is one of the calls; the counter grows by the number of attempts; `sign_in_time` ends at the last attempt |
| Auth.NoAttemptWithinCooldown | src/robusta/core/sinks/robusta/dal/supabase_dal.py:451-455 | calls within the cooldown of the last attempt attempt nothing and change nothing |
| Auth.AtMostOneAttemptPerWindow | src/robusta/core/sinks/robusta/dal/supabase_dal.py:451-455 | calls that all fall within one cooldown of each other make at most one login attempt |
| Auth.CooldownScenario | src/robusta/core/sinks/robusta/dal/supabase_dal.py:451-455 | of three calls, the second within the cooldown of the first and the third past it, exactly the first and third log in, even when the first login fails |
| Codec.StatusDict | src/robusta/core/sinks/robusta/dal/supabase_dal.py:469 | `.dict()` of a cluster status always holds `last_alert_at`, None when unset, besides its other fields |
| Codec.ToService | src/robusta/core/sinks/robusta/dal/supabase_dal.py:187-201 | the service row has exactly the twelve columns: the service's own fields, the tenant, the service key, the config or null, and the `now()` sentinel |
| Codec.ToDbScanResult | src/robusta/core/sinks/robusta/dal/supabase_dal.py:106-110 | a scan result row is the row's dict with the tenant set and every other field kept |
| Codec.ToDbNode | src/robusta/core/sinks/robusta/dal/supabase_dal.py:294-299 | a node row is the node's dict with the tenant and `updated_at = now()`, every other field kept |
| Codec.ToDbJob | src/robusta/core/sinks/robusta/dal/supabase_dal.py:330-336 | a job row is the job's dict with the tenant, its service key and `updated_at = now()`, every other field kept |
| Codec.ToDbHelmRelease | src/robusta/core/sinks/robusta/dal/supabase_dal.py:386-392 | a Helm release row is the release's dict with the tenant, its service key and `updated_at = now()`, every other field kept |
| Codec.ToDbNamespace | src/robusta/core/sinks/robusta/dal/supabase_dal.py:508-513 | a namespace row is the namespace's dict with the tenant and `updated_at = now()`, every other field kept |
| Codec.ToDbClusterStatus | src/robusta/core/sinks/robusta/dal/supabase_dal.py:468-479 | the status row holds `last_alert_at` exactly when it is set, always holds `updated_at = now()`, and otherwise holds exactly the status's fields |
| Codec.DecodeConfig | src/robusta/core/sinks/robusta/dal/supabase_dal.py:234 | a missing or null config decodes to no config, an object decodes to that object as the config, and anything else fails validation |
| Codec.DecodeService | src/robusta/core/sinks/robusta/dal/supabase_dal.py:228-239 | a row decodes exactly when the indexed columns are present with the right types and the config validates; the service holds those values and `deleted` is false |
| Codec.Project | src/robusta/core/sinks/robusta/dal/supabase_dal.py:217 | a select of some columns returns exactly those columns of the stored row, with their values |
| Codec.ProjectedService | src/robusta/core/sinks/robusta/dal/supabase_dal.py:187-239 | the seven columns `get_active_services` selects from a row written by `to_service` hold the service's own values |
| Codec.ServiceRoundTrip | src/robusta/core/sinks/robusta/dal/supabase_dal.py:187-239 | a service that is not deleted, written by `to_service` and read back by `get_active_services`, decodes to itself |
| Requests.Then | src/robusta/core/sinks/robusta/dal/supabase_dal.py:152-153 | an operation that raises ends the run; otherwise the next one's requests follow and its outcome decides |
| Requests.Classify | src/robusta/core/sinks/robusta/dal/supabase_dal.py:119 | a request crashed exactly when `execute()` gave no result, and was accepted exactly when its status is in the accepted set |
| Requests.Checked | src/robusta/core/sinks/robusta/dal/supabase_dal.py:119-123 | one request is sent; the hook is called exactly on a rejected status under a policy that recovers; the operation raises exactly when `execute()` raised or the status was rejected under recover-and-raise |
| Requests.PublishRun | src/robusta/core/sinks/robusta/dal/supabase_dal.py:203-212 | an empty batch sends nothing; otherwise one upsert of the batch, raising exactly when the body does not parse or the status is not 200/201, and calling the hook exactly in the latter case |
| Requests.TenantFilters | src/robusta/core/sinks/robusta/dal/supabase_dal.py:245-246 | reads are filtered on exactly two conditions: the DAL's account and its cluster |
| Requests.ActiveFilters | src/robusta/core/sinks/robusta/dal/supabase_dal.py:218-220 | `get_active_*` reads are filtered on exactly three conditions: the account, the cluster and `deleted = false` |
| Requests.DecodeItems | src/robusta/core/sinks/robusta/dal/supabase_dal.py:228-239 | a list decodes exactly when every item is a row that decodes, into the decoded items in order |
| Requests.DecodeRows | src/robusta/core/sinks/robusta/dal/supabase_dal.py:228-239 | iterating the data: a list decodes item by item; an empty string or dict yields no rows; any other value fails |
| Requests.SelectRun | src/robusta/core/sinks/robusta/dal/supabase_dal.py:214-239 | one scoped select; the hook is called exactly when the body parses and the status is not 200; it raises then, or when the body does not parse or a row does not decode; otherwise it returns the decoded rows |
| Requests.FindingsCheckRun | src/robusta/core/sinks/robusta/dal/supabase_dal.py:241-256 | one select of at most one issue of the tenant; rejected statuses recover and raise; the answer is whether the data is non-empty, and `len` of a non-container raises |
| Requests.RemoveJobRun | src/robusta/core/sinks/robusta/dal/supabase_dal.py:350-366 | no job sends nothing; otherwise one patched DELETE of the job's row, which raises and calls the hook exactly when the status is not 200/202/204 |
| Requests.NodeCountParams | src/robusta/core/sinks/robusta/dal/supabase_dal.py:528-532 | the node-count RPC carries exactly the account id, the cluster id and the node count |
| Requests.JobKeyFilters | src/robusta/core/sinks/robusta/dal/supabase_dal.py:357-359 | the job delete filters on exactly the account id, the cluster id and the job's service key |
| Requests.ClusterStatusRun | src/robusta/core/sinks/robusta/dal/supabase_dal.py:481-489 | one upsert of the status row; a rejected status calls the hook and is not raised; only an unparsable body raises |
| Requests.ClusterNodesRun | src/robusta/core/sinks/robusta/dal/supabase_dal.py:527-539 | one patched RPC with the tenant and node count; it never raises, and calls the hook exactly when the status is not 200/201/204 |
| Findings.Scans | src/robusta/core/sinks/robusta/dal/supabase_dal.py:146-150 | the scan part is no longer than the enrichments |
| Findings.NonScans | src/robusta/core/sinks/robusta/dal/supabase_dal.py:146-150 | the other part is no longer than the enrichments |
| Findings.PartitionCovers | src/robusta/core/sinks/robusta/dal/supabase_dal.py:146-150 | the two parts together are a permutation of the enrichments |
| Findings.PartitionAppend | src/robusta/core/sinks/robusta/dal/supabase_dal.py:146-150 | each enrichment goes to exactly one part, appended in order |
| Findings.PartitionSound | src/robusta/core/sinks/robusta/dal/supabase_dal.py:146-150 | the scan part holds only scans and the other part only non-scans |
| Findings.PartitionOfAllScans | src/robusta/core/sinks/robusta/dal/supabase_dal.py:146-150 | when every enrichment is a scan, the other part is empty |
| Findings.PartitionOfNoScans | src/robusta/core/sinks/robusta/dal/supabase_dal.py:146-150 | when no enrichment is a scan, the scan part is empty |
| Codec.IsScan | src/robusta/core/sinks/robusta/dal/supabase_dal.py:148 | `annotations.get(SCAN, False)`: a missing annotation, null or false is not a scan, true is |
| Findings.ScanRows | src/robusta/core/sinks/robusta/dal/supabase_dal.py:117 | a scan report inserts one tenant-scoped row per result, in order |
| Findings.BlockRun | src/robusta/core/sinks/robusta/dal/supabase_dal.py:113-142 | a block that is not a scan report sends nothing; a scan report sends its insert and, unless that raised, its meta RPC; the hook is only called right before raising |
| Findings.ScanMetaParamsOfBlock | src/robusta/core/sinks/robusta/dal/supabase_dal.py:125-136 | the meta RPC carries exactly the account, cluster, scan id, start, end, type and grade of the block |
| Findings.BlockRunOutcome | src/robusta/core/sinks/robusta/dal/supabase_dal.py:117-142 | the insert is always sent first; the meta RPC is sent exactly when the insert is accepted; the block raises exactly when the insert is not accepted or the meta status is not 200, 201 or 204; the hook is called exactly when a parsed status was rejected |
| Findings.ScanRun | src/robusta/core/sinks/robusta/dal/supabase_dal.py:112-142 | `persist_scan` calls the hook only right before raising |
| Findings.ScanRequests | src/robusta/core/sinks/robusta/dal/supabase_dal.py:112-142 | a scan sends two requests per scan report block when all is well |
| Findings.ScanRunAccepted | src/robusta/core/sinks/robusta/dal/supabase_dal.py:112-142 | when each insert's reply parses with status 200 or 201 and each meta RPC's reply has status 200, 201 or 204 (whatever its body), `persist_scan` sends each scan report's insert and meta RPC in block order, never calls the hook and never raises |
| Findings.ScanRunLength | src/robusta/core/sinks/robusta/dal/supabase_dal.py:112-142 | `persist_scan` sends at most two requests per scan report, exactly two when it does not raise |
| Findings.ScanRunStep | src/robusta/core/sinks/robusta/dal/supabase_dal.py:113-142 | one iteration of the block loop either ends the run or extends its quiet prefix |
| Findings.ScanMetaFollowsAcceptedInsert | src/robusta/core/sinks/robusta/dal/supabase_dal.py:117-142 | each meta RPC directly follows the insert of its scan results, and is sent only when that insert was accepted |
| Findings.InsertThenMetaOnlyScanRequests | src/robusta/core/sinks/robusta/dal/supabase_dal.py:117-142 | scan request pairs hold only inserts and RPCs |
| Findings.ScansRun | src/robusta/core/sinks/robusta/dal/supabase_dal.py:152-153 | persisting the scans calls the hook only right before raising |
| Findings.ScansRunStep | src/robusta/core/sinks/robusta/dal/supabase_dal.py:152-153 | one iteration of the scan loop either ends the run or extends its quiet prefix |
| Findings.EvidenceRunStep | src/robusta/core/sinks/robusta/dal/supabase_dal.py:158-176 | one iteration of the evidence loop either ends the run or extends its quiet prefix |
| Findings.EvidenceRun | src/robusta/core/sinks/robusta/dal/supabase_dal.py:158-176 | the evidence loop never calls the hook |
| Findings.ScanRunOnlyScanRequests | src/robusta/core/sinks/robusta/dal/supabase_dal.py:112-142 | `persist_scan` sends only scan-result inserts and meta RPCs |
| Findings.ScansRunOnlyScanRequests | src/robusta/core/sinks/robusta/dal/supabase_dal.py:152-153 | persisting any number of scans sends only scan-result inserts and meta RPCs |
| Findings.AllScansWritesNoIssue | src/robusta/core/sinks/robusta/dal/supabase_dal.py:152-156 | a finding whose enrichments are all scans is persisted as its scans alone and writes neither issue nor evidence, whatever the backend answers |
| Findings.EvidenceInserts | src/robusta/core/sinks/robusta/dal/supabase_dal.py:158-171 | one evidence request per enrichment, in order |
| Findings.EvidenceRunBestEffort | src/robusta/core/sinks/robusta/dal/supabase_dal.py:158-176 | when every reply parses, the evidence loop sends one insert per enrichment whatever the statuses, never calling the hook or raising |
| Findings.FindingWithoutScansNeverRaises | src/robusta/core/sinks/robusta/dal/supabase_dal.py:144-185 | a finding without scans, when every reply parses, sends its evidence and then its issue, never raises, and calls the hook exactly when the issue's status is not 201 |
| Findings.EvidenceAndIssueRun | src/robusta/core/sinks/robusta/dal/supabase_dal.py:158-185 | the tail of `persist_finding` calls the hook only when it does not raise, and unless it raises its last request is the issue insert |
| Findings.EvidenceAndIssueBestEffort | src/robusta/core/sinks/robusta/dal/supabase_dal.py:158-185 | when every reply parses, the tail sends one evidence insert per other enrichment then the issue insert, never raises, and calls the hook exactly when the issue status is not 201 |
| Findings.FindingRun | src/robusta/core/sinks/robusta/dal/supabase_dal.py:144-185 | whatever the scans sent comes first and ends the run if it raised; unless the run raises or the finding is scans alone, the issue insert is the last request |
| Findings.FindingTail | src/robusta/core/sinks/robusta/dal/supabase_dal.py:155-185 | what follows the scans: they end the run when they raised or when the finding is scans alone; otherwise the evidence loop and the issue insert follow (its outcome is stated by `FindingRun` and `FindingTailBestEffort`) |
| Findings.FindingTailBestEffort | src/robusta/core/sinks/robusta/dal/supabase_dal.py:155-185 | after scans that neither raised nor called the hook, a finding that is not scans alone sends the scans' requests, its evidence and its issue, never raises, and calls the hook exactly when the issue status is not 201 |
| Findings.FindingAfterScansNeverRaises | src/robusta/core/sinks/robusta/dal/supabase_dal.py:144-185 | a finding with scans and other enrichments whose scans do not raise is persisted best-effort after the scans' requests, as above |
| Dal.Interpret | src/robusta/core/sinks/robusta/dal/supabase_dal.py:409-449 | a DELETE or RPC reply always yields a result carrying the reply's status, since the patched paths never raise on the body; any other request's reply goes through `execute()` |
| Dal.Rows | src/robusta/core/sinks/robusta/dal/supabase_dal.py:206 | each item becomes its row, in order |
| Dal.PartitionEnrichments | src/robusta/core/sinks/robusta/dal/supabase_dal.py:146-150 | the partition loop yields exactly the scan part and the other part |
| Dal.SupabaseDal.Recover | src/robusta/core/sinks/robusta/dal/supabase_dal.py:457-466 | the hook logs in again, recording the attempt time, exactly when the cooldown has passed; a failed login's exception is swallowed, and the session is taken to be kept (see below) |
| Dal.SupabaseDal.constructor | src/robusta/core/sinks/robusta/dal/supabase_dal.py:83-104 | a new DAL has its configuration, `sign_in_time = 0`, no session, and nothing sent |
| Dal.SupabaseDal.Open | src/robusta/core/sinks/robusta/dal/supabase_dal.py:83-104 | construction stores the URL, key, scope, sink name, signing key, rate limit, backend, identity service and DELETE builder it is given, starts with nothing sent, signs in at once, and fails exactly when that login is attempted and raises |
| Dal.SupabaseDal.SignIn | src/robusta/core/sinks/robusta/dal/supabase_dal.py:451-455 | the login state becomes that of one `sign_in` step, and nothing is sent to the backend |
| Dal.SupabaseDal.HandleSupabaseError | src/robusta/core/sinks/robusta/dal/supabase_dal.py:457-466 | the login state becomes the recovered one, with any login failure swallowed |
| Dal.SupabaseDal.Perform | src/robusta/core/sinks/robusta/dal/supabase_dal.py:117-123 | one request is appended to the log and checked as `Checked` describes |
| Dal.SupabaseDal.Publish | src/robusta/core/sinks/robusta/dal/supabase_dal.py:203-212 | the batch upsert has the effect of `PublishRun` |
| Dal.SupabaseDal.PersistServices | src/robusta/core/sinks/robusta/dal/supabase_dal.py:203-212 | `persist_services` has the effect of `PublishRun` on the `to_service` rows |
| Dal.SupabaseDal.PublishNodes | src/robusta/core/sinks/robusta/dal/supabase_dal.py:301-311 | `publish_nodes` has the effect of `PublishRun` on the node rows |
| Dal.SupabaseDal.PublishJobs | src/robusta/core/sinks/robusta/dal/supabase_dal.py:338-348 | `publish_jobs` has the effect of `PublishRun` on the job rows |
| Dal.SupabaseDal.PublishHelmReleases | src/robusta/core/sinks/robusta/dal/supabase_dal.py:394-406 | `publish_helm_releases` has the effect of `PublishRun` on the release rows |
| Dal.SupabaseDal.PublishNamespaces | src/robusta/core/sinks/robusta/dal/supabase_dal.py:515-525 | `publish_namespaces` has the effect of `PublishRun` on the namespace rows |
| Dal.SupabaseDal.RemoveDeletedJob | src/robusta/core/sinks/robusta/dal/supabase_dal.py:350-366 | no job changes nothing; otherwise the effect of `RemoveJobRun` |
| Dal.SupabaseDal.PublishClusterStatus | src/robusta/core/sinks/robusta/dal/supabase_dal.py:481-489 | `publish_cluster_status` has the effect of `ClusterStatusRun` |
| Dal.SupabaseDal.PublishClusterNodes | src/robusta/core/sinks/robusta/dal/supabase_dal.py:527-539 | `publish_cluster_nodes` has the effect of `ClusterNodesRun` |
| Dal.SupabaseDal.SelectActive | src/robusta/core/sinks/robusta/dal/supabase_dal.py:214-239 | a scoped select has the effect and result of `SelectRun` |
| Dal.SupabaseDal.GetActiveServices | src/robusta/core/sinks/robusta/dal/supabase_dal.py:214-239 | `get_active_services` selects the seven columns and returns the decoded services, as `SelectRun` describes |
| Dal.SupabaseDal.GetActiveNodes | src/robusta/core/sinks/robusta/dal/supabase_dal.py:258-292 | `get_active_nodes` has the effect and result of `SelectRun` on the nodes table |
| Dal.SupabaseDal.GetActiveJobs | src/robusta/core/sinks/robusta/dal/supabase_dal.py:313-328 | `get_active_jobs` has the effect and result of `SelectRun` on the jobs table |
| Dal.SupabaseDal.GetActiveHelmRelease | src/robusta/core/sinks/robusta/dal/supabase_dal.py:369-384 | `get_active_helm_release` has the effect and result of `SelectRun` on the Helm releases table |
| Dal.SupabaseDal.GetActiveNamespaces | src/robusta/core/sinks/robusta/dal/supabase_dal.py:491-506 | `get_active_namespaces` has the effect and result of `SelectRun` on the namespaces table |
| Dal.SupabaseDal.HasClusterFindings | src/robusta/core/sinks/robusta/dal/supabase_dal.py:241-256 | `has_cluster_findings` has the effect and answer of `FindingsCheckRun` |
| Dal.SupabaseDal.PersistScanBlock | src/robusta/core/sinks/robusta/dal/supabase_dal.py:113-142 | one block of `persist_scan` has the effect of `BlockRun` |
| Dal.SupabaseDal.PersistNextBlock | src/robusta/core/sinks/robusta/dal/supabase_dal.py:113-142 | one loop iteration either finishes the scan run or extends its quiet prefix |
| Dal.SupabaseDal.PersistScan | src/robusta/core/sinks/robusta/dal/supabase_dal.py:112-142 | `persist_scan` has the effect of `ScanRun`: the requests of each block in turn, stopping at the first that raises |
| Dal.SupabaseDal.PersistNextScan | src/robusta/core/sinks/robusta/dal/supabase_dal.py:152-153 | one loop iteration either finishes the scans' run or extends its quiet prefix |
| Dal.SupabaseDal.PersistScans | src/robusta/core/sinks/robusta/dal/supabase_dal.py:152-153 | the scan loop of `persist_finding` has the effect of `ScansRun` |
| Dal.SupabaseDal.PersistNextEvidence | src/robusta/core/sinks/robusta/dal/supabase_dal.py:158-176 | one loop iteration either finishes the evidence run or extends its quiet prefix |
| Dal.SupabaseDal.PersistEvidence | src/robusta/core/sinks/robusta/dal/supabase_dal.py:158-176 | the evidence loop has the effect of `EvidenceRun`: a rejected status is only logged, and only `execute()` raising stops it |
| Dal.SupabaseDal.PersistEvidenceAndIssue | src/robusta/core/sinks/robusta/dal/supabase_dal.py:158-185 | the evidence loop and then the issue insert, whose rejection calls the hook and is not raised |
| Dal.SupabaseDal.PersistFinding | src/robusta/core/sinks/robusta/dal/supabase_dal.py:144-185 | `persist_finding` has the effect of `FindingRun`: the scans, a stop when there were only scans, then the evidence and the issue |

## Left out

- How the client library encodes a table and its filters into a DELETE's base URL and query string: it is the `deleteBuilder` parameter of the DAL, so the model does not establish that the query of the DAL's own DELETE is percent-encoded; `DeleteUrl` states what is sent for any builder.
- A `Response` may pair an empty body with a parsed value. The patched paths treat an empty body as unparsed; `execute()` relies on the parsed value alone.
- HTTP transport: headers, timeouts and connection errors of the individual requests are not modelled. A request is recorded by its table, rows, filters or parameters, and its reply comes from `gateway`.
- `RobustaAuthClient._set_timeout` (lines 37-44) and the refresh-token timer thread it starts: concurrency, which this model does not cover.
- `_init_supabase_auth_client` (lines 62-80): client construction in the library; only its effect, an identity service and a session, is modelled.
- `ModelConversion.to_evidence_json` and `to_finding_json`: that module is not part of this model. Evidence and issue inserts are symbolic requests carrying the conversion's inputs.
- `NodeInfo`, `JobInfo`, `HelmRelease` and `NamespaceInfo` decoding (`from_db_row`, the explicit `NodeInfo(...)` with its `json.loads` of `node_info`): those classes are not part of this model, so the decoding is a `decode` parameter of the corresponding read.
- `ServiceInfo.get_service_key`: that class is not part of this model, so the key is the `keyOf` parameter of `PersistServices`.
- Pydantic validation of `ServiceInfo` is reduced to the checks the row decoding needs: the types of the indexed columns, and a config that is null or an object.
- Logging, including the `light_actions` count that `to_db_cluster_status` only logs: it has no effect on state.
- Auth.SignIn / Dal.SupabaseDal.Recover: what a failed login does to the identity client's session is decided by the client library, outside this code; the model assumes the old session is kept. A library that clears the session first would make the headers fall back to the project key after a failed re-login.
- Auth.SignIn: the two clock readings in `sign_in` are merged into one `now` per operation. The recorded attempt time is that reading, not a later one.
- Dal.SupabaseDal.Open: the email, password and the client objects are not modelled; the identity service stands in for them.
- JSON numbers are integers only: a float such as a scan's `_grade` (`block.score`) or a node's capacity cannot be represented, so such fields are carried as whatever `Value` the caller supplies.
- `publish_cluster_status` inserts a single dict (line 484); the model records it as an insert of a one-row batch and does not distinguish a lone dict from a one-item list.
- Messages of the exceptions raised: an operation's failure is the `raised` flag of its run, without the message text.
