/**
 * The requests SupabaseDal sends, the status codes each kind of request
 * accepts, and what one checked request does: which outcomes call the
 * recovery hook and which raise.  A `Run` records the effect of an
 * operation: the requests it sent in order, whether it called
 * `handle_supabase_error`, and whether it raised.
 */
module Requests {
  import opened Wrappers
  import opened Json
  import opened Normalizer
  import opened Codec

  const SERVICES_TABLE := "Services"
  const NODES_TABLE := "Nodes"
  const EVIDENCE_TABLE := "Evidence"
  const ISSUES_TABLE := "Issues"
  const CLUSTERS_STATUS_TABLE := "ClustersStatus"
  const JOBS_TABLE := "Jobs"
  const HELM_RELEASES_TABLE := "HelmReleases"
  const NAMESPACES_TABLE := "Namespaces"
  const UPDATE_CLUSTER_NODE_COUNT := "update_cluster_node_count"
  const SCANS_RESULT_TABLE := "ScansResults"
  const INSERT_SCAN_META := "insert_scan_meta"

  /** Statuses accepted for inserts and upserts. */
  const UPSERT_OK: set<int> := {200, 201}
  /** Statuses accepted for selects. */
  const SELECT_OK: set<int> := {200}
  /** Statuses accepted for the patched delete. */
  const DELETE_OK: set<int> := {200, 202, 204}
  /** Statuses accepted for the patched RPC. */
  const RPC_OK: set<int> := {200, 201, 204}
  /** The only status accepted for evidence and issue inserts. */
  const CREATED: set<int> := {201}

  /** An equality filter `column = value` (`.filter(column, "eq", value)` or `.eq(column, value)`). */
  datatype Filter = Eq(column: string, value: Value)

  datatype Request =
    | Insert(table: string, rows: seq<Row>, upsert: bool)
      /** `ModelConversion.to_evidence_json(...)` inserted into Evidence; the conversion is not part of this model. */
    | InsertEvidence(accountId: string, clusterId: string, sinkName: string, signingKey: string, findingId: string, enrichment: Enrichment)
      /** `ModelConversion.to_finding_json(...)` inserted into Issues; the conversion is not part of this model. */
    | InsertIssue(accountId: string, clusterId: string, finding: Finding)
    | Select(table: string, columns: seq<string>, filters: seq<Filter>, limit: Option<nat>)
    | Delete(table: string, filters: seq<Filter>, url: string)
    | Rpc(procedure: string, params: Row)

  /** The effect of an operation: requests sent in order, recovery hook called, exception raised. */
  datatype Run = Run(sent: seq<Request>, recovered: bool, raised: bool)

  /** Nothing sent, nothing called, nothing raised. */
  const Quiet := Run([], false, false)

  /** `a` followed by `b`, unless `a` raised. */
  function Then(a: Run, b: Run): (r: Run)
    ensures a.raised ==> r == a
    ensures !a.raised ==> r.sent == a.sent + b.sent && r.raised == b.raised
    ensures !a.raised ==> (r.recovered <==> a.recovered || b.recovered)
  {
    if a.raised then a else Run(a.sent + b.sent, a.recovered || b.recovered, b.raised)
  }

  /** Appending requests in two steps or in one gives the same log. */
  lemma AppendAssoc(a: seq<Request>, b: seq<Request>, c: seq<Request>)
    ensures (a + b) + c == a + (b + c)
  {
  }

  /** The run `r` after a quiet prefix `done`. */
  function Resume(done: seq<Request>, r: Run): Run {
    Run(done + r.sent, r.recovered, r.raised)
  }

  /** How a request is judged: its result was accepted, rejected by status, or never arrived because `execute()` raised. */
  datatype Verdict = Accepted | Rejected | Crashed

  function Classify(res: Option<Result>, accepted: set<int>): (v: Verdict)
    ensures v == Crashed <==> res.None?
    ensures v == Accepted <==> res.Some? && res.value.statusCode in accepted
  {
    match res
    case None => Crashed
    case Some(r) => if r.statusCode in accepted then Accepted else Rejected
  }

  /**
   * What an operation does with a rejected status: call the recovery hook
   * and raise (services, nodes, jobs, helm releases, namespaces, scans and
   * every select), call the hook only (cluster status, node count, issue),
   * or only log (evidence).
   */
  datatype Policy = RecoverAndRaise | RecoverOnly | LogOnly

  /**
   * One request and its check.  The hook is called exactly when the status
   * is rejected and the policy recovers; the operation raises when
   * `execute()` raised, or when the status is rejected under
   * RecoverAndRaise.
   */
  function Checked(req: Request, res: Option<Result>, accepted: set<int>, policy: Policy): (r: Run)
    ensures r.sent == [req]
    ensures r.recovered <==> res.Some? && res.value.statusCode !in accepted && policy != LogOnly
    ensures r.raised <==> res.None? || (res.value.statusCode !in accepted && policy == RecoverAndRaise)
  {
    match Classify(res, accepted)
    case Accepted => Run([req], false, false)
    case Crashed => Run([req], false, true)
    case Rejected => Run([req], policy != LogOnly, policy == RecoverAndRaise)
  }

  /**
   * `persist_services`, `publish_nodes`, `publish_jobs`,
   * `publish_helm_releases`, `publish_namespaces`: nothing at all for an
   * empty batch; otherwise one upsert of the whole batch, which raises
   * exactly when its body does not parse or its status is not 200 or 201,
   * and calls the hook (once) exactly in the second case.
   */
  function PublishRun(table: string, rows: seq<Row>, reply: Response): (r: Run)
    ensures rows == [] ==> r == Quiet
    ensures rows != [] ==> r.sent == [Insert(table, rows, true)]
    ensures rows != [] ==> (r.raised <==> reply.json.None? || reply.status !in UPSERT_OK)
    ensures r.recovered <==> rows != [] && reply.json.Some? && reply.status !in UPSERT_OK
    ensures r.recovered ==> r.raised
  {
    if rows == [] then Quiet
    else Checked(Insert(table, rows, true), Execute(reply), UPSERT_OK, RecoverAndRaise)
  }

  /** The tenant filters: the DAL's account, and its cluster under `clusterColumn`. */
  function TenantFilters(sc: Scope, clusterColumn: string): (fs: seq<Filter>)
    ensures |fs| == 2
    ensures Eq("account_id", Str(sc.accountId)) in fs && Eq(clusterColumn, Str(sc.cluster)) in fs
  {
    [Eq("account_id", Str(sc.accountId)), Eq(clusterColumn, Str(sc.cluster))]
  }

  /** The filters of every `get_active_*`: the tenant and `deleted = false`. */
  function ActiveFilters(sc: Scope, clusterColumn: string): (fs: seq<Filter>)
    ensures |fs| == 3
    ensures Eq("account_id", Str(sc.accountId)) in fs && Eq(clusterColumn, Str(sc.cluster)) in fs
    ensures Eq("deleted", Bool(false)) in fs
  {
    TenantFilters(sc, clusterColumn) + [Eq("deleted", Bool(false))]
  }

  /** Decodes every item of a list of rows, or fails if one is not a row or does not decode. */
  function DecodeItems<T>(items: seq<Value>, decode: Row -> Option<T>): (r: Option<seq<T>>)
    ensures r.Some? <==> forall i :: 0 <= i < |items| ==> items[i].Obj? && decode(items[i].fields).Some?
    ensures r.Some? ==> |r.value| == |items|
    ensures r.Some? ==> forall i :: 0 <= i < |items| ==> decode(items[i].fields) == Some(r.value[i])
    decreases |items|
  {
    if items == [] then Some([])
    else if !items[0].Obj? then None
    else match decode(items[0].fields)
      case None => None
      case Some(x) =>
        match DecodeItems(items[1..], decode)
        case None => None
        case Some(xs) => Some([x] + xs)
  }

  /**
   * `[decode(row) for row in data]`: a list decodes item by item; iterating
   * an empty string or dict yields no rows; a non-empty string or dict
   * yields strings, which cannot be indexed by column name; None, booleans
   * and numbers are not iterable.
   */
  function DecodeRows<T>(data: Value, decode: Row -> Option<T>): (r: Option<seq<T>>)
    ensures r.Some? ==> Len(data).Some? && |r.value| == Len(data).value
    ensures data.Arr? ==> r == DecodeItems(data.items, decode)
    ensures !data.Arr? ==> (r.Some? <==> Len(data).Some? && !Truthy(data))
  {
    match data
    case Arr(items) => DecodeItems(items, decode)
    case Str(s) => if s == "" then Some([]) else None
    case Obj(fields) => if fields == map[] then Some([]) else None
    case _ => None
  }

  /** The result of a read operation: its effect and the entities it returned. */
  datatype Fetched<T> = Fetched(run: Run, items: seq<T>)

  /**
   * Every `get_active_*`: one select scoped by the tenant and
   * `deleted = false`; the hook is called (once) exactly when the body
   * parses and the status is not 200; it raises then, and also when the
   * body does not parse or the rows do not decode; otherwise it returns
   * the decoded rows, in order.
   */
  function SelectRun<T>(sc: Scope, table: string, columns: seq<string>, clusterColumn: string,
                        decode: Row -> Option<T>, reply: Response): (f: Fetched<T>)
    ensures f.run.sent == [Select(table, columns, ActiveFilters(sc, clusterColumn), None)]
    ensures f.run.recovered <==> reply.json.Some? && reply.status != 200
    ensures f.run.raised <==>
      !(reply.json.Some? && reply.status == 200 && DecodeRows(reply.json.value, decode).Some?)
    ensures !f.run.raised ==> f.items == DecodeRows(reply.json.value, decode).value
    ensures f.run.raised ==> f.items == []
  {
    var req := Select(table, columns, ActiveFilters(sc, clusterColumn), None);
    var run := Checked(req, Execute(reply), SELECT_OK, RecoverAndRaise);
    if run.raised then Fetched(run, [])
    else match DecodeRows(reply.json.value, decode)
      case None => Fetched(Run([req], false, true), [])
      case Some(items) => Fetched(run, items)
  }

  /**
   * `has_cluster_findings`: one select of at most one issue scoped by the
   * tenant (column `cluster`); rejected statuses recover and raise; the
   * answer is whether the returned data is non-empty, and a `len` of a
   * non-container raises.
   */
  function FindingsCheckRun(sc: Scope, reply: Response): (f: Fetched<bool>)
    ensures f.run.sent == [Select(ISSUES_TABLE, ["*"], TenantFilters(sc, "cluster"), Some(1))]
    ensures f.run.recovered <==> reply.json.Some? && reply.status != 200
    ensures f.run.raised <==> !(reply.json.Some? && reply.status == 200 && Len(reply.json.value).Some?)
    ensures !f.run.raised ==> f.items == [Truthy(reply.json.value)]
  {
    var req := Select(ISSUES_TABLE, ["*"], TenantFilters(sc, "cluster"), Some(1));
    var run := Checked(req, Execute(reply), SELECT_OK, RecoverAndRaise);
    if run.raised then Fetched(run, [])
    else match Len(reply.json.value)
      case None => Fetched(Run([req], false, true), [])
      case Some(n) => Fetched(run, [n > 0])
  }

  /** The filters of `remove_deleted_job`: the tenant and the job's service key. */
  function JobKeyFilters(sc: Scope, job: KeyedModel): (fs: seq<Filter>)
    ensures |fs| == 3
    ensures Eq("account_id", Str(sc.accountId)) in fs && Eq("cluster_id", Str(sc.cluster)) in fs
    ensures Eq("service_key", Str(job.serviceKey)) in fs
  {
    TenantFilters(sc, "cluster_id") + [Eq("service_key", Str(job.serviceKey))]
  }

  /**
   * `remove_deleted_job`: nothing for no job; otherwise one patched DELETE
   * of the job's row in the tenant, sent to the builder's URL with its
   * quote marks stripped.  The patch never fails, so the operation raises,
   * and calls the hook once, exactly when the status is not 200, 202 or 204.
   */
  function RemoveJobRun(sc: Scope, job: Option<KeyedModel>, builder: Builder, reply: Response): (r: Run)
    ensures job.None? ==> r == Quiet
    ensures job.Some? ==> r.sent == [Delete(JOBS_TABLE, JobKeyFilters(sc, job.value), DeleteUrl(builder))]
    ensures job.Some? ==> (r.raised <==> reply.status !in DELETE_OK)
    ensures r.recovered <==> r.raised
  {
    if job.None? then Quiet
    else Checked(Delete(JOBS_TABLE, JobKeyFilters(sc, job.value), DeleteUrl(builder)),
                 Some(DeleteResult(reply)), DELETE_OK, RecoverAndRaise)
  }

  /**
   * `publish_cluster_status`: one upsert of the status row; a rejected
   * status calls the hook but never raises.
   */
  function ClusterStatusRun(cs: ClusterStatus, reply: Response): (r: Run)
    ensures r.sent == [Insert(CLUSTERS_STATUS_TABLE, [ToDbClusterStatus(cs)], true)]
    ensures r.recovered <==> reply.json.Some? && reply.status !in UPSERT_OK
    ensures r.raised <==> reply.json.None?
  {
    Checked(Insert(CLUSTERS_STATUS_TABLE, [ToDbClusterStatus(cs)], true), Execute(reply), UPSERT_OK, RecoverOnly)
  }

  /** The parameters of `update_cluster_node_count`. */
  function NodeCountParams(sc: Scope, nodeCount: int): (p: Row)
    ensures p.Keys == {"_account_id", "_cluster_id", "_node_count"}
    ensures p["_account_id"] == Str(sc.accountId) && p["_cluster_id"] == Str(sc.cluster)
    ensures p["_node_count"] == Int(nodeCount)
  {
    map["_account_id" := Str(sc.accountId), "_cluster_id" := Str(sc.cluster), "_node_count" := Int(nodeCount)]
  }

  /**
   * `publish_cluster_nodes`: one patched RPC; the patch never fails, so
   * the operation never raises, and calls the hook exactly when the status
   * is not 200, 201 or 204.
   */
  function ClusterNodesRun(sc: Scope, nodeCount: int, reply: Response): (r: Run)
    ensures r.sent == [Rpc(UPDATE_CLUSTER_NODE_COUNT, NodeCountParams(sc, nodeCount))]
    ensures r.recovered <==> reply.status !in RPC_OK
    ensures !r.raised
  {
    Checked(Rpc(UPDATE_CLUSTER_NODE_COUNT, NodeCountParams(sc, nodeCount)), Some(RpcResult(reply)), RPC_OK, RecoverOnly)
  }
}
