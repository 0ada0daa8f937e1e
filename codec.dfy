/**
 * The entity codec of SupabaseDal: the `to_*` / `__to_db_*` builders that
 * turn a domain entity into a wire row scoped to the DAL's tenant, and the
 * explicit row decoding of `get_active_services`.
 *
 * Entities whose classes are not part of this model are seen only through
 * what the builders call on them: `.dict()` and, for jobs and helm
 * releases, `.get_service_key()`.
 */
module Codec {
  import opened Wrappers
  import opened Json

  /** The tenant every row is scoped to: the DAL's account and cluster. */
  datatype Scope = Scope(accountId: string, cluster: string)

  /** The "now()" sentinel the backend replaces with its own clock. */
  const NOW: Value := Str("now()")

  /** A model seen through `.dict()` (NodeInfo, NamespaceInfo, ScanReportRow). */
  datatype Model = Model(dict: Row)

  /** A model seen through `.dict()` and `.get_service_key()` (JobInfo, HelmRelease). */
  datatype KeyedModel = KeyedModel(dict: Row, serviceKey: string)

  /** ServiceInfo, with the fields the service row is built from. */
  datatype ServiceInfo = ServiceInfo(
    name: string,
    serviceType: string,
    namespace: string,
    classification: string,
    deleted: bool,
    config: Option<Row>,  // `service_config.dict()`, or None
    totalPods: int,
    readyPods: int)

  /** ClusterStatus: its `.dict()` apart from `last_alert_at`, and `last_alert_at`. */
  datatype ClusterStatus = ClusterStatus(fields: Row, lastAlertAt: Option<string>)

  /** `.dict()` of a ClusterStatus: pydantic always includes `last_alert_at`, None when unset. */
  function StatusDict(cs: ClusterStatus): (d: Row)
    ensures "last_alert_at" in d
    ensures d["last_alert_at"] == if cs.lastAlertAt.Some? then Str(cs.lastAlertAt.value) else Null
    ensures forall k :: k in cs.fields && k != "last_alert_at" ==> k in d && d[k] == cs.fields[k]
  {
    cs.fields["last_alert_at" := if cs.lastAlertAt.Some? then Str(cs.lastAlertAt.value) else Null]
  }

  /** The columns `get_active_services` selects. */
  const SERVICE_COLUMNS: seq<string> := ["name", "type", "namespace", "classification", "config", "ready_pods", "total_pods"]

  /** The keys of a service row. */
  const SERVICE_ROW_KEYS: set<string> := {
    "name", "type", "namespace", "classification", "cluster", "account_id",
    "deleted", "service_key", "config", "total_pods", "ready_pods", "update_time"}

  function ConfigValue(config: Option<Row>): Value {
    if config.Some? then Obj(config.value) else Null
  }

  /**
   * `to_service`: the service's own fields under their column names, the
   * tenant under `account_id` and `cluster`, the service key, and the
   * `update_time` sentinel.
   */
  function ToService(sc: Scope, s: ServiceInfo, serviceKey: string): (r: Row)
    ensures r.Keys == SERVICE_ROW_KEYS
    ensures r["account_id"] == Str(sc.accountId) && r["cluster"] == Str(sc.cluster)
    ensures r["service_key"] == Str(serviceKey) && r["update_time"] == NOW
    ensures r["deleted"] == Bool(s.deleted)
    ensures r["name"] == Str(s.name) && r["type"] == Str(s.serviceType)
    ensures r["namespace"] == Str(s.namespace) && r["classification"] == Str(s.classification)
    ensures r["ready_pods"] == Int(s.readyPods) && r["total_pods"] == Int(s.totalPods)
    ensures r["config"] == ConfigValue(s.config)
  {
    map[
      "name" := Str(s.name),
      "type" := Str(s.serviceType),
      "namespace" := Str(s.namespace),
      "classification" := Str(s.classification),
      "cluster" := Str(sc.cluster),
      "account_id" := Str(sc.accountId),
      "deleted" := Bool(s.deleted),
      "service_key" := Str(serviceKey),
      "config" := ConfigValue(s.config),
      "total_pods" := Int(s.totalPods),
      "ready_pods" := Int(s.readyPods),
      "update_time" := NOW]
  }

  /** `__to_db_scanResult`: the row's dict with the tenant under `account_id` and `cluster_id`; every other field kept. */
  function ToDbScanResult(sc: Scope, m: Model): (r: Row)
    ensures r.Keys == m.dict.Keys + {"account_id", "cluster_id"}
    ensures r["account_id"] == Str(sc.accountId) && r["cluster_id"] == Str(sc.cluster)
    ensures forall k :: k in m.dict && k != "account_id" && k != "cluster_id" ==> r[k] == m.dict[k]
  {
    m.dict["account_id" := Str(sc.accountId)]["cluster_id" := Str(sc.cluster)]
  }

  /** `__to_db_node`: the node's dict with the tenant and the `updated_at` sentinel; every other field kept. */
  function ToDbNode(sc: Scope, m: Model): (r: Row)
    ensures r.Keys == m.dict.Keys + {"account_id", "cluster_id", "updated_at"}
    ensures r["account_id"] == Str(sc.accountId) && r["cluster_id"] == Str(sc.cluster)
    ensures r["updated_at"] == NOW
    ensures forall k :: k in m.dict && k != "account_id" && k != "cluster_id" && k != "updated_at" ==> r[k] == m.dict[k]
  {
    m.dict["account_id" := Str(sc.accountId)]["cluster_id" := Str(sc.cluster)]["updated_at" := NOW]
  }

  /** `__to_db_job`: the job's dict with the tenant, its service key and the `updated_at` sentinel; every other field kept. */
  function ToDbJob(sc: Scope, j: KeyedModel): (r: Row)
    ensures r.Keys == j.dict.Keys + {"account_id", "cluster_id", "service_key", "updated_at"}
    ensures r["account_id"] == Str(sc.accountId) && r["cluster_id"] == Str(sc.cluster)
    ensures r["service_key"] == Str(j.serviceKey) && r["updated_at"] == NOW
    ensures forall k :: k in j.dict && k != "account_id" && k != "cluster_id" && k != "service_key" && k != "updated_at" ==>
      r[k] == j.dict[k]
  {
    j.dict["account_id" := Str(sc.accountId)]["cluster_id" := Str(sc.cluster)]
          ["service_key" := Str(j.serviceKey)]["updated_at" := NOW]
  }

  /** `__to_db_helm_release`: the release's dict with the tenant, its service key and the `updated_at` sentinel; every other field kept. */
  function ToDbHelmRelease(sc: Scope, h: KeyedModel): (r: Row)
    ensures r.Keys == h.dict.Keys + {"account_id", "cluster_id", "service_key", "updated_at"}
    ensures r["account_id"] == Str(sc.accountId) && r["cluster_id"] == Str(sc.cluster)
    ensures r["service_key"] == Str(h.serviceKey) && r["updated_at"] == NOW
    ensures forall k :: k in h.dict && k != "account_id" && k != "cluster_id" && k != "service_key" && k != "updated_at" ==>
      r[k] == h.dict[k]
  {
    h.dict["account_id" := Str(sc.accountId)]["cluster_id" := Str(sc.cluster)]
          ["service_key" := Str(h.serviceKey)]["updated_at" := NOW]
  }

  /** `__to_db_namespace`: the namespace's dict with the tenant and the `updated_at` sentinel; every other field kept. */
  function ToDbNamespace(sc: Scope, m: Model): (r: Row)
    ensures r.Keys == m.dict.Keys + {"account_id", "cluster_id", "updated_at"}
    ensures r["account_id"] == Str(sc.accountId) && r["cluster_id"] == Str(sc.cluster)
    ensures r["updated_at"] == NOW
    ensures forall k :: k in m.dict && k != "account_id" && k != "cluster_id" && k != "updated_at" ==> r[k] == m.dict[k]
  {
    m.dict["account_id" := Str(sc.accountId)]["cluster_id" := Str(sc.cluster)]["updated_at" := NOW]
  }

  /**
   * `to_db_cluster_status`: the status's dict without `last_alert_at` exactly
   * when that is None, with the `updated_at` sentinel; every other field kept.
   */
  function ToDbClusterStatus(cs: ClusterStatus): (r: Row)
    ensures "last_alert_at" in r <==> cs.lastAlertAt.Some?
    ensures cs.lastAlertAt.Some? ==> r["last_alert_at"] == Str(cs.lastAlertAt.value)
    ensures "updated_at" in r && r["updated_at"] == NOW
    ensures forall k :: k in cs.fields && k != "last_alert_at" && k != "updated_at" ==> k in r && r[k] == cs.fields[k]
    ensures forall k :: k in r ==> k in cs.fields || k == "last_alert_at" || k == "updated_at"
  {
    var d := StatusDict(cs);
    var kept := if cs.lastAlertAt.None? then d - {"last_alert_at"} else d;
    kept["updated_at" := NOW]
  }

  // ---------------------------------------------------------------------
  // Findings as persist_finding sees them
  // ---------------------------------------------------------------------

  /** The enrichment annotations that matter here: the scan flag, and any other. */
  datatype Annotation = ScanAnnotation | OtherAnnotation(name: string)

  /** An enrichment block: a scan report with its result rows, or any other block. */
  datatype Block =
    | ScanReportBlock(scanId: string, startTime: string, endTime: string, scanType: string, score: Value, results: seq<Model>)
    | OtherBlock

  datatype Enrichment = Enrichment(annotations: map<Annotation, Value>, blocks: seq<Block>)

  datatype Finding = Finding(id: string, enrichments: seq<Enrichment>)

  /** `enrich.annotations.get(EnrichmentAnnotation.SCAN, False)` is truthy. */
  predicate IsScan(e: Enrichment)
    ensures ScanAnnotation !in e.annotations ==> !IsScan(e)
    ensures ScanAnnotation in e.annotations && e.annotations[ScanAnnotation] == Bool(true) ==> IsScan(e)
    ensures ScanAnnotation in e.annotations && e.annotations[ScanAnnotation] in {Null, Bool(false)} ==> !IsScan(e)
  {
    ScanAnnotation in e.annotations && Truthy(e.annotations[ScanAnnotation])
  }

  // ---------------------------------------------------------------------
  // Decoding the rows get_active_services receives
  // ---------------------------------------------------------------------

  /** `service.get("config")` handed to ServiceInfo: missing or null is None, an object is a config, anything else fails validation. */
  function DecodeConfig(row: Row): (c: Option<Option<Row>>)
    ensures "config" !in row ==> c == Some(None)
    ensures "config" in row ==> (c.Some? <==> (row["config"].Null? || row["config"].Obj?))
    ensures "config" in row && row["config"].Null? ==> c == Some(None)
    ensures "config" in row && row["config"].Obj? ==> c == Some(Some(row["config"].fields))
  {
    if "config" !in row then Some(None)
    else match row["config"]
      case Null => Some(None)
      case Obj(m) => Some(Some(m))
      case _ => None
  }

  /** The columns `get_active_services` indexes directly: a missing one raises KeyError. */
  predicate HasServiceColumns(row: Row) {
    && "name" in row && row["name"].Str?
    && "type" in row && row["type"].Str?
    && "namespace" in row && row["namespace"].Str?
    && "classification" in row && row["classification"].Str?
    && "ready_pods" in row && row["ready_pods"].Int?
    && "total_pods" in row && row["total_pods"].Int?
  }

  /**
   * The ServiceInfo `get_active_services` builds from one row: defined
   * exactly when the indexed columns are there with the right types and the
   * config validates; `deleted` takes its default, false.
   */
  function DecodeService(row: Row): (r: Option<ServiceInfo>)
    ensures r.Some? <==> HasServiceColumns(row) && DecodeConfig(row).Some?
    ensures r.Some? ==> !r.value.deleted && r.value.config == DecodeConfig(row).value
    ensures r.Some? ==> Str(r.value.name) == row["name"] && Str(r.value.serviceType) == row["type"]
    ensures r.Some? ==> Str(r.value.namespace) == row["namespace"] && Str(r.value.classification) == row["classification"]
    ensures r.Some? ==> Int(r.value.readyPods) == row["ready_pods"] && Int(r.value.totalPods) == row["total_pods"]
  {
    if HasServiceColumns(row) && DecodeConfig(row).Some? then
      Some(ServiceInfo(
        row["name"].s, row["type"].s, row["namespace"].s, row["classification"].s,
        false, DecodeConfig(row).value, row["total_pods"].i, row["ready_pods"].i))
    else None
  }

  /** The row the backend returns for a select of `columns`: only those columns. */
  function Project(row: Row, columns: seq<string>): (r: Row)
    ensures r.Keys == row.Keys * set c | c in columns
    ensures forall k :: k in r ==> r[k] == row[k]
  {
    map k | k in row && k in columns :: row[k]
  }

  /** The columns `get_active_services` selects from a row `to_service` wrote hold the service's own values. */
  lemma ProjectedService(sc: Scope, s: ServiceInfo, serviceKey: string)
    ensures var p := Project(ToService(sc, s, serviceKey), SERVICE_COLUMNS);
      && "name" in p && p["name"] == Str(s.name)
      && "type" in p && p["type"] == Str(s.serviceType)
      && "namespace" in p && p["namespace"] == Str(s.namespace)
      && "classification" in p && p["classification"] == Str(s.classification)
      && "config" in p && p["config"] == ConfigValue(s.config)
      && "ready_pods" in p && p["ready_pods"] == Int(s.readyPods)
      && "total_pods" in p && p["total_pods"] == Int(s.totalPods)
  {
    assert SERVICE_COLUMNS[0] == "name" && SERVICE_COLUMNS[1] == "type" && SERVICE_COLUMNS[2] == "namespace";
    assert SERVICE_COLUMNS[3] == "classification" && SERVICE_COLUMNS[4] == "config";
    assert SERVICE_COLUMNS[5] == "ready_pods" && SERVICE_COLUMNS[6] == "total_pods";
  }

  /**
   * Round trip: a service that is not deleted, written with `to_service`
   * and read back through the columns `get_active_services` selects,
   * decodes to itself.
   */
  lemma ServiceRoundTrip(sc: Scope, s: ServiceInfo, serviceKey: string)
    requires !s.deleted
    ensures DecodeService(Project(ToService(sc, s, serviceKey), SERVICE_COLUMNS)) == Some(s)
  {
    ProjectedService(sc, s, serviceKey);
    var p := Project(ToService(sc, s, serviceKey), SERVICE_COLUMNS);
    assert HasServiceColumns(p);
    assert DecodeConfig(p) == Some(s.config);
  }
}
