/**
 * The data-access layer itself: SupabaseDal as a class whose state is the
 * login state and the requests sent so far.  Each operation is a method
 * proved against the run its specification function describes: it sends
 * exactly that run's requests, in order, raises exactly when that run
 * raises, and leaves the login state as the recovery hook leaves it when
 * (and only when) that run calls the hook.
 */
module Dal {
  import opened Wrappers
  import opened Json
  import opened Normalizer
  import opened Auth
  import opened Codec
  import opened Requests
  import opened Findings

  /** What the DAL makes of a reply: the patched paths for DELETE and RPC, `execute()` for everything else. */
  function Interpret(req: Request, reply: Response): (res: Option<Result>)
    ensures req.Delete? || req.Rpc? ==> res.Some? && res.value.statusCode == reply.status
    ensures !req.Delete? && !req.Rpc? ==> res == Execute(reply)
  {
    if req.Delete? then Some(DeleteResult(reply))
    else if req.Rpc? then Some(RpcResult(reply))
    else Execute(reply)
  }

  /** The row each item becomes, in order. */
  function Rows<T>(xs: seq<T>, toRow: T -> Row): (rows: seq<Row>)
    ensures |rows| == |xs|
    ensures forall i :: 0 <= i < |xs| ==> rows[i] == toRow(xs[i])
  {
    seq(|xs|, i requires 0 <= i < |xs| => toRow(xs[i]))
  }

  /**
   * The first loop of `persist_finding`: scan enrichments to one list,
   * the others to another, each in its original order.
   */
  method PartitionEnrichments(es: seq<Enrichment>) returns (scans: seq<Enrichment>, others: seq<Enrichment>)
    ensures scans == Scans(es) && others == NonScans(es)
  {
    scans, others := [], [];
    var i := 0;
    while i < |es|
      invariant 0 <= i <= |es|
      invariant scans == Scans(es[..i]) && others == NonScans(es[..i])
    {
      PartitionAppend(es[..i], es[i]);
      assert es[..i + 1] == es[..i] + [es[i]];
      if IsScan(es[i]) {
        scans := scans + [es[i]];
      } else {
        others := others + [es[i]];
      }
      i := i + 1;
    }
    assert es[..|es|] == es;
  }

  class SupabaseDal {
    const url: string
    const key: string
    /** The account and cluster every row and filter is scoped to. */
    const scope: Scope
    const sinkName: string
    const signingKey: string
    /** SUPABASE_LOGIN_RATE_LIMIT_SEC. */
    const rateLimit: real
    /** The backend: `gateway(n)` is the reply to the n-th request the DAL sends. */
    const gateway: nat -> Response
    /** The identity service: `identity(k)` answers the k-th login (None: the login raises). */
    const identity: nat -> Option<Session>
    /** The request builder the client library makes for a DELETE on a table with these filters. */
    const deleteBuilder: (string, seq<Filter>) -> Builder

    var signInTime: real
    var session: Option<Session>
    var logins: nat
    /** Every request sent so far, in order. */
    var sent: seq<Request>

    /** The login state `sign_in` reads and writes. */
    function LoginState(): Login
      reads this
    {
      Login(signInTime, logins, session)
    }

    /**
     * The login state after `handle_supabase_error` at clock reading `now`:
     * a new login when the cooldown is over (its failure swallowed),
     * nothing otherwise.
     */
    function Recover(l: Login, now: real): (l': Login)
      ensures now > l.signInTime + rateLimit ==>
        l'.signInTime == now && l'.attempts == l.attempts + 1
        && l'.session == (if identity(l.attempts).Some? then identity(l.attempts) else l.session)
      ensures now <= l.signInTime + rateLimit ==> l' == l
    {
      Auth.SignIn(l, now, rateLimit, identity(l.attempts)).state
    }

    /**
     * The state after a run that started with `before` sent and login state
     * `was`: the run's requests appended, and the hook's effect on the login
     * state exactly when the run called the hook.
     */
    predicate Effect(before: seq<Request>, was: Login, r: Run, now: real)
      reads this
    {
      && sent == before + r.sent
      && LoginState() == (if r.recovered then Recover(was, now) else was)
    }

    constructor (url: string, key: string, scope: Scope, sinkName: string, signingKey: string, rateLimit: real,
                 gateway: nat -> Response, identity: nat -> Option<Session>,
                 deleteBuilder: (string, seq<Filter>) -> Builder)
      ensures this.url == url && this.key == key && this.scope == scope
      ensures this.sinkName == sinkName && this.signingKey == signingKey && this.rateLimit == rateLimit
      ensures this.gateway == gateway && this.identity == identity && this.deleteBuilder == deleteBuilder
      ensures LoginState() == Login(0.0, 0, None) && sent == []
    {
      this.url := url;
      this.key := key;
      this.scope := scope;
      this.sinkName := sinkName;
      this.signingKey := signingKey;
      this.rateLimit := rateLimit;
      this.gateway := gateway;
      this.identity := identity;
      this.deleteBuilder := deleteBuilder;
      signInTime := 0.0;
      session := None;
      logins := 0;
      sent := [];
    }

    /**
     * `__init__`: `sign_in_time` starts at 0 and `sign_in` runs at once;
     * when that login raises, no DAL is made (null).
     */
    static method Open(url: string, key: string, scope: Scope, sinkName: string, signingKey: string, rateLimit: real,
                       gateway: nat -> Response, identity: nat -> Option<Session>,
                       deleteBuilder: (string, seq<Filter>) -> Builder, now: real)
      returns (dal: SupabaseDal?)
      ensures dal == null <==> now > rateLimit && identity(0).None?
      ensures dal != null ==> fresh(dal) && dal.sent == [] && dal.scope == scope && dal.gateway == gateway
      ensures dal != null ==> dal.url == url && dal.key == key && dal.sinkName == sinkName && dal.signingKey == signingKey
      ensures dal != null ==> dal.rateLimit == rateLimit && dal.identity == identity && dal.deleteBuilder == deleteBuilder
      ensures dal != null ==> dal.LoginState() == Auth.SignIn(Login(0.0, 0, None), now, rateLimit, identity(0)).state
    {
      dal := new SupabaseDal(url, key, scope, sinkName, signingKey, rateLimit, gateway, identity, deleteBuilder);
      var raised := dal.SignIn(now);
      if raised {
        dal := null;
      }
    }

    /** `sign_in`: a login exactly when the cooldown is over; nothing is sent to the backend. */
    method SignIn(now: real) returns (raised: bool)
      modifies this
      ensures var o := Auth.SignIn(old(LoginState()), now, rateLimit, identity(old(logins)));
        LoginState() == o.state && raised == o.raised
      ensures sent == old(sent)
    {
      raised := false;
      if now > signInTime + rateLimit {
        signInTime := now;
        var reply := identity(logins);
        logins := logins + 1;
        match reply
        case Some(s) => session := Some(s);
        case None => raised := true;
      }
    }

    /** `handle_supabase_error`: `sign_in`, with its failure swallowed. */
    method HandleSupabaseError(now: real)
      modifies this
      ensures LoginState() == Recover(old(LoginState()), now)
      ensures sent == old(sent)
    {
      var _ := SignIn(now);
    }

    /**
     * Sends one request, takes its reply and checks its status: a reply
     * `execute()` cannot parse raises at once; a rejected status calls the
     * hook unless the policy only logs, and raises under RecoverAndRaise.
     */
    method Perform(req: Request, accepted: set<int>, policy: Policy, now: real) returns (reply: Response, raised: bool)
      modifies this
      ensures reply == gateway(|old(sent)|)
      ensures var r := Checked(req, Interpret(req, reply), accepted, policy);
        Effect(old(sent), old(LoginState()), r, now) && raised == r.raised
    {
      reply := gateway(|sent|);
      sent := sent + [req];
      var res := Interpret(req, reply);
      if res.None? {
        return reply, true;
      }
      raised := false;
      if res.value.statusCode !in accepted {
        if policy != LogOnly {
          HandleSupabaseError(now);
        }
        raised := policy == RecoverAndRaise;
      }
    }

    /** One upsert of a whole batch, or nothing for an empty batch. */
    method Publish(table: string, rows: seq<Row>, now: real) returns (raised: bool)
      modifies this
      ensures var r := PublishRun(table, rows, gateway(|old(sent)|));
        Effect(old(sent), old(LoginState()), r, now) && raised == r.raised
    {
      if rows == [] {
        return false;
      }
      var _, r := Perform(Insert(table, rows, true), UPSERT_OK, RecoverAndRaise, now);
      raised := r;
    }

    /** `persist_services`: every service as a row, upserted in one batch. */
    method PersistServices(services: seq<ServiceInfo>, keyOf: ServiceInfo -> string, now: real) returns (raised: bool)
      modifies this
      ensures var r := PublishRun(SERVICES_TABLE, Rows(services, s => ToService(scope, s, keyOf(s))), gateway(|old(sent)|));
        Effect(old(sent), old(LoginState()), r, now) && raised == r.raised
    {
      raised := Publish(SERVICES_TABLE, Rows(services, s => ToService(scope, s, keyOf(s))), now);
    }

    /** `publish_nodes`. */
    method PublishNodes(nodes: seq<Model>, now: real) returns (raised: bool)
      modifies this
      ensures var r := PublishRun(NODES_TABLE, Rows(nodes, m => ToDbNode(scope, m)), gateway(|old(sent)|));
        Effect(old(sent), old(LoginState()), r, now) && raised == r.raised
    {
      raised := Publish(NODES_TABLE, Rows(nodes, m => ToDbNode(scope, m)), now);
    }

    /** `publish_jobs`. */
    method PublishJobs(jobs: seq<KeyedModel>, now: real) returns (raised: bool)
      modifies this
      ensures var r := PublishRun(JOBS_TABLE, Rows(jobs, j => ToDbJob(scope, j)), gateway(|old(sent)|));
        Effect(old(sent), old(LoginState()), r, now) && raised == r.raised
    {
      raised := Publish(JOBS_TABLE, Rows(jobs, j => ToDbJob(scope, j)), now);
    }

    /** `publish_helm_releases`. */
    method PublishHelmReleases(releases: seq<KeyedModel>, now: real) returns (raised: bool)
      modifies this
      ensures var r := PublishRun(HELM_RELEASES_TABLE, Rows(releases, h => ToDbHelmRelease(scope, h)), gateway(|old(sent)|));
        Effect(old(sent), old(LoginState()), r, now) && raised == r.raised
    {
      raised := Publish(HELM_RELEASES_TABLE, Rows(releases, h => ToDbHelmRelease(scope, h)), now);
    }

    /** `publish_namespaces`. */
    method PublishNamespaces(namespaces: seq<Model>, now: real) returns (raised: bool)
      modifies this
      ensures var r := PublishRun(NAMESPACES_TABLE, Rows(namespaces, m => ToDbNamespace(scope, m)), gateway(|old(sent)|));
        Effect(old(sent), old(LoginState()), r, now) && raised == r.raised
    {
      raised := Publish(NAMESPACES_TABLE, Rows(namespaces, m => ToDbNamespace(scope, m)), now);
    }

    /** `remove_deleted_job`: nothing for no job, otherwise the patched DELETE of its row. */
    method RemoveDeletedJob(job: Option<KeyedModel>, now: real) returns (raised: bool)
      modifies this
      ensures job.None? ==> Effect(old(sent), old(LoginState()), Quiet, now) && !raised
      ensures job.Some? ==>
        var r := RemoveJobRun(scope, job, deleteBuilder(JOBS_TABLE, JobKeyFilters(scope, job.value)), gateway(|old(sent)|));
        Effect(old(sent), old(LoginState()), r, now) && raised == r.raised
    {
      if job.None? {
        return false;
      }
      var filters := JobKeyFilters(scope, job.value);
      var url := DeleteUrl(deleteBuilder(JOBS_TABLE, filters));
      var _, r := Perform(Delete(JOBS_TABLE, filters, url), DELETE_OK, RecoverAndRaise, now);
      raised := r;
    }

    /** `publish_cluster_status`: a rejected status calls the hook and is not raised. */
    method PublishClusterStatus(cs: ClusterStatus, now: real) returns (raised: bool)
      modifies this
      ensures var r := ClusterStatusRun(cs, gateway(|old(sent)|));
        Effect(old(sent), old(LoginState()), r, now) && raised == r.raised
    {
      var _, r := Perform(Insert(CLUSTERS_STATUS_TABLE, [ToDbClusterStatus(cs)], true), UPSERT_OK, RecoverOnly, now);
      raised := r;
    }

    /** `publish_cluster_nodes`: the patched RPC; it never raises. */
    method PublishClusterNodes(nodeCount: int, now: real)
      modifies this
      ensures Effect(old(sent), old(LoginState()), ClusterNodesRun(scope, nodeCount, gateway(|old(sent)|)), now)
    {
      var _, _ := Perform(Rpc(UPDATE_CLUSTER_NODE_COUNT, NodeCountParams(scope, nodeCount)), RPC_OK, RecoverOnly, now);
    }

    /** The select every `get_active_*` sends, and the decoding of its rows. */
    method SelectActive<T>(table: string, columns: seq<string>, clusterColumn: string,
                           decode: Row -> Option<T>, now: real) returns (items: seq<T>, raised: bool)
      modifies this
      ensures var f := SelectRun(scope, table, columns, clusterColumn, decode, gateway(|old(sent)|));
        Effect(old(sent), old(LoginState()), f.run, now) && raised == f.run.raised && items == f.items
    {
      var reply, r := Perform(Select(table, columns, ActiveFilters(scope, clusterColumn), None), SELECT_OK, RecoverAndRaise, now);
      if r {
        return [], true;
      }
      var rows := DecodeRows(reply.json.value, decode);
      if rows.None? {
        return [], true;
      }
      items, raised := rows.value, false;
    }

    /** `get_active_services`: the seven columns the decoding needs, scoped by column `cluster`. */
    method GetActiveServices(now: real) returns (services: seq<ServiceInfo>, raised: bool)
      modifies this
      ensures var f := SelectRun(scope, SERVICES_TABLE, SERVICE_COLUMNS, "cluster", DecodeService, gateway(|old(sent)|));
        Effect(old(sent), old(LoginState()), f.run, now) && raised == f.run.raised && services == f.items
    {
      services, raised := SelectActive(SERVICES_TABLE, SERVICE_COLUMNS, "cluster", DecodeService, now);
    }

    /** `get_active_nodes`, with the row decoding given as `decode`. */
    method GetActiveNodes<T>(decode: Row -> Option<T>, now: real) returns (nodes: seq<T>, raised: bool)
      modifies this
      ensures var f := SelectRun(scope, NODES_TABLE, ["*"], "cluster_id", decode, gateway(|old(sent)|));
        Effect(old(sent), old(LoginState()), f.run, now) && raised == f.run.raised && nodes == f.items
    {
      nodes, raised := SelectActive(NODES_TABLE, ["*"], "cluster_id", decode, now);
    }

    /** `get_active_jobs`, with `JobInfo.from_db_row` given as `decode`. */
    method GetActiveJobs<T>(decode: Row -> Option<T>, now: real) returns (jobs: seq<T>, raised: bool)
      modifies this
      ensures var f := SelectRun(scope, JOBS_TABLE, ["*"], "cluster_id", decode, gateway(|old(sent)|));
        Effect(old(sent), old(LoginState()), f.run, now) && raised == f.run.raised && jobs == f.items
    {
      jobs, raised := SelectActive(JOBS_TABLE, ["*"], "cluster_id", decode, now);
    }

    /** `get_active_helm_release`, with `HelmRelease.from_db_row` given as `decode`. */
    method GetActiveHelmRelease<T>(decode: Row -> Option<T>, now: real) returns (releases: seq<T>, raised: bool)
      modifies this
      ensures var f := SelectRun(scope, HELM_RELEASES_TABLE, ["*"], "cluster_id", decode, gateway(|old(sent)|));
        Effect(old(sent), old(LoginState()), f.run, now) && raised == f.run.raised && releases == f.items
    {
      releases, raised := SelectActive(HELM_RELEASES_TABLE, ["*"], "cluster_id", decode, now);
    }

    /** `get_active_namespaces`, with `NamespaceInfo.from_db_row` given as `decode`. */
    method GetActiveNamespaces<T>(decode: Row -> Option<T>, now: real) returns (namespaces: seq<T>, raised: bool)
      modifies this
      ensures var f := SelectRun(scope, NAMESPACES_TABLE, ["*"], "cluster_id", decode, gateway(|old(sent)|));
        Effect(old(sent), old(LoginState()), f.run, now) && raised == f.run.raised && namespaces == f.items
    {
      namespaces, raised := SelectActive(NAMESPACES_TABLE, ["*"], "cluster_id", decode, now);
    }

    /** `has_cluster_findings`. */
    method HasClusterFindings(now: real) returns (found: bool, raised: bool)
      modifies this
      ensures var f := FindingsCheckRun(scope, gateway(|old(sent)|));
        Effect(old(sent), old(LoginState()), f.run, now) && raised == f.run.raised
      ensures !raised ==> [found] == FindingsCheckRun(scope, gateway(|old(sent)|)).items
    {
      var req := Select(ISSUES_TABLE, ["*"], TenantFilters(scope, "cluster"), Some(1));
      var reply, r := Perform(req, SELECT_OK, RecoverAndRaise, now);
      if r {
        return false, true;
      }
      var n := Len(reply.json.value);
      if n.None? {
        return false, true;
      }
      found, raised := n.value > 0, false;
    }

    /**
     * One iteration of `persist_scan`: skip a block that is not a scan
     * report; otherwise insert its rows and then send its meta RPC, a
     * rejected status on either calling the hook and raising.
     */
    method PersistScanBlock(b: Block, now: real) returns (raised: bool)
      modifies this
      ensures var r := BlockRun(scope, b, gateway, |old(sent)|);
        Effect(old(sent), old(LoginState()), r, now) && raised == r.raised
    {
      if !b.ScanReportBlock? {
        return false;
      }
      var _, r1 := Perform(ScanInsert(scope, b), UPSERT_OK, RecoverAndRaise, now);
      if r1 {
        return true;
      }
      var _, r2 := Perform(ScanMeta(scope, b), RPC_OK, RecoverAndRaise, now);
      raised := r2;
    }

    /**
     * One iteration of `persist_scan`'s loop, entered after the quiet
     * prefix `done` of the run `goal` (started with `base` sent and login
     * state `was`): the i-th block either ends that run or extends the
     * prefix, returned as `done'` with the position `n'` it reaches.
     */
    method PersistNextBlock(e: Enrichment, i: nat, ghost base: seq<Request>, ghost was: Login,
                            ghost done: seq<Request>, ghost n: nat, ghost goal: Run, now: real)
      returns (raised: bool, ghost done': seq<Request>, ghost n': nat)
      requires i < |e.blocks|
      requires sent == base + done && n == |sent| && LoginState() == was
      requires goal == Resume(done, ScanRun(scope, e.blocks, i, gateway, n))
      modifies this
      ensures raised ==> Effect(base, was, goal, now) && goal.raised
      ensures !raised ==> sent == base + done' && n' == |sent| && LoginState() == was
      ensures !raised ==> goal == Resume(done', ScanRun(scope, e.blocks, i + 1, gateway, n'))
    {
      ghost var step := BlockRun(scope, e.blocks[i], gateway, n);
      ScanRunStep(scope, e.blocks, i, gateway, n, done);
      raised := PersistScanBlock(e.blocks[i], now);
      done' := done + step.sent;
      n' := n + |step.sent|;
    }

    /** `persist_scan`: every block of the enrichment in turn, stopping at the first that raises. */
    method PersistScan(e: Enrichment, now: real) returns (raised: bool)
      modifies this
      ensures var r := ScanRun(scope, e.blocks, 0, gateway, |old(sent)|);
        Effect(old(sent), old(LoginState()), r, now) && raised == r.raised
    {
      ghost var goal := ScanRun(scope, e.blocks, 0, gateway, |sent|);
      ghost var done: seq<Request> := [];
      ghost var n := |sent|;
      var i := 0;
      while i < |e.blocks|
        invariant 0 <= i <= |e.blocks|
        invariant sent == old(sent) + done && n == |sent| && LoginState() == old(LoginState())
        invariant goal == Resume(done, ScanRun(scope, e.blocks, i, gateway, n))
      {
        raised, done, n := PersistNextBlock(e, i, old(sent), old(LoginState()), done, n, goal, now);
        if raised {
          return;
        }
        i := i + 1;
      }
      raised := false;
    }

    /**
     * One iteration of the scan loop of `persist_finding`, entered after the
     * quiet prefix `done` of the run `goal`: `persist_scan` for the i-th
     * scan either ends that run or extends the prefix.
     */
    method PersistNextScan(scans: seq<Enrichment>, i: nat, ghost base: seq<Request>, ghost was: Login,
                           ghost done: seq<Request>, ghost n: nat, ghost goal: Run, now: real)
      returns (raised: bool, ghost done': seq<Request>, ghost n': nat)
      requires i < |scans|
      requires sent == base + done && n == |sent| && LoginState() == was
      requires goal == Resume(done, ScansRun(scope, scans, i, gateway, n))
      modifies this
      ensures raised ==> Effect(base, was, goal, now) && goal.raised
      ensures !raised ==> sent == base + done' && n' == |sent| && LoginState() == was
      ensures !raised ==> goal == Resume(done', ScansRun(scope, scans, i + 1, gateway, n'))
    {
      ghost var step := ScanRun(scope, scans[i].blocks, 0, gateway, n);
      raised := PersistScan(scans[i], now);
      ScansRunStep(scope, scans, i, gateway, n, done);
      done' := done + step.sent;
      n' := n + |step.sent|;
    }

    /** The second loop of `persist_finding`: `persist_scan` for each scan enrichment, stopping at the first that raises. */
    method PersistScans(scans: seq<Enrichment>, now: real) returns (raised: bool)
      modifies this
      ensures var r := ScansRun(scope, scans, 0, gateway, |old(sent)|);
        Effect(old(sent), old(LoginState()), r, now) && raised == r.raised
    {
      ghost var goal := ScansRun(scope, scans, 0, gateway, |sent|);
      ghost var done: seq<Request> := [];
      ghost var n := |sent|;
      var i := 0;
      while i < |scans|
        invariant 0 <= i <= |scans|
        invariant sent == old(sent) + done && n == |sent| && LoginState() == old(LoginState())
        invariant goal == Resume(done, ScansRun(scope, scans, i, gateway, n))
      {
        raised, done, n := PersistNextScan(scans, i, old(sent), old(LoginState()), done, n, goal, now);
        if raised {
          return;
        }
        i := i + 1;
      }
      raised := false;
    }

    /**
     * One iteration of the evidence loop of `persist_finding`, entered after
     * the quiet prefix `done` of the run `goal`: the i-th insert either ends
     * that run (`execute()` raised) or extends the prefix.
     */
    method PersistNextEvidence(findingId: string, es: seq<Enrichment>, i: nat, ghost base: seq<Request>, ghost was: Login,
                               ghost done: seq<Request>, ghost n: nat, ghost goal: Run, now: real)
      returns (raised: bool, ghost done': seq<Request>, ghost n': nat)
      requires i < |es|
      requires sent == base + done && n == |sent| && LoginState() == was
      requires goal == Resume(done, EvidenceRun(scope, sinkName, signingKey, findingId, es, i, gateway, n))
      modifies this
      ensures raised ==> Effect(base, was, goal, now) && goal.raised
      ensures !raised ==> sent == base + done' && n' == |sent| && LoginState() == was
      ensures !raised ==> goal == Resume(done', EvidenceRun(scope, sinkName, signingKey, findingId, es, i + 1, gateway, n'))
    {
      var req := EvidenceInsert(scope, sinkName, signingKey, findingId, es[i]);
      var _, r := Perform(req, CREATED, LogOnly, now);
      EvidenceRunStep(scope, sinkName, signingKey, findingId, es, i, gateway, n, done);
      raised := r;
      done' := done + [req];
      n' := n + 1;
    }

    /**
     * The evidence loop of `persist_finding`: one insert per enrichment; a
     * rejected status is only logged; the loop stops only when `execute()`
     * raises.
     */
    method PersistEvidence(findingId: string, es: seq<Enrichment>, now: real) returns (raised: bool)
      modifies this
      ensures var r := EvidenceRun(scope, sinkName, signingKey, findingId, es, 0, gateway, |old(sent)|);
        Effect(old(sent), old(LoginState()), r, now) && raised == r.raised
    {
      ghost var goal := EvidenceRun(scope, sinkName, signingKey, findingId, es, 0, gateway, |sent|);
      ghost var done: seq<Request> := [];
      ghost var n := |sent|;
      var i := 0;
      while i < |es|
        invariant 0 <= i <= |es|
        invariant sent == old(sent) + done && n == |sent| && LoginState() == old(LoginState())
        invariant goal == Resume(done, EvidenceRun(scope, sinkName, signingKey, findingId, es, i, gateway, n))
      {
        raised, done, n := PersistNextEvidence(findingId, es, i, old(sent), old(LoginState()), done, n, goal, now);
        if raised {
          return;
        }
        i := i + 1;
      }
      raised := false;
    }

    /** The evidence loop of `persist_finding` followed by the insert of the finding as an issue. */
    method PersistEvidenceAndIssue(f: Finding, others: seq<Enrichment>, now: real) returns (raised: bool)
      modifies this
      ensures var r := EvidenceAndIssueRun(scope, sinkName, signingKey, f, others, gateway, |old(sent)|);
        Effect(old(sent), old(LoginState()), r, now) && raised == r.raised
    {
      raised := PersistEvidence(f.id, others, now);
      if raised {
        return;
      }
      var _, r := Perform(IssueInsert(scope, f), CREATED, RecoverOnly, now);
      raised := r;
    }

    /**
     * `persist_finding`: partition the enrichments, persist each scan,
     * stop if there were scans and nothing else, then insert the evidence
     * and the issue.
     */
    method PersistFinding(f: Finding, now: real) returns (raised: bool)
      modifies this
      ensures var r := FindingRun(scope, sinkName, signingKey, f, gateway, |old(sent)|);
        Effect(old(sent), old(LoginState()), r, now) && raised == r.raised
    {
      var scans, others := PartitionEnrichments(f.enrichments);
      ghost var sr := ScansRun(scope, scans, 0, gateway, |sent|);
      ghost var r := FindingRun(scope, sinkName, signingKey, f, gateway, |sent|);
      ghost var was := LoginState();
      assert r == FindingTail(scope, sinkName, signingKey, f, sr, gateway, |sent|);
      raised := PersistScans(scans, now);
      if raised || (|scans| > 0 && |others| == 0) {
        assert r == sr;
        return;
      }
      assert !sr.recovered && LoginState() == was;
      ghost var mid := sent;
      ghost var tail := EvidenceAndIssueRun(scope, sinkName, signingKey, f, others, gateway, |mid|);
      assert r == Then(sr, tail);
      raised := PersistEvidenceAndIssue(f, others, now);
      AppendAssoc(old(sent), sr.sent, tail.sent);
    }
  }
}
