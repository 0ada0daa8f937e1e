/**
 * `persist_scan` and `persist_finding` as functions of the gateway's
 * replies: `gateway(n + i)` answers the i-th request of the run that
 * starts when `n` requests have been sent.
 */
module Findings {
  import opened Wrappers
  import opened Json
  import opened Normalizer
  import opened Codec
  import opened Requests

  // ---------------------------------------------------------------------
  // Partitioning the enrichments
  // ---------------------------------------------------------------------

  /** The scan enrichments, in their original order. */
  function Scans(es: seq<Enrichment>): (r: seq<Enrichment>)
    ensures |r| <= |es|
    decreases |es|
  {
    if es == [] then []
    else if IsScan(es[0]) then [es[0]] + Scans(es[1..])
    else Scans(es[1..])
  }

  /** The other enrichments, in their original order. */
  function NonScans(es: seq<Enrichment>): (r: seq<Enrichment>)
    ensures |r| <= |es|
    decreases |es|
  {
    if es == [] then []
    else if IsScan(es[0]) then NonScans(es[1..])
    else [es[0]] + NonScans(es[1..])
  }

  /** Together the two parts hold every enrichment, each exactly as often as before. */
  lemma {:induction false} PartitionCovers(es: seq<Enrichment>)
    ensures multiset(Scans(es)) + multiset(NonScans(es)) == multiset(es)
    ensures |Scans(es)| + |NonScans(es)| == |es|
    decreases |es|
  {
    if es != [] {
      PartitionCovers(es[1..]);
      assert es == [es[0]] + es[1..];
    }
  }

  /** Splitting a sequence splits both parts the same way (the loop appends one enrichment at a time). */
  lemma {:induction false} PartitionAppend(es: seq<Enrichment>, e: Enrichment)
    ensures Scans(es + [e]) == Scans(es) + (if IsScan(e) then [e] else [])
    ensures NonScans(es + [e]) == NonScans(es) + (if IsScan(e) then [] else [e])
    decreases |es|
  {
    if es == [] {
      assert es + [e] == [e];
      assert [e][1..] == [];
    } else {
      var t := es + [e];
      assert t[0] == es[0];
      assert t[1..] == es[1..] + [e];
      PartitionAppend(es[1..], e);
      if IsScan(es[0]) {
        assert Scans(t) == [es[0]] + Scans(t[1..]);
        assert Scans(es) == [es[0]] + Scans(es[1..]);
        assert NonScans(t) == NonScans(t[1..]);
      } else {
        assert NonScans(t) == [es[0]] + NonScans(t[1..]);
        assert NonScans(es) == [es[0]] + NonScans(es[1..]);
        assert Scans(t) == Scans(t[1..]);
      }
    }
  }

  // ---------------------------------------------------------------------
  // persist_scan
  // ---------------------------------------------------------------------

  /** The number of scan report blocks from position `i` on. */
  function ScanBlockCount(blocks: seq<Block>, i: nat): nat
    decreases |blocks| - i
  {
    if i >= |blocks| then 0
    else (if blocks[i].ScanReportBlock? then 1 else 0) + ScanBlockCount(blocks, i + 1)
  }

  /** The rows a scan report inserts: each result row scoped to the tenant. */
  function ScanRows(sc: Scope, b: Block): (rows: seq<Row>)
    requires b.ScanReportBlock?
    ensures |rows| == |b.results|
    ensures forall i :: 0 <= i < |rows| ==> rows[i] == ToDbScanResult(sc, b.results[i])
  {
    seq(|b.results|, i requires 0 <= i < |b.results| => ToDbScanResult(sc, b.results[i]))
  }

  const P_ACCOUNT_ID: string := "_account_id"
  const P_CLUSTER: string := "_cluster"
  const P_SCAN_ID: string := "_scan_id"
  const P_SCAN_START: string := "_scan_start"
  const P_SCAN_END: string := "_scan_end"
  const P_TYPE: string := "_type"
  const P_GRADE: string := "_grade"

  /** The parameters of `insert_scan_meta` for a scan report. */
  function ScanMetaParams(sc: Scope, b: Block): Row
    requires b.ScanReportBlock?
  {
    map[
      P_ACCOUNT_ID := Str(sc.accountId),
      P_CLUSTER := Str(sc.cluster),
      P_SCAN_ID := Str(b.scanId),
      P_SCAN_START := Str(b.startTime),
      P_SCAN_END := Str(b.endTime),
      P_TYPE := Str(b.scanType),
      P_GRADE := b.score]
  }

  /** The meta RPC carries exactly the tenant and the scan's id, times, type and grade. */
  lemma ScanMetaParamsOfBlock(sc: Scope, b: Block)
    requires b.ScanReportBlock?
    ensures var p := ScanMetaParams(sc, b);
      && p.Keys == {"_account_id", "_cluster", "_scan_id", "_scan_start", "_scan_end", "_type", "_grade"}
      && p["_account_id"] == Str(sc.accountId) && p["_cluster"] == Str(sc.cluster)
      && p["_scan_id"] == Str(b.scanId) && p["_scan_start"] == Str(b.startTime) && p["_scan_end"] == Str(b.endTime)
      && p["_type"] == Str(b.scanType) && p["_grade"] == b.score
  {
  }

  function ScanInsert(sc: Scope, b: Block): Request
    requires b.ScanReportBlock?
  {
    Insert(SCANS_RESULT_TABLE, ScanRows(sc, b), false)
  }

  function ScanMeta(sc: Scope, b: Block): Request
    requires b.ScanReportBlock?
  {
    Rpc(INSERT_SCAN_META, ScanMetaParams(sc, b))
  }

  /** True when `r` is an accepted reply to a scan-result insert. */
  predicate InsertAccepted(r: Response) {
    Classify(Execute(r), UPSERT_OK) == Accepted
  }

  /**
   * One block of `persist_scan`: nothing for a block that is not a scan
   * report; otherwise insert its rows and, only if that insert was
   * accepted, send its meta RPC.  A rejected status on either calls the
   * hook and raises.
   */
  function BlockRun(sc: Scope, b: Block, gateway: nat -> Response, n: nat): (r: Run)
    ensures r.recovered ==> r.raised
    ensures !b.ScanReportBlock? ==> r == Quiet
    ensures b.ScanReportBlock? ==> 1 <= |r.sent| <= 2 && (!r.raised ==> |r.sent| == 2)
  {
    if !b.ScanReportBlock? then Quiet
    else
      Then(Checked(ScanInsert(sc, b), Execute(gateway(n)), UPSERT_OK, RecoverAndRaise),
           Checked(ScanMeta(sc, b), Some(RpcResult(gateway(n + 1))), RPC_OK, RecoverAndRaise))
  }

  /**
   * What one scan report block does: it always sends the insert of its
   * results first; it sends the meta RPC exactly when the insert was
   * accepted; it raises exactly when the insert was not accepted or the
   * meta status is not 200, 201 or 204; and it calls the hook exactly when
   * a status was rejected (an insert reply that does not parse raises
   * without calling it).
   */
  lemma BlockRunOutcome(sc: Scope, b: Block, gateway: nat -> Response, n: nat)
    requires b.ScanReportBlock?
    ensures var r := BlockRun(sc, b, gateway, n);
      && r.sent[0] == ScanInsert(sc, b)
      && (r.sent == [ScanInsert(sc, b), ScanMeta(sc, b)] <==> InsertAccepted(gateway(n)))
      && (r.sent == [ScanInsert(sc, b)] <==> !InsertAccepted(gateway(n)))
      && (r.raised <==> !InsertAccepted(gateway(n)) || gateway(n + 1).status !in RPC_OK)
      && (r.recovered <==> (gateway(n).json.Some? && gateway(n).status !in UPSERT_OK)
                           || (InsertAccepted(gateway(n)) && gateway(n + 1).status !in RPC_OK))
  {
  }

  /**
   * `persist_scan` over an enrichment's blocks from position `i` on, the
   * first request answered by `gateway(n)`, stopping at the first block
   * that raises.  The hook is only ever called right before raising.
   */
  function ScanRun(sc: Scope, blocks: seq<Block>, i: nat, gateway: nat -> Response, n: nat): (r: Run)
    ensures r.recovered ==> r.raised
    decreases |blocks| - i
  {
    if i >= |blocks| then Quiet
    else
      var first := BlockRun(sc, blocks[i], gateway, n);
      Then(first, ScanRun(sc, blocks, i + 1, gateway, n + |first.sent|))
  }

  /** A scan run that does not raise sends exactly two requests per scan report; one that raises sends no more. */
  lemma {:induction false} ScanRunLength(sc: Scope, blocks: seq<Block>, i: nat, gateway: nat -> Response, n: nat)
    ensures var r := ScanRun(sc, blocks, i, gateway, n);
      && |r.sent| <= 2 * ScanBlockCount(blocks, i)
      && (!r.raised ==> |r.sent| == 2 * ScanBlockCount(blocks, i))
    decreases |blocks| - i
  {
    if i < |blocks| {
      var first := BlockRun(sc, blocks[i], gateway, n);
      ScanRunLength(sc, blocks, i + 1, gateway, n + |first.sent|);
    }
  }

  /** The requests of a scan run in which nothing is rejected: insert and meta for each scan report. */
  function ScanRequests(sc: Scope, blocks: seq<Block>, i: nat): (rs: seq<Request>)
    ensures |rs| == 2 * ScanBlockCount(blocks, i)
    decreases |blocks| - i
  {
    if i >= |blocks| then []
    else
      (if blocks[i].ScanReportBlock? then [ScanInsert(sc, blocks[i]), ScanMeta(sc, blocks[i])] else [])
      + ScanRequests(sc, blocks, i + 1)
  }

  /**
   * True when the replies `gateway(n)` .. `gateway(n + 2k - 1)` answer k
   * insert/meta pairs with success: each insert's reply parses with status
   * 200 or 201, and each meta RPC's reply has status 200, 201 or 204,
   * whatever its body.
   */
  predicate PairsAccepted(gateway: nat -> Response, n: nat, k: nat) {
    forall j :: n <= j < n + 2 * k && (j - n) % 2 == 0 ==> PairAccepted(gateway, j)
  }

  /** The insert answered by `gateway(m)` and the meta RPC answered by `gateway(m + 1)` both succeed. */
  predicate PairAccepted(gateway: nat -> Response, m: nat) {
    InsertAccepted(gateway(m)) && gateway(m + 1).status in RPC_OK
  }

  /**
   * When the backend accepts every request, `persist_scan` sends the insert
   * and the meta RPC of every scan report, in order, never calls the hook
   * and never raises.
   */
  lemma {:induction false} ScanRunAccepted(sc: Scope, blocks: seq<Block>, i: nat, gateway: nat -> Response, n: nat)
    requires PairsAccepted(gateway, n, ScanBlockCount(blocks, i))
    ensures ScanRun(sc, blocks, i, gateway, n) == Run(ScanRequests(sc, blocks, i), false, false)
    decreases |blocks| - i
  {
    if i < |blocks| {
      var b := blocks[i];
      if b.ScanReportBlock? {
        assert PairAccepted(gateway, n);
        var first := BlockRun(sc, b, gateway, n);
        assert first == Run([ScanInsert(sc, b), ScanMeta(sc, b)], false, false);
        forall j | n + 2 <= j < n + 2 + 2 * ScanBlockCount(blocks, i + 1) && (j - (n + 2)) % 2 == 0
          ensures PairAccepted(gateway, j)
        {
          assert (j - n) % 2 == 0;
        }
        ScanRunAccepted(sc, blocks, i + 1, gateway, n + 2);
      } else {
        ScanRunAccepted(sc, blocks, i + 1, gateway, n);
      }
    }
  }

  /**
   * One iteration of the block loop: after a quiet prefix `done`, the i-th
   * block either ends the run (it raised) or joins the prefix.
   */
  lemma ScanRunStep(sc: Scope, blocks: seq<Block>, i: nat, gateway: nat -> Response, n: nat, done: seq<Request>)
    requires i < |blocks|
    ensures var step := BlockRun(sc, blocks[i], gateway, n);
      Resume(done, ScanRun(sc, blocks, i, gateway, n))
      == if step.raised then Resume(done, step)
         else Resume(done + step.sent, ScanRun(sc, blocks, i + 1, gateway, n + |step.sent|))
  {
  }

  /**
   * Scan requests come in pairs: an insert into the scan-results table,
   * then the meta RPC, which is sent only when the insert's reply
   * (`gateway(n)` for the pair starting at `n`) was accepted; only the
   * last insert may stand alone.
   */
  predicate InsertThenMeta(s: seq<Request>, gateway: nat -> Response, n: nat)
    decreases |s|
  {
    if s == [] then true
    else
      && s[0].Insert? && s[0].table == SCANS_RESULT_TABLE
      && (|s| == 1 || (s[1].Rpc? && InsertAccepted(gateway(n)) && InsertThenMeta(s[2..], gateway, n + 2)))
  }

  /** The meta RPC of a scan is sent right after the insert of its results, and only when that insert was accepted. */
  lemma {:induction false} ScanMetaFollowsAcceptedInsert(sc: Scope, blocks: seq<Block>, i: nat, gateway: nat -> Response, n: nat)
    ensures InsertThenMeta(ScanRun(sc, blocks, i, gateway, n).sent, gateway, n)
    decreases |blocks| - i
  {
    var r := ScanRun(sc, blocks, i, gateway, n);
    if i >= |blocks| {
      assert r.sent == [];
    } else {
      var b := blocks[i];
      var first := BlockRun(sc, b, gateway, n);
      var rest := ScanRun(sc, blocks, i + 1, gateway, n + |first.sent|);
      if !b.ScanReportBlock? {
        assert r.sent == rest.sent;
        ScanMetaFollowsAcceptedInsert(sc, blocks, i + 1, gateway, n);
      } else if |first.sent| == 1 {
        assert r.sent == [ScanInsert(sc, b)];
      } else {
        assert first.sent == [ScanInsert(sc, b), ScanMeta(sc, b)];
        assert InsertAccepted(gateway(n));
        if first.raised {
          assert r.sent[2..] == [];
        } else {
          ScanMetaFollowsAcceptedInsert(sc, blocks, i + 1, gateway, n + 2);
          assert r.sent[2..] == rest.sent;
        }
      }
    }
  }

  /** Pairs of scan requests hold nothing but inserts and RPCs. */
  lemma {:induction false} InsertThenMetaOnlyScanRequests(s: seq<Request>, gateway: nat -> Response, n: nat)
    requires InsertThenMeta(s, gateway, n)
    ensures forall i :: 0 <= i < |s| ==> s[i].Insert? || s[i].Rpc?
    decreases |s|
  {
    if |s| >= 2 {
      InsertThenMetaOnlyScanRequests(s[2..], gateway, n + 2);
      forall i | 2 <= i < |s| ensures s[i].Insert? || s[i].Rpc? {
        assert s[i] == s[2..][i - 2];
      }
    }
  }

  // ---------------------------------------------------------------------
  // persist_finding
  // ---------------------------------------------------------------------

  /** `persist_scan` for each scan enrichment from position `i` on, stopping at the first that raises. */
  function ScansRun(sc: Scope, scans: seq<Enrichment>, i: nat, gateway: nat -> Response, n: nat): (r: Run)
    ensures r.recovered ==> r.raised
    decreases |scans| - i
  {
    if i >= |scans| then Quiet
    else
      var first := ScanRun(sc, scans[i].blocks, 0, gateway, n);
      Then(first, ScansRun(sc, scans, i + 1, gateway, n + |first.sent|))
  }

  /**
   * One iteration of the scan loop: after a quiet prefix `done`, persisting
   * the i-th scan either ends the run (it raised) or joins the prefix.
   */
  lemma ScansRunStep(sc: Scope, scans: seq<Enrichment>, i: nat, gateway: nat -> Response, n: nat, done: seq<Request>)
    requires i < |scans|
    ensures var step := ScanRun(sc, scans[i].blocks, 0, gateway, n);
      Resume(done, ScansRun(sc, scans, i, gateway, n))
      == if step.raised then Resume(done, step)
         else Resume(done + step.sent, ScansRun(sc, scans, i + 1, gateway, n + |step.sent|))
  {
  }

  /**
   * One iteration of the evidence loop: after a quiet prefix `done`, the
   * i-th insert either ends the run (`execute()` raised) or joins the prefix.
   */
  lemma EvidenceRunStep(sc: Scope, sinkName: string, signingKey: string, findingId: string,
                        es: seq<Enrichment>, i: nat, gateway: nat -> Response, n: nat, done: seq<Request>)
    requires i < |es|
    ensures var step := Checked(EvidenceInsert(sc, sinkName, signingKey, findingId, es[i]), Execute(gateway(n)), CREATED, LogOnly);
      Resume(done, EvidenceRun(sc, sinkName, signingKey, findingId, es, i, gateway, n))
      == if step.raised then Resume(done, step)
         else Resume(done + step.sent, EvidenceRun(sc, sinkName, signingKey, findingId, es, i + 1, gateway, n + 1))
  {
  }

  function EvidenceInsert(sc: Scope, sinkName: string, signingKey: string, findingId: string, e: Enrichment): Request {
    InsertEvidence(sc.accountId, sc.cluster, sinkName, signingKey, findingId, e)
  }

  /**
   * The evidence loop of `persist_finding` from position `i` on: one insert
   * per enrichment, in order; a status other than 201 is only logged and the loop goes on; the
   * loop stops only when `execute()` raises.
   */
  function EvidenceRun(sc: Scope, sinkName: string, signingKey: string, findingId: string,
                       es: seq<Enrichment>, i: nat, gateway: nat -> Response, n: nat): (r: Run)
    ensures !r.recovered
    decreases |es| - i
  {
    if i >= |es| then Quiet
    else
      var first := Checked(EvidenceInsert(sc, sinkName, signingKey, findingId, es[i]), Execute(gateway(n)), CREATED, LogOnly);
      Then(first, EvidenceRun(sc, sinkName, signingKey, findingId, es, i + 1, gateway, n + 1))
  }

  function IssueInsert(sc: Scope, f: Finding): Request {
    InsertIssue(sc.accountId, sc.cluster, f)
  }

  /**
   * The tail of `persist_finding` once the scans are through: insert each
   * non-scan enrichment as evidence, then, unless that raised, the finding
   * as an issue, whose rejection calls the hook but does not raise.
   */
  function EvidenceAndIssueRun(sc: Scope, sinkName: string, signingKey: string, f: Finding, others: seq<Enrichment>,
                               gateway: nat -> Response, n: nat): (r: Run)
    ensures r.recovered ==> !r.raised
    ensures !r.raised ==> |r.sent| >= 1 && r.sent[|r.sent| - 1] == IssueInsert(sc, f)
  {
    var er := EvidenceRun(sc, sinkName, signingKey, f.id, others, 0, gateway, n);
    Then(er, Checked(IssueInsert(sc, f), Execute(gateway(n + |er.sent|)), CREATED, RecoverOnly))
  }

  /**
   * `persist_finding`: persist every scan enrichment; stop there if that
   * raised or the finding had scans and nothing else; otherwise go on with
   * the evidence and the issue.
   */
  function FindingRun(sc: Scope, sinkName: string, signingKey: string, f: Finding,
                      gateway: nat -> Response, n: nat): (r: Run)
    ensures var sr := ScansRun(sc, Scans(f.enrichments), 0, gateway, n);
      sr.sent <= r.sent && (sr.raised ==> r == sr)
    ensures !r.raised && !(|Scans(f.enrichments)| > 0 && |NonScans(f.enrichments)| == 0) ==>
      |r.sent| >= 1 && r.sent[|r.sent| - 1] == IssueInsert(sc, f)
  {
    FindingTail(sc, sinkName, signingKey, f, ScansRun(sc, Scans(f.enrichments), 0, gateway, n), gateway, n)
  }

  /**
   * What `persist_finding` does once its scans have run as `sr`, starting at
   * reply `n`: the scans' requests always come first and a raise among them
   * ends the run; otherwise, unless the finding is scans alone or the run
   * raises, the issue insert is the last request.
   */
  function FindingTail(sc: Scope, sinkName: string, signingKey: string, f: Finding, sr: Run,
                       gateway: nat -> Response, n: nat): (r: Run)
  {
    var others := NonScans(f.enrichments);
    if sr.raised || (|Scans(f.enrichments)| > 0 && |others| == 0) then sr
    else Then(sr, EvidenceAndIssueRun(sc, sinkName, signingKey, f, others, gateway, n + |sr.sent|))
  }

  /** Only scan requests: inserts and RPCs, no evidence and no issue. */
  predicate OnlyScanRequests(s: seq<Request>) {
    forall i :: 0 <= i < |s| ==> s[i].Insert? || s[i].Rpc?
  }

  /** True when the run wrote the finding's issue row or any evidence row. */
  predicate WritesFindingRows(r: Run) {
    exists i :: 0 <= i < |r.sent| && (r.sent[i].InsertIssue? || r.sent[i].InsertEvidence?)
  }

  /** A scan run only inserts scan results and sends scan meta RPCs. */
  lemma ScanRunOnlyScanRequests(sc: Scope, blocks: seq<Block>, i: nat, gateway: nat -> Response, n: nat)
    ensures OnlyScanRequests(ScanRun(sc, blocks, i, gateway, n).sent)
  {
    ScanMetaFollowsAcceptedInsert(sc, blocks, i, gateway, n);
    InsertThenMetaOnlyScanRequests(ScanRun(sc, blocks, i, gateway, n).sent, gateway, n);
  }

  /** Persisting any number of scan enrichments only inserts scan results and sends scan meta RPCs. */
  lemma {:induction false} ScansRunOnlyScanRequests(sc: Scope, scans: seq<Enrichment>, i: nat, gateway: nat -> Response, n: nat)
    ensures OnlyScanRequests(ScansRun(sc, scans, i, gateway, n).sent)
    decreases |scans| - i
  {
    var r := ScansRun(sc, scans, i, gateway, n);
    if i >= |scans| {
      assert r.sent == [];
    } else {
      var first := ScanRun(sc, scans[i].blocks, 0, gateway, n);
      var rest := ScansRun(sc, scans, i + 1, gateway, n + |first.sent|);
      ScanRunOnlyScanRequests(sc, scans[i].blocks, 0, gateway, n);
      ScansRunOnlyScanRequests(sc, scans, i + 1, gateway, n + |first.sent|);
      if !first.raised {
        assert r.sent == first.sent + rest.sent;
        forall k | 0 <= k < |r.sent| ensures r.sent[k].Insert? || r.sent[k].Rpc? {
          if k >= |first.sent| {
            assert r.sent[k] == rest.sent[k - |first.sent|];
          } else {
            assert r.sent[k] == first.sent[k];
          }
        }
      }
    }
  }

  /** The scan part holds only scans and the other part only non-scans. */
  lemma {:induction false} PartitionSound(es: seq<Enrichment>)
    ensures forall i :: 0 <= i < |Scans(es)| ==> IsScan(Scans(es)[i])
    ensures forall i :: 0 <= i < |NonScans(es)| ==> !IsScan(NonScans(es)[i])
    decreases |es|
  {
    if es != [] {
      PartitionSound(es[1..]);
      if IsScan(es[0]) {
        assert Scans(es) == [es[0]] + Scans(es[1..]);
        assert NonScans(es) == NonScans(es[1..]);
        forall i | 1 <= i < |Scans(es)| ensures IsScan(Scans(es)[i]) {
          assert Scans(es)[i] == Scans(es[1..])[i - 1];
        }
      } else {
        assert NonScans(es) == [es[0]] + NonScans(es[1..]);
        assert Scans(es) == Scans(es[1..]);
        forall i | 1 <= i < |NonScans(es)| ensures !IsScan(NonScans(es)[i]) {
          assert NonScans(es)[i] == NonScans(es[1..])[i - 1];
        }
      }
    }
  }

  /** When every enrichment is a scan, the scan part is everything and the other part is empty. */
  lemma {:induction false} PartitionOfAllScans(es: seq<Enrichment>)
    requires forall i :: 0 <= i < |es| ==> IsScan(es[i])
    ensures Scans(es) == es && NonScans(es) == []
    decreases |es|
  {
    if es != [] {
      PartitionOfAllScans(es[1..]);
      assert es == [es[0]] + es[1..];
    }
  }

  /** When no enrichment is a scan, the scan part is empty and the other part is everything. */
  lemma {:induction false} PartitionOfNoScans(es: seq<Enrichment>)
    requires forall i :: 0 <= i < |es| ==> !IsScan(es[i])
    ensures Scans(es) == [] && NonScans(es) == es
    decreases |es|
  {
    if es != [] {
      PartitionOfNoScans(es[1..]);
      assert es == [es[0]] + es[1..];
    }
  }

  /**
   * A finding whose enrichments are all scans writes neither an issue nor
   * any evidence, whatever the gateway answers.
   */
  lemma AllScansWritesNoIssue(sc: Scope, sinkName: string, signingKey: string, f: Finding, gateway: nat -> Response, n: nat)
    requires f.enrichments != [] && forall i :: 0 <= i < |f.enrichments| ==> IsScan(f.enrichments[i])
    ensures FindingRun(sc, sinkName, signingKey, f, gateway, n) == ScansRun(sc, f.enrichments, 0, gateway, n)
    ensures !WritesFindingRows(FindingRun(sc, sinkName, signingKey, f, gateway, n))
  {
    PartitionOfAllScans(f.enrichments);
    ScansRunOnlyScanRequests(sc, f.enrichments, 0, gateway, n);
  }

  /** True when `execute()` can parse each of the replies `gateway(n)` .. `gateway(n + k - 1)`. */
  predicate Parses(gateway: nat -> Response, n: nat, k: nat) {
    forall i :: n <= i < n + k ==> gateway(i).json.Some?
  }

  /** The evidence requests for `es`, in order. */
  function EvidenceInserts(sc: Scope, sinkName: string, signingKey: string, findingId: string, es: seq<Enrichment>): (rs: seq<Request>)
    ensures |rs| == |es|
    ensures forall i :: 0 <= i < |es| ==> rs[i] == EvidenceInsert(sc, sinkName, signingKey, findingId, es[i])
  {
    seq(|es|, i requires 0 <= i < |es| => EvidenceInsert(sc, sinkName, signingKey, findingId, es[i]))
  }

  /** When every reply parses, the evidence loop sends one insert per enrichment, whatever the statuses. */
  lemma {:induction false} EvidenceRunBestEffort(sc: Scope, sinkName: string, signingKey: string, findingId: string,
                                                 es: seq<Enrichment>, i: nat, gateway: nat -> Response, n: nat)
    requires i <= |es| && Parses(gateway, n, |es| - i)
    ensures EvidenceRun(sc, sinkName, signingKey, findingId, es, i, gateway, n)
         == Run(EvidenceInserts(sc, sinkName, signingKey, findingId, es)[i..], false, false)
    decreases |es| - i
  {
    var all := EvidenceInserts(sc, sinkName, signingKey, findingId, es);
    if i < |es| {
      var first := Checked(EvidenceInsert(sc, sinkName, signingKey, findingId, es[i]), Execute(gateway(n)), CREATED, LogOnly);
      assert first == Run([all[i]], false, false);
      assert Parses(gateway, n + 1, |es| - (i + 1));
      EvidenceRunBestEffort(sc, sinkName, signingKey, findingId, es, i + 1, gateway, n + 1);
      assert all[i..] == [all[i]] + all[i + 1..];
    } else {
      assert all[i..] == [];
    }
  }

  /**
   * A finding without scan enrichments is persisted best-effort: when
   * `execute()` can parse every reply, it sends one evidence insert per
   * enrichment and then the issue insert, never raises whatever the
   * statuses, and calls the hook exactly when the issue insert's status
   * is not 201.
   */
  lemma FindingWithoutScansNeverRaises(sc: Scope, sinkName: string, signingKey: string, f: Finding, gateway: nat -> Response, n: nat)
    requires forall i :: 0 <= i < |f.enrichments| ==> !IsScan(f.enrichments[i])
    requires Parses(gateway, n, |f.enrichments| + 1)
    ensures var r := FindingRun(sc, sinkName, signingKey, f, gateway, n);
      && r.sent == EvidenceInserts(sc, sinkName, signingKey, f.id, f.enrichments) + [IssueInsert(sc, f)]
      && !r.raised
      && (r.recovered <==> gateway(n + |f.enrichments|).status != 201)
  {
    var es := f.enrichments;
    PartitionOfNoScans(es);
    var sr := ScansRun(sc, Scans(es), 0, gateway, n);
    assert sr == Quiet;
    assert Parses(gateway, n, |es|);
    EvidenceRunBestEffort(sc, sinkName, signingKey, f.id, es, 0, gateway, n);
    assert EvidenceInserts(sc, sinkName, signingKey, f.id, es)[0..] == EvidenceInserts(sc, sinkName, signingKey, f.id, es);
    var er := EvidenceRun(sc, sinkName, signingKey, f.id, es, 0, gateway, n);
    assert |er.sent| == |es|;
    var ir := Checked(IssueInsert(sc, f), Execute(gateway(n + |es|)), CREATED, RecoverOnly);
    assert gateway(n + |es|).json.Some?;
    assert EvidenceAndIssueRun(sc, sinkName, signingKey, f, es, gateway, n) == Then(er, ir);
  }

  /**
   * The tail of `persist_finding` is best-effort: when `execute()` can parse
   * every reply, it sends one evidence insert per enrichment and then the
   * issue insert, never raises whatever the statuses, and calls the hook
   * exactly when the issue insert's status is not 201.
   */
  lemma EvidenceAndIssueBestEffort(sc: Scope, sinkName: string, signingKey: string, f: Finding, others: seq<Enrichment>,
                                   gateway: nat -> Response, m: nat)
    requires Parses(gateway, m, |others| + 1)
    ensures EvidenceAndIssueRun(sc, sinkName, signingKey, f, others, gateway, m)
         == Run(EvidenceInserts(sc, sinkName, signingKey, f.id, others) + [IssueInsert(sc, f)],
                gateway(m + |others|).status != 201, false)
  {
    assert Parses(gateway, m, |others|);
    EvidenceRunBestEffort(sc, sinkName, signingKey, f.id, others, 0, gateway, m);
    var evs := EvidenceInserts(sc, sinkName, signingKey, f.id, others);
    assert evs[0..] == evs;
    var er := EvidenceRun(sc, sinkName, signingKey, f.id, others, 0, gateway, m);
    assert |er.sent| == |others|;
    assert gateway(m + |others|).json.Some?;
  }

  /**
   * Once the scans are through as `sr` without raising or calling the
   * hook, a finding that does not consist of scans alone is persisted
   * best-effort: when `execute()` can parse every later reply, it sends the
   * scans' requests, one evidence insert per other enrichment and the issue
   * insert, never raises whatever the statuses, and calls the hook exactly
   * when the issue insert's status is not 201.
   */
  lemma FindingTailBestEffort(sc: Scope, sinkName: string, signingKey: string, f: Finding, sr: Run,
                              gateway: nat -> Response, n: nat)
    requires !sr.raised && !sr.recovered
    requires |Scans(f.enrichments)| == 0 || |NonScans(f.enrichments)| > 0
    requires Parses(gateway, n + |sr.sent|, |NonScans(f.enrichments)| + 1)
    ensures var others := NonScans(f.enrichments);
      FindingTail(sc, sinkName, signingKey, f, sr, gateway, n)
      == Run(sr.sent + EvidenceInserts(sc, sinkName, signingKey, f.id, others) + [IssueInsert(sc, f)],
             gateway(n + |sr.sent| + |others|).status != 201, false)
  {
    var others := NonScans(f.enrichments);
    var evs := EvidenceInserts(sc, sinkName, signingKey, f.id, others);
    EvidenceAndIssueBestEffort(sc, sinkName, signingKey, f, others, gateway, n + |sr.sent|);
    ThenQuietTail(sr, evs, IssueInsert(sc, f), gateway(n + |sr.sent| + |others|).status != 201);
  }

  /**
   * The same for a whole `persist_finding` call: when its scans do not
   * raise and every later reply parses, the finding is persisted
   * best-effort after the scans' requests.
   */
  lemma FindingAfterScansNeverRaises(sc: Scope, sinkName: string, signingKey: string, f: Finding,
                                     gateway: nat -> Response, n: nat)
    requires !ScansRun(sc, Scans(f.enrichments), 0, gateway, n).raised
    requires |Scans(f.enrichments)| == 0 || |NonScans(f.enrichments)| > 0
    requires Parses(gateway, n + |ScansRun(sc, Scans(f.enrichments), 0, gateway, n).sent|, |NonScans(f.enrichments)| + 1)
    ensures var sr := ScansRun(sc, Scans(f.enrichments), 0, gateway, n);
      var others := NonScans(f.enrichments);
      FindingRun(sc, sinkName, signingKey, f, gateway, n)
      == Run(sr.sent + EvidenceInserts(sc, sinkName, signingKey, f.id, others) + [IssueInsert(sc, f)],
             gateway(n + |sr.sent| + |others|).status != 201, false)
  {
    FindingTailBestEffort(sc, sinkName, signingKey, f, ScansRun(sc, Scans(f.enrichments), 0, gateway, n), gateway, n);
  }

  /** A run that neither raised nor called the hook, followed by a run that does not raise. */
  lemma ThenQuietTail(sr: Run, rest: seq<Request>, last: Request, recovered: bool)
    requires !sr.raised && !sr.recovered
    ensures Then(sr, Run(rest + [last], recovered, false)) == Run(sr.sent + rest + [last], recovered, false)
  {
    assert sr.sent + (rest + [last]) == sr.sent + rest + [last];
  }
}
