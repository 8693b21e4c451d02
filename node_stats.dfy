/**
 * The node-statistics collector of the Couchbase exporter: the decoded
 * `/pools/default` document, the formatter that flattens it into labelled
 * gauges, and the collector that runs the formatter after a fetch.
 */
module NodeStats {

  import opened Wrappers

  /** Go's `int64`. */
  type Int64 = x: int | -0x8000_0000_0000_0000 <= x < 0x8000_0000_0000_0000

  // ---------------------------------------------------------------------------
  // The decoded statistics document
  // ---------------------------------------------------------------------------

  datatype HddTotals = HddTotals(total: Int64, free: Int64, used: Int64, usedByData: Int64)

  datatype RamTotals = RamTotals(total: Int64, used: Int64, usedByData: Int64)

  /** Cluster-wide disk and memory figures. */
  datatype StorageTotals = StorageTotals(hdd: HddTotals, ram: RamTotals)

  /** Per-node system figures; the CPU rate is a floating-point number in the document. */
  datatype SystemStats = SystemStats(
    cpuUtilizationRate: real,
    swapTotal: Int64,
    swapUsed: Int64,
    memTotal: Int64,
    memFree: Int64)

  /** Per-node counters; `cmdGet`, `getHits` and `ops` are floating-point numbers in the document. */
  datatype InterestingStats = InterestingStats(
    cmdGet: real,
    couchDocsActualDiskSize: Int64,
    couchDocsDataSize: Int64,
    couchViewsActualDiskSize: Int64,
    couchViewsDataSize: Int64,
    currItems: Int64,
    currItemsTot: Int64,
    epBgFetched: Int64,
    getHits: real,
    memUsed: Int64,
    ops: real,
    vbReplicaCurrItems: Int64)

  /** One cluster member. Its own `storageTotals` is decoded but never exported. */
  datatype Node = Node(
    uptime: Int64,
    status: string,
    hostname: string,
    interestingStats: InterestingStats,
    systemStats: SystemStats,
    storageTotals: StorageTotals)

  datatype NodeStat = NodeStat(nodes: seq<Node>, storageTotals: StorageTotals)

  // ---------------------------------------------------------------------------
  // Metric records
  // ---------------------------------------------------------------------------

  datatype MetricType = Counter | Gauge

  /** One exported sample; a Go nil label slice is the empty sequence. */
  datatype Metric = Metric(
    name: string,
    kind: MetricType,
    value: int,
    description: string,
    labelKeys: seq<string>,
    labelVals: seq<string>)

  /** A gauge without labels, as the formatter's record literals build them. */
  function NewGauge(name: string, value: int, description: string): (m: Metric)
  {
    Metric(name, Gauge, value, description, [], [])
  }

  /** A per-node gauge without labels; each per-node record's description is its name. */
  function NodeGauge(name: string, value: int): (m: Metric)
  {
    Metric(name, Gauge, value, name, [], [])
  }

  /** Go's `int64(f)` for a float `f` in range: truncation toward zero. */
  function TruncToInt(x: real): (r: int)
    ensures 0.0 <= x ==> r as real <= x < r as real + 1.0
    ensures x < 0.0 ==> r as real - 1.0 < x <= r as real
  {
    if x >= 0.0 then x.Floor else -((-x).Floor)
  }

  /** `strings.HasPrefix(s, prefix)`: the leading `|prefix|` characters of `s` are `prefix`. */
  predicate HasPrefix(s: string, prefix: string): (b: bool)
    ensures b <==> prefix <= s
  {
    |prefix| <= |s| && s[..|prefix|] == prefix
  }

  /** The numeric health of a node: 1 for exactly "healthy", 0 for anything else. */
  function StatusValue(status: string): (r: int)
    ensures r == 0 || r == 1
    ensures r == 1 <==> status == "healthy"
  {
    if status == "healthy" then 1 else 0
  }

  // ---------------------------------------------------------------------------
  // The exported names and the fields they stand for
  // ---------------------------------------------------------------------------

  /** The storage gauge names, in output order. */
  const StorageMetricNames: seq<string> := [
    "storage_hdd_total", "storage_hdd_free", "storage_hdd_used", "storage_hdd_usedbydata",
    "storage_ram_total", "storage_ram_used", "storage_ram_usedbydata"]

  /** The per-node gauge names, in output order within each block. */
  const NodeMetricNames: seq<string> := [
    "cmd_get", "couch_docs_actual_disk_size", "couch_docs_data_size",
    "couch_views_actual_disk_size", "couch_views_data_size", "curr_items",
    "curr_items_tot", "ep_bg_fetched", "get_hits", "mem_used", "ops",
    "vb_replica_curr_items", "cpu_utilization_rate", "swap_total", "swap_used",
    "mem_total", "mem_free", "uptime", "status"]

  /** Which storage-totals field a storage gauge name exports. */
  function StorageField(t: StorageTotals, name: string): (v: Option<int>)
  {
    match name
    case "storage_hdd_total" => Some(t.hdd.total)
    case "storage_hdd_free" => Some(t.hdd.free)
    case "storage_hdd_used" => Some(t.hdd.used)
    case "storage_hdd_usedbydata" => Some(t.hdd.usedByData)
    case "storage_ram_total" => Some(t.ram.total)
    case "storage_ram_used" => Some(t.ram.used)
    case "storage_ram_usedbydata" => Some(t.ram.usedByData)
    case _ => None
  }

  /** Which node field a per-node gauge name exports. */
  function NodeField(n: Node, name: string): (v: Option<int>)
  {
    match name
    case "cmd_get" => Some(TruncToInt(n.interestingStats.cmdGet))
    case "couch_docs_actual_disk_size" => Some(n.interestingStats.couchDocsActualDiskSize)
    case "couch_docs_data_size" => Some(n.interestingStats.couchDocsDataSize)
    case "couch_views_actual_disk_size" => Some(n.interestingStats.couchViewsActualDiskSize)
    case "couch_views_data_size" => Some(n.interestingStats.couchViewsDataSize)
    case "curr_items" => Some(n.interestingStats.currItems)
    case "curr_items_tot" => Some(n.interestingStats.currItemsTot)
    case "ep_bg_fetched" => Some(n.interestingStats.epBgFetched)
    case "get_hits" => Some(TruncToInt(n.interestingStats.getHits))
    case "mem_used" => Some(n.interestingStats.memUsed)
    case "ops" => Some(TruncToInt(n.interestingStats.ops))
    case "vb_replica_curr_items" => Some(n.interestingStats.vbReplicaCurrItems)
    case "cpu_utilization_rate" => Some(TruncToInt(n.systemStats.cpuUtilizationRate))
    case "swap_total" => Some(n.systemStats.swapTotal)
    case "swap_used" => Some(n.systemStats.swapUsed)
    case "mem_total" => Some(n.systemStats.memTotal)
    case "mem_free" => Some(n.systemStats.memFree)
    case "uptime" => Some(n.uptime)
    case "status" => Some(StatusValue(n.status))
    case _ => None
  }

  // ---------------------------------------------------------------------------
  // Specification of the formatter
  // ---------------------------------------------------------------------------

  /** The seven cluster-wide storage gauges, before any label is attached. */
  function StorageMetrics(t: StorageTotals): (r: seq<Metric>)
    ensures |r| == 7
    ensures forall i :: 0 <= i < |r| ==>
      r[i].kind == Gauge && r[i].labelKeys == [] && r[i].labelVals == [] &&
      StorageField(t, r[i].name) == Some(r[i].value)
  {
    [ NewGauge("storage_hdd_total", t.hdd.total, "storagetotals_hdd_total"),
      NewGauge("storage_hdd_free", t.hdd.free, "storagetotals_hdd_free"),
      NewGauge("storage_hdd_used", t.hdd.used, "storage_hdd_used"),
      NewGauge("storage_hdd_usedbydata", t.hdd.usedByData, "storagetotals_hdd_usedbydata"),
      NewGauge("storage_ram_total", t.ram.total, "storage_ram_total"),
      NewGauge("storage_ram_used", t.ram.used, "storage_ram_used"),
      NewGauge("storage_ram_usedbydata", t.ram.usedByData, "storage_ram_usedbydata") ]
  }

  /** The nineteen per-node gauges of one node, before any label is attached. */
  function NodeMetrics(n: Node, nodeStatus: int): (r: seq<Metric>)
    ensures |r| == 19
  {
    var i := n.interestingStats;
    var y := n.systemStats;
    [ NodeGauge("cmd_get", TruncToInt(i.cmdGet)),
      NodeGauge("couch_docs_actual_disk_size", i.couchDocsActualDiskSize),
      NodeGauge("couch_docs_data_size", i.couchDocsDataSize),
      NodeGauge("couch_views_actual_disk_size", i.couchViewsActualDiskSize),
      NodeGauge("couch_views_data_size", i.couchViewsDataSize),
      NodeGauge("curr_items", i.currItems),
      NodeGauge("curr_items_tot", i.currItemsTot),
      NodeGauge("ep_bg_fetched", i.epBgFetched),
      NodeGauge("get_hits", TruncToInt(i.getHits)),
      NodeGauge("mem_used", i.memUsed),
      NodeGauge("ops", TruncToInt(i.ops)),
      NodeGauge("vb_replica_curr_items", i.vbReplicaCurrItems),
      NodeGauge("cpu_utilization_rate", TruncToInt(y.cpuUtilizationRate)),
      NodeGauge("swap_total", y.swapTotal),
      NodeGauge("swap_used", y.swapUsed),
      NodeGauge("mem_total", y.memTotal),
      NodeGauge("mem_free", y.memFree),
      NodeGauge("uptime", n.uptime),
      NodeGauge("status", nodeStatus) ]
  }

  /** The metric after the per-node pass has set its labels to `hostname`. */
  function WithHostname(m: Metric, hostname: string): (r: Metric)
  {
    m.(labelKeys := ["hostname"], labelVals := [hostname])
  }

  /** Every metric of `ms` labelled `hostname`. */
  function HostnameAll(ms: seq<Metric>, hostname: string): (r: seq<Metric>)
  {
    seq(|ms|, j requires 0 <= j < |ms| => WithHostname(ms[j], hostname))
  }

  /** One surviving node's block: its nineteen gauges with the `hostname` label. */
  function HostnameBlock(n: Node): (r: seq<Metric>)
    ensures |r| == 19
  {
    HostnameAll(NodeMetrics(n, StatusValue(n.status)), n.hostname)
  }

  /**
   * The metric after the final pass has appended the `source` label. The
   * source branches on a nil label slice, which gives the same sequence.
   */
  function WithSource(m: Metric, nodeURL: string): (r: Metric)
  {
    m.(labelKeys := m.labelKeys + ["source"], labelVals := m.labelVals + [nodeURL])
  }

  /** The nodes whose hostname starts with `prefix`, in document order. */
  function Selected(nodes: seq<Node>, prefix: string): (sel: seq<Node>)
    ensures |sel| <= |nodes|
    ensures forall k :: 0 <= k < |sel| ==> HasPrefix(sel[k].hostname, prefix)
    ensures forall n :: n in sel ==> n in nodes
  {
    if |nodes| == 0 then []
    else
      var last := nodes[|nodes| - 1];
      Selected(nodes[..|nodes| - 1], prefix) + (if HasPrefix(last.hostname, prefix) then [last] else [])
  }

  /** The positions in `nodes` of the nodes whose hostname starts with `prefix`, in order. */
  function MatchingIndices(nodes: seq<Node>, prefix: string): (idx: seq<nat>)
    ensures |idx| == |Selected(nodes, prefix)|
    ensures forall k :: 0 <= k < |idx| ==> idx[k] < |nodes|
  {
    if |nodes| == 0 then []
    else
      var lastIdx := |nodes| - 1;
      MatchingIndices(nodes[..lastIdx], prefix) + (if HasPrefix(nodes[lastIdx].hostname, prefix) then [lastIdx] else [])
  }

  /** The concatenation of `block(n)` for every `n` of `sel`, in order; every block has 19 metrics. */
  function ConcatBlocks(sel: seq<Node>, block: Node -> seq<Metric>): (ms: seq<Metric>)
    requires forall n :: |block(n)| == 19
    ensures |ms| == 19 * |sel|
  {
    if |sel| == 0 then [] else ConcatBlocks(sel[..|sel| - 1], block) + block(sel[|sel| - 1])
  }

  /** Block `k` of a concatenation occupies positions `19 * k` to `19 * k + 18`. */
  lemma {:induction false} ConcatBlocksAt(sel: seq<Node>, block: Node -> seq<Metric>, k: nat, f: nat)
    requires forall n :: |block(n)| == 19
    requires k < |sel| && f < 19
    ensures ConcatBlocks(sel, block)[19 * k + f] == block(sel[k])[f]
  {
    var last := |sel| - 1;
    var init := sel[..last];
    if k < last {
      ConcatBlocksAt(init, block, k, f);
      assert init[k] == sel[k];
    }
  }

  /** The concatenated hostname blocks of `sel`, in order. */
  function Blocks(sel: seq<Node>): (ms: seq<Metric>)
    ensures |ms| == 19 * |sel|
  {
    ConcatBlocks(sel, HostnameBlock)
  }

  /** Every metric of `ms` with `source = nodeURL` appended. */
  function SourceAll(ms: seq<Metric>, nodeURL: string): (r: seq<Metric>)
  {
    seq(|ms|, j requires 0 <= j < |ms| => WithSource(ms[j], nodeURL))
  }

  /** Taking one more node into account adds its block exactly when it is selected. */
  lemma BlocksStep(nodes: seq<Node>, i: nat, prefix: string)
    requires i < |nodes|
    ensures Blocks(Selected(nodes[..i + 1], prefix)) ==
      Blocks(Selected(nodes[..i], prefix)) + (if HasPrefix(nodes[i].hostname, prefix) then HostnameBlock(nodes[i]) else [])
  {
    assert nodes[..i + 1][..i] == nodes[..i];
    var before := Selected(nodes[..i], prefix);
    var sel := Selected(nodes[..i + 1], prefix);
    if HasPrefix(nodes[i].hostname, prefix) {
      assert sel == before + [nodes[i]];
      assert sel[..|sel| - 1] == before;
      assert Blocks(sel) == Blocks(before) + HostnameBlock(nodes[i]);
    } else {
      assert sel == before;
    }
  }

  /** What `formatNodeStats(nodeURL, nodeName, s)` returns. */
  function Format(nodeURL: string, nodeName: string, s: NodeStat): (r: seq<Metric>)
    ensures |r| == 7 + 19 * |Selected(s.nodes, nodeName)|
  {
    SourceAll(StorageMetrics(s.storageTotals) + Blocks(Selected(s.nodes, nodeName)), nodeURL)
  }

  // ---------------------------------------------------------------------------
  // The formatter
  // ---------------------------------------------------------------------------

  /**
   * Flattens the document into gauges: the storage totals, then one labelled
   * block per node whose hostname starts with `nodeName`, then `source` on all.
   */
  method FormatNodeStats(nodeURL: string, nodeName: string, s: NodeStat) returns (metrics: seq<Metric>)
    ensures metrics == Format(nodeURL, nodeName, s)
  {
    var storageMetrics := StorageMetrics(s.storageTotals);

    var nodeMetrics: seq<Metric> := [];
    var nodeIdx := 0;
    while nodeIdx < |s.nodes|
      invariant 0 <= nodeIdx <= |s.nodes|
      invariant nodeMetrics == Blocks(Selected(s.nodes[..nodeIdx], nodeName))
    {
      var node := s.nodes[nodeIdx];
      BlocksStep(s.nodes, nodeIdx, nodeName);
      if !HasPrefix(node.hostname, nodeName) {
        nodeIdx := nodeIdx + 1;
        continue;
      }
      var nodeStatus: int;
      if node.status == "healthy" {
        nodeStatus := 1;
      } else {
        nodeStatus := 0;
      }
      var currentNodeMetrics := NodeMetrics(node, nodeStatus);
      currentNodeMetrics := SetHostnameLabels(currentNodeMetrics, node.hostname);
      assert currentNodeMetrics == HostnameBlock(node) by {
        assert nodeStatus == StatusValue(node.status);
      }
      nodeMetrics := nodeMetrics + currentNodeMetrics;
      nodeIdx := nodeIdx + 1;
    }
    assert s.nodes[..nodeIdx] == s.nodes;

    metrics := [];
    metrics := metrics + storageMetrics;
    assert metrics == storageMetrics;
    metrics := metrics + nodeMetrics;

    metrics := AppendSourceLabels(metrics, nodeURL);
  }

  /** The per-node pass: each record's labels become `hostname = hostname`. */
  method SetHostnameLabels(ms: seq<Metric>, hostname: string) returns (r: seq<Metric>)
    ensures r == HostnameAll(ms, hostname)
  {
    r := ms;
    var cnmIdx := 0;
    while cnmIdx < |r|
      invariant |r| == |ms| && 0 <= cnmIdx <= |ms|
      invariant forall j :: 0 <= j < cnmIdx ==> r[j] == WithHostname(ms[j], hostname)
      invariant r[cnmIdx..] == ms[cnmIdx..]
    {
      r := r[cnmIdx := r[cnmIdx].(labelKeys := ["hostname"], labelVals := [hostname])];
      cnmIdx := cnmIdx + 1;
    }
  }

  /** The final pass: `source = nodeURL` is appended to each record's labels. */
  method AppendSourceLabels(ms: seq<Metric>, nodeURL: string) returns (r: seq<Metric>)
    ensures r == SourceAll(ms, nodeURL)
  {
    r := ms;
    var idx := 0;
    while idx < |r|
      invariant |r| == |ms| && 0 <= idx <= |ms|
      invariant forall j :: 0 <= j < idx ==> r[j] == WithSource(ms[j], nodeURL)
      invariant r[idx..] == ms[idx..]
    {
      var m := r[idx];
      if m.labelKeys == [] {
        m := m.(labelKeys := ["source"]);
      } else {
        m := m.(labelKeys := m.labelKeys + ["source"]);
      }
      if m.labelVals == [] {
        m := m.(labelVals := [nodeURL]);
      } else {
        m := m.(labelVals := m.labelVals + [nodeURL]);
      }
      r := r[idx := m];
      idx := idx + 1;
    }
  }

  // ---------------------------------------------------------------------------
  // The collector
  // ---------------------------------------------------------------------------

  /**
   * Why fetching `/pools/default` failed. The fetch returns an untyped Go
   * `error`; these three kinds are this model's own classification of it,
   * and `Collect` only passes the error on.
   */
  datatype FetchError =
    | TransportError(message: string)   // building or sending the request, or reading the response body
    | UpstreamError(body: string)       // a status other than 200, with the response body
    | DecodeError(message: string)      // the body did not decode

  /** The configured node URL and hostname prefix, fixed at construction. */
  datatype NodeCollector = NodeCollector(nodeURL: string, nodeName: string)
  {
    /**
     * One scrape: `fetched` is the outcome of fetching and decoding this
     * collector's `/pools/default`. A failure yields no metrics and that error.
     */
    method Collect(fetched: Result<NodeStat, FetchError>) returns (metrics: seq<Metric>, err: Option<FetchError>)
      ensures fetched.Failure? ==> metrics == [] && err == Some(fetched.error)
      ensures fetched.Success? ==> metrics == Format(nodeURL, nodeName, fetched.value) && err == None
    {
      if fetched.Failure? {
        return [], Some(fetched.error);
      }
      metrics := FormatNodeStats(nodeURL, nodeName, fetched.value);
      err := None;
    }
  }
}
