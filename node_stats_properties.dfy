/**
 * What the formatter's output looks like: the storage gauges first, then one
 * block of nineteen gauges per node whose hostname matches the filter, in
 * document order, each gauge carrying its source field and its labels.
 */
module NodeStatsProperties {

  import opened Wrappers
  import opened NodeStats

  // ---------------------------------------------------------------------------
  // The node filter
  // ---------------------------------------------------------------------------

  /** The matching positions are strictly increasing. */
  lemma {:induction false} MatchingIndicesIncreasing(nodes: seq<Node>, prefix: string)
    ensures forall k1, k2 :: 0 <= k1 < k2 < |MatchingIndices(nodes, prefix)| ==>
      MatchingIndices(nodes, prefix)[k1] < MatchingIndices(nodes, prefix)[k2]
  {
    if |nodes| > 0 {
      var last := |nodes| - 1;
      var idx' := MatchingIndices(nodes[..last], prefix);
      MatchingIndicesIncreasing(nodes[..last], prefix);
      assert forall k :: 0 <= k < |idx'| ==> idx'[k] < last;
      var idx := MatchingIndices(nodes, prefix);
      assert idx == idx' + (if HasPrefix(nodes[last].hostname, prefix) then [last] else []);
      forall k1, k2 | 0 <= k1 < k2 < |idx|
        ensures idx[k1] < idx[k2]
      {
        if k2 < |idx'| {
          assert idx[k1] == idx'[k1] && idx[k2] == idx'[k2];
        } else {
          assert idx[k1] == idx'[k1] && idx[k2] == last;
        }
      }
    }
  }

  /** A position is among the matching ones exactly when that node's hostname has the prefix. */
  lemma {:induction false} MatchingIndicesExact(nodes: seq<Node>, prefix: string, i: nat)
    requires i < |nodes|
    ensures i in MatchingIndices(nodes, prefix) <==> HasPrefix(nodes[i].hostname, prefix)
  {
    var last := |nodes| - 1;
    var init := nodes[..last];
    var idx' := MatchingIndices(init, prefix);
    if i < last {
      MatchingIndicesExact(init, prefix, i);
      assert init[i] == nodes[i];
    } else {
      assert i !in idx';
    }
  }

  /** The `k`-th selected node is the node at the `k`-th matching position. */
  lemma {:induction false} SelectedAtMatchingIndex(nodes: seq<Node>, prefix: string, k: nat)
    requires k < |MatchingIndices(nodes, prefix)|
    ensures Selected(nodes, prefix)[k] == nodes[MatchingIndices(nodes, prefix)[k]]
  {
    var last := |nodes| - 1;
    var init := nodes[..last];
    var idx', sel' := MatchingIndices(init, prefix), Selected(init, prefix);
    if k < |idx'| {
      SelectedAtMatchingIndex(init, prefix, k);
      assert init[idx'[k]] == nodes[idx'[k]];
    }
  }

  /** The positions of `nodes` whose hostname starts with `prefix`. */
  function MatchingPositions(nodes: seq<Node>, prefix: string): (ps: set<nat>)
    ensures forall i :: i in ps <==> 0 <= i < |nodes| && HasPrefix(nodes[i].hostname, prefix)
  {
    set i: nat | i < |nodes| && HasPrefix(nodes[i].hostname, prefix)
  }

  /** Extending the list by one node adds its position exactly when its hostname matches. */
  lemma MatchingPositionsStep(nodes: seq<Node>, prefix: string)
    requires |nodes| > 0
    ensures var last := |nodes| - 1;
      MatchingPositions(nodes, prefix) == MatchingPositions(nodes[..last], prefix)
        + (if HasPrefix(nodes[last].hostname, prefix) then {last} else {})
  {
    var last := |nodes| - 1;
    var init := nodes[..last];
    forall i: nat | i < last
      ensures init[i] == nodes[i]
    {
    }
  }

  /** There are as many matching positions as nodes whose hostname starts with `prefix`. */
  lemma {:induction false} MatchingCount(nodes: seq<Node>, prefix: string)
    ensures |MatchingIndices(nodes, prefix)| == |MatchingPositions(nodes, prefix)|
  {
    if |nodes| == 0 {
      assert MatchingPositions(nodes, prefix) == {};
    } else {
      var last := |nodes| - 1;
      var init := nodes[..last];
      MatchingCount(init, prefix);
      MatchingPositionsStep(nodes, prefix);
      assert last !in MatchingPositions(init, prefix);
    }
  }

  /** With an empty filter every node is selected. */
  lemma {:induction false} EmptyPrefixSelectsAll(nodes: seq<Node>)
    ensures Selected(nodes, "") == nodes
    ensures MatchingIndices(nodes, "") == seq(|nodes|, i requires 0 <= i < |nodes| => i)
  {
    if |nodes| > 0 {
      var last := |nodes| - 1;
      EmptyPrefixSelectsAll(nodes[..last]);
      assert HasPrefix(nodes[last].hostname, "");
      assert nodes[..last] + [nodes[last]] == nodes;
    }
  }

  // ---------------------------------------------------------------------------
  // Blocks
  // ---------------------------------------------------------------------------

  /** Gauge `f` of a node is named by the table and exports the field that name stands for. */
  lemma NodeMetricsTable(n: Node, f: nat)
    requires f < 19
    ensures var ms := NodeMetrics(n, StatusValue(n.status));
      |ms| == |NodeMetricNames| == 19 &&
      ms[f].name == NodeMetricNames[f] && ms[f].kind == Gauge && ms[f].description == ms[f].name &&
      NodeField(n, ms[f].name) == Some(ms[f].value) && ms[f].labelKeys == [] && ms[f].labelVals == []
  {
  }

  /** Gauge `f` of block `k` sits at position `19 * k + f` of the concatenated blocks. */
  lemma BlocksAt(sel: seq<Node>, k: nat, f: nat)
    requires k < |sel| && f < 19
    ensures |HostnameBlock(sel[k])| == 19
    ensures Blocks(sel)[19 * k + f] == HostnameBlock(sel[k])[f]
  {
    ConcatBlocksAt(sel, HostnameBlock, k, f);
  }

  // ---------------------------------------------------------------------------
  // The formatter's output
  // ---------------------------------------------------------------------------

  /** The output holds 7 storage gauges and 19 gauges per node that matches the filter. */
  lemma FormatLength(nodeURL: string, nodeName: string, s: NodeStat)
    ensures |Format(nodeURL, nodeName, s)| == 7 + 19 * |MatchingPositions(s.nodes, nodeName)|
  {
    MatchingCount(s.nodes, nodeName);
  }

  /**
   * The output starts with the seven storage gauges, in the fixed order, each
   * exporting its storage-totals field and labelled with the source only.
   */
  lemma StorageMetricsLead(nodeURL: string, nodeName: string, s: NodeStat)
    ensures var r := Format(nodeURL, nodeName, s);
      |r| >= 7 &&
      forall i :: 0 <= i < 7 ==>
        r[i].name == StorageMetricNames[i] && r[i].kind == Gauge &&
        StorageField(s.storageTotals, r[i].name) == Some(r[i].value) &&
        r[i].labelKeys == ["source"] && r[i].labelVals == [nodeURL]
  {
  }

  /** Position `7 + 19 * k + f` of the output holds gauge `f` of the `k`-th selected node, fully labelled. */
  lemma FormatAt(nodeURL: string, nodeName: string, s: NodeStat, k: nat, f: nat)
    requires k < |Selected(s.nodes, nodeName)| && f < 19
    ensures var node := Selected(s.nodes, nodeName)[k];
      |NodeMetrics(node, StatusValue(node.status))| == 19 &&
      Format(nodeURL, nodeName, s)[7 + 19 * k + f] ==
        WithSource(WithHostname(NodeMetrics(node, StatusValue(node.status))[f], node.hostname), nodeURL)
  {
    var sel := Selected(s.nodes, nodeName);
    BlocksAt(sel, k, f);
    var pre := StorageMetrics(s.storageTotals) + Blocks(sel);
    assert pre[7 + 19 * k + f] == Blocks(sel)[19 * k + f];
  }

  /**
   * Gauge `f` of the `k`-th block comes from the `k`-th node matching the
   * filter: it is named by the table, exports that node's field, and is
   * labelled with the node's hostname and then the source.
   */
  lemma NodeMetricAt(nodeURL: string, nodeName: string, s: NodeStat, k: nat, f: nat)
    requires k < |MatchingIndices(s.nodes, nodeName)| && f < 19
    ensures var node, m := s.nodes[MatchingIndices(s.nodes, nodeName)[k]], Format(nodeURL, nodeName, s)[7 + 19 * k + f];
      m.name == NodeMetricNames[f] && m.kind == Gauge && m.description == m.name &&
      NodeField(node, m.name) == Some(m.value) &&
      m.labelKeys == ["hostname", "source"] && m.labelVals == [node.hostname, nodeURL]
  {
    SelectedAtMatchingIndex(s.nodes, nodeName, k);
    var node := Selected(s.nodes, nodeName)[k];
    FormatAt(nodeURL, nodeName, s, k, f);
    NodeMetricsTable(node, f);
  }

  /** A block's `status` gauge is 1 exactly when the node's status is "healthy", else 0. */
  lemma StatusMetric(nodeURL: string, nodeName: string, s: NodeStat, k: nat)
    requires k < |MatchingIndices(s.nodes, nodeName)|
    ensures var node, m := s.nodes[MatchingIndices(s.nodes, nodeName)[k]], Format(nodeURL, nodeName, s)[7 + 19 * k + 18];
      m.name == "status" &&
      (m.value == 1 <==> node.status == "healthy") &&
      (m.value == 0 <==> node.status != "healthy")
  {
    NodeMetricAt(nodeURL, nodeName, s, k, 18);
  }

  /**
   * Every output gauge has as many label keys as values and ends with
   * `source = nodeURL`.
   */
  lemma LabelsPaired(nodeURL: string, nodeName: string, s: NodeStat)
    ensures var r := Format(nodeURL, nodeName, s);
      forall i :: 0 <= i < |r| ==>
        r[i].kind == Gauge && |r[i].labelKeys| == |r[i].labelVals| > 0 &&
        r[i].labelKeys[|r[i].labelKeys| - 1] == "source" && r[i].labelVals[|r[i].labelVals| - 1] == nodeURL
  {
    var r := Format(nodeURL, nodeName, s);
    StorageMetricsLead(nodeURL, nodeName, s);
    FormatLength(nodeURL, nodeName, s);
    forall i | 7 <= i < |r|
      ensures r[i].kind == Gauge && |r[i].labelKeys| == |r[i].labelVals| > 0 &&
        r[i].labelKeys[|r[i].labelKeys| - 1] == "source" && r[i].labelVals[|r[i].labelVals| - 1] == nodeURL
    {
      var k, f := (i - 7) / 19, (i - 7) % 19;
      assert i == 7 + 19 * k + f;
      NodeMetricAt(nodeURL, nodeName, s, k, f);
    }
  }

  // ---------------------------------------------------------------------------
  // Worked examples
  // ---------------------------------------------------------------------------

  /** Filtering on "web" keeps "web-1:8091" and drops "db-1:8091"; the storage gauges stay. */
  lemma FilterExample(nodeURL: string, t: StorageTotals, web: Node, db: Node)
    requires web.hostname == "web-1:8091" && db.hostname == "db-1:8091"
    ensures MatchingIndices([web, db], "web") == [0]
    ensures var r := Format(nodeURL, "web", NodeStat([web, db], t));
      |r| == 7 + 19 && r[0].name == "storage_hdd_total" && r[7].labelVals == ["web-1:8091", nodeURL]
  {
    var nodes := [web, db];
    assert nodes[..1] == [web] && [web][..0] == [];
    assert HasPrefix(web.hostname, "web");
    assert !HasPrefix(db.hostname, "web") by {
      assert db.hostname[..3] != "web" by { assert db.hostname[0] == 'd'; }
    }
    FormatLength(nodeURL, "web", NodeStat(nodes, t));
    StorageMetricsLead(nodeURL, "web", NodeStat(nodes, t));
    NodeMetricAt(nodeURL, "web", NodeStat(nodes, t), 0, 0);
  }

  /**
   * One healthy node "n1" with 42 current items, no filter, queried at
   * "http://h:8091": the output holds the exact `curr_items` sample and `status = 1`.
   */
  lemma EndToEndExample(n: Node, t: StorageTotals)
    requires n.hostname == "n1" && n.status == "healthy" && n.interestingStats.currItems == 42
    ensures var r := Format("http://h:8091", "", NodeStat([n], t));
      |r| == 26 &&
      r[12] == Metric("curr_items", Gauge, 42, "curr_items", ["hostname", "source"], ["n1", "http://h:8091"]) &&
      r[25].name == "status" && r[25].value == 1
  {
    var s := NodeStat([n], t);
    EmptyPrefixSelectsAll([n]);
    FormatLength("http://h:8091", "", s);
    NodeMetricAt("http://h:8091", "", s, 0, 5);
    NodeMetricAt("http://h:8091", "", s, 0, 18);
  }
}
