# Couchbase node-statistics exporter: a verified model of the formatter

This project models the core of a Prometheus exporter for Couchbase. On each
scrape the exporter fetches a node's `/pools/default` statistics document and
flattens it into a list of labelled gauges. The model covers the collector's
`Collect` operation and the formatter `formatNodeStats` in
`couchbase/stats/node.go`.

- `wrappers.dfy` (module `Wrappers`): `Option` and `Result`, standing in for
  Go's `(value, error)` returns.
- `node_stats.dfy` (module `NodeStats`):
  - the decoded document as datatypes: `NodeStat`, `Node`,
    `InterestingStats`, `SystemStats`, `StorageTotals`;
  - the exported record `Metric`;
  - the exported names and the fields they stand for (`StorageMetricNames`,
    `NodeMetricNames`, `StorageField`, `NodeField`);
  - the specification functions (`StorageMetrics`, `NodeMetrics`,
    `Selected`, `Blocks`, `SourceAll`, `Format`);
  - the imperative formatter `FormatNodeStats`. Its node loop appends each
    surviving node's block. Two passes update the records' labels in place:
    `SetHostnameLabels` for the per-node labels and `AppendSourceLabels` for
    the final `source` label;
  - `NodeCollector.Collect`.
- `node_stats_properties.dfy` (module `NodeStatsProperties`): what the output
  looks like. The seven storage gauges come first. Then there is one 19-gauge
  block per node whose hostname starts with the configured prefix, in
  document order. Each gauge carries its named source field and ends with the
  `source` label. The file also holds two worked examples.

`FormatNodeStats` is proved to return exactly `Format(nodeURL, nodeName, s)`.
The lemmas about `Format` state the promised output shape: count, order,
names, values and labels.

Modelling choices:
- Go's `int64` fields are the subset type `Int64`.
- The float fields `cmd_get`, `get_hits`, `ops` and `cpu_utilization_rate`
  are `real`. Go's `int64(f)` conversion is `TruncToInt`, which truncates
  toward zero.
- A metric's value is an unbounded `int`.
- A Go nil label slice is the empty sequence. The source's two branches
  (nil versus non-nil) then both give "old labels + `source`".
- Go strings are `seq<char>`. `strings.HasPrefix` compares bytes. For valid
  UTF-8 input, a byte prefix is the same as a character prefix, because UTF-8
  is a prefix-free code.
- The collector is never mutated after construction, so it is a datatype
  holding `nodeURL` and `nodeName`, with `Collect` as a method on it.
- The fetch is a parameter of type `Result<NodeStat, FetchError>`. In the
  source, `collectNodeStats` returns an untyped Go `error` from five places
  (node.go:94-96, 99-102, 104-108, 110-112, 114). The three constructors of
  `FetchError` are this model's own classification of that error:
  - transport: building or sending the request, or reading the response body;
  - upstream: a status other than 200, carrying the response body;
  - decode: the body did not decode.

  `Collect` only passes the error on.
- `MetricType` has `Counter | Gauge`. The exporter library that defines the
  kinds is not part of this model, and the formatter only uses `Gauge`.

The model follows node.go in these points:
- It emits all seven storage gauges (node.go:121-164).
- Within a block, the five system-stats gauges come before `uptime` and
  `status` (node.go:250-291).
- The filter is always a prefix test, so an empty `nodeName` keeps every node
  (`EmptyPrefixSelectsAll`).

## Model

| member | source | states |
|---|---|---|
| NodeStats.TruncToInt | couchbase/stats/node.go:181 | converting a float field to an integer truncates toward zero: the result is within 1 of the input, on the input's side of 0 |
| NodeStats.StatusValue | couchbase/stats/node.go:171-176 | the numeric status is 0 or 1, and it is 1 exactly when the status string is "healthy" |
| NodeStats.HasPrefix | couchbase/stats/node.go:168 | `strings.HasPrefix(hostname, nodeName)` holds exactly when `nodeName` is a prefix of the hostname |
| NodeStats.StorageMetrics | couchbase/stats/node.go:121-164 | there are seven storage records, each an unlabelled gauge holding the storage-totals field its name stands for; `StorageMetricsLead` states their order |
| NodeStats.NodeMetrics | couchbase/stats/node.go:177-292 | one node's record literal holds 19 gauges; `NodeMetricsTable` states each position's name, description, labels and value |
| NodeStats.Selected | couchbase/stats/node.go:167-170 | the filter keeps at most all nodes, only nodes of the document, and only nodes whose hostname starts with the prefix; `MatchingIndicesExact` and `SelectedAtMatchingIndex` give the converse and the order |
| NodeStats.MatchingIndices | couchbase/stats/node.go:167-170 | there is one matching position per selected node, and every position is inside the node list |
| NodeStats.Blocks | couchbase/stats/node.go:177-297 | the blocks of the selected nodes hold exactly 19 metrics per node |
| NodeStats.ConcatBlocks | couchbase/stats/node.go:297 | appending one 19-metric block per selected node gives 19 metrics per node |
| NodeStats.ConcatBlocksAt | couchbase/stats/node.go:297 | metric f of block k of the concatenation is at position 19·k + f |
| NodeStats.BlocksStep | couchbase/stats/node.go:166-298 | each loop step appends the node's hostname-labelled block if its hostname has the prefix, and appends nothing otherwise |
| NodeStats.SetHostnameLabels | couchbase/stats/node.go:293-296 | the per-node pass replaces every record's labels with `hostname = <host>`, keeps everything else, and keeps the order |
| NodeStats.AppendSourceLabels | couchbase/stats/node.go:304-315 | the final pass appends key `source` and value `nodeURL` after each record's existing labels, keeps everything else, and keeps the order |
| NodeStats.Format | couchbase/stats/node.go:118-319 | the output is 7 storage gauges plus 19 gauges per selected node; its content is stated by `StorageMetricsLead`, `NodeMetricAt`, `StatusMetric` and `LabelsPaired` |
| NodeStats.FormatNodeStats | couchbase/stats/node.go:118-319 | the imperative formatter returns exactly the specified output: source-labelled storage gauges, then source-labelled blocks of the selected nodes |
| NodeStats.NodeCollector.Collect | couchbase/stats/node.go:23-30 | a failed fetch gives an empty metric list and that same error; a successful fetch gives the formatter's output for the configured URL and prefix, with no error |
| NodeStatsProperties.MatchingIndicesIncreasing | couchbase/stats/node.go:167 | the surviving nodes keep their document order: their positions strictly increase |
| NodeStatsProperties.MatchingIndicesExact | couchbase/stats/node.go:167-170 | a node contributes if and only if its hostname starts with `nodeName` |
| NodeStatsProperties.SelectedAtMatchingIndex | couchbase/stats/node.go:166-170 | the k-th selected node is the node at the k-th matching position of the document |
| NodeStatsProperties.MatchingPositions | couchbase/stats/node.go:167-170 | a position is in the set exactly when it is a position of the document and its node's hostname starts with the prefix |
| NodeStatsProperties.MatchingPositionsStep | couchbase/stats/node.go:166-170 | one more node of the list adds its position to the matching set exactly when its hostname starts with the prefix |
| NodeStatsProperties.MatchingCount | couchbase/stats/node.go:167-170 | the number of matching positions equals the number of nodes whose hostname starts with the prefix |
| NodeStatsProperties.EmptyPrefixSelectsAll | couchbase/stats/node.go:168 | with an empty `nodeName`, every node is selected and every position matches |
| NodeStatsProperties.NodeMetricsTable | couchbase/stats/node.go:177-291 | per-node metric f has the f-th fixed name (`cmd_get` … `status`), is a gauge, has its name as description, has no labels yet, and holds the node field that the name stands for |
| NodeStatsProperties.BlocksAt | couchbase/stats/node.go:297 | the blocks are contiguous: metric f of the k-th selected node is at position 19·k + f |
| NodeStatsProperties.FormatLength | couchbase/stats/node.go:300-302 | the output length is 7 + 19 × the size of the set of document positions whose hostname starts with `nodeName` |
| NodeStatsProperties.StorageMetricsLead | couchbase/stats/node.go:121-164 | the output begins with the seven storage gauges in their fixed order, whatever the filter. Each holds its storage-totals field and has labels `[source]` = `[nodeURL]` |
| NodeStatsProperties.FormatAt | couchbase/stats/node.go:297-315 | output position 7 + 19·k + f holds metric f of the k-th selected node, with the hostname label and then the source label |
| NodeStatsProperties.NodeMetricAt | couchbase/stats/node.go:177-297 | metric f of the k-th block has the f-th fixed name, is a gauge, and holds the named field of the k-th matching node. Its labels are `[hostname, source]` = `[node.hostname, nodeURL]` |
| NodeStatsProperties.StatusMetric | couchbase/stats/node.go:286-290 | the last metric of each block is `status`: 1 when the node's status is "healthy", 0 otherwise |
| NodeStatsProperties.LabelsPaired | couchbase/stats/node.go:304-315 | every output metric is a gauge with as many label keys as values, and its last label is `source = nodeURL` |
| NodeStatsProperties.FilterExample | couchbase/stats/node.go:167-170 | with prefix "web", "web-1:8091" contributes and "db-1:8091" does not; the storage gauges remain |
| NodeStatsProperties.EndToEndExample | couchbase/stats/node.go:208-213 | one healthy node "n1" with 42 current items, no filter, URL "http://h:8091" gives the exact `curr_items` sample and `status = 1` |

## Left out

- `collectNodeStats` and `GlobalClient` (couchbase/stats/node.go:88-116) are left out: request construction, the 10-second timeout, network I/O, body reading, the non-200 check and JSON decoding. Their outcome is the `fetched` parameter of `Collect`.
- JSON decoding semantics are left out: the `uptime,string` tag, `omitempty`, unknown fields ignored and missing fields set to zero. The document is modelled already decoded.
- NodeStats.TruncToInt: states Go's conversion only for finite in-range floats. NaN, infinities and values outside `int64` are not modelled, so a metric value is an unbounded `int`.
- Each node's own `StorageTotals` is decoded but never exported. The model keeps the field and nothing reads it, as in the source.
- Pointer identity and aliasing of the metric records are not modelled. Records are values, and the two label passes rebuild the records in the sequence.
- Calling the formatter twice on the same input gives the same output. There is no separate lemma for this: `FormatNodeStats` is proved equal to the function `Format`, so it holds by construction.
- `couchbase/couchbase.go` (the exporter's registration with, and describe/collect glue to, an exporter library that is not part of this model) and `couchbase_exporter.go` (flags, HTTP server, `log.Fatal`) are process bootstrap and framework glue, so they are left out.
