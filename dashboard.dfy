/** The client state of the fleet health dashboard
    (pkgs/fleet-health-monitor/public/js/dashboard.js): the node and alert
    lists the socket handlers update, the 60-sample metric window, and the
    classifiers, filters and selections the views are built from.
    JavaScript objects are maps from property names to values; a property
    that is absent reads as `undefined` (None). */
module Dashboard {
  import opened Wrappers
  import CNum
  import Seqs

  // ----- values and records -----

  /** A JavaScript primitive as the dashboard receives it. */
  datatype Value = Str(s: string) | Num(n: real) | Bool(b: bool) | Null

  /** A plain object: a node or an alert. */
  type Record = map<string, Value>

  /** `r[key]`: None for `undefined`. */
  function Field(r: Record, key: string): Option<Value> {
    if key in r then Some(r[key]) else None
  }

  /** JavaScript truthiness: `undefined`, `null`, `false`, 0 and "" are falsy. */
  predicate Truthy(v: Option<Value>) {
    match v
    case None => false
    case Some(Null) => false
    case Some(Bool(b)) => b
    case Some(Num(n)) => n != 0.0
    case Some(Str(s)) => s != ""
  }

  /** `s.findIndex(x => x.id === id)`; None for -1. Two records without an
      `id` have equal ids (`undefined === undefined`). */
  function IndexOfId(s: seq<Record>, id: Option<Value>): (r: Option<nat>)
    ensures r.Some? ==> (r.value < |s| && Field(s[r.value], "id") == id &&
      forall j :: 0 <= j < r.value ==> Field(s[j], "id") != id)
    ensures r.None? ==> forall j :: 0 <= j < |s| ==> Field(s[j], "id") != id
  {
    if |s| == 0 then None
    else if Field(s[0], "id") == id then Some(0)
    else match IndexOfId(s[1..], id)
      case Some(i) => Some(i + 1)
      case None => None
  }

  // ----- filters -----

  /** The tests the dashboard filters records with. */
  datatype Test =
    | FieldIs(key: string, value: Value)   // `r[key] === value`
    | NotTruthy(key: string)               // `!r[key]`

  predicate Passes(t: Test, r: Record) {
    match t
    case FieldIs(key, value) => Field(r, key) == Some(value)
    case NotTruthy(key) => !Truthy(Field(r, key))
  }

  /** `s.filter(...)` with the test `t`. */
  function Where(s: seq<Record>, t: Test): (r: seq<Record>)
    ensures |r| <= |s|
    ensures forall x :: x in r <==> x in s && Passes(t, x)
  {
    if |s| == 0 then []
    else if Passes(t, s[0]) then [s[0]] + Where(s[1..], t)
    else Where(s[1..], t)
  }

  /** Filtering keeps the order of what it keeps. */
  lemma {:induction false} WhereKeepsOrder(s: seq<Record>, t: Test)
    ensures Seqs.SubsequenceOf(Where(s, t), s)
  {
    if |s| > 0 {
      WhereKeepsOrder(s[1..], t);
      if Passes(t, s[0]) {
        assert Where(s, t)[1..] == Where(s[1..], t);
      }
    }
  }

  /** Filtering a sequence with one element replaced changes the count by
      what the old and the new element each contribute. */
  lemma {:induction false} WhereCountUpdate(s: seq<Record>, t: Test, i: nat, x: Record)
    requires i < |s|
    ensures |Where(s[i := x], t)| ==
      |Where(s, t)| - (if Passes(t, s[i]) then 1 else 0) + (if Passes(t, x) then 1 else 0)
  {
    if i == 0 {
      assert s[i := x][1..] == s[1..];
    } else {
      WhereCountUpdate(s[1..], t, i - 1, x);
      assert s[i := x][1..] == s[1..][i - 1 := x];
    }
  }

  /** `renderNodes(filter)`: every node for 'all', else the nodes whose
      `type` is the filter. */
  function NodesShown(nodes: seq<Record>, filter: string): seq<Record> {
    if filter == "all" then nodes else Where(nodes, FieldIs("type", Str(filter)))
  }

  /** `renderAlerts(filter)`: every alert for 'all', else the alerts whose
      `level` is the filter. */
  function AlertsShown(alerts: seq<Record>, filter: string): seq<Record> {
    if filter == "all" then alerts else Where(alerts, FieldIs("level", Str(filter)))
  }

  /** Both views keep their list's order, and show exactly the records
      that match the filter. */
  lemma ShownFilters(nodes: seq<Record>, alerts: seq<Record>, filter: string)
    ensures Seqs.SubsequenceOf(NodesShown(nodes, filter), nodes) && Seqs.SubsequenceOf(AlertsShown(alerts, filter), alerts)
    ensures filter != "all" ==> forall n :: n in NodesShown(nodes, filter) <==> n in nodes && Field(n, "type") == Some(Str(filter))
    ensures filter != "all" ==> forall a :: a in AlertsShown(alerts, filter) <==> a in alerts && Field(a, "level") == Some(Str(filter))
  {
    WhereKeepsOrder(nodes, FieldIs("type", Str(filter)));
    WhereKeepsOrder(alerts, FieldIs("level", Str(filter)));
    Seqs.SubsequenceOfSelf(nodes);
    Seqs.SubsequenceOfSelf(alerts);
  }

  // ----- the node and alert lists -----

  /** `{ ...old, ...update }`: every property of the update, and the old
      properties it does not mention. */
  lemma MergeFields(old_: Record, update: Record)
    ensures (old_ + update).Keys == old_.Keys + update.Keys
    ensures forall k :: k in update ==> Field(old_ + update, k) == Field(update, k)
    ensures forall k :: k !in update ==> Field(old_ + update, k) == Field(old_, k)
  {
  }

  /** The node list after a `node-update` event. */
  function Upserted(nodes: seq<Record>, node: Record): seq<Record> {
    match IndexOfId(nodes, Field(node, "id"))
    case Some(i) => nodes[i := nodes[i] + node]
    case None => nodes + [node]
  }

  /** A node whose id is already listed is merged into the first node with
      that id, at the same position; any other node is appended; no other
      node changes. Afterwards the id is found, and that node has every
      property of the update. */
  lemma UpsertedSpec(nodes: seq<Record>, node: Record)
    ensures var r, id := Upserted(nodes, node), Field(node, "id");
      match IndexOfId(nodes, id)
      case Some(i) => |r| == |nodes| && r[i] == nodes[i] + node &&
        forall j :: 0 <= j < |nodes| && j != i ==> r[j] == nodes[j]
      case None => r == nodes + [node]
    ensures var r := Upserted(nodes, node);
      var found := IndexOfId(r, Field(node, "id"));
      found.Some? && forall k :: k in node ==> Field(r[found.value], k) == Some(node[k])
  {
    var r, id := Upserted(nodes, node), Field(node, "id");
    match IndexOfId(nodes, id)
    case Some(i) =>
      assert IndexOfId(r, id) == Some(i) by {
        IndexOfIdUnchangedPrefix(nodes, r, id, i);
      }
    case None =>
      IndexOfIdAppended(nodes, node);
  }

  /** Two lists that agree before `i` and both have the id at `i` find it
      at `i`. */
  lemma {:induction false} IndexOfIdUnchangedPrefix(a: seq<Record>, b: seq<Record>, id: Option<Value>, i: nat)
    requires i < |a| && i < |b|
    requires forall j :: 0 <= j < i ==> a[j] == b[j]
    requires Field(b[i], "id") == id
    requires IndexOfId(a, id) == Some(i)
    ensures IndexOfId(b, id) == Some(i)
  {
    if i > 0 {
      IndexOfIdUnchangedPrefix(a[1..], b[1..], id, i - 1);
    }
  }

  /** A record appended to a list without its id is found at the end. */
  lemma IndexOfIdAppended(s: seq<Record>, x: Record)
    requires IndexOfId(s, Field(x, "id")).None?
    ensures IndexOfId(s + [x], Field(x, "id")) == Some(|s|)
  {
    assert (s + [x])[|s|] == x;
    assert forall j :: 0 <= j < |s| ==> (s + [x])[j] == s[j];
  }

  /** `acknowledgeAlert(id)`: the first alert with the id gets
      `acknowledged = true`; without one nothing changes. */
  function Acknowledged(alerts: seq<Record>, id: Option<Value>): seq<Record> {
    match IndexOfId(alerts, id)
    case Some(i) => alerts[i := alerts[i]["acknowledged" := Bool(true)]]
    case None => alerts
  }

  /** The unacknowledged alerts: `alerts.filter(alert => !alert.acknowledged)`. */
  function Active(alerts: seq<Record>): seq<Record> {
    Where(alerts, NotTruthy("acknowledged"))
  }

  /** Acknowledging changes only the first alert with the id, which then
      is acknowledged; the number of active alerts drops by one exactly
      when that alert was active, and stays otherwise. */
  lemma AcknowledgedSpec(alerts: seq<Record>, id: Option<Value>)
    ensures |Acknowledged(alerts, id)| == |alerts|
    ensures match IndexOfId(alerts, id)
      case Some(i) =>
        Truthy(Field(Acknowledged(alerts, id)[i], "acknowledged")) &&
        (forall j :: 0 <= j < |alerts| && j != i ==> Acknowledged(alerts, id)[j] == alerts[j]) &&
        |Active(Acknowledged(alerts, id))| ==
          |Active(alerts)| - (if Truthy(Field(alerts[i], "acknowledged")) then 0 else 1)
      case None => Acknowledged(alerts, id) == alerts
  {
    match IndexOfId(alerts, id)
    case Some(i) =>
      WhereCountUpdate(alerts, NotTruthy("acknowledged"), i, alerts[i]["acknowledged" := Bool(true)]);
    case None =>
  }

  /** The message of the alert the red-alert button raises. */
  const RedAlertMessage := "RED ALERT: Manual alert triggered by operator"

  /** The alert `triggerRedAlert` creates; `now` is `Date.now()` and
      `timestamp` the ISO form of the same time. */
  function RedAlert(now: real, timestamp: string): Record {
    map["id" := Num(now), "level" := Str("critical"), "message" := Str(RedAlertMessage),
        "timestamp" := Str(timestamp), "node_id" := Null, "node_name" := Str("System"),
        "acknowledged" := Bool(false)]
  }

  // ----- the dashboard summary -----

  /** The active-alerts panel of `updateDashboardSummary`. */
  datatype AlertPanel =
    | NoActiveAlerts
    | Listed(shown: seq<Record>, more: Option<string>)

  /** The line under the first five alerts. */
  function MoreLine(hidden: nat): string {
    "+ " + CNum.DecimalString(hidden) + " more alerts"
  }

  function AlertSummary(alerts: seq<Record>): AlertPanel {
    var active := Active(alerts);
    if |active| == 0 then NoActiveAlerts
    else Listed(active[..if |active| < 5 then |active| else 5],
                if |active| > 5 then Some(MoreLine(|active| - 5)) else None)
  }

  /** The panel lists the first active alerts, at most five, in order,
      and a "+ N more alerts" line exactly when there are more than five,
      whose number reads back as how many were left out. */
  lemma AlertSummarySpec(alerts: seq<Record>)
    ensures var active := Active(alerts);
      match AlertSummary(alerts)
      case NoActiveAlerts => active == []
      case Listed(shown, more) =>
        0 < |shown| <= 5 && shown == active[..|shown|] && (|shown| < 5 ==> shown == active) &&
        (more.Some? <==> |active| > 5) &&
        (more.Some? ==> (more.value[..2] == "+ " &&
          CNum.Strtol(more.value[2..]) == CNum.Conversion(|active| - 5, |CNum.DecimalString(|active| - 5)|)))
  {
    var active := Active(alerts);
    if |active| > 5 {
      var n := |active| - 5;
      var line := MoreLine(n);
      CNum.DecimalRoundTrip(n);
      assert line[2..] == CNum.DecimalString(n) + " more alerts";
      CNum.StrtolOfDigits(CNum.DecimalString(n), " more alerts");
    }
  }

  /** A red alert is active, so right after it is raised it heads the
      panel. */
  lemma RedAlertHeadsSummary(alerts: seq<Record>, now: real, timestamp: string)
    ensures AlertSummary([RedAlert(now, timestamp)] + alerts).Listed?
    ensures AlertSummary([RedAlert(now, timestamp)] + alerts).shown[0] == RedAlert(now, timestamp)
  {
    var s := [RedAlert(now, timestamp)] + alerts;
    assert s[1..] == alerts;
    assert Passes(NotTruthy("acknowledged"), RedAlert(now, timestamp));
  }

  /** The node counts of `updateDashboardSummary`: active (online), then
      online, offline and warning for the status chart. */
  datatype NodeCounts = NodeCounts(active: nat, online: nat, offline: nat, warning: nat)

  function CountNodes(nodes: seq<Record>): NodeCounts {
    var online := |Where(nodes, FieldIs("status", Str("online")))|;
    NodeCounts(online, online, |Where(nodes, FieldIs("status", Str("offline")))|,
               |Where(nodes, FieldIs("status", Str("warning")))|)
  }

  /** A node has one status, so the three counts add up to at most the
      number of nodes. */
  lemma {:induction false} NodeCountsBounded(nodes: seq<Record>)
    ensures var c := CountNodes(nodes); c.active == c.online && c.online + c.offline + c.warning <= |nodes|
  {
    if |nodes| > 0 {
      NodeCountsBounded(nodes[1..]);
    }
  }

  // ----- classifiers -----

  /** `getHealthStatus`. */
  function HealthStatus(score: real): string {
    if score >= 80.0 then "NOMINAL"
    else if score >= 60.0 then "ACCEPTABLE"
    else if score >= 40.0 then "DEGRADED"
    else "CRITICAL"
  }

  /** `getHealthClass`. */
  function HealthClass(score: real): string {
    if score >= 80.0 then "nominal"
    else if score >= 60.0 then ""
    else if score >= 40.0 then "warning"
    else "critical"
  }

  /** The class that goes with each status. */
  function ClassOfStatus(status: string): string {
    if status == "NOMINAL" then "nominal"
    else if status == "ACCEPTABLE" then ""
    else if status == "DEGRADED" then "warning"
    else "critical"
  }

  /** How good a status is, from 0 (CRITICAL) to 3 (NOMINAL). */
  function StatusRank(status: string): nat {
    if status == "NOMINAL" then 3
    else if status == "ACCEPTABLE" then 2
    else if status == "DEGRADED" then 1
    else 0
  }

  /** The class always matches the status: the two use the same thresholds. */
  lemma HealthClassMatchesStatus(score: real)
    ensures HealthClass(score) == ClassOfStatus(HealthStatus(score))
  {
  }

  /** A higher score never gives a worse status. */
  lemma HealthStatusMonotone(a: real, b: real)
    requires a <= b
    ensures StatusRank(HealthStatus(a)) <= StatusRank(HealthStatus(b))
  {
  }

  /** `getMeterClass`. */
  function MeterClass(value: real): string {
    if value < 70.0 then "" else if value < 90.0 then "warning" else "danger"
  }

  function MeterRank(cls: string): nat {
    if cls == "" then 0 else if cls == "warning" then 1 else 2
  }

  /** A higher reading never gives a milder meter class. */
  lemma MeterClassMonotone(a: real, b: real)
    requires a <= b
    ensures MeterRank(MeterClass(a)) <= MeterRank(MeterClass(b))
  {
  }

  /** The network meter: `Math.min(kbps / 10, 100)` percent. */
  function NetworkPercent(kbps: real): (p: real)
    ensures p <= 100.0
    ensures kbps <= 1000.0 ==> p == kbps / 10.0
  {
    if kbps / 10.0 < 100.0 then kbps / 10.0 else 100.0
  }

  /** The network meter turns to danger from 900 KB/s on, and to warning
      from 700 KB/s. */
  lemma NetworkMeterThresholds(kbps: real)
    ensures MeterClass(NetworkPercent(kbps)) == "danger" <==> kbps >= 900.0
    ensures MeterClass(NetworkPercent(kbps)) == "warning" <==> 700.0 <= kbps < 900.0
  {
  }

  /** The five metrics the chart offers. */
  const MetricKeys: seq<string> := ["cpu", "memory", "disk", "network", "temperature"]

  /** `getMetricLabel`. */
  function MetricLabel(metric: string): (name: string)
    ensures metric !in MetricKeys ==> name == metric
  {
    if metric == "cpu" then "CPU Usage (%)"
    else if metric == "memory" then "Memory Usage (%)"
    else if metric == "disk" then "Disk Usage (%)"
    else if metric == "network" then "Network Traffic (KB/s)"
    else if metric == "temperature" then "Temperature (°C)"
    else metric
  }

  /** The five metrics get five different labels, none of them a metric
      name, so no label is mistaken for a key passed through. */
  lemma MetricLabelsDistinct()
    ensures forall i, j :: 0 <= i < j < 5 ==> MetricLabel(MetricKeys[i]) != MetricLabel(MetricKeys[j])
    ensures forall i :: 0 <= i < 5 ==> MetricLabel(MetricKeys[i]) !in MetricKeys
  {
  }

  // ----- the metric window -----

  /** One generated sample; the random draws and the clock are inputs. */
  datatype Sample = Sample(timestamp: string, cpu: int, memory: int, disk: int, network: int, temperature: int)

  /** How many samples the window keeps. */
  const WindowSize := 60

  /** `push(v)`, then `shift()` when `drop` holds. */
  function Slide<T>(s: seq<T>, v: T, drop: bool): seq<T> {
    if drop then (s + [v])[1..] else s + [v]
  }

  /** In a window of at most 60, pushing and shifting once past 60 keeps
      the newest `min(n + 1, 60)` samples, in order, ending with the new one. */
  lemma SlideWindow<T>(s: seq<T>, v: T)
    requires |s| <= WindowSize
    ensures var r := Slide(s, v, |s| + 1 > WindowSize);
      |r| == (if |s| + 1 > WindowSize then WindowSize else |s| + 1) &&
      r[|r| - 1] == v && r == (s + [v])[|s| + 1 - |r|..]
  {
  }

  /** The dashboard's 4-term health score of one sample. */
  function HealthScore(cpu: int, memory: int, disk: int, temperature: int): real {
    100.0 - (((cpu + memory) as real) / 2.0 * 0.5 + (disk as real) * 0.3 + ((temperature - 40) as real) * 2.0)
  }

  /** For the ranges the generator draws from (cpu and memory 0-99, disk
      50-79, temperature 40-59) the score lies between -11.2 and 85, both
      reached: it is not confined to the 0-100 the code's comment names. */
  lemma HealthScoreRange(cpu: int, memory: int, disk: int, temperature: int)
    requires 0 <= cpu <= 99 && 0 <= memory <= 99 && 50 <= disk <= 79 && 40 <= temperature <= 59
    ensures -11.2 <= HealthScore(cpu, memory, disk, temperature) <= 85.0
    ensures HealthScore(99, 99, 79, 59) == -11.2 && HealthScore(0, 0, 50, 40) == 85.0
  {
  }

  // ----- the metrics chart -----

  /** `s.slice(-d)`: the start `-d` is truncated toward zero, so any `d`
      below 1 (0 included) gives the whole series. */
  function SliceFromEnd<T>(s: seq<T>, d: real): (r: seq<T>)
    ensures |r| <= |s| && r == s[|s| - |r|..]
  {
    var rel := CNum.Trunc(-d);
    var start := if rel < 0 then (if |s| + rel < 0 then 0 else |s| + rel)
                 else (if rel > |s| then |s| else rel);
    s[start..]
  }

  /** For a whole number of points up to the length, the last `d`; for
      fewer than one point, everything. */
  lemma SliceFromEndSpec<T>(s: seq<T>, d: real)
    ensures 1.0 <= d && d == (d.Floor as real) && d.Floor <= |s| ==> SliceFromEnd(s, d) == s[|s| - d.Floor..]
    ensures 0.0 <= d < 1.0 ==> SliceFromEnd(s, d) == s
  {
  }

  /** The y axis `updateMetricsChart` sets: its maximum (None for
      `undefined`) and title. */
  datatype YAxis = YAxis(max: Option<int>, title: string)

  /** The chart after `updateMetricsChart`. */
  datatype Chart = Chart(labels: seq<string>, data: seq<int>, title: string, axis: Option<YAxis>)

  /** The axis for a metric; None leaves the previous axis in place. */
  function AxisFor(metric: string): Option<YAxis> {
    if metric == "cpu" || metric == "memory" || metric == "disk" then Some(YAxis(Some(100), "Percentage (%)"))
    else if metric == "network" then Some(YAxis(None, "KB/s"))
    else if metric == "temperature" then Some(YAxis(Some(100), "°C"))
    else None
  }

  /** `Math.min(length, timeRange * 60 / refreshRate)`. */
  function DataPoints(length: nat, timeRange: real, refreshRate: real): real
    requires refreshRate > 0.0
  {
    var wanted := timeRange * 60.0 / refreshRate;
    if (length as real) < wanted then length as real else wanted
  }

  /** `updateMetricsChart` for a metric whose series is `series` (None
      while `state.metrics[metric]` is undefined, when nothing is drawn).
      The labels are the matching timestamps. */
  function ChartFor(metric: string, series: Option<seq<int>>, timestamps: seq<string>,
                    timeRange: real, refreshRate: real): Option<Chart>
    requires refreshRate > 0.0
  {
    match series
    case None => None
    case Some(data) =>
      var d := DataPoints(|data|, timeRange, refreshRate);
      Some(Chart(SliceFromEnd(timestamps, d), SliceFromEnd(data, d), MetricLabel(metric), AxisFor(metric)))
  }

  /** When the series is as long as the timestamps, the chart has a label
      for every point, and its points are the newest of the series; a time
      range of 0 shows the whole series. */
  lemma ChartSpec(metric: string, data: seq<int>, timestamps: seq<string>, timeRange: real, refreshRate: real)
    requires refreshRate > 0.0 && |data| == |timestamps|
    ensures var c := ChartFor(metric, Some(data), timestamps, timeRange, refreshRate).value;
      |c.labels| == |c.data| && c.data == data[|data| - |c.data|..] &&
      c.labels == timestamps[|timestamps| - |c.labels|..]
    ensures timeRange == 0.0 ==> ChartFor(metric, Some(data), timestamps, timeRange, refreshRate).value.data == data
  {
  }

  // ----- the state the handlers update -----

  /** The dashboard's `state`: the node and alert lists and the metric
      series (`present` is false while `state.metrics` is still `{}`). */
  class DashboardState {
    var nodes: seq<Record>
    var alerts: seq<Record>
    var present: bool
    var timestamps: seq<string>
    var cpu: seq<int>
    var memory: seq<int>
    var disk: seq<int>
    var network: seq<int>
    var temperature: seq<int>

    /** All six series have one entry per sample, at most 60. */
    predicate WindowValid()
      reads this
    {
      present ==>
        |cpu| == |timestamps| && |memory| == |timestamps| && |disk| == |timestamps| &&
        |network| == |timestamps| && |temperature| == |timestamps| && |timestamps| <= WindowSize
    }

    constructor ()
      ensures nodes == [] && alerts == [] && !present && WindowValid()
    {
      nodes, alerts := [], [];
      present := false;
      timestamps, cpu, memory, disk, network, temperature := [], [], [], [], [], [];
    }

    /** The `node-update` handler. */
    method OnNodeUpdate(node: Record)
      modifies this
      ensures nodes == Upserted(old(nodes), node)
      ensures alerts == old(alerts)
      ensures present == old(present) && timestamps == old(timestamps) && cpu == old(cpu) &&
        memory == old(memory) && disk == old(disk) && network == old(network) &&
        temperature == old(temperature)
      ensures WindowValid() == old(WindowValid())
    {
      var index := IndexOfId(nodes, Field(node, "id"));
      if index.Some? {
        nodes := nodes[index.value := nodes[index.value] + node];
      } else {
        nodes := nodes + [node];
      }
    }

    /** The `alert` handler: the alert goes first. */
    method OnAlert(alert: Record)
      modifies this
      ensures alerts == [alert] + old(alerts)
      ensures nodes == old(nodes)
      ensures present == old(present) && timestamps == old(timestamps) && cpu == old(cpu) &&
        memory == old(memory) && disk == old(disk) && network == old(network) &&
        temperature == old(temperature)
      ensures WindowValid() == old(WindowValid())
    {
      alerts := [alert] + alerts;
    }

    /** `acknowledgeAlert`. */
    method AcknowledgeAlert(alertId: Option<Value>)
      modifies this
      ensures alerts == Acknowledged(old(alerts), alertId)
      ensures nodes == old(nodes)
      ensures present == old(present) && timestamps == old(timestamps) && cpu == old(cpu) &&
        memory == old(memory) && disk == old(disk) && network == old(network) &&
        temperature == old(temperature)
      ensures WindowValid() == old(WindowValid())
    {
      var index := IndexOfId(alerts, alertId);
      if index.Some? {
        alerts := alerts[index.value := alerts[index.value]["acknowledged" := Bool(true)]];
      }
    }

    /** `triggerRedAlert`, state part. */
    method TriggerRedAlert(now: real, timestamp: string)
      modifies this
      ensures alerts == [RedAlert(now, timestamp)] + old(alerts)
      ensures nodes == old(nodes)
      ensures present == old(present) && timestamps == old(timestamps) && cpu == old(cpu) &&
        memory == old(memory) && disk == old(disk) && network == old(network) &&
        temperature == old(temperature)
      ensures WindowValid() == old(WindowValid())
    {
      var alert := RedAlert(now, timestamp);
      alerts := [alert] + alerts;
    }

    /** `generateRandomMetrics`, state part: the series are created empty
        on first use, the sample is pushed onto each, and once the
        timestamps exceed 60 the oldest entry of every series is shifted
        out. The window stays valid. */
    method GenerateMetrics(sample: Sample)
      modifies this
      ensures present && (old(WindowValid()) ==> WindowValid())
      ensures var drop := (if old(present) then |old(timestamps)| else 0) + 1 > WindowSize;
        timestamps == Slide(if old(present) then old(timestamps) else [], sample.timestamp, drop) &&
        cpu == Slide(if old(present) then old(cpu) else [], sample.cpu, drop) &&
        memory == Slide(if old(present) then old(memory) else [], sample.memory, drop) &&
        disk == Slide(if old(present) then old(disk) else [], sample.disk, drop) &&
        network == Slide(if old(present) then old(network) else [], sample.network, drop) &&
        temperature == Slide(if old(present) then old(temperature) else [], sample.temperature, drop)
      ensures nodes == old(nodes) && alerts == old(alerts)
    {
      if !present {
        present := true;
        timestamps, cpu, memory, disk, network, temperature := [], [], [], [], [], [];
      }
      timestamps := timestamps + [sample.timestamp];
      cpu := cpu + [sample.cpu];
      memory := memory + [sample.memory];
      disk := disk + [sample.disk];
      network := network + [sample.network];
      temperature := temperature + [sample.temperature];
      if |timestamps| > WindowSize {
        timestamps := timestamps[1..];
        cpu := cpu[1..];
        memory := memory[1..];
        disk := disk[1..];
        network := network[1..];
        temperature := temperature[1..];
      }
    }
  }
}
