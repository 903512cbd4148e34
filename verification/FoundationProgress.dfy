/**
 Foundation telemetry: what a response says about phases, nodes and clusters, and
 the roll-up that must never invent completion.
 */
module FoundationProgress {
  import opened Prelude
  import opened Text

  datatype Status = Completed | Failed | Running | Pending | Cancelled | Unknown

  datatype Phase =
    | Validation | ImagePreparation | HardwareConfiguration | HypervisorInstallation | AosInstallation | ClusterFormation

  const REPORTED_PHASES := {ImagePreparation, HardwareConfiguration, HypervisorInstallation, AosInstallation, ClusterFormation}

  const COMPLETED := {"complete", "completed", "success", "succeeded", "finished", "done", "all operations completed successfully"}
  const FAILED := {"failed", "failure", "error"}
  const RUNNING := {"running", "in_progress", "in progress"}
  const PENDING := {"pending", "not_started", "not run", "not started", "queued"}
  const CANCELLED := {"aborted", "cancelled", "canceled"}

  /** `status` */
  function StatusOf(value: string): Status {
    var s := Strip(Lower(value));
    if "fatal:" <= s || "failed:" <= s || "error:" <= s then Failed
    else if "running " <= s || "running:" <= s then Running
    else if s in COMPLETED then Completed
    else if s in FAILED then Failed
    else if s in RUNNING then Running
    else if s in PENDING then Pending
    else if s in CANCELLED then Cancelled
    else Unknown
  }

  function Underscored(s: string): string {
    seq(|s|, k requires 0 <= k < |s| => if s[k] == ' ' || s[k] == '-' then '_' else s[k])
  }

  /** `phase_key`, without the validation phase, which no response may report. */
  function PhaseOf(value: string): Option<Phase> {
    var s := Underscored(Strip(Lower(value)));
    if s == "image_preparation" || s == "patch_iso" || s == "prepare_image" then Some(ImagePreparation)
    else if s == "hardware_configuration" || s == "ipmi_config" || s == "configure_hardware" then Some(HardwareConfiguration)
    else if s == "hypervisor_installation" || s == "install_hypervisor" then Some(HypervisorInstallation)
    else if s == "aos_installation" || s == "install_aos" then Some(AosInstallation)
    else if s == "cluster_formation" || s == "create_cluster" then Some(ClusterFormation)
    else None
  }

  /******* Responses *******/

  /** A status record; `percent` is already clamped. */
  datatype Metric = Metric(status: string, percent: Option<nat>)

  /** `full`: the record says percent_complete 100. */
  datatype NodeRecord = NodeRecord(name: string, serial: string, hostIp: string, cvmIp: string, metric: Metric, full: bool,
                                   stage: string, stages: seq<(string, Option<Metric>)>)

  datatype ClusterRecord = ClusterRecord(name: string, metric: Metric, full: bool)

  /** Entries that are not mappings are None. */
  datatype Response = Response(stages: seq<(string, Option<Metric>)>, nodes: seq<Option<NodeRecord>>,
                               blocks: seq<Option<seq<Option<NodeRecord>>>>, clusters: seq<Option<ClusterRecord>>,
                               aggregate: string, aggregateFull: bool, stopped: bool, aborted: bool, imaging: bool)

  datatype NodeIntent = NodeIntent(serial: string, hostIp: string, cvmIp: string)

  datatype ClusterIntent = ClusterIntent(name: string, nodes: seq<NodeIntent>)

  const RECORD_LIMIT := 256
  const CLUSTER_LIMIT := 64

  function Take<T>(s: seq<T>, n: nat): seq<T> {
    if |s| <= n then s else s[..n]
  }

  function Present<T>(s: seq<Option<T>>): seq<T> {
    if s == [] then [] else (if s[0].Some? then [s[0].value] else []) + Present(s[1..])
  }

  /** `records`: the first entries that are mappings. */
  function Records<T>(s: seq<Option<T>>): seq<T> {
    Present(Take(s, RECORD_LIMIT))
  }

  function BlockRecords(blocks: seq<seq<Option<NodeRecord>>>): seq<NodeRecord> {
    if blocks == [] then [] else Records(blocks[0]) + BlockRecords(blocks[1..])
  }

  /** The node records that are looked at. */
  function NodeRecords(r: Response): seq<NodeRecord> {
    Take(Records(r.nodes) + BlockRecords(Records(r.blocks)), RECORD_LIMIT)
  }

  function Shown(clusters: seq<ClusterIntent>): seq<NodeIntent> {
    Take(AllShown(Take(clusters, CLUSTER_LIMIT)), RECORD_LIMIT)
  }

  function AllShown(clusters: seq<ClusterIntent>): seq<NodeIntent> {
    if clusters == [] then [] else Take(clusters[0].nodes, RECORD_LIMIT) + AllShown(clusters[1..])
  }

  function Configured(clusters: seq<ClusterIntent>): seq<NodeIntent> {
    if clusters == [] then [] else clusters[0].nodes + Configured(clusters[1..])
  }

  /** Within the limits every configured node is looked at. */
  lemma {:induction false} WithinLimits(clusters: seq<ClusterIntent>)
    requires |Configured(clusters)| <= RECORD_LIMIT
    ensures AllShown(clusters) == Configured(clusters)
    ensures |clusters| <= CLUSTER_LIMIT ==> Shown(clusters) == Configured(clusters)
  {
    if clusters != [] {
      WithinLimits(clusters[1..]);
    }
  }

  /******* Evidence *******/

  /** The success contract of a stopped session. */
  predicate StoppedSuccess(r: Response) {
    r.stopped && !r.aborted && r.aggregateFull && StatusOf(r.aggregate) != Failed && StatusOf(r.aggregate) != Cancelled
  }

  function NodeStatus(r: Response, item: NodeRecord): Status {
    var s := StatusOf(item.metric.status);
    if s == Unknown && StoppedSuccess(r) && item.full then Completed else s
  }

  function ClusterStatus(r: Response, item: ClusterRecord): Status {
    var s := StatusOf(item.metric.status);
    if s == Unknown && StoppedSuccess(r) && item.full then Completed else s
  }

  predicate Identifies(item: NodeRecord, n: NodeIntent) {
    exists x :: x in [item.name, item.serial, item.hostIp, item.cvmIp] && x != "" && x in [n.serial, n.hostIp, n.cvmIp]
  }

  /** What a stage record says: its phase and status, if it is one. */
  type Mark = Option<(Phase, Status)>

  function MarkOf(stage: (string, Option<Metric>)): Mark {
    if stage.1.Some? && PhaseOf(stage.0).Some? then Some((PhaseOf(stage.0).value, StatusOf(stage.1.value.status))) else None
  }

  function Marks(stages: seq<(string, Option<Metric>)>): (marks: seq<Mark>)
    ensures |marks| == |stages| && forall k :: 0 <= k < |stages| ==> marks[k] == MarkOf(stages[k])
  {
    seq(|stages|, k requires 0 <= k < |stages| => MarkOf(stages[k]))
  }

  ghost predicate StageReports(item: NodeRecord, phase: Phase) {
    exists k :: 0 <= k < |item.stages| && MarkOf(item.stages[k]) == Some((phase, Completed))
  }

  /** The record reports the node's stage of this phase as completed, or the node as
      completed while this phase is the one it is in. */
  ghost predicate Reports(r: Response, item: NodeRecord, phase: Phase) {
    || StageReports(item, phase)
    || (PhaseOf(item.stage) == Some(phase) && NodeStatus(r, item) == Completed)
  }

  ghost predicate NodeEvidence(r: Response, n: NodeIntent, phase: Phase) {
    exists item :: item in NodeRecords(r) && Identifies(item, n) && Reports(r, item, phase)
  }

  ghost predicate NodeCompleted(r: Response, n: NodeIntent) {
    exists item :: item in NodeRecords(r) && Identifies(item, n) && NodeStatus(r, item) == Completed
  }

  ghost predicate ReportedCompleted(r: Response, phase: Phase) {
    exists k :: 0 <= k < |r.stages| && MarkOf(r.stages[k]) == Some((phase, Completed))
  }

  /******* Roll-up *******/

  /** `rollup` */
  function RollUp(states: seq<Status>): Status {
    if Failed in states then Failed
    else if Cancelled in states then Cancelled
    else if states != [] && forall s :: s in states ==> s == Completed then Completed
    else if Running in states then Running
    else if states != [] && forall s :: s in states ==> s == Pending then Pending
    else Unknown
  }

  /** A row of a phase: the configured node it stands for and its status there. */
  datatype Row = Row(node: nat, serial: string, status: Status)

  /** The status a response reports for a phase itself: the last one given. */
  function Direct(marks: seq<Mark>, phase: Phase): Status {
    if marks == [] then Unknown
    else
      var last := marks[|marks| - 1];
      if last.Some? && last.value.0 == phase then last.value.1 else Direct(marks[..|marks| - 1], phase)
  }

  /** The first configured node a record identifies. */
  function Match(nodes: seq<NodeIntent>, item: NodeRecord): Option<nat> {
    MatchFrom(nodes, item, 0)
  }

  function MatchFrom(nodes: seq<NodeIntent>, item: NodeRecord, from: nat): (m: Option<nat>)
    ensures m.Some? ==> m.value < |nodes| && Identifies(item, nodes[m.value])
    decreases |nodes| - from
  {
    if from >= |nodes| then None
    else if Identifies(item, nodes[from]) then Some(from)
    else MatchFrom(nodes, item, from + 1)
  }

  /** The status of every node after the records: the last one that names it. */
  function NodeStates(r: Response, records: seq<NodeRecord>, nodes: seq<NodeIntent>): (states: seq<Status>)
    ensures |states| == |nodes|
  {
    if records == [] then seq(|nodes|, _ => Unknown)
    else
      var before, last := NodeStates(r, records[..|records| - 1], nodes), records[|records| - 1];
      if Match(nodes, last).None? then before else before[Match(nodes, last).value := NodeStatus(r, last)]
  }

  /** The rows that the stage records of one node add to a phase. */
  function StageRows(marks: seq<Mark>, m: nat, serial: string, phase: Phase): seq<Row> {
    if marks == [] then []
    else
      var last := marks[|marks| - 1];
      StageRows(marks[..|marks| - 1], m, serial, phase)
      + if last.Some? && last.value.0 == phase then [Row(m, serial, last.value.1)] else []
  }

  predicate HasSerial(rows: seq<Row>, serial: string) {
    exists k :: 0 <= k < |rows| && rows[k].serial == serial
  }

  /** A node adds itself to the phase it is in, unless it has a row there. */
  function WithActive(rows: seq<Row>, active: Option<Phase>, own: Row, phase: Phase): seq<Row> {
    if active == Some(phase) && !HasSerial(rows, own.serial) then rows + [own] else rows
  }

  function Rows(r: Response, records: seq<NodeRecord>, nodes: seq<NodeIntent>, phase: Phase): seq<Row> {
    if records == [] then []
    else
      var before, last := Rows(r, records[..|records| - 1], nodes, phase), records[|records| - 1];
      if Match(nodes, last).None? then before
      else
        var m := Match(nodes, last).value;
        WithActive(before + StageRows(Marks(Take(last.stages, RECORD_LIMIT)), m, nodes[m].serial, phase),
                   PhaseOf(last.stage), Row(m, nodes[m].serial, NodeStatus(r, last)), phase)
  }

  function Serials(rows: seq<Row>): set<string> {
    set k | 0 <= k < |rows| :: rows[k].serial
  }

  predicate AllCompleted(rows: seq<Row>) {
    forall k :: 0 <= k < |rows| ==> rows[k].status == Completed
  }

  predicate SomeRow(rows: seq<Row>, s: Status) {
    exists k :: 0 <= k < |rows| && rows[k].status == s
  }

  /** What the rows say of a phase the response did not report itself. */
  function Inferred(direct: Status, rows: seq<Row>, count: nat): Status {
    if direct != Unknown || rows == [] then direct
    else if SomeRow(rows, Failed) then Failed
    else if SomeRow(rows, Running) then Running
    else if |Serials(rows)| == count && AllCompleted(rows) then Completed
    else Unknown
  }

  predicate Classic(r: Response) {
    r.imaging && r.stages == []
  }

  function Names(clusters: seq<ClusterIntent>): set<string> {
    set k | 0 <= k < |clusters| && clusters[k].name != "" :: clusters[k].name
  }

  /** Every expected cluster has a name of its own. */
  predicate Named(clusters: seq<ClusterIntent>) {
    clusters != [] && |Names(clusters)| == |clusters|
  }

  /** The last record of a cluster name. */
  function StatusNamed(r: Response, records: seq<ClusterRecord>, name: string): Status {
    if records == [] then Unknown
    else
      var last := records[|records| - 1];
      if last.name == name then ClusterStatus(r, last) else StatusNamed(r, records[..|records| - 1], name)
  }

  function ClusterStates(r: Response, clusters: seq<ClusterIntent>): seq<Status> {
    var records := Records(r.clusters);
    if Named(clusters) then seq(|clusters|, k requires 0 <= k < |clusters| => StatusNamed(r, records, clusters[k].name))
    else seq(|records|, k requires 0 <= k < |records| => ClusterStatus(r, records[k]))
  }

  /** Cluster formation of a classic response. */
  function Formation(r: Response, clusters: seq<ClusterIntent>): Status {
    var states := ClusterStates(r, clusters);
    if RollUp(states) == Completed && |states| != |clusters| then Unknown else RollUp(states)
  }

  function PhaseStatus(r: Response, clusters: seq<ClusterIntent>, phase: Phase): Status {
    var nodes := Shown(clusters);
    Inferred(Direct(Marks(Take(r.stages, RECORD_LIMIT)), phase), Rows(r, NodeRecords(r), nodes, phase), |nodes|)
  }

  function Imaging(r: Response, clusters: seq<ClusterIntent>): Status {
    RollUp(NodeStates(r, NodeRecords(r), Shown(clusters)))
  }

  function Reported(r: Response): Status {
    var s := StatusOf(r.aggregate);
    if r.aborted && s != Failed then Cancelled else s
  }

  /** The status of the whole deployment. */
  function Overall(r: Response, clusters: seq<ClusterIntent>): Status {
    if Classic(r) && Reported(r) == Unknown then
      var s := RollUp([Imaging(r, clusters), Formation(r, clusters)]);
      if s == Completed && !r.stopped then Running else s
    else Reported(r)
  }
}
