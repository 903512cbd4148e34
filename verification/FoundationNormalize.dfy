/**
 `normalize_progress`: the loops that fill phase and node records in place, proved
 against the functions of `FoundationProgress`.
 */
module FoundationNormalize {
  import opened Prelude
  import opened Text
  import opened FoundationProgress

  datatype Progress = Progress(status: Status, imaging: Option<Status>, phases: map<Phase, Status>, nodes: seq<Status>)

  const ALL_PHASES := REPORTED_PHASES + {Validation}

  method FindNode(nodes: seq<NodeIntent>, item: NodeRecord) returns (m: Option<nat>)
    ensures m == Match(nodes, item)
  {
    for k := 0 to |nodes|
      invariant Match(nodes, item) == MatchFrom(nodes, item, k)
    {
      if Identifies(item, nodes[k]) {
        return Some(k);
      }
    }
    m := None;
  }

  /** The phases as the response reports them. */
  method ReadStages(marks: seq<Mark>) returns (direct: map<Phase, Status>)
    ensures direct.Keys == ALL_PHASES
    ensures forall p :: p in ALL_PHASES ==> direct[p] == Direct(marks, p)
  {
    direct := map p | p in ALL_PHASES :: Unknown;
    for k := 0 to |marks|
      invariant direct.Keys == ALL_PHASES
      invariant forall p :: p in ALL_PHASES ==> direct[p] == Direct(marks[..k], p)
    {
      assert marks[..k + 1][..k] == marks[..k];
      if marks[k].Some? {
        AllPhasesListed(marks[k].value.0);
        direct := direct[marks[k].value.0 := marks[k].value.1];
      }
    }
    assert marks[..|marks|] == marks;
  }

  lemma AllPhasesListed(phase: Phase)
    ensures phase in ALL_PHASES
  {
  }

  /** The stage records of node `m`. */
  method AddStageRows(marks: seq<Mark>, m: nat, serial: string, earlier: map<Phase, seq<Row>>)
    returns (rows: map<Phase, seq<Row>>)
    requires earlier.Keys == ALL_PHASES
    ensures rows.Keys == ALL_PHASES
    ensures forall p :: p in ALL_PHASES ==> rows[p] == earlier[p] + StageRows(marks, m, serial, p)
  {
    rows := earlier;
    for k := 0 to |marks|
      invariant rows.Keys == ALL_PHASES
      invariant forall p :: p in ALL_PHASES ==> rows[p] == earlier[p] + StageRows(marks[..k], m, serial, p)
    {
      assert marks[..k + 1][..k] == marks[..k];
      if marks[k].Some? {
        var phase := marks[k].value.0;
        AllPhasesListed(phase);
        rows := rows[phase := rows[phase] + [Row(m, serial, marks[k].value.1)]];
      }
    }
    assert marks[..|marks|] == marks;
  }

  /** One node record: its stages, then the phase the node is in. */
  method AddRows(marks: seq<Mark>, active: Option<Phase>, own: Row, earlier: map<Phase, seq<Row>>) returns (rows: map<Phase, seq<Row>>)
    requires earlier.Keys == ALL_PHASES
    ensures rows.Keys == ALL_PHASES
    ensures forall p :: p in ALL_PHASES ==>
      rows[p] == WithActive(earlier[p] + StageRows(marks, own.node, own.serial, p), active, own, p)
  {
    rows := AddStageRows(marks, own.node, own.serial, earlier);
    if active.Some? {
      AllPhasesListed(active.value);
      if !HasSerial(rows[active.value], own.serial) {
        rows := rows[active.value := rows[active.value] + [own]];
      }
    }
  }

  method ReadNodes(r: Response, records: seq<NodeRecord>, nodes: seq<NodeIntent>) returns (states: seq<Status>, rows: map<Phase, seq<Row>>)
    ensures states == NodeStates(r, records, nodes)
    ensures rows.Keys == ALL_PHASES && forall p :: p in ALL_PHASES ==> rows[p] == Rows(r, records, nodes, p)
  {
    states := seq(|nodes|, _ => Unknown);
    rows := map p | p in ALL_PHASES :: [];
    for k := 0 to |records|
      invariant states == NodeStates(r, records[..k], nodes)
      invariant rows.Keys == ALL_PHASES && forall p :: p in ALL_PHASES ==> rows[p] == Rows(r, records[..k], nodes, p)
    {
      assert records[..k + 1][..k] == records[..k];
      var m := FindNode(nodes, records[k]);
      if m.Some? {
        states := states[m.value := NodeStatus(r, records[k])];
        rows := AddRows(Marks(Take(records[k].stages, RECORD_LIMIT)), PhaseOf(records[k].stage),
                        Row(m.value, nodes[m.value].serial, NodeStatus(r, records[k])), rows);
      }
    }
    assert records[..|records|] == records;
  }

  method Normalize(r: Response, clusters: seq<ClusterIntent>) returns (progress: Progress)
    ensures progress.nodes == NodeStates(r, NodeRecords(r), Shown(clusters))
    ensures progress.status == Overall(r, clusters)
    ensures Classic(r) ==> progress.imaging == Some(Imaging(r, clusters))
    ensures Classic(r) ==> progress.phases == map[Validation := Unknown, ClusterFormation := Formation(r, clusters)]
    ensures !Classic(r) ==> progress.imaging == None && progress.phases.Keys == ALL_PHASES
    ensures !Classic(r) ==> forall p :: p in ALL_PHASES ==> progress.phases[p] == PhaseStatus(r, clusters, p)
  {
    var nodes := Shown(clusters);
    var direct := ReadStages(Marks(Take(r.stages, RECORD_LIMIT)));
    var states, rows := ReadNodes(r, NodeRecords(r), nodes);
    var phases := map p | p in ALL_PHASES :: Inferred(direct[p], rows[p], |nodes|);
    var overall := StatusOf(r.aggregate);
    if r.aborted && overall != Failed {
      overall := Cancelled;
    }
    if !Classic(r) {
      return Progress(overall, None, phases, states);
    }
    var imaging, formation := RollUp(states), RollUp(ClusterStates(r, clusters));
    if |ClusterStates(r, clusters)| != |clusters| && formation == Completed {
      formation := Unknown;
    }
    if overall == Unknown {
      overall := RollUp([imaging, formation]);
      if overall == Completed && !r.stopped {
        overall := Running;
      }
    }
    progress := Progress(overall, Some(imaging), map[Validation := Unknown, ClusterFormation := formation], states);
  }
}
