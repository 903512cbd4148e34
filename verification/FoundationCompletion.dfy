/**
 Completion is never invented: what a phase, the node imaging, the cluster
 formation or the deployment shown as completed rests on in the response.
 */
module FoundationCompletion {
  import opened Prelude
  import opened Text
  import opened FoundationProgress

  lemma {:induction false} DirectRests(marks: seq<Mark>, phase: Phase)
    requires Direct(marks, phase) == Completed
    ensures Some((phase, Completed)) in marks
  {
    var last := |marks| - 1;
    if marks[last].None? || marks[last].value.0 != phase {
      DirectRests(marks[..last], phase);
    }
  }

  lemma DirectIsReported(r: Response, phase: Phase)
    requires Direct(Marks(Take(r.stages, RECORD_LIMIT)), phase) == Completed
    ensures ReportedCompleted(r, phase)
  {
    var stages := Take(r.stages, RECORD_LIMIT);
    DirectRests(Marks(stages), phase);
    var k :| 0 <= k < |stages| && Marks(stages)[k] == Some((phase, Completed));
    assert r.stages[k] == stages[k];
  }

  lemma {:induction false} StageRowsRest(marks: seq<Mark>, m: nat, serial: string, phase: Phase, row: Row)
    requires row in StageRows(marks, m, serial, phase)
    ensures row.node == m && row.serial == serial && Some((phase, row.status)) in marks
  {
    var last := |marks| - 1;
    if row in StageRows(marks[..last], m, serial, phase) {
      StageRowsRest(marks[..last], m, serial, phase, row);
    }
  }

  lemma StageRowsReport(item: NodeRecord, m: nat, serial: string, phase: Phase, row: Row)
    requires row in StageRows(Marks(Take(item.stages, RECORD_LIMIT)), m, serial, phase)
    ensures row.node == m && row.serial == serial && (row.status == Completed ==> StageReports(item, phase))
  {
    var stages := Take(item.stages, RECORD_LIMIT);
    StageRowsRest(Marks(stages), m, serial, phase, row);
    var k :| 0 <= k < |stages| && Marks(stages)[k] == Some((phase, row.status));
    assert item.stages[k] == stages[k];
  }

  /** Every row stands for a configured node, and a completed one rests on a record. */
  ghost predicate RowRests(r: Response, records: seq<NodeRecord>, nodes: seq<NodeIntent>, phase: Phase, row: Row) {
    && row.node < |nodes| && row.serial == nodes[row.node].serial
    && (row.status == Completed ==>
          exists item :: item in records && Identifies(item, nodes[row.node]) && Reports(r, item, phase))
  }

  lemma {:induction false} RowsRest(r: Response, records: seq<NodeRecord>, nodes: seq<NodeIntent>, phase: Phase, row: Row)
    requires row in Rows(r, records, nodes, phase)
    ensures RowRests(r, records, nodes, phase, row)
  {
    var before, last := records[..|records| - 1], records[|records| - 1];
    assert last in records;
    if row in Rows(r, before, nodes, phase) {
      RowsRest(r, before, nodes, phase, row);
      assert forall item :: item in before ==> item in records;
    } else {
      var m := Match(nodes, last).value;
      if row in StageRows(Marks(Take(last.stages, RECORD_LIMIT)), m, nodes[m].serial, phase) {
        StageRowsReport(last, m, nodes[m].serial, phase, row);
      }
      assert row.status == Completed ==> Reports(r, last, phase);
    }
  }

  /** The nodes that have a row. */
  ghost function Covered(rows: seq<Row>): set<nat> {
    set k | 0 <= k < |rows| :: rows[k].node
  }

  /** As many serials as nodes means every node has a row. */
  lemma EnoughSerialsCoverAll(rows: seq<Row>, nodes: seq<NodeIntent>, i: nat)
    requires forall k :: 0 <= k < |rows| ==> rows[k].node < |nodes| && rows[k].serial == nodes[rows[k].node].serial
    requires |Serials(rows)| == |nodes| && i < |nodes|
    ensures exists k :: 0 <= k < |rows| && rows[k].node == i
  {
    var covered := Covered(rows);
    SerialsAtMostNodes(rows, nodes, covered);
    if i !in covered {
      assert covered <= Below(|nodes|) - {i};
      SubsetSize(covered, Below(|nodes|) - {i});
    }
  }

  ghost function Below(n: nat): (s: set<nat>)
    ensures |s| == n && forall j: nat :: j in s <==> j < n
  {
    if n == 0 then {} else Below(n - 1) + {n - 1}
  }

  lemma SubsetSize<T>(a: set<T>, b: set<T>)
    requires a <= b
    ensures |a| <= |b|
  {
    assert b == a + (b - a);
  }

  /** Different serials belong to different nodes. */
  lemma {:induction false} SerialsAtMostNodes(rows: seq<Row>, nodes: seq<NodeIntent>, covered: set<nat>)
    requires forall k :: 0 <= k < |rows| ==> rows[k].node < |nodes| && rows[k].serial == nodes[rows[k].node].serial
    requires covered == Covered(rows)
    ensures |Serials(rows)| <= |covered|
  {
    var image := set j | j in covered && j < |nodes| :: nodes[j].serial;
    ImageSize(covered, nodes);
    assert Serials(rows) <= image;
    SubsetSize(Serials(rows), image);
  }

  lemma ImageSize(covered: set<nat>, nodes: seq<NodeIntent>)
    ensures |set j | j in covered && j < |nodes| :: nodes[j].serial| <= |covered|
    decreases covered
  {
    if covered != {} {
      var x :| x in covered;
      var rest := covered - {x};
      ImageSize(rest, nodes);
      var image := set j | j in covered && j < |nodes| :: nodes[j].serial;
      var smaller := set j | j in rest && j < |nodes| :: nodes[j].serial;
      if x < |nodes| {
        assert image == smaller + {nodes[x].serial};
      } else {
        assert image == smaller;
      }
    }
  }

  /** A phase is shown as completed only if the response reports exactly that for
      the phase, or for every configured node there is a record that reports the
      node's part of the phase as completed. */
  lemma PhaseCompletionHasEvidence(r: Response, clusters: seq<ClusterIntent>, phase: Phase)
    requires PhaseStatus(r, clusters, phase) == Completed
    requires |clusters| <= CLUSTER_LIMIT && |Configured(clusters)| <= RECORD_LIMIT
    ensures ReportedCompleted(r, phase)
      || (Configured(clusters) != [] && forall n :: n in Configured(clusters) ==> NodeEvidence(r, n, phase))
  {
    WithinLimits(clusters);
    var nodes, records := Shown(clusters), NodeRecords(r);
    var rows := Rows(r, records, nodes, phase);
    if Direct(Marks(Take(r.stages, RECORD_LIMIT)), phase) == Completed {
      DirectIsReported(r, phase);
    } else {
      forall k | 0 <= k < |rows|
        ensures RowRests(r, records, nodes, phase, rows[k])
      {
        RowsRest(r, records, nodes, phase, rows[k]);
      }
      assert rows[0].node < |nodes|;
      forall n | n in nodes
        ensures NodeEvidence(r, n, phase)
      {
        var i :| 0 <= i < |nodes| && nodes[i] == n;
        EnoughSerialsCoverAll(rows, nodes, i);
      }
    }
  }

  lemma {:induction false} StatesRest(r: Response, records: seq<NodeRecord>, nodes: seq<NodeIntent>, i: nat)
    requires i < |nodes| && NodeStates(r, records, nodes)[i] == Completed
    ensures exists item :: item in records && Identifies(item, nodes[i]) && NodeStatus(r, item) == Completed
  {
    var before, last := records[..|records| - 1], records[|records| - 1];
    if Match(nodes, last) == Some(i) {
      assert last in records;
    } else {
      StatesRest(r, before, nodes, i);
      assert forall item :: item in before ==> item in records;
    }
  }

  lemma RolledUpCompleted(states: seq<Status>)
    ensures RollUp(states) == Completed <==> states != [] && forall s :: s in states ==> s == Completed
  {
    if states != [] && forall s :: s in states ==> s == Completed {
      assert states[0] in states;
    }
  }

  /** Node imaging is completed only if every configured node is reported so. */
  lemma ImagingCompletionHasEvidence(r: Response, clusters: seq<ClusterIntent>)
    requires Imaging(r, clusters) == Completed
    requires |clusters| <= CLUSTER_LIMIT && |Configured(clusters)| <= RECORD_LIMIT
    ensures Configured(clusters) != [] && forall n :: n in Configured(clusters) ==> NodeCompleted(r, n)
  {
    WithinLimits(clusters);
    var nodes := Shown(clusters);
    var states := NodeStates(r, NodeRecords(r), nodes);
    RolledUpCompleted(states);
    forall n | n in nodes
      ensures NodeCompleted(r, n)
    {
      var i :| 0 <= i < |nodes| && nodes[i] == n;
      assert states[i] in states;
      StatesRest(r, NodeRecords(r), nodes, i);
    }
  }

  lemma {:induction false} NamedStatusRests(r: Response, records: seq<ClusterRecord>, name: string)
    requires StatusNamed(r, records, name) == Completed
    ensures exists c :: c in records && c.name == name && ClusterStatus(r, c) == Completed
  {
    var last := |records| - 1;
    if records[last].name != name {
      NamedStatusRests(r, records[..last], name);
    }
  }

  /** Where every expected cluster has a name of its own, cluster formation is
      completed exactly if the last record of each of them says so. */
  lemma NamedFormationIff(r: Response, clusters: seq<ClusterIntent>)
    requires Named(clusters)
    ensures Formation(r, clusters) == Completed <==>
      forall k :: 0 <= k < |clusters| ==> StatusNamed(r, Records(r.clusters), clusters[k].name) == Completed
  {
    var states := ClusterStates(r, clusters);
    RolledUpCompleted(states);
    assert forall k :: 0 <= k < |clusters| ==> states[k] in states && states[k] == StatusNamed(r, Records(r.clusters), clusters[k].name);
  }

  /** Where names are missing or repeated, only the number of records counts. */
  lemma UnnamedFormationIff(r: Response, clusters: seq<ClusterIntent>)
    requires !Named(clusters)
    ensures Formation(r, clusters) == Completed <==>
      && |Records(r.clusters)| == |clusters| > 0
      && forall c :: c in Records(r.clusters) ==> ClusterStatus(r, c) == Completed
  {
    var states, records := ClusterStates(r, clusters), Records(r.clusters);
    RolledUpCompleted(states);
    assert forall k :: 0 <= k < |records| ==> states[k] in states && records[k] in records;
  }

  /** So two unnamed clusters are completed by two records of one of them. */
  lemma UnnamedClustersAreOnlyCounted(r: Response, a: ClusterIntent, b: ClusterIntent, c: ClusterRecord)
    requires a.name == "" && b.name == "" && r.clusters == [Some(c), Some(c)] && StatusOf(c.metric.status) == Completed
    ensures Formation(r, [a, b]) == Completed
  {
    var clusters := [a, b];
    assert Names(clusters) == {};
    var one: seq<Option<ClusterRecord>> := [Some(c)];
    assert one[1..] == [] && r.clusters[1..] == one;
    assert Present(one) == [c];
    assert Records(r.clusters) == [c, c];
    UnnamedFormationIff(r, clusters);
  }

  /** Every expected cluster has a completed record: one of its own name where all have
      names of their own, and otherwise one record per expected cluster. */
  ghost predicate ClustersCompleted(r: Response, clusters: seq<ClusterIntent>) {
    var records := Records(r.clusters);
    if Named(clusters) then
      forall k :: 0 <= k < |clusters| ==> exists c :: c in records && c.name == clusters[k].name && ClusterStatus(r, c) == Completed
    else |records| == |clusters| > 0 && forall c :: c in records ==> ClusterStatus(r, c) == Completed
  }

  lemma FormationCompletionHasEvidence(r: Response, clusters: seq<ClusterIntent>)
    requires Formation(r, clusters) == Completed
    ensures ClustersCompleted(r, clusters)
  {
    if Named(clusters) {
      NamedFormationIff(r, clusters);
      forall k | 0 <= k < |clusters|
        ensures exists c :: c in Records(r.clusters) && c.name == clusters[k].name && ClusterStatus(r, c) == Completed
      {
        NamedStatusRests(r, Records(r.clusters), clusters[k].name);
      }
    } else {
      UnnamedFormationIff(r, clusters);
    }
  }

  /** The deployment is completed only if the response says so, or, for a classic
      response without an overall status, if the session has stopped, every configured
      node has a record that completes it, and so has every expected cluster. */
  lemma OverallCompletionHasEvidence(r: Response, clusters: seq<ClusterIntent>)
    requires Overall(r, clusters) == Completed
    ensures if Reported(r) != Unknown then StatusOf(r.aggregate) == Completed && !r.aborted
      else
        && Classic(r) && r.stopped && Imaging(r, clusters) == Completed && Formation(r, clusters) == Completed
        && ClustersCompleted(r, clusters)
        && (|clusters| <= CLUSTER_LIMIT && |Configured(clusters)| <= RECORD_LIMIT ==>
              Configured(clusters) != [] && forall n :: n in Configured(clusters) ==> NodeCompleted(r, n))
  {
    if Reported(r) == Unknown {
      var states := [Imaging(r, clusters), Formation(r, clusters)];
      RolledUpCompleted(states);
      assert states[0] in states && states[1] in states;
      FormationCompletionHasEvidence(r, clusters);
      if |clusters| <= CLUSTER_LIMIT && |Configured(clusters)| <= RECORD_LIMIT {
        ImagingCompletionHasEvidence(r, clusters);
      }
    }
  }
}
