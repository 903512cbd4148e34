/**
 The reviewed intent of a recovery run: parsed post-configuration steps, the
 test that decides which of them may precede the PE health gate, and the count
 of the leading steps that pass it.
 */
module RecoveryIntent {
  import opened Prelude
  import opened Text

  /** A parsed YAML value. The document text itself is not modelled. */
  datatype Yaml =
    | YNull
    | YBool(b: bool)
    | YNum(n: int)
    | YStr(s: string)
    | YList(items: seq<Yaml>)
    | YMap(entries: map<string, Yaml>)

  /** Python truthiness. */
  predicate Truthy(y: Yaml) {
    match y
    case YNull => false
    case YBool(b) => b
    case YNum(n) => n != 0
    case YStr(s) => s != ""
    case YList(items) => items != []
    case YMap(entries) => entries != map[]
  }

  /** `isinstance(m.get(key), str) and m[key].strip()` */
  predicate HasText(m: map<string, Yaml>, key: string) {
    key in m && m[key].YStr? && !Blank(m[key].s)
  }

  /** `m.get(key)` with a missing key and an explicit null alike. */
  function Get(m: map<string, Yaml>, key: string): Yaml {
    if key in m then m[key] else YNull
  }

  datatype Workflow =
    | FoundationDeploy
    | ConfigCluster
    | ChangeAdminPassword
    | CreateLocalUsers
    | OtherWorkflow(name: string)

  const POST_ACTIONS := {ConfigCluster, ChangeAdminPassword, CreateLocalUsers}

  /** The parsed file of one pipeline step: its top-level keys, and the entries
      of `clusters` in document order when that key holds a mapping. */
  datatype PostConfig = PostConfig(keys: set<string>, clusters: Option<seq<(string, Yaml)>>)

  /** SHA-256 as an injective function of what it is computed from. */
  datatype Digest = Digest(of: PostConfig)

  datatype StepIntent = StepIntent(workflow: Workflow, file: string, config: PostConfig, sha: Digest)

  const CLUSTER_FIELDS := {"name", "pe_credential", "new_pe_admin_credential", "eula", "enable_pulse"}
  const EULA_FIELDS := {"username", "company_name", "job_title"}
  const PASSWORD := "new_pe_admin_credential"

  /** A step that touches nothing but the first access to one cluster: its administrator
      password, its EULA and Pulse. Any other key in the file disqualifies it. */
  predicate BootstrapStep(step: StepIntent) {
    && step.workflow in {ConfigCluster, ChangeAdminPassword}
    && step.config.keys == {"clusters"}
    && step.config.clusters.Some?
    && |step.config.clusters.value| == 1
    && step.config.clusters.value[0].1.YMap?
    && var cluster := step.config.clusters.value[0].1.entries;
    && cluster.Keys <= CLUSTER_FIELDS
    && HasText(cluster, "name") && HasText(cluster, "pe_credential")
    && (Get(cluster, PASSWORD) == YNull || HasText(cluster, PASSWORD))
    && if step.workflow == ChangeAdminPassword then
         HasText(cluster, PASSWORD) && "eula" !in cluster && "enable_pulse" !in cluster
       else
         && ("enable_pulse" in cluster ==> cluster["enable_pulse"].YBool?)
         && ("eula" in cluster ==> EulaOnly(cluster["eula"]))
         && (HasText(cluster, PASSWORD) || "eula" in cluster || "enable_pulse" in cluster)
  }

  predicate EulaOnly(eula: Yaml) {
    && eula.YMap?
    && eula.entries.Keys <= EULA_FIELDS
    && HasText(eula.entries, "username") && HasText(eula.entries, "company_name")
    && ("job_title" in eula.entries ==> eula.entries["job_title"].YStr?)
  }

  /** The test applied to pending steps before a run may resume: a step that can
      change the PE administrator password. */
  predicate ChangesPassword(step: StepIntent) {
    || step.workflow == ChangeAdminPassword
    || (&& step.config.clusters.Some?
        && exists k :: 0 <= k < |step.config.clusters.value| && SetsPassword(step.config.clusters.value[k].1))
  }

  predicate SetsPassword(cluster: Yaml) {
    cluster.YMap? && Truthy(Get(cluster.entries, PASSWORD))
  }

  /** For a bootstrap step the resume test and the test used while counting agree. */
  lemma BootstrapPasswordTestsAgree(step: StepIntent)
    requires BootstrapStep(step)
    ensures ChangesPassword(step) <==> SetsPassword(step.config.clusters.value[0].1)
  {
    var cluster := step.config.clusters.value[0].1;
    assert HasText(cluster.entries, PASSWORD) ==> cluster.entries[PASSWORD].s != "";
    if SetsPassword(cluster) {
      assert SetsPassword(step.config.clusters.value[0].1);
    }
  }

  /** `n` leading steps may run before PE health is known. */
  ghost predicate BootstrapPrefix(steps: seq<StepIntent>, n: nat) {
    && n <= |steps|
    && (forall i :: 0 <= i < n ==> BootstrapStep(steps[i]))
    && (forall i, j :: 0 <= i < j < n ==> !(ChangesPassword(steps[i]) && ChangesPassword(steps[j])))
  }

  /** The length of the longest such prefix, as a specification. */
  ghost function BootstrapCount(steps: seq<StepIntent>): (n: nat)
    ensures BootstrapPrefix(steps, n)
    ensures forall m: nat :: BootstrapPrefix(steps, m) ==> m <= n
  {
    BootstrapCountFrom(steps, 0)
  }

  ghost function BootstrapCountFrom(steps: seq<StepIntent>, k: nat): (n: nat)
    requires BootstrapPrefix(steps, k)
    ensures n >= k && BootstrapPrefix(steps, n)
    ensures forall m: nat :: BootstrapPrefix(steps, m) ==> m <= n
    decreases |steps| - k
  {
    if k < |steps| && BootstrapPrefix(steps, k + 1) then
      BootstrapCountFrom(steps, k + 1)
    else
      assert forall m: nat :: m > k && BootstrapPrefix(steps, m) ==> BootstrapPrefix(steps, k + 1);
      k
  }

  /** The counting loop returns the longest admissible prefix: every counted step
      is a bootstrap step, at most one of them sets the password, and the next
      step, if any, would break one of the two. */
  method CountBootstrap(steps: seq<StepIntent>) returns (count: nat)
    ensures count == BootstrapCount(steps)
  {
    count := 0;
    var passwordSeen := false;
    for i := 0 to |steps|
      invariant count == i
      invariant BootstrapPrefix(steps, i)
      invariant passwordSeen <==> exists j :: 0 <= j < i && ChangesPassword(steps[j])
    {
      if !BootstrapStep(steps[i]) {
        assert !BootstrapPrefix(steps, i + 1);
        break;
      }
      BootstrapPasswordTestsAgree(steps[i]);
      var cluster := steps[i].config.clusters.value[0].1;
      if SetsPassword(cluster) {
        if passwordSeen {
          assert !BootstrapPrefix(steps, i + 1);
          break;
        }
        passwordSeen := true;
      }
      count := count + 1;
      assert BootstrapPrefix(steps, i + 1);
    }
    PrefixMaximal(steps, count);
  }

  /** A prefix that cannot be extended by one step is the longest. */
  lemma PrefixMaximal(steps: seq<StepIntent>, n: nat)
    requires BootstrapPrefix(steps, n)
    requires n == |steps| || !BootstrapPrefix(steps, n + 1)
    ensures n == BootstrapCount(steps)
  {
    var m := BootstrapCount(steps);
    if m > n {
      assert BootstrapPrefix(steps, n + 1);
    }
  }
}
