/**
 The Foundation payload: what the builder makes of an intent the validator
 accepted, and which parts of it hold only for texts without padding, because the
 validator strips white space that the builder does not.
 */
module FoundationPayload {
  import opened Prelude
  import opened Text
  import opened FoundationIntent

  datatype NativeNode = NativeNode(serial: Option<string>, position: string, hypervisorIp: string, hostname: string,
                                   ipmiIp: string, mac: string, cvmIp: Option<string>, cvmRam: int, light: bool,
                                   computeOnly: bool, secret: Option<Secret>)

  datatype Block = Block(id: string, nodes: seq<NativeNode>)

  datatype NativeCluster = NativeCluster(name: string, vip: string, members: seq<string>, redundancy: int, init: bool)

  datatype Payload = Payload(platform: string, bond: string, storage: bool, blocks: seq<Block>, clusters: seq<NativeCluster>)

  /** A refusal, the failed look-up of a table, or a payload. */
  datatype Result = Refused(errors: seq<string>) | KeyError | Built(payload: Payload)

  function Secret(env: Env, reference: string): Option<Secret> {
    if reference in env.secrets then Some(env.secrets[reference]) else None
  }

  function Native(env: Env, n: Node): NativeNode {
    var compute := PlainRole(n) == COMPUTE;
    NativeNode(if Strip(n.serial) == "" then None else Some(Strip(n.serial)), Upper(n.position), Strip(n.hostIp),
               Strip(n.hostname), Strip(n.ipmiIp), Upper(Strip(n.mac)), if compute then None else Some(Strip(n.cvmIp)),
               if compute then 0 else if n.cvmRam == 0 then 20 else n.cvmRam, PlainRole(n) == "storage-only", compute,
               Secret(env, n.credential))
  }

  /** The block a node is put into. */
  function BuilderKey(n: Node): string {
    Strip(Or(Or(n.block, n.serial), "Manual"))
  }

  /** For a valid node the validator and the builder agree on the block. */
  lemma KeysAgree(env: Env, n: Node)
    requires NodeValid(env, n)
    ensures BuilderKey(n) == BlockKey(n)
  {
    assert n.serial != "";
  }

  /** The nodes of one block, in input order. */
  function NativesOf(env: Env, nodes: seq<Node>, key: string): seq<NativeNode> {
    if nodes == [] then []
    else
      var last := nodes[|nodes| - 1];
      NativesOf(env, nodes[..|nodes| - 1], key) + if BuilderKey(last) == key then [Native(env, last)] else []
  }

  /** A stable grouping of the nodes by block. */
  ghost predicate Groups(env: Env, nodes: seq<Node>, blocks: seq<Block>) {
    && (forall i, j :: 0 <= i < j < |blocks| ==> blocks[i].id != blocks[j].id)
    && (forall i :: 0 <= i < |blocks| ==> blocks[i].nodes != [] && blocks[i].nodes == NativesOf(env, nodes, blocks[i].id))
    && (forall n :: n in nodes ==> exists i :: 0 <= i < |blocks| && blocks[i].id == BuilderKey(n))
  }

  function Members(nodes: seq<Node>): seq<string> {
    if nodes == [] then []
    else
      var last := nodes[|nodes| - 1];
      Members(nodes[..|nodes| - 1]) + if PlainRole(last) == COMPUTE then [] else [Strip(last.cvmIp)]
  }

  ghost predicate DescribesCluster(c: Cluster, native: NativeCluster) {
    && native.name == Strip(c.name) && native.vip == Strip(c.vip) && native.init == !c.skip
    && Some(native.redundancy) == c.redundancy && native.members == Members(c.nodes)
  }

  /** The tables are looked up with the plain text. */
  predicate TablesFind(config: Config) {
    Lower(config.platform) in PLATFORMS && Lower(Or(config.lag, "none")) in BONDS
  }

  function Tables(config: Config): Option<(string, string)> {
    if TablesFind(config) then Some((PLATFORMS[Lower(config.platform)], BONDS[Lower(Or(config.lag, "none"))])) else None
  }

  ghost predicate Describes(env: Env, config: Config, payload: Payload) {
    && Groups(env, AllNodes(config.clusters), payload.blocks)
    && |payload.clusters| == |config.clusters|
    && (forall k :: 0 <= k < |config.clusters| ==> DescribesCluster(config.clusters[k], payload.clusters[k]))
    && Tables(config) == Some((payload.platform, payload.bond))
    && (payload.storage <==> exists n :: n in AllNodes(config.clusters) && PlainRole(n) == "storage-only")
  }

  /******* The builder *******/

  /** A dictionary of blocks that remembers the order of its keys. */
  ghost predicate GroupedSoFar(env: Env, nodes: seq<Node>, order: seq<string>, groups: map<string, seq<NativeNode>>) {
    && (forall i, j :: 0 <= i < j < |order| ==> order[i] != order[j])
    && (forall key :: key in order <==> key in groups)
    && (forall key :: key in groups ==> groups[key] != [] && groups[key] == NativesOf(env, nodes, key))
    && (forall n :: n in nodes ==> BuilderKey(n) in groups)
  }

  lemma OneMoreNative(env: Env, before: seq<Node>, n: Node, key: string)
    ensures NativesOf(env, before + [n], key) ==
      NativesOf(env, before, key) + if BuilderKey(n) == key then [Native(env, n)] else []
  {
    assert (before + [n])[..|before + [n]| - 1] == before;
  }

  lemma {:induction false} NoNodeNoNatives(env: Env, nodes: seq<Node>, key: string)
    requires forall n :: n in nodes ==> BuilderKey(n) != key
    ensures NativesOf(env, nodes, key) == []
  {
    if nodes != [] {
      assert nodes[|nodes| - 1] in nodes;
      assert forall n :: n in nodes[..|nodes| - 1] ==> n in nodes;
      NoNodeNoNatives(env, nodes[..|nodes| - 1], key);
    }
  }

  lemma KnownBlockGrows(env: Env, before: seq<Node>, n: Node, order: seq<string>, groups: map<string, seq<NativeNode>>)
    requires GroupedSoFar(env, before, order, groups) && BuilderKey(n) in groups
    ensures GroupedSoFar(env, before + [n], order, groups[BuilderKey(n) := groups[BuilderKey(n)] + [Native(env, n)]])
  {
    var own := BuilderKey(n);
    var groups' := groups[own := groups[own] + [Native(env, n)]];
    forall key | key in groups'
      ensures groups'[key] != [] && groups'[key] == NativesOf(env, before + [n], key)
    {
      OneMoreNative(env, before, n, key);
    }
  }

  lemma NewBlockGrows(env: Env, before: seq<Node>, n: Node, order: seq<string>, groups: map<string, seq<NativeNode>>)
    requires GroupedSoFar(env, before, order, groups) && BuilderKey(n) !in groups
    ensures GroupedSoFar(env, before + [n], order + [BuilderKey(n)], groups[BuilderKey(n) := [Native(env, n)]])
  {
    var own := BuilderKey(n);
    var groups' := groups[own := [Native(env, n)]];
    forall key | key in groups'
      ensures groups'[key] != [] && groups'[key] == NativesOf(env, before + [n], key)
    {
      OneMoreNative(env, before, n, key);
      if key == own {
        NoNodeNoNatives(env, before, own);
      }
    }
    assert forall i :: 0 <= i < |order| ==> order[i] in order;
  }

  method GroupNodes(env: Env, nodes: seq<Node>) returns (blocks: seq<Block>)
    ensures Groups(env, nodes, blocks)
  {
    var order: seq<string>, groups: map<string, seq<NativeNode>> := [], map[];
    for k := 0 to |nodes|
      invariant GroupedSoFar(env, nodes[..k], order, groups)
    {
      assert nodes[..k + 1] == nodes[..k] + [nodes[k]];
      var key := BuilderKey(nodes[k]);
      if key in groups {
        KnownBlockGrows(env, nodes[..k], nodes[k], order, groups);
        groups := groups[key := groups[key] + [Native(env, nodes[k])]];
      } else {
        NewBlockGrows(env, nodes[..k], nodes[k], order, groups);
        order := order + [key];
        groups := groups[key := [Native(env, nodes[k])]];
      }
    }
    assert nodes[..|nodes|] == nodes;
    blocks := ListBlocks(env, nodes, order, groups);
  }

  /** The blocks in the order of their first node. */
  method ListBlocks(env: Env, nodes: seq<Node>, order: seq<string>, groups: map<string, seq<NativeNode>>) returns (blocks: seq<Block>)
    requires GroupedSoFar(env, nodes, order, groups)
    ensures Groups(env, nodes, blocks)
  {
    blocks := [];
    for i := 0 to |order|
      invariant |blocks| == i
      invariant forall j :: 0 <= j < i ==> order[j] in groups && blocks[j] == Block(order[j], groups[order[j]])
    {
      assert order[i] in order;
      blocks := blocks + [Block(order[i], groups[order[i]])];
    }
    forall n | n in nodes
      ensures exists i :: 0 <= i < |blocks| && blocks[i].id == BuilderKey(n)
    {
      assert BuilderKey(n) in order;
      var i :| 0 <= i < |order| && order[i] == BuilderKey(n);
      assert blocks[i].id == BuilderKey(n);
    }
  }

  method CollectMembers(nodes: seq<Node>) returns (members: seq<string>)
    ensures members == Members(nodes)
  {
    members := [];
    for k := 0 to |nodes|
      invariant members == Members(nodes[..k])
    {
      assert nodes[..k + 1][..k] == nodes[..k];
      if PlainRole(nodes[k]) != COMPUTE {
        members := members + [Strip(nodes[k].cvmIp)];
      }
    }
    assert nodes[..|nodes|] == nodes;
  }

  method BuildCluster(c: Cluster) returns (native: NativeCluster)
    requires c.redundancy.Some?
    ensures DescribesCluster(c, native)
  {
    var members := CollectMembers(c.nodes);
    native := NativeCluster(Strip(c.name), Strip(c.vip), members, c.redundancy.value, !c.skip);
  }

  method BuildClusters(clusters: seq<Cluster>) returns (natives: seq<NativeCluster>)
    requires forall c :: c in clusters ==> c.redundancy.Some?
    ensures |natives| == |clusters|
    ensures forall k :: 0 <= k < |clusters| ==> DescribesCluster(clusters[k], natives[k])
  {
    natives := [];
    for k := 0 to |clusters|
      invariant |natives| == k
      invariant forall j :: 0 <= j < k ==> DescribesCluster(clusters[j], natives[j])
    {
      var native := BuildCluster(clusters[k]);
      natives := natives + [native];
    }
  }

  /** The two table look-ups; None is the exception of a missing key. */
  method LookUp(config: Config) returns (found: Option<(string, string)>)
    ensures found == Tables(config)
  {
    var platform, lag := Lower(config.platform), Lower(Or(config.lag, "none"));
    if platform !in PLATFORMS || lag !in BONDS {
      return None;
    }
    found := Some((PLATFORMS[platform], BONDS[lag]));
  }

  /** `build_native_payload` */
  method BuildPayload(env: Env, config: Config) returns (result: Result)
    ensures result.Refused? <==> !ValidIntent(env, config)
    ensures result.KeyError? <==> ValidIntent(env, config) && Tables(config).None?
    ensures result.Built? ==> Describes(env, config, result.payload)
  {
    var errors := ValidateIntent(env, config);
    if errors != [] {
      return Refused(errors);
    }
    var nodes := AllNodes(config.clusters);
    var blocks := GroupNodes(env, nodes);
    var clusters := BuildClusters(config.clusters);
    var storage := HasStorageNode(nodes);
    var tables := LookUp(config);
    if tables.None? {
      return KeyError;
    }
    result := Built(Payload(tables.value.0, tables.value.1, storage, blocks, clusters));
  }

  method HasStorageNode(nodes: seq<Node>) returns (found: bool)
    ensures found == exists n :: n in nodes && PlainRole(n) == "storage-only"
  {
    found := exists n :: n in nodes && PlainRole(n) == "storage-only";
  }
}
