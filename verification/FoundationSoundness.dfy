/**
 What an empty error list of the validator implies about the payload, for every
 intent; and exactly where padding makes the two disagree.
 */
module FoundationSoundness {
  import opened Prelude
  import opened Text
  import opened FoundationIdentity
  import opened FoundationIntent
  import opened FoundationPayload

  /******* Input nodes and payload slots *******/

  /** The slot of input node `p` in its block. */
  function Slot(env: Env, nodes: seq<Node>, p: nat): nat
    requires p < |nodes|
  {
    |NativesOf(env, nodes[..p], BuilderKey(nodes[p]))|
  }

  lemma {:induction false} NativesGrow(env: Env, nodes: seq<Node>, p: nat, key: string)
    requires p <= |nodes|
    ensures NativesOf(env, nodes[..p], key) <= NativesOf(env, nodes, key)
    decreases |nodes|
  {
    if p == |nodes| {
      assert nodes[..p] == nodes;
    } else {
      var before := nodes[..|nodes| - 1];
      assert before[..p] == nodes[..p];
      NativesGrow(env, before, p, key);
    }
  }

  /** Every input node is in the payload, in its block, behind the earlier nodes of
      that block. */
  lemma NodeIsInSlot(env: Env, nodes: seq<Node>, p: nat)
    requires p < |nodes|
    ensures var key := BuilderKey(nodes[p]);
      Slot(env, nodes, p) < |NativesOf(env, nodes, key)| && NativesOf(env, nodes, key)[Slot(env, nodes, p)] == Native(env, nodes[p])
  {
    var key := BuilderKey(nodes[p]);
    assert nodes[..p + 1] == nodes[..p] + [nodes[p]];
    OneMoreNative(env, nodes[..p], nodes[p], key);
    NativesGrow(env, nodes, p + 1, key);
  }

  /** Every slot holds exactly one input node. */
  lemma {:induction false} SlotHoldsNode(env: Env, nodes: seq<Node>, key: string, i: nat) returns (p: nat)
    requires i < |NativesOf(env, nodes, key)|
    ensures p < |nodes| && BuilderKey(nodes[p]) == key && Slot(env, nodes, p) == i
    ensures NativesOf(env, nodes, key)[i] == Native(env, nodes[p])
  {
    var before := nodes[..|nodes| - 1];
    if i < |NativesOf(env, before, key)| {
      p := SlotHoldsNode(env, before, key, i);
      assert before[..p] == nodes[..p];
    } else {
      p := |nodes| - 1;
      assert nodes[..p] == before;
    }
  }

  /******* Payload nodes are different *******/

  lemma {:induction false} NodesComeFromClusters(clusters: seq<Cluster>, n: Node)
    requires n in AllNodes(clusters)
    ensures exists c :: c in clusters && n in c.nodes
  {
    var last := clusters[|clusters| - 1];
    if n in last.nodes {
      assert last in clusters;
    } else {
      NodesComeFromClusters(clusters[..|clusters| - 1], n);
    }
  }

  lemma ValidNodesInPayload(env: Env, config: Config, p: nat)
    requires ValidIntent(env, config) && p < |AllNodes(config.clusters)|
    ensures NodeValid(env, AllNodes(config.clusters)[p])
  {
    NodesComeFromClusters(config.clusters, AllNodes(config.clusters)[p]);
  }

  /** No block of the payload repeats a position, whatever padding there is. */
  lemma PositionsAreDistinct(env: Env, config: Config, payload: Payload, b: nat, i: nat, j: nat)
    requires ValidIntent(env, config) && Describes(env, config, payload)
    requires b < |payload.blocks| && i < j < |payload.blocks[b].nodes|
    ensures payload.blocks[b].nodes[i].position != payload.blocks[b].nodes[j].position
  {
    var nodes, key := AllNodes(config.clusters), payload.blocks[b].id;
    var p := SlotHoldsNode(env, nodes, key, i);
    var q := SlotHoldsNode(env, nodes, key, j);
    ValidNodesInPayload(env, config, p);
    ValidNodesInPayload(env, config, q);
    KeysAgree(env, nodes[p]);
    KeysAgree(env, nodes[q]);
    assert Place(nodes[p]) != Place(nodes[q]) by {
      if p < q {
        FreshPairwise(Ids(nodes), {}, {}, p, q);
      } else {
        FreshPairwise(Ids(nodes), {}, {}, q, p);
      }
    }
    UpperCommutesWithStrip(nodes[p].position);
    UpperCommutesWithStrip(nodes[q].position);
  }

  /******* Padding *******/

  /** The validator takes the node for compute-only, the builder does not. */
  predicate PaddedCompute(n: Node) {
    StrippedRole(n) == COMPUTE && PlainRole(n) != COMPUTE
  }

  /** Only padding makes the difference. */
  lemma OnlyPaddingSplitsRoles(n: Node)
    ensures PaddedCompute(n) ==> !Unpadded(n.role)
    ensures PlainRole(n) == COMPUTE ==> StrippedRole(n) == COMPUTE
  {
    var role := Or(n.role, "hyperconverged");
    StripIsIdentityIff(role);
    if PlainRole(n) == COMPUTE {
      assert Unpadded(COMPUTE);
      CaseKeepsPadding(role);
    }
  }

  /** The addresses a payload node carries. */
  function NativeAddresses(n: NativeNode): seq<string> {
    [n.hypervisorIp, n.ipmiIp] + if n.cvmIp.Some? then [n.cvmIp.value] else []
  }

  lemma NativeAddressesAgreeIff(env: Env, n: Node)
    ensures NativeAddresses(Native(env, n)) == Addresses(n) <==> !PaddedCompute(n)
  {
    OnlyPaddingSplitsRoles(n);
    assert |Addresses(n)| == if StrippedRole(n) == COMPUTE then 2 else 3;
    assert |NativeAddresses(Native(env, n))| == if PlainRole(n) == COMPUTE then 2 else 3;
  }

  /** Without padded compute-only roles all addresses of the payload are distinct,
      within a node and across any two slots. */
  lemma AddressesAreDistinct(env: Env, config: Config, payload: Payload, b: nat, i: nat, c: nat, j: nat)
    requires ValidIntent(env, config) && Describes(env, config, payload)
    requires NonePadded(AllNodes(config.clusters))
    requires b < |payload.blocks| && i < |payload.blocks[b].nodes|
    requires c < |payload.blocks| && j < |payload.blocks[c].nodes|
    ensures NoDuplicates(NativeAddresses(payload.blocks[b].nodes[i]))
    ensures (b, i) != (c, j) ==>
      forall a :: a in NativeAddresses(payload.blocks[b].nodes[i]) ==> a !in NativeAddresses(payload.blocks[c].nodes[j])
  {
    var nodes := AllNodes(config.clusters);
    var p := SlotHoldsNode(env, nodes, payload.blocks[b].id, i);
    var q := SlotHoldsNode(env, nodes, payload.blocks[c].id, j);
    FreshAlone(Ids(nodes), {}, {}, p);
    NativeAddressesAgreeIff(env, nodes[p]);
    NativeAddressesAgreeIff(env, nodes[q]);
    if p < q {
      FreshPairwise(Ids(nodes), {}, {}, p, q);
    } else if q < p {
      FreshPairwise(Ids(nodes), {}, {}, q, p);
    } else {
      assert b == c && i == j;
    }
  }

  /******* Cluster members *******/

  /** The CVM addresses of the nodes the validator counts. */
  function CountedMembers(nodes: seq<Node>): (members: seq<string>)
    ensures |members| == NonCompute(nodes)
  {
    if nodes == [] then []
    else
      var last := nodes[|nodes| - 1];
      CountedMembers(nodes[..|nodes| - 1]) + if StrippedRole(last) == COMPUTE then [] else [Strip(last.cvmIp)]
  }

  ghost predicate NonePadded(nodes: seq<Node>) {
    forall n :: n in nodes ==> !PaddedCompute(n)
  }

  /** The members of a cluster are exactly the CVMs the validator counted, if and
      only if no compute-only role is padded; otherwise there are more. */
  lemma {:induction false} MembersAreCountedIff(nodes: seq<Node>)
    ensures Members(nodes) == CountedMembers(nodes) <==> NonePadded(nodes)
    ensures |Members(nodes)| >= |CountedMembers(nodes)|
    ensures |Members(nodes)| == |CountedMembers(nodes)| ==> NonePadded(nodes)
  {
    if nodes != [] {
      var before, last := nodes[..|nodes| - 1], nodes[|nodes| - 1];
      MembersAreCountedIff(before);
      OnlyPaddingSplitsRoles(last);
      assert NonePadded(nodes) <==> NonePadded(before) && !PaddedCompute(last) by {
        assert nodes == before + [last];
      }
    }
  }

  lemma AcceptedCounts(env: Env, config: Config, k: nat)
    requires ValidIntent(env, config) && k < |config.clusters|
    ensures CountsValid(config.clusters[k])
  {
    assert config.clusters[k] in config.clusters;
  }

  /** A cluster that is initialised has at least three members for redundancy factor
      two and five for three, on every accepted intent. */
  lemma EnoughMembers(env: Env, config: Config, payload: Payload, k: nat)
    requires ValidIntent(env, config) && Describes(env, config, payload) && k < |payload.clusters|
    ensures var native := payload.clusters[k];
      && (native.redundancy == 2 || native.redundancy == 3)
      && (native.init ==> |native.members| >= if native.redundancy == 3 then 5 else 3)
  {
    AcceptedCounts(env, config, k);
    MembersFollow(config.clusters[k], payload.clusters[k]);
  }

  lemma MembersFollow(c: Cluster, native: NativeCluster)
    requires CountsValid(c) && DescribesCluster(c, native)
    ensures native.redundancy == 2 || native.redundancy == 3
    ensures native.init ==> |native.members| >= if native.redundancy == 3 then 5 else 3
  {
    MembersAreCountedIff(c.nodes);
  }

  /******* Tables and credentials *******/

  lemma PlatformTextUnpadded(s: string)
    requires Lower(s) in PLATFORMS
    ensures Unpadded(s)
  {
    assert Unpadded(Lower(s));
    CaseKeepsPadding(s);
  }

  lemma LagTextUnpadded(s: string)
    requires Lower(s) in BONDS
    ensures Unpadded(s)
  {
    assert Unpadded(Lower(s));
    CaseKeepsPadding(s);
  }

  /** A valid intent is built, and does not end in a failed look-up, if and only if
      platform and LAG type carry no padding. */
  lemma TablesFindIff(env: Env, config: Config)
    requires ValidIntent(env, config)
    ensures Tables(config).Some? <==> Unpadded(config.platform) && Unpadded(Or(config.lag, "none"))
  {
    StripIsIdentityIff(config.platform);
    StripIsIdentityIff(Or(config.lag, "none"));
    if TablesFind(config) {
      PlatformTextUnpadded(config.platform);
      LagTextUnpadded(Or(config.lag, "none"));
    }
  }

  /** A node's IPMI credentials are resolved in the payload when the reference
      carries no padding; the builder ignores the error of a failed look-up. */
  lemma CredentialsResolveUnpadded(env: Env, config: Config, payload: Payload, b: nat, i: nat) returns (p: nat)
    requires ValidIntent(env, config) && Describes(env, config, payload)
    requires b < |payload.blocks| && i < |payload.blocks[b].nodes|
    ensures p < |AllNodes(config.clusters)|
    ensures var n := AllNodes(config.clusters)[p];
      && payload.blocks[b].nodes[i] == Native(env, n)
      && (Unpadded(n.credential) ==>
            n.credential in env.secrets && payload.blocks[b].nodes[i].secret == Some(env.secrets[n.credential]))
  {
    var nodes := AllNodes(config.clusters);
    p := SlotHoldsNode(env, nodes, payload.blocks[b].id, i);
    ValidNodesInPayload(env, config, p);
    StripIsIdentityIff(nodes[p].credential);
  }
}
