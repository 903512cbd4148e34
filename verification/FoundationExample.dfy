/**
 A small deployment that the validator accepts, and the two ways in which padding
 makes the builder disagree with it, on concrete texts.
 */
module FoundationExample {
  import opened Prelude
  import opened Text
  import opened FoundationIdentity
  import opened FoundationIntent
  import opened FoundationPayload
  import opened FoundationSoundness

  /** Node `k` of the example: one-letter texts. */
  function ExampleNode(host: string, ipmi: string, cvm: string, serial: string): Node {
    Node("", serial, "h", host, ipmi, cvm, 32, "A", "", "", false, "c")
  }

  const NODES := [ExampleNode("1", "2", "3", "x"), ExampleNode("4", "5", "6", "y"), ExampleNode("7", "8", "9", "z")]
  const CLUSTER := Cluster("n", "v", false, true, "m", "g", "m", "g", "", "", "", NODES, Some(2))
  const CONFIG := Config("f", 8000, "auto", "", "a", "i", true, ["d"], ["t"], [CLUSTER], "c", "c")
  const ENV := Env({"1", "2", "3", "4", "5", "6", "7", "8", "9", "p", "q", "g"}, {"m"}, {}, map["c" := "s"])

  lemma NodeIsValid(host: string, ipmi: string, cvm: string, serial: string)
    requires |host| == |ipmi| == |cvm| == |serial| == 1
    requires !IsSpace(host[0]) && !IsSpace(ipmi[0]) && !IsSpace(cvm[0]) && !IsSpace(serial[0])
    requires host in ENV.addresses && ipmi in ENV.addresses && cvm in ENV.addresses
    ensures var n := ExampleNode(host, ipmi, cvm, serial);
      && NodeValid(ENV, n) && InSubnets(ENV, CLUSTER, n) && Addresses(n) == [host, ipmi, cvm] && Place(n) == (serial, "A")
      && StrippedRole(n) != COMPUTE && PlainRole(n) != COMPUTE
  {
    var role := "hyperconverged";
    StripIsIdentityIff(role);
    assert Lower(role) == role;
    assert Upper("A") == "A";
  }

  const FIRST := Identity(["1", "2", "3"], ("x", "A"))
  const SECOND := Identity(["4", "5", "6"], ("y", "A"))
  const THIRD := Identity(["7", "8", "9"], ("z", "A"))

  /** No address and no place in common. */
  predicate Apart(a: Identity, b: Identity) {
    a.place != b.place && forall x :: x in a.addresses ==> x !in b.addresses
  }

  lemma ThreeApart(a: Identity, b: Identity, c: Identity)
    requires NoDuplicates(a.addresses) && NoDuplicates(b.addresses) && NoDuplicates(c.addresses)
    requires Apart(a, b) && Apart(a, c) && Apart(b, c)
    ensures AllFresh([a, b, c], {}, {})
  {
    OneMoreFresh([], a, {}, {});
    OneMoreFresh([a], b, {}, {});
    OneMoreFresh([a, b], c, {}, {});
    assert [] + [a] == [a] && [a] + [b] == [a, b] && [a, b] + [c] == [a, b, c];
  }

  lemma IdentitiesAreFresh()
    ensures AllFresh([FIRST, SECOND, THIRD], {}, {})
  {
    assert "1"[0] == '1' && "2"[0] == '2' && "3"[0] == '3' && "4"[0] == '4' && "5"[0] == '5' && "6"[0] == '6';
    assert "7"[0] == '7' && "8"[0] == '8' && "9"[0] == '9' && "x"[0] == 'x' && "y"[0] == 'y' && "z"[0] == 'z';
    ThreeApart(FIRST, SECOND, THIRD);
  }

  lemma NodesAreValid()
    ensures forall n :: n in NODES ==> NodeValid(ENV, n) && InSubnets(ENV, CLUSTER, n) && PlainRole(n) != COMPUTE
    ensures Ids(NODES) == [FIRST, SECOND, THIRD]
  {
    NodeIsValid("1", "2", "3", "x");
    NodeIsValid("4", "5", "6", "y");
    NodeIsValid("7", "8", "9", "z");
  }

  lemma NodesAreCounted()
    ensures NonCompute(NODES) == 3
  {
    NodeIsValid("1", "2", "3", "x");
    NodeIsValid("4", "5", "6", "y");
    NodeIsValid("7", "8", "9", "z");
    OneMoreValid(ENV, [], NODES[0]);
    OneMoreValid(ENV, [NODES[0]], NODES[1]);
    OneMoreValid(ENV, [NODES[0], NODES[1]], NODES[2]);
    assert [] + [NODES[0]] == [NODES[0]] && [NODES[0]] + [NODES[1]] == [NODES[0], NODES[1]];
    assert [NODES[0], NODES[1]] + [NODES[2]] == NODES;
  }

  lemma SettingsAreValid()
    ensures SettingsValid(ENV, CLUSTER, NetworkOf(CLUSTER))
  {
  }

  lemma CountsAreValid()
    ensures CountsValid(CLUSTER)
  {
    NodesAreCounted();
  }

  lemma ClusterIsValid()
    ensures ClusterValid(ENV, CLUSTER, NetworkOf(CLUSTER))
  {
    NodesAreValid();
    CountsAreValid();
    SettingsAreValid();
  }

  /** The intent with the given platform text. */
  function Example(platform: string): Config {
    CONFIG.(platform := platform)
  }

  lemma HeaderIsValid(platform: string)
    requires Lower(Strip(platform)) in PLATFORMS
    ensures HeaderValid(ENV, Example(platform))
  {
    StripIsIdentityIff("none");
    assert Lower("none") == "none";
  }

  /** An intent of one cluster is valid if its parts are. */
  lemma OneClusterIsEnough(env: Env, config: Config, c: Cluster)
    requires config.clusters == [c] && HeaderValid(env, config)
    requires ClusterValid(env, c, NetworkOf(c)) && AllFresh(Ids(c.nodes), {}, {})
    ensures ValidIntent(env, config)
  {
    assert config.clusters[0] == c;
    assert AllNodes([c]) == [] + c.nodes == c.nodes;
  }

  lemma ClusterIsFresh()
    ensures AllFresh(Ids(CLUSTER.nodes), {}, {})
  {
    NodesAreValid();
    IdentitiesAreFresh();
  }

  lemma ExampleIsValid(platform: string)
    requires Lower(Strip(platform)) in PLATFORMS
    ensures ValidIntent(ENV, Example(platform))
  {
    HeaderIsValid(platform);
    ClusterIsValid();
    ClusterIsFresh();
    OneClusterIsEnough(ENV, Example(platform), CLUSTER);
  }

  /** `auto`, with and without a blank behind it, is in the table after stripping. */
  lemma AutoIsKnown()
    ensures Lower(Strip("auto")) in PLATFORMS && Lower(Strip("auto ")) in PLATFORMS
    ensures Unpadded("auto") && !Unpadded("auto ")
  {
    StripIsIdentityIff("auto");
    assert Lower("auto") == "auto";
    assert "auto "[..4] == "auto";
    assert Strip("auto ") == "auto";
  }

  lemma AutoIsFound()
    ensures Tables(Example("auto")).Some?
  {
    assert Lower("auto") == "auto" && Lower("none") == "none";
  }

  /** Without padding the example is accepted and built. */
  lemma PlainPlatformIsBuilt()
    ensures ValidIntent(ENV, Example("auto")) && Tables(Example("auto")).Some?
  {
    AutoIsKnown();
    ExampleIsValid("auto");
    AutoIsFound();
  }

  /** With a blank behind the platform it is accepted, and building it ends in a
      failed look-up. */
  lemma PaddedPlatformIsAcceptedButNotBuilt()
    ensures ValidIntent(ENV, Example("auto ")) && Tables(Example("auto ")).None?
  {
    AutoIsKnown();
    ExampleIsValid("auto ");
    TablesFindIff(ENV, Example("auto "));
  }

  /******* A padded compute-only role *******/

  /** A fourth node whose role has a blank behind it; its CVM address is that of the
      first node. */
  const PADDED := ExampleNode("p", "q", "3", "w").(role := "compute-only ")
  const FOURTH := Identity(["p", "q"], ("w", "A"))
  const FOUR := CLUSTER.(nodes := NODES + [PADDED])

  lemma PaddedRole()
    ensures StrippedRole(PADDED) == COMPUTE && PlainRole(PADDED) != COMPUTE
  {
    assert PADDED.role[..12] == COMPUTE;
    StripIsIdentityIff(COMPUTE);
    assert Strip(PADDED.role) == COMPUTE;
    assert Lower(COMPUTE) == COMPUTE;
    assert |PlainRole(PADDED)| == 13;
  }

  lemma PaddedIsValid()
    ensures NodeValid(ENV, PADDED) && InSubnets(ENV, FOUR, PADDED) && Id(PADDED) == FOURTH
  {
    PaddedRole();
    assert Upper("A") == "A";
  }

  lemma FourAreFresh()
    ensures AllFresh([FIRST, SECOND, THIRD, FOURTH], {}, {})
  {
    IdentitiesAreFresh();
    assert "p"[0] == 'p' && "q"[0] == 'q' && "w"[0] == 'w';
    assert Apart(FIRST, FOURTH) && Apart(SECOND, FOURTH) && Apart(THIRD, FOURTH);
    OneMoreFresh([FIRST, SECOND, THIRD], FOURTH, {}, {});
    assert [FIRST, SECOND, THIRD] + [FOURTH] == [FIRST, SECOND, THIRD, FOURTH];
  }

  lemma FourCounts()
    ensures NonCompute(FOUR.nodes) == 3 && Ids(FOUR.nodes) == [FIRST, SECOND, THIRD, FOURTH]
  {
    NodesAreCounted();
    NodesAreValid();
    PaddedRole();
    PaddedIsValid();
    assert FOUR.nodes[..3] == NODES;
    assert forall k :: 0 <= k < 3 ==> Id(FOUR.nodes[k]) == Ids(NODES)[k];
  }

  lemma FourNodesAreValid()
    ensures forall n :: n in FOUR.nodes ==> NodeValid(ENV, n) && InSubnets(ENV, FOUR, n)
  {
    NodesAreValid();
    PaddedIsValid();
    forall n | n in FOUR.nodes ensures NodeValid(ENV, n) && InSubnets(ENV, FOUR, n) {
      if n != PADDED {
        assert n in NODES;
        assert InSubnets(ENV, CLUSTER, n);
      }
    }
  }

  lemma FourSettingsAreValid()
    ensures SettingsValid(ENV, FOUR, NetworkOf(FOUR))
  {
    SettingsAreValid();
  }

  lemma FourCountsAreValid()
    ensures CountsValid(FOUR)
  {
    FourCounts();
  }

  lemma FourIsValid()
    ensures ClusterValid(ENV, FOUR, NetworkOf(FOUR))
  {
    FourNodesAreValid();
    FourSettingsAreValid();
    FourCountsAreValid();
  }

  lemma FourMembers()
    ensures CountedMembers(FOUR.nodes) == ["3", "6", "9"] && Members(FOUR.nodes) == ["3", "6", "9", "3"]
  {
    PaddedRole();
    NodeIsValid("1", "2", "3", "x");
    NodeIsValid("4", "5", "6", "y");
    NodeIsValid("7", "8", "9", "z");
    var nodes := FOUR.nodes;
    assert nodes[..3][..2] == nodes[..2] && nodes[..2][..1] == nodes[..1] && nodes[..1][..0] == [];
    assert Strip("3") == "3" && Strip("6") == "6" && Strip("9") == "9";
    assert CountedMembers(nodes[..1]) == ["3"] && Members(nodes[..1]) == ["3"];
    assert CountedMembers(nodes[..2]) == ["3", "6"] && Members(nodes[..2]) == ["3", "6"];
    assert CountedMembers(nodes[..3]) == ["3", "6", "9"] && Members(nodes[..3]) == ["3", "6", "9"];
  }

  /** An accepted intent of three hyperconverged nodes and one compute-only node whose
      role has a blank behind it. The padded node is not counted, and its CVM address,
      which was compared with the subnet but with no other address, becomes a cluster
      member: here the address of another node's CVM, a second time. */
  lemma PaddedComputeBecomesMember()
    ensures var config := Example("auto").(clusters := [FOUR]);
      && ValidIntent(ENV, config) && PADDED in FOUR.nodes && PaddedCompute(PADDED)
      && CountedMembers(FOUR.nodes) == ["3", "6", "9"]
      && Members(FOUR.nodes) == ["3", "6", "9", "3"]
  {
    var config := Example("auto").(clusters := [FOUR]);
    AutoIsKnown();
    HeaderIsValid("auto");
    FourIsValid();
    FourCounts();
    FourAreFresh();
    FourMembers();
    PaddedRole();
    assert HeaderValid(ENV, config);
    OneClusterIsEnough(ENV, config, FOUR);
    assert FOUR.nodes[3] == PADDED;
  }
}
