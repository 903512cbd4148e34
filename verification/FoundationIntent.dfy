/**
 The Foundation deployment intent and its validator: a method that collects
 errors while it remembers the addresses and block positions it has seen, proved
 to find no error exactly when the intent is valid.
 */
module FoundationIntent {
  import opened Prelude
  import opened Text
  import opened FoundationIdentity

  /** Missing and empty values are both "". */
  datatype Node = Node(role: string, serial: string, hostname: string, hostIp: string, ipmiIp: string, cvmIp: string,
                       cvmRam: int, position: string, block: string, mac: string, configureIpmi: bool, credential: string)

  /** `redundancy` after its default; None when it is not a number. */
  datatype Cluster = Cluster(name: string, vip: string, skip: bool, noIpmiSubnet: bool,
                             hostMask: string, hostGateway: string, cvmMask: string, cvmGateway: string,
                             ipmiMask: string, ipmiGateway: string, vlan: string,
                             nodes: seq<Node>, redundancy: Option<int>)

  datatype Config = Config(host: string, port: int, platform: string, lag: string, aos: string, hypervisor: string,
                           digestOk: bool, dns: seq<string>, ntp: seq<string>, clusters: seq<Cluster>,
                           hypervisorCredential: string, clusterCredential: string)

  type Secret = string

  /** What the library and the vault answer: which texts are addresses and masks,
      which addresses lie outside the subnet of a gateway and mask, and what a
      credential reference resolves to. */
  datatype Env = Env(addresses: set<string>, masks: set<string>, outside: set<(string, string, string)>, secrets: map<string, Secret>)

  const PLATFORMS: map<string, string> :=
    map["autodetect" := "auto", "auto" := "auto", "nutanix" := "nutanix_nx", "nutanix_nx" := "nutanix_nx",
        "dell" := "dell_xc", "dell_xc" := "dell_xc", "lenovo" := "lenovo_hx", "lenovo_hx" := "lenovo_hx",
        "ibm" := "ibm_powerpc", "ibm_powerpc" := "ibm_powerpc", "cisco_ucs" := "cisco_ucs",
        "cisco_standalone" := "cisco_ucs", "hpe" := "hpe_proliant", "hpe_proliant" := "hpe_proliant",
        "hitachi" := "hitachi", "inspur" := "inspur", "intel" := "intel", "nec" := "nec", "fujitsu" := "fujitsu",
        "other" := "other"]

  const BONDS: map<string, string> := map["none" := "", "static" := "static", "lacp" := "dynamic", "dynamic" := "dynamic"]

  function Or(s: string, default: string): string {
    if s == "" then default else s
  }

  const COMPUTE := "compute-only"
  const ROLES := {"hyperconverged", "storage-only", "compute-only"}
  const POSITIONS := {"A", "B", "C", "D"}

  /** The role as most of the validator reads it ... */
  function StrippedRole(n: Node): string {
    Lower(Strip(Or(n.role, "hyperconverged")))
  }

  /** ... and as the payload builder, and the last checks of the validator, do. */
  function PlainRole(n: Node): string {
    Lower(Or(n.role, "hyperconverged"))
  }

  function BlockKey(n: Node): string {
    Strip(Or(n.block, n.serial))
  }

  /** A position in a block. */
  function Place(n: Node): (string, string) {
    (BlockKey(n), Upper(Strip(n.position)))
  }

  /** The addresses of a node, in the order they are checked. */
  function Addresses(n: Node): seq<string> {
    [Strip(n.hostIp), Strip(n.ipmiIp)] + if StrippedRole(n) == COMPUTE then [] else [Strip(n.cvmIp)]
  }

  predicate AddressOk(env: Env, s: string) {
    Strip(s) != "" && Strip(s) in env.addresses
  }

  /** A node by itself. */
  predicate NodeValid(env: Env, n: Node) {
    && StrippedRole(n) in ROLES
    && (StrippedRole(n) != COMPUTE ==> n.cvmRam >= 20 && AddressOk(env, n.cvmIp))
    && Strip(n.serial) != "" && Strip(n.hostname) != ""
    && (n.configureIpmi ==> Strip(n.mac) != "")
    && AddressOk(env, n.hostIp) && AddressOk(env, n.ipmiIp)
    && Upper(Strip(n.position)) in POSITIONS
    && Strip(n.credential) in env.secrets
  }

  function Id(n: Node): Identity {
    Identity(Addresses(n), Place(n))
  }

  function Ids(nodes: seq<Node>): (ids: seq<Identity>)
    ensures |ids| == |nodes| && forall k :: 0 <= k < |nodes| ==> ids[k] == Id(nodes[k])
  {
    seq(|nodes|, k requires 0 <= k < |nodes| => Id(nodes[k]))
  }

  function NonCompute(nodes: seq<Node>): nat {
    if nodes == [] then 0
    else NonCompute(nodes[..|nodes| - 1]) + if StrippedRole(nodes[|nodes| - 1]) == COMPUTE then 0 else 1
  }

  function Minimum(redundancy: Option<int>): nat {
    if redundancy == Some(3) then 5 else if redundancy == Some(2) then 3 else 0
  }

  function NetworkOf(c: Cluster): seq<string> {
    [Strip(c.hostMask), Strip(c.hostGateway), Strip(c.cvmMask), Strip(c.cvmGateway), Strip(c.ipmiMask), Strip(c.ipmiGateway), Strip(c.vlan)]
  }

  predicate Inside(env: Env, address: string, gateway: string, mask: string) {
    Strip(address) != "" && Strip(gateway) != "" && Strip(mask) != "" ==> (Strip(address), Strip(gateway), Strip(mask)) !in env.outside
  }

  predicate InSubnets(env: Env, c: Cluster, n: Node) {
    && Inside(env, n.hostIp, c.hostGateway, c.hostMask)
    && (PlainRole(n) != COMPUTE ==> Inside(env, n.cvmIp, c.cvmGateway, c.cvmMask))
    && (!c.noIpmiSubnet ==> Inside(env, n.ipmiIp, c.ipmiGateway, c.ipmiMask))
  }

  predicate BlankOr(s: string, valid: set<string>) {
    Strip(s) != "" ==> Strip(s) in valid
  }

  /** The values that must be given. */
  predicate NetworkGiven(c: Cluster) {
    && Strip(c.hostMask) != "" && Strip(c.hostGateway) != "" && Strip(c.cvmMask) != "" && Strip(c.cvmGateway) != ""
    && (!c.noIpmiSubnet ==> Strip(c.ipmiMask) != "" && Strip(c.ipmiGateway) != "")
  }

  predicate NetworkParses(env: Env, c: Cluster) {
    && BlankOr(c.hostGateway, env.addresses) && BlankOr(c.cvmGateway, env.addresses) && BlankOr(c.ipmiGateway, env.addresses)
    && BlankOr(c.hostMask, env.masks) && BlankOr(c.cvmMask, env.masks) && BlankOr(c.ipmiMask, env.masks)
  }

  /** A cluster without the look at its nodes one by one. */
  predicate SettingsValid(env: Env, c: Cluster, network: seq<string>) {
    && (!c.skip ==> Strip(c.name) != "" && Strip(c.vip) != "")
    && NetworkOf(c) == network
    && NetworkGiven(c)
    && NetworkParses(env, c)
    && c.nodes != []
  }

  predicate CountsValid(c: Cluster) {
    && ((exists n :: n in c.nodes && PlainRole(n) == COMPUTE) ==> NonCompute(c.nodes) >= 3)
    && Minimum(c.redundancy) > 0
    && (!c.skip ==> NonCompute(c.nodes) >= Minimum(c.redundancy))
  }

  predicate ClusterValid(env: Env, c: Cluster, network: seq<string>) {
    && SettingsValid(env, c, network)
    && (forall n :: n in c.nodes ==> NodeValid(env, n) && InSubnets(env, c, n))
    && CountsValid(c)
  }

  function AllNodes(clusters: seq<Cluster>): seq<Node> {
    if clusters == [] then [] else AllNodes(clusters[..|clusters| - 1]) + clusters[|clusters| - 1].nodes
  }

  predicate OptionsValid(config: Config) {
    Lower(Strip(config.platform)) in PLATFORMS && Lower(Strip(Or(config.lag, "none"))) in BONDS
  }

  predicate HeaderValid(env: Env, config: Config) {
    && config.host != "" && 1 <= config.port <= 65535
    && OptionsValid(config)
    && Strip(config.aos) != "" && Strip(config.hypervisor) != "" && config.digestOk
    && 1 <= |config.dns| <= 3 && config.ntp != []
    && config.clusters != []
    && Strip(config.hypervisorCredential) in env.secrets && Strip(config.clusterCredential) in env.secrets
  }

  predicate ValidIntent(env: Env, config: Config) {
    && HeaderValid(env, config)
    && (forall c :: c in config.clusters ==> ClusterValid(env, c, NetworkOf(config.clusters[0])))
    && AllFresh(AllIds(config.clusters), {}, {})
  }

  /******* The validator *******/

  /** Adds the message of a check that failed. */
  function With(errors: seq<string>, ok: bool, message: string): (r: seq<string>)
    ensures r == [] <==> errors == [] && ok
  {
    if ok then errors else errors + [message]
  }

  method ValidateOptions(config: Config) returns (errors: seq<string>)
    ensures errors == [] <==> OptionsValid(config)
  {
    errors := With([], Lower(Strip(config.platform)) in PLATFORMS, "hardware_platform is not supported");
    errors := With(errors, Lower(Strip(Or(config.lag, "none"))) in BONDS, "lag_type must be none, static, or dynamic");
  }

  method ValidateHeader(env: Env, config: Config) returns (errors: seq<string>)
    ensures errors == [] <==> HeaderValid(env, config)
  {
    errors := With([], config.host != "", "foundation_vm_ip is required");
    errors := With(errors, 1 <= config.port <= 65535, "foundation_vm_port must be between 1 and 65535");
    var optionErrors := ValidateOptions(config);
    errors := errors + optionErrors;
    errors := With(errors, Strip(config.aos) != "", "aos_package is required");
    errors := With(errors, Strip(config.hypervisor) != "", "hypervisor_iso is required");
    errors := With(errors, config.digestOk, "hypervisor_checksum must be a hexadecimal digest");
    errors := With(errors, config.dns != [], "dns_servers must contain at least one value");
    errors := With(errors, config.ntp != [], "ntp_servers must contain at least one value");
    errors := With(errors, |config.dns| <= 3, "dns_servers supports at most three values");
    errors := With(errors, config.clusters != [], "create_clusters must contain at least one cluster");
    errors := With(errors, Strip(config.hypervisorCredential) in env.secrets, "hypervisor_credential is required");
    errors := With(errors, Strip(config.clusterCredential) in env.secrets, "cluster_credential is required");
  }

  /** Stripped addresses that are present, well formed, new and different. */
  predicate Clean(env: Env, addresses: seq<string>, seen: set<string>) {
    && (forall a :: a in addresses ==> a != "" && a in env.addresses && a !in seen)
    && NoDuplicates(addresses)
  }

  method ValidateAddresses(env: Env, addresses: seq<string>, seen: set<string>) returns (errors: seq<string>, ips: set<string>)
    ensures errors == [] <==> Clean(env, addresses, seen)
    ensures errors == [] ==> ips == seen + set a | a in addresses
  {
    errors, ips := [], seen;
    for k := 0 to |addresses|
      invariant errors == [] <==> Clean(env, addresses[..k], seen)
      invariant errors == [] ==> ips == seen + set a | a in addresses[..k]
    {
      var value := addresses[k];
      var before := addresses[..k];
      assert addresses[..k + 1] == before + [value];
      OneMoreClean(env, before, value, seen);
      if value == "" {
        errors := errors + ["address is required"];
      } else {
        if value !in env.addresses {
          errors := errors + ["not a valid IP address"];
        }
        if value in ips {
          errors := errors + ["duplicates another node address"];
        }
        ips := ips + {value};
      }
    }
    assert addresses[..|addresses|] == addresses;
  }

  lemma OneMoreClean(env: Env, before: seq<string>, value: string, seen: set<string>)
    ensures Clean(env, before + [value], seen) <==>
      Clean(env, before, seen) && value != "" && value in env.addresses && value !in seen && value !in before
  {
    var all := before + [value];
    if Clean(env, all, seen) {
      forall a | a in before
        ensures a != "" && a in env.addresses && a !in seen && a != value
      {
        var i :| 0 <= i < |before| && before[i] == a;
        assert all[i] == a && all[|before|] == value;
        assert a in all;
      }
      assert forall i, j :: 0 <= i < j < |before| ==> before[i] == all[i] && before[j] == all[j];
      assert value in all;
    } else if Clean(env, before, seen) && value !in before {
      assert forall a :: a in all ==> a in before || a == value;
    }
  }

  /** One node: its own fields, then its addresses and its place against the seen ones. */
  method ValidateNode(env: Env, n: Node, seenIps: set<string>, seenPlaces: set<(string, string)>)
    returns (errors: seq<string>, ips: set<string>, places: set<(string, string)>)
    ensures errors == [] <==> NodeValid(env, n) && Fresh(Id(n), seenIps, seenPlaces)
    ensures errors == [] ==> ips == seenIps + AddressSet([Id(n)]) && places == seenPlaces + Places([Id(n)])
  {
    var role := Lower(Strip(Or(n.role, "hyperconverged")));
    errors := With([], role in ROLES, "node_role is invalid");
    errors := With(errors, role == COMPUTE || n.cvmRam >= 20, "cvm_ram_gb must be at least 20");
    errors := With(errors, Strip(n.serial) != "", "node_serial is required");
    errors := With(errors, Strip(n.hostname) != "", "hypervisor_hostname is required");
    errors := With(errors, !n.configureIpmi || Strip(n.mac) != "", "ipmi_mac is required");
    var position := Upper(Strip(n.position));
    errors := With(errors, position in POSITIONS, "node_position must be A, B, C, or D");
    var block := Strip(Or(n.block, n.serial));
    errors := With(errors, (block, position) !in seenPlaces, "node_position duplicates a position in block");
    places := seenPlaces + {(block, position)};
    errors := With(errors, Strip(n.credential) in env.secrets, "ipmi_credential_ref is required");
    var addressErrors;
    addressErrors, ips := ValidateAddresses(env, Addresses(n), seenIps);
    CleanMeansFreshAndValid(env, n, seenIps);
    errors := errors + addressErrors;
    assert AddressSet([Id(n)]) == set a | a in Addresses(n);
    assert Places([Id(n)]) == {Place(n)};
  }

  lemma CleanMeansFreshAndValid(env: Env, n: Node, seen: set<string>)
    ensures Clean(env, Addresses(n), seen) <==>
      && NoDuplicates(Addresses(n)) && (forall a :: a in Addresses(n) ==> a !in seen)
      && AddressOk(env, n.hostIp) && AddressOk(env, n.ipmiIp) && (StrippedRole(n) != COMPUTE ==> AddressOk(env, n.cvmIp))
  {
    var xs := Addresses(n);
    assert forall k :: 0 <= k < |xs| ==> xs[k] in xs;
    assert xs[0] == Strip(n.hostIp) && xs[1] == Strip(n.ipmiIp);
    assert StrippedRole(n) != COMPUTE ==> xs[2] == Strip(n.cvmIp);
    assert forall a :: a in xs ==> a == xs[0] || a == xs[1] || (StrippedRole(n) != COMPUTE && a == xs[2]);
  }

  /******* Nodes of one cluster *******/

  ghost predicate AllValid(env: Env, nodes: seq<Node>) {
    forall n :: n in nodes ==> NodeValid(env, n)
  }

  ghost predicate NodesValid(env: Env, nodes: seq<Node>, ips: set<string>, places: set<(string, string)>) {
    AllValid(env, nodes) && AllFresh(Ids(nodes), ips, places)
  }

  lemma OneMoreValid(env: Env, before: seq<Node>, n: Node)
    ensures AllValid(env, before + [n]) <==> AllValid(env, before) && NodeValid(env, n)
    ensures NonCompute(before + [n]) == NonCompute(before) + if StrippedRole(n) == COMPUTE then 0 else 1
    ensures Ids(before + [n]) == Ids(before) + [Id(n)]
  {
    assert (before + [n])[..|before + [n]| - 1] == before;
    assert forall m :: m in before + [n] <==> m in before || m == n;
  }

  lemma OneMoreNode(env: Env, before: seq<Node>, n: Node, ips: set<string>, places: set<(string, string)>)
    ensures NodesValid(env, before + [n], ips, places) <==>
      NodesValid(env, before, ips, places) && NodeValid(env, n)
      && Fresh(Id(n), ips + AddressSet(Ids(before)), places + Places(Ids(before)))
    ensures ips + AddressSet(Ids(before + [n])) == ips + AddressSet(Ids(before)) + AddressSet([Id(n)])
    ensures places + Places(Ids(before + [n])) == places + Places(Ids(before)) + Places([Id(n)])
    ensures NonCompute(before + [n]) == NonCompute(before) + if StrippedRole(n) == COMPUTE then 0 else 1
  {
    OneMoreValid(env, before, n);
    OneMoreFresh(Ids(before), Id(n), ips, places);
    SeenTwice(Ids(before), [Id(n)], ips, places);
  }

  /** The loop over the nodes: fields, addresses, places and the count. */
  method ValidateNodes(env: Env, nodes: seq<Node>, seenIps: set<string>, seenPlaces: set<(string, string)>)
    returns (errors: seq<string>, ips: set<string>, places: set<(string, string)>, nonCompute: nat)
    ensures errors == [] <==> NodesValid(env, nodes, seenIps, seenPlaces)
    ensures errors == [] ==> ips == seenIps + AddressSet(Ids(nodes)) && places == seenPlaces + Places(Ids(nodes))
    ensures nonCompute == NonCompute(nodes)
  {
    errors, ips, places, nonCompute := [], seenIps, seenPlaces, 0;
    for k := 0 to |nodes|
      invariant errors == [] <==> NodesValid(env, nodes[..k], seenIps, seenPlaces)
      invariant errors == [] ==> ips == seenIps + AddressSet(Ids(nodes[..k])) && places == seenPlaces + Places(Ids(nodes[..k]))
      invariant nonCompute == NonCompute(nodes[..k])
    {
      assert nodes[..k + 1] == nodes[..k] + [nodes[k]];
      OneMoreNode(env, nodes[..k], nodes[k], seenIps, seenPlaces);
      var nodeErrors;
      nodeErrors, ips, places := ValidateNode(env, nodes[k], ips, places);
      errors := errors + nodeErrors;
      nonCompute := nonCompute + if StrippedRole(nodes[k]) == COMPUTE then 0 else 1;
    }
    assert nodes[..|nodes|] == nodes;
  }

  method ValidateSubnets(env: Env, c: Cluster) returns (errors: seq<string>)
    ensures errors == [] <==> forall n :: n in c.nodes ==> InSubnets(env, c, n)
  {
    errors := [];
    for k := 0 to |c.nodes|
      invariant errors == [] <==> forall n :: n in c.nodes[..k] ==> InSubnets(env, c, n)
    {
      assert c.nodes[..k + 1] == c.nodes[..k] + [c.nodes[k]];
      errors := With(errors, InSubnets(env, c, c.nodes[k]), "address is outside the gateway subnet");
    }
    assert c.nodes[..|c.nodes|] == c.nodes;
  }

  method ValidateGiven(c: Cluster) returns (errors: seq<string>)
    ensures errors == [] <==> NetworkGiven(c)
  {
    errors := With([], Strip(c.hostMask) != "", "host_netmask is required");
    errors := With(errors, Strip(c.hostGateway) != "", "host_gateway is required");
    errors := With(errors, Strip(c.cvmMask) != "", "cvm_netmask is required");
    errors := With(errors, Strip(c.cvmGateway) != "", "cvm_gateway is required");
    errors := With(errors, c.noIpmiSubnet || Strip(c.ipmiMask) != "", "ipmi_netmask is required unless IPMI has no subnet");
    errors := With(errors, c.noIpmiSubnet || Strip(c.ipmiGateway) != "", "ipmi_gateway is required unless IPMI has no subnet");
  }

  method ValidateParses(env: Env, c: Cluster) returns (errors: seq<string>)
    ensures errors == [] <==> NetworkParses(env, c)
  {
    errors := With([], BlankOr(c.hostGateway, env.addresses), "host_gateway is not a valid IP address");
    errors := With(errors, BlankOr(c.cvmGateway, env.addresses), "cvm_gateway is not a valid IP address");
    errors := With(errors, BlankOr(c.ipmiGateway, env.addresses), "ipmi_gateway is not a valid IP address");
    errors := With(errors, BlankOr(c.hostMask, env.masks), "host_netmask is not a valid IPv4 netmask");
    errors := With(errors, BlankOr(c.cvmMask, env.masks), "cvm_netmask is not a valid IPv4 netmask");
    errors := With(errors, BlankOr(c.ipmiMask, env.masks), "ipmi_netmask is not a valid IPv4 netmask");
  }

  method ValidateSettings(env: Env, c: Cluster, network: seq<string>) returns (errors: seq<string>)
    ensures errors == [] <==> SettingsValid(env, c, network)
  {
    errors := With([], c.skip || Strip(c.name) != "", "cluster_name is required unless cluster formation is skipped");
    errors := With(errors, c.skip || Strip(c.vip) != "", "cluster_vip is required unless cluster formation is skipped");
    errors := With(errors, NetworkOf(c) == network, "uses network values that differ from the first cluster");
    var given := ValidateGiven(c);
    var parses := ValidateParses(env, c);
    errors := errors + given + parses;
    errors := With(errors, c.nodes != [], "nodes_list must contain at least one node");
  }

  method ValidateCounts(c: Cluster, nonCompute: nat) returns (errors: seq<string>)
    requires nonCompute == NonCompute(c.nodes)
    ensures errors == [] <==> CountsValid(c)
  {
    var compute := exists n :: n in c.nodes && PlainRole(n) == COMPUTE;
    errors := With([], !compute || nonCompute >= 3, "requires at least three non-compute nodes");
    var minimum := Minimum(c.redundancy);
    errors := With(errors, minimum > 0, "redundancy_factor must be 2 or 3");
    errors := With(errors, c.skip || nonCompute >= minimum, "requires more regular or storage nodes");
  }

  method ValidateCluster(env: Env, c: Cluster, network: seq<string>, seenIps: set<string>, seenPlaces: set<(string, string)>)
    returns (errors: seq<string>, ips: set<string>, places: set<(string, string)>)
    ensures errors == [] <==> ClusterValid(env, c, network) && AllFresh(Ids(c.nodes), seenIps, seenPlaces)
    ensures errors == [] ==> ips == seenIps + AddressSet(Ids(c.nodes)) && places == seenPlaces + Places(Ids(c.nodes))
  {
    errors := ValidateSettings(env, c, network);
    ips, places := seenIps, seenPlaces;
    if c.nodes == [] {
      return;
    }
    var nodeErrors, nonCompute;
    nodeErrors, ips, places, nonCompute := ValidateNodes(env, c.nodes, seenIps, seenPlaces);
    var countErrors := ValidateCounts(c, nonCompute);
    var subnetErrors := ValidateSubnets(env, c);
    errors := errors + nodeErrors + countErrors + subnetErrors;
  }

  /******* All clusters *******/

  ghost predicate AllClustersValid(env: Env, clusters: seq<Cluster>, network: seq<string>) {
    forall c :: c in clusters ==> ClusterValid(env, c, network)
  }

  /** The identities of all nodes, cluster by cluster. */
  function AllIds(clusters: seq<Cluster>): seq<Identity> {
    Ids(AllNodes(clusters))
  }

  lemma OneMoreCluster(env: Env, before: seq<Cluster>, c: Cluster, network: seq<string>)
    ensures AllClustersValid(env, before + [c], network) <==> AllClustersValid(env, before, network) && ClusterValid(env, c, network)
  {
    assert forall d :: d in before + [c] <==> d in before || d == c;
  }

  lemma IdsGrow(before: seq<Cluster>, c: Cluster)
    ensures AllIds(before + [c]) == AllIds(before) + Ids(c.nodes)
  {
    assert (before + [c])[..|before + [c]| - 1] == before;
  }

  /** `validate_intent`: no error exactly for a valid intent. */
  method ValidateIntent(env: Env, config: Config) returns (errors: seq<string>)
    ensures errors == [] <==> ValidIntent(env, config)
  {
    errors := ValidateHeader(env, config);
    if config.clusters == [] {
      return;
    }
    var clusterErrors := ValidateClusters(env, config.clusters);
    errors := errors + clusterErrors;
  }

  method ValidateClusters(env: Env, clusters: seq<Cluster>) returns (errors: seq<string>)
    requires clusters != []
    ensures errors == [] <==> AllClustersValid(env, clusters, NetworkOf(clusters[0])) && AllFresh(AllIds(clusters), {}, {})
  {
    errors := [];
    var ips, places := {}, {};
    var network := NetworkOf(clusters[0]);
    for k := 0 to |clusters|
      invariant errors == [] <==> AllClustersValid(env, clusters[..k], network) && AllFresh(AllIds(clusters[..k]), {}, {})
      invariant errors == [] ==> ips == AddressSet(AllIds(clusters[..k])) && places == Places(AllIds(clusters[..k]))
    {
      ghost var before := clusters[..k];
      assert clusters[..k + 1] == before + [clusters[k]];
      OneMoreCluster(env, before, clusters[k], network);
      IdsGrow(before, clusters[k]);
      FreshFromTheStart(AllIds(before), Ids(clusters[k].nodes));
      Unions(AllIds(before), Ids(clusters[k].nodes));
      var clusterErrors;
      clusterErrors, ips, places := ValidateCluster(env, clusters[k], network, ips, places);
      errors := errors + clusterErrors;
    }
    assert clusters[..|clusters|] == clusters;
  }
}
