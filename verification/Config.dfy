/** The configuration algebra: fill, validate, and the change tests the reconcilers rest on. */
module Configuration {
  import opened Basics

  // ---------------------------------------------------------------------------
  // Data
  // ---------------------------------------------------------------------------

  datatype Value = Str(text: string) | Int(number: int) | Structured(yaml: string)

  type AgentConfig = map<string, Value>

  datatype NodeIPAM = NodeIPAM(
    enabled: bool,
    clusterCIDRs: seq<string>,
    serviceCIDR: string,
    serviceCIDRv6: string,
    maskSizeIPv4: int,
    maskSizeIPv6: int)

  /** antrea-controller.conf; `others` stands for the options the operator never touches. */
  datatype ControllerConfig = ControllerConfig(featureGates: map<string, bool>, nodeIPAM: NodeIPAM, others: string)

  /** AntreaInstallSpec. */
  datatype Spec = Spec(agent: string, cni: string, controller: string, platform: string, image: string)

  datatype ClusterNetworkEntry = ClusterNetworkEntry(cidr: string, hostPrefix: int)

  /** The spec of the cluster Network. */
  datatype NetworkSpec = NetworkSpec(
    clusterNetwork: seq<ClusterNetworkEntry>,
    serviceNetwork: seq<string>,
    networkType: string)

  datatype NetworkStatus = NetworkStatus(
    clusterNetwork: seq<ClusterNetworkEntry>,
    serviceNetwork: seq<string>,
    networkType: string,
    mtu: int)

  const SERVICE_CIDR := "serviceCIDR"
  const DEFAULT_MTU_OPTION := "defaultMTU"
  const DEFAULT_MTU: int := 1450
  const DEFAULT_IMAGE := "antrea/antrea-ubi:latest"
  const NODE_IPAM := "NodeIPAM"

  /** The YAML library and the test for an IPv4 CIDR, of which only the round trip is known. */
  datatype Library = Library(
    parseAgent: string -> Option<AgentConfig>,
    printAgent: AgentConfig -> string,
    parseController: string -> Option<ControllerConfig>,
    printController: ControllerConfig -> string,
    isIPv4: string -> bool)

  ghost predicate RoundTrips(lib: Library) {
    && (forall m :: lib.parseAgent(lib.printAgent(m)) == Some(m))
    && (forall c :: lib.parseController(lib.printController(c)) == Some(c))
  }

  datatype ConfigError =
    | ParseAgent | ParseController | NoServiceCIDR | NoImage | BadServiceCIDR | NoMTU

  /** The spec after a fill, which may have been filled half way when the fill fails. */
  datatype Filled = Filled(spec: Spec, error: Option<ConfigError>)

  // ---------------------------------------------------------------------------
  // Fill, as functions
  // ---------------------------------------------------------------------------

  function FillAgentMap(network: Option<NetworkSpec>, m: AgentConfig): AgentConfig
    requires network.Some? ==> network.value.serviceNetwork != []
  {
    var cidr :=
      if network.None? then m
      else
        var services := network.value.serviceNetwork;
        if SERVICE_CIDR in m && m[SERVICE_CIDR].Str? && m[SERVICE_CIDR].text in services then m
        else m[SERVICE_CIDR := Str(services[0])];
    if DEFAULT_MTU_OPTION in cidr then cidr else cidr[DEFAULT_MTU_OPTION := Int(DEFAULT_MTU)]
  }

  function FillAgent(lib: Library, network: Option<NetworkSpec>, spec: Spec): Filled
    requires network.Some? ==> network.value.serviceNetwork != []
  {
    var parsed := lib.parseAgent(spec.agent);
    if parsed.None? then Filled(spec, Some(ParseAgent))
    else if network.None? && SERVICE_CIDR !in parsed.value then Filled(spec, Some(NoServiceCIDR))
    else Filled(spec.(agent := lib.printAgent(FillAgentMap(network, parsed.value))), None)
  }

  /** Entry `k` is the first of its address family. */
  predicate FirstOfFamily(lib: Library, cidrs: seq<string>, k: nat)
    requires k < |cidrs|
  {
    forall j :: 0 <= j < k ==> lib.isIPv4(cidrs[j]) != lib.isIPv4(cidrs[k])
  }

  /** The first entry of each family among the first `n`, in order of appearance. */
  function Firsts(lib: Library, cidrs: seq<string>, n: nat): seq<string>
    requires n <= |cidrs|
  {
    if n == 0 then []
    else
      Firsts(lib, cidrs, n - 1) + if FirstOfFamily(lib, cidrs, n - 1) then [cidrs[n - 1]] else []
  }

  /** The position of the first entry of a family, or the length if there is none. */
  function FirstIndex(lib: Library, cidrs: seq<string>, v4: bool): (i: nat)
    ensures i <= |cidrs|
    ensures forall j :: 0 <= j < i ==> lib.isIPv4(cidrs[j]) != v4
    ensures i < |cidrs| ==> lib.isIPv4(cidrs[i]) == v4
  {
    if cidrs == [] || lib.isIPv4(cidrs[0]) == v4 then 0 else 1 + FirstIndex(lib, cidrs[1..], v4)
  }

  function CIDRs(entries: seq<ClusterNetworkEntry>): (r: seq<string>)
    ensures |r| == |entries| && forall i :: 0 <= i < |r| ==> r[i] == entries[i].cidr
  {
    seq(|entries|, i requires 0 <= i < |entries| => entries[i].cidr)
  }

  function FillNodeIPAM(lib: Library, network: NetworkSpec, ipam: NodeIPAM): NodeIPAM {
    var cidrs, services := CIDRs(network.clusterNetwork), network.serviceNetwork;
    var c4, c6 := FirstIndex(lib, cidrs, true), FirstIndex(lib, cidrs, false);
    var s4, s6 := FirstIndex(lib, services, true), FirstIndex(lib, services, false);
    NodeIPAM(
      ipam.enabled,
      ipam.clusterCIDRs + Firsts(lib, cidrs, |cidrs|),
      if s4 < |services| then services[s4] else ipam.serviceCIDR,
      if s6 < |services| then services[s6] else ipam.serviceCIDRv6,
      if c4 < |cidrs| then network.clusterNetwork[c4].hostPrefix else ipam.maskSizeIPv4,
      if c6 < |cidrs| then network.clusterNetwork[c6].hostPrefix else ipam.maskSizeIPv6)
  }

  function FillControllerRecord(lib: Library, network: Option<NetworkSpec>, c: ControllerConfig): ControllerConfig {
    var on := c.(featureGates := c.featureGates[NODE_IPAM := true], nodeIPAM := c.nodeIPAM.(enabled := true));
    if network.None? then on else on.(nodeIPAM := FillNodeIPAM(lib, network.value, on.nodeIPAM))
  }

  function FillController(lib: Library, network: Option<NetworkSpec>, spec: Spec): Filled {
    var parsed := lib.parseController(spec.controller);
    if parsed.None? then Filled(spec, Some(ParseController))
    else Filled(spec.(controller := lib.printController(FillControllerRecord(lib, network, parsed.value))), None)
  }

  function Fill(lib: Library, platform: Platform, network: Option<NetworkSpec>, spec: Spec): Filled
    requires network.Some? ==> network.value.serviceNetwork != []
  {
    var agent := FillAgent(lib, network, spec);
    if agent.error.Some? then agent
    else
      var both := if platform == OpenShift then FillController(lib, network, agent.spec) else agent;
      if both.error.Some? then both
      else Filled(if both.spec.image == "" then both.spec.(image := DEFAULT_IMAGE) else both.spec, None)
  }

  // ---------------------------------------------------------------------------
  // Validation and change detection, as functions
  // ---------------------------------------------------------------------------

  function Validate(lib: Library, network: Option<NetworkSpec>, spec: Spec): seq<ConfigError> {
    var image := if spec.image == "" then [NoImage] else [];
    var parsed := lib.parseAgent(spec.agent);
    if parsed.None? then image + [ParseAgent]
    else
      image +
      if network.None? then if SERVICE_CIDR in parsed.value then [] else [NoServiceCIDR]
      else if SERVICE_CIDR !in parsed.value || !parsed.value[SERVICE_CIDR].Str? then [NoServiceCIDR]
      else if parsed.value[SERVICE_CIDR].text in network.value.serviceNetwork then []
      else [BadServiceCIDR]
  }

  datatype Changes = Changes(agent: bool, controller: bool, image: bool)

  function NeedApplyChange(pre: Option<Spec>, cur: Spec): Changes {
    if pre.None? then Changes(true, true, false)
    else
      var image := pre.value.image != cur.image;
      Changes(
        pre.value.agent != cur.agent || pre.value.cni != cur.cni || image,
        pre.value.controller != cur.controller || image,
        image)
  }

  /** `stringSliceEqual`: equal lengths, and every element of `a` somewhere in `b`. */
  predicate SliceEqual(a: seq<string>, b: seq<string>) {
    |a| == |b| && forall i :: 0 <= i < |a| ==> a[i] in b
  }

  predicate ClusterNetworkChanged(pre: Option<NetworkSpec>, cur: NetworkSpec) {
    || pre.None?
    || !SliceEqual(pre.value.serviceNetwork, cur.serviceNetwork)
    || !SliceEqual(CIDRs(pre.value.clusterNetwork), CIDRs(cur.clusterNetwork))
  }

  /** The default MTU a spec configures, if its agent configuration has the option. */
  function MTUOption(lib: Library, spec: Spec): Option<Value> {
    var parsed := lib.parseAgent(spec.agent);
    if parsed.Some? && DEFAULT_MTU_OPTION in parsed.value then Some(parsed.value[DEFAULT_MTU_OPTION]) else None
  }

  datatype MTUChange = MTUChange(changed: bool, mtu: int, error: Option<ConfigError>)

  /** `HasDefaultMTUChange`, whose type assertion needs an integer in the current spec. */
  function DefaultMTUChange(lib: Library, pre: Option<Spec>, cur: Spec): MTUChange
    requires MTUOption(lib, cur).Some? ==> MTUOption(lib, cur).value.Int?
  {
    if lib.parseAgent(cur.agent).None? then MTUChange(false, DEFAULT_MTU, Some(ParseAgent))
    else if MTUOption(lib, cur).None? then MTUChange(false, DEFAULT_MTU, Some(NoMTU))
    else if pre.None? then MTUChange(true, MTUOption(lib, cur).value.number, None)
    else if lib.parseAgent(pre.value.agent).None? then MTUChange(false, DEFAULT_MTU, Some(ParseAgent))
    else if MTUOption(lib, pre.value).None? then MTUChange(false, DEFAULT_MTU, Some(NoMTU))
    else MTUChange(MTUOption(lib, pre.value) != MTUOption(lib, cur), MTUOption(lib, cur).value.number, None)
  }

  /** The status `BuildNetworkStatus` copies out of a spec. */
  function StatusFor(network: NetworkSpec, mtu: int): NetworkStatus {
    NetworkStatus(network.clusterNetwork, network.serviceNetwork, network.networkType, mtu)
  }

  // ---------------------------------------------------------------------------
  // The same, in place
  // ---------------------------------------------------------------------------

  /** The AntreaInstall object whose spec the fill updates in place. */
  class AntreaInstall {
    var spec: Spec

    constructor (spec: Spec)
      ensures this.spec == spec
    {
      this.spec := spec;
    }
  }

  method InSlice(str: string, s: seq<string>) returns (found: bool)
    ensures found <==> str in s
  {
    for i := 0 to |s|
      invariant str !in s[..i]
    {
      if str == s[i] {
        return true;
      }
    }
    return false;
  }

  method StringSliceEqual(a: seq<string>, b: seq<string>) returns (equal: bool)
    ensures equal <==> SliceEqual(a, b)
  {
    if |a| != |b| {
      return false;
    }
    for i := 0 to |a|
      invariant forall j :: 0 <= j < i ==> a[j] in b
    {
      var found := InSlice(a[i], b);
      if !found {
        return false;
      }
    }
    return true;
  }

  method CollectCIDRs(entries: seq<ClusterNetworkEntry>) returns (r: seq<string>)
    ensures r == CIDRs(entries)
  {
    r := [];
    for i := 0 to |entries|
      invariant |r| == i && forall j :: 0 <= j < i ==> r[j] == entries[j].cidr
    {
      r := r + [entries[i].cidr];
    }
  }

  method BuildNetworkStatus(network: NetworkSpec, mtu: int) returns (status: NetworkStatus)
    ensures status == StatusFor(network, mtu)
    ensures status.serviceNetwork == network.serviceNetwork
    ensures status.networkType == network.networkType && status.mtu == mtu
    ensures |status.clusterNetwork| == |network.clusterNetwork|
    ensures forall i :: 0 <= i < |network.clusterNetwork| ==>
                          && status.clusterNetwork[i].cidr == network.clusterNetwork[i].cidr
                          && status.clusterNetwork[i].hostPrefix == network.clusterNetwork[i].hostPrefix
  {
    var services, entries := [], [];
    for i := 0 to |network.serviceNetwork|
      invariant services == network.serviceNetwork[..i]
    {
      services := services + [network.serviceNetwork[i]];
    }
    for i := 0 to |network.clusterNetwork|
      invariant entries == network.clusterNetwork[..i]
    {
      var entry := network.clusterNetwork[i];
      entries := entries + [ClusterNetworkEntry(entry.cidr, entry.hostPrefix)];
    }
    status := NetworkStatus(entries, services, network.networkType, mtu);
  }

  method HasClusterNetworkConfigChange(pre: Option<NetworkSpec>, cur: NetworkSpec) returns (changed: bool)
    ensures changed <==> ClusterNetworkChanged(pre, cur)
  {
    if pre.None? {
      return true;
    }
    var sameServices := StringSliceEqual(pre.value.serviceNetwork, cur.serviceNetwork);
    if !sameServices {
      return true;
    }
    var preCIDRs := CollectCIDRs(pre.value.clusterNetwork);
    var curCIDRs := CollectCIDRs(cur.clusterNetwork);
    var sameCIDRs := StringSliceEqual(preCIDRs, curCIDRs);
    return !sameCIDRs;
  }

  method FillAgentConfig(lib: Library, network: Option<NetworkSpec>, oper: AntreaInstall)
      returns (error: Option<ConfigError>)
    requires network.Some? ==> network.value.serviceNetwork != []
    modifies oper
    ensures Filled(oper.spec, error) == FillAgent(lib, network, old(oper.spec))
  {
    var parsed := lib.parseAgent(oper.spec.agent);
    if parsed.None? {
      return Some(ParseAgent);
    }
    var m := parsed.value;
    if network.None? {
      if SERVICE_CIDR !in m {
        return Some(NoServiceCIDR);
      }
    } else if SERVICE_CIDR !in m || !m[SERVICE_CIDR].Str? {
      m := m[SERVICE_CIDR := Str(network.value.serviceNetwork[0])];
    } else {
      var found := InSlice(m[SERVICE_CIDR].text, network.value.serviceNetwork);
      if !found {
        m := m[SERVICE_CIDR := Str(network.value.serviceNetwork[0])];
      }
    }
    if DEFAULT_MTU_OPTION !in m {
      m := m[DEFAULT_MTU_OPTION := Int(DEFAULT_MTU)];
    }
    oper.spec := oper.spec.(agent := lib.printAgent(m));
    return None;
  }

  /** The loop over the cluster networks, with its found flags. */
  method FillClusterCIDRs(lib: Library, network: NetworkSpec, start: NodeIPAM) returns (ipam: NodeIPAM)
    ensures var full := FillNodeIPAM(lib, network, start);
            ipam == start.(clusterCIDRs := full.clusterCIDRs,
                           maskSizeIPv4 := full.maskSizeIPv4,
                           maskSizeIPv6 := full.maskSizeIPv6)
  {
    hide FirstIndex, FirstOfFamily, CIDRs;
    var clusterCIDRs, mask4, mask6 := start.clusterCIDRs, start.maskSizeIPv4, start.maskSizeIPv6;
    var ip4found, ip6found := false, false;
    ghost var cidrs := CIDRs(network.clusterNetwork);
    ghost var c4, c6 := FirstIndex(lib, cidrs, true), FirstIndex(lib, cidrs, false);
    for i := 0 to |network.clusterNetwork|
      invariant (ip4found <==> c4 < i) && (ip6found <==> c6 < i)
      invariant clusterCIDRs == start.clusterCIDRs + Firsts(lib, cidrs, i)
      invariant mask4 == if ip4found then network.clusterNetwork[c4].hostPrefix else start.maskSizeIPv4
      invariant mask6 == if ip6found then network.clusterNetwork[c6].hostPrefix else start.maskSizeIPv6
    {
      var entry := network.clusterNetwork[i];
      assert cidrs[i] == entry.cidr;
      FirstMeansUnseen(lib, cidrs, i);
      if lib.isIPv4(entry.cidr) {
        if !ip4found {
          ip4found := true;
          clusterCIDRs := clusterCIDRs + [entry.cidr];
          mask4 := entry.hostPrefix;
        }
      } else {
        if !ip6found {
          ip6found := true;
          clusterCIDRs := clusterCIDRs + [entry.cidr];
          mask6 := entry.hostPrefix;
        }
      }
    }
    ipam := start.(clusterCIDRs := clusterCIDRs, maskSizeIPv4 := mask4, maskSizeIPv6 := mask6);
  }

  /** The loop over the service networks. */
  method FillServiceCIDRs(lib: Library, services: seq<string>, start: NodeIPAM) returns (ipam: NodeIPAM)
    ensures var s4, s6 := FirstIndex(lib, services, true), FirstIndex(lib, services, false);
            ipam == start.(serviceCIDR := if s4 < |services| then services[s4] else start.serviceCIDR,
                           serviceCIDRv6 := if s6 < |services| then services[s6] else start.serviceCIDRv6)
  {
    ipam := start;
    var ip4found, ip6found := false, false;
    ghost var s4, s6 := FirstIndex(lib, services, true), FirstIndex(lib, services, false);
    for i := 0 to |services|
      invariant (ip4found <==> s4 < i) && (ip6found <==> s6 < i)
      invariant ipam == start.(serviceCIDR := if ip4found then services[s4] else start.serviceCIDR,
                               serviceCIDRv6 := if ip6found then services[s6] else start.serviceCIDRv6)
    {
      if lib.isIPv4(services[i]) {
        if !ip4found {
          ip4found := true;
          ipam := ipam.(serviceCIDR := services[i]);
        }
      } else {
        if !ip6found {
          ip6found := true;
          ipam := ipam.(serviceCIDRv6 := services[i]);
        }
      }
    }
  }

  method FillControllerConfig(lib: Library, network: Option<NetworkSpec>, oper: AntreaInstall)
      returns (error: Option<ConfigError>)
    modifies oper
    ensures Filled(oper.spec, error) == FillController(lib, network, old(oper.spec))
  {
    var parsed := lib.parseController(oper.spec.controller);
    if parsed.None? {
      return Some(ParseController);
    }
    var c := parsed.value;
    c := c.(featureGates := c.featureGates[NODE_IPAM := true]);
    c := c.(nodeIPAM := c.nodeIPAM.(enabled := true));
    if network.Some? {
      var ipam := FillClusterCIDRs(lib, network.value, c.nodeIPAM);
      ipam := FillServiceCIDRs(lib, network.value.serviceNetwork, ipam);
      c := c.(nodeIPAM := ipam);
    }
    oper.spec := oper.spec.(controller := lib.printController(c));
    return None;
  }

  method FillConfig(lib: Library, platform: Platform, network: Option<NetworkSpec>, oper: AntreaInstall)
    returns (error: Option<ConfigError>)
    requires network.Some? ==> network.value.serviceNetwork != []
    modifies oper
    ensures Filled(oper.spec, error) == Fill(lib, platform, network, old(oper.spec))
  {
    error := FillAgentConfig(lib, network, oper);
    if error.Some? {
      return;
    }
    if platform == OpenShift {
      error := FillControllerConfig(lib, network, oper);
      if error.Some? {
        return;
      }
    }
    if oper.spec.image == "" {
      oper.spec := oper.spec.(image := DEFAULT_IMAGE);
    }
  }

  // ---------------------------------------------------------------------------
  // Slices as multisets
  // ---------------------------------------------------------------------------

  /** Removing one occurrence. */
  lemma MultisetSplit(s: seq<string>, k: nat)
    requires k < |s|
    ensures multiset(s) == multiset(s[..k] + s[k + 1..]) + multiset{s[k]}
  {
    assert s == s[..k] + ([s[k]] + s[k + 1..]);
  }

  lemma StaysWithout(b: seq<string>, k: nat, x: string)
    requires k < |b| && x in b && x != b[k]
    ensures x in b[..k] + b[k + 1..]
  {
    var j :| 0 <= j < |b| && b[j] == x;
    assert x == (b[..k] + b[k + 1..])[if j < k then j else j - 1];
  }

  /** The pigeonhole argument: a duplicate-free list that embeds into a list of the same
      length is a permutation of it. */
  lemma {:induction false} EmbeddedIsPermutation(a: seq<string>, b: seq<string>)
    requires NoDup(a) && SliceEqual(a, b)
    ensures multiset(a) == multiset(b)
  {
    if a != [] {
      var k :| 0 <= k < |b| && b[k] == a[0];
      var a', b' := a[1..], b[..k] + b[k + 1..];
      forall i | 0 <= i < |a'| ensures a'[i] in b' {
        StaysWithout(b, k, a[i + 1]);
      }
      EmbeddedIsPermutation(a', b');
      MultisetSplit(b, k);
      assert a == [a[0]] + a';
    }
  }

  lemma SliceEqualIsPermutation(a: seq<string>, b: seq<string>)
    requires NoDup(a)
    ensures SliceEqual(a, b) <==> multiset(a) == multiset(b)
  {
    if multiset(a) == multiset(b) {
      assert |multiset(a)| == |a| && |multiset(b)| == |b|;
      forall i | 0 <= i < |a| ensures a[i] in b {
        assert a[i] in multiset(a);
      }
    } else if SliceEqual(a, b) {
      EmbeddedIsPermutation(a, b);
    }
  }

  /** On duplicate-free lists the test is symmetric and transitive. */
  lemma SliceEqualIsEquivalence(a: seq<string>, b: seq<string>, c: seq<string>)
    requires NoDup(a) && NoDup(b)
    ensures SliceEqual(a, b) <==> SliceEqual(b, a)
    ensures SliceEqual(a, b) && SliceEqual(b, c) ==> SliceEqual(a, c)
    ensures SliceEqual(a, b) ==> forall x :: x in a <==> x in b
  {
    SliceEqualIsPermutation(a, b);
    SliceEqualIsPermutation(b, a);
    SliceEqualIsPermutation(b, c);
    SliceEqualIsPermutation(a, c);
    if SliceEqual(a, b) {
      assert forall x :: x in a <==> x in multiset(a);
      assert forall x :: x in b <==> x in multiset(b);
    }
  }

  /** A string that is longer than every element. */
  function LongerThan(a: seq<string>): (x: string)
    ensures forall i :: 0 <= i < |a| ==> |a[i]| < |x|
  {
    if a == [] then "x"
    else
      var x := LongerThan(a[..|a| - 1]);
      var last := a[|a| - 1];
      assert forall i :: 0 <= i < |a| - 1 ==> a[i] == a[..|a| - 1][i];
      if |last| < |x| then x else last + "x"
  }

  /** Replacing the second of two equal elements by a new one fools the test. */
  lemma DuplicateIsFooled(a: seq<string>, i: nat, j: nat)
    requires i < j < |a| && a[i] == a[j]
    ensures var b := a[j := LongerThan(a)]; SliceEqual(a, b) && !SliceEqual(b, a) && multiset(a) != multiset(b)
  {
    var x := LongerThan(a);
    var b := a[j := x];
    assert x !in a;
    forall k | 0 <= k < |a| ensures a[k] in b {
      assert b[if k == j then i else k] == a[k];
    }
    assert b[j] == x;
    assert x in multiset(b) && x !in multiset(a);
  }

  /** Exactly when the test can be relied on: it tells permutations from all other lists if and
      only if its first list has no duplicates, and only then it is symmetric. */
  lemma SliceEqualIsPermutationIff(a: seq<string>)
    ensures NoDup(a) <==> forall b: seq<string> :: SliceEqual(a, b) <==> multiset(a) == multiset(b)
    ensures NoDup(a) <==> forall b: seq<string> :: SliceEqual(a, b) ==> SliceEqual(b, a)
  {
    if NoDup(a) {
      forall b: seq<string> ensures SliceEqual(a, b) <==> multiset(a) == multiset(b) {
        SliceEqualIsPermutation(a, b);
      }
      forall b: seq<string> | SliceEqual(a, b) ensures SliceEqual(b, a) {
        assert forall x :: x in b <==> x in multiset(b);
        assert forall x :: x in a <==> x in multiset(a);
      }
    } else {
      var i, j :| 0 <= i < j < |a| && a[i] == a[j];
      DuplicateIsFooled(a, i, j);
    }
  }

  // ---------------------------------------------------------------------------
  // What the fill does
  // ---------------------------------------------------------------------------

  /** After a successful fill the configuration is valid; every agent option other than the
      service CIDR and the default MTU is what it was; and the default MTU is present, so the
      later change test cannot miss it. */
  lemma FillThenValidate(lib: Library, platform: Platform, network: Option<NetworkSpec>, spec: Spec)
    requires RoundTrips(lib)
    requires network.Some? ==> network.value.serviceNetwork != []
    requires Fill(lib, platform, network, spec).error.None?
    ensures var filled := Fill(lib, platform, network, spec).spec;
            && Validate(lib, network, filled) == []
            && lib.parseAgent(spec.agent).Some? && lib.parseAgent(filled.agent).Some?
            && lib.parseAgent(filled.agent).value - {SERVICE_CIDR, DEFAULT_MTU_OPTION}
               == lib.parseAgent(spec.agent).value - {SERVICE_CIDR, DEFAULT_MTU_OPTION}
            && MTUOption(lib, filled) ==
               (if MTUOption(lib, spec).Some? then MTUOption(lib, spec) else Some(Int(DEFAULT_MTU)))
            && filled.cni == spec.cni && filled.platform == spec.platform
            && (spec.image != "" ==> filled.image == spec.image)
  {
    var m := lib.parseAgent(spec.agent).value;
    var filled := Fill(lib, platform, network, spec).spec;
    assert lib.parseAgent(filled.agent) == Some(FillAgentMap(network, m));
    assert SERVICE_CIDR != DEFAULT_MTU_OPTION by {
      assert SERVICE_CIDR[0] != DEFAULT_MTU_OPTION[0];
    }
  }

  /** Exactly when a fill succeeds. */
  lemma FillSucceedsIff(lib: Library, platform: Platform, network: Option<NetworkSpec>, spec: Spec)
    requires network.Some? ==> network.value.serviceNetwork != []
    ensures Fill(lib, platform, network, spec).error.None? <==>
              && lib.parseAgent(spec.agent).Some?
              && (network.None? ==> "serviceCIDR" in lib.parseAgent(spec.agent).value)
              && (platform == OpenShift ==> lib.parseController(spec.controller).Some?)
  {
  }

  /** Exactly which configurations are valid. */
  lemma ValidIff(lib: Library, network: Option<NetworkSpec>, spec: Spec)
    ensures Validate(lib, network, spec) == [] <==>
              && spec.image != ""
              && lib.parseAgent(spec.agent).Some?
              && var m := lib.parseAgent(spec.agent).value;
              && "serviceCIDR" in m
              && (network.Some? ==> m["serviceCIDR"].Str? && m["serviceCIDR"].text in network.value.serviceNetwork)
  {
  }

  /** What a fill does to the agent configuration and the image: a service CIDR the cluster has is
      kept and any other replaced by the cluster's first; on Kubernetes it is what the user wrote;
      the default MTU is 1450 and the image the default one unless the user says otherwise; and on
      Kubernetes the controller configuration is left alone. */
  lemma AgentFillIsExact(lib: Library, platform: Platform, network: Option<NetworkSpec>, spec: Spec)
    requires RoundTrips(lib)
    requires network.Some? ==> network.value.serviceNetwork != []
    requires Fill(lib, platform, network, spec).error.None?
    ensures var filled := Fill(lib, platform, network, spec).spec;
            && lib.parseAgent(spec.agent).Some? && lib.parseAgent(filled.agent).Some?
            && var m, r := lib.parseAgent(spec.agent).value, lib.parseAgent(filled.agent).value;
            && "serviceCIDR" in r && "defaultMTU" in r
            && (network.None? ==> "serviceCIDR" in m && r["serviceCIDR"] == m["serviceCIDR"])
            && (network.Some? ==>
                  var services := network.value.serviceNetwork;
                  if "serviceCIDR" in m && m["serviceCIDR"].Str? && m["serviceCIDR"].text in services then
                    r["serviceCIDR"] == m["serviceCIDR"]
                  else r["serviceCIDR"] == Str(services[0]))
            && r["defaultMTU"] == (if "defaultMTU" in m then m["defaultMTU"] else Int(1450))
            && filled.image == (if spec.image == "" then "antrea/antrea-ubi:latest" else spec.image)
            && (platform == Kubernetes ==> filled.controller == spec.controller)
  {
    var m := lib.parseAgent(spec.agent).value;
    assert lib.parseAgent(Fill(lib, platform, network, spec).spec.agent) == Some(FillAgentMap(network, m));
    assert SERVICE_CIDR != DEFAULT_MTU_OPTION by {
      assert SERVICE_CIDR[0] != DEFAULT_MTU_OPTION[0];
    }
  }

  lemma MTUChangeHasNoError(lib: Library, platform: Platform, network: Option<NetworkSpec>, pre: Option<Spec>,
      spec: Spec)
    requires RoundTrips(lib)
    requires network.Some? ==> network.value.serviceNetwork != []
    requires Fill(lib, platform, network, spec).error.None?
    requires MTUOption(lib, spec).Some? ==> MTUOption(lib, spec).value.Int?
    requires pre.Some? ==> MTUOption(lib, pre.value).Some?
    ensures var filled := Fill(lib, platform, network, spec).spec;
            && MTUOption(lib, filled).Some? && MTUOption(lib, filled).value.Int?
            && DefaultMTUChange(lib, pre, filled).error.None?
            && Some(Int(DefaultMTUChange(lib, pre, filled).mtu)) == MTUOption(lib, filled)
  {
    FillThenValidate(lib, platform, network, spec);
  }

  /** Filling an agent configuration twice is filling it once. */
  lemma AgentFillIsIdempotent(network: Option<NetworkSpec>, m: AgentConfig)
    requires network.Some? ==> network.value.serviceNetwork != []
    ensures FillAgentMap(network, FillAgentMap(network, m)) == FillAgentMap(network, m)
  {
    assert SERVICE_CIDR != DEFAULT_MTU_OPTION by {
      assert SERVICE_CIDR[0] != DEFAULT_MTU_OPTION[0];
    }
  }

  /** On Kubernetes the whole fill is idempotent. */
  lemma KubernetesFillIsIdempotent(lib: Library, spec: Spec)
    requires RoundTrips(lib)
    requires Fill(lib, Kubernetes, None, spec).error.None?
    ensures var filled := Fill(lib, Kubernetes, None, spec).spec;
            Fill(lib, Kubernetes, None, filled) == Filled(filled, None)
  {
    AgentFillIsIdempotent(None, lib.parseAgent(spec.agent).value);
  }

  lemma FirstMeansUnseen(lib: Library, cidrs: seq<string>, i: nat)
    requires i < |cidrs|
    ensures FirstOfFamily(lib, cidrs, i) <==> i <= FirstIndex(lib, cidrs, lib.isIPv4(cidrs[i]))
  {
  }

  /** The entries a controller fill appends: exactly the first of each family, each once, in
      order of appearance, so at most one per family. */
  lemma {:induction false} FirstsAreFirsts(lib: Library, cidrs: seq<string>, n: nat)
    requires n <= |cidrs|
    ensures var c4, c6, r := FirstIndex(lib, cidrs, true), FirstIndex(lib, cidrs, false), Firsts(lib, cidrs, n);
            if c4 < n && c6 < n then
              r == if c4 < c6 then [cidrs[c4], cidrs[c6]] else [cidrs[c6], cidrs[c4]]
            else if c4 < n then r == [cidrs[c4]]
            else if c6 < n then r == [cidrs[c6]]
            else r == []
  {
    if n > 0 {
      FirstsAreFirsts(lib, cidrs, n - 1);
      FirstMeansUnseen(lib, cidrs, n - 1);
    }
  }

  lemma FirstsDiffer(lib: Library, cidrs: seq<string>, i: nat, j: nat)
    requires i < j < |Firsts(lib, cidrs, |cidrs|)|
    ensures var r := Firsts(lib, cidrs, |cidrs|); lib.isIPv4(r[i]) != lib.isIPv4(r[j])
  {
    hide Firsts, FirstIndex;
    FirstsAreFirsts(lib, cidrs, |cidrs|);
  }

  /** With no prior CIDRs the filled list has at most one CIDR of each family. */
  lemma FreshFillHasOnePerFamily(lib: Library, network: NetworkSpec, ipam: NodeIPAM)
    requires ipam.clusterCIDRs == []
    ensures var r, cidrs := FillNodeIPAM(lib, network, ipam).clusterCIDRs, CIDRs(network.clusterNetwork);
            && (forall i, j :: 0 <= i < j < |r| ==> lib.isIPv4(r[i]) != lib.isIPv4(r[j]))
            && (forall k :: 0 <= k < |cidrs| && FirstOfFamily(lib, cidrs, k) ==> cidrs[k] in r)
  {
    hide Firsts, FirstIndex, FirstOfFamily, CIDRs;
    var cidrs := CIDRs(network.clusterNetwork);
    var r := Firsts(lib, cidrs, |cidrs|);
    assert FillNodeIPAM(lib, network, ipam).clusterCIDRs == r;
    forall i, j | 0 <= i < j < |r| ensures lib.isIPv4(r[i]) != lib.isIPv4(r[j]) {
      FirstsDiffer(lib, cidrs, i, j);
    }
    forall k | 0 <= k < |cidrs| && FirstOfFamily(lib, cidrs, k) ensures cidrs[k] in r {
      FirstsHold(lib, cidrs, |cidrs|, k);
    }
  }

  lemma {:induction false} FirstsHold(lib: Library, cidrs: seq<string>, n: nat, k: nat)
    requires k < n <= |cidrs| && FirstOfFamily(lib, cidrs, k)
    ensures cidrs[k] in Firsts(lib, cidrs, n)
  {
    if k < n - 1 {
      FirstsHold(lib, cidrs, n - 1, k);
    }
  }

  /** Position `k` is the first one of this address family. */
  ghost predicate IsFirst(lib: Library, cidrs: seq<string>, k: nat, v4: bool)
    requires k < |cidrs|
  {
    lib.isIPv4(cidrs[k]) == v4 && forall j :: 0 <= j < k ==> lib.isIPv4(cidrs[j]) != v4
  }

  ghost predicate Absent(lib: Library, cidrs: seq<string>, v4: bool) {
    forall k :: 0 <= k < |cidrs| ==> lib.isIPv4(cidrs[k]) != v4
  }

  lemma FirstIsFirst(lib: Library, cidrs: seq<string>, k: nat, v4: bool)
    requires k < |cidrs| && IsFirst(lib, cidrs, k, v4)
    ensures FirstIndex(lib, cidrs, v4) == k
  {
  }

  lemma AbsentHasNoFirst(lib: Library, cidrs: seq<string>, v4: bool)
    requires Absent(lib, cidrs, v4)
    ensures FirstIndex(lib, cidrs, v4) == |cidrs|
  {
  }

  /** The options of NodeIPAM that belong to one address family. */
  datatype FamilyOptions = FamilyOptions(mask: int, service: string)

  function OptionsOf(ipam: NodeIPAM, v4: bool): FamilyOptions {
    if v4 then FamilyOptions(ipam.maskSizeIPv4, ipam.serviceCIDR)
    else FamilyOptions(ipam.maskSizeIPv6, ipam.serviceCIDRv6)
  }

  /** What a fill does to them: the mask size is the host prefix of the first cluster network, the
      service CIDR is the first service network, and each stays if there is none. */
  ghost predicate FamilyFilled(lib: Library, network: NetworkSpec, was: FamilyOptions, now: FamilyOptions, v4: bool) {
    var cidrs, services := CIDRs(network.clusterNetwork), network.serviceNetwork;
    && (forall k :: 0 <= k < |cidrs| && IsFirst(lib, cidrs, k, v4) ==> now.mask == network.clusterNetwork[k].hostPrefix)
    && (forall k :: 0 <= k < |services| && IsFirst(lib, services, k, v4) ==> now.service == services[k])
    && (Absent(lib, cidrs, v4) ==> now.mask == was.mask)
    && (Absent(lib, services, v4) ==> now.service == was.service)
  }

  lemma FamilyIsFilled(lib: Library, network: NetworkSpec, ipam: NodeIPAM, v4: bool)
    ensures FamilyFilled(lib, network, OptionsOf(ipam, v4), OptionsOf(FillNodeIPAM(lib, network, ipam), v4), v4)
  {
    hide FirstIndex, Firsts, IsFirst, Absent, CIDRs;
    var cidrs, services := CIDRs(network.clusterNetwork), network.serviceNetwork;
    forall k | 0 <= k < |cidrs| && IsFirst(lib, cidrs, k, v4) ensures FirstIndex(lib, cidrs, v4) == k {
      FirstIsFirst(lib, cidrs, k, v4);
    }
    forall k | 0 <= k < |services| && IsFirst(lib, services, k, v4) ensures FirstIndex(lib, services, v4) == k {
      FirstIsFirst(lib, services, k, v4);
    }
    if Absent(lib, cidrs, v4) {
      AbsentHasNoFirst(lib, cidrs, v4);
    }
    if Absent(lib, services, v4) {
      AbsentHasNoFirst(lib, services, v4);
    }
  }

  /** The CIDRs appended by a fill: the first of each family that there is, in order. */
  ghost predicate FirstsAppended(lib: Library, cidrs: seq<string>, tail: seq<string>) {
    && (tail == [] <==> cidrs == [])
    && (tail != [] ==> tail[0] == cidrs[0])
    && |tail| <= 2
    && (|tail| == 2 ==> lib.isIPv4(tail[0]) != lib.isIPv4(tail[1]))
    && forall k, v4 :: 0 <= k < |cidrs| && IsFirst(lib, cidrs, k, v4) ==> cidrs[k] in tail
  }

  lemma FirstsAreAppended(lib: Library, cidrs: seq<string>)
    ensures FirstsAppended(lib, cidrs, Firsts(lib, cidrs, |cidrs|))
  {
    hide Firsts, FirstIndex;
    FirstsAreFirsts(lib, cidrs, |cidrs|);
    if cidrs != [] {
      FirstIsFirst(lib, cidrs, 0, lib.isIPv4(cidrs[0]));
    }
    forall k, v4 | 0 <= k < |cidrs| && IsFirst(lib, cidrs, k, v4) ensures cidrs[k] in Firsts(lib, cidrs, |cidrs|) {
      FirstsHold(lib, cidrs, |cidrs|, k);
    }
  }

  /** What a successful OpenShift fill does to the controller configuration: the NodeIPAM gate and
      flag are on, the CIDRs are the old ones followed by the first of each family, the mask size
      and the service CIDR of each family are those of its first entries and stay if there are
      none, and nothing else changes. */
  lemma ControllerFillIsExact(lib: Library, network: NetworkSpec, spec: Spec)
    requires RoundTrips(lib) && network.serviceNetwork != []
    requires Fill(lib, OpenShift, Some(network), spec).error.None?
    ensures var filled := Fill(lib, OpenShift, Some(network), spec).spec;
            && lib.parseController(spec.controller).Some? && lib.parseController(filled.controller).Some?
            && var c, r := lib.parseController(spec.controller).value, lib.parseController(filled.controller).value;
            && r.featureGates == c.featureGates["NodeIPAM" := true] && r.nodeIPAM.enabled && r.others == c.others
            && c.nodeIPAM.clusterCIDRs <= r.nodeIPAM.clusterCIDRs
            && FirstsAppended(lib, CIDRs(network.clusterNetwork), r.nodeIPAM.clusterCIDRs[|c.nodeIPAM.clusterCIDRs|..])
            && forall v4 :: FamilyFilled(lib, network, OptionsOf(c.nodeIPAM, v4), OptionsOf(r.nodeIPAM, v4), v4)
  {
    hide FirstIndex, Firsts, FamilyFilled, FirstsAppended;
    var c, cidrs := lib.parseController(spec.controller).value, CIDRs(network.clusterNetwork);
    var r := FillControllerRecord(lib, Some(network), c);
    assert lib.parseController(Fill(lib, OpenShift, Some(network), spec).spec.controller) == Some(r);
    FirstsAreAppended(lib, cidrs);
    assert r.nodeIPAM.clusterCIDRs[|c.nodeIPAM.clusterCIDRs|..] == Firsts(lib, cidrs, |cidrs|);
    forall v4 ensures FamilyFilled(lib, network, OptionsOf(c.nodeIPAM, v4), OptionsOf(r.nodeIPAM, v4), v4) {
      FamilyIsFilled(lib, network, c.nodeIPAM.(enabled := true), v4);
    }
  }

  /** The OpenShift fill is not idempotent: filling again appends the CIDRs again.  It leaves a
      filled configuration alone exactly when the cluster has no cluster networks. */
  lemma OpenShiftFillIsIdempotentIff(lib: Library, network: NetworkSpec, spec: Spec)
    requires RoundTrips(lib) && network.serviceNetwork != []
    requires Fill(lib, OpenShift, Some(network), spec).error.None?
    ensures var filled := Fill(lib, OpenShift, Some(network), spec).spec;
            var again := Fill(lib, OpenShift, Some(network), filled);
            && again.error.None?
            && again.spec == filled.(controller := again.spec.controller)
            && (again.spec.controller == filled.controller <==> network.clusterNetwork == [])
  {
    hide FirstIndex, CIDRs;
    AgentFillIsIdempotent(Some(network), lib.parseAgent(spec.agent).value);
    var c := lib.parseController(spec.controller).value;
    var once := FillControllerRecord(lib, Some(network), c);
    var twice := FillControllerRecord(lib, Some(network), once);
    var filled := Fill(lib, OpenShift, Some(network), spec).spec;
    assert lib.parseController(filled.controller) == Some(once);
    var cidrs := CIDRs(network.clusterNetwork);
    FirstsAreFirsts(lib, cidrs, |cidrs|);
    assert twice.nodeIPAM.clusterCIDRs == once.nodeIPAM.clusterCIDRs + Firsts(lib, cidrs, |cidrs|);
    if network.clusterNetwork == [] {
      assert twice == once;
    } else {
      assert FirstOfFamily(lib, cidrs, 0);
      FirstMeansUnseen(lib, cidrs, 0);
      assert |twice.nodeIPAM.clusterCIDRs| > |once.nodeIPAM.clusterCIDRs|;
      assert lib.parseController(lib.printController(twice)) == Some(twice);
    }
  }
}
