/** The install reconcilers for both platforms: one round as a function of the state, the
    inputs and the faults, and the reconciler object that runs it in place. */
module Reconcilers {
  import opened Basics
  import opened Configuration

  // ---------------------------------------------------------------------------
  // Data
  // ---------------------------------------------------------------------------

  /** One object of the manifest, before and after rendering. */
  datatype Template = ConfigMapTemplate | DaemonSetTemplate | DeploymentTemplate | OtherTemplate(id: nat)

  datatype Configs = Configs(agent: string, cni: string, controller: string)

  datatype Manifest =
    | ConfigMap(data: Configs)
    | AgentDaemonSet(image: string, confDir: string)
    | ControllerDeployment(image: string)
    | OtherObject(id: nat)

  /** The managed objects that exist: the data of antrea-config, antrea-agent, and the image of
      antrea-controller. */
  datatype Cluster = Cluster(
    configMap: Option<Configs>,
    daemonSet: Option<Manifest>,
    image: Option<string>,
    others: set<nat>)

  datatype Component = Agent | Controller

  datatype Action =
    | Applied(manifest: Manifest)
    | PodsDeleted(component: Component)
    | NetworkStatusWritten(status: NetworkStatus)
    | Raised(level: Level, reason: string)
    | Cleared(level: Level)

  /** The agent and controller objects shared with the pod controller. */
  datatype Shared = Shared(daemonSet: Manifest, deployment: Manifest)

  /** What the status manager was last told to track and to list as related objects; a list that
      nothing was appended to is nil. */
  datatype Handed = Handed(daemonSets: seq<Manifest>, deployments: seq<Manifest>, related: Option<seq<Manifest>>)

  datatype State = State(
    appliedCluster: Option<NetworkSpec>,
    appliedOper: Option<Spec>,
    shared: Option<Shared>,
    handed: Option<Handed>,
    cluster: Cluster,
    networkStatus: Option<NetworkStatus>,
    log: seq<Action>)

  datatype Request = ForCluster | ForInstall | Unrelated

  datatype Fetch<T> = Fetched(value: T) | Missing | FetchError

  /** What a round reads: the request and the three resources it may fetch.  Of the operator
      Network only the CNI directory it selects matters. */
  datatype Inputs = Inputs(
    request: Request,
    network: Fetch<NetworkSpec>,
    operatorNetwork: Fetch<string>,
    install: Fetch<Spec>)

  datatype ReadResult = ReadOk | ReadNotFound | ReadError

  /** What may go wrong while a round runs: for object `i`, `mapped(i)` says whether its kind has a
      REST mapping, `ownerOk(i)` whether its owner reference can be set, and `applyOk(i)` whether
      it can be applied. */
  datatype Faults = Faults(
    list: ReadResult,
    deploymentOk: bool,
    renderOk: bool,
    mapped: nat -> bool,
    ownerOk: nat -> bool,
    applyOk: nat -> bool,
    deleteAgentOk: bool,
    deleteControllerOk: bool,
    statusOk: bool)

  /** `Unavailable` and `Unchanged` are the early exits without an error. */
  datatype RoundResult = Ignored | Unavailable | Unchanged | Finished | Errored

  const DEFAULT_CNI_DIR := "/etc/cni/net.d"

  // ---------------------------------------------------------------------------
  // Rendering and applying
  // ---------------------------------------------------------------------------

  function ConfigsOf(spec: Spec): Configs {
    Configs(spec.agent, spec.cni, spec.controller)
  }

  function RenderOne(t: Template, spec: Spec, confDir: string): Manifest {
    match t
    case ConfigMapTemplate => ConfigMap(ConfigsOf(spec))
    case DaemonSetTemplate => AgentDaemonSet(spec.image, confDir)
    case DeploymentTemplate => ControllerDeployment(spec.image)
    case OtherTemplate(id) => OtherObject(id)
  }

  function Render(templates: seq<Template>, spec: Spec, confDir: string): (r: seq<Manifest>)
    ensures |r| == |templates|
    ensures forall i :: 0 <= i < |r| ==> r[i] == RenderOne(templates[i], spec, confDir)
  {
    seq(|templates|, i requires 0 <= i < |templates| => RenderOne(templates[i], spec, confDir))
  }

  function Store(c: Cluster, m: Manifest): Cluster {
    match m
    case ConfigMap(data) => c.(configMap := Some(data))
    case AgentDaemonSet(_, _) => c.(daemonSet := Some(m))
    case ControllerDeployment(image) => c.(image := Some(image))
    case OtherObject(id) => c.(others := c.others + {id})
  }

  function ApplyUpTo(s: State, objs: seq<Manifest>, n: nat): State
    requires n <= |objs|
  {
    if n == 0 then s
    else
      var prev := ApplyUpTo(s, objs, n - 1);
      prev.(cluster := Store(prev.cluster, objs[n - 1]), log := prev.log + [Applied(objs[n - 1])])
  }

  /** The number of objects applied before the first failure. */
  function FirstFailure(ok: nat -> bool, n: nat): (k: nat)
    ensures k <= n
    ensures forall j :: 0 <= j < k ==> ok(j)
    ensures k < n ==> !ok(k)
  {
    if n == 0 then 0
    else
      var k := FirstFailure(ok, n - 1);
      if k < n - 1 || !ok(n - 1) then k else n
  }

  /** The last object of a kind among the first `n`. */
  function LastDaemonSet(objs: seq<Manifest>, n: nat): Option<Manifest>
    requires n <= |objs|
  {
    if n == 0 then None
    else if objs[n - 1].AgentDaemonSet? then Some(objs[n - 1])
    else LastDaemonSet(objs, n - 1)
  }

  function LastDeployment(objs: seq<Manifest>, n: nat): Option<Manifest>
    requires n <= |objs|
  {
    if n == 0 then None
    else if objs[n - 1].ControllerDeployment? then Some(objs[n - 1])
    else LastDeployment(objs, n - 1)
  }

  function DaemonSetsOf(objs: seq<Manifest>, n: nat): seq<Manifest>
    requires n <= |objs|
  {
    if n == 0 then [] else DaemonSetsOf(objs, n - 1) + if objs[n - 1].AgentDaemonSet? then [objs[n - 1]] else []
  }

  function DeploymentsOf(objs: seq<Manifest>, n: nat): seq<Manifest>
    requires n <= |objs|
  {
    if n == 0 then [] else DeploymentsOf(objs, n - 1) + if objs[n - 1].ControllerDeployment? then [objs[n - 1]] else []
  }

  /** The objects whose kind has a REST mapping, appended one by one to a nil list. */
  function RelatedOf(objs: seq<Manifest>, mapped: nat -> bool, n: nat): Option<seq<Manifest>>
    requires n <= |objs|
  {
    if n == 0 then None
    else
      var r := RelatedOf(objs, mapped, n - 1);
      if !mapped(n - 1) then r
      else if r.None? then Some([objs[n - 1]])
      else Some(r.value + [objs[n - 1]])
  }

  /** Every owner reference that is set could be set; without an owner none is, and objects
      without a REST mapping are passed over. */
  predicate OwnersSet(owned: bool, f: Faults, n: nat) {
    owned ==> forall i :: 0 <= i < n && f.mapped(i) ==> f.ownerOk(i)
  }

  // ---------------------------------------------------------------------------
  // One round
  // ---------------------------------------------------------------------------

  function Raise(s: State, level: Level, reason: string): State {
    s.(log := s.log + [Raised(level, reason)])
  }

  /** `getAppliedOperConfig`: from memory, or after a restart from what the cluster holds. */
  function AppliedConfig(s: State, f: Faults): Fetch<Option<Spec>> {
    if s.appliedOper.Some? then Fetched(s.appliedOper)
    else if f.list == ReadNotFound then Fetched(None)
    else if f.list == ReadError then FetchError
    else if s.cluster.configMap.None? then Fetched(None)
    else if !f.deploymentOk then FetchError
    else if s.cluster.image.None? then Fetched(None)
    else
      var data := s.cluster.configMap.value;
      Fetched(Some(Spec(data.agent, data.cni, data.controller, "", s.cluster.image.value)))
  }

  /** The outcome of `applyConfig`: the state, the filled spec, and whether there was an error. */
  datatype ApplyResult = ApplyResult(state: State, spec: Spec, ok: bool)

  function DeletePods(s: State, changes: Changes, f: Faults): (State, bool) {
    var agent := s.appliedOper.Some? && changes.agent && !changes.image;
    var controller := s.appliedOper.Some? && changes.controller && !changes.image;
    if agent && !f.deleteAgentOk then (Raise(s, OPERATOR_CONFIG, "DeleteOldPodsError"), false)
    else
      var s1 := if agent then s.(log := s.log + [PodsDeleted(Agent)]) else s;
      if controller && !f.deleteControllerOk then (Raise(s1, OPERATOR_CONFIG, "DeleteOldPodsError"), false)
      else (if controller then s1.(log := s1.log + [PodsDeleted(Controller)]) else s1, true)
  }

  /** The rendered objects handed to the status manager and to SharedInfo. */
  function Share(s: State, objs: seq<Manifest>, mapped: nat -> bool): State
    requires LastDaemonSet(objs, |objs|).Some? && LastDeployment(objs, |objs|).Some?
  {
    s.(shared := Some(Shared(LastDaemonSet(objs, |objs|).value, LastDeployment(objs, |objs|).value)),
       handed := Some(Handed(DaemonSetsOf(objs, |objs|), DeploymentsOf(objs, |objs|), RelatedOf(objs, mapped, |objs|))))
  }

  /** Everything from rendering on: share, apply, delete old pods. */
  function RollOut(s: State, templates: seq<Template>, owned: bool, spec: Spec, confDir: string,
                   changes: Changes, f: Faults): (State, bool)
  {
    if !f.renderOk then (Raise(s, OPERATOR_CONFIG, "RenderConfigError"), false)
    else
      var objs := Render(templates, spec, confDir);
      if !OwnersSet(owned, f, |objs|) || LastDaemonSet(objs, |objs|).None? || LastDeployment(objs, |objs|).None? then
        (Raise(s, OPERATOR_CONFIG, "ApplyObjectsError"), false)
      else
        var shared := Share(s, objs, f.mapped);
        var k := FirstFailure(f.applyOk, |objs|);
        var applied := ApplyUpTo(shared, objs, k);
        if k < |objs| then (Raise(applied, OPERATOR_CONFIG, "ApplyObjectsError"), false)
        else DeletePods(applied, changes, f)
  }

  /** Everything after the fill and the validation. */
  function ApplyFilled(templates: seq<Template>, s: State, owned: bool, spec: Spec, confDir: string, f: Faults):
      (State, bool)
  {
    var applied := AppliedConfig(s, f);
    if !applied.Fetched? then (Raise(s, OPERATOR_CONFIG, "InternalError"), false)
    else
      var changes := NeedApplyChange(applied.value, spec);
      if !changes.agent && !changes.controller then (s, true)
      else RollOut(s, templates, owned, spec, confDir, changes, f)
  }

  function ApplyConfig(lib: Library, platform: Platform, templates: seq<Template>, s: State,
                       network: Option<NetworkSpec>, spec: Spec, confDir: string, f: Faults): ApplyResult
    requires network.Some? ==> network.value.serviceNetwork != []
  {
    var filled := Fill(lib, platform, network, spec);
    if filled.error.Some? then
      ApplyResult(Raise(s, OPERATOR_CONFIG, "FillConfigurationsError"), filled.spec, false)
    else if Validate(lib, network, filled.spec) != [] then
      ApplyResult(Raise(s, OPERATOR_CONFIG, "InvalidOperatorConfig"), filled.spec, false)
    else
      var r := ApplyFilled(templates, s, network.Some?, filled.spec, confDir, f);
      ApplyResult(r.0, filled.spec, r.1)
  }

  function Succeed(s: State, network: Option<NetworkSpec>, spec: Spec): State {
    s.(appliedCluster := if network.Some? then network else s.appliedCluster,
       appliedOper := Some(spec),
       log := s.log + [Cleared(CLUSTER_CONFIG), Cleared(OPERATOR_CONFIG)])
  }

  /** The Kubernetes round once the AntreaInstall is in hand and the shortcut was not taken. */
  function FullKubernetes(lib: Library, templates: seq<Template>, s: State, spec: Spec, f: Faults):
      (State, RoundResult)
  {
    var r := ApplyConfig(lib, Kubernetes, templates, s, None, spec, DEFAULT_CNI_DIR, f);
    if !r.ok then (r.state, Errored) else (Succeed(r.state, None, r.spec), Finished)
  }

  /** The option the later change test reads is absent or an integer, in this spec. */
  ghost predicate IntegerMTU(lib: Library, spec: Spec) {
    MTUOption(lib, spec).Some? ==> MTUOption(lib, spec).value.Int?
  }

  /** The network status part of the OpenShift round. */
  function UpdateStatus(lib: Library, s: State, network: NetworkSpec, spec: Spec, f: Faults): (State, bool)
    requires IntegerMTU(lib, spec)
  {
    var mtu := DefaultMTUChange(lib, s.appliedOper, spec);
    if mtu.error.Some? then (Raise(s, OPERATOR_CONFIG, "UpdateNetworkStatusError"), false)
    else if ClusterNetworkChanged(s.appliedCluster, network) || mtu.changed then
      if !f.statusOk then (Raise(s, CLUSTER_CONFIG, "UpdateNetworkStatusError"), false)
      else
        var status := StatusFor(network, mtu.mtu);
        (s.(networkStatus := Some(status), log := s.log + [NetworkStatusWritten(status)]), true)
    else (s, true)
  }

  lemma FillKeepsIntegerMTU(lib: Library, platform: Platform, network: Option<NetworkSpec>, spec: Spec)
    requires RoundTrips(lib) && IntegerMTU(lib, spec)
    requires network.Some? ==> network.value.serviceNetwork != []
    ensures Fill(lib, platform, network, spec).error.None? ==> IntegerMTU(lib, Fill(lib, platform, network, spec).spec)
  {
    if Fill(lib, platform, network, spec).error.None? {
      FillThenValidate(lib, platform, network, spec);
    }
  }

  lemma ApplyOkFilled(lib: Library, platform: Platform, templates: seq<Template>, s: State,
                      network: Option<NetworkSpec>, spec: Spec, confDir: string, f: Faults)
    requires network.Some? ==> network.value.serviceNetwork != []
    ensures var r := ApplyConfig(lib, platform, templates, s, network, spec, confDir, f);
            r.ok ==> Fill(lib, platform, network, spec) == Filled(r.spec, None)
  {
  }

  function FullOpenShift(lib: Library, templates: seq<Template>, s: State, network: NetworkSpec, spec: Spec,
                         confDir: string, f: Faults): (State, RoundResult)
    requires RoundTrips(lib) && network.serviceNetwork != [] && IntegerMTU(lib, spec)
  {
    var r := ApplyConfig(lib, OpenShift, templates, s, Some(network), spec, confDir, f);
    if !r.ok then (r.state, Errored)
    else
      ApplyOkFilled(lib, OpenShift, templates, s, Some(network), spec, confDir, f);
      FillKeepsIntegerMTU(lib, OpenShift, Some(network), spec);
      var u := UpdateStatus(lib, r.state, network, r.spec, f);
      if !u.1 then (u.0, Errored) else (Succeed(u.0, Some(network), r.spec), Finished)
  }

  /** What the source demands of the resources: a service network, and an integer default MTU. */
  ghost predicate Sane(lib: Library, inputs: Inputs) {
    && RoundTrips(lib)
    && (inputs.network.Fetched? ==> inputs.network.value.serviceNetwork != [])
    && (inputs.install.Fetched? ==> IntegerMTU(lib, inputs.install.value))
  }

  function NoInstall(s: State, install: Fetch<Spec>): (State, RoundResult)
    requires !install.Fetched?
  {
    if install.Missing? then (Raise(s, CLUSTER_CONFIG, "NoAntreaInstallCR"), Unavailable)
    else (Raise(s, OPERATOR_CONFIG, "InvalidAntreaInstallCR"), Errored)
  }

  function RoundKubernetes(lib: Library, templates: seq<Template>, s: State, inputs: Inputs, f: Faults):
      (State, RoundResult)
  {
    if inputs.request == Unrelated then (s, Ignored)
    else if !inputs.install.Fetched? then NoInstall(s, inputs.install)
    else if inputs.request == ForInstall && s.appliedOper == Some(inputs.install.value) then (s, Unchanged)
    else FullKubernetes(lib, templates, s, inputs.install.value, f)
  }

  function RoundOpenShift(lib: Library, templates: seq<Template>, s: State, inputs: Inputs, f: Faults):
      (State, RoundResult)
    requires Sane(lib, inputs)
  {
    if inputs.request == Unrelated then (s, Ignored)
    else if inputs.network.Missing? then (Raise(s, CLUSTER_CONFIG, "NoClusterConfig"), Unavailable)
    else if inputs.network.FetchError? then (Raise(s, CLUSTER_CONFIG, "InvalidClusterConfig"), Errored)
    else if inputs.request == ForCluster && s.appliedCluster == Some(inputs.network.value) then (s, Unchanged)
    else if inputs.operatorNetwork.Missing? then
      (Raise(s, OPERATOR_CONFIG, "NoClusterNetworkOperatorConfig"), Unavailable)
    else if inputs.operatorNetwork.FetchError? then (s, Errored)
    else if !inputs.install.Fetched? then NoInstall(s, inputs.install)
    else if inputs.request == ForInstall && s.appliedOper == Some(inputs.install.value) then (s, Unchanged)
    else FullOpenShift(lib, templates, s, inputs.network.value, inputs.install.value, inputs.operatorNetwork.value, f)
  }

  function Round(lib: Library, platform: Platform, templates: seq<Template>, s: State, inputs: Inputs, f: Faults):
      (State, RoundResult)
    requires Sane(lib, inputs)
  {
    if platform == OpenShift then RoundOpenShift(lib, templates, s, inputs, f)
    else RoundKubernetes(lib, templates, s, inputs, f)
  }

  // ---------------------------------------------------------------------------
  // The reconciler, in place
  // ---------------------------------------------------------------------------

  class AntreaInstallReconciler {
    const lib: Library
    const platform: Platform
    const templates: seq<Template>
    var appliedClusterConfig: Option<NetworkSpec>
    var appliedOperConfig: Option<Spec>
    var sharedInfo: Option<Shared>
    var handed: Option<Handed>
    var cluster: Cluster
    var networkStatus: Option<NetworkStatus>
    ghost var log: seq<Action>

    ghost function View(): State
      reads this
    {
      State(appliedClusterConfig, appliedOperConfig, sharedInfo, handed, cluster, networkStatus, log)
    }

    constructor (lib: Library, platform: Platform, templates: seq<Template>, cluster: Cluster,
        networkStatus: Option<NetworkStatus>)
      ensures this.lib == lib && this.platform == platform && this.templates == templates
      ensures View() == State(None, None, None, None, cluster, networkStatus, [])
    {
      this.lib, this.platform, this.templates := lib, platform, templates;
      appliedClusterConfig, appliedOperConfig, sharedInfo, handed := None, None, None, None;
      this.cluster, this.networkStatus, log := cluster, networkStatus, [];
    }

    method SetDegraded(level: Level, reason: string)
      modifies this`log
      ensures View() == Raise(old(View()), level, reason)
    {
      log := log + [Raised(level, reason)];
    }

    method GetAppliedOperConfig(f: Faults) returns (result: Fetch<Option<Spec>>)
      ensures result == AppliedConfig(View(), f)
    {
      if appliedOperConfig.Some? {
        return Fetched(appliedOperConfig);
      }
      if f.list != ReadOk {
        return if f.list == ReadNotFound then Fetched(None) else FetchError;
      }
      if cluster.configMap.None? {
        return Fetched(None);
      }
      if !f.deploymentOk {
        return FetchError;
      }
      if cluster.image.None? {
        return Fetched(None);
      }
      var data := cluster.configMap.value;
      return Fetched(Some(Spec(data.agent, data.cni, data.controller, "", cluster.image.value)));
    }

    method UpdateStatusManagerAndSharedInfo(objs: seq<Manifest>, owned: bool, f: Faults) returns (ok: bool)
      modifies this`sharedInfo, this`handed, this`log
      ensures if !OwnersSet(owned, f, |objs|)
                 || LastDaemonSet(objs, |objs|).None? || LastDeployment(objs, |objs|).None? then
                !ok && View() == Raise(old(View()), OPERATOR_CONFIG, "ApplyObjectsError")
              else
                ok && View() == Share(old(View()), objs, f.mapped)
    {
      var daemonSets, deployments, relatedObjects := [], [], None;
      var daemonSetObject, deploymentObject := None, None;
      for i := 0 to |objs|
        invariant View() == old(View())
        invariant daemonSets == DaemonSetsOf(objs, i) && daemonSetObject == LastDaemonSet(objs, i)
        invariant deployments == DeploymentsOf(objs, i) && deploymentObject == LastDeployment(objs, i)
        invariant relatedObjects == RelatedOf(objs, f.mapped, i)
        invariant OwnersSet(owned, f, i)
      {
        if objs[i].AgentDaemonSet? {
          daemonSets := daemonSets + [objs[i]];
          daemonSetObject := Some(objs[i]);
        } else if objs[i].ControllerDeployment? {
          deployments := deployments + [objs[i]];
          deploymentObject := Some(objs[i]);
        }
        if !f.mapped(i) {
          continue;
        }
        assert [] + [objs[i]] == [objs[i]];
        relatedObjects := Some((if relatedObjects.None? then [] else relatedObjects.value) + [objs[i]]);
        if owned && !f.ownerOk(i) {
          SetDegraded(OPERATOR_CONFIG, "ApplyObjectsError");
          return false;
        }
      }
      if daemonSetObject.None? || deploymentObject.None? {
        SetDegraded(OPERATOR_CONFIG, "ApplyObjectsError");
        return false;
      }
      handed := Some(Handed(daemonSets, deployments, relatedObjects));
      sharedInfo := Some(Shared(daemonSetObject.value, deploymentObject.value));
      return true;
    }

    /** The apply loop, which stops at the first failure. */
    method ApplyObjects(objs: seq<Manifest>, applyOk: nat -> bool) returns (ok: bool)
      modifies this`cluster, this`log
      ensures var k := FirstFailure(applyOk, |objs|);
              var applied := ApplyUpTo(old(View()), objs, k);
              && (ok <==> k == |objs|)
              && View() == if ok then applied else Raise(applied, OPERATOR_CONFIG, "ApplyObjectsError")
    {
      for i := 0 to |objs|
        invariant View() == ApplyUpTo(old(View()), objs, i)
        invariant forall j :: 0 <= j < i ==> applyOk(j)
      {
        if !applyOk(i) {
          assert FirstFailure(applyOk, |objs|) == i;
          SetDegraded(OPERATOR_CONFIG, "ApplyObjectsError");
          return false;
        }
        cluster := Store(cluster, objs[i]);
        log := log + [Applied(objs[i])];
      }
      return true;
    }

    method DeleteOldPods(changes: Changes, f: Faults) returns (ok: bool)
      modifies this`log
      ensures (View(), ok) == DeletePods(old(View()), changes, f)
    {
      if appliedOperConfig.Some? && changes.agent && !changes.image {
        if !f.deleteAgentOk {
          SetDegraded(OPERATOR_CONFIG, "DeleteOldPodsError");
          return false;
        }
        log := log + [PodsDeleted(Agent)];
      }
      if appliedOperConfig.Some? && changes.controller && !changes.image {
        if !f.deleteControllerOk {
          SetDegraded(OPERATOR_CONFIG, "DeleteOldPodsError");
          return false;
        }
        log := log + [PodsDeleted(Controller)];
      }
      return true;
    }

    /** `applyConfig`; the fetched AntreaInstall is filled in place. */
    method ApplyConfiguration(network: Option<NetworkSpec>, oper: AntreaInstall, confDir: string, f: Faults)
        returns (ok: bool)
      requires network.Some? ==> network.value.serviceNetwork != []
      modifies this`sharedInfo, this`handed, this`cluster, this`log, oper
      ensures ApplyResult(View(), oper.spec, ok) ==
              ApplyConfig(lib, platform, templates, old(View()), network, old(oper.spec), confDir, f)
    {
      hide Fill, Validate, NeedApplyChange, AppliedConfig, Render, LastDaemonSet, LastDeployment;
      hide Share, OwnersSet, FirstFailure, ApplyUpTo, DeletePods;
      var error := FillConfig(lib, platform, network, oper);
      if error.Some? {
        SetDegraded(OPERATOR_CONFIG, "FillConfigurationsError");
        return false;
      }
      if Validate(lib, network, oper.spec) != [] {
        SetDegraded(OPERATOR_CONFIG, "InvalidOperatorConfig");
        return false;
      }
      var applied := GetAppliedOperConfig(f);
      if !applied.Fetched? {
        SetDegraded(OPERATOR_CONFIG, "InternalError");
        return false;
      }
      var changes := NeedApplyChange(applied.value, oper.spec);
      if !changes.agent && !changes.controller {
        return true;
      }
      if !f.renderOk {
        SetDegraded(OPERATOR_CONFIG, "RenderConfigError");
        return false;
      }
      var objs := Render(templates, oper.spec, confDir);
      ok := UpdateStatusManagerAndSharedInfo(objs, network.Some?, f);
      if !ok {
        return;
      }
      ok := ApplyObjects(objs, f.applyOk);
      if !ok {
        return;
      }
      ok := DeleteOldPods(changes, f);
    }

    /** The network status part of the OpenShift round. */
    method UpdateNetworkStatus(network: NetworkSpec, spec: Spec, f: Faults) returns (ok: bool)
      requires IntegerMTU(lib, spec)
      modifies this`networkStatus, this`log
      ensures (View(), ok) == UpdateStatus(lib, old(View()), network, spec, f)
    {
      var networkChanged := HasClusterNetworkConfigChange(appliedClusterConfig, network);
      var mtu := DefaultMTUChange(lib, appliedOperConfig, spec);
      if mtu.error.Some? {
        SetDegraded(OPERATOR_CONFIG, "UpdateNetworkStatusError");
        return false;
      }
      if networkChanged || mtu.changed {
        if !f.statusOk {
          SetDegraded(CLUSTER_CONFIG, "UpdateNetworkStatusError");
          return false;
        }
        var status := BuildNetworkStatus(network, mtu.mtu);
        networkStatus := Some(status);
        log := log + [NetworkStatusWritten(networkStatus.value)];
      }
      return true;
    }

    method Reconcile(inputs: Inputs, f: Faults) returns (result: RoundResult)
      requires Sane(lib, inputs)
      modifies this
      ensures (View(), result) == Round(lib, platform, templates, old(View()), inputs, f)
    {
      if platform == OpenShift {
        result := ReconcileOpenShift(inputs, f);
      } else {
        result := ReconcileKubernetes(inputs, f);
      }
    }

    method ReconcileKubernetes(inputs: Inputs, f: Faults) returns (result: RoundResult)
      requires Sane(lib, inputs) && platform == Kubernetes
      modifies this
      ensures (View(), result) == RoundKubernetes(lib, templates, old(View()), inputs, f)
    {
      if inputs.request == Unrelated {
        return Ignored;
      }
      if !inputs.install.Fetched? {
        result := ReportNoInstall(inputs.install);
        return;
      }
      if inputs.request == ForInstall && appliedOperConfig == Some(inputs.install.value) {
        return Unchanged;
      }
      var oper := new AntreaInstall(inputs.install.value);
      var ok := ApplyConfiguration(None, oper, DEFAULT_CNI_DIR, f);
      if !ok {
        return Errored;
      }
      log := log + [Cleared(CLUSTER_CONFIG), Cleared(OPERATOR_CONFIG)];
      appliedOperConfig := Some(oper.spec);
      return Finished;
    }

    method ReportNoInstall(install: Fetch<Spec>) returns (result: RoundResult)
      requires !install.Fetched?
      modifies this`log
      ensures (View(), result) == NoInstall(old(View()), install)
    {
      if install.Missing? {
        SetDegraded(CLUSTER_CONFIG, "NoAntreaInstallCR");
        return Unavailable;
      }
      SetDegraded(OPERATOR_CONFIG, "InvalidAntreaInstallCR");
      return Errored;
    }

    /** The OpenShift round once all three resources are in hand. */
    method ReconcileFetched(network: NetworkSpec, spec: Spec, confDir: string, f: Faults) returns (result: RoundResult)
      requires RoundTrips(lib) && network.serviceNetwork != [] && IntegerMTU(lib, spec)
      requires platform == OpenShift
      modifies this
      ensures (View(), result) == FullOpenShift(lib, templates, old(View()), network, spec, confDir, f)
    {
      var oper := new AntreaInstall(spec);
      var ok := ApplyConfiguration(Some(network), oper, confDir, f);
      if !ok {
        return Errored;
      }
      ApplyOkFilled(lib, OpenShift, templates, old(View()), Some(network), spec, confDir, f);
      FillKeepsIntegerMTU(lib, OpenShift, Some(network), spec);
      ok := UpdateNetworkStatus(network, oper.spec, f);
      if !ok {
        return Errored;
      }
      log := log + [Cleared(CLUSTER_CONFIG), Cleared(OPERATOR_CONFIG)];
      appliedClusterConfig := Some(network);
      appliedOperConfig := Some(oper.spec);
      return Finished;
    }

    method ReconcileOpenShift(inputs: Inputs, f: Faults) returns (result: RoundResult)
      requires Sane(lib, inputs) && platform == OpenShift
      modifies this
      ensures (View(), result) == RoundOpenShift(lib, templates, old(View()), inputs, f)
    {
      if inputs.request == Unrelated {
        return Ignored;
      }
      if inputs.network.Missing? {
        SetDegraded(CLUSTER_CONFIG, "NoClusterConfig");
        return Unavailable;
      }
      if inputs.network.FetchError? {
        SetDegraded(CLUSTER_CONFIG, "InvalidClusterConfig");
        return Errored;
      }
      if inputs.request == ForCluster && appliedClusterConfig == Some(inputs.network.value) {
        return Unchanged;
      }
      if inputs.operatorNetwork.Missing? {
        SetDegraded(OPERATOR_CONFIG, "NoClusterNetworkOperatorConfig");
        return Unavailable;
      }
      if inputs.operatorNetwork.FetchError? {
        return Errored;
      }
      if !inputs.install.Fetched? {
        result := ReportNoInstall(inputs.install);
        return;
      }
      if inputs.request == ForInstall && appliedOperConfig == Some(inputs.install.value) {
        return Unchanged;
      }
      result := ReconcileFetched(inputs.network.value, inputs.install.value, inputs.operatorNetwork.value, f);
    }
  }
}
