/** What holds over any sequence of reconcile rounds and operator restarts. */
module ReconcileRuns {
  import opened Basics
  import opened Configuration
  import opened Reconcilers

  // ---------------------------------------------------------------------------
  // Runs
  // ---------------------------------------------------------------------------

  datatype Move = Reconcile(inputs: Inputs, faults: Faults) | Restart

  /** The setting of a run: the libraries, the platform and the manifest templates. */
  datatype Setting = Setting(lib: Library, platform: Platform, templates: seq<Template>)

  ghost predicate SaneMove(e: Setting, m: Move) {
    m.Reconcile? ==> Sane(e.lib, m.inputs)
  }

  ghost function Step(e: Setting, s: State, m: Move): State
    requires SaneMove(e, m)
  {
    match m
    case Reconcile(inputs, faults) => Round(e.lib, e.platform, e.templates, s, inputs, faults).0
    case Restart => s.(appliedCluster := None, appliedOper := None, shared := None, handed := None)
  }

  ghost predicate SaneRun(e: Setting, moves: seq<Move>) {
    forall m :: m in moves ==> SaneMove(e, m)
  }

  ghost function Run(e: Setting, s: State, moves: seq<Move>): State
    requires SaneRun(e, moves)
  {
    if moves == [] then s else Step(e, Run(e, s, moves[..|moves| - 1]), moves[|moves| - 1])
  }

  // ---------------------------------------------------------------------------
  // The cluster follows the applied configuration
  // ---------------------------------------------------------------------------

  /** The image the agents run. */
  function AgentImage(c: Cluster): Option<string> {
    if c.daemonSet.Some? && c.daemonSet.value.AgentDaemonSet? then Some(c.daemonSet.value.image) else None
  }

  /** The two objects that are read back after a restart are those of `spec`. */
  predicate ReadsAs(c: Cluster, spec: Spec) {
    c.configMap == Some(ConfigsOf(spec)) && c.image == Some(spec.image)
  }

  /** The three configurations and the images of both workloads are those of `spec`. */
  predicate Holds(c: Cluster, spec: Spec) {
    ReadsAs(c, spec) && AgentImage(c) == Some(spec.image)
  }

  /** The cluster holds what the operator remembers to have applied; and where it remembers
      nothing, the two objects it would read back can be trusted to stand for the agents. */
  predicate InSync(s: State) {
    if s.appliedOper.Some? then Holds(s.cluster, s.appliedOper.value)
    else s.cluster.configMap.Some? && s.cluster.image.Some? ==> AgentImage(s.cluster) == s.cluster.image
  }

  /** Nothing fails to be read or written. */
  ghost predicate NoFaults(f: Faults) {
    && f.list == ReadOk && f.deploymentOk && f.renderOk
    && f.deleteAgentOk && f.deleteControllerOk && f.statusOk
    && forall i :: f.ownerOk(i) && f.applyOk(i)
  }

  /** The manifest has the three objects the reconciler compares and waits for. */
  predicate Complete(templates: seq<Template>) {
    ConfigMapTemplate in templates && DaemonSetTemplate in templates && DeploymentTemplate in templates
  }

  lemma {:induction false} ApplyFrame(s: State, objs: seq<Manifest>, n: nat)
    requires n <= |objs|
    ensures var r := ApplyUpTo(s, objs, n);
            && r == s.(cluster := r.cluster, log := r.log)
            && s.log <= r.log && |r.log| == |s.log| + n
            && forall i :: 0 <= i < n ==> r.log[|s.log| + i] == Applied(objs[i])
  {
    if n > 0 {
      ApplyFrame(s, objs, n - 1);
    }
  }

  lemma StoreOne(c: Cluster, t: Template, spec: Spec, confDir: string)
    ensures var r := Store(c, RenderOne(t, spec, confDir));
            && r.configMap == (if t == ConfigMapTemplate then Some(ConfigsOf(spec)) else c.configMap)
            && r.image == (if t == DeploymentTemplate then Some(spec.image) else c.image)
            && r.daemonSet ==
               (if t == DaemonSetTemplate then Some(AgentDaemonSet(spec.image, confDir)) else c.daemonSet)
  {
  }

  /** After applying `n` rendered objects the cluster holds the spec in every object that was
      among them, and is unchanged in the others. */
  lemma {:induction false} ApplyStores(s: State, templates: seq<Template>, spec: Spec, confDir: string, n: nat)
    requires n <= |templates|
    ensures var c := ApplyUpTo(s, Render(templates, spec, confDir), n).cluster;
            && c.configMap ==
               (if ConfigMapTemplate in templates[..n] then Some(ConfigsOf(spec)) else s.cluster.configMap)
            && c.image == (if DeploymentTemplate in templates[..n] then Some(spec.image) else s.cluster.image)
            && c.daemonSet ==
               (if DaemonSetTemplate in templates[..n] then Some(AgentDaemonSet(spec.image, confDir))
                else s.cluster.daemonSet)
  {
    if n > 0 {
      hide Render, RenderOne, Store, ConfigsOf;
      ApplyStores(s, templates, spec, confDir, n - 1);
      assert templates[..n] == templates[..n - 1] + [templates[n - 1]];
      StoreOne(ApplyUpTo(s, Render(templates, spec, confDir), n - 1).cluster, templates[n - 1], spec, confDir);
    }
  }

  /** And it has exactly the other objects it had or that were among them. */
  lemma {:induction false} ApplyStoresOthers(s: State, templates: seq<Template>, spec: Spec, confDir: string, n: nat,
      id: nat)
    requires n <= |templates|
    ensures id in ApplyUpTo(s, Render(templates, spec, confDir), n).cluster.others <==>
              id in s.cluster.others || OtherTemplate(id) in templates[..n]
  {
    if n > 0 {
      ApplyStoresOthers(s, templates, spec, confDir, n - 1, id);
      assert templates[..n] == templates[..n - 1] + [templates[n - 1]];
    }
  }

  lemma DeleteFrame(s: State, changes: Changes, f: Faults)
    ensures var r := DeletePods(s, changes, f);
            r.0 == s.(log := r.0.log) && (NoFaults(f) ==> r.1)
  {
  }

  /** What the steps of a round touch; if they succeed the cluster holds the spec, and without
      faults they fail only before applying anything. */
  ghost predicate Rolled(e: Setting, s: State, s': State, ok: bool, spec: Spec, f: Faults) {
    && s' == s.(shared := s'.shared, handed := s'.handed, cluster := s'.cluster, log := s'.log)
    && (ok && Complete(e.templates) ==> Holds(s'.cluster, spec))
    && (!ok && NoFaults(f) ==> s'.cluster == s.cluster)
  }

  lemma ApplyAllHolds(s: State, templates: seq<Template>, spec: Spec, confDir: string)
    ensures var objs := Render(templates, spec, confDir);
            Complete(templates) ==> Holds(ApplyUpTo(s, objs, |objs|).cluster, spec)
  {
    hide Render, ApplyUpTo;
    ApplyStores(s, templates, spec, confDir, |templates|);
    assert templates[..|templates|] == templates;
  }

  lemma RollOutHolds(e: Setting, s: State, owned: bool, spec: Spec, confDir: string, changes: Changes, f: Faults)
    ensures var r := RollOut(s, e.templates, owned, spec, confDir, changes, f);
            Rolled(e, s, r.0, r.1, spec, f)
  {
    hide Render, LastDaemonSet, LastDeployment, DaemonSetsOf, DeploymentsOf, RelatedOf;
    hide OwnersSet, FirstFailure, ApplyUpTo, DeletePods, Complete, Holds;
    var objs := Render(e.templates, spec, confDir);
    if f.renderOk && OwnersSet(owned, f, |objs|)
       && LastDaemonSet(objs, |objs|).Some? && LastDeployment(objs, |objs|).Some? {
      var shared := Share(s, objs, f.mapped);
      var k := FirstFailure(f.applyOk, |objs|);
      ApplyFrame(shared, objs, k);
      ApplyAllHolds(shared, e.templates, spec, confDir);
      DeleteFrame(ApplyUpTo(shared, objs, k), changes, f);
    }
  }

  lemma ApplyFilledHolds(e: Setting, s: State, owned: bool, spec: Spec, confDir: string, f: Faults)
    requires InSync(s)
    ensures var r := ApplyFilled(e.templates, s, owned, spec, confDir, f);
            Rolled(e, s, r.0, r.1, spec, f)
  {
    var applied := AppliedConfig(s, f);
    if applied.Fetched? {
      RollOutHolds(e, s, owned, spec, confDir, NeedApplyChange(applied.value, spec), f);
    }
  }

  lemma ApplyConfigHolds(e: Setting, s: State, network: Option<NetworkSpec>, spec: Spec, confDir: string, f: Faults)
    requires network.Some? ==> network.value.serviceNetwork != []
    requires InSync(s)
    ensures var r := ApplyConfig(e.lib, e.platform, e.templates, s, network, spec, confDir, f);
            && Rolled(e, s, r.state, r.ok, r.spec, f)
            && (r.ok ==> Fill(e.lib, e.platform, network, spec) == Filled(r.spec, None))
  {
    ApplyFilledHolds(e, s, network.Some?, Fill(e.lib, e.platform, network, spec).spec, confDir, f);
  }

  /** The applied configuration went through the fill, so its default MTU is there. */
  predicate KnownMTU(e: Setting, s: State) {
    s.appliedOper.Some? ==>
      var mtu := MTUOption(e.lib, s.appliedOper.value);
      mtu.Some? && mtu.value.Int?
  }

  lemma StatusFrame(lib: Library, s: State, network: NetworkSpec, spec: Spec, f: Faults)
    requires IntegerMTU(lib, spec)
    ensures var u := UpdateStatus(lib, s, network, spec, f);
            u.0 == s.(networkStatus := u.0.networkStatus, log := u.0.log)
  {
  }

  /** No fault can lose the default MTU of the applied configuration. */
  lemma RoundKeepsMTU(e: Setting, s: State, inputs: Inputs, f: Faults)
    requires Sane(e.lib, inputs) && KnownMTU(e, s)
    ensures KnownMTU(e, Round(e.lib, e.platform, e.templates, s, inputs, f).0)
  {
    if inputs.install.Fetched? {
      if e.platform == Kubernetes {
        KubernetesMemory(e, s, inputs.install.value, f);
      } else if inputs.network.Fetched? && inputs.operatorNetwork.Fetched? {
        OpenShiftMemory(e, s, inputs.network.value, inputs.install.value, inputs.operatorNetwork.value, f);
      }
    }
  }

  /** The applied configuration changes only when the round finishes, to the filled one, whose
      default MTU is there. */
  lemma KubernetesMemory(e: Setting, s: State, spec: Spec, f: Faults)
    requires RoundTrips(e.lib) && IntegerMTU(e.lib, spec)
    ensures var r := FullKubernetes(e.lib, e.templates, s, spec, f);
            && r.0.appliedCluster == s.appliedCluster
            && (r.1 != Finished ==> r.0.appliedOper == s.appliedOper)
            && (r.1 == Finished ==>
                  Fill(e.lib, Kubernetes, None, spec) == Filled(r.0.appliedOper.value, None) && KnownMTU(e, r.0))
  {
    hide Fill, Validate, ApplyFilled, MTUOption;
    ApplyConfigFrame(e.(platform := Kubernetes), s, None, spec, DEFAULT_CNI_DIR, f);
    ApplyOkFilled(e.lib, Kubernetes, e.templates, s, None, spec, DEFAULT_CNI_DIR, f);
    if Fill(e.lib, Kubernetes, None, spec).error.None? {
      FillThenValidate(e.lib, Kubernetes, None, spec);
    }
  }

  lemma OpenShiftMemory(e: Setting, s: State, network: NetworkSpec, spec: Spec, confDir: string, f: Faults)
    requires RoundTrips(e.lib) && network.serviceNetwork != [] && IntegerMTU(e.lib, spec)
    ensures var r := FullOpenShift(e.lib, e.templates, s, network, spec, confDir, f);
            && (r.1 != Finished ==> r.0.appliedOper == s.appliedOper && r.0.appliedCluster == s.appliedCluster)
            && (r.1 == Finished ==>
                  && Fill(e.lib, OpenShift, Some(network), spec) == Filled(r.0.appliedOper.value, None)
                  && r.0.appliedCluster == Some(network) && KnownMTU(e, r.0))
  {
    hide Fill, Validate, ApplyFilled, MTUOption, UpdateStatus;
    ApplyConfigFrame(e.(platform := OpenShift), s, Some(network), spec, confDir, f);
    ApplyOkFilled(e.lib, OpenShift, e.templates, s, Some(network), spec, confDir, f);
    var r := ApplyConfig(e.lib, OpenShift, e.templates, s, Some(network), spec, confDir, f);
    if r.ok {
      FillThenValidate(e.lib, OpenShift, Some(network), spec);
      FillKeepsIntegerMTU(e.lib, OpenShift, Some(network), spec);
      StatusFrame(e.lib, r.state, network, r.spec, f);
    }
  }

  lemma {:induction false} KnownMTUOverRuns(e: Setting, s: State, moves: seq<Move>)
    requires SaneRun(e, moves) && KnownMTU(e, s)
    ensures KnownMTU(e, Run(e, s, moves))
  {
    if moves != [] {
      var before, m := moves[..|moves| - 1], moves[|moves| - 1];
      KnownMTUOverRuns(e, s, before);
      assert SaneMove(e, m);
      if m.Reconcile? {
        RoundKeepsMTU(e, Run(e, s, before), m.inputs, m.faults);
      }
    }
  }

  lemma CleanKubernetesKeepsSync(e: Setting, s: State, spec: Spec, f: Faults)
    requires RoundTrips(e.lib) && IntegerMTU(e.lib, spec) && e.platform == Kubernetes
    requires NoFaults(f) && Complete(e.templates) && InSync(s)
    ensures InSync(FullKubernetes(e.lib, e.templates, s, spec, f).0)
  {
    ApplyConfigHolds(e, s, None, spec, DEFAULT_CNI_DIR, f);
  }

  lemma CleanOpenShiftKeepsSync(e: Setting, s: State, network: NetworkSpec, spec: Spec, confDir: string, f: Faults)
    requires RoundTrips(e.lib) && IntegerMTU(e.lib, spec) && e.platform == OpenShift && network.serviceNetwork != []
    requires NoFaults(f) && Complete(e.templates) && InSync(s) && KnownMTU(e, s)
    ensures InSync(FullOpenShift(e.lib, e.templates, s, network, spec, confDir, f).0)
  {
    ApplyConfigHolds(e, s, Some(network), spec, confDir, f);
    var r := ApplyConfig(e.lib, e.platform, e.templates, s, Some(network), spec, confDir, f);
    if r.ok {
      FillKeepsIntegerMTU(e.lib, OpenShift, Some(network), spec);
      MTUChangeHasNoError(e.lib, e.platform, Some(network), s.appliedOper, spec);
      StatusFrame(e.lib, r.state, network, r.spec, f);
      assert UpdateStatus(e.lib, r.state, network, r.spec, f).1;
    }
  }

  lemma CleanRoundKeepsSync(e: Setting, s: State, inputs: Inputs, f: Faults)
    requires Sane(e.lib, inputs) && NoFaults(f) && Complete(e.templates) && InSync(s) && KnownMTU(e, s)
    ensures InSync(Round(e.lib, e.platform, e.templates, s, inputs, f).0)
  {
    hide FullKubernetes, FullOpenShift;
    if inputs.install.Fetched? {
      if e.platform == Kubernetes {
        CleanKubernetesKeepsSync(e, s, inputs.install.value, f);
      } else if inputs.network.Fetched? && inputs.operatorNetwork.Fetched? {
        CleanOpenShiftKeepsSync(e, s, inputs.network.value, inputs.install.value, inputs.operatorNetwork.value, f);
      }
    }
  }

  /** For any sequence of changing inputs and restarts without faults: whatever configuration
      the operator believes to be applied is what the ConfigMap and the image hold. */
  lemma {:induction false} ClusterFollowsApplied(e: Setting, s: State, moves: seq<Move>)
    requires SaneRun(e, moves) && Complete(e.templates) && InSync(s) && KnownMTU(e, s)
    requires forall m :: m in moves && m.Reconcile? ==> NoFaults(m.faults)
    ensures InSync(Run(e, s, moves))
  {
    if moves != [] {
      var before, m := moves[..|moves| - 1], moves[|moves| - 1];
      ClusterFollowsApplied(e, s, before);
      KnownMTUOverRuns(e, s, before);
      assert SaneMove(e, m);
      if m.Reconcile? {
        CleanRoundKeepsSync(e, Run(e, s, before), m.inputs, m.faults);
      }
    }
  }

  // ---------------------------------------------------------------------------
  // Memory rebuilt after a restart
  // ---------------------------------------------------------------------------

  /** What an operator without a memory reads back, and when it cannot: a failed list or a failed
      read of the deployment is an error, a missing list, ConfigMap or deployment means that
      nothing was applied. */
  lemma ReadBackIsExact(s: State, f: Faults)
    requires s.appliedOper.None?
    ensures var r, c := AppliedConfig(s, f), s.cluster;
            && (f.list == ReadError ==> r.FetchError?)
            && (f.list == ReadNotFound || (f.list == ReadOk && c.configMap.None?) ==> r == Fetched(None))
            && (f.list == ReadOk && c.configMap.Some? ==>
                  if !f.deploymentOk then r.FetchError?
                  else if c.image.None? then r == Fetched(None)
                  else
                    && r.Fetched? && r.value.Some?
                    && ReadsAs(c, r.value.value))
  {
  }

  /** After any fault-free run, a restarted operator reads back from the cluster a configuration
      that decides every later change exactly as the one it forgot. */
  lemma RestartDecidesAlike(e: Setting, s: State, moves: seq<Move>, f: Faults, cur: Spec)
    requires SaneRun(e, moves) && Complete(e.templates) && InSync(s) && KnownMTU(e, s)
    requires forall m :: m in moves && m.Reconcile? ==> NoFaults(m.faults)
    requires f.list == ReadOk && f.deploymentOk
    requires Run(e, s, moves).appliedOper.Some?
    ensures var v := Run(e, s, moves);
            var rebuilt := AppliedConfig(Step(e, v, Restart), f);
            && rebuilt.Fetched? && rebuilt.value.Some?
            && NeedApplyChange(rebuilt.value, cur) == NeedApplyChange(v.appliedOper, cur)
  {
    ClusterFollowsApplied(e, s, moves);
  }

  ghost predicate Deletes(s: State, s': State, component: Component) {
    exists i :: |s.log| <= i < |s'.log| && s'.log[i] == PodsDeleted(component)
  }

  lemma DeletesExactly(s: State, changes: Changes, f: Faults)
    requires DeletePods(s, changes, f).1
    ensures var s' := DeletePods(s, changes, f).0;
            && s.log <= s'.log
            && (Deletes(s, s', Agent) <==> s.appliedOper.Some? && changes.agent && !changes.image)
            && (Deletes(s, s', Controller) <==> s.appliedOper.Some? && changes.controller && !changes.image)
  {
    var s' := DeletePods(s, changes, f).0;
    var agent := s.appliedOper.Some? && changes.agent && !changes.image;
    if agent {
      assert s'.log[|s.log|] == PodsDeleted(Agent);
    }
    if s.appliedOper.Some? && changes.controller && !changes.image {
      assert s'.log[|s'.log| - 1] == PodsDeleted(Controller);
    }
  }

  lemma RollOutDeletesExactly(e: Setting, s: State, owned: bool, spec: Spec, confDir: string, changes: Changes,
      f: Faults)
    requires RollOut(s, e.templates, owned, spec, confDir, changes, f).1
    ensures var s' := RollOut(s, e.templates, owned, spec, confDir, changes, f).0;
            && s.log <= s'.log
            && (Deletes(s, s', Agent) <==> s.appliedOper.Some? && changes.agent && !changes.image)
            && (Deletes(s, s', Controller) <==> s.appliedOper.Some? && changes.controller && !changes.image)
  {
    hide Render, LastDaemonSet, LastDeployment, DaemonSetsOf, DeploymentsOf, RelatedOf;
    hide FirstFailure, ApplyUpTo, DeletePods;
    var objs := Render(e.templates, spec, confDir);
    var shared := Share(s, objs, f.mapped);
    var applied := ApplyUpTo(shared, objs, |objs|);
    ApplyFrame(shared, objs, |objs|);
    DeletesExactly(applied, changes, f);
    var s' := DeletePods(applied, changes, f).0;
    forall i | |s.log| <= i < |applied.log| ensures s'.log[i].Applied? {
      assert applied.log[|s.log| + (i - |s.log|)] == Applied(objs[i - |s.log|]);
    }
  }

  /** Old pods are deleted exactly when their configuration differs from the one the cluster
      holds, the image does not, and the operator still remembers what it applied: the first
      change after a restart is applied to the cluster without restarting any pod. */
  lemma PodsDeletedExactly(e: Setting, s: State, owned: bool, held: Spec, spec: Spec, confDir: string, f: Faults)
    requires ReadsAs(s.cluster, held) && (s.appliedOper.Some? ==> s.appliedOper.value == held)
    requires f.list == ReadOk && f.deploymentOk
    requires ApplyFilled(e.templates, s, owned, spec, confDir, f).1
    ensures var s' := ApplyFilled(e.templates, s, owned, spec, confDir, f).0;
            var remembered := s.appliedOper.Some? && held.image == spec.image;
            && s.log <= s'.log
            && (Deletes(s, s', Agent) <==> remembered && (held.agent != spec.agent || held.cni != spec.cni))
            && (Deletes(s, s', Controller) <==> remembered && held.controller != spec.controller)
  {
    var changes := NeedApplyChange(AppliedConfig(s, f).value, spec);
    if changes.agent || changes.controller {
      RollOutDeletesExactly(e, s, owned, spec, confDir, changes, f);
    }
  }

  // ---------------------------------------------------------------------------
  // Reconciling again changes nothing
  // ---------------------------------------------------------------------------

  /** Between `s` and `s'` nothing was written anywhere; only levels were raised or cleared. */
  predicate Calm(s: State, s': State) {
    && s' == s.(log := s'.log)
    && s.log <= s'.log
    && forall i :: |s.log| <= i < |s'.log| ==> s'.log[i].Raised? || s'.log[i].Cleared?
  }

  lemma SliceEqualReflexive(a: seq<string>)
    ensures SliceEqual(a, a)
  {
  }

  lemma AppliedAgainIsCalm(e: Setting, s: State, network: Option<NetworkSpec>, spec: Spec, confDir: string, f: Faults)
    requires network.Some? ==> network.value.serviceNetwork != []
    requires RoundTrips(e.lib)
    requires s.appliedOper.Some? && Fill(e.lib, e.platform, network, spec) == Filled(s.appliedOper.value, None)
    ensures ApplyConfig(e.lib, e.platform, e.templates, s, network, spec, confDir, f) ==
            ApplyResult(s, s.appliedOper.value, true)
  {
    FillThenValidate(e.lib, e.platform, network, spec);
  }

  /** The inputs are those whose round brought the operator into state `s`. */
  ghost predicate LastFinished(e: Setting, s: State, inputs: Inputs)
    requires Sane(e.lib, inputs)
  {
    && inputs.install.Fetched? && s.appliedOper.Some?
    && var network := if e.platform == OpenShift && inputs.network.Fetched? then Some(inputs.network.value) else None;
    && (e.platform == OpenShift ==> inputs.network.Fetched? && s.appliedCluster == network)
    && Fill(e.lib, e.platform, network, inputs.install.value) == Filled(s.appliedOper.value, None)
  }

  /** A finished round, with whatever faults, is the last finished one of its own inputs. */
  lemma FinishedIsLast(e: Setting, s: State, inputs: Inputs, f: Faults)
    requires Sane(e.lib, inputs)
    requires Round(e.lib, e.platform, e.templates, s, inputs, f).1 == Finished
    ensures LastFinished(e, Round(e.lib, e.platform, e.templates, s, inputs, f).0, inputs)
  {
    if e.platform == Kubernetes {
      ApplyOkFilled(e.lib, Kubernetes, e.templates, s, None, inputs.install.value, DEFAULT_CNI_DIR, f);
    } else {
      ApplyOkFilled(e.lib, OpenShift, e.templates, s, Some(inputs.network.value), inputs.install.value,
          inputs.operatorNetwork.value, f);
    }
  }

  lemma StatusAgainIsCalm(e: Setting, s: State, network: NetworkSpec, f: Faults)
    requires s.appliedOper.Some?
    requires IntegerMTU(e.lib, s.appliedOper.value) && MTUOption(e.lib, s.appliedOper.value).Some?
    requires s.appliedCluster == Some(network)
    ensures UpdateStatus(e.lib, s, network, s.appliedOper.value, f) == (s, true)
  {
    SliceEqualReflexive(network.serviceNetwork);
    SliceEqualReflexive(CIDRs(network.clusterNetwork));
  }

  lemma OpenShiftAgainIsCalm(e: Setting, s: State, network: NetworkSpec, spec: Spec, confDir: string, f: Faults)
    requires RoundTrips(e.lib) && network.serviceNetwork != [] && IntegerMTU(e.lib, spec)
    requires e.platform == OpenShift && s.appliedCluster == Some(network)
    requires s.appliedOper.Some? && Fill(e.lib, OpenShift, Some(network), spec) == Filled(s.appliedOper.value, None)
    ensures FullOpenShift(e.lib, e.templates, s, network, spec, confDir, f) ==
            (s.(log := s.log + [Cleared(CLUSTER_CONFIG), Cleared(OPERATOR_CONFIG)]), Finished)
  {
    FillThenValidate(e.lib, OpenShift, Some(network), spec);
    StatusAgainIsCalm(e, s, network, f);
    AppliedAgainIsCalm(e, s, Some(network), spec, confDir, f);
  }

  lemma KubernetesAgainIsCalm(e: Setting, s: State, spec: Spec, f: Faults)
    requires RoundTrips(e.lib) && e.platform == Kubernetes
    requires s.appliedOper.Some? && Fill(e.lib, Kubernetes, None, spec) == Filled(s.appliedOper.value, None)
    ensures FullKubernetes(e.lib, e.templates, s, spec, f) ==
            (s.(log := s.log + [Cleared(CLUSTER_CONFIG), Cleared(OPERATOR_CONFIG)]), Finished)
  {
    AppliedAgainIsCalm(e, s, None, spec, DEFAULT_CNI_DIR, f);
  }

  lemma KubernetesRoundAgain(e: Setting, s: State, again: Inputs, f: Faults)
    requires Sane(e.lib, again) && LastFinished(e, s, again) && e.platform == Kubernetes
    ensures var r := RoundKubernetes(e.lib, e.templates, s, again, f);
            Calm(s, r.0) && (again.request != Unrelated ==> r.1 in {Unchanged, Finished})
  {
    KubernetesAgainIsCalm(e, s, again.install.value, f);
  }

  lemma OpenShiftRoundAgain(e: Setting, s: State, again: Inputs, f: Faults)
    requires Sane(e.lib, again) && LastFinished(e, s, again) && e.platform == OpenShift
    ensures var r := RoundOpenShift(e.lib, e.templates, s, again, f);
            && Calm(s, r.0)
            && (again.request != Unrelated && again.operatorNetwork.Fetched? ==> r.1 in {Unchanged, Finished})
  {
    hide FullOpenShift;
    if again.operatorNetwork.Fetched? {
      OpenShiftAgainIsCalm(e, s, again.network.value, again.install.value, again.operatorNetwork.value, f);
    }
  }

  /** Reconciling again with the same resources, for any request, whatever would fail now and
      whatever the operator Network says now: nothing is applied, no pod is deleted, no network
      status is written, and the applied configuration stays. */
  lemma ReconcileAgainIsCalm(e: Setting, s: State, again: Inputs, f: Faults)
    requires Sane(e.lib, again) && LastFinished(e, s, again)
    ensures var r := Round(e.lib, e.platform, e.templates, s, again, f);
            && Calm(s, r.0)
            && (again.request != Unrelated && (e.platform == OpenShift ==> again.operatorNetwork.Fetched?) ==>
                  r.1 in {Unchanged, Finished})
  {
    if e.platform == Kubernetes {
      KubernetesRoundAgain(e, s, again, f);
    } else {
      OpenShiftRoundAgain(e, s, again, f);
    }
  }

  /** So a finished round is final for its inputs. */
  lemma FinishedRoundIsFinal(e: Setting, s: State, inputs: Inputs, f: Faults, again: Inputs, g: Faults)
    requires Sane(e.lib, inputs) && Sane(e.lib, again)
    requires again.network == inputs.network && again.install == inputs.install
    requires Round(e.lib, e.platform, e.templates, s, inputs, f).1 == Finished
    ensures var v := Round(e.lib, e.platform, e.templates, s, inputs, f).0;
            Calm(v, Round(e.lib, e.platform, e.templates, v, again, g).0)
  {
    FinishedIsLast(e, s, inputs, f);
    ReconcileAgainIsCalm(e, Round(e.lib, e.platform, e.templates, s, inputs, f).0, again, g);
  }

  /** Between `s` and `s'` nothing was applied and no pod was deleted. */
  predicate Inert(s: State, s': State) {
    && s.log <= s'.log
    && forall i :: |s.log| <= i < |s'.log| ==> !s'.log[i].Applied? && !s'.log[i].PodsDeleted?
  }

  /** And the cluster stayed as it was. */
  predicate Untouched(s: State, s': State) {
    s'.cluster == s.cluster && Inert(s, s')
  }

  /** What a restart leaves: the cluster, and a memory to be rebuilt from it. */
  ghost predicate Restarted(s: State, spec: Spec) {
    s.appliedOper.None? && s.appliedCluster.None? && ReadsAs(s.cluster, spec)
  }

  lemma RebuiltApplyIsCalm(e: Setting, s: State, network: Option<NetworkSpec>, raw: Spec, filled: Spec,
      confDir: string, f: Faults)
    requires network.Some? ==> network.value.serviceNetwork != []
    requires RoundTrips(e.lib) && Fill(e.lib, e.platform, network, raw) == Filled(filled, None)
    requires Restarted(s, filled) && f.list == ReadOk && f.deploymentOk
    ensures ApplyConfig(e.lib, e.platform, e.templates, s, network, raw, confDir, f) == ApplyResult(s, filled, true)
  {
    FillThenValidate(e.lib, e.platform, network, raw);
  }

  /** Writing the network status touches nothing else. */
  lemma StatusIsUntouched(lib: Library, s: State, network: NetworkSpec, spec: Spec, f: Faults)
    requires IntegerMTU(lib, spec)
    ensures Untouched(s, UpdateStatus(lib, s, network, spec, f).0)
    ensures UpdateStatus(lib, s, network, spec, f).0.appliedOper == s.appliedOper
  {
  }

  lemma RestartedRoundIsUntouched(e: Setting, s: State, inputs: Inputs, filled: Spec, f: Faults)
    requires Sane(e.lib, inputs) && inputs.install.Fetched? && (e.platform == OpenShift ==> inputs.network.Fetched?)
    requires var network := if e.platform == OpenShift then Some(inputs.network.value) else None;
             Fill(e.lib, e.platform, network, inputs.install.value) == Filled(filled, None)
    requires Restarted(s, filled) && f.list == ReadOk && f.deploymentOk
    ensures var r := Round(e.lib, e.platform, e.templates, s, inputs, f);
            Untouched(s, r.0) && (r.1 == Finished ==> r.0.appliedOper == Some(filled))
  {
    hide Fill, ApplyConfig, UpdateStatus, Holds;
    if e.platform == Kubernetes {
      RebuiltApplyIsCalm(e, s, None, inputs.install.value, filled, DEFAULT_CNI_DIR, f);
    } else if inputs.operatorNetwork.Fetched? {
      var network := inputs.network.value;
      RebuiltApplyIsCalm(e, s, Some(network), inputs.install.value, filled, inputs.operatorNetwork.value, f);
      FillKeepsIntegerMTU(e.lib, OpenShift, Some(network), inputs.install.value);
      StatusIsUntouched(e.lib, s, network, filled, f);
    }
  }

  /** After any fault-free run and a restart, reconciling the resources of the last finished
      round applies nothing and deletes no pod, for any request and whatever fails, as long as
      the cluster can be read; and if the round finishes the configuration is remembered again.
      On OpenShift it may write the network status once more. */
  lemma RestartedRoundIsQuiet(e: Setting, s: State, moves: seq<Move>, again: Inputs, f: Faults)
    requires SaneRun(e, moves) && Complete(e.templates) && InSync(s) && KnownMTU(e, s)
    requires forall m :: m in moves && m.Reconcile? ==> NoFaults(m.faults)
    requires Sane(e.lib, again) && LastFinished(e, Run(e, s, moves), again)
    requires f.list == ReadOk && f.deploymentOk
    ensures var v := Run(e, s, moves);
            var r := Round(e.lib, e.platform, e.templates, Step(e, v, Restart), again, f);
            Untouched(v, r.0) && (r.1 == Finished ==> r.0.appliedOper == v.appliedOper)
  {
    hide Round, Run, Fill;
    ClusterFollowsApplied(e, s, moves);
    var v := Run(e, s, moves);
    RestartedRoundIsUntouched(e, Step(e, v, Restart), again, v.appliedOper.value, f);
  }

  // ---------------------------------------------------------------------------
  // The shortcuts against the full path
  // ---------------------------------------------------------------------------

  /** On Kubernetes the applied configuration is always the result of some fill. */
  ghost predicate AppliedIsFilled(lib: Library, s: State) {
    s.appliedOper.Some? ==> exists raw :: Fill(lib, Kubernetes, None, raw) == Filled(s.appliedOper.value, None)
  }

  lemma {:induction false} AppliedStaysFilled(e: Setting, s: State, moves: seq<Move>)
    requires SaneRun(e, moves) && e.platform == Kubernetes && AppliedIsFilled(e.lib, s)
    ensures AppliedIsFilled(e.lib, Run(e, s, moves))
  {
    if moves != [] {
      var before, m := moves[..|moves| - 1], moves[|moves| - 1];
      var v := Run(e, s, before);
      AppliedStaysFilled(e, s, before);
      assert SaneMove(e, m);
      if m.Reconcile? && m.inputs.install.Fetched? {
        ApplyConfigFrame(e, v, None, m.inputs.install.value, DEFAULT_CNI_DIR, m.faults);
        ApplyOkFilled(e.lib, Kubernetes, e.templates, v, None, m.inputs.install.value, DEFAULT_CNI_DIR, m.faults);
      }
    }
  }

  /** The Kubernetes shortcut agrees with the full path.  In every state a run can reach, with
      any faults and restarts, if the fetched spec equals the applied one then the full path
      would fill it to itself, write nothing, finish, and leave the same applied spec. */
  lemma KubernetesShortcutAgrees(e: Setting, s: State, moves: seq<Move>, f: Faults)
    requires SaneRun(e, moves) && e.platform == Kubernetes && RoundTrips(e.lib) && s.appliedOper.None?
    requires Run(e, s, moves).appliedOper.Some?
    ensures var v := Run(e, s, moves);
            var full := FullKubernetes(e.lib, e.templates, v, v.appliedOper.value, f);
            Calm(v, full.0) && full.1 == Finished
  {
    AppliedStaysFilled(e, s, moves);
    var v := Run(e, s, moves);
    var raw :| Fill(e.lib, Kubernetes, None, raw) == Filled(v.appliedOper.value, None);
    KubernetesFillIsIdempotent(e.lib, raw);
    KubernetesAgainIsCalm(e, v, v.appliedOper.value, f);
  }

  /** The OpenShift shortcut does not: for a spec that equals the applied one the full path
      would find a changed controller configuration, exactly when the cluster has cluster
      networks, because the fill appends their CIDRs again. */
  lemma OpenShiftShortcutDisagrees(lib: Library, network: NetworkSpec, raw: Spec)
    requires RoundTrips(lib) && network.serviceNetwork != []
    requires Fill(lib, OpenShift, Some(network), raw).error.None?
    ensures var applied := Fill(lib, OpenShift, Some(network), raw).spec;
            var again := Fill(lib, OpenShift, Some(network), applied);
            && again.error.None?
            && NeedApplyChange(Some(applied), again.spec) == Changes(false, network.clusterNetwork != [], false)
  {
    OpenShiftFillIsIdempotentIff(lib, network, raw);
  }

  // ---------------------------------------------------------------------------
  // What the status manager and the pod controller are handed
  // ---------------------------------------------------------------------------

  /** The round gets as far as `ApplyConfig`. */
  predicate Reaches(e: Setting, s: State, inputs: Inputs) {
    && inputs.request != Unrelated && inputs.install.Fetched?
    && !(inputs.request == ForInstall && s.appliedOper == Some(inputs.install.value))
    && (e.platform == OpenShift ==>
          && inputs.network.Fetched? && inputs.operatorNetwork.Fetched?
          && !(inputs.request == ForCluster && s.appliedCluster == Some(inputs.network.value)))
  }

  function NetworkOf(e: Setting, inputs: Inputs): Option<NetworkSpec> {
    if e.platform == OpenShift && inputs.network.Fetched? then Some(inputs.network.value) else None
  }

  function ConfDirOf(e: Setting, inputs: Inputs): string {
    if e.platform == OpenShift && inputs.operatorNetwork.Fetched? then inputs.operatorNetwork.value else DEFAULT_CNI_DIR
  }

  /** What a round does to the cluster and hands over is what `ApplyConfig` does, and what it
      does besides neither applies an object nor deletes a pod. */
  lemma RoundCluster(e: Setting, s: State, inputs: Inputs, f: Faults)
    requires Sane(e.lib, inputs)
    ensures var s' := Round(e.lib, e.platform, e.templates, s, inputs, f).0;
            var r := if Reaches(e, s, inputs) then
                       ApplyConfig(e.lib, e.platform, e.templates, s,
                                   NetworkOf(e, inputs), inputs.install.value, ConfDirOf(e, inputs), f).state
                     else s;
            s'.cluster == r.cluster && s'.shared == r.shared && s'.handed == r.handed && Inert(r, s')
  {
    hide Fill, ApplyConfig, UpdateStatus;
    if e.platform == OpenShift && Reaches(e, s, inputs) {
      var network, spec := inputs.network.value, inputs.install.value;
      var r := ApplyConfig(e.lib, OpenShift, e.templates, s, Some(network), spec, inputs.operatorNetwork.value, f);
      if r.ok {
        ApplyOkFilled(e.lib, OpenShift, e.templates, s, Some(network), spec, inputs.operatorNetwork.value, f);
        FillKeepsIntegerMTU(e.lib, OpenShift, Some(network), spec);
        StatusFrame(e.lib, r.state, network, r.spec, f);
        StatusIsUntouched(e.lib, r.state, network, r.spec, f);
      }
    }
  }

  lemma UnfinishedKeepsMemory(e: Setting, s: State, inputs: Inputs, f: Faults)
    requires Sane(e.lib, inputs) && Round(e.lib, e.platform, e.templates, s, inputs, f).1 != Finished
    ensures var s' := Round(e.lib, e.platform, e.templates, s, inputs, f).0;
            s'.appliedOper == s.appliedOper && s'.appliedCluster == s.appliedCluster
  {
    hide FullKubernetes, FullOpenShift;
    if inputs.install.Fetched? {
      if e.platform == Kubernetes {
        KubernetesMemory(e, s, inputs.install.value, f);
      } else if inputs.network.Fetched? && inputs.operatorNetwork.Fetched? {
        OpenShiftMemory(e, s, inputs.network.value, inputs.install.value, inputs.operatorNetwork.value, f);
      }
    }
  }

  /** `r` is exactly the objects at the positions below `n` that are kept, in their order. */
  ghost predicate Selects(objs: seq<Manifest>, keep: nat -> bool, n: nat, r: seq<Manifest>) {
    exists at: seq<nat> :: SelectedAt(objs, keep, n, r, at)
  }

  ghost predicate SelectedAt(objs: seq<Manifest>, keep: nat -> bool, n: nat, r: seq<Manifest>, at: seq<nat>) {
    && |at| == |r|
    && (forall j, k :: 0 <= j < k < |at| ==> at[j] < at[k])
    && (forall i: nat :: i in at <==> i < n && keep(i))
    && (forall j :: 0 <= j < |r| ==> at[j] < |objs| && r[j] == objs[at[j]])
  }

  lemma SelectNone(objs: seq<Manifest>, keep: nat -> bool)
    ensures Selects(objs, keep, 0, [])
  {
    var at: seq<nat> := [];
    assert SelectedAt(objs, keep, 0, [], at);
  }

  lemma SelectNext(objs: seq<Manifest>, keep: nat -> bool, n: nat, r: seq<Manifest>)
    requires n < |objs| && Selects(objs, keep, n, r)
    ensures Selects(objs, keep, n + 1, if keep(n) then r + [objs[n]] else r)
  {
    var at :| SelectedAt(objs, keep, n, r, at);
    if keep(n) {
      SelectOneMore(objs, keep, n, r, at);
    } else {
      SelectNoMore(objs, keep, n, r, at);
    }
  }

  lemma SelectOneMore(objs: seq<Manifest>, keep: nat -> bool, n: nat, r: seq<Manifest>, at: seq<nat>)
    requires n < |objs| && keep(n) && SelectedAt(objs, keep, n, r, at)
    ensures SelectedAt(objs, keep, n + 1, r + [objs[n]], at + [n])
  {
    var more := at + [n];
    forall j, k | 0 <= j < k < |more| ensures more[j] < more[k] {
      assert at[j] in at;
    }
    forall i: nat ensures i in more <==> i < n + 1 && keep(i) {
      assert i in more <==> i in at || i == n;
    }
    forall j | 0 <= j < |more| ensures more[j] < |objs| && (r + [objs[n]])[j] == objs[more[j]] {
      if j < |at| {
        assert more[j] == at[j];
      }
    }
  }

  lemma SelectNoMore(objs: seq<Manifest>, keep: nat -> bool, n: nat, r: seq<Manifest>, at: seq<nat>)
    requires n < |objs| && !keep(n) && SelectedAt(objs, keep, n, r, at)
    ensures SelectedAt(objs, keep, n + 1, r, at)
  {
    forall i: nat ensures i in at <==> i < n + 1 && keep(i) {
    }
  }

  function ListOf(related: Option<seq<Manifest>>): seq<Manifest> {
    if related.None? then [] else related.value
  }

  /** The related objects are exactly those with a REST mapping, and no list if there are none. */
  lemma {:induction false} RelatedAreMapped(objs: seq<Manifest>, mapped: nat -> bool, n: nat)
    requires n <= |objs|
    ensures Selects(objs, mapped, n, ListOf(RelatedOf(objs, mapped, n))) && RelatedOf(objs, mapped, n) != Some([])
  {
    hide Selects;
    if n == 0 {
      SelectNone(objs, mapped);
    } else {
      RelatedAreMapped(objs, mapped, n - 1);
      SelectNext(objs, mapped, n - 1, ListOf(RelatedOf(objs, mapped, n - 1)));
      assert [] + [objs[n - 1]] == [objs[n - 1]];
    }
  }

  ghost function IsDaemonSet(objs: seq<Manifest>): nat -> bool {
    (i: nat) => i < |objs| && objs[i].AgentDaemonSet?
  }

  ghost function IsDeployment(objs: seq<Manifest>): nat -> bool {
    (i: nat) => i < |objs| && objs[i].ControllerDeployment?
  }

  /** The tracked workloads are exactly those of their kind. */
  lemma {:induction false} TrackedAreOfKind(objs: seq<Manifest>, n: nat)
    requires n <= |objs|
    ensures Selects(objs, IsDaemonSet(objs), n, DaemonSetsOf(objs, n))
    ensures Selects(objs, IsDeployment(objs), n, DeploymentsOf(objs, n))
  {
    hide Selects;
    if n == 0 {
      SelectNone(objs, IsDaemonSet(objs));
      SelectNone(objs, IsDeployment(objs));
    } else {
      TrackedAreOfKind(objs, n - 1);
      SelectNext(objs, IsDaemonSet(objs), n - 1, DaemonSetsOf(objs, n - 1));
      SelectNext(objs, IsDeployment(objs), n - 1, DeploymentsOf(objs, n - 1));
      assert DaemonSetsOf(objs, n - 1) + [] == DaemonSetsOf(objs, n - 1);
      assert DeploymentsOf(objs, n - 1) + [] == DeploymentsOf(objs, n - 1);
    }
  }

  function Last(s: seq<Manifest>): Option<Manifest> {
    if s == [] then None else Some(s[|s| - 1])
  }

  lemma {:induction false} LastOfKind(objs: seq<Manifest>, n: nat)
    requires n <= |objs|
    ensures LastDaemonSet(objs, n) == Last(DaemonSetsOf(objs, n))
    ensures LastDeployment(objs, n) == Last(DeploymentsOf(objs, n))
  {
    if n > 0 {
      LastOfKind(objs, n - 1);
    }
  }

  /** What is handed over after rendering `objs`: all workloads of both kinds to track, all objects
      with a REST mapping as related, in manifest order and never as an empty list that is not nil,
      and the last workload of each kind for the pod controller to recreate. */
  ghost predicate HandedFrom(objs: seq<Manifest>, mapped: nat -> bool, h: Handed, shared: Shared) {
    && Selects(objs, IsDaemonSet(objs), |objs|, h.daemonSets)
    && Selects(objs, IsDeployment(objs), |objs|, h.deployments)
    && Selects(objs, mapped, |objs|, ListOf(h.related)) && h.related != Some([])
    && Last(h.daemonSets) == Some(shared.daemonSet)
    && Last(h.deployments) == Some(shared.deployment)
  }

  lemma ShareIsExact(s: State, objs: seq<Manifest>, mapped: nat -> bool)
    requires LastDaemonSet(objs, |objs|).Some? && LastDeployment(objs, |objs|).Some?
    ensures var s' := Share(s, objs, mapped);
            s'.handed.Some? && s'.shared.Some? && HandedFrom(objs, mapped, s'.handed.value, s'.shared.value)
  {
    hide Selects, DaemonSetsOf, DeploymentsOf, RelatedOf, LastDaemonSet, LastDeployment, Last;
    RelatedAreMapped(objs, mapped, |objs|);
    TrackedAreOfKind(objs, |objs|);
    LastOfKind(objs, |objs|);
  }

  /** A state hands over nothing, or what some rendering of the manifest makes. */
  ghost predicate WellHanded(e: Setting, s: State) {
    && (s.handed.Some? <==> s.shared.Some?)
    && (s.handed.Some? ==>
          exists spec, confDir, mapped ::
            HandedFrom(Render(e.templates, spec, confDir), mapped, s.handed.value, s.shared.value))
  }

  /** What is handed over stays, or becomes exactly what this rendering makes. */
  ghost predicate HandsOver(e: Setting, s: State, s': State, spec: Spec, confDir: string, mapped: nat -> bool) {
    || (s'.handed == s.handed && s'.shared == s.shared)
    || (s'.handed.Some? && s'.shared.Some?
        && HandedFrom(Render(e.templates, spec, confDir), mapped, s'.handed.value, s'.shared.value))
  }

  lemma RollOutHandsOver(e: Setting, s: State, owned: bool, spec: Spec, confDir: string, changes: Changes, f: Faults)
    ensures HandsOver(e, s, RollOut(s, e.templates, owned, spec, confDir, changes, f).0, spec, confDir, f.mapped)
  {
    hide Render, FirstFailure, ApplyUpTo, DeletePods, OwnersSet, Share, HandedFrom;
    hide LastDaemonSet, LastDeployment, DaemonSetsOf, DeploymentsOf, RelatedOf, Last;
    var objs := Render(e.templates, spec, confDir);
    if LastDaemonSet(objs, |objs|).Some? && LastDeployment(objs, |objs|).Some? {
      var shared, k := Share(s, objs, f.mapped), FirstFailure(f.applyOk, |objs|);
      ShareIsExact(s, objs, f.mapped);
      ApplyFrame(shared, objs, k);
      DeleteFrame(ApplyUpTo(shared, objs, k), changes, f);
    }
  }

  /** A round hands over nothing new, or exactly what its own rendering makes. */
  lemma RoundHandsOver(e: Setting, s: State, inputs: Inputs, f: Faults)
    requires Sane(e.lib, inputs)
    ensures var s' := Round(e.lib, e.platform, e.templates, s, inputs, f).0;
            || (s'.handed == s.handed && s'.shared == s.shared)
            || (inputs.install.Fetched? &&
                HandsOver(e, s, s', Fill(e.lib, e.platform, NetworkOf(e, inputs), inputs.install.value).spec,
                          ConfDirOf(e, inputs), f.mapped))
  {
    hide Round, Fill, Validate, RollOut, HandedFrom;
    RoundCluster(e, s, inputs, f);
    if Reaches(e, s, inputs) {
      var filled := Fill(e.lib, e.platform, NetworkOf(e, inputs), inputs.install.value).spec;
      var applied := AppliedConfig(s, f);
      if applied.Fetched? {
        RollOutHandsOver(e, s, NetworkOf(e, inputs).Some?, filled, ConfDirOf(e, inputs),
            NeedApplyChange(applied.value, filled), f);
      }
    }
  }

  /** Over any run with any faults and restarts. */
  lemma {:induction false} HandedOverRuns(e: Setting, s: State, moves: seq<Move>)
    requires SaneRun(e, moves) && WellHanded(e, s)
    ensures WellHanded(e, Run(e, s, moves))
  {
    hide Round, HandedFrom;
    if moves != [] {
      var before, m := moves[..|moves| - 1], moves[|moves| - 1];
      HandedOverRuns(e, s, before);
      assert SaneMove(e, m);
      match m
      case Reconcile(inputs, faults) => RoundHandsOver(e, Run(e, s, before), inputs, faults);
      case Restart => RestartHandsWell(e, Run(e, s, before));
    }
  }

  lemma RestartHandsWell(e: Setting, s: State)
    ensures WellHanded(e, Step(e, s, Restart))
  {
  }

  // ---------------------------------------------------------------------------
  // The network status
  // ---------------------------------------------------------------------------

  /** The last written network status agrees with what was applied. */
  predicate StatusAgrees(lib: Library, s: State) {
    && (s.appliedCluster.Some? <==> s.appliedOper.Some?)
    && (s.appliedOper.Some? ==>
          && s.networkStatus.Some?
          && multiset(s.networkStatus.value.serviceNetwork) == multiset(s.appliedCluster.value.serviceNetwork)
          && multiset(CIDRs(s.networkStatus.value.clusterNetwork)) ==
             multiset(CIDRs(s.appliedCluster.value.clusterNetwork))
          && MTUOption(lib, s.appliedOper.value) == Some(Int(s.networkStatus.value.mtu)))
  }

  ghost predicate DistinctCIDRs(network: NetworkSpec) {
    NoDup(network.serviceNetwork) && NoDup(CIDRs(network.clusterNetwork))
  }

  ghost predicate DistinctInputs(m: Move) {
    m.Reconcile? && m.inputs.network.Fetched? ==> DistinctCIDRs(m.inputs.network.value)
  }

  ghost predicate DistinctApplied(s: State) {
    s.appliedCluster.Some? ==> DistinctCIDRs(s.appliedCluster.value)
  }

  /** What `ApplyConfig` never touches. */
  lemma ApplyConfigFrame(e: Setting, s: State, network: Option<NetworkSpec>, spec: Spec, confDir: string, f: Faults)
    requires network.Some? ==> network.value.serviceNetwork != []
    ensures var r := ApplyConfig(e.lib, e.platform, e.templates, s, network, spec, confDir, f).state;
            r == s.(shared := r.shared, handed := r.handed, cluster := r.cluster, log := r.log)
  {
    var filled := Fill(e.lib, e.platform, network, spec).spec;
    ApplyFilledFrame(e, s, network.Some?, filled, confDir, f);
  }

  lemma ApplyFilledFrame(e: Setting, s: State, owned: bool, spec: Spec, confDir: string, f: Faults)
    ensures var r := ApplyFilled(e.templates, s, owned, spec, confDir, f).0;
            r == s.(shared := r.shared, handed := r.handed, cluster := r.cluster, log := r.log)
  {
    var applied := AppliedConfig(s, f);
    if applied.Fetched? {
      RollOutHolds(e, s, owned, spec, confDir, NeedApplyChange(applied.value, spec), f);
    }
  }

  /** Skipping the write is right: the lists that compare equal are permutations. */
  lemma UpdateKeepsAgreement(lib: Library, s: State, network: NetworkSpec, spec: Spec, f: Faults)
    requires IntegerMTU(lib, spec) && StatusAgrees(lib, s) && DistinctApplied(s)
    requires UpdateStatus(lib, s, network, spec, f).1
    ensures var s' := UpdateStatus(lib, s, network, spec, f).0;
            StatusAgrees(lib, Succeed(s', Some(network), spec))
  {
    if s.appliedCluster.Some? {
      SliceEqualIsPermutation(s.appliedCluster.value.serviceNetwork, network.serviceNetwork);
      SliceEqualIsPermutation(CIDRs(s.appliedCluster.value.clusterNetwork), CIDRs(network.clusterNetwork));
    }
  }

  lemma FullKeepsAgreement(e: Setting, s: State, network: NetworkSpec, spec: Spec, confDir: string, f: Faults)
    requires RoundTrips(e.lib) && network.serviceNetwork != [] && IntegerMTU(e.lib, spec) && e.platform == OpenShift
    requires StatusAgrees(e.lib, s) && DistinctApplied(s) && DistinctCIDRs(network)
    ensures var s' := FullOpenShift(e.lib, e.templates, s, network, spec, confDir, f).0;
            StatusAgrees(e.lib, s') && DistinctApplied(s')
  {
    hide ApplyConfig, Fill, DistinctCIDRs, MTUOption, CIDRs, DefaultMTUChange, ClusterNetworkChanged;
    var r := ApplyConfig(e.lib, OpenShift, e.templates, s, Some(network), spec, confDir, f);
    ApplyConfigFrame(e, s, Some(network), spec, confDir, f);
    if r.ok {
      ApplyOkFilled(e.lib, OpenShift, e.templates, s, Some(network), spec, confDir, f);
      FillKeepsIntegerMTU(e.lib, OpenShift, Some(network), spec);
      var u := UpdateStatus(e.lib, r.state, network, r.spec, f);
      if u.1 {
        UpdateKeepsAgreement(e.lib, r.state, network, r.spec, f);
      }
    }
  }

  lemma RoundKeepsAgreement(e: Setting, s: State, inputs: Inputs, f: Faults)
    requires Sane(e.lib, inputs) && e.platform == OpenShift
    requires StatusAgrees(e.lib, s) && DistinctApplied(s)
    requires inputs.network.Fetched? ==> DistinctCIDRs(inputs.network.value)
    ensures var s' := Round(e.lib, e.platform, e.templates, s, inputs, f).0;
            StatusAgrees(e.lib, s') && DistinctApplied(s')
  {
    hide FullOpenShift, MTUOption, CIDRs, DistinctCIDRs, IntegerMTU;
    if inputs.network.Fetched? && inputs.install.Fetched? && inputs.operatorNetwork.Fetched? {
      FullKeepsAgreement(e, s, inputs.network.value, inputs.install.value, inputs.operatorNetwork.value, f);
    }
  }

  /** Over any OpenShift run, with any faults and restarts, the last written network status has
      the service networks and cluster CIDRs of the applied cluster configuration, as
      multisets, and the default MTU of the applied operator configuration, although most
      rounds skip the write. */
  lemma {:induction false} NetworkStatusFollowsApplied(e: Setting, s: State, moves: seq<Move>)
    requires SaneRun(e, moves) && e.platform == OpenShift
    requires StatusAgrees(e.lib, s) && DistinctApplied(s)
    requires forall m :: m in moves ==> DistinctInputs(m)
    ensures StatusAgrees(e.lib, Run(e, s, moves)) && DistinctApplied(Run(e, s, moves))
  {
    if moves != [] {
      var before, m := moves[..|moves| - 1], moves[|moves| - 1];
      NetworkStatusFollowsApplied(e, s, before);
      assert SaneMove(e, m) && DistinctInputs(m);
      if m.Reconcile? {
        RoundKeepsAgreement(e, Run(e, s, before), m.inputs, m.faults);
      }
    }
  }
}
