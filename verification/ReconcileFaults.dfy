/** What a round that fails half way leaves behind, and exactly when the next one repairs it. */
module ReconcileFaults {
  import opened Basics
  import opened Configuration
  import opened Reconcilers
  import opened ReconcileRuns

  // ---------------------------------------------------------------------------
  // A round that fails half way, and the way back
  // ---------------------------------------------------------------------------

  /** Applying this object keeps the cluster in step with `spec`. */
  predicate Harmless(m: Manifest, spec: Spec) {
    && (m.ConfigMap? ==> m.data == ConfigsOf(spec))
    && (m.ControllerDeployment? || m.AgentDaemonSet? ==> m.image == spec.image)
  }

  /** The first `n` objects rendered for `spec` carry no difference to `held`. */
  ghost predicate Spares(templates: seq<Template>, held: Spec, spec: Spec, confDir: string, n: nat)
    requires n <= |templates|
  {
    forall i :: 0 <= i < n ==> Harmless(RenderOne(templates[i], spec, confDir), held)
  }

  lemma PartialApplyKeepsSyncIff(s: State, templates: seq<Template>, held: Spec, spec: Spec, confDir: string, n: nat)
    requires n <= |templates| && Holds(s.cluster, held)
    ensures Holds(ApplyUpTo(s, Render(templates, spec, confDir), n).cluster, held) <==>
            Spares(templates, held, spec, confDir, n)
  {
    ApplyStores(s, templates, spec, confDir, n);
    assert ConfigMapTemplate in templates[..n] ==> exists i :: 0 <= i < n && templates[i] == ConfigMapTemplate;
    assert DeploymentTemplate in templates[..n] ==> exists i :: 0 <= i < n && templates[i] == DeploymentTemplate;
    assert DaemonSetTemplate in templates[..n] ==> exists i :: 0 <= i < n && templates[i] == DaemonSetTemplate;
    forall i | 0 <= i < n ensures templates[i] in templates[..n] {
      assert templates[..n][i] == templates[i];
    }
  }

  /** The manifest has the two workloads that are shared. */
  predicate Shareable(templates: seq<Template>, spec: Spec, confDir: string) {
    var objs := Render(templates, spec, confDir);
    LastDaemonSet(objs, |objs|).Some? && LastDeployment(objs, |objs|).Some?
  }

  /** How many objects a roll-out applies: none if it gives up before, and otherwise those
      before the first failure, whatever happens after them. */
  function RolledCount(templates: seq<Template>, owned: bool, spec: Spec, confDir: string, f: Faults): (n: nat)
    ensures n <= |templates|
  {
    if f.renderOk && OwnersSet(owned, f, |templates|) && Shareable(templates, spec, confDir) then
      FirstFailure(f.applyOk, |templates|)
    else 0
  }

  /** How many objects `ApplyConfig` applies. */
  function AppliedCount(e: Setting, s: State, network: Option<NetworkSpec>, raw: Spec, confDir: string,
      f: Faults): (n: nat)
    requires network.Some? ==> network.value.serviceNetwork != []
    ensures n <= |e.templates|
  {
    var filled := Fill(e.lib, e.platform, network, raw);
    var applied := AppliedConfig(s, f);
    if filled.error.Some? || Validate(e.lib, network, filled.spec) != [] || !applied.Fetched? then 0
    else
      var changes := NeedApplyChange(applied.value, filled.spec);
      if !changes.agent && !changes.controller then 0
      else RolledCount(e.templates, network.Some?, filled.spec, confDir, f)
  }

  lemma RollOutKeepsSyncIff(e: Setting, s: State, owned: bool, held: Spec, spec: Spec, confDir: string,
      changes: Changes, f: Faults)
    requires Holds(s.cluster, held)
    ensures Holds(RollOut(s, e.templates, owned, spec, confDir, changes, f).0.cluster, held) <==>
              Spares(e.templates, held, spec, confDir, RolledCount(e.templates, owned, spec, confDir, f))
  {
    hide Render, LastDaemonSet, LastDeployment, DaemonSetsOf, DeploymentsOf, RelatedOf;
    hide OwnersSet, FirstFailure, ApplyUpTo, DeletePods, Holds;
    var objs := Render(e.templates, spec, confDir);
    if f.renderOk && OwnersSet(owned, f, |objs|) && Shareable(e.templates, spec, confDir) {
      var shared := Share(s, objs, f.mapped);
      var k := FirstFailure(f.applyOk, |objs|);
      PartialApplyKeepsSyncIff(shared, e.templates, held, spec, confDir, k);
      DeleteFrame(ApplyUpTo(shared, objs, k), changes, f);
    }
  }

  lemma ApplyConfigKeepsSyncIff(e: Setting, s: State, network: Option<NetworkSpec>, held: Spec, raw: Spec,
      confDir: string, f: Faults)
    requires network.Some? ==> network.value.serviceNetwork != []
    requires Holds(s.cluster, held)
    ensures Holds(ApplyConfig(e.lib, e.platform, e.templates, s, network, raw, confDir, f).state.cluster, held) <==>
              Spares(e.templates, held, Fill(e.lib, e.platform, network, raw).spec, confDir,
                     AppliedCount(e, s, network, raw, confDir, f))
  {
    hide Fill, Validate, RollOut, RolledCount, Holds;
    var spec := Fill(e.lib, e.platform, network, raw).spec;
    var applied := AppliedConfig(s, f);
    if applied.Fetched? {
      RollOutKeepsSyncIff(e, s, network.Some?, held, spec, confDir, NeedApplyChange(applied.value, spec), f);
    }
  }

  /** No object the round applies carries a difference to the configuration that is held. */
  ghost predicate RoundSpares(e: Setting, s: State, inputs: Inputs, held: Spec, f: Faults)
    requires Sane(e.lib, inputs)
  {
    Reaches(e, s, inputs) ==>
      Spares(e.templates, held,
             Fill(e.lib, e.platform, NetworkOf(e, inputs), inputs.install.value).spec, ConfDirOf(e, inputs),
             AppliedCount(e, s, NetworkOf(e, inputs), inputs.install.value, ConfDirOf(e, inputs), f))
  }

  /** On either platform, with any manifest and any faults: a round that does not finish leaves
      the cluster in step with the applied configuration exactly when no object it applied before
      its first failure carries a difference. */
  lemma FailedRoundKeepsSyncIff(e: Setting, s: State, inputs: Inputs, f: Faults)
    requires Sane(e.lib, inputs) && InSync(s) && s.appliedOper.Some?
    requires Round(e.lib, e.platform, e.templates, s, inputs, f).1 != Finished
    ensures InSync(Round(e.lib, e.platform, e.templates, s, inputs, f).0) <==>
              RoundSpares(e, s, inputs, s.appliedOper.value, f)
  {
    hide Round, Holds, Spares, ApplyConfig;
    UnfinishedKeepsMemory(e, s, inputs, f);
    RoundCluster(e, s, inputs, f);
    if Reaches(e, s, inputs) {
      ApplyConfigKeepsSyncIff(e, s, NetworkOf(e, inputs), s.appliedOper.value, inputs.install.value,
          ConfDirOf(e, inputs), f);
    }
  }

  /** When the user reverts after such a round, the round for the old resources writes nothing
      and reports success, whatever faults it meets; so the cluster is in step again exactly
      under the same condition. */
  lemma RevertKeepsSyncIff(e: Setting, s: State, inputs: Inputs, f: Faults, back: Inputs, g: Faults)
    requires Sane(e.lib, inputs) && Sane(e.lib, back) && InSync(s) && LastFinished(e, s, back)
    requires Round(e.lib, e.platform, e.templates, s, inputs, f).1 == Errored
    requires back.request != Unrelated && (e.platform == OpenShift ==> back.operatorNetwork.Fetched?)
    ensures var t := Round(e.lib, e.platform, e.templates, s, inputs, f).0;
            var u := Round(e.lib, e.platform, e.templates, t, back, g);
            && Calm(t, u.0) && u.1 in {Unchanged, Finished}
            && (InSync(u.0) <==> RoundSpares(e, s, inputs, s.appliedOper.value, f))
  {
    hide Round, RoundSpares, Holds, Fill;
    UnfinishedKeepsMemory(e, s, inputs, f);
    FailedRoundKeepsSyncIff(e, s, inputs, f);
    ReconcileAgainIsCalm(e, Round(e.lib, e.platform, e.templates, s, inputs, f).0, back, g);
  }

  /** Apply answers that fail at object `k` and nowhere else. */
  function FailingAt(k: nat): Faults {
    Faults(ReadOk, true, true, _ => true, _ => true, i => i != k, true, true, true)
  }

  /** The gap the invariant's hypothesis hides.  A round towards another agent configuration
      fails after its ConfigMap was applied, and the user reverts: the next round, without any
      fault, finishes and writes nothing, and the cluster keeps the abandoned configuration. */
  lemma RevertLeavesAbandonedConfig(e: Setting, s: State, a: Spec, b: Spec)
    requires e.platform == Kubernetes && RoundTrips(e.lib)
    requires e.templates == [ConfigMapTemplate, DaemonSetTemplate, DeploymentTemplate]
    requires Fill(e.lib, Kubernetes, None, a).error.None? && Fill(e.lib, Kubernetes, None, b).error.None?
    requires s.appliedOper == Some(Fill(e.lib, Kubernetes, None, a).spec) && InSync(s)
    requires Fill(e.lib, Kubernetes, None, b).spec.agent != s.appliedOper.value.agent
    ensures var towards := FullKubernetes(e.lib, e.templates, s, b, FailingAt(1));
            var back := FullKubernetes(e.lib, e.templates, towards.0, a, FailingAt(3));
            && towards.1 == Errored && back.1 == Finished
            && Calm(towards.0, back.0)
            && back.0.appliedOper == s.appliedOper && !InSync(back.0)
  {
    var filled := Fill(e.lib, Kubernetes, None, b).spec;
    var objs := Render(e.templates, filled, DEFAULT_CNI_DIR);
    FillThenValidate(e.lib, Kubernetes, None, b);
    PartialRollOut(e, s, filled, 1);
    var towards := FullKubernetes(e.lib, e.templates, s, b, FailingAt(1)).0;
    KubernetesAgainIsCalm(e, towards, a, FailingAt(3));
  }

  lemma PartialRollOut(e: Setting, s: State, spec: Spec, k: nat)
    requires e.templates == [ConfigMapTemplate, DaemonSetTemplate, DeploymentTemplate] && 1 <= k < 3
    requires s.appliedOper.Some? && s.appliedOper.value.agent != spec.agent
    ensures var r := ApplyFilled(e.templates, s, false, spec, DEFAULT_CNI_DIR, FailingAt(k));
            && !r.1 && r.0.cluster.configMap == Some(ConfigsOf(spec)) && r.0.appliedOper == s.appliedOper
  {
    var objs := Render(e.templates, spec, DEFAULT_CNI_DIR);
    var shared := Share(s, objs, FailingAt(k).mapped);
    assert LastDaemonSet(objs, 3) == LastDaemonSet(objs, 2);
    assert FirstFailure(FailingAt(k).applyOk, 3) == k;
    ApplyFrame(shared, objs, k);
    ApplyStores(shared, e.templates, spec, DEFAULT_CNI_DIR, k);
    assert e.templates[..k][0] == ConfigMapTemplate;
  }

  // ---------------------------------------------------------------------------
  // What the next round repairs
  // ---------------------------------------------------------------------------

  ghost predicate Applies(s: State, s': State) {
    exists i :: |s.log| <= i < |s'.log| && s'.log[i].Applied?
  }

  lemma InertKeepsApplies(s: State, u: State, v: State)
    requires s.log <= u.log && Inert(u, v)
    ensures Applies(s, v) <==> Applies(s, u)
  {
    assert forall i :: 0 <= i < |u.log| ==> v.log[i] == u.log[i];
  }

  lemma {:induction false} LastsExist(objs: seq<Manifest>, n: nat, i: nat)
    requires i < n <= |objs|
    ensures objs[i].AgentDaemonSet? ==> LastDaemonSet(objs, n).Some?
    ensures objs[i].ControllerDeployment? ==> LastDeployment(objs, n).Some?
  {
    if i < n - 1 {
      LastsExist(objs, n - 1, i);
    }
  }

  lemma CompleteIsShareable(templates: seq<Template>, spec: Spec, confDir: string)
    requires Complete(templates)
    ensures Shareable(templates, spec, confDir)
  {
    var objs := Render(templates, spec, confDir);
    var i :| 0 <= i < |templates| && templates[i] == DaemonSetTemplate;
    var j :| 0 <= j < |templates| && templates[j] == DeploymentTemplate;
    LastsExist(objs, |objs|, i);
    LastsExist(objs, |objs|, j);
  }

  lemma FullRollOutApplies(e: Setting, s: State, owned: bool, spec: Spec, confDir: string, changes: Changes, f: Faults)
    requires Complete(e.templates) && NoFaults(f)
    ensures var r := RollOut(s, e.templates, owned, spec, confDir, changes, f);
            && r.1 && r.0.appliedOper == s.appliedOper && s.log <= r.0.log && Applies(s, r.0)
            && Holds(r.0.cluster, spec)
  {
    hide LastDaemonSet, LastDeployment, DaemonSetsOf, DeploymentsOf, RelatedOf, FirstFailure, ApplyUpTo, Render;
    CompleteIsShareable(e.templates, spec, confDir);
    var objs := Render(e.templates, spec, confDir);
    var shared := Share(s, objs, f.mapped);
    var applied := ApplyUpTo(shared, objs, |objs|);
    ApplyFrame(shared, objs, |objs|);
    ApplyStores(shared, e.templates, spec, confDir, |objs|);
    assert e.templates[..|objs|] == e.templates;
    DeleteFrame(applied, changes, f);
    assert applied.log[|s.log| + 0] == Applied(objs[0]);
    DeleteExtends(applied, changes, f);
  }

  lemma DeleteExtends(s: State, changes: Changes, f: Faults)
    ensures s.log <= DeletePods(s, changes, f).0.log
  {
  }

  /** A change is found: against the memory if there is one, and otherwise in the two objects
      that are read back. */
  predicate Found(s: State, filled: Spec) {
    if s.appliedOper.Some? then
      var changes := NeedApplyChange(s.appliedOper, filled); changes.agent || changes.controller
    else !ReadsAs(s.cluster, filled)
  }

  /** From any state, what a fault-free `ApplyConfig` does: it applies everything if it finds a
      change and nothing otherwise, so afterwards the cluster holds the configuration exactly if
      a change was found or the cluster held it before. */
  lemma CleanApplyRepairsIff(e: Setting, s: State, network: Option<NetworkSpec>, raw: Spec, filled: Spec,
      confDir: string, f: Faults)
    requires network.Some? ==> network.value.serviceNetwork != []
    requires RoundTrips(e.lib) && Fill(e.lib, e.platform, network, raw) == Filled(filled, None)
    requires Complete(e.templates) && NoFaults(f)
    ensures var r := ApplyConfig(e.lib, e.platform, e.templates, s, network, raw, confDir, f);
            && r.ok && r.spec == filled && r.state.appliedOper == s.appliedOper && s.log <= r.state.log
            && (Applies(s, r.state) <==> Found(s, filled))
            && (!Found(s, filled) ==> r.state == s)
            && (Holds(r.state.cluster, filled) <==> Found(s, filled) || Holds(s.cluster, filled))
  {
    hide Fill, Validate, RollOut, Complete;
    FillThenValidate(e.lib, e.platform, network, raw);
    var applied := AppliedConfig(s, f);
    if Found(s, filled) {
      FullRollOutApplies(e, s, network.Some?, filled, confDir, NeedApplyChange(applied.value, filled), f);
    }
  }

  /** The spec a round fills its AntreaInstall to. */
  ghost function FilledBy(e: Setting, inputs: Inputs): Filled
    requires Sane(e.lib, inputs) && inputs.install.Fetched?
  {
    Fill(e.lib, e.platform, NetworkOf(e, inputs), inputs.install.value)
  }

  lemma StatusSucceeds(e: Setting, s: State, network: NetworkSpec, raw: Spec, filled: Spec, g: Faults)
    requires RoundTrips(e.lib) && network.serviceNetwork != [] && IntegerMTU(e.lib, raw) && IntegerMTU(e.lib, filled)
    requires Fill(e.lib, OpenShift, Some(network), raw) == Filled(filled, None)
    requires KnownMTU(e, s) && g.statusOk
    ensures UpdateStatus(e.lib, s, network, filled, g).1
  {
    MTUChangeHasNoError(e.lib, OpenShift, Some(network), s.appliedOper, raw);
  }

  /** How a round ends that gets as far as `ApplyConfig`. */
  lemma RoundEnds(e: Setting, s: State, inputs: Inputs, f: Faults)
    requires Sane(e.lib, inputs) && Reaches(e, s, inputs)
    ensures var applied := ApplyConfig(e.lib, e.platform, e.templates, s, NetworkOf(e, inputs), inputs.install.value,
                                       ConfDirOf(e, inputs), f);
            var r := Round(e.lib, e.platform, e.templates, s, inputs, f);
            && (!applied.ok ==> r == (applied.state, Errored))
            && (applied.ok && KnownMTU(e, applied.state) && f.statusOk ==> r.1 == Finished)
  {
    hide Fill, ApplyConfig, UpdateStatus, MTUOption;
    if e.platform == OpenShift {
      var network, raw, confDir := inputs.network.value, inputs.install.value, inputs.operatorNetwork.value;
      var applied := ApplyConfig(e.lib, OpenShift, e.templates, s, Some(network), raw, confDir, f);
      if applied.ok {
        ApplyOkFilled(e.lib, OpenShift, e.templates, s, Some(network), raw, confDir, f);
        FillKeepsIntegerMTU(e.lib, OpenShift, Some(network), raw);
        if KnownMTU(e, applied.state) && f.statusOk {
          StatusSucceeds(e, applied.state, network, raw, applied.spec, f);
        }
      }
    }
  }

  /** The same for whole rounds on both platforms, which always report success. */
  lemma CleanRoundRepairsIff(e: Setting, s: State, inputs: Inputs, f: Faults)
    requires Sane(e.lib, inputs) && Complete(e.templates) && NoFaults(f) && KnownMTU(e, s)
    requires Reaches(e, s, inputs) && FilledBy(e, inputs).error.None?
    ensures var r, filled := Round(e.lib, e.platform, e.templates, s, inputs, f), FilledBy(e, inputs).spec;
            && r.1 == Finished
            && (Applies(s, r.0) <==> Found(s, filled))
            && (!Found(s, filled) ==> r.0.cluster == s.cluster)
            && (Holds(r.0.cluster, filled) <==> Found(s, filled) || Holds(s.cluster, filled))
  {
    hide Round, Fill, ApplyConfig, Found, Holds, Applies, Complete;
    var network, raw, confDir := NetworkOf(e, inputs), inputs.install.value, ConfDirOf(e, inputs);
    CleanApplyRepairsIff(e, s, network, raw, FilledBy(e, inputs).spec, confDir, f);
    RoundEnds(e, s, inputs, f);
    RoundCluster(e, s, inputs, f);
    var applied := ApplyConfig(e.lib, e.platform, e.templates, s, network, raw, confDir, f).state;
    InertKeepsApplies(s, applied, Round(e.lib, e.platform, e.templates, s, inputs, f).0);
  }

  // ---------------------------------------------------------------------------
  // A round whose applies fail, and the next one for the same resources
  // ---------------------------------------------------------------------------

  /** The round finds a change, gets to applying, and stops at object `k`. */
  predicate StopsAt(e: Setting, s: State, owned: bool, filled: Spec, f: Faults, k: nat) {
    && AppliedConfig(s, f).Fetched?
    && (var changes := NeedApplyChange(AppliedConfig(s, f).value, filled); changes.agent || changes.controller)
    && f.renderOk && OwnersSet(owned, f, |e.templates|)
    && k == FirstFailure(f.applyOk, |e.templates|) && k < |e.templates|
  }

  /** With the first `k` objects applied, the cluster reads as `filled`. */
  predicate ReadsAfter(templates: seq<Template>, k: nat, c: Cluster, filled: Spec)
    requires k <= |templates|
  {
    && (ConfigMapTemplate in templates[..k] || c.configMap == Some(ConfigsOf(filled)))
    && (DeploymentTemplate in templates[..k] || c.image == Some(filled.image))
  }

  /** With the first `k` objects applied, the agents run this image. */
  function AgentAfter(templates: seq<Template>, k: nat, c: Cluster, filled: Spec): Option<string>
    requires k <= |templates|
  {
    if DaemonSetTemplate in templates[..k] then Some(filled.image) else AgentImage(c)
  }

  /** The first attempt fails and leaves exactly the first `k` objects. */
  lemma FirstAttempt(e: Setting, s: State, network: Option<NetworkSpec>, raw: Spec, filled: Spec, confDir: string,
      f: Faults, k: nat)
    requires network.Some? ==> network.value.serviceNetwork != []
    requires RoundTrips(e.lib) && Fill(e.lib, e.platform, network, raw) == Filled(filled, None)
    requires Complete(e.templates) && StopsAt(e, s, network.Some?, filled, f, k)
    ensures var r := ApplyConfig(e.lib, e.platform, e.templates, s, network, raw, confDir, f);
            && !r.ok && r.state.appliedOper == s.appliedOper
            && (ReadsAs(r.state.cluster, filled) <==> ReadsAfter(e.templates, k, s.cluster, filled))
            && AgentImage(r.state.cluster) == AgentAfter(e.templates, k, s.cluster, filled)
  {
    hide Fill, Validate, LastDaemonSet, LastDeployment, DaemonSetsOf, DeploymentsOf, RelatedOf;
    hide OwnersSet, FirstFailure, ApplyUpTo, Complete, Render, NeedApplyChange, ConfigsOf;
    FillThenValidate(e.lib, e.platform, network, raw);
    CompleteIsShareable(e.templates, filled, confDir);
    var objs := Render(e.templates, filled, confDir);
    var shared := Share(s, objs, f.mapped);
    ApplyFrame(shared, objs, k);
    ApplyStores(shared, e.templates, filled, confDir, k);
  }

  /** From any state, on either platform: a round finds a change and its applies fail at object
      `k`, and the next round, for the same resources and without faults, reports success.  It
      applies everything if the operator still remembers what it had applied, or if the two
      objects that are read back do not yet read as the new configuration; and otherwise
      nothing.  So the cluster ends up with the configuration exactly if a change was found
      again or the agents were reached before the failure. */
  lemma RetryRepairsIff(e: Setting, s: State, inputs: Inputs, f: Faults, k: nat, g: Faults)
    requires Sane(e.lib, inputs) && Complete(e.templates) && KnownMTU(e, s) && NoFaults(g)
    requires Reaches(e, s, inputs) && FilledBy(e, inputs).error.None?
    requires StopsAt(e, s, NetworkOf(e, inputs).Some?, FilledBy(e, inputs).spec, f, k)
    ensures var first := Round(e.lib, e.platform, e.templates, s, inputs, f);
            var second := Round(e.lib, e.platform, e.templates, first.0, inputs, g);
            var filled := FilledBy(e, inputs).spec;
            var again := s.appliedOper.Some? || !ReadsAfter(e.templates, k, s.cluster, filled);
            && first.1 == Errored && second.1 == Finished
            && (Applies(first.0, second.0) <==> again)
            && (!again ==> AgentImage(second.0.cluster) == AgentAfter(e.templates, k, s.cluster, filled))
            && (Holds(second.0.cluster, filled) <==>
                  again || AgentAfter(e.templates, k, s.cluster, filled) == Some(filled.image))
  {
    hide Round, Fill, ApplyConfig, Complete, NoFaults, ReadsAfter, AgentAfter, AgentImage, Applies;
    var network, raw, filled := NetworkOf(e, inputs), inputs.install.value, FilledBy(e, inputs).spec;
    FirstAttempt(e, s, network, raw, filled, ConfDirOf(e, inputs), f, k);
    RoundEnds(e, s, inputs, f);
    UnfinishedKeepsMemory(e, s, inputs, f);
    var t := Round(e.lib, e.platform, e.templates, s, inputs, f).0;
    CleanRoundRepairsIff(e, t, inputs, g);
  }

  /** Nothing of what the reconciler reads back has been installed. */
  predicate Bare(s: State) {
    s.appliedOper.None? && s.cluster.configMap.None? && s.cluster.image.None?
  }

  /** A first installation that fails half way is taken for complete exactly when the ConfigMap
      and the controller deployment were applied before the failure, whether or not the agents
      were. */
  lemma PartialInstallLooksCompleteIff(e: Setting, s: State, inputs: Inputs, f: Faults, k: nat, g: Faults)
    requires Sane(e.lib, inputs) && Complete(e.templates) && NoFaults(g) && Bare(s)
    requires Reaches(e, s, inputs) && FilledBy(e, inputs).error.None?
    requires StopsAt(e, s, NetworkOf(e, inputs).Some?, FilledBy(e, inputs).spec, f, k)
    ensures var first := Round(e.lib, e.platform, e.templates, s, inputs, f);
            var second := Round(e.lib, e.platform, e.templates, first.0, inputs, g);
            var complete := ConfigMapTemplate in e.templates[..k] && DeploymentTemplate in e.templates[..k];
            && first.1 == Errored && second.1 == Finished
            && (!Applies(first.0, second.0) <==> complete)
            && (complete && AgentImage(s.cluster).None? && DaemonSetTemplate !in e.templates[..k] ==>
                  AgentImage(second.0.cluster).None?)
  {
    hide Round, Fill, AgentImage, Applies;
    RetryRepairsIff(e, s, inputs, f, k, g);
  }

  /** A restarted operator over an installed cluster: if the round for another image reaches the
      ConfigMap and the controller deployment but not the agents, the next one reports success
      and leaves the agents on the image they had. */
  lemma RestartedUpgradeKeepsOldAgents(e: Setting, s: State, inputs: Inputs, f: Faults, k: nat, g: Faults)
    requires Sane(e.lib, inputs) && Complete(e.templates) && NoFaults(g) && s.appliedOper.None?
    requires Reaches(e, s, inputs) && FilledBy(e, inputs).error.None?
    requires StopsAt(e, s, NetworkOf(e, inputs).Some?, FilledBy(e, inputs).spec, f, k)
    requires ConfigMapTemplate in e.templates[..k] && DeploymentTemplate in e.templates[..k]
    requires DaemonSetTemplate !in e.templates[..k] && AgentImage(s.cluster) != Some(FilledBy(e, inputs).spec.image)
    ensures var first := Round(e.lib, e.platform, e.templates, s, inputs, f);
            var second := Round(e.lib, e.platform, e.templates, first.0, inputs, g);
            && second.1 == Finished && !Applies(first.0, second.0)
            && AgentImage(second.0.cluster) == AgentImage(s.cluster)
            && !Holds(second.0.cluster, FilledBy(e, inputs).spec)
  {
    hide Round, Fill, AgentImage, Applies;
    RetryRepairsIff(e, s, inputs, f, k, g);
  }

  // ---------------------------------------------------------------------------
  // A change that follows a restart
  // ---------------------------------------------------------------------------

  lemma InertKeepsDeletes(s: State, u: State, v: State, component: Component)
    requires s.log <= u.log && Inert(u, v)
    ensures Deletes(s, v, component) <==> Deletes(s, u, component)
  {
    assert forall i :: 0 <= i < |u.log| ==> v.log[i] == u.log[i];
  }

  lemma ForgetfulRollOut(e: Setting, s: State, owned: bool, spec: Spec, confDir: string, changes: Changes, f: Faults)
    requires s.appliedOper.None?
    ensures var s' := RollOut(s, e.templates, owned, spec, confDir, changes, f).0;
            s.log <= s'.log && forall c :: !Deletes(s, s', c)
  {
    hide Render, LastDaemonSet, LastDeployment, DaemonSetsOf, DeploymentsOf, RelatedOf;
    hide OwnersSet, FirstFailure, ApplyUpTo;
    var objs := Render(e.templates, spec, confDir);
    if f.renderOk && OwnersSet(owned, f, |objs|) && Shareable(e.templates, spec, confDir) {
      var shared, k := Share(s, objs, f.mapped), FirstFailure(f.applyOk, |objs|);
      var applied := ApplyUpTo(shared, objs, k);
      ApplyFrame(shared, objs, k);
      forall i | |s.log| <= i < |applied.log| ensures applied.log[i].Applied? {
        assert applied.log[|s.log| + (i - |s.log|)] == Applied(objs[i - |s.log|]);
      }
    }
  }

  /** Without a memory no round deletes a pod, whatever it is for and whatever fails. */
  lemma ForgetfulRoundDeletesNothing(e: Setting, s: State, inputs: Inputs, f: Faults, component: Component)
    requires Sane(e.lib, inputs) && s.appliedOper.None?
    ensures !Deletes(s, Round(e.lib, e.platform, e.templates, s, inputs, f).0, component)
  {
    hide Round, Fill, Validate, RollOut;
    RoundCluster(e, s, inputs, f);
    var s' := Round(e.lib, e.platform, e.templates, s, inputs, f).0;
    if Reaches(e, s, inputs) {
      var network, confDir := NetworkOf(e, inputs), ConfDirOf(e, inputs);
      var filled, applied := FilledBy(e, inputs).spec, AppliedConfig(s, f);
      var r := ApplyConfig(e.lib, e.platform, e.templates, s, network, inputs.install.value, confDir, f).state;
      if applied.Fetched? {
        ForgetfulRollOut(e, s, network.Some?, filled, confDir, NeedApplyChange(applied.value, filled), f);
      }
      InertKeepsDeletes(s, r, s', component);
    }
  }

  lemma CleanRoundDeletesExactly(e: Setting, s: State, inputs: Inputs, f: Faults)
    requires Sane(e.lib, inputs) && Complete(e.templates) && NoFaults(f)
    requires Reaches(e, s, inputs) && FilledBy(e, inputs).error.None?
    requires s.appliedOper.Some? && ReadsAs(s.cluster, s.appliedOper.value)
    ensures var s' := Round(e.lib, e.platform, e.templates, s, inputs, f).0;
            var held, filled := s.appliedOper.value, FilledBy(e, inputs).spec;
            && (Deletes(s, s', Agent) <==>
                  held.image == filled.image && (held.agent != filled.agent || held.cni != filled.cni))
            && (Deletes(s, s', Controller) <==> held.image == filled.image && held.controller != filled.controller)
  {
    hide Round, Fill, ApplyFilled, Complete, Deletes, ReadsAs;
    var network, raw, confDir := NetworkOf(e, inputs), inputs.install.value, ConfDirOf(e, inputs);
    var filled := FilledBy(e, inputs).spec;
    CleanApplyRepairsIff(e, s, network, raw, filled, confDir, f);
    PodsDeletedExactly(e, s, network.Some?, s.appliedOper.value, filled, confDir, f);
    RoundCluster(e, s, inputs, f);
    var r := ApplyConfig(e.lib, e.platform, e.templates, s, network, raw, confDir, f).state;
    InertKeepsDeletes(s, r, Round(e.lib, e.platform, e.templates, s, inputs, f).0, Agent);
    InertKeepsDeletes(s, r, Round(e.lib, e.platform, e.templates, s, inputs, f).0, Controller);
  }

  /** After a fault-free run, a fault-free round for a changed configuration applies it either
      way; it deletes the pods of the changed parts if the image stays, as the operator promises,
      but none if the operator was restarted in between. */
  lemma RestartLosesPodDeletion(e: Setting, s: State, moves: seq<Move>, inputs: Inputs, f: Faults)
    requires SaneRun(e, moves) && Complete(e.templates) && InSync(s) && KnownMTU(e, s)
    requires forall m :: m in moves && m.Reconcile? ==> NoFaults(m.faults)
    requires Sane(e.lib, inputs) && NoFaults(f) && Run(e, s, moves).appliedOper.Some?
    requires Reaches(e, Run(e, s, moves), inputs) && FilledBy(e, inputs).error.None?
    ensures var v, filled := Run(e, s, moves), FilledBy(e, inputs).spec;
            var w := Step(e, v, Restart);
            var kept := Round(e.lib, e.platform, e.templates, v, inputs, f);
            var lost := Round(e.lib, e.platform, e.templates, w, inputs, f);
            var held := v.appliedOper.value;
            && kept.1 == Finished && Holds(kept.0.cluster, filled)
            && lost.1 == Finished && Holds(lost.0.cluster, filled)
            && (Deletes(v, kept.0, Agent) <==>
                  held.image == filled.image && (held.agent != filled.agent || held.cni != filled.cni))
            && (Deletes(v, kept.0, Controller) <==> held.image == filled.image && held.controller != filled.controller)
            && !Deletes(w, lost.0, Agent) && !Deletes(w, lost.0, Controller)
  {
    hide Round, Run, Fill, Complete, NoFaults, Deletes, Applies;
    ClusterFollowsApplied(e, s, moves);
    KnownMTUOverRuns(e, s, moves);
    var v := Run(e, s, moves);
    var w := Step(e, v, Restart);
    CleanRoundRepairsIff(e, v, inputs, f);
    CleanRoundDeletesExactly(e, v, inputs, f);
    CleanRoundRepairsIff(e, w, inputs, f);
    ForgetfulRoundDeletesNothing(e, w, inputs, f, Agent);
    ForgetfulRoundDeletesNothing(e, w, inputs, f, Controller);
  }
}
