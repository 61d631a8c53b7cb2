/** How a round ends: which level it raises, with which reason, and when it clears them. */
module ReconcileReports {
  import opened Basics
  import opened Configuration
  import opened Reconcilers
  import opened ReconcileRuns
  import opened ReconcileFaults

  /** Between `s` and `s'` no level was raised or cleared. */
  predicate Silent(s: State, s': State) {
    && s.log <= s'.log
    && forall i :: |s.log| <= i < |s'.log| ==> !s'.log[i].Raised? && !s'.log[i].Cleared?
  }

  /** Exactly one level was raised, as the last thing, and none cleared. */
  predicate EndsRaised(s: State, s': State, level: Level, reason: string) {
    && |s.log| < |s'.log| && s.log <= s'.log && s'.log[|s'.log| - 1] == Raised(level, reason)
    && forall i :: |s.log| <= i < |s'.log| - 1 ==> !s'.log[i].Raised? && !s'.log[i].Cleared?
  }

  /** Both levels were cleared, as the last thing, and none raised. */
  predicate EndsCleared(s: State, s': State) {
    && |s.log| + 2 <= |s'.log| && s.log <= s'.log
    && s'.log[|s'.log| - 2..] == [Cleared(CLUSTER_CONFIG), Cleared(OPERATOR_CONFIG)]
    && forall i :: |s.log| <= i < |s'.log| - 2 ==> !s'.log[i].Raised? && !s'.log[i].Cleared?
  }

  lemma RaiseEnds(s: State, u: State, level: Level, reason: string)
    requires Silent(s, u)
    ensures EndsRaised(s, Raise(u, level, reason), level, reason)
  {
  }

  lemma {:induction false} ApplyIsSilent(s: State, u: State, objs: seq<Manifest>, n: nat)
    requires n <= |objs| && u.log == s.log
    ensures Silent(s, ApplyUpTo(u, objs, n))
  {
    if n > 0 {
      ApplyIsSilent(s, u, objs, n - 1);
    }
  }

  lemma DeleteReports(s: State, u: State, changes: Changes, f: Faults)
    requires Silent(s, u)
    ensures var r := DeletePods(u, changes, f);
            if r.1 then Silent(s, r.0) else EndsRaised(s, r.0, OPERATOR_CONFIG, "DeleteOldPodsError")
  {
  }

  /** Why a roll-out fails. */
  lemma RollOutReports(e: Setting, s: State, owned: bool, spec: Spec, confDir: string, changes: Changes, f: Faults)
    ensures var r := RollOut(s, e.templates, owned, spec, confDir, changes, f);
            if r.1 then Silent(s, r.0)
            else
              EndsRaised(s, r.0, OPERATOR_CONFIG,
                         if !f.renderOk then "RenderConfigError"
                         else if (owned && exists i :: 0 <= i < |e.templates| && f.mapped(i) && !f.ownerOk(i))
                                 || !Shareable(e.templates, spec, confDir)
                                 || (exists i :: 0 <= i < |e.templates| && !f.applyOk(i)) then "ApplyObjectsError"
                         else "DeleteOldPodsError")
  {
    hide Render, LastDaemonSet, LastDeployment, DaemonSetsOf, DeploymentsOf, RelatedOf;
    hide FirstFailure, ApplyUpTo, DeletePods, EndsRaised;
    var objs := Render(e.templates, spec, confDir);
    RaiseEnds(s, s, OPERATOR_CONFIG, "RenderConfigError");
    RaiseEnds(s, s, OPERATOR_CONFIG, "ApplyObjectsError");
    if f.renderOk && OwnersSet(owned, f, |objs|) && Shareable(e.templates, spec, confDir) {
      var shared, k := Share(s, objs, f.mapped), FirstFailure(f.applyOk, |objs|);
      ApplyIsSilent(s, shared, objs, k);
      RaiseEnds(s, ApplyUpTo(shared, objs, k), OPERATOR_CONFIG, "ApplyObjectsError");
      DeleteReports(s, ApplyUpTo(shared, objs, k), changes, f);
    }
  }

  /** The reason `ApplyConfig` reports when it fails. */
  ghost function ApplyReason(e: Setting, s: State, network: Option<NetworkSpec>, raw: Spec, confDir: string,
      f: Faults): string
    requires network.Some? ==> network.value.serviceNetwork != []
  {
    var filled := Fill(e.lib, e.platform, network, raw);
    if filled.error.Some? then "FillConfigurationsError"
    else if !AppliedConfig(s, f).Fetched? then "InternalError"
    else if !f.renderOk then "RenderConfigError"
    else if (network.Some? && exists i :: 0 <= i < |e.templates| && f.mapped(i) && !f.ownerOk(i))
            || !Shareable(e.templates, filled.spec, confDir)
            || (exists i :: 0 <= i < |e.templates| && !f.applyOk(i)) then "ApplyObjectsError"
    else "DeleteOldPodsError"
  }

  lemma ApplyReports(e: Setting, s: State, network: Option<NetworkSpec>, raw: Spec, confDir: string, f: Faults)
    requires network.Some? ==> network.value.serviceNetwork != []
    requires RoundTrips(e.lib)
    ensures var r := ApplyConfig(e.lib, e.platform, e.templates, s, network, raw, confDir, f);
            if r.ok then Silent(s, r.state)
            else EndsRaised(s, r.state, OPERATOR_CONFIG, ApplyReason(e, s, network, raw, confDir, f))
  {
    hide Fill, Validate, RollOut, EndsRaised, OwnersSet, Shareable, FirstFailure;
    var filled := Fill(e.lib, e.platform, network, raw);
    RaiseEnds(s, s, OPERATOR_CONFIG, "FillConfigurationsError");
    RaiseEnds(s, s, OPERATOR_CONFIG, "InternalError");
    if filled.error.None? {
      FillThenValidate(e.lib, e.platform, network, raw);
      var applied := AppliedConfig(s, f);
      if applied.Fetched? {
        RollOutReports(e, s, network.Some?, filled.spec, confDir, NeedApplyChange(applied.value, filled.spec), f);
      }
    }
  }

  lemma SucceedEnds(s: State, u: State, network: Option<NetworkSpec>, spec: Spec)
    requires Silent(s, u)
    ensures EndsCleared(s, Succeed(u, network, spec))
  {
    var v := Succeed(u, network, spec);
    assert v.log[|v.log| - 2..] == [Cleared(CLUSTER_CONFIG), Cleared(OPERATOR_CONFIG)];
  }

  /** A round that gets as far as applying its configuration clears both levels exactly when it
      finishes, raising none; and when it fails it raises one level, with the reason of the first
      step that failed: the cluster level if writing the network status failed, and the operator
      level otherwise. */
  lemma RoundReports(e: Setting, s: State, inputs: Inputs, f: Faults)
    requires Sane(e.lib, inputs) && Reaches(e, s, inputs) && KnownMTU(e, s)
    ensures var network, raw, confDir := NetworkOf(e, inputs), inputs.install.value, ConfDirOf(e, inputs);
            var r := Round(e.lib, e.platform, e.templates, s, inputs, f);
            && r.1 in {Finished, Errored}
            && (r.1 == Finished ==> EndsCleared(s, r.0))
            && (r.1 == Errored ==>
                  if ApplyConfig(e.lib, e.platform, e.templates, s, network, raw, confDir, f).ok then
                    && e.platform == OpenShift && !f.statusOk
                    && EndsRaised(s, r.0, CLUSTER_CONFIG, "UpdateNetworkStatusError")
                  else EndsRaised(s, r.0, OPERATOR_CONFIG, ApplyReason(e, s, network, raw, confDir, f)))
  {
    hide Fill, ApplyConfig, UpdateStatus, EndsRaised, EndsCleared, ApplyReason, MTUOption;
    var network, raw, confDir := NetworkOf(e, inputs), inputs.install.value, ConfDirOf(e, inputs);
    ApplyReports(e, s, network, raw, confDir, f);
    ApplyConfigFrame(e, s, network, raw, confDir, f);
    var a := ApplyConfig(e.lib, e.platform, e.templates, s, network, raw, confDir, f);
    if a.ok {
      if e.platform == Kubernetes {
        SucceedEnds(s, a.state, None, a.spec);
      } else {
        ApplyOkFilled(e.lib, OpenShift, e.templates, s, network, raw, confDir, f);
        FillKeepsIntegerMTU(e.lib, OpenShift, network, raw);
        StatusOnlyFailsToWrite(e, s, a.state, network.value, raw, a.spec, f);
        SucceedEnds(s, if UpdateStatus(e.lib, a.state, network.value, a.spec, f).1
                       then UpdateStatus(e.lib, a.state, network.value, a.spec, f).0 else a.state, network, a.spec);
      }
    }
  }

  lemma StatusOnlyFailsToWrite(e: Setting, s: State, u: State, network: NetworkSpec, raw: Spec, filled: Spec, f: Faults)
    requires RoundTrips(e.lib) && network.serviceNetwork != [] && IntegerMTU(e.lib, raw) && IntegerMTU(e.lib, filled)
    requires Fill(e.lib, OpenShift, Some(network), raw) == Filled(filled, None)
    requires KnownMTU(e, u) && Silent(s, u)
    ensures var r := UpdateStatus(e.lib, u, network, filled, f);
            if r.1 then Silent(s, r.0)
            else !f.statusOk && EndsRaised(s, r.0, CLUSTER_CONFIG, "UpdateNetworkStatusError")
  {
    MTUChangeHasNoError(e.lib, OpenShift, Some(network), u.appliedOper, raw);
    RaiseEnds(s, u, CLUSTER_CONFIG, "UpdateNetworkStatusError");
  }

  /** The early exits, in the order in which they are taken; only a missing or unreadable resource
      raises a level, and an unreadable operator Network none. */
  lemma EarlyExits(e: Setting, s: State, inputs: Inputs, f: Faults)
    requires Sane(e.lib, inputs) && !Reaches(e, s, inputs)
    ensures var r := Round(e.lib, e.platform, e.templates, s, inputs, f);
            var openShift := e.platform == OpenShift;
            if inputs.request == Unrelated then r == (s, Ignored)
            else if openShift && inputs.network.Missing? then
              r.1 == Unavailable && EndsRaised(s, r.0, CLUSTER_CONFIG, "NoClusterConfig")
            else if openShift && inputs.network.FetchError? then
              r.1 == Errored && EndsRaised(s, r.0, CLUSTER_CONFIG, "InvalidClusterConfig")
            else if openShift && inputs.request == ForCluster && s.appliedCluster == Some(inputs.network.value) then
              r == (s, Unchanged)
            else if openShift && inputs.operatorNetwork.Missing? then
              r.1 == Unavailable && EndsRaised(s, r.0, OPERATOR_CONFIG, "NoClusterNetworkOperatorConfig")
            else if openShift && inputs.operatorNetwork.FetchError? then r == (s, Errored)
            else if inputs.install.Missing? then
              r.1 == Unavailable && EndsRaised(s, r.0, CLUSTER_CONFIG, "NoAntreaInstallCR")
            else if inputs.install.FetchError? then
              r.1 == Errored && EndsRaised(s, r.0, OPERATOR_CONFIG, "InvalidAntreaInstallCR")
            else
              && inputs.request == ForInstall && s.appliedOper == Some(inputs.install.value)
              && r == (s, Unchanged)
  {
    hide FullKubernetes, FullOpenShift, EndsRaised;
    RaiseEnds(s, s, CLUSTER_CONFIG, "NoClusterConfig");
    RaiseEnds(s, s, CLUSTER_CONFIG, "InvalidClusterConfig");
    RaiseEnds(s, s, OPERATOR_CONFIG, "NoClusterNetworkOperatorConfig");
    RaiseEnds(s, s, CLUSTER_CONFIG, "NoAntreaInstallCR");
    RaiseEnds(s, s, OPERATOR_CONFIG, "InvalidAntreaInstallCR");
  }

  // ---------------------------------------------------------------------------
  // The network status written
  // ---------------------------------------------------------------------------

  /** Whenever a round writes the network status it is the service networks, the cluster networks
      with their host prefixes and the network type of the cluster Network, and the default MTU of
      the filled configuration. */
  lemma WrittenStatusIsExact(lib: Library, s: State, network: NetworkSpec, spec: Spec, f: Faults)
    requires IntegerMTU(lib, spec)
    requires UpdateStatus(lib, s, network, spec, f).0.networkStatus != s.networkStatus
    ensures var status := UpdateStatus(lib, s, network, spec, f).0.networkStatus;
            && status.Some? && f.statusOk
            && status.value.serviceNetwork == network.serviceNetwork
            && status.value.networkType == network.networkType
            && |status.value.clusterNetwork| == |network.clusterNetwork|
            && (forall i :: 0 <= i < |network.clusterNetwork| ==>
                              && status.value.clusterNetwork[i].cidr == network.clusterNetwork[i].cidr
                              && status.value.clusterNetwork[i].hostPrefix == network.clusterNetwork[i].hostPrefix)
            && MTUOption(lib, spec) == Some(Int(status.value.mtu))
  {
  }
}
