/** What the published conditions say: the Degraded condition as a function of the history,
    availability, and quiescence. */
module StatusVerdicts {
  import opened Basics
  import opened Conditions
  import opened Rollout
  import opened StatusModel
  import opened StatusRuns

  // ---------------------------------------------------------------------------
  // Fault-free writes
  // ---------------------------------------------------------------------------

  predicate Clean(a: Attempt) {
    a.readOk && a.write == Written && a.keepsStatus && a.installReadOk && a.installWrite == Written
  }

  predicate FaultFree(script: Script) {
    script != [] && Clean(script[0])
  }

  /** Where the conditions are published: the ClusterOperator, or the AntreaInstall. */
  function Published(w: World): seq<Condition> {
    if w.platform == OpenShift then StoredConditions(w)
    else if w.install.Some? then w.install.value
    else []
  }

  function OperatorOf(w: World): OperatorStatus {
    if w.operator.Some? then w.operator.value else NO_STATUS
  }

  lemma PublishNotEmpty(cs: seq<Condition>, news: seq<Condition>, now: Time)
    ensures Publish(cs, news, now) != []
  {
  }

  lemma CleanSetStores(w: World, level: bool, news: seq<Condition>, script: Script)
    requires FaultFree(script)
    requires w.platform == Kubernetes ==> w.install.Some?
    ensures var w' := Set(w, level, news, script);
            if w.platform == OpenShift then
              && w'.related == Sweep(w, Listed(w), script[0].fates).related
              && w'.operator == Some(Desired(OperatorOf(w), w'.related, level, news, script[0].now))
            else
              w'.install == Some(Publish([], news, script[0].now))
  {
    hide Publish;
    var a := script[0];
    if w.platform == OpenShift {
      var swept := Sweep(w, Listed(w), a.fates);
      assert swept.operator == w.operator && swept.install == w.install;
      PublishNotEmpty(OperatorOf(w).conditions, news, a.now);
      assert AttemptSet(w, level, news, a).1 == Done;
    }
  }

  // ---------------------------------------------------------------------------
  // The Degraded condition
  // ---------------------------------------------------------------------------

  /** The operations that end by publishing Degraded, and the answers to that last write. */
  predicate Reports(op: Op) {
    op.OpSetFromPods? || op.OpSetDegraded? || op.OpSetNotDegraded?
  }

  function LastScript(op: Op): Script
    requires Reports(op)
  {
    match op
    case OpSetFromPods(pods) => pods.third
    case OpSetDegraded(_, _, _, script) => script
    case OpSetNotDegraded(_, script) => script
  }

  lemma SyncPublishesLowest(w: World, script: Script)
    requires DegradedOnly(w) && FaultFree(script)
    requires w.platform == Kubernetes ==> w.install.Some?
    ensures SaysAs(Find(Published(SyncDegraded(w, script)), Degraded), LowestFrom(w.failing, 0))
    ensures SameManager(w, SyncDegraded(w, script))
  {
    var c := LowestFrom(w.failing, 0);
    DegradedPublishable(w);
    LowestIsDegraded(w, 0);
    CleanSetStores(w, false, [c], script);
    SetFrame(w, false, [c], script);
    var was := if w.platform == OpenShift then StoredConditions(w) else [];
    PublishSettles(was, [c], script[0].now);
    assert c in [c];
  }

  lemma FromPodsFrame(w: World, pods: Pods)
    requires DegradedOnly(w)
    ensures var scan, w' := ScanAll(w, pods), SetFromPods(w, pods);
            && w'.failing == w.failing[POD_DEPLOYMENT := None]
                             [ROLLOUT_HUNG := HungFailure(scan.hung)]
            && w'.platform == w.platform && w'.daemonSets == w.daemonSets && w'.deployments == w.deployments
            && (w.install.Some? <==> w'.install.Some?)
  {
    BeforeProgressOrderly(w, pods);
    SetFromPodsOrderly(w, pods);
  }

  /** After every reporting operation whose last write meets no fault, Degraded is published
      with the status, reason and message of the lowest-numbered failing level, or as False
      with none of them. */
  lemma DegradedIsLowestLevel(w: World, op: Op)
    requires DegradedOnly(w) && Reports(op) && FaultFree(LastScript(op))
    requires w.platform == Kubernetes ==> w.install.Some?
    ensures var w' := Step(w, op);
            SaysAs(Find(Published(w'), Degraded), LowestFrom(w'.failing, 0))
  {
    match op
    case OpSetDegraded(level, reason, message, script) =>
      SyncPublishesLowest(w.(failing := w.failing[level := Some(Failure(reason, message))]), script);
    case OpSetNotDegraded(level, script) =>
      SyncPublishesLowest(w.(failing := w.failing[level := None]), script);
    case OpSetFromPods(pods) =>
      var scan, v := ScanAll(w, pods), BeforeProgress(w, pods);
      BeforeProgressOrderly(w, pods);
      HungPublishesLowest(v, scan, pods.second, pods.third);
  }

  lemma HungPublishesLowest(w: World, scan: Scan, second: Script, third: Script)
    requires DegradedOnly(w) && FaultFree(third)
    requires w.platform == Kubernetes ==> w.install.Some?
    ensures var v := Set(w, scan.level, ProgressConditions(scan.progressing, scan.level), second);
            var w' := SyncHung(v, scan.hung, third);
            SaysAs(Find(Published(w'), Degraded), LowestFrom(w'.failing, 0))
  {
    var v := Set(w, scan.level, ProgressConditions(scan.progressing, scan.level), second);
    SetFrame(w, scan.level, ProgressConditions(scan.progressing, scan.level), second);
    SyncPublishesLowest(
      v.(failing := v.failing[ROLLOUT_HUNG := HungFailure(scan.hung)]),
      third);
  }

  /** The list that one condition alone makes: itself and Upgradeable. */
  lemma PublishedAlone(c: Condition, now: Time, t: ConditionType)
    requires c.kind == Degraded
    ensures Find(Publish([], [c], now), t).Some? <==> t == Degraded || t == Upgradeable
  {
    PublishFinds([], [c], now, t);
    CombineFinds([], [c], now, t);
    CombineFinds([], [c], now, Progressing);
  }

  lemma SyncShowsDegradedAlone(w: World, script: Script, t: ConditionType)
    requires w.platform == Kubernetes && DegradedOnly(w) && FaultFree(script) && w.install.Some?
    ensures Find(Published(SyncDegraded(w, script)), t).Some? <==> t == Degraded || t == Upgradeable
  {
    var c := LowestFrom(w.failing, 0);
    LowestIsDegraded(w, 0);
    CleanSetStores(w, false, [c], script);
    SetFrame(w, false, [c], script);
    PublishedAlone(c, script[0].now, t);
  }

  /** On Kubernetes every write starts from no conditions, so the last write of a reporting
      operation wipes out what the ones before it published: afterwards the AntreaInstall shows
      Degraded and Upgradeable and nothing else, neither Progressing nor Available. */
  lemma KubernetesShowsDegradedAlone(w: World, op: Op, t: ConditionType)
    requires w.platform == Kubernetes && w.install.Some?
    requires DegradedOnly(w) && Reports(op) && FaultFree(LastScript(op))
    ensures Find(Published(Step(w, op)), t).Some? <==> t == Degraded || t == Upgradeable
  {
    hide SyncDegraded, Set, Find, Save;
    match op
    case OpSetDegraded(level, reason, message, script) =>
      SyncShowsDegradedAlone(w.(failing := w.failing[level := Some(Failure(reason, message))]), script, t);
    case OpSetNotDegraded(level, script) =>
      SyncShowsDegradedAlone(w.(failing := w.failing[level := None]), script, t);
    case OpSetFromPods(pods) =>
      var v := BeforeProgress(w, pods);
      BeforeProgressOrderly(w, pods);
      HungShowsDegradedAlone(v, ScanAll(w, pods), pods.second, pods.third, t);
  }

  lemma HungShowsDegradedAlone(w: World, scan: Scan, second: Script, third: Script, t: ConditionType)
    requires w.platform == Kubernetes && DegradedOnly(w) && FaultFree(third) && w.install.Some?
    ensures var v := Set(w, scan.level, ProgressConditions(scan.progressing, scan.level), second);
            Find(Published(SyncHung(v, scan.hung, third)), t).Some? <==> t == Degraded || t == Upgradeable
  {
    var v := Set(w, scan.level, ProgressConditions(scan.progressing, scan.level), second);
    SetFrame(w, scan.level, ProgressConditions(scan.progressing, scan.level), second);
    SyncShowsDegradedAlone(
      v.(failing := v.failing[ROLLOUT_HUNG := HungFailure(scan.hung)]),
      third, t);
  }

  /** What a history says of level `l`: the last operation that touched it decides. */
  ghost function Raised(w: World, ops: seq<Op>, l: Level): Option<Condition> {
    if ops == [] then w.failing[l]
    else
      var before := ops[..|ops| - 1];
      match ops[|ops| - 1]
      case OpSetDegraded(level, reason, message, _) =>
        if level == l then Some(Failure(reason, message)) else Raised(w, before, l)
      case OpSetNotDegraded(level, _) =>
        if level == l then None else Raised(w, before, l)
      case OpSetFromPods(pods) =>
        var hung := ScanAll(Run(w, before), pods).hung;
        if l == POD_DEPLOYMENT then None
        else if l == ROLLOUT_HUNG then HungFailure(hung)
        else Raised(w, before, l)
      case OpRestart => None
      case _ => Raised(w, before, l)
  }

  /** The failing levels are exactly what the history of operations raised and did not clear,
      so together with `DegradedIsLowestLevel` the published condition is a function of it. */
  lemma {:induction false} LevelsFollowHistory(w: World, ops: seq<Op>, l: Level)
    requires DegradedOnly(w)
    ensures Run(w, ops).failing[l] == Raised(w, ops, l)
  {
    hide SetFromPods, SyncDegraded;
    if ops != [] {
      var before, op := ops[..|ops| - 1], ops[|ops| - 1];
      var v := Run(w, before);
      LevelsFollowHistory(w, before, l);
      LedgerOverRuns(w, before);
      match op
      case OpSetDegraded(level, reason, message, script) =>
        LevelOrderly(v, level, Some(Failure(reason, message)), script);
      case OpSetNotDegraded(level, script) =>
        LevelOrderly(v, level, None, script);
      case OpSetFromPods(pods) =>
        FromPodsFrame(v, pods);
      case _ =>
    }
  }

  /** No operation changes the platform or makes the AntreaInstall come or go. */
  lemma {:induction false} InstallStays(w: World, ops: seq<Op>)
    requires DegradedOnly(w)
    ensures Run(w, ops).platform == w.platform && (Run(w, ops).install.Some? <==> w.install.Some?)
  {
    hide SetFromPods, SyncDegraded;
    if ops != [] {
      var before, op := ops[..|ops| - 1], ops[|ops| - 1];
      var v := Run(w, before);
      InstallStays(w, before);
      LedgerOverRuns(w, before);
      match op
      case OpSetDegraded(level, reason, message, script) =>
        LevelOrderly(v, level, Some(Failure(reason, message)), script);
      case OpSetNotDegraded(level, script) =>
        LevelOrderly(v, level, None, script);
      case OpSetFromPods(pods) =>
        FromPodsFrame(v, pods);
      case _ =>
    }
  }

  /** All levels as the history left them. */
  ghost function RaisedLevels(w: World, ops: seq<Op>): Failing {
    seq(5, l requires 0 <= l < 5 => Raised(w, ops, l))
  }

  /** The operations that touch neither the failing levels nor what is published. */
  predicate Silent(op: Op) {
    op.OpSetDaemonSets? || op.OpSetDeployments? || op.OpSetRelatedObjects?
  }

  lemma SilentStep(w: World, ops: seq<Op>, op: Op)
    requires Silent(op)
    ensures var before, now := Run(w, ops), Run(w, ops + [op]);
            && now.failing == before.failing && Published(now) == Published(before)
            && RaisedLevels(w, ops + [op]) == RaisedLevels(w, ops)
  {
    hide SetFromPods, SetDegraded, SetNotDegraded, RaisedLevels;
    var all := ops + [op];
    assert all[..|all| - 1] == ops;
    forall l: Level ensures Raised(w, all, l) == Raised(w, ops, l) {
    }
    SameRaised(w, all, ops);
  }

  lemma {:induction false} SilentKeeps(w: World, ops: seq<Op>, after: seq<Op>)
    requires forall op :: op in after ==> Silent(op)
    ensures var before, now := Run(w, ops), Run(w, ops + after);
            && now.failing == before.failing && Published(now) == Published(before)
            && RaisedLevels(w, ops + after) == RaisedLevels(w, ops)
  {
    hide Run, Published, RaisedLevels;
    if after == [] {
      assert ops + after == ops;
    } else {
      var n := |after| - 1;
      SilentKeeps(w, ops, after[..n]);
      assert ops + after == (ops + after[..n]) + [after[n]];
      SilentStep(w, ops + after[..n], after[n]);
    }
  }

  lemma SameRaised(w: World, a: seq<Op>, b: seq<Op>)
    requires forall l: Level :: Raised(w, a, l) == Raised(w, b, l)
    ensures RaisedLevels(w, a) == RaisedLevels(w, b)
  {
    hide Raised;
    forall i | 0 <= i < 5 ensures RaisedLevels(w, a)[i] == RaisedLevels(w, b)[i] {
      var l: Level := i;
      assert Raised(w, a, l) == Raised(w, b, l);
    }
  }

  /** For any history, whatever failed before: once a reporting operation's last write meets no
      fault, and until the next reporting operation or restart, the published Degraded condition
      is that of the lowest-numbered level the history has raised and not cleared, or False with
      neither reason nor message if there is none. */
  lemma DegradedFollowsHistory(w: World, ops: seq<Op>, after: seq<Op>)
    requires DegradedOnly(w) && ops != []
    requires Reports(ops[|ops| - 1]) && FaultFree(LastScript(ops[|ops| - 1]))
    requires forall op :: op in after ==> Silent(op)
    requires w.platform == Kubernetes ==> w.install.Some?
    ensures Run(w, ops + after).failing == RaisedLevels(w, ops + after)
    ensures SaysAs(Find(Published(Run(w, ops + after)), Degraded), LowestFrom(RaisedLevels(w, ops + after), 0))
  {
    var before, op := ops[..|ops| - 1], ops[|ops| - 1];
    LedgerOverRuns(w, before);
    InstallStays(w, before);
    DegradedIsLowestLevel(Run(w, before), op);
    forall l: Level ensures Run(w, ops).failing[l] == Raised(w, ops, l) {
      LevelsFollowHistory(w, ops, l);
    }
    LevelsAreRaised(w, ops);
    SilentKeeps(w, ops, after);
  }

  lemma LevelsAreRaised(w: World, ops: seq<Op>)
    requires forall l: Level :: Run(w, ops).failing[l] == Raised(w, ops, l)
    ensures Run(w, ops).failing == RaisedLevels(w, ops)
  {
    hide Run, Raised;
    forall i | 0 <= i < 5 ensures Run(w, ops).failing[i] == RaisedLevels(w, ops)[i] {
      var l: Level := i;
      assert Run(w, ops).failing[l] == Raised(w, ops, l);
    }
  }

  // ---------------------------------------------------------------------------
  // Kubernetes has no snapshot, so nothing is ever hung
  // ---------------------------------------------------------------------------

  lemma {:induction false} ScanWithoutMemory(kind: Kind, names: seq<Name>, replies: nat -> Reply, n: nat, acc: Scan)
    requires n <= |names| && NoDup(names) && acc.states == map[]
    ensures var s := ScanUpTo(kind, names, replies, n, acc);
            s.hung == acc.hung && s.states.Keys <= set x | x in names[..n]
  {
    if n > 0 {
      ScanWithoutMemory(kind, names, replies, n - 1, acc);
      assert names[..n] == names[..n - 1] + [names[n - 1]];
      assert names[n - 1] !in names[..n - 1];
    }
  }

  ghost predicate DistinctNames(op: Op) {
    && (op.OpSetDaemonSets? ==> NoDup(op.names))
    && (op.OpSetDeployments? ==> NoDup(op.names))
  }

  ghost predicate DistinctTracks(w: World) {
    NoDup(w.daemonSets) && NoDup(w.deployments)
  }

  lemma {:induction false} TracksStayDistinct(w: World, ops: seq<Op>)
    requires DegradedOnly(w) && DistinctTracks(w)
    requires forall op :: op in ops ==> DistinctNames(op)
    ensures DistinctTracks(Run(w, ops)) && Run(w, ops).platform == w.platform
  {
    hide SetFromPods, SyncDegraded;
    if ops != [] {
      var before, op := ops[..|ops| - 1], ops[|ops| - 1];
      var v := Run(w, before);
      TracksStayDistinct(w, before);
      LedgerOverRuns(w, before);
      assert DistinctNames(op);
      match op
      case OpSetDegraded(level, reason, message, script) =>
        LevelOrderly(v, level, Some(Failure(reason, message)), script);
      case OpSetNotDegraded(level, script) =>
        LevelOrderly(v, level, None, script);
      case OpSetFromPods(pods) =>
        FromPodsFrame(v, pods);
      case _ =>
    }
  }

  /** On Kubernetes no run of operations raises the RolloutHung level, unless a caller asks
      for exactly that level. */
  lemma {:induction false} KubernetesNeverHung(w: World, ops: seq<Op>)
    requires w.platform == Kubernetes && DegradedOnly(w) && DistinctTracks(w)
    requires w.failing[ROLLOUT_HUNG].None?
    requires forall op :: op in ops ==> DistinctNames(op) && !(op.OpSetDegraded? && op.level == ROLLOUT_HUNG)
    ensures Run(w, ops).failing[ROLLOUT_HUNG].None?
  {
    if ops != [] {
      var before, op := ops[..|ops| - 1], ops[|ops| - 1];
      KubernetesNeverHung(w, before);
      LevelsFollowHistory(w, before, ROLLOUT_HUNG);
      LevelsFollowHistory(w, ops, ROLLOUT_HUNG);
      assert op in ops;
      if op.OpSetFromPods? {
        var v := Run(w, before);
        TracksStayDistinct(w, before);
        ScanWithoutMemory(DaemonSet, v.daemonSets, op.pods.daemonSets, |v.daemonSets|,
                          Scan(map[], [], [], |v.daemonSets| + |v.deployments| > 0));
        ScanWithoutMemory(Deployment, v.deployments, op.pods.deployments, |v.deployments|,
                          ScanDaemonSets(v, op.pods).(states := map[]));
      }
    }
  }

  // ---------------------------------------------------------------------------
  // Availability
  // ---------------------------------------------------------------------------

  /** Across both loops: the lines are one per missing or unfinished workload, daemon sets
      first, in order; and the level is reached exactly when something is tracked and no line
      was written. */
  lemma AvailabilityIsExact(w: World, pods: Pods)
    ensures var scan := ScanAll(w, pods);
            && scan.progressing == Unfinished(DaemonSet, w.daemonSets, pods.daemonSets, |w.daemonSets|)
                                   + Unfinished(Deployment, w.deployments, pods.deployments, |w.deployments|)
            && (scan.level <==> |w.daemonSets| + |w.deployments| > 0 && scan.progressing == [])
            && (scan.level <==>
                  && |w.daemonSets| + |w.deployments| > 0
                  && (forall i :: 0 <= i < |w.daemonSets| ==> Ready(pods.daemonSets(i)))
                  && (forall i :: 0 <= i < |w.deployments| ==> Ready(pods.deployments(i))))
  {
    ScanReportsUnfinished(DaemonSet, w.daemonSets, pods.daemonSets, |w.daemonSets|,
                          Scan(Recalled(w, pods).daemonSets, [], [], |w.daemonSets| + |w.deployments| > 0));
    ScanReportsUnfinished(Deployment, w.deployments, pods.deployments, |w.deployments|,
                          ScanDaemonSets(w, pods).(states := Recalled(w, pods).deployments));
  }

  // ---------------------------------------------------------------------------
  // Quiescence
  // ---------------------------------------------------------------------------

  /** The ClusterOperator already says what `set` would write. */
  ghost predicate Stable(w: World, level: bool, news: seq<Condition>) {
    && w.platform == OpenShift && w.operator.Some?
    && (w.related.Some? ==> w.operator.value.related == w.related.value)
    && Settled(w.operator.value.conditions) && Agrees(w.operator.value.conditions, news)
    && (level ==> w.operator.value.versions == OPERATOR_VERSION)
  }

  lemma {:induction false} SweepFindsAll(s: Swept, current: seq<ObjectReference>, fates: nat -> Fate, n: nat)
    requires n <= |current| && forall obj :: obj in current ==> obj in s.related
    ensures SweepUpTo(s, current, fates, n) == s
  {
    if n > 0 {
      SweepFindsAll(s, current, fates, n - 1);
    }
  }

  lemma StableSet(w: World, level: bool, news: seq<Condition>, script: Script)
    requires Stable(w, level, news) && w.related != Some([])
    ensures Set(w, level, news, script) == w
  {
    if script != [] && script[0].readOk {
      var a := script[0];
      if w.related.Some? {
        SweepFindsAll(Swept(w.related.value, w.log), Listed(w), a.fates, |Listed(w)|);
      }
      assert Sweep(w, Listed(w), a.fates) == w;
      PublishIsQuiescent(w.operator.value.conditions, news, a.now);
      assert AttemptSet(w, level, news, a) == (w, Done);
    }
  }

  /** A fault-free write leaves the state stable for what it wrote. */
  lemma CleanSetIsStable(w: World, level: bool, news: seq<Condition>, script: Script)
    requires w.platform == OpenShift && FaultFree(script) && Publishable(level, news)
    ensures Stable(Set(w, level, news, script), level, news)
  {
    CleanSetStores(w, level, news, script);
    SetFrame(w, level, news, script);
    PublishSettles(OperatorOf(w).conditions, news, script[0].now);
  }

  /** Publishing Degraded keeps Progressing and Available as they were. */
  lemma DegradedKeepsProgress(w: World, level: bool, news: seq<Condition>, c: Condition, script: Script)
    requires Stable(w, level, news) && FaultFree(script)
    requires c.kind == Degraded
    requires forall x :: x in news ==> x.kind == Progressing || x.kind == Available
    ensures Stable(Set(w, false, [c], script), level, news)
  {
    CleanSetIsStable(w, false, [c], script);
    CleanSetStores(w, false, [c], script);
    var cs, now := w.operator.value.conditions, script[0].now;
    var w' := Set(w, false, [c], script);
    assert w'.operator.value.conditions == Publish(cs, [c], now);
    PublishFinds(cs, [c], now, Progressing);
    PublishFinds(cs, [c], now, Available);
    CombineFinds(cs, [c], now, Progressing);
    CombineFinds(cs, [c], now, Available);
  }

  predicate SameReply(r: Reply, s: Reply) {
    || (r.GetFailed? && s.GetFailed?)
    || (r.Found? && s.Found? && r.generation == s.generation && r.status == s.status)
  }

  /** Both calls see every tracked workload the same, at whatever times. */
  ghost predicate SameObservations(w: World, p: Pods, q: Pods) {
    && (forall i :: 0 <= i < |w.daemonSets| ==> SameReply(p.daemonSets(i), q.daemonSets(i)))
    && (forall i :: 0 <= i < |w.deployments| ==> SameReply(p.deployments(i), q.deployments(i)))
  }

  lemma {:induction false} SameUnfinished(kind: Kind, names: seq<Name>, r: nat -> Reply, s: nat -> Reply, n: nat)
    requires n <= |names|
    requires forall i :: 0 <= i < n ==> SameReply(r(i), s(i))
    ensures Unfinished(kind, names, r, n) == Unfinished(kind, names, s, n)
  {
    if n > 0 {
      SameUnfinished(kind, names, r, s, n - 1);
      assert SameReply(r(n - 1), s(n - 1));
    }
  }

  /** The state after a fault-free `SetFromPods`: everything it would publish is published. */
  ghost predicate UpToDate(w: World, scan: Scan) {
    && w.failing[POD_DEPLOYMENT].None?
    && w.failing[ROLLOUT_HUNG] == HungFailure(scan.hung)
    && Stable(w, scan.level, ProgressConditions(scan.progressing, scan.level))
    && Stable(w, false, [LowestFrom(w.failing, 0)])
  }

  lemma CleanLevelIsStable(w: World, level: Level, failure: Option<Condition>, script: Script)
    requires w.platform == OpenShift && DegradedOnly(w) && FaultFree(script)
    requires failure.Some? ==> failure.value.kind == Degraded && failure.value.status == ConditionTrue
    ensures var w' := SyncDegraded(w.(failing := w.failing[level := failure]), script);
            && Stable(w', false, [LowestFrom(w'.failing, 0)])
            && w'.failing == w.failing[level := failure] && DegradedOnly(w')
  {
    var w1 := w.(failing := w.failing[level := failure]);
    DegradedPublishable(w1);
    CleanSetIsStable(w1, false, [LowestFrom(w1.failing, 0)], script);
    SetFrame(w1, false, [LowestFrom(w1.failing, 0)], script);
  }

  /** The last of the three writes keeps what the second one published. */
  lemma CleanHungIsUpToDate(w: World, scan: Scan, script: Script)
    requires DegradedOnly(w) && w.failing[POD_DEPLOYMENT].None? && FaultFree(script)
    requires Stable(w, scan.level, ProgressConditions(scan.progressing, scan.level))
    ensures UpToDate(SyncHung(w, scan.hung, script), scan)
  {
    var failure := HungFailure(scan.hung);
    var w1 := w.(failing := w.failing[ROLLOUT_HUNG := failure]);
    CleanLevelIsStable(w, ROLLOUT_HUNG, failure, script);
    LowestIsDegraded(w1, 0);
    assert Stable(w1, scan.level, ProgressConditions(scan.progressing, scan.level));
    DegradedKeepsProgress(w1, scan.level, ProgressConditions(scan.progressing, scan.level), LowestFrom(w1.failing, 0),
        script);
  }

  lemma CleanProgressIsUpToDate(w: World, scan: Scan, second: Script, third: Script)
    requires w.platform == OpenShift && DegradedOnly(w) && w.failing[POD_DEPLOYMENT].None?
    requires FaultFree(second) && FaultFree(third)
    ensures UpToDate(SyncHung(Set(w, scan.level, ProgressConditions(scan.progressing, scan.level), second), scan.hung,
            third), scan)
  {
    var news := ProgressConditions(scan.progressing, scan.level);
    ProgressPublishable(scan.progressing, scan.level);
    CleanSetIsStable(w, scan.level, news, second);
    SetFrame(w, scan.level, news, second);
    CleanHungIsUpToDate(Set(w, scan.level, news, second), scan, third);
  }

  lemma CleanSetFromPods(w: World, p: Pods)
    requires w.platform == OpenShift && DegradedOnly(w)
    requires FaultFree(p.first) && FaultFree(p.second) && FaultFree(p.third)
    ensures UpToDate(SetFromPods(w, p), ScanAll(w, p))
  {
    var scan := ScanAll(w, p);
    CleanLevelIsStable(w, POD_DEPLOYMENT, None, p.first);
    var w1 := SetNotDegraded(w, POD_DEPLOYMENT, p.first);
    var w2 := Save(w1, Snapshot(ScanDaemonSets(w, p).states, scan.states), p.save);
    CleanProgressIsUpToDate(w2, scan, p.second, p.third);
  }

  /** Between `v` and `v'` no status was written and nothing was deleted; at most the snapshot
      was saved again. */
  ghost predicate Quiet(v: World, v': World) {
    v' == v.(snapshot := v'.snapshot, log := v'.log) && (v'.log == v.log || v'.log == v.log + [SnapshotWrite])
  }

  lemma UpToDateIsQuiet(w: World, scan: Scan, q: Pods)
    requires UpToDate(w, scan) && w.related != Some([])
    requires ScanAll(w, q).hung == scan.hung
    requires ScanAll(w, q).progressing == scan.progressing && ScanAll(w, q).level == scan.level
    ensures Quiet(w, SetFromPods(w, q))
  {
    hide Set, ScanAll, ScanDaemonSets, LowestFrom, Settled, Agrees;
    var news := ProgressConditions(scan.progressing, scan.level);
    assert w.(failing := w.failing[POD_DEPLOYMENT := None]) == w;
    StableSet(w, false, [LowestFrom(w.failing, 0)], q.first);
    var w2 := Save(w, Snapshot(ScanDaemonSets(w, q).states, ScanAll(w, q).states), q.save);
    assert Stable(w2, scan.level, news);
    StableSet(w2, scan.level, news, q.second);
    assert w2.(failing := w2.failing[ROLLOUT_HUNG := w2.failing[ROLLOUT_HUNG]]) == w2;
    StableSet(w2, false, [LowestFrom(w2.failing, 0)], q.third);
  }

  /** A list of related objects that is empty but not nil never equals the nil list that is
      read back, so a fault-free write over an empty list happens whatever it says. */
  lemma EmptyRelatedListAlwaysWrites(w: World, level: bool, news: seq<Condition>, script: Script)
    requires w.platform == OpenShift && FaultFree(script)
    requires w.related == Some([]) && w.operator.Some? && Listed(w) == []
    ensures var w' := Set(w, level, news, script);
            w.log < w'.log && w'.log[|w.log|].OperatorWrite?
  {
    var a := script[0];
    assert Sweep(w, Listed(w), a.fates) == w;
    assert AttemptSet(w, level, news, a).1 == Done;
  }

  lemma EmptyRelatedListIsLoud(w: World, q: Pods)
    requires w.platform == OpenShift && DegradedOnly(w) && FaultFree(q.first)
    requires w.related == Some([]) && w.operator.Some? && Listed(w) == []
    ensures !Quiet(w, SetFromPods(w, q))
  {
    hide SetFromPods, Set;
    var w1 := w.(failing := w.failing[POD_DEPLOYMENT := None]);
    EmptyRelatedListAlwaysWrites(w1, false, [LowestFrom(w1.failing, 0)], q.first);
    FirstWriteComesFirst(w, q);
  }

  /** The later writes of a call come after its first. */
  lemma FirstWriteComesFirst(w: World, q: Pods)
    requires DegradedOnly(w)
    ensures SetNotDegraded(w, POD_DEPLOYMENT, q.first).log <= SetFromPods(w, q).log
  {
    hide SetNotDegraded;
    SaveOrderly(SetNotDegraded(w, POD_DEPLOYMENT, q.first),
        Snapshot(ScanDaemonSets(w, q).states, ScanAll(w, q).states), q.save);
    SetFromPodsOrderly(w, q);
  }

  /** After a fault-free `SetFromPods`, consider a second one with the same observations and the
      same hung rollouts.  Unless the list of related objects is now empty without being nil, it
      writes no ClusterOperator and no AntreaInstall status and deletes nothing, in any of its
      three status writes and whatever the API server answers; and if its first write meets no
      fault, it is quiet exactly then. */
  lemma SetFromPodsIsQuiescentIff(w: World, p: Pods, q: Pods)
    requires w.platform == OpenShift && DegradedOnly(w)
    requires FaultFree(p.first) && FaultFree(p.second) && FaultFree(p.third)
    requires SameObservations(w, p, q)
    requires ScanAll(SetFromPods(w, p), q).hung == ScanAll(w, p).hung
    ensures var v := SetFromPods(w, p);
            && (v.related != Some([]) ==> Quiet(v, SetFromPods(v, q)))
            && (FaultFree(q.first) && v.related == Some([]) ==> !Quiet(v, SetFromPods(v, q)))
  {
    hide Quiet, ScanAll, SetFromPods;
    var v := SetFromPods(w, p);
    CleanSetFromPods(w, p);
    FromPodsFrame(w, p);
    SetFromPodsOrderly(w, p);
    SameScan(w, v, p, q);
    if v.related != Some([]) {
      UpToDateIsQuiet(v, ScanAll(w, p), q);
    } else if FaultFree(q.first) {
      EmptyRelatedListIsLoud(v, q);
    }
  }

  lemma SameScan(w: World, v: World, p: Pods, q: Pods)
    requires SameObservations(w, p, q) && v.daemonSets == w.daemonSets && v.deployments == w.deployments
    ensures ScanAll(v, q).progressing == ScanAll(w, p).progressing && ScanAll(v, q).level == ScanAll(w, p).level
  {
    AvailabilityIsExact(w, p);
    AvailabilityIsExact(v, q);
    SameUnfinished(DaemonSet, w.daemonSets, p.daemonSets, q.daemonSets, |w.daemonSets|);
    SameUnfinished(Deployment, w.deployments, p.deployments, q.deployments, |w.deployments|);
  }

  // ---------------------------------------------------------------------------
  // The noisy list is never reached by the operator itself
  // ---------------------------------------------------------------------------

  lemma {:induction false} RenderedFollowsCalls(w: World, ops: seq<Op>)
    requires DegradedOnly(w) && w.rendered != Some([])
    requires forall op :: op in ops && op.OpSetRelatedObjects? ==> op.objects != Some([])
    ensures Run(w, ops).rendered != Some([])
  {
    hide SetFromPods, SyncDegraded;
    if ops != [] {
      var before, op := ops[..|ops| - 1], ops[|ops| - 1];
      var v := Run(w, before);
      RenderedFollowsCalls(w, before);
      LedgerOverRuns(w, before);
      assert op in ops;
      match op
      case OpSetDegraded(level, reason, message, script) =>
        LevelOrderly(v, level, Some(Failure(reason, message)), script);
      case OpSetNotDegraded(level, script) =>
        LevelOrderly(v, level, None, script);
      case OpSetFromPods(pods) =>
        SetFromPodsOrderly(v, pods);
      case _ =>
    }
  }

  /** The list is empty without being nil only if a caller hands over such a list.  That the
      install reconciler, the only caller, never does is `OperatorRuns.OperatorIsNeverNoisy`. */
  lemma RelatedListIsNeverEmpty(w: World, ops: seq<Op>)
    requires DegradedOnly(w) && Tidy(w) && w.rendered != Some([])
    requires forall op :: op in ops && op.OpSetRelatedObjects? ==> op.objects != Some([])
    ensures Run(w, ops).related != Some([])
  {
    RenderedFollowsCalls(w, ops);
    RenderedIsSafe(w, ops, OpRestart);
  }
}
