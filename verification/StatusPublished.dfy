/** What the status manager publishes, spelled out: the conditions after each operation, the
    retries that get it there, and the copy in the AntreaInstall. */
module StatusPublished {
  import opened Basics
  import opened Conditions
  import opened Rollout
  import opened StatusModel
  import opened StatusRuns
  import opened StatusVerdicts

  // ---------------------------------------------------------------------------
  // SetFromPods
  // ---------------------------------------------------------------------------

  /** Every tracked workload was found and is rolled out. */
  ghost predicate AllReady(w: World, pods: Pods) {
    && (forall i :: 0 <= i < |w.daemonSets| ==> Ready(pods.daemonSets(i)))
    && (forall i :: 0 <= i < |w.deployments| ==> Ready(pods.deployments(i)))
  }

  /** One line per missing or unfinished workload, daemon sets first. */
  function AllUnfinished(w: World, pods: Pods): seq<Line> {
    Unfinished(DaemonSet, w.daemonSets, pods.daemonSets, |w.daemonSets|) +
    Unfinished(Deployment, w.deployments, pods.deployments, |w.deployments|)
  }

  lemma ProgressSays(w: World, scan: Scan)
    requires Stable(w, scan.level, ProgressConditions(scan.progressing, scan.level))
    ensures if scan.progressing == [] then Says(Find(StoredConditions(w), Progressing), ConditionFalse, "", [])
            else Says(Find(StoredConditions(w), Progressing), ConditionTrue, "Deploying", scan.progressing)
    ensures scan.level ==> Says(Find(StoredConditions(w), Available), ConditionTrue, "", [])
  {
    hide Settled, Find;
    var news := ProgressConditions(scan.progressing, scan.level);
    assert news[0] in news;
    assert scan.level ==> news[1] in news;
  }

  /** After a fault-free `SetFromPods` on OpenShift the ClusterOperator says: progressing, with the
      lines of all missing or unfinished workloads, exactly if there is one, and otherwise not;
      available, with the operator version recorded, if something is tracked and all of it is
      ready; and the related objects are those of the manager. */
  lemma SetFromPodsPublishes(w: World, p: Pods)
    requires w.platform == OpenShift && DegradedOnly(w)
    requires FaultFree(p.first) && FaultFree(p.second) && FaultFree(p.third)
    ensures var v := SetFromPods(w, p);
            var cs := StoredConditions(v);
            && (if AllReady(w, p) then Says(Find(cs, Progressing), ConditionFalse, "", [])
                else Says(Find(cs, Progressing), ConditionTrue, "Deploying", AllUnfinished(w, p)))
            && (|w.daemonSets| + |w.deployments| > 0 && AllReady(w, p) ==>
                  Says(Find(cs, Available), ConditionTrue, "", []) && v.operator.value.versions == ["operator"])
            && Says(Find(cs, Upgradeable), ConditionTrue, "", [])
            && v.operator.Some? && (v.related.Some? ==> Listed(v) == v.related.value)
  {
    hide SetFromPods, ScanAll, Unfinished, Ready;
    CleanSetFromPods(w, p);
    AvailabilityIsExact(w, p);
    UnfinishedIffReady(w, p);
    ProgressSays(SetFromPods(w, p), ScanAll(w, p));
  }

  lemma UnfinishedIffReady(w: World, p: Pods)
    ensures AllUnfinished(w, p) == [] <==> AllReady(w, p)
  {
  }

  /** A line of the progressing message says why its workload is unfinished, and the first reason
      that applies is the one given. */
  lemma LineSaysWhy(kind: Kind, name: Name, reply: Reply)
    requires !Ready(reply)
    requires reply.Found? ==> (reply.status.DaemonSetStatus? <==> kind == DaemonSet)
    ensures var line := LineFor(kind, name, reply);
            if reply.GetFailed? then line == NotCreated(kind, name)
            else
              var s := reply.status;
              if kind == DaemonSet && s.updated < s.desired then line == RollingOut(name, s.updated, s.desired)
              else if s.unavailable > 0 then line == AwaitingPods(kind, name, s.unavailable)
              else if s.available == 0 then line == Unscheduled(kind, name)
              else s.observed < reply.generation && line == BeingProcessed(kind, name, reply.generation, s.observed)
  {
  }

  // ---------------------------------------------------------------------------
  // Degraded
  // ---------------------------------------------------------------------------

  /** Raising a level publishes its reason and message, unless a more important one fails. */
  lemma SetDegradedPublishes(w: World, level: Level, reason: string, message: seq<Line>, script: Script)
    requires DegradedOnly(w) && FaultFree(script) && (w.platform == Kubernetes ==> w.install.Some?)
    requires forall k :: 0 <= k < level ==> w.failing[k].None?
    ensures Says(Find(Published(SetDegraded(w, level, reason, message, script)), Degraded),
                 ConditionTrue, reason, message)
  {
    var w1 := w.(failing := w.failing[level := Some(Failure(reason, message))]);
    SyncPublishesLowest(w1, script);
    assert forall k :: 0 <= k < level ==> w1.failing[k].None?;
  }

  /** Clearing the last failing level publishes that the operator is not degraded. */
  lemma SetNotDegradedPublishes(w: World, level: Level, script: Script)
    requires DegradedOnly(w) && FaultFree(script) && (w.platform == Kubernetes ==> w.install.Some?)
    requires forall k :: 0 <= k < 5 && k != level ==> w.failing[k].None?
    ensures Says(Find(Published(SetNotDegraded(w, level, script)), Degraded), ConditionFalse, "", [])
  {
    SyncPublishesLowest(w.(failing := w.failing[level := None]), script);
  }

  /** The cluster configuration comes before everything, and the operator configuration before
      everything else. */
  lemma ConfigurationComesFirst(w: World, reason: string, message: seq<Line>, script: Script)
    requires DegradedOnly(w) && FaultFree(script) && (w.platform == Kubernetes ==> w.install.Some?)
    ensures Says(Find(Published(SetDegraded(w, CLUSTER_CONFIG, reason, message, script)), Degraded),
                 ConditionTrue, reason, message)
    ensures w.failing[CLUSTER_CONFIG].None? ==>
              Says(Find(Published(SetDegraded(w, OPERATOR_CONFIG, reason, message, script)), Degraded),
                   ConditionTrue, reason, message)
  {
    hide SetDegraded, Published;
    SetDegradedPublishes(w, CLUSTER_CONFIG, reason, message, script);
    if w.failing[CLUSTER_CONFIG].None? {
      SetDegradedPublishes(w, OPERATOR_CONFIG, reason, message, script);
    }
  }

  /** If neither configuration level fails, a `SetFromPods` whose last write meets no fault
      publishes the hung rollouts as Degraded, with reason RolloutHung. */
  lemma HungPublishes(w: World, p: Pods)
    requires DegradedOnly(w) && FaultFree(p.third) && (w.platform == Kubernetes ==> w.install.Some?)
    requires w.failing[CLUSTER_CONFIG].None? && w.failing[OPERATOR_CONFIG].None?
    requires ScanAll(w, p).hung != []
    ensures Says(Find(Published(SetFromPods(w, p)), Degraded), ConditionTrue, "RolloutHung", ScanAll(w, p).hung)
  {
    hide SetFromPods, ScanAll, Published, Find;
    DegradedIsLowestLevel(w, OpSetFromPods(p));
    FromPodsFrame(w, p);
    var failing := SetFromPods(w, p).failing;
    assert forall k :: 0 <= k < 3 ==> failing[k].None?;
    assert failing[3].Some?;
  }

  // ---------------------------------------------------------------------------
  // Retries
  // ---------------------------------------------------------------------------

  predicate Conflicted(a: Attempt) {
    a.readOk && a.write == Conflict && a.installReadOk && a.installWrite == Conflict
  }

  /** Some attempts meet conflicts, and the next one meets no fault. */
  predicate GetsThrough(script: Script, k: nat) {
    k < |script| && Clean(script[k]) && forall i :: 0 <= i < k ==> Conflicted(script[i])
  }

  /** The conditions are published, and the version recorded if it was to be. */
  ghost predicate Arrived(w: World, level: bool, news: seq<Condition>) {
    && (forall c :: c in news ==> SaysAs(Find(Published(w), c.kind), c))
    && (w.platform == OpenShift && level ==> w.operator.Some? && w.operator.value.versions == ["operator"])
  }

  lemma PublishArrives(w: World, level: bool, news: seq<Condition>, cs: seq<Condition>, now: Time)
    requires Publishable(level, news) && Published(w) == Publish(cs, news, now)
    requires w.platform == OpenShift && level ==> w.operator.Some? && w.operator.value.versions == ["operator"]
    ensures Arrived(w, level, news)
  {
    PublishIsExact(cs, news, now);
  }

  /** A conflict ends in a retry from the same objects, unless everything was published already. */
  lemma ConflictIsRetried(w: World, level: bool, news: seq<Condition>, a: Attempt)
    requires Publishable(level, news) && Conflicted(a) && (w.platform == Kubernetes ==> w.install.Some?)
    ensures var r := AttemptSet(w, level, news, a);
            && r.0.platform == w.platform && r.0.operator == w.operator && r.0.install == w.install
            && (r.1 == Retry || (r.1 == Done && Arrived(r.0, level, news)))
  {
    hide Publish, Publishable;
    if w.platform == OpenShift {
      var was := OperatorOf(w);
      var swept := Sweep(w, was.related, a.fates);
      var desired := Desired(was, swept.related, level, news, a.now);
      PublishNotEmpty(was.conditions, news, a.now);
      if SameStatus(was, desired, swept.related) {
        PublishArrives(swept, level, news, was.conditions, a.now);
      }
    } else if w.install.value == Publish([], news, a.now) {
      PublishArrives(w, level, news, [], a.now);
    }
  }

  /** However many conflicts come first, what is to be published gets published. */
  lemma {:induction false} ConflictsAreOvercome(w: World, level: bool, news: seq<Condition>, script: Script, k: nat)
    requires Publishable(level, news) && GetsThrough(script, k) && (w.platform == Kubernetes ==> w.install.Some?)
    ensures Arrived(Set(w, level, news, script), level, news)
    decreases k
  {
    hide Publish, Publishable, Arrived, AttemptSet, Sweep;
    if k == 0 {
      CleanSetStores(w, level, news, script);
      SetFrame(w, level, news, script);
      var now := script[0].now;
      var was := if w.platform == OpenShift then StoredConditions(w) else [];
      PublishArrives(Set(w, level, news, script), level, news, was, now);
    } else {
      ConflictIsRetried(w, level, news, script[0]);
      var r := AttemptSet(w, level, news, script[0]);
      if r.1 == Retry {
        ConflictsAreOvercome(r.0, level, news, script[1..], k - 1);
      }
    }
  }

  /** Any other failure is final: what the later attempts would answer makes no difference. */
  lemma FailureIsFinal(w: World, level: bool, news: seq<Condition>, script: Script, other: Script)
    requires script != [] && other != [] && script[0] == other[0]
    requires !script[0].readOk || (script[0].write != Conflict && script[0].installWrite != Conflict)
    ensures Set(w, level, news, script) == Set(w, level, news, other)
  {
    hide Publish, Sweep;
  }

  /** The snapshot is stored exactly when some attempt reads and writes it and all before it met
      a conflict. */
  lemma {:induction false} SaveOkIff(save: seq<SaveAttempt>)
    ensures SaveOk(save) <==>
              exists k :: 0 <= k < |save| && save[k].readOk && save[k].write == Written
                          && forall i :: 0 <= i < k ==> save[i].readOk && save[i].write == Conflict
  {
    if save != [] {
      SaveOkIff(save[1..]);
      if k :| 0 <= k < |save[1..]| && save[1..][k].readOk && save[1..][k].write == Written
              && forall i :: 0 <= i < k ==> save[1..][i].readOk && save[1..][i].write == Conflict {
        assert save[k + 1] == save[1..][k];
        if save[0].readOk && save[0].write == Conflict {
          forall i | 0 <= i < k + 1 ensures save[i].readOk && save[i].write == Conflict {
            assert i > 0 ==> save[i] == save[1..][i - 1];
          }
        }
      }
      if k :| 0 < k < |save| && save[k].readOk && save[k].write == Written
              && forall i :: 0 <= i < k ==> save[i].readOk && save[i].write == Conflict {
        assert save[1..][k - 1] == save[k];
        assert forall i :: 0 <= i < k - 1 ==> save[1..][i] == save[i + 1];
      }
    }
  }

  // ---------------------------------------------------------------------------
  // The copy in the AntreaInstall
  // ---------------------------------------------------------------------------

  /** The AntreaInstall shows what the ClusterOperator says. */
  predicate Mirrored(w: World) {
    w.operator.Some? && w.install == Some(w.operator.value.conditions)
  }

  /** Neither the conditions of the ClusterOperator nor their copy changed. */
  predicate SameCopy(w: World, w': World) {
    && w.operator.Some? && w'.operator.Some?
    && w'.operator.value.conditions == w.operator.value.conditions && w'.install == w.install
  }

  /** A fault-free write on OpenShift copies the conditions whenever it updates them; when it has
      to create the ClusterOperator it copies nothing. */
  lemma CleanSetCopies(w: World, level: bool, news: seq<Condition>, script: Script)
    requires w.platform == OpenShift && FaultFree(script) && w.install.Some?
    ensures var w' := Set(w, level, news, script);
            && (w.operator.Some? ==> Mirrored(w') || SameCopy(w, w'))
            && (w.operator.None? ==> w'.operator.Some? && w'.install == w.install)
  {
    var a := script[0];
    var swept := Sweep(w, Listed(w), a.fates);
    assert swept.operator == w.operator && swept.install == w.install;
    PublishNotEmpty(OperatorOf(w).conditions, news, a.now);
    hide Publish, Sweep;
    assert AttemptSet(w, level, news, a).1 == Done;
  }

  /** So after a fault-free `SetFromPods` the copy is right whenever the conditions changed, and
      stays right. */
  lemma SetFromPodsCopies(w: World, p: Pods)
    requires w.platform == OpenShift && DegradedOnly(w) && w.operator.Some? && w.install.Some?
    requires FaultFree(p.first) && FaultFree(p.second) && FaultFree(p.third)
    ensures var v := SetFromPods(w, p);
            && (Mirrored(w) ==> Mirrored(v))
            && (StoredConditions(v) != StoredConditions(w) ==> Mirrored(v))
  {
    hide Set, ScanAll, ScanDaemonSets, LowestFrom, ProgressConditions;
    var scan := ScanAll(w, p);
    var w0 := w.(failing := w.failing[POD_DEPLOYMENT := None]);
    CleanSetCopies(w0, false, [LowestFrom(w0.failing, 0)], p.first);
    SetFrame(w0, false, [LowestFrom(w0.failing, 0)], p.first);
    var w1 := SetNotDegraded(w, POD_DEPLOYMENT, p.first);
    var w2 := Save(w1, Snapshot(ScanDaemonSets(w, p).states, scan.states), p.save);
    CleanSetCopies(w2, scan.level, ProgressConditions(scan.progressing, scan.level), p.second);
    SetFrame(w2, scan.level, ProgressConditions(scan.progressing, scan.level), p.second);
    var w3 := Set(w2, scan.level, ProgressConditions(scan.progressing, scan.level), p.second);
    var w4 := w3.(failing := w3.failing[ROLLOUT_HUNG := HungFailure(scan.hung)]);
    CleanSetCopies(w4, false, [LowestFrom(w4.failing, 0)], p.third);
  }

  // ---------------------------------------------------------------------------
  // Kubernetes
  // ---------------------------------------------------------------------------

  /** Neither the ClusterOperator nor its annotation was touched, nor anything deleted. */
  ghost predicate OperatorUntouched(w: World, w': World) {
    && w'.operator == w.operator && w'.snapshot == w.snapshot && w.log <= w'.log
    && forall j :: |w.log| <= j < |w'.log| ==> w'.log[j] == InstallWrite
  }

  lemma {:induction false} KubernetesSet(w: World, level: bool, news: seq<Condition>, script: Script)
    requires w.platform == Kubernetes
    ensures OperatorUntouched(w, Set(w, level, news, script))
    decreases |script|
  {
    hide Publish;
    if script != [] {
      var r := AttemptSet(w, level, news, script[0]);
      AttemptFrame(w, level, news, script[0]);
      if r.1 == Retry {
        KubernetesSet(r.0, level, news, script[1..]);
      }
    }
  }

  lemma KubernetesStep(w: World, op: Op)
    requires w.platform == Kubernetes
    ensures OperatorUntouched(w, Step(w, op)) && Step(w, op).platform == Kubernetes
  {
    hide Set, ScanAll, ScanDaemonSets, LowestFrom, ProgressConditions;
    match op
    case OpSetDegraded(level, reason, message, script) =>
      KubernetesSync(w, level, Some(Failure(reason, message)), script);
    case OpSetNotDegraded(level, script) =>
      KubernetesSync(w, level, None, script);
    case OpSetFromPods(p) =>
      var scan := ScanAll(w, p);
      KubernetesSync(w, POD_DEPLOYMENT, None, p.first);
      var w1 := SetNotDegraded(w, POD_DEPLOYMENT, p.first);
      KubernetesSet(w1, scan.level, ProgressConditions(scan.progressing, scan.level), p.second);
      SetFrame(w1, scan.level, ProgressConditions(scan.progressing, scan.level), p.second);
      var w2 := Set(w1, scan.level, ProgressConditions(scan.progressing, scan.level), p.second);
      KubernetesSync(w2, ROLLOUT_HUNG, HungFailure(scan.hung), p.third);
    case _ =>
  }

  lemma KubernetesSync(w: World, level: Level, failure: Option<Condition>, script: Script)
    requires w.platform == Kubernetes
    ensures var w' := SyncDegraded(w.(failing := w.failing[level := failure]), script);
            OperatorUntouched(w, w') && w'.platform == Kubernetes
  {
    var w1 := w.(failing := w.failing[level := failure]);
    KubernetesSet(w1, false, [LowestFrom(w1.failing, 0)], script);
    SetFrame(w1, false, [LowestFrom(w1.failing, 0)], script);
  }

  /** On Kubernetes no run touches a ClusterOperator or its annotation, or deletes anything. */
  lemma {:induction false} KubernetesWritesInstallOnly(w: World, ops: seq<Op>)
    requires w.platform == Kubernetes
    ensures OperatorUntouched(w, Run(w, ops)) && Run(w, ops).platform == Kubernetes
  {
    hide Step;
    if ops != [] {
      KubernetesWritesInstallOnly(w, ops[..|ops| - 1]);
      KubernetesStep(Run(w, ops[..|ops| - 1]), ops[|ops| - 1]);
    }
  }

  // ---------------------------------------------------------------------------
  // What is tracked
  // ---------------------------------------------------------------------------

  lemma RelatedIsHandedOver(w: World, ops: seq<Op>, objects: Option<seq<ObjectReference>>)
    ensures Run(w, ops + [OpSetRelatedObjects(objects)]).related == objects
  {
    var all := ops + [OpSetRelatedObjects(objects)];
    assert all[..|all| - 1] == ops;
  }

  /** The names handed over last, or none since a restart. */
  function LastTracked(start: seq<Name>, ops: seq<Op>, kind: Kind): seq<Name> {
    if ops == [] then start
    else
      match ops[|ops| - 1]
      case OpSetDaemonSets(names) => if kind == DaemonSet then names else LastTracked(start, ops[..|ops| - 1], kind)
      case OpSetDeployments(names) => if kind == Deployment then names else LastTracked(start, ops[..|ops| - 1], kind)
      case OpRestart => []
      case _ => LastTracked(start, ops[..|ops| - 1], kind)
  }

  /** The tracked workloads are those handed over last, whatever else was done. */
  lemma {:induction false} TracksFollowCalls(w: World, ops: seq<Op>)
    requires DegradedOnly(w)
    ensures Run(w, ops).daemonSets == LastTracked(w.daemonSets, ops, DaemonSet)
    ensures Run(w, ops).deployments == LastTracked(w.deployments, ops, Deployment)
  {
    hide SetFromPods, SyncDegraded;
    if ops != [] {
      var before, op := ops[..|ops| - 1], ops[|ops| - 1];
      var v := Run(w, before);
      TracksFollowCalls(w, before);
      LedgerOverRuns(w, before);
      match op
      case OpSetDegraded(level, reason, message, script) =>
        LevelOrderly(v, level, Some(Failure(reason, message)), script);
      case OpSetNotDegraded(level, script) =>
        LevelOrderly(v, level, None, script);
      case OpSetFromPods(pods) =>
        FromPodsFrame(v, pods);
      case _ =>
    }
  }
}
