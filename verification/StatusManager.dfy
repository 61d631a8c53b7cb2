/** The status manager itself: fields updated in place, each method proved to take the state
    where the functions of `StatusModel` say. */
module StatusManagers {
  import opened Basics
  import opened Conditions
  import opened Rollout
  import opened StatusModel

  /** The podState that is marshalled into the last-seen annotation. */
  datatype Annotation = Annotation(daemonSets: seq<PodState>, deployments: seq<PodState>)

  /** The objects the API server keeps for the manager, and the requests it has received. */
  class ApiServer {
    var operator: Option<OperatorStatus>
    var annotation: Option<Annotation>
    var install: Option<seq<Condition>>
    ghost var log: seq<Event>

    constructor (operator: Option<OperatorStatus>, install: Option<seq<Condition>>)
      ensures this.operator == operator && this.install == install
      ensures annotation == None && log == []
    {
      this.operator, this.install, this.annotation, this.log := operator, install, None, [];
    }

    ghost function Snapshot(): Snapshot
      reads this
    {
      if annotation.None? then NO_SNAPSHOT
      else
        var a := annotation.value;
        StatusModel.Snapshot(LoadUpTo(a.daemonSets, |a.daemonSets|), LoadUpTo(a.deployments, |a.deployments|))
    }
  }

  class StatusManager {
    const platform: Platform
    const server: ApiServer
    const failing: array<Option<Condition>>
    var daemonSets: seq<Name>
    var deployments: seq<Name>
    var relatedObjects: Option<seq<ObjectReference>>
    ghost var rendered: Option<seq<ObjectReference>>

    ghost predicate Valid()
      reads this
    {
      failing.Length == 5
    }

    /** The state of the model this manager and its API server are in. */
    ghost function View(): World
      reads this, server, failing
      requires Valid()
    {
      World(platform, failing[..], daemonSets, deployments, relatedObjects, rendered,
            server.operator, server.Snapshot(), server.install, server.log)
    }

    constructor (platform: Platform, server: ApiServer)
      ensures Valid() && fresh(failing)
      ensures this.platform == platform && this.server == server
      ensures View() == World(platform, [None, None, None, None, None], [], [], None, None,
                              server.operator, server.Snapshot(), server.install, server.log)
    {
      this.platform, this.server := platform, server;
      failing := new Option<Condition>[5](_ => None);
      daemonSets, deployments, relatedObjects, rendered := [], [], None, None;
    }

    /** Objects listed by the ClusterOperator but not rendered any more are deleted; one whose
        deletion could not be carried out stays on the list, which grows inside the loop. */
    method DeleteRelatedObjectsNotRendered(current: seq<ObjectReference>, fates: nat -> Fate)
      requires Valid()
      modifies this`relatedObjects, server`log
      ensures Valid() && View() == Sweep(old(View()), current, fates)
    {
      if relatedObjects.None? {
        return;
      }
      ghost var start := Swept(relatedObjects.value, server.log);
      for i := 0 to |current|
        invariant relatedObjects.Some?
        invariant Swept(relatedObjects.value, server.log) == SweepUpTo(start, current, fates, i)
      {
        var obj, found := current[i], false;
        for j := 0 to |relatedObjects.value|
          invariant found <==> obj in relatedObjects.value[..j]
        {
          found := obj == relatedObjects.value[j];
          if found {
            break;
          }
        }
        if !found {
          var fate := fates(i);
          if fate.lookup.NoKind? {
            relatedObjects := Some(relatedObjects.value + [obj]);
            continue;
          }
          if fate.lookup.kind == "Namespace" && fate.lookup.group == "" {
            server.log := server.log + [NamespaceKept(obj, fate.lookup)];
            continue;
          }
          server.log := server.log + [Deletion(obj, fate.lookup, fate.delete)];
          if fate.delete != DeleteOk {
            if fate.delete != DeleteNotFound {
              relatedObjects := Some(relatedObjects.value + [obj]);
            }
            continue;
          }
        }
      }
    }

    /** The conditions and versions to store, starting from the conditions read back. */
    method SetClusterOperatorConditions(status: OperatorStatus, level: bool, news: seq<Condition>, now: Time)
      returns (result: OperatorStatus)
      ensures result == OperatorStatus(Publish(status.conditions, news, now), status.related,
                                       if level then OPERATOR_VERSION else status.versions)
    {
      result := status;
      if level {
        result := result.(versions := OPERATOR_VERSION);
      }
      var conditions, _ := CombineConditions(result.conditions, news, now);
      var progressing, available := Find(conditions, Progressing), Find(conditions, Available);
      if available.None? && progressing.Some? && progressing.value.status == ConditionTrue {
        conditions := SetCondition(conditions, STARTUP, now);
      }
      conditions := SetCondition(conditions, UPGRADEABLE, now);
      result := result.(conditions := conditions);
    }

    method SetAntreaInstallStatus(conditions: seq<Condition>, a: Attempt) returns (outcome: Outcome)
      requires Valid()
      modifies server`install, server`log
      ensures Valid() && (View(), outcome) == PatchInstall(old(View()), conditions, a)
    {
      if !a.installReadOk {
        return GiveUp;
      }
      if server.install.None? {
        return Done;
      }
      if a.installWrite != Written {
        return FromWrite(a.installWrite);
      }
      server.install := Some(conditions);
      server.log := server.log + [InstallWrite];
      return Done;
    }

    /** One attempt of the OpenShift adaptor. */
    method TryOpenShift(level: bool, news: seq<Condition>, a: Attempt) returns (outcome: Outcome)
      requires Valid()
      modifies this`relatedObjects, server`operator, server`install, server`log
      ensures Valid() && (View(), outcome) == AttemptOpenShift(old(View()), level, news, a)
    {
      if !a.readOk {
        return GiveUp;
      }
      var isNotFound := server.operator.None?;
      var status := if isNotFound then NO_STATUS else server.operator.value;
      var oldStatus := status;
      DeleteRelatedObjectsNotRendered(status.related, a.fates);
      if relatedObjects.Some? {
        status := status.(related := relatedObjects.value);
      }
      status := SetClusterOperatorConditions(status, level, news, a.now);
      if SameStatus(oldStatus, status, relatedObjects) {
        return Done;
      }
      if isNotFound {
        if a.write != Written {
          return FromWrite(a.write);
        }
        server.operator := Some(if a.keepsStatus then status else NO_STATUS);
        server.log := server.log + [OperatorWrite(server.operator.value.conditions, a.now)];
        return Done;
      }
      if a.write != Written {
        return FromWrite(a.write);
      }
      server.operator := Some(status);
      server.log := server.log + [OperatorWrite(status.conditions, a.now)];
      outcome := SetAntreaInstallStatus(status.conditions, a);
    }

    /** One attempt of the Kubernetes adaptor, which always starts from no conditions. */
    method TryKubernetes(level: bool, news: seq<Condition>, a: Attempt) returns (outcome: Outcome)
      requires Valid()
      modifies server`install, server`log
      ensures Valid() && (View(), outcome) == AttemptKubernetes(old(View()), news, a)
    {
      if !a.readOk || server.install.None? {
        return GiveUp;
      }
      var status := SetClusterOperatorConditions(NO_STATUS, level, news, a.now);
      if server.install.value == status.conditions {
        return Done;
      }
      outcome := SetAntreaInstallStatus(status.conditions, a);
    }

    method Try(level: bool, news: seq<Condition>, a: Attempt) returns (outcome: Outcome)
      requires Valid()
      modifies this`relatedObjects, server`operator, server`install, server`log
      ensures Valid() && (View(), outcome) == AttemptSet(old(View()), level, news, a)
    {
      if platform == OpenShift {
        outcome := TryOpenShift(level, news, a);
      } else {
        outcome := TryKubernetes(level, news, a);
      }
    }

    /** The adaptor's `set`: attempts are repeated while they end in a conflict. */
    method Set(level: bool, news: seq<Condition>, script: Script)
      requires Valid()
      modifies this`relatedObjects, server`operator, server`install, server`log
      ensures Valid() && View() == StatusModel.Set(old(View()), level, news, script)
      decreases |script|
    {
      if script != [] {
        var outcome := Try(level, news, script[0]);
        if outcome == Retry {
          Set(level, news, script[1..]);
        }
      }
    }

    method SyncDegraded(script: Script)
      requires Valid()
      modifies this`relatedObjects, server`operator, server`install, server`log
      ensures Valid() && View() == StatusModel.SyncDegraded(old(View()), script)
    {
      for l := 0 to failing.Length
        invariant View() == old(View())
        invariant LowestFrom(failing[..], 0) == LowestFrom(failing[..], l)
      {
        if failing[l].Some? {
          Set(false, [failing[l].value], script);
          return;
        }
      }
      Set(false, [NOT_DEGRADED], script);
    }

    method SetDegraded(level: Level, reason: string, message: seq<Line>, script: Script)
      requires Valid()
      modifies this`relatedObjects, failing, server`operator, server`install, server`log
      ensures Valid() && View() == StatusModel.SetDegraded(old(View()), level, reason, message, script)
    {
      failing[level] := Some(Failure(reason, message));
      assert failing[..] == old(failing[..])[level := Some(Failure(reason, message))];
      SyncDegraded(script);
    }

    method SetNotDegraded(level: Level, script: Script)
      requires Valid()
      modifies this`relatedObjects, failing, server`operator, server`install, server`log
      ensures Valid() && View() == StatusModel.SetNotDegraded(old(View()), level, script)
    {
      if failing[level].Some? {
        failing[level] := None;
      }
      assert failing[..] == old(failing[..])[level := None];
      SyncDegraded(script);
    }

    method GetLastPodState(readOk: bool) returns (daemonSetStates: States, deploymentStates: States)
      requires Valid()
      ensures forall pods: Pods | pods.snapshotReadOk == readOk ::
                Recalled(View(), pods) == Snapshot(daemonSetStates, deploymentStates)
    {
      daemonSetStates, deploymentStates := map[], map[];
      if platform == OpenShift && readOk && server.annotation.Some? {
        daemonSetStates := LoadStates(server.annotation.value.daemonSets);
        deploymentStates := LoadStates(server.annotation.value.deployments);
      }
    }

    method SetLastPodState(daemonSetStates: States, deploymentStates: States, save: seq<SaveAttempt>)
      requires Valid()
      modifies server`annotation, server`log
      ensures Valid() && View() == Save(old(View()), Snapshot(daemonSetStates, deploymentStates), save)
    {
      if platform == Kubernetes {
        return;
      }
      var daemonSets := SaveStates(daemonSetStates);
      var deployments := SaveStates(deploymentStates);
      SnapshotRoundTrip(daemonSets, daemonSetStates);
      SnapshotRoundTrip(deployments, deploymentStates);
      var i := 0;
      while i < |save|
        invariant 0 <= i <= |save|
        invariant View() == old(View())
        invariant SaveOk(save[i..]) == SaveOk(save)
      {
        assert save[i..][0] == save[i] && save[i..][1..] == save[i + 1..];
        if !save[i].readOk || server.operator.None? || save[i].write == Failed {
          return;
        }
        if save[i].write == Written {
          server.annotation := Some(Annotation(daemonSets, deployments));
          server.log := server.log + [SnapshotWrite];
          return;
        }
        i := i + 1;
      }
    }

    method SetConditions(progressing: seq<Line>, level: bool, script: Script)
      requires Valid()
      modifies this`relatedObjects, server`operator, server`install, server`log
      ensures Valid()
      ensures View() == StatusModel.Set(old(View()), level, ProgressConditions(progressing, level), script)
    {
      var conditions: seq<Condition>;
      if |progressing| > 0 {
        conditions := [Condition(Progressing, ConditionTrue, "Deploying", progressing, 0)];
      } else {
        conditions := [Condition(Progressing, ConditionFalse, "", [], 0)];
      }
      if level {
        conditions := conditions + [Condition(Available, ConditionTrue, "", [], 0)];
      }
      assert conditions == ProgressConditions(progressing, level);
      Set(level, conditions, script);
    }

    /** Degraded, Progressing and Available from the state of the tracked workloads. */
    method SetFromPods(pods: Pods)
      requires Valid()
      modifies this`relatedObjects, failing, server
      ensures Valid() && View() == StatusModel.SetFromPods(old(View()), pods)
    {
      var level := |daemonSets| + |deployments| > 0;
      var daemonSetStates, deploymentStates := GetLastPodState(pods.snapshotReadOk);
      var first := ScanWorkloads(DaemonSet, daemonSets, pods.daemonSets, Scan(daemonSetStates, [], [], level));
      var scan := ScanWorkloads(Deployment, deployments, pods.deployments, first.(states := deploymentStates));
      assert first == StatusModel.ScanDaemonSets(View(), pods);
      assert scan == StatusModel.ScanAll(View(), pods);

      SetNotDegraded(POD_DEPLOYMENT, pods.first);
      SetLastPodState(first.states, scan.states, pods.save);
      SetConditions(scan.progressing, scan.level, pods.second);
      if |scan.hung| > 0 {
        SetDegraded(ROLLOUT_HUNG, "RolloutHung", scan.hung, pods.third);
      } else {
        SetNotDegraded(ROLLOUT_HUNG, pods.third);
      }
    }

    method SetDaemonSets(names: seq<Name>)
      requires Valid()
      modifies this`daemonSets
      ensures Valid() && View() == Step(old(View()), OpSetDaemonSets(names))
    {
      daemonSets := names;
    }

    method SetDeployments(names: seq<Name>)
      requires Valid()
      modifies this`deployments
      ensures Valid() && View() == Step(old(View()), OpSetDeployments(names))
    {
      deployments := names;
    }

    method SetRelatedObjects(objects: Option<seq<ObjectReference>>)
      requires Valid()
      modifies this`relatedObjects, this`rendered
      ensures Valid() && View() == Step(old(View()), OpSetRelatedObjects(objects))
    {
      relatedObjects, rendered := objects, objects;
    }
  }
}
