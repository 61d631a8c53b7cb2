/** The status manager as a function of its state, the state the API server holds, and what
    the environment answers.  `StatusManager` runs the same steps in place; the theorems about
    whole runs are stated over these functions. */
module StatusModel {
  import opened Basics
  import opened Conditions
  import opened Rollout

  // ---------------------------------------------------------------------------
  // Data
  // ---------------------------------------------------------------------------

  type Failing = f: seq<Option<Condition>> | |f| == 5 witness [None, None, None, None, None]

  datatype ObjectReference = ObjectReference(group: string, resource: string, namespace: string, name: string)

  /** The status of the ClusterOperator. */
  datatype OperatorStatus = OperatorStatus(
    conditions: seq<Condition>,
    related: seq<ObjectReference>,
    versions: seq<string>)

  const NO_STATUS: OperatorStatus := OperatorStatus([], [], [])

  /** The two maps kept in the last-seen annotation. */
  datatype Snapshot = Snapshot(daemonSets: States, deployments: States)
  {
    function Of(kind: Kind): States {
      if kind == DaemonSet then daemonSets else deployments
    }
  }

  const NO_SNAPSHOT: Snapshot := Snapshot(map[], map[])

  datatype DeleteResult = DeleteOk | DeleteNotFound | DeleteError

  /** What the API server was asked to do, and which listed objects were passed over, each with
      what the mapper said of the object. */
  datatype Event =
    | Deletion(obj: ObjectReference, lookup: Lookup, result: DeleteResult)
    | NamespaceKept(obj: ObjectReference, lookup: Lookup)
    | OperatorWrite(conditions: seq<Condition>, at: Time)
    | InstallWrite
    | SnapshotWrite

  /** The manager's fields, the API server's objects, and the list handed to the last
      `SetRelatedObjects` (`rendered`, which only the theorems read). */
  datatype World = World(
    platform: Platform,
    failing: Failing,
    daemonSets: seq<Name>,
    deployments: seq<Name>,
    related: Option<seq<ObjectReference>>,
    rendered: Option<seq<ObjectReference>>,
    operator: Option<OperatorStatus>,
    snapshot: Snapshot,
    install: Option<seq<Condition>>,
    log: seq<Event>)
  {
    function Tracks(kind: Kind): seq<Name> {
      if kind == DaemonSet then daemonSets else deployments
    }
  }

  function Listed(w: World): seq<ObjectReference> {
    if w.operator.Some? then w.operator.value.related else []
  }

  function StoredConditions(w: World): seq<Condition> {
    if w.operator.Some? then w.operator.value.conditions else []
  }

  // ---------------------------------------------------------------------------
  // What the environment answers
  // ---------------------------------------------------------------------------

  datatype Lookup = NoKind | Resolved(group: string, kind: string)

  /** How the mapper and the API server treat one object that is no longer rendered. */
  datatype Fate = Fate(lookup: Lookup, delete: DeleteResult)

  datatype WriteResult = Written | Conflict | Failed

  /** The answers to one attempt inside `RetryOnConflict`; `keepsStatus` says whether creating
      a ClusterOperator stores its status or drops it. */
  datatype Attempt = Attempt(
    readOk: bool,
    now: Time,
    fates: nat -> Fate,
    write: WriteResult,
    keepsStatus: bool,
    installReadOk: bool,
    installWrite: WriteResult)

  /** The answers to one retried call, in order; a call that runs out of attempts gives up. */
  type Script = seq<Attempt>

  datatype SaveAttempt = SaveAttempt(readOk: bool, write: WriteResult)

  /** The answers to one `SetFromPods`. */
  datatype Pods = Pods(
    snapshotReadOk: bool,
    daemonSets: nat -> Reply,
    deployments: nat -> Reply,
    first: Script,
    save: seq<SaveAttempt>,
    second: Script,
    third: Script)
  {
    function Replies(kind: Kind): nat -> Reply {
      if kind == DaemonSet then daemonSets else deployments
    }
  }

  // ---------------------------------------------------------------------------
  // Related objects that are no longer rendered
  // ---------------------------------------------------------------------------

  /** The manager's list of related objects, and the requests made so far. */
  datatype Swept = Swept(related: seq<ObjectReference>, log: seq<Event>)

  predicate CoreNamespace(lookup: Lookup) {
    lookup.Resolved? && lookup.kind == "Namespace" && lookup.group == ""
  }

  function SweepOne(s: Swept, obj: ObjectReference, fate: Fate): Swept {
    if obj in s.related then s
    else if fate.lookup.NoKind? then s.(related := s.related + [obj])
    else if CoreNamespace(fate.lookup) then s.(log := s.log + [NamespaceKept(obj, fate.lookup)])
    else
      Swept(if fate.delete == DeleteError then s.related + [obj] else s.related,
            s.log + [Deletion(obj, fate.lookup, fate.delete)])
  }

  function SweepUpTo(s: Swept, current: seq<ObjectReference>, fates: nat -> Fate, n: nat): Swept
    requires n <= |current|
  {
    if n == 0 then s
    else SweepOne(SweepUpTo(s, current, fates, n - 1), current[n - 1], fates(n - 1))
  }

  /** `deleteRelatedObjectsNotRendered`. */
  function Sweep(w: World, current: seq<ObjectReference>, fates: nat -> Fate): World {
    if w.related.None? then w
    else
      var s := SweepUpTo(Swept(w.related.value, w.log), current, fates, |current|);
      w.(related := Some(s.related), log := s.log)
  }

  // ---------------------------------------------------------------------------
  // Publishing conditions
  // ---------------------------------------------------------------------------

  datatype Outcome = Done | Retry | GiveUp

  const OPERATOR_VERSION: seq<string> := ["operator"]

  /** The status the manager wants after `setClusterOperatorConditions`. */
  function Desired(was: OperatorStatus, related: Option<seq<ObjectReference>>, level: bool,
                   news: seq<Condition>, now: Time): OperatorStatus
  {
    OperatorStatus(
      Publish(was.conditions, news, now),
      if related.Some? then related.value else was.related,
      if level then OPERATOR_VERSION else was.versions)
  }

  /** `reflect.DeepEqual` of the two statuses.  A list that is empty but not nil never equals
      what was read back, where an empty list is nil. */
  predicate SameStatus(was: OperatorStatus, desired: OperatorStatus, related: Option<seq<ObjectReference>>) {
    was == desired && related != Some([])
  }

  function FromWrite(r: WriteResult): Outcome {
    match r
    case Written => Done
    case Conflict => Retry
    case Failed => GiveUp
  }

  /** `setAntreaInstallStatus`. */
  function PatchInstall(w: World, conditions: seq<Condition>, a: Attempt): (World, Outcome) {
    if !a.installReadOk then (w, GiveUp)
    else if w.install.None? then (w, Done)
    else if a.installWrite == Written then
      (w.(install := Some(conditions), log := w.log + [InstallWrite]), Done)
    else (w, FromWrite(a.installWrite))
  }

  function StoreOperator(w: World, status: OperatorStatus, now: Time): World {
    w.(operator := Some(status), log := w.log + [OperatorWrite(status.conditions, now)])
  }

  function AttemptOpenShift(w: World, level: bool, news: seq<Condition>, a: Attempt): (World, Outcome) {
    if !a.readOk then (w, GiveUp)
    else
      var was := if w.operator.Some? then w.operator.value else NO_STATUS;
      var swept := Sweep(w, was.related, a.fates);
      var desired := Desired(was, swept.related, level, news, a.now);
      if SameStatus(was, desired, swept.related) then (swept, Done)
      else if a.write != Written then (swept, FromWrite(a.write))
      else if w.operator.None? then
        (StoreOperator(swept, if a.keepsStatus then desired else NO_STATUS, a.now), Done)
      else
        PatchInstall(StoreOperator(swept, desired, a.now), desired.conditions, a)
  }

  function AttemptKubernetes(w: World, news: seq<Condition>, a: Attempt): (World, Outcome) {
    if !a.readOk || w.install.None? then (w, GiveUp)
    else
      var conditions := Publish([], news, a.now);
      if w.install.value == conditions then (w, Done) else PatchInstall(w, conditions, a)
  }

  function AttemptSet(w: World, level: bool, news: seq<Condition>, a: Attempt): (World, Outcome) {
    if w.platform == OpenShift then AttemptOpenShift(w, level, news, a) else AttemptKubernetes(w, news, a)
  }

  /** The adaptors' `set`, with its bounded retry. */
  function Set(w: World, level: bool, news: seq<Condition>, script: Script): World
    decreases |script|
  {
    if script == [] then w
    else
      var r := AttemptSet(w, level, news, script[0]);
      if r.1 == Retry then Set(r.0, level, news, script[1..]) else r.0
  }

  // ---------------------------------------------------------------------------
  // Degraded levels
  // ---------------------------------------------------------------------------

  function Failure(reason: string, message: seq<Line>): Condition {
    Condition(Degraded, ConditionTrue, reason, message, 0)
  }

  const NOT_DEGRADED: Condition := Condition(Degraded, ConditionFalse, "", [], 0)

  /** The first failure from level `l` on. */
  function LowestFrom(failing: Failing, l: nat): (c: Condition)
    requires l <= 5
    ensures (forall i :: l <= i < 5 ==> failing[i].None?) ==> c == NOT_DEGRADED
    ensures forall i :: l <= i < 5 && failing[i].Some? && (forall j :: l <= j < i ==> failing[j].None?) ==>
              c == failing[i].value
    decreases 5 - l
  {
    if l == 5 then NOT_DEGRADED
    else if failing[l].Some? then failing[l].value
    else LowestFrom(failing, l + 1)
  }

  function SyncDegraded(w: World, script: Script): World {
    Set(w, false, [LowestFrom(w.failing, 0)], script)
  }

  function SetDegraded(w: World, level: Level, reason: string, message: seq<Line>, script: Script): World {
    SyncDegraded(w.(failing := w.failing[level := Some(Failure(reason, message))]), script)
  }

  function SetNotDegraded(w: World, level: Level, script: Script): World {
    SyncDegraded(w.(failing := w.failing[level := None]), script)
  }

  // ---------------------------------------------------------------------------
  // SetFromPods
  // ---------------------------------------------------------------------------

  function ProgressConditions(progressing: seq<Line>, level: bool): seq<Condition> {
    [if progressing != [] then Condition(Progressing, ConditionTrue, "Deploying", progressing, 0)
     else Condition(Progressing, ConditionFalse, "", [], 0)] +
    if level then [Condition(Available, ConditionTrue, "", [], 0)] else []
  }

  /** `getLastPodState`: only OpenShift remembers, and a failed read remembers nothing. */
  function Recalled(w: World, pods: Pods): Snapshot {
    if w.platform == OpenShift && pods.snapshotReadOk then w.snapshot else NO_SNAPSHOT
  }

  function ScanDaemonSets(w: World, pods: Pods): Scan {
    ScanUpTo(DaemonSet, w.daemonSets, pods.daemonSets, |w.daemonSets|,
             Scan(Recalled(w, pods).daemonSets, [], [], |w.daemonSets| + |w.deployments| > 0))
  }

  function ScanAll(w: World, pods: Pods): Scan {
    ScanUpTo(Deployment, w.deployments, pods.deployments, |w.deployments|,
             ScanDaemonSets(w, pods).(states := Recalled(w, pods).deployments))
  }

  function SaveOk(save: seq<SaveAttempt>): bool {
    save != [] && save[0].readOk && (save[0].write == Written || (save[0].write == Conflict && SaveOk(save[1..])))
  }

  /** `setLastPodState`: a patch of a ClusterOperator that does not exist fails. */
  function Save(w: World, snapshot: Snapshot, save: seq<SaveAttempt>): World {
    if w.platform == OpenShift && w.operator.Some? && SaveOk(save) then
      w.(snapshot := Snapshot(Named(snapshot.daemonSets), Named(snapshot.deployments)), log := w.log + [SnapshotWrite])
    else w
  }

  /** What the RolloutHung level holds for these lines. */
  function HungFailure(hung: seq<Line>): Option<Condition> {
    if hung != [] then Some(Failure("RolloutHung", hung)) else None
  }

  function SyncHung(w: World, hung: seq<Line>, script: Script): World {
    if hung != [] then SetDegraded(w, ROLLOUT_HUNG, "RolloutHung", hung, script)
    else SetNotDegraded(w, ROLLOUT_HUNG, script)
  }

  function SetFromPods(w: World, pods: Pods): World {
    var scan := ScanAll(w, pods);
    var w1 := SetNotDegraded(w, POD_DEPLOYMENT, pods.first);
    var w2 := Save(w1, Snapshot(ScanDaemonSets(w, pods).states, scan.states), pods.save);
    var w3 := Set(w2, scan.level, ProgressConditions(scan.progressing, scan.level), pods.second);
    SyncHung(w3, scan.hung, pods.third)
  }

  // ---------------------------------------------------------------------------
  // Runs
  // ---------------------------------------------------------------------------

  /** The public operations, and a restart of the operator process: the manager's memory is
      gone, the API server's objects stay. */
  datatype Op =
    | OpSetFromPods(pods: Pods)
    | OpSetDegraded(level: Level, reason: string, message: seq<Line>, script: Script)
    | OpSetNotDegraded(level: Level, script: Script)
    | OpSetDaemonSets(names: seq<Name>)
    | OpSetDeployments(names: seq<Name>)
    | OpSetRelatedObjects(objects: Option<seq<ObjectReference>>)
    | OpRestart

  function Step(w: World, op: Op): World {
    match op
    case OpSetFromPods(pods) => SetFromPods(w, pods)
    case OpSetDegraded(level, reason, message, script) => SetDegraded(w, level, reason, message, script)
    case OpSetNotDegraded(level, script) => SetNotDegraded(w, level, script)
    case OpSetDaemonSets(names) => w.(daemonSets := names)
    case OpSetDeployments(names) => w.(deployments := names)
    case OpSetRelatedObjects(objects) => w.(related := objects, rendered := objects)
    case OpRestart =>
      w.(failing := [None, None, None, None, None],
         daemonSets := [], deployments := [], related := None, rendered := None)
  }

  function Run(w: World, ops: seq<Op>): World {
    if ops == [] then w else Step(Run(w, ops[..|ops| - 1]), ops[|ops| - 1])
  }
}
