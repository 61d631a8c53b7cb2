/** What holds after any run of public operations and restarts, whatever the API server
    answers: the ledger of related objects, and the way Available moves. */
module StatusRuns {
  import opened Basics
  import opened Conditions
  import opened Rollout
  import opened StatusModel
  import opened TransitionTimes

  // ---------------------------------------------------------------------------
  // Vocabulary
  // ---------------------------------------------------------------------------

  /** What may be deleted: an object whose kind is known and is not the core Namespace. */
  predicate Deletable(lookup: Lookup) {
    lookup.Resolved? && (lookup.group != "" || lookup.kind != "Namespace")
  }

  /** An event after which `obj` may rightly be dropped from the list: it was deleted or found
      gone, or the mapper called it a core Namespace. */
  predicate Removes(e: Event, obj: ObjectReference) {
    || (e.Deletion? && e.obj == obj && e.result != DeleteError)
    || (e.NamespaceKept? && e.obj == obj && e.lookup == Resolved("", "Namespace"))
  }

  /** From `start` on only what may be deleted is deleted. */
  ghost predicate WellAimed(log: seq<Event>, start: nat) {
    forall j :: start <= j < |log| && log[j].Deletion? ==> Deletable(log[j].lookup)
  }

  ghost predicate RemovedSince(log: seq<Event>, start: nat, obj: ObjectReference) {
    exists j :: start <= j < |log| && Removes(log[j], obj)
  }

  /** Nothing listed in `w` is missing from `w'` unless it was removed in between, and only what
      may be deleted was. */
  ghost predicate Accounted(w: World, w': World) {
    && w.log <= w'.log && WellAimed(w'.log, |w.log|)
    && forall obj :: obj in Listed(w) ==> obj in Listed(w') || RemovedSince(w'.log, |w.log|, obj)
  }

  /** The rendered list is a prefix of the manager's list, and duplicates are never added. */
  ghost predicate Tidy(w: World) {
    && (w.rendered.Some? <==> w.related.Some?)
    && (w.related.Some? ==>
          && w.rendered.value <= w.related.value
          && (NoDup(w.rendered.value) ==> NoDup(w.related.value)))
  }

  /** Of the requests made since `w`, none deletes an object rendered in `w`. */
  ghost predicate SparesRendered(w: World, w': World) {
    forall j :: |w.log| <= j < |w'.log| && w'.log[j].Deletion? ==>
                  w.rendered.Some? && w'.log[j].obj !in w.rendered.value
  }

  /** Where Available stands: absent, starting up, reached; anything else is out of line. */
  function Stage(cs: seq<Condition>): nat {
    var available := Find(cs, Available);
    if available.None? then 0
    else if available.value.status == ConditionFalse && available.value.reason == "Startup" then 1
    else if available.value.status == ConditionTrue then 2
    else 3
  }

  /** Available is in line, and a recorded version means it was reached. */
  ghost predicate InLine(w: World) {
    && Stage(StoredConditions(w)) <= 2
    && (w.operator.Some? && w.operator.value.versions != [] ==> Stage(StoredConditions(w)) == 2)
  }

  ghost predicate Forward(w: World, w': World) {
    InLine(w) ==> InLine(w') && Stage(StoredConditions(w)) <= Stage(StoredConditions(w'))
  }

  /** What the operations on the status may do to the state, whatever the environment answers. */
  ghost predicate Orderly(w: World, w': World) {
    && w'.platform == w.platform && w'.rendered == w.rendered
    && Accounted(w, w')
    && (Tidy(w) ==> Tidy(w') && SparesRendered(w, w'))
    && (w.platform == OpenShift ==> Forward(w, w') && Stamped(w, w'))
    && (UniqueTypes(StoredConditions(w)) ==> UniqueTypes(StoredConditions(w')))
  }

  /** The conditions the operator passes to `set`. */
  ghost predicate Publishable(level: bool, news: seq<Condition>) {
    && UniqueTypes(news)
    && Find(news, Upgradeable).None?
    && (level <==> Find(news, Available).Some?)
    && (level ==> Find(news, Available).value.status == ConditionTrue)
  }

  // ---------------------------------------------------------------------------
  // One sweep over the listed objects
  // ---------------------------------------------------------------------------

  lemma SweepOneAccounts(p: Swept, obj: ObjectReference, fate: Fate)
    ensures var r := SweepOne(p, obj, fate);
            && p.related <= r.related && p.log <= r.log
            && (NoDup(p.related) ==> NoDup(r.related))
            && (obj in r.related || RemovedSince(r.log, |p.log|, obj))
            && (forall j :: |p.log| <= j < |r.log| && r.log[j].Deletion? ==> r.log[j].obj !in p.related)
            && NoWrite(r.log, |p.log|) && WellAimed(r.log, |p.log|)
  {
    var r := SweepOne(p, obj, fate);
    if obj !in r.related {
      assert Removes(r.log[|p.log|], obj);
    }
  }

  lemma {:induction false} SweepAccounts(s: Swept, current: seq<ObjectReference>, fates: nat -> Fate, n: nat)
    requires n <= |current|
    ensures var r := SweepUpTo(s, current, fates, n);
            && s.related <= r.related && s.log <= r.log
            && (NoDup(s.related) ==> NoDup(r.related))
            && (forall k :: 0 <= k < n ==> current[k] in r.related || RemovedSince(r.log, |s.log|, current[k]))
            && (forall j :: |s.log| <= j < |r.log| && r.log[j].Deletion? ==> r.log[j].obj !in s.related)
            && NoWrite(r.log, |s.log|) && WellAimed(r.log, |s.log|)
  {
    if n > 0 {
      hide SweepOne, NoDup, Removes;
      SweepAccounts(s, current, fates, n - 1);
      var p, r := SweepUpTo(s, current, fates, n - 1), SweepUpTo(s, current, fates, n);
      SweepOneAccounts(p, current[n - 1], fates(n - 1));
      forall k | 0 <= k < n - 1 ensures current[k] in r.related || RemovedSince(r.log, |s.log|, current[k]) {
        if current[k] !in p.related {
          var j :| |s.log| <= j < |p.log| && Removes(p.log[j], current[k]);
          assert r.log[j] == p.log[j];
        }
      }
    }
  }

  /** The turn of one listed object, position `i` of the list.  If the manager's list does not
      have it by then: its deletion is requested, with the answer of its fate, exactly when its
      kind is known and is not the core Namespace, which is passed over; and it is on the list
      afterwards exactly when its kind is unknown or its deletion failed other than by not being
      found.  If the list has it nothing happens.  The rest of the sweep only adds to both. */
  lemma SweepIsExact(s: Swept, current: seq<ObjectReference>, fates: nat -> Fate, i: nat)
    requires i < |current|
    ensures var before, after, end := SweepUpTo(s, current, fates, i), SweepUpTo(s, current, fates, i + 1),
                                      SweepUpTo(s, current, fates, |current|);
            var obj, fate := current[i], fates(i);
            && before.log <= after.log <= end.log && before.related <= after.related <= end.related
            && (obj in before.related ==> after == before)
            && (obj !in before.related ==>
                  && after.log == before.log +
                                  (if fate.lookup.NoKind? then []
                                   else if fate.lookup == Resolved("", "Namespace") then
                                     [NamespaceKept(obj, fate.lookup)]
                                   else [Deletion(obj, fate.lookup, fate.delete)])
                  && (obj in after.related <==>
                        || fate.lookup.NoKind?
                        || (Deletable(fate.lookup) && fate.delete != DeleteOk && fate.delete != DeleteNotFound)))
  {
    SweepGrows(s, current, fates, i + 1, |current|);
    var before := SweepUpTo(s, current, fates, i);
    SweepOneAccounts(before, current[i], fates(i));
    if current[i] !in before.related {
      SweepOneLogs(before, current[i], fates(i));
    }
  }

  lemma SweepOneLogs(p: Swept, obj: ObjectReference, fate: Fate)
    requires obj !in p.related
    ensures var r := SweepOne(p, obj, fate);
            && r.log == p.log + (if fate.lookup.NoKind? then []
                                 else if Deletable(fate.lookup) then [Deletion(obj, fate.lookup, fate.delete)]
                                 else [NamespaceKept(obj, fate.lookup)])
            && r.related == p.related +
               (if fate.lookup.NoKind? || (Deletable(fate.lookup) && fate.delete == DeleteError)
                then [obj]
                else [])
  {
  }

  lemma {:induction false} SweepGrows(s: Swept, current: seq<ObjectReference>, fates: nat -> Fate, m: nat, n: nat)
    requires m <= n <= |current|
    ensures var a, b := SweepUpTo(s, current, fates, m), SweepUpTo(s, current, fates, n);
            a.log <= b.log && a.related <= b.related
  {
    if m < n {
      SweepGrows(s, current, fates, m, n - 1);
      SweepOneAccounts(SweepUpTo(s, current, fates, n - 1), current[n - 1], fates(n - 1));
    }
  }

  lemma SweepKeeps(w: World, current: seq<ObjectReference>, fates: nat -> Fate)
    ensures var w' := Sweep(w, current, fates);
            && w' == w.(related := w'.related, log := w'.log)
            && w.log <= w'.log && NoWrite(w'.log, |w.log|) && WellAimed(w'.log, |w.log|)
            && (w.related.Some? <==> w'.related.Some?)
            && (Tidy(w) ==> Tidy(w') && SparesRendered(w, w'))
            && (w'.related.Some? ==>
                  forall obj :: obj in current ==> obj in w'.related.value || RemovedSince(w'.log, |w.log|, obj))
  {
    if w.related.Some? {
      SweepAccounts(Swept(w.related.value, w.log), current, fates, |current|);
    }
  }

  // ---------------------------------------------------------------------------
  // One status write
  // ---------------------------------------------------------------------------

  lemma PublishMovesForward(cs: seq<Condition>, level: bool, news: seq<Condition>, now: Time)
    requires Publishable(level, news)
    requires Stage(cs) <= 2
    ensures Stage(cs) <= Stage(Publish(cs, news, now)) <= 2
    ensures level ==> Stage(Publish(cs, news, now)) == 2
  {
    PublishFinds(cs, news, now, Available);
    CombineFinds(cs, news, now, Available);
  }

  lemma RemovedLater(w: World, w': World, log: seq<Event>, obj: ObjectReference)
    requires w'.log <= log && RemovedSince(w'.log, |w.log|, obj)
    ensures RemovedSince(log, |w.log|, obj)
  {
    var j :| |w.log| <= j < |w'.log| && Removes(w'.log[j], obj);
    assert log[j] == w'.log[j];
  }

  lemma OrderlyReflexive(w: World)
    ensures Orderly(w, w)
  {
    QuietIsStamped(w, w);
  }

  lemma OrderlyTransitive(u: World, v: World, w: World)
    requires Orderly(u, v) && Orderly(v, w)
    ensures Orderly(u, w)
  {
    if u.platform == OpenShift {
      StampedTransitive(u, v, w);
    }
    forall obj | obj in Listed(u) ensures obj in Listed(w) || RemovedSince(w.log, |u.log|, obj) {
      if obj in Listed(v) {
        if obj !in Listed(w) {
          var j :| |v.log| <= j < |w.log| && Removes(w.log[j], obj);
          assert |u.log| <= j;
        }
      } else {
        RemovedLater(u, v, w.log, obj);
      }
    }
    if Tidy(u) {
      forall j | |u.log| <= j < |w.log| && w.log[j].Deletion?
        ensures u.rendered.Some? && w.log[j].obj !in u.rendered.value
      {
        if j < |v.log| {
          assert w.log[j] == v.log[j];
        }
      }
    }
  }

  lemma InstallWritten(w: World, conditions: seq<Condition>, a: Attempt)
    ensures Orderly(w, PatchInstall(w, conditions, a).0)
  {
    var w' := PatchInstall(w, conditions, a).0;
    assert w'.log == w.log || w'.log == w.log + [InstallWrite];
    QuietIsStamped(w, w');
  }

  lemma SweepWritten(w: World, a: Attempt)
    ensures Orderly(w, Sweep(w, Listed(w), a.fates))
  {
    SweepKeeps(w, Listed(w), a.fates);
    QuietIsStamped(w, Sweep(w, Listed(w), a.fates));
  }

  /** Storing the desired status over a swept state. */
  lemma StoreWritten(w: World, level: bool, news: seq<Condition>, a: Attempt, stored: OperatorStatus)
    requires w.platform == OpenShift && Publishable(level, news)
    requires var was := if w.operator.Some? then w.operator.value else NO_STATUS;
             var swept := Sweep(w, was.related, a.fates);
             || stored == Desired(was, swept.related, level, news, a.now)
             || (w.operator.None? && stored == NO_STATUS)
    ensures var was := if w.operator.Some? then w.operator.value else NO_STATUS;
            var swept := Sweep(w, was.related, a.fates);
            Orderly(w, StoreOperator(swept, stored, a.now))
  {
    hide Sweep, Publish, Stamped;
    var was := if w.operator.Some? then w.operator.value else NO_STATUS;
    var swept := Sweep(w, was.related, a.fates);
    var w' := StoreOperator(swept, stored, a.now);
    SweepKeeps(w, was.related, a.fates);
    assert StoredConditions(swept) == was.conditions;
    QuietIsStamped(w, swept);
    if w.operator.None? && stored == NO_STATUS {
      StoreNothingIsStamped(swept, a.now);
    } else {
      StoreIsStamped(swept, stored, news, a.now);
    }
    StampedTransitive(w, swept, w');
    forall obj | obj in Listed(w) ensures obj in Listed(w') || RemovedSince(w'.log, |w.log|, obj) {
      if w.related.Some? && obj !in swept.related.value {
        RemovedLater(w, swept, w'.log, obj);
      }
    }
    if Stage(was.conditions) <= 2 {
      PublishMovesForward(was.conditions, level, news, a.now);
    }
    if UniqueTypes(was.conditions) {
      PublishKeepsUnique(was.conditions, news, a.now);
    }
  }

  lemma AttemptWritten(w: World, level: bool, news: seq<Condition>, a: Attempt)
    requires Publishable(level, news)
    ensures Orderly(w, AttemptSet(w, level, news, a).0)
  {
    OrderlyReflexive(w);
    if w.platform == OpenShift && a.readOk {
      var was := if w.operator.Some? then w.operator.value else NO_STATUS;
      var swept := Sweep(w, was.related, a.fates);
      var desired := Desired(was, swept.related, level, news, a.now);
      SweepWritten(w, a);
      if !SameStatus(was, desired, swept.related) && a.write == Written {
        var stored := if w.operator.None? && !a.keepsStatus then NO_STATUS else desired;
        StoreWritten(w, level, news, a, stored);
        var w' := StoreOperator(swept, stored, a.now);
        InstallWritten(w', desired.conditions, a);
        if w.operator.Some? {
          OrderlyTransitive(w, w', PatchInstall(w', desired.conditions, a).0);
        }
      }
    } else if w.platform == Kubernetes {
      InstallWritten(w, Publish([], news, a.now), a);
    }
  }

  lemma {:induction false} SetWritten(w: World, level: bool, news: seq<Condition>, script: Script)
    requires Publishable(level, news)
    ensures Orderly(w, Set(w, level, news, script))
    decreases |script|
  {
    OrderlyReflexive(w);
    if script != [] {
      AttemptWritten(w, level, news, script[0]);
      var r := AttemptSet(w, level, news, script[0]);
      if r.1 == Retry {
        SetWritten(r.0, level, news, script[1..]);
        OrderlyTransitive(w, r.0, Set(r.0, level, news, script[1..]));
      }
    }
  }

  /** A status write leaves the manager's levels, workloads and snapshot alone. */
  ghost predicate SameManager(w: World, w': World) {
    && w'.failing == w.failing && w'.daemonSets == w.daemonSets && w'.deployments == w.deployments
    && w'.rendered == w.rendered && w'.platform == w.platform && w'.snapshot == w.snapshot
    && (w.operator.Some? ==> w'.operator.Some?) && (w.install.Some? <==> w'.install.Some?)
  }

  lemma InstallFrame(w: World, conditions: seq<Condition>, a: Attempt)
    ensures SameManager(w, PatchInstall(w, conditions, a).0)
  {
  }

  lemma OpenShiftFrame(w: World, level: bool, news: seq<Condition>, a: Attempt)
    ensures SameManager(w, AttemptOpenShift(w, level, news, a).0)
  {
    var was := if w.operator.Some? then w.operator.value else NO_STATUS;
    var swept := Sweep(w, was.related, a.fates);
    assert SameManager(w, swept) && swept.operator == w.operator && swept.install == w.install;
    var desired := Desired(was, swept.related, level, news, a.now);
    InstallFrame(StoreOperator(swept, desired, a.now), desired.conditions, a);
  }

  lemma AttemptFrame(w: World, level: bool, news: seq<Condition>, a: Attempt)
    ensures SameManager(w, AttemptSet(w, level, news, a).0)
  {
    if w.platform == OpenShift {
      OpenShiftFrame(w, level, news, a);
    } else {
      InstallFrame(w, Publish([], news, a.now), a);
    }
  }

  lemma {:induction false} SetFrame(w: World, level: bool, news: seq<Condition>, script: Script)
    ensures SameManager(w, Set(w, level, news, script))
    decreases |script|
  {
    if script != [] {
      var r := AttemptSet(w, level, news, script[0]);
      AttemptFrame(w, level, news, script[0]);
      if r.1 == Retry {
        SetFrame(r.0, level, news, script[1..]);
      }
    }
  }

  // ---------------------------------------------------------------------------
  // Whole operations
  // ---------------------------------------------------------------------------

  /** The failing levels hold nothing but failures. */
  ghost predicate DegradedOnly(w: World) {
    forall i :: 0 <= i < 5 && w.failing[i].Some? ==>
                  w.failing[i].value.kind == Degraded && w.failing[i].value.status == ConditionTrue
  }

  lemma {:induction false} LowestIsDegraded(w: World, l: nat)
    requires l <= 5 && DegradedOnly(w)
    ensures LowestFrom(w.failing, l).kind == Degraded
    decreases 5 - l
  {
    if l < 5 && w.failing[l].None? {
      LowestIsDegraded(w, l + 1);
    }
  }

  lemma DegradedPublishable(w: World)
    requires DegradedOnly(w)
    ensures Publishable(false, [LowestFrom(w.failing, 0)])
  {
    LowestIsDegraded(w, 0);
  }

  lemma ProgressPublishable(progressing: seq<Line>, level: bool)
    ensures Publishable(level, ProgressConditions(progressing, level))
  {
    var news := ProgressConditions(progressing, level);
    assert news[0].kind == Progressing;
    assert level ==> news[1].kind == Available && IndexOf(news, Available) == 1;
  }

  lemma LevelOrderly(w: World, level: Level, failure: Option<Condition>, script: Script)
    requires DegradedOnly(w)
    requires failure.Some? ==> failure.value.kind == Degraded && failure.value.status == ConditionTrue
    ensures var w1 := w.(failing := w.failing[level := failure]);
            var w' := SyncDegraded(w1, script);
            && Orderly(w, w') && DegradedOnly(w')
            && SameManager(w1, w')
  {
    var w1 := w.(failing := w.failing[level := failure]);
    DegradedPublishable(w1);
    QuietIsStamped(w, w1);
    SetWritten(w1, false, [LowestFrom(w1.failing, 0)], script);
    SetFrame(w1, false, [LowestFrom(w1.failing, 0)], script);
    OrderlyTransitive(w, w1, SyncDegraded(w1, script));
  }

  /** Everything but the RolloutHung level, from the second status write on. */
  ghost predicate HungApart(w: World, w': World, hung: seq<Line>) {
    && Orderly(w, w') && DegradedOnly(w')
    && w'.failing == w.failing[ROLLOUT_HUNG := HungFailure(hung)]
    && w'.snapshot == w.snapshot && w'.daemonSets == w.daemonSets && w'.deployments == w.deployments
    && (w.install.Some? <==> w'.install.Some?)
  }

  lemma ProgressOrderly(w: World, scan: Scan, second: Script, third: Script)
    requires DegradedOnly(w)
    ensures var v := Set(w, scan.level, ProgressConditions(scan.progressing, scan.level), second);
            SameManager(w, v) && HungApart(w, SyncHung(v, scan.hung, third), scan.hung)
  {
    var news := ProgressConditions(scan.progressing, scan.level);
    var v := Set(w, scan.level, news, second);
    ProgressPublishable(scan.progressing, scan.level);
    SetWritten(w, scan.level, news, second);
    SetFrame(w, scan.level, news, second);
    LevelOrderly(v, ROLLOUT_HUNG, HungFailure(scan.hung), third);
    OrderlyTransitive(w, v, SyncHung(v, scan.hung, third));
  }

  lemma SaveOrderly(w: World, snapshot: Snapshot, save: seq<SaveAttempt>)
    ensures var v := Save(w, snapshot, save);
            Orderly(w, v) && v == w.(snapshot := v.snapshot, log := v.log)
  {
    QuietIsStamped(w, Save(w, snapshot, save));
  }

  /** The state in which the second status write of `SetFromPods` starts. */
  function BeforeProgress(w: World, pods: Pods): World {
    Save(SetNotDegraded(w, POD_DEPLOYMENT, pods.first),
        Snapshot(ScanDaemonSets(w, pods).states, ScanAll(w, pods).states), pods.save)
  }

  lemma BeforeProgressOrderly(w: World, pods: Pods)
    requires DegradedOnly(w)
    ensures var v := BeforeProgress(w, pods);
            && Orderly(w, v) && DegradedOnly(v)
            && v.failing == w.failing[POD_DEPLOYMENT := None]
            && v.daemonSets == w.daemonSets && v.deployments == w.deployments
            && (w.install.Some? <==> v.install.Some?)
  {
    var w1 := SetNotDegraded(w, POD_DEPLOYMENT, pods.first);
    LevelOrderly(w, POD_DEPLOYMENT, None, pods.first);
    SaveOrderly(w1, Snapshot(ScanDaemonSets(w, pods).states, ScanAll(w, pods).states), pods.save);
    OrderlyTransitive(w, w1, BeforeProgress(w, pods));
  }

  lemma SetFromPodsOrderly(w: World, pods: Pods)
    requires DegradedOnly(w)
    ensures Orderly(w, SetFromPods(w, pods)) && DegradedOnly(SetFromPods(w, pods))
    ensures HungApart(BeforeProgress(w, pods), SetFromPods(w, pods), ScanAll(w, pods).hung)
  {
    BeforeProgressOrderly(w, pods);
    ProgressOrderly(BeforeProgress(w, pods), ScanAll(w, pods), pods.second, pods.third);
    OrderlyTransitive(w, BeforeProgress(w, pods), SetFromPods(w, pods));
  }

  /** What every single operation guarantees from a reachable state. */
  ghost predicate StepKeeps(w: World, w': World) {
    && w'.platform == w.platform
    && Accounted(w, w')
    && (Tidy(w) ==> Tidy(w') && SparesRendered(w, w'))
    && (w.platform == OpenShift ==> Forward(w, w') && Stamped(w, w'))
    && (UniqueTypes(StoredConditions(w)) ==> UniqueTypes(StoredConditions(w')))
    && DegradedOnly(w')
  }

  lemma StepIsOrderly(w: World, op: Op)
    requires DegradedOnly(w)
    ensures StepKeeps(w, Step(w, op))
  {
    match op
    case OpSetFromPods(pods) => SetFromPodsOrderly(w, pods);
    case OpSetDegraded(level, reason, message, script) =>
      LevelOrderly(w, level, Some(Failure(reason, message)), script);
    case OpSetNotDegraded(level, script) => LevelOrderly(w, level, None, script);
    case _ => QuietIsStamped(w, Step(w, op));
  }

  // ---------------------------------------------------------------------------
  // The theorems
  // ---------------------------------------------------------------------------

  /** Ledger: over any run, with any failures and restarts, an object listed at the start is
      still listed at the end, or was deleted, found gone, or recognised as a core namespace,
      after that point.  The start is arbitrary, so it may be any state inside a longer run. */
  lemma {:induction false} LedgerOverRuns(w: World, ops: seq<Op>)
    requires DegradedOnly(w)
    ensures Accounted(w, Run(w, ops)) && DegradedOnly(Run(w, ops))
  {
    if ops != [] {
      var v := Run(w, ops[..|ops| - 1]);
      LedgerOverRuns(w, ops[..|ops| - 1]);
      StepIsOrderly(v, ops[|ops| - 1]);
      var w' := Run(w, ops);
      forall obj | obj in Listed(w) ensures obj in Listed(w') || RemovedSince(w'.log, |w.log|, obj) {
        if obj in Listed(v) {
          if obj !in Listed(w') {
            var j :| |v.log| <= j < |w'.log| && Removes(w'.log[j], obj);
            assert |w.log| <= j;
          }
        } else {
          RemovedLater(w, v, w'.log, obj);
        }
      }
    }
  }

  lemma {:induction false} RunSplits(w: World, ops: seq<Op>, k: nat)
    requires k <= |ops|
    ensures Run(Run(w, ops[..k]), ops[k..]) == Run(w, ops)
  {
    hide Step;
    if k == |ops| {
      assert ops[..k] == ops;
    } else {
      var before := ops[..|ops| - 1];
      RunSplits(w, before, k);
      assert before[..k] == ops[..k];
      assert ops[k..][..|ops[k..]| - 1] == before[k..];
    }
  }

  /** So every object listed at any point of a run is still listed at its end, or was removed
      after that point. */
  lemma NothingListedIsForgotten(w: World, ops: seq<Op>, k: nat, obj: ObjectReference)
    requires DegradedOnly(w) && k <= |ops|
    requires obj in Listed(Run(w, ops[..k]))
    ensures || obj in Listed(Run(w, ops))
            || RemovedSince(Run(w, ops).log, |Run(w, ops[..k]).log|, obj)
  {
    LedgerOverRuns(w, ops[..k]);
    LedgerOverRuns(Run(w, ops[..k]), ops[k..]);
    RunSplits(w, ops, k);
  }

  /** Over any run, whatever the API server answers, no object that the mapper calls a core
      Namespace, or whose kind it does not know, is ever deleted. */
  lemma NamespacesAreSpared(w: World, ops: seq<Op>)
    requires DegradedOnly(w)
    ensures var log := Run(w, ops).log;
            forall j :: |w.log| <= j < |log| && log[j].Deletion? ==>
                          log[j].lookup.Resolved? && (log[j].lookup.group != "" || log[j].lookup.kind != "Namespace")
  {
    LedgerOverRuns(w, ops);
  }

  /** In every reachable state the rendered list is a prefix of the manager's list, which has
      no duplicates if the rendered one has none, and the next operation, whatever it is,
      deletes nothing that is rendered. */
  lemma {:induction false} RenderedIsSafe(w: World, ops: seq<Op>, next: Op)
    requires DegradedOnly(w) && Tidy(w)
    ensures Tidy(Run(w, ops))
    ensures SparesRendered(Run(w, ops), Step(Run(w, ops), next))
  {
    if ops != [] {
      RenderedIsSafe(w, ops[..|ops| - 1], ops[|ops| - 1]);
      LedgerOverRuns(w, ops[..|ops| - 1]);
      StepIsOrderly(Run(w, ops[..|ops| - 1]), ops[|ops| - 1]);
    }
    LedgerOverRuns(w, ops);
    StepIsOrderly(Run(w, ops), next);
  }

  /** On OpenShift Available only moves forward, from absent over Startup to reached, and a
      recorded operator version implies that it was reached. */
  lemma {:induction false} AvailableOnlyMovesForward(w: World, ops: seq<Op>)
    requires DegradedOnly(w) && w.platform == OpenShift && InLine(w)
    ensures Run(w, ops).platform == OpenShift
    ensures InLine(Run(w, ops))
    ensures Stage(StoredConditions(w)) <= Stage(StoredConditions(Run(w, ops)))
  {
    if ops != [] {
      AvailableOnlyMovesForward(w, ops[..|ops| - 1]);
      LedgerOverRuns(w, ops[..|ops| - 1]);
      StepIsOrderly(Run(w, ops[..|ops| - 1]), ops[|ops| - 1]);
    }
  }

  /** Condition types stay unique in every reachable ClusterOperator. */
  lemma {:induction false} TypesStayUnique(w: World, ops: seq<Op>)
    requires DegradedOnly(w) && UniqueTypes(StoredConditions(w))
    ensures UniqueTypes(StoredConditions(Run(w, ops)))
  {
    if ops != [] {
      TypesStayUnique(w, ops[..|ops| - 1]);
      LedgerOverRuns(w, ops[..|ops| - 1]);
      StepIsOrderly(Run(w, ops[..|ops| - 1]), ops[|ops| - 1]);
    }
  }

  /** On OpenShift, over any run with any failures and restarts: the stored conditions are those
      of the last ClusterOperator write, and the transition time of every type is the time of
      the last write that changed the status of that type, or its original time if none did. */
  lemma {:induction false} TransitionTimesFollowFlips(w: World, ops: seq<Op>)
    requires DegradedOnly(w) && w.platform == OpenShift
    ensures Stamped(w, Run(w, ops)) && Run(w, ops).platform == OpenShift
  {
    if ops == [] {
      QuietIsStamped(w, w);
    } else {
      TransitionTimesFollowFlips(w, ops[..|ops| - 1]);
      LedgerOverRuns(w, ops[..|ops| - 1]);
      StepIsOrderly(Run(w, ops[..|ops| - 1]), ops[|ops| - 1]);
      StampedTransitive(w, Run(w, ops[..|ops| - 1]), Run(w, ops));
    }
  }
}
