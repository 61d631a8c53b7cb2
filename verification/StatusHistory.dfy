/** Hung rollouts as a function of the whole history of a run. */
module StatusHistory {
  import opened Basics
  import opened Conditions
  import opened Rollout
  import opened StatusModel
  import opened StatusRuns
  import opened StatusVerdicts

  // ---------------------------------------------------------------------------
  // The history of one workload
  // ---------------------------------------------------------------------------

  function Position(names: seq<Name>, who: Name): (i: nat)
    ensures i <= |names|
    ensures i < |names| ==> names[i] == who
    ensures i == |names| <==> who !in names
  {
    if names == [] || names[0] == who then 0 else 1 + Position(names[1..], who)
  }

  /** The workload is tracked and this call looks it up successfully. */
  predicate Observed(w: World, pods: Pods, kind: Kind, who: Name) {
    var i := Position(w.Tracks(kind), who);
    i < |w.Tracks(kind)| && pods.Replies(kind)(i).Found?
  }

  function Observation(w: World, pods: Pods, kind: Kind, who: Name): Item
    requires Observed(w, pods, kind, who)
  {
    Sighting(pods.Replies(kind)(Position(w.Tracks(kind), who)))
  }

  /** What one `SetFromPods` adds to the history of a workload. */
  function Items(w: World, pods: Pods, kind: Kind, who: Name): seq<Item> {
    (if w.platform == OpenShift && pods.snapshotReadOk then [] else [Forget]) +
    (if Observed(w, pods, kind, who) then [Observation(w, pods, kind, who)] else [])
  }

  function Adds(w: World, op: Op, kind: Kind, who: Name): seq<Item> {
    if op.OpSetFromPods? then Items(w, op.pods, kind, who) else []
  }

  /** Everything the run saw of a workload, with the points at which its snapshot was lost.
      Failed lookups and calls that do not track it leave no trace. */
  function History(w: World, ops: seq<Op>, kind: Kind, who: Name): seq<Item> {
    if ops == [] then []
    else
      var before, op := ops[..|ops| - 1], ops[|ops| - 1];
      History(w, before, kind, who) + Adds(Run(w, before), op, kind, who)
  }

  /** The scan of this call was written to the annotation. */
  predicate SnapshotStored(w: World, pods: Pods) {
    SaveOk(pods.save) && SetNotDegraded(w, POD_DEPLOYMENT, pods.first).operator.Some?
  }

  function Stores(w: World, op: Op, kind: Kind, who: Name): seq<Item> {
    if op.OpSetFromPods? && SnapshotStored(w, op.pods) then Items(w, op.pods, kind, who) else []
  }

  /** The part of the history that was seen by calls that stored their snapshot. */
  function Kept(w: World, ops: seq<Op>, kind: Kind, who: Name): seq<Item> {
    if ops == [] then []
    else
      var before, op := ops[..|ops| - 1], ops[|ops| - 1];
      Kept(w, before, kind, who) + Stores(Run(w, before), op, kind, who)
  }

  /** A run that starts without a snapshot and tracks distinct names; anything may fail in it. */
  ghost predicate WatchedRun(w: World, ops: seq<Op>) {
    && w.platform == OpenShift && w.snapshot == NO_SNAPSHOT
    && DegradedOnly(w) && DistinctTracks(w)
    && forall op :: op in ops ==> DistinctNames(op)
  }

  /** The workloads reported as hung by the RolloutHung level. */
  function HungLines(w: World): seq<Line> {
    if w.failing[ROLLOUT_HUNG].Some? then w.failing[ROLLOUT_HUNG].value.message else []
  }

  // ---------------------------------------------------------------------------
  // One call
  // ---------------------------------------------------------------------------

  function KindStart(w: World, pods: Pods, kind: Kind): Scan {
    if kind == DaemonSet then
      Scan(Recalled(w, pods).daemonSets, [], [], |w.daemonSets| + |w.deployments| > 0)
    else
      ScanDaemonSets(w, pods).(states := Recalled(w, pods).deployments)
  }

  function KindScan(w: World, pods: Pods, kind: Kind): Scan {
    if kind == DaemonSet then ScanDaemonSets(w, pods) else ScanAll(w, pods)
  }

  lemma KindIsTracked(w: World, pods: Pods, kind: Kind, who: Name)
    requires DistinctTracks(w)
    ensures var was := Entry(Recalled(w, pods).Of(kind), who);
            && Entry(KindScan(w, pods, kind).states, who) ==
               (if Observed(w, pods, kind, who) then After(was, Observation(w, pods, kind, who)) else was)
            && (Reported(KindScan(w, pods, kind).hung, kind, who) <==>
                  || Reported(KindStart(w, pods, kind).hung, kind, who)
                  || (Observed(w, pods, kind, who) && HungNow(was, Observation(w, pods, kind, who))))
  {
    var names, replies := w.Tracks(kind), pods.Replies(kind);
    var i := Position(names, who);
    if i < |names| {
      ScanTracks(kind, names, replies, |names|, KindStart(w, pods, kind), i);
    } else {
      assert names[..|names|] == names;
      ScanOthers(kind, names, replies, |names|, KindStart(w, pods, kind), who);
    }
  }

  /** The two loops do not disturb each other's reports. */
  lemma LoopsAreSeparate(w: World, pods: Pods, kind: Kind, who: Name)
    ensures !Reported(KindStart(w, pods, kind).hung, kind, who)
    ensures Reported(ScanAll(w, pods).hung, kind, who) <==> Reported(KindScan(w, pods, kind).hung, kind, who)
  {
    if kind == DaemonSet {
      ScanOtherKind(Deployment, w.deployments, pods.deployments, |w.deployments|, KindStart(w, pods, Deployment),
          DaemonSet, who);
    } else {
      ScanOtherKind(DaemonSet, w.daemonSets, pods.daemonSets, |w.daemonSets|, KindStart(w, pods, DaemonSet),
          Deployment, who);
    }
  }

  lemma SnapshotAfter(w: World, pods: Pods, kind: Kind, who: Name)
    requires w.platform == OpenShift && DegradedOnly(w) && SnapshotStored(w, pods)
    ensures Entry(SetFromPods(w, pods).snapshot.Of(kind), who) == Entry(KindScan(w, pods, kind).states, who)
  {
    LevelOrderly(w, POD_DEPLOYMENT, None, pods.first);
    SetFromPodsOrderly(w, pods);
  }

  lemma SnapshotUntouched(w: World, op: Op)
    requires DegradedOnly(w) && !op.OpSetFromPods?
    ensures Step(w, op).snapshot == w.snapshot
  {
    match op
    case OpSetDegraded(level, reason, message, script) =>
      LevelOrderly(w, level, Some(Failure(reason, message)), script);
    case OpSetNotDegraded(level, script) => LevelOrderly(w, level, None, script);
    case _ =>
  }

  // ---------------------------------------------------------------------------
  // Whole runs
  // ---------------------------------------------------------------------------

  lemma {:induction false} MemoryExtends(h: seq<Item>, items: seq<Item>)
    requires |items| <= 2
    ensures Memory(h + items) ==
            if items == [] then Memory(h)
            else if |items| == 1 then After(Memory(h), items[0])
            else After(After(Memory(h), items[0]), items[1])
  {
    if |items| == 0 {
      assert h + items == h;
    } else {
      var last := |items| - 1;
      assert (h + items)[..|h + items| - 1] == h + items[..last];
      MemoryExtends(h, items[..last]);
    }
  }

  /** The maps a call ends up with hold the memory of the extended history. */
  lemma ScanIsMemory(w: World, pods: Pods, kind: Kind, who: Name, h: seq<Item>)
    requires w.platform == OpenShift && DistinctTracks(w)
    requires Entry(w.snapshot.Of(kind), who) == Memory(h)
    ensures Entry(KindScan(w, pods, kind).states, who) == Memory(h + Items(w, pods, kind, who))
  {
    hide KindScan, KindStart, Reported, Observed, Observation;
    KindIsTracked(w, pods, kind, who);
    MemoryExtends(h, Items(w, pods, kind, who));
  }

  /** A snapshot that could not be stored leaves the old one in place. */
  lemma SnapshotLost(w: World, pods: Pods)
    requires DegradedOnly(w) && !SnapshotStored(w, pods)
    ensures SetFromPods(w, pods).snapshot == w.snapshot
  {
    LevelOrderly(w, POD_DEPLOYMENT, None, pods.first);
    SetFromPodsOrderly(w, pods);
  }

  /** One operation extends what is kept. */
  lemma SnapshotStep(w: World, op: Op, kind: Kind, who: Name, h: seq<Item>)
    requires w.platform == OpenShift && DegradedOnly(w) && DistinctTracks(w)
    requires Entry(w.snapshot.Of(kind), who) == Memory(h)
    ensures Entry(Step(w, op).snapshot.Of(kind), who) == Memory(h + Stores(w, op, kind, who))
  {
    hide SetFromPods, KindScan, Items, SnapshotStored;
    if !op.OpSetFromPods? {
      SnapshotUntouched(w, op);
      assert h + [] == h;
    } else if SnapshotStored(w, op.pods) {
      ScanIsMemory(w, op.pods, kind, who, h);
      SnapshotAfter(w, op.pods, kind, who);
    } else {
      SnapshotLost(w, op.pods);
      assert h + [] == h;
    }
  }

  lemma VerdictExtends(w: World, pods: Pods, kind: Kind, who: Name, h: seq<Item>)
    requires w.platform == OpenShift && Observed(w, pods, kind, who)
    requires Entry(w.snapshot.Of(kind), who) == Memory(h)
    ensures HungAt(h + Items(w, pods, kind, who)) <==>
              HungNow(Entry(Recalled(w, pods).Of(kind), who), Observation(w, pods, kind, who))
  {
    hide Observed, Observation, HungNow;
    var items := Items(w, pods, kind, who);
    assert (h + items)[..|h + items| - 1] == h + items[..|items| - 1];
    MemoryExtends(h, items[..|items| - 1]);
  }

  lemma HungLinesAreScanned(w: World, pods: Pods)
    requires DegradedOnly(w)
    ensures HungLines(SetFromPods(w, pods)) == ScanAll(w, pods).hung
  {
    hide SetFromPods, ScanAll;
    FromPodsFrame(w, pods);
  }

  /** One call reports a workload exactly when it looks it up and the entry it read back says so. */
  lemma HungVerdict(w: World, pods: Pods, kind: Kind, who: Name)
    requires DegradedOnly(w) && DistinctTracks(w)
    ensures Reported(HungLines(SetFromPods(w, pods)), kind, who) <==>
              && Observed(w, pods, kind, who)
              && HungNow(Entry(Recalled(w, pods).Of(kind), who), Observation(w, pods, kind, who))
  {
    hide SetFromPods, ScanAll, KindScan, KindStart, HungLines, Reported, Observed, Observation, HungNow, Recalled;
    HungLinesAreScanned(w, pods);
    KindIsTracked(w, pods, kind, who);
    LoopsAreSeparate(w, pods, kind, who);
  }

  /** A report says since when: the start that the pass remembers. */
  lemma HungReportSaysSince(w: World, pods: Pods, kind: Kind, who: Name, t: Time)
    requires DegradedOnly(w) && DistinctTracks(w)
    requires HungRollout(kind, who, t) in HungLines(SetFromPods(w, pods))
    ensures var entry := Entry(KindScan(w, pods, kind).states, who); entry.Some? && entry.value.since == t
  {
    hide SetFromPods;
    HungLinesAreScanned(w, pods);
    var line := HungRollout(kind, who, t);
    if kind == DaemonSet {
      HungLineOfOthers(Deployment, w.deployments, pods.deployments, |w.deployments|,
          KindStart(w, pods, Deployment), line);
      HungLineSaysSince(DaemonSet, w.daemonSets, pods.daemonSets, |w.daemonSets|, KindStart(w, pods, DaemonSet),
          who, t);
    } else {
      HungLineOfOthers(DaemonSet, w.daemonSets, pods.daemonSets, |w.daemonSets|, KindStart(w, pods, DaemonSet), line);
      HungLineSaysSince(Deployment, w.deployments, pods.deployments, |w.deployments|, KindStart(w, pods, Deployment),
          who, t);
    }
  }

  /** So exactly when the extended history says so. */
  lemma HungStep(w: World, pods: Pods, kind: Kind, who: Name, h: seq<Item>)
    requires w.platform == OpenShift && DegradedOnly(w) && DistinctTracks(w)
    requires Entry(w.snapshot.Of(kind), who) == Memory(h)
    ensures Reported(HungLines(SetFromPods(w, pods)), kind, who) <==>
              Observed(w, pods, kind, who) && HungAt(h + Items(w, pods, kind, who))
  {
    hide SetFromPods, HungLines, Reported, Observed, Observation, HungAt, HungNow, Items, Recalled;
    HungVerdict(w, pods, kind, who);
    if Observed(w, pods, kind, who) {
      VerdictExtends(w, pods, kind, who, h);
    }
  }

  /** What the annotation remembers of a workload is the memory of what was kept of its history,
      across any operations, restarts, failed reads and failed writes. */
  lemma {:induction false} SnapshotIsMemory(w: World, ops: seq<Op>, kind: Kind, who: Name)
    requires WatchedRun(w, ops)
    ensures Entry(Run(w, ops).snapshot.Of(kind), who) == Memory(Kept(w, ops, kind, who))
    ensures Run(w, ops).platform == OpenShift && DegradedOnly(Run(w, ops)) && DistinctTracks(Run(w, ops))
  {
    LedgerOverRuns(w, ops);
    TracksStayDistinct(w, ops);
    if ops != [] {
      var before := ops[..|ops| - 1];
      SnapshotIsMemory(w, before, kind, who);
      SnapshotStep(Run(w, before), ops[|ops| - 1], kind, who, Kept(w, before, kind, who));
    }
  }

  lemma LastCall(w: World, ops: seq<Op>, pods: Pods, kind: Kind, who: Name)
    ensures var all := ops + [OpSetFromPods(pods)];
            && Run(w, all) == SetFromPods(Run(w, ops), pods)
            && History(w, all, kind, who) == History(w, ops, kind, who) + Items(Run(w, ops), pods, kind, who)
            && Kept(w, all, kind, who) == Kept(w, ops, kind, who) + Stores(Run(w, ops), OpSetFromPods(pods), kind, who)
  {
    var all := ops + [OpSetFromPods(pods)];
    assert all[..|all| - 1] == ops;
  }

  /** What a call judges a workload by: what was kept of its history, and what the call sees. */
  function Judged(w: World, ops: seq<Op>, pods: Pods, kind: Kind, who: Name): seq<Item> {
    Kept(w, ops, kind, who) + Items(Run(w, ops), pods, kind, who)
  }

  predicate ShortIteration(w: World, pods: Pods, kind: Kind, who: Name)
    requires Observed(w, pods, kind, who)
  {
    var o := Observation(w, pods, kind, who); o.later - o.now <= PROGRESS_TIMEOUT
  }

  /** Hung detection over whole runs, whatever snapshot reads and writes failed: after a
      `SetFromPods` the RolloutHung level names a workload exactly when this call looked it up
      and what it judges the workload by says so. */
  lemma HungOverRuns(w: World, ops: seq<Op>, pods: Pods, kind: Kind, who: Name)
    requires WatchedRun(w, ops)
    ensures Reported(HungLines(Run(w, ops + [OpSetFromPods(pods)])), kind, who) <==>
              Observed(Run(w, ops), pods, kind, who) && HungAt(Judged(w, ops, pods, kind, who))
  {
    SnapshotIsMemory(w, ops, kind, who);
    HungStep(Run(w, ops), pods, kind, who, Kept(w, ops, kind, who));
    LastCall(w, ops, pods, kind, who);
  }

  lemma LastItem(w: World, pods: Pods, kind: Kind, who: Name, h: seq<Item>)
    requires Observed(w, pods, kind, who)
    ensures var all := h + Items(w, pods, kind, who); all != [] && all[|all| - 1] == Observation(w, pods, kind, who)
  {
  }

  /** The same, in terms of the trailing run alone: when no iteration takes longer than the
      timeout, the workload is named exactly when the longest trailing run of successful
      observations in what it is judged by that are unfinished with one identical status began
      strictly more than the timeout ago. */
  lemma HungIsJudgedByTrailingRun(w: World, ops: seq<Op>, pods: Pods, kind: Kind, who: Name)
    requires WatchedRun(w, ops)
    requires Observed(Run(w, ops), pods, kind, who) && ShortIteration(Run(w, ops), pods, kind, who)
    ensures Reported(HungLines(Run(w, ops + [OpSetFromPods(pods)])), kind, who) <==>
            Overdue(Judged(w, ops, pods, kind, who))
  {
    HungOverRuns(w, ops, pods, kind, who);
    LastItem(Run(w, ops), pods, kind, who, Kept(w, ops, kind, who));
    HungExactlyByRun(Judged(w, ops, pods, kind, who));
  }

  // ---------------------------------------------------------------------------
  // When a lost snapshot does no harm
  // ---------------------------------------------------------------------------

  /** The maps of this call say of the workload what the annotation says already. */
  predicate NothingNew(w: World, pods: Pods, kind: Kind, who: Name) {
    Entry(KindScan(w, pods, kind).states, who) == Entry(w.snapshot.Of(kind), who)
  }

  /** A lost write is harmless exactly when it would have stored the entry that is there. */
  lemma LostWriteIsHarmlessIff(w: World, pods: Pods, kind: Kind, who: Name, h: seq<Item>)
    requires w.platform == OpenShift && DegradedOnly(w) && DistinctTracks(w) && !SnapshotStored(w, pods)
    requires Entry(w.snapshot.Of(kind), who) == Memory(h)
    ensures Entry(SetFromPods(w, pods).snapshot.Of(kind), who) == Memory(h + Items(w, pods, kind, who)) <==>
              NothingNew(w, pods, kind, who)
  {
    hide SetFromPods, KindScan;
    ScanIsMemory(w, pods, kind, who, h);
    SnapshotLost(w, pods);
  }

  /** After `ops` the annotation remembers the whole history of the workload. */
  predicate Remembered(w: World, ops: seq<Op>, kind: Kind, who: Name) {
    Entry(Run(w, ops).snapshot.Of(kind), who) == Memory(History(w, ops, kind, who))
  }

  /** The operation does not lose anything new about the workload. */
  predicate LosesNothing(w: World, op: Op, kind: Kind, who: Name) {
    op.OpSetFromPods? && !SnapshotStored(w, op.pods) ==> NothingNew(w, op.pods, kind, who)
  }

  ghost predicate LossesHarmless(w: World, ops: seq<Op>, kind: Kind, who: Name) {
    forall k :: 0 <= k < |ops| ==> LosesNothing(Run(w, ops[..k]), ops[k], kind, who)
  }

  lemma RememberedStep(w: World, op: Op, kind: Kind, who: Name, h: seq<Item>)
    requires w.platform == OpenShift && DegradedOnly(w) && DistinctTracks(w)
    requires Entry(w.snapshot.Of(kind), who) == Memory(h)
    ensures Entry(Step(w, op).snapshot.Of(kind), who) == Memory(h + Adds(w, op, kind, who)) <==>
            LosesNothing(w, op, kind, who)
  {
    hide SetFromPods, Items, SnapshotStored, NothingNew;
    if op.OpSetFromPods? && !SnapshotStored(w, op.pods) {
      LostWriteIsHarmlessIff(w, op.pods, kind, who, h);
    } else {
      SnapshotStep(w, op, kind, who, h);
    }
  }

  lemma HarmlessPrefix(w: World, ops: seq<Op>, kind: Kind, who: Name, n: nat)
    requires n <= |ops| && LossesHarmless(w, ops, kind, who)
    ensures LossesHarmless(w, ops[..n], kind, who)
  {
    hide Run, LosesNothing;
    forall k | 0 <= k < n ensures LosesNothing(Run(w, ops[..n][..k]), ops[..n][k], kind, who) {
      assert ops[..n][..k] == ops[..k];
      assert LosesNothing(Run(w, ops[..k]), ops[k], kind, who);
    }
  }

  lemma {:induction false} HarmlessIsRemembered(w: World, ops: seq<Op>, kind: Kind, who: Name)
    requires WatchedRun(w, ops) && LossesHarmless(w, ops, kind, who)
    ensures Remembered(w, ops, kind, who)
  {
    hide Step, LosesNothing, LossesHarmless;
    if ops != [] {
      var n := |ops| - 1;
      HarmlessPrefix(w, ops, kind, who, n);
      HarmlessIsRemembered(w, ops[..n], kind, who);
      SnapshotIsMemory(w, ops[..n], kind, who);
      HarmlessAt(w, ops, kind, who, n);
      RememberedStep(Run(w, ops[..n]), ops[n], kind, who, History(w, ops[..n], kind, who));
    }
  }

  lemma HarmlessAt(w: World, ops: seq<Op>, kind: Kind, who: Name, k: nat)
    requires k < |ops| && LossesHarmless(w, ops, kind, who)
    ensures LosesNothing(Run(w, ops[..k]), ops[k], kind, who)
  {
  }

  lemma RememberedTwice(w: World, ops: seq<Op>, kind: Kind, who: Name, k: nat)
    requires WatchedRun(w, ops) && k < |ops|
    requires Remembered(w, ops[..k], kind, who) && Remembered(w, ops[..k + 1], kind, who)
    ensures LosesNothing(Run(w, ops[..k]), ops[k], kind, who)
  {
    hide Step, LosesNothing;
    SnapshotIsMemory(w, ops[..k], kind, who);
    assert ops[..k + 1][..k] == ops[..k];
    RememberedStep(Run(w, ops[..k]), ops[k], kind, who, History(w, ops[..k], kind, who));
  }

  /** Over a run: the annotation remembers the whole history at every point exactly when every
      lost write was harmless, which is trivially so if none was lost. */
  lemma HistoryIsRememberedIff(w: World, ops: seq<Op>, kind: Kind, who: Name)
    requires WatchedRun(w, ops)
    ensures (forall k :: 0 <= k <= |ops| ==> Remembered(w, ops[..k], kind, who)) <==> LossesHarmless(w, ops, kind, who)
  {
    hide Run, Remembered, LosesNothing;
    if LossesHarmless(w, ops, kind, who) {
      forall k | 0 <= k <= |ops| ensures Remembered(w, ops[..k], kind, who) {
        HarmlessPrefix(w, ops, kind, who, k);
        HarmlessIsRemembered(w, ops[..k], kind, who);
      }
    }
    if forall k :: 0 <= k <= |ops| ==> Remembered(w, ops[..k], kind, who) {
      forall k | 0 <= k < |ops| ensures LosesNothing(Run(w, ops[..k]), ops[k], kind, who) {
        assert Remembered(w, ops[..k], kind, who) && Remembered(w, ops[..k + 1], kind, who);
        RememberedTwice(w, ops, kind, who, k);
      }
    }
  }

  /** So as long as lost writes are harmless the real history decides: the workload is named
      exactly when this call looked it up and its history, with the failed reads in it, says so. */
  lemma HungMatchesHistory(w: World, ops: seq<Op>, pods: Pods, kind: Kind, who: Name)
    requires WatchedRun(w, ops) && LossesHarmless(w, ops, kind, who)
    ensures var all := ops + [OpSetFromPods(pods)];
            Reported(HungLines(Run(w, all)), kind, who) <==>
              Observed(Run(w, ops), pods, kind, who) && HungAt(History(w, all, kind, who))
  {
    hide SetFromPods, Reported, HungLines, HungAt, Items;
    HarmlessIsRemembered(w, ops, kind, who);
    SnapshotIsMemory(w, ops, kind, who);
    HungStep(Run(w, ops), pods, kind, who, History(w, ops, kind, who));
    LastCall(w, ops, pods, kind, who);
  }

  /** With short iterations, exactly when the trailing run of the history is overdue. */
  lemma HungIsTrailingRun(w: World, ops: seq<Op>, pods: Pods, kind: Kind, who: Name)
    requires WatchedRun(w, ops) && LossesHarmless(w, ops, kind, who)
    requires Observed(Run(w, ops), pods, kind, who) && ShortIteration(Run(w, ops), pods, kind, who)
    ensures var all := ops + [OpSetFromPods(pods)];
            Reported(HungLines(Run(w, all)), kind, who) <==> Overdue(History(w, all, kind, who))
  {
    HungMatchesHistory(w, ops, pods, kind, who);
    LastCall(w, ops, pods, kind, who);
    LastItem(Run(w, ops), pods, kind, who, History(w, ops, kind, who));
    HungExactlyByRun(History(w, ops + [OpSetFromPods(pods)], kind, who));
  }

  /** Every snapshot was read back. */
  ghost predicate SnapshotsRead(ops: seq<Op>) {
    forall op :: op in ops && op.OpSetFromPods? ==> op.pods.snapshotReadOk
  }

  /** With every snapshot read back the history holds observations only, so nothing cuts it. */
  lemma {:induction false} ReadsKeepHistoryWhole(w: World, ops: seq<Op>, kind: Kind, who: Name)
    requires w.platform == OpenShift && DegradedOnly(w) && SnapshotsRead(ops)
    ensures Observations(History(w, ops, kind, who)) == History(w, ops, kind, who)
    ensures Run(w, ops).platform == OpenShift
  {
    if ops != [] {
      var before, op := ops[..|ops| - 1], ops[|ops| - 1];
      ReadsKeepHistoryWhole(w, before, kind, who);
      LedgerOverRuns(w, before);
      StepIsOrderly(Run(w, before), op);
      assert op in ops;
      AddsKeepWhole(History(w, before, kind, who), Adds(Run(w, before), op, kind, who));
    }
  }

  lemma AddsKeepWhole(h: seq<Item>, items: seq<Item>)
    requires Observations(h) == h
    requires items == [] || (|items| == 1 && items[0].Seen?)
    ensures Observations(h + items) == h + items
  {
    if items == [] {
      assert h + items == h;
    } else {
      assert (h + items)[..|h|] == h;
    }
  }

  // ---------------------------------------------------------------------------
  // A lost snapshot that does harm
  // ---------------------------------------------------------------------------

  const MINUTE: Time := 60_000_000_000

  /** A call that finds a deployment with one status at one time, and whose status writes all
      give up. */
  function Glance(status: Status, now: Time, save: seq<SaveAttempt>): Pods {
    Pods(true, _ => GetFailed, _ => Found(1, status, now, now), [], save, [], [])
  }

  lemma GlanceKeeps(w: World, status: Status, now: Time, save: seq<SaveAttempt>)
    requires DegradedOnly(w)
    ensures var w' := SetFromPods(w, Glance(status, now, save));
            && w'.platform == w.platform && DegradedOnly(w')
            && w'.daemonSets == w.daemonSets && w'.deployments == w.deployments
  {
    hide SetFromPods;
    FromPodsFrame(w, Glance(status, now, save));
    SetFromPodsOrderly(w, Glance(status, now, save));
  }

  lemma GlanceStores(w: World, status: Status, now: Time, save: seq<SaveAttempt>)
    requires DegradedOnly(w) && w.operator.Some?
    ensures SnapshotStored(w, Glance(status, now, save)) <==> SaveOk(save)
  {
    hide SyncDegraded;
    LevelOrderly(w, POD_DEPLOYMENT, None, []);
  }

  lemma GlanceAdds(w: World, status: Status, now: Time, save: seq<SaveAttempt>, who: Name)
    requires w.platform == OpenShift && w.deployments == [who]
    ensures Observed(w, Glance(status, now, save), Deployment, who)
    ensures Items(w, Glance(status, now, save), Deployment, who) == [Seen(status, !RolledOut(1, status), now, now)]
  {
  }

  const STUCK: Status := DeploymentStatus(1, 0, 1, "")
  const FINISHED: Status := DeploymentStatus(0, 1, 1, "")

  const SEEN_STUCK: Item := Seen(STUCK, true, 0, 0)
  const SEEN_FINISHED: Item := Seen(FINISHED, false, MINUTE, MINUTE)
  const SEEN_AGAIN: Item := Seen(STUCK, true, 11 * MINUTE, 11 * MINUTE)

  lemma ResumedTooEarly()
    ensures HungAt([SEEN_STUCK] + [SEEN_AGAIN]) && !Overdue([SEEN_STUCK] + [SEEN_FINISHED] + [SEEN_AGAIN])
  {
    assert ([SEEN_STUCK] + [SEEN_AGAIN])[..1] == [SEEN_STUCK];
    assert [SEEN_STUCK][..0] == [];
    assert !([SEEN_STUCK] + [SEEN_FINISHED] + [SEEN_AGAIN])[1].rolling;
  }

  /** A deployment is tracked, seen unfinished at time 0, seen finished a minute later, and seen
      unfinished again ten minutes after that. */
  const STUCK_CALL: Pods := Glance(STUCK, 0, [SaveAttempt(true, Written)])
  const FINISHED_CALL: Pods := Glance(FINISHED, MINUTE, [])
  const AGAIN_CALL: Pods := Glance(STUCK, 11 * MINUTE, [])

  function LostWriteRun(who: Name): seq<Op> {
    [OpSetDeployments([who])] + [OpSetFromPods(STUCK_CALL)] + [OpSetFromPods(FINISHED_CALL)]
  }

  lemma TrackOnly(w: World, who: Name)
    ensures var track := [OpSetDeployments([who])];
            && Run(w, track) == w.(deployments := [who])
            && History(w, track, Deployment, who) == [] && Kept(w, track, Deployment, who) == []
  {
    var track := [OpSetDeployments([who])];
    assert track[..|track| - 1] == [];
  }

  lemma LostWriteHistory(w: World, who: Name)
    requires w.platform == OpenShift && w.snapshot == NO_SNAPSHOT && w.operator.Some?
    requires DegradedOnly(w) && w.daemonSets == [] && w.deployments == []
    ensures var v := Run(w, LostWriteRun(who));
            && v.platform == OpenShift && DegradedOnly(v) && v.daemonSets == [] && v.deployments == [who]
            && History(w, LostWriteRun(who), Deployment, who) == [SEEN_STUCK] + [SEEN_FINISHED]
            && Kept(w, LostWriteRun(who), Deployment, who) == [SEEN_STUCK]
  {
    hide SetFromPods, SnapshotStored, Items, History, Kept, Run;
    var track := [OpSetDeployments([who])];
    var seen := track + [OpSetFromPods(STUCK_CALL)];
    TrackOnly(w, who);
    LastCall(w, track, STUCK_CALL, Deployment, who);
    GlanceAdds(Run(w, track), STUCK, 0, [SaveAttempt(true, Written)], who);
    GlanceKeeps(Run(w, track), STUCK, 0, [SaveAttempt(true, Written)]);
    GlanceStores(Run(w, track), STUCK, 0, [SaveAttempt(true, Written)]);
    OperatorStays(Run(w, track), STUCK_CALL);
    LastCall(w, seen, FINISHED_CALL, Deployment, who);
    GlanceAdds(Run(w, seen), FINISHED, MINUTE, [], who);
    GlanceKeeps(Run(w, seen), FINISHED, MINUTE, []);
    GlanceStores(Run(w, seen), FINISHED, MINUTE, []);
  }

  lemma OperatorStays(w: World, pods: Pods)
    requires DegradedOnly(w) && w.operator.Some?
    ensures SetFromPods(w, pods).operator.Some?
  {
    LevelOrderly(w, POD_DEPLOYMENT, None, pods.first);
    BeforeProgressOrderly(w, pods);
    ProgressOrderly(BeforeProgress(w, pods), ScanAll(w, pods), pods.second, pods.third);
    var scan := ScanAll(w, pods);
    var v := Set(BeforeProgress(w, pods), scan.level, ProgressConditions(scan.progressing, scan.level), pods.second);
    LevelOrderly(v, ROLLOUT_HUNG, HungFailure(scan.hung), pods.third);
  }

  /** From a new manager, one lost write that was not harmless makes a report too early: the
      snapshot that would have said finished is lost, so when the rollout resumes it is called
      hung at once, though its trailing run has only just begun. */
  lemma LostWriteReportsTooEarly(w: World, who: Name)
    requires w.platform == OpenShift && w.snapshot == NO_SNAPSHOT && w.operator.Some?
    requires DegradedOnly(w) && w.daemonSets == [] && w.deployments == []
    ensures var all := LostWriteRun(who) + [OpSetFromPods(AGAIN_CALL)];
            && Reported(HungLines(Run(w, all)), Deployment, who)
            && !Overdue(History(w, all, Deployment, who))
  {
    var ops := LostWriteRun(who);
    assert WatchedRun(w, ops);
    hide SetFromPods, SnapshotStored, Items, History, Kept, Run, LostWriteRun, WatchedRun, Overdue, HungAt, Reported;
    LostWriteHistory(w, who);
    LastCall(w, ops, AGAIN_CALL, Deployment, who);
    GlanceAdds(Run(w, ops), STUCK, 11 * MINUTE, [], who);
    ResumedTooEarly();
    HungOverRuns(w, ops, AGAIN_CALL, Deployment, who);
  }
}
