/** Hung reports against everything that was really seen of a workload, whatever snapshot reads
    and writes failed: exactly when a report can come too early. */
module StatusJustification {
  import opened Basics
  import opened Conditions
  import opened Rollout
  import opened StatusModel
  import opened StatusRuns
  import opened StatusVerdicts
  import opened StatusHistory

  // ---------------------------------------------------------------------------
  // What was really seen
  // ---------------------------------------------------------------------------

  /** All observations of a workload over a run, whatever became of the snapshots. */
  function Truth(w: World, ops: seq<Op>, kind: Kind, who: Name): seq<Item> {
    Observations(History(w, ops, kind, who))
  }

  /** What one operation really sees of the workload. */
  function Looks(w: World, op: Op, kind: Kind, who: Name): seq<Item> {
    if op.OpSetFromPods? && Observed(w, op.pods, kind, who) then [Observation(w, op.pods, kind, who)] else []
  }

  lemma {:induction false} ObservationsAppend(h: seq<Item>, items: seq<Item>)
    ensures Observations(h + items) == Observations(h) + Observations(items)
  {
    if items == [] {
      assert h + items == h;
    } else {
      assert (h + items)[..|h + items| - 1] == h + items[..|items| - 1];
      ObservationsAppend(h, items[..|items| - 1]);
    }
  }

  lemma AddsAreLooks(w: World, op: Op, kind: Kind, who: Name)
    ensures Observations(Adds(w, op, kind, who)) == Looks(w, op, kind, who)
  {
    hide Observed, Observation, Sighting;
    var items := Adds(w, op, kind, who);
    if items != [] {
      assert items[..|items| - 1] == [] || (items[..|items| - 1] == [Forget] && [Forget][..0] == []);
      assert op.OpSetFromPods? && Observed(w, op.pods, kind, who) ==> Observation(w, op.pods, kind, who).Seen? by {
        if op.OpSetFromPods? && Observed(w, op.pods, kind, who) {
          ObservationIsSeen(w, op.pods, kind, who);
        }
      }
    }
  }

  lemma ObservationIsSeen(w: World, pods: Pods, kind: Kind, who: Name)
    requires Observed(w, pods, kind, who)
    ensures Observation(w, pods, kind, who).Seen?
  {
  }

  lemma TruthExtends(w: World, ops: seq<Op>, op: Op, kind: Kind, who: Name)
    ensures Run(w, ops + [op]) == Step(Run(w, ops), op)
    ensures Truth(w, ops + [op], kind, who) == Truth(w, ops, kind, who) + Looks(Run(w, ops), op, kind, who)
  {
    hide Step, Adds, Looks;
    assert (ops + [op])[..|ops + [op]| - 1] == ops;
    ObservationsAppend(History(w, ops, kind, who), Adds(Run(w, ops), op, kind, who));
    AddsAreLooks(Run(w, ops), op, kind, who);
  }

  lemma {:induction false} TruthIsPrefix(w: World, ops: seq<Op>, kind: Kind, who: Name, k: nat)
    requires k <= |ops|
    ensures Truth(w, ops[..k], kind, who) <= Truth(w, ops, kind, who)
  {
    hide Run, Step, Truth, Looks;
    if k < |ops| {
      var before, op := ops[..|ops| - 1], ops[|ops| - 1];
      assert before + [op] == ops && before[..k] == ops[..k];
      TruthIsPrefix(w, before, kind, who, k);
      TruthExtends(w, before, op, kind, who);
    } else {
      assert ops[..k] == ops;
    }
  }

  // ---------------------------------------------------------------------------
  // When a report can come too early
  // ---------------------------------------------------------------------------

  function Remembers(w: World, kind: Kind, who: Name): Option<Tracked> {
    Entry(w.snapshot.Of(kind), who)
  }

  /** The clock does not run backwards over this call. */
  ghost predicate InTime(w: World, ops: seq<Op>, pods: Pods, kind: Kind, who: Name) {
    Observed(Run(w, ops), pods, kind, who) ==>
      var o := Observation(Run(w, ops), pods, kind, who);
      NotBefore(Truth(w, ops, kind, who), o) && o.now <= o.later
  }

  /** The call reports the workload although its real trailing run is not overdue. */
  ghost predicate TooEarly(w: World, ops: seq<Op>, pods: Pods, kind: Kind, who: Name) {
    var all := ops + [OpSetFromPods(pods)];
    Reported(HungLines(Run(w, all)), kind, who) && !Overdue(Truth(w, all, kind, who))
  }

  /** Every report is justified by all that was really seen, unless the entry in the annotation
      misleads. */
  lemma HungReportsAreJustified(w: World, ops: seq<Op>, pods: Pods, kind: Kind, who: Name)
    requires WatchedRun(w, ops) && InTime(w, ops, pods, kind, who)
    requires !Misleads(Remembers(Run(w, ops), kind, who), Truth(w, ops, kind, who))
    ensures !TooEarly(w, ops, pods, kind, who)
  {
    hide SetFromPods, Observed, Observation, HungNow, Overdue, HungLines, Reported, Truth, Misleads, NotBefore;
    var v := Run(w, ops);
    SnapshotIsMemory(w, ops, kind, who);
    HungVerdict(v, pods, kind, who);
    TruthExtends(w, ops, OpSetFromPods(pods), kind, who);
    if Reported(HungLines(Run(w, ops + [OpSetFromPods(pods)])), kind, who) {
      ObservationIsSeen(v, pods, kind, who);
      JustifiedUnlessMisled(Remembers(v, kind, who), Entry(Recalled(v, pods).Of(kind), who), Truth(w, ops, kind, who),
                            Observation(v, pods, kind, who));
    }
  }

  /** A call whose reads succeed and that finds everything with one unfinished status. */
  function Stare(status: Status, t: Time): Pods {
    var reply := Found(status.observed + 1, status, t, t);
    Pods(true, _ => reply, _ => reply, [], [], [], [])
  }

  lemma StareSees(w: World, status: Status, t: Time, kind: Kind, who: Name)
    requires who in w.Tracks(kind)
    ensures Observed(w, Stare(status, t), kind, who)
    ensures Observation(w, Stare(status, t), kind, who) == Seen(status, true, t, t)
  {
  }

  lemma MisledReportsTooEarly(w: World, ops: seq<Op>, kind: Kind, who: Name) returns (pods: Pods)
    requires WatchedRun(w, ops) && who in Run(w, ops).Tracks(kind) && Monotone(Truth(w, ops, kind, who))
    requires Misleads(Remembers(Run(w, ops), kind, who), Truth(w, ops, kind, who))
    ensures InTime(w, ops, pods, kind, who) && TooEarly(w, ops, pods, kind, who)
  {
    hide SetFromPods, Observed, Observation, HungNow, Overdue, HungLines, Reported, Misleads, Monotone, NotBefore;
    var v, entry, r := Run(w, ops), Remembers(Run(w, ops), kind, who), Truth(w, ops, kind, who);
    assert entry.Some? by {
      MisleadsSome(entry, r);
    }
    var t := MisleadingLook(entry, r);
    pods := Stare(entry.value.status, t);
    StareSees(v, entry.value.status, t, kind, who);
    SnapshotIsMemory(w, ops, kind, who);
    HungVerdict(v, pods, kind, who);
    TruthExtends(w, ops, OpSetFromPods(pods), kind, who);
  }

  lemma MisleadsSome(entry: Option<Tracked>, r: seq<Item>)
    requires Misleads(entry, r)
    ensures entry.Some?
  {
  }

  /** Exactly when the next call can report a tracked workload too early, after any run with any
      failed reads and writes: when the entry in the annotation misleads. */
  lemma TooEarlyIff(w: World, ops: seq<Op>, kind: Kind, who: Name)
    requires WatchedRun(w, ops) && who in Run(w, ops).Tracks(kind) && Monotone(Truth(w, ops, kind, who))
    ensures (exists pods :: InTime(w, ops, pods, kind, who) && TooEarly(w, ops, pods, kind, who)) <==>
              Misleads(Remembers(Run(w, ops), kind, who), Truth(w, ops, kind, who))
  {
    hide Run, Truth, TooEarly, InTime, Misleads;
    if Misleads(Remembers(Run(w, ops), kind, who), Truth(w, ops, kind, who)) {
      var pods := MisledReportsTooEarly(w, ops, kind, who);
    } else {
      forall pods | InTime(w, ops, pods, kind, who) ensures !TooEarly(w, ops, pods, kind, who) {
        HungReportsAreJustified(w, ops, pods, kind, who);
      }
    }
  }

  // ---------------------------------------------------------------------------
  // Which lost snapshots bring this about
  // ---------------------------------------------------------------------------

  /** If the operation looks the workload up and loses its snapshot, that is safe. */
  predicate LosesSafely(w: World, op: Op, kind: Kind, who: Name) {
    op.OpSetFromPods? && !SnapshotStored(w, op.pods) && Observed(w, op.pods, kind, who) ==>
      && Observation(w, op.pods, kind, who).Seen?
      && SafeToLose(Remembers(w, kind, who), Observation(w, op.pods, kind, who))
  }

  ghost predicate LossesSafe(w: World, ops: seq<Op>, kind: Kind, who: Name) {
    forall k :: 0 <= k < |ops| ==> LosesSafely(Run(w, ops[..k]), ops[k], kind, who)
  }

  /** The annotation claims no more of the workload than was really seen. */
  predicate Honest(w: World, ops: seq<Op>, kind: Kind, who: Name) {
    NotOlder(Remembers(Run(w, ops), kind, who), Memory(Truth(w, ops, kind, who)))
  }

  /** One `SetFromPods` keeps the entry honest exactly if its snapshot is stored or safe to lose. */
  lemma CallKeepsHonestIff(w: World, pods: Pods, kind: Kind, who: Name, r: seq<Item>)
    requires w.platform == OpenShift && DegradedOnly(w) && DistinctTracks(w)
    requires NotOlder(Remembers(w, kind, who), Memory(r))
    requires Observed(w, pods, kind, who) ==> NotBefore(r, Observation(w, pods, kind, who))
    ensures NotOlder(Remembers(SetFromPods(w, pods), kind, who),
            Memory(r + Looks(w, OpSetFromPods(pods), kind, who))) <==>
              LosesSafely(w, OpSetFromPods(pods), kind, who)
  {
    hide SetFromPods, SnapshotStored, KindScan, KindStart, Reported, Observed, Observation, After;
    var was := Entry(Recalled(w, pods).Of(kind), who);
    if Observed(w, pods, kind, who) {
      ObservationIsSeen(w, pods, kind, who);
      LostKeepsNotOlderIff(Remembers(w, kind, who), r, Observation(w, pods, kind, who));
      RecordedKeepsNotOlder(was, r, Observation(w, pods, kind, who));
    } else {
      assert r + [] == r;
    }
    if SnapshotStored(w, pods) {
      KindIsTracked(w, pods, kind, who);
      SnapshotAfter(w, pods, kind, who);
    } else {
      SnapshotLost(w, pods);
    }
  }

  lemma StepKeepsHonestIff(w: World, op: Op, kind: Kind, who: Name, r: seq<Item>)
    requires w.platform == OpenShift && DegradedOnly(w) && DistinctTracks(w)
    requires NotOlder(Remembers(w, kind, who), Memory(r))
    requires Monotone(r + Looks(w, op, kind, who)) && forall i :: 0 <= i < |r| ==> r[i].Seen?
    ensures NotOlder(Remembers(Step(w, op), kind, who), Memory(r + Looks(w, op, kind, who))) <==>
            LosesSafely(w, op, kind, who)
  {
    hide SetFromPods, SnapshotStored, Observed, Observation, NotOlder;
    if op.OpSetFromPods? {
      if Observed(w, op.pods, kind, who) {
        ObservationIsSeen(w, op.pods, kind, who);
        LastIsLatest(r, Observation(w, op.pods, kind, who));
      }
      CallKeepsHonestIff(w, op.pods, kind, who, r);
    } else {
      SnapshotUntouched(w, op);
      assert r + [] == r;
    }
  }

  lemma LastIsLatest(r: seq<Item>, item: Item)
    requires Monotone(r + [item]) && item.Seen?
    ensures NotBefore(r, item)
  {
    var all := r + [item];
    forall i | 0 <= i < |r| && r[i].Seen? ensures r[i].now <= item.now {
      assert all[i] == r[i] && all[|r|] == item;
    }
  }

  lemma PrefixMonotone(r: seq<Item>, s: seq<Item>)
    requires r <= s && Monotone(s)
    ensures Monotone(r)
  {
    assert forall i :: 0 <= i < |r| ==> r[i] == s[i];
  }

  /** The step from one point of a run to the next. */
  lemma HonestNextIff(w: World, ops: seq<Op>, kind: Kind, who: Name, k: nat)
    requires WatchedRun(w, ops) && k < |ops| && Monotone(Truth(w, ops, kind, who))
    requires Honest(w, ops[..k], kind, who)
    ensures Honest(w, ops[..k + 1], kind, who) <==> LosesSafely(Run(w, ops[..k]), ops[k], kind, who)
  {
    hide Run, Step, Truth, Looks, Monotone, NotOlder, LosesSafely, Remembers;
    assert ops[..k + 1] == ops[..k] + [ops[k]];
    TruthIsPrefix(w, ops, kind, who, k + 1);
    PrefixMonotone(Truth(w, ops[..k + 1], kind, who), Truth(w, ops, kind, who));
    TruthExtends(w, ops[..k], ops[k], kind, who);
    SnapshotIsMemory(w, ops[..k], kind, who);
    TruthIsSeen(w, ops[..k], kind, who);
    StepKeepsHonestIff(Run(w, ops[..k]), ops[k], kind, who, Truth(w, ops[..k], kind, who));
  }

  lemma TruthIsSeen(w: World, ops: seq<Op>, kind: Kind, who: Name)
    ensures forall i :: 0 <= i < |Truth(w, ops, kind, who)| ==> Truth(w, ops, kind, who)[i].Seen?
  {
  }

  lemma {:induction false} SafeIsHonest(w: World, ops: seq<Op>, kind: Kind, who: Name, k: nat)
    requires WatchedRun(w, ops) && k <= |ops| && Monotone(Truth(w, ops, kind, who))
    requires LossesSafe(w, ops, kind, who)
    ensures Honest(w, ops[..k], kind, who)
  {
    hide LosesSafely, Monotone, Step;
    if k > 0 {
      SafeIsHonest(w, ops, kind, who, k - 1);
      assert LosesSafely(Run(w, ops[..k - 1]), ops[k - 1], kind, who);
      HonestNextIff(w, ops, kind, who, k - 1);
    }
  }

  /** Over a run with any failed reads and writes: the annotation claims no more than was really
      seen, at every point, exactly when every lost snapshot was safe to lose.  A lost first
      sighting is, and so is a lost look at a status that the entry already has. */
  lemma HonestOverRunsIff(w: World, ops: seq<Op>, kind: Kind, who: Name)
    requires WatchedRun(w, ops) && Monotone(Truth(w, ops, kind, who))
    ensures (forall k :: 0 <= k <= |ops| ==> Honest(w, ops[..k], kind, who)) <==> LossesSafe(w, ops, kind, who)
  {
    hide Run, Truth, Monotone, Honest, LosesSafely;
    if LossesSafe(w, ops, kind, who) {
      forall k | 0 <= k <= |ops| ensures Honest(w, ops[..k], kind, who) {
        SafeIsHonest(w, ops, kind, who, k);
      }
    }
    if forall k :: 0 <= k <= |ops| ==> Honest(w, ops[..k], kind, who) {
      forall k | 0 <= k < |ops| ensures LosesSafely(Run(w, ops[..k]), ops[k], kind, who) {
        assert Honest(w, ops[..k], kind, who) && Honest(w, ops[..k + 1], kind, who);
        HonestNextIff(w, ops, kind, who, k);
      }
    }
  }

  /** So as long as lost snapshots were safe to lose, no report ever comes too early. */
  lemma SafeLossesOnlyDelay(w: World, ops: seq<Op>, pods: Pods, kind: Kind, who: Name)
    requires WatchedRun(w, ops) && Monotone(Truth(w, ops, kind, who)) && InTime(w, ops, pods, kind, who)
    requires LossesSafe(w, ops, kind, who)
    ensures !TooEarly(w, ops, pods, kind, who)
  {
    hide Run, Truth, Monotone, InTime, LossesSafe;
    SafeIsHonest(w, ops, kind, who, |ops|);
    assert ops[..|ops|] == ops;
    HungReportsAreJustified(w, ops, pods, kind, who);
  }
}
