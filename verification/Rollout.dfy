/** The rollout tracker behind `SetFromPods`: what one pass over the tracked workloads
    concludes, the snapshot it keeps between passes, and what the snapshot means. */
module Rollout {
  import opened Basics

  /** Ten minutes, in the nanoseconds of `time.Duration`. */
  const PROGRESS_TIMEOUT: Time := 600_000_000_000

  /** The status fields the tracker looks at; `others` stands for those it only compares. */
  datatype Status =
    | DaemonSetStatus(updated: int, desired: int, unavailable: int, available: int, observed: int, others: string)
    | DeploymentStatus(unavailable: int, available: int, observed: int, others: string)

  /** The outcome of looking a workload up, with the two clock readings of the iteration:
      `now` when a change is recorded and `later` when the elapsed time is measured. */
  datatype Reply = GetFailed | Found(generation: int, status: Status, now: Time, later: Time)

  /** The first reason why a workload is still rolling out. */
  function Progress(name: Name, generation: int, status: Status): Option<Line> {
    match status
    case DaemonSetStatus(updated, desired, unavailable, available, observed, _) =>
      if updated < desired then Some(RollingOut(name, updated, desired))
      else if unavailable > 0 then Some(AwaitingPods(DaemonSet, name, unavailable))
      else if available == 0 then Some(Unscheduled(DaemonSet, name))
      else if generation > observed then Some(BeingProcessed(DaemonSet, name, generation, observed))
      else None
    case DeploymentStatus(unavailable, available, observed, _) =>
      if unavailable > 0 then Some(AwaitingPods(Deployment, name, unavailable))
      else if available == 0 then Some(Unscheduled(Deployment, name))
      else if observed < generation then Some(BeingProcessed(Deployment, name, generation, observed))
      else None
  }

  predicate RolledOut(generation: int, status: Status) {
    && (status.DaemonSetStatus? ==> status.desired <= status.updated)
    && status.unavailable <= 0
    && status.available != 0
    && generation <= status.observed
  }

  lemma RolledOutHasNoProgress(name: Name, generation: int, status: Status)
    ensures RolledOut(generation, status) <==> Progress(name, generation, status).None?
  {
  }

  // ---------------------------------------------------------------------------
  // One pass over the tracked workloads of a kind
  // ---------------------------------------------------------------------------

  datatype PodState = PodState(name: Name, lastSeen: Status, lastChange: Time)

  type States = map<Name, PodState>

  /** The name field of an entry that has not been saved yet. */
  const UNNAMED: Name := Name("", "")

  datatype Scan = Scan(states: States, progressing: seq<Line>, hung: seq<Line>, level: bool)

  function ScanOne(kind: Kind, name: Name, reply: Reply, acc: Scan): Scan {
    match reply
    case GetFailed =>
      acc.(progressing := acc.progressing + [NotCreated(kind, name)], level := false)
    case Found(generation, status, now, later) =>
      var line := Progress(name, generation, status);
      if line.None? then
        acc.(states := acc.states - {name})
      else
        var known := name in acc.states;
        var state :=
          if known && acc.states[name].lastSeen == status then acc.states[name]
          else PodState(if known then acc.states[name].name else UNNAMED, status, now);
        var hung := known && later - state.lastChange > PROGRESS_TIMEOUT;
        Scan(acc.states[name := state],
             acc.progressing + [line.value],
             if hung then acc.hung + [HungRollout(kind, name, state.lastChange)] else acc.hung,
             false)
  }

  function ScanUpTo(kind: Kind, names: seq<Name>, replies: nat -> Reply, n: nat, acc: Scan): Scan
    requires n <= |names|
  {
    if n == 0 then acc
    else ScanOne(kind, names[n - 1], replies(n - 1), ScanUpTo(kind, names, replies, n - 1, acc))
  }

  method ScanWorkloads(kind: Kind, names: seq<Name>, replies: nat -> Reply, start: Scan) returns (result: Scan)
    ensures result == ScanUpTo(kind, names, replies, |names|, start)
  {
    var states, progressing, hung, level := start.states, start.progressing, start.hung, start.level;
    for i := 0 to |names|
      invariant Scan(states, progressing, hung, level) == ScanUpTo(kind, names, replies, i, start)
    {
      var name := names[i];
      match replies(i)
      case GetFailed =>
        progressing := progressing + [NotCreated(kind, name)];
        level := false;
      case Found(generation, status, now, later) =>
        var line := Progress(name, generation, status);
        if line.Some? {
          progressing := progressing + [line.value];
          level := false;
          var known := name in states;
          var state := if known then states[name] else PodState(UNNAMED, status, now);
          if !known || state.lastSeen != status {
            state := state.(lastChange := now, lastSeen := status);
            states := states[name := state];
          }
          if known && later - state.lastChange > PROGRESS_TIMEOUT {
            hung := hung + [HungRollout(kind, name, state.lastChange)];
          }
        } else {
          states := states - {name};
        }
    }
    result := Scan(states, progressing, hung, level);
  }

  // ---------------------------------------------------------------------------
  // The progressing list and the availability level
  // ---------------------------------------------------------------------------

  predicate Ready(reply: Reply) {
    reply.Found? && RolledOut(reply.generation, reply.status)
  }

  function LineFor(kind: Kind, name: Name, reply: Reply): Line
    requires !Ready(reply)
  {
    if reply.GetFailed? then NotCreated(kind, name)
    else RolledOutHasNoProgress(name, reply.generation, reply.status);
         Progress(name, reply.generation, reply.status).value
  }

  /** One line per missing or unfinished workload, in the order they are tracked. */
  function Unfinished(kind: Kind, names: seq<Name>, replies: nat -> Reply, n: nat): (lines: seq<Line>)
    requires n <= |names|
    ensures lines == [] <==> forall i :: 0 <= i < n ==> Ready(replies(i))
  {
    if n == 0 then []
    else
      Unfinished(kind, names, replies, n - 1) +
      if Ready(replies(n - 1)) then [] else [LineFor(kind, names[n - 1], replies(n - 1))]
  }

  lemma ScanOneReports(kind: Kind, name: Name, reply: Reply, acc: Scan)
    ensures var s := ScanOne(kind, name, reply, acc);
            && s.progressing == acc.progressing + (if Ready(reply) then [] else [LineFor(kind, name, reply)])
            && s.level == (acc.level && Ready(reply))
  {
    if reply.Found? {
      RolledOutHasNoProgress(name, reply.generation, reply.status);
    }
  }

  lemma {:induction false} ScanReportsUnfinished(kind: Kind, names: seq<Name>, replies: nat -> Reply, n: nat, acc: Scan)
    requires n <= |names|
    ensures var s, lines := ScanUpTo(kind, names, replies, n, acc), Unfinished(kind, names, replies, n);
            && s.progressing == acc.progressing + lines
            && s.level == (acc.level && lines == [])
  {
    if n > 0 {
      ScanReportsUnfinished(kind, names, replies, n - 1, acc);
      ScanOneReports(kind, names[n - 1], replies(n - 1), ScanUpTo(kind, names, replies, n - 1, acc));
    }
  }

  // ---------------------------------------------------------------------------
  // What a pass does to one workload
  // ---------------------------------------------------------------------------

  /** What the tracker remembers of a workload between passes. */
  datatype Tracked = Tracked(status: Status, since: Time)

  function Entry(states: States, name: Name): Option<Tracked> {
    if name in states then Some(Tracked(states[name].lastSeen, states[name].lastChange)) else None
  }

  /** One thing that happened to the memory of a workload: it was lost, or the workload was
      looked up successfully. */
  datatype Item = Forget | Seen(status: Status, rolling: bool, now: Time, later: Time)

  function Sighting(reply: Reply): Item
    requires reply.Found?
  {
    Seen(reply.status, !RolledOut(reply.generation, reply.status), reply.now, reply.later)
  }

  function After(was: Option<Tracked>, item: Item): Option<Tracked> {
    match item
    case Forget => None
    case Seen(status, rolling, now, _) =>
      if !rolling then None
      else if was.Some? && was.value.status == status then was
      else Some(Tracked(status, now))
  }

  predicate HungNow(was: Option<Tracked>, item: Item) {
    && was.Some? && item.Seen? && item.rolling
    && item.later - After(was, item).value.since > PROGRESS_TIMEOUT
  }

  /** Strictly more than ten minutes, for a workload that was already known to be unfinished. */
  lemma HungMeansTenMinutes(was: Option<Tracked>, item: Item)
    ensures HungNow(was, item) <==>
              && was.Some? && item.Seen? && item.rolling
              && var since := if was.value.status == item.status then was.value.since else item.now;
              item.later - since > 10 * 60 * 1_000_000_000
  {
  }

  ghost predicate Reported(hung: seq<Line>, kind: Kind, name: Name) {
    exists t :: HungRollout(kind, name, t) in hung
  }

  lemma ScanOneOther(kind: Kind, name: Name, reply: Reply, acc: Scan, other: Name)
    requires other != name
    ensures var s := ScanOne(kind, name, reply, acc);
            && Entry(s.states, other) == Entry(acc.states, other)
            && (Reported(s.hung, kind, other) <==> Reported(acc.hung, kind, other))
  {
  }

  lemma ScanOneSelf(kind: Kind, name: Name, reply: Reply, acc: Scan)
    ensures var s, was := ScanOne(kind, name, reply, acc), Entry(acc.states, name);
            && Entry(s.states, name) == (if reply.Found? then After(was, Sighting(reply)) else was)
            && (Reported(s.hung, kind, name) <==>
                  Reported(acc.hung, kind, name) || (reply.Found? && HungNow(was, Sighting(reply))))
  {
    var s, was := ScanOne(kind, name, reply, acc), Entry(acc.states, name);
    if reply.Found? {
      RolledOutHasNoProgress(name, reply.generation, reply.status);
      if HungNow(was, Sighting(reply)) {
        assert s.hung[|acc.hung|] == HungRollout(kind, name, After(was, Sighting(reply)).value.since);
      }
    }
  }

  lemma ScanOneOtherKind(kind: Kind, name: Name, reply: Reply, acc: Scan, other: Kind, who: Name)
    requires other != kind
    ensures Reported(ScanOne(kind, name, reply, acc).hung, other, who) <==> Reported(acc.hung, other, who)
  {
  }

  /** A workload that is not among the first `n` tracked ones is left alone. */
  lemma {:induction false} ScanOthers(kind: Kind, names: seq<Name>, replies: nat -> Reply, n: nat, acc: Scan, who: Name)
    requires n <= |names| && who !in names[..n]
    ensures var s := ScanUpTo(kind, names, replies, n, acc);
            && Entry(s.states, who) == Entry(acc.states, who)
            && (Reported(s.hung, kind, who) <==> Reported(acc.hung, kind, who))
  {
    if n > 0 {
      assert names[n - 1] in names[..n];
      assert forall x :: x in names[..n - 1] ==> x in names[..n];
      ScanOthers(kind, names, replies, n - 1, acc, who);
      ScanOneOther(kind, names[n - 1], replies(n - 1), ScanUpTo(kind, names, replies, n - 1, acc), who);
    }
  }

  lemma {:induction false} ScanOtherKind(kind: Kind, names: seq<Name>, replies: nat -> Reply, n: nat, acc: Scan,
      other: Kind, who: Name)
    requires n <= |names| && other != kind
    ensures Reported(ScanUpTo(kind, names, replies, n, acc).hung, other, who) <==> Reported(acc.hung, other, who)
  {
    if n > 0 {
      ScanOtherKind(kind, names, replies, n - 1, acc, other, who);
      ScanOneOtherKind(kind, names[n - 1], replies(n - 1), ScanUpTo(kind, names, replies, n - 1, acc), other, who);
    }
  }

  /** With distinct names, the workload at position `i` is judged by its own reply alone. */
  lemma {:induction false} ScanTracks(kind: Kind, names: seq<Name>, replies: nat -> Reply, n: nat, acc: Scan, i: nat)
    requires i < n <= |names| && NoDup(names)
    ensures var s, was := ScanUpTo(kind, names, replies, n, acc), Entry(acc.states, names[i]);
            && Entry(s.states, names[i]) == (if replies(i).Found? then After(was, Sighting(replies(i))) else was)
            && (Reported(s.hung, kind, names[i]) <==>
                  Reported(acc.hung, kind, names[i]) || (replies(i).Found? && HungNow(was, Sighting(replies(i)))))
  {
    var prev := ScanUpTo(kind, names, replies, n - 1, acc);
    if i == n - 1 {
      ScanOthers(kind, names, replies, n - 1, acc, names[i]);
      ScanOneSelf(kind, names[i], replies(i), prev);
    } else {
      ScanTracks(kind, names, replies, n - 1, acc, i);
      ScanOneOther(kind, names[n - 1], replies(n - 1), prev, names[i]);
    }
  }

  /** A pass over other names or another kind writes no hung line for this workload. */
  lemma {:induction false} HungLineOfOthers(kind: Kind, names: seq<Name>, replies: nat -> Reply, n: nat, acc: Scan,
      line: Line)
    requires n <= |names| && line.HungRollout? && (line.kind != kind || line.name !in names[..n])
    ensures line in ScanUpTo(kind, names, replies, n, acc).hung <==> line in acc.hung
  {
    if n > 0 {
      assert names[n - 1] in names[..n];
      assert forall x :: x in names[..n - 1] ==> x in names[..n];
      HungLineOfOthers(kind, names, replies, n - 1, acc, line);
    }
  }

  /** The time in a hung line is the one remembered for its workload. */
  lemma {:induction false} HungLineSaysSince(kind: Kind, names: seq<Name>, replies: nat -> Reply, n: nat, acc: Scan,
      who: Name, t: Time)
    requires n <= |names| && NoDup(names)
    requires HungRollout(kind, who, t) in ScanUpTo(kind, names, replies, n, acc).hung
    requires HungRollout(kind, who, t) !in acc.hung
    ensures var entry := Entry(ScanUpTo(kind, names, replies, n, acc).states, who);
            entry.Some? && entry.value.since == t
  {
    if n > 0 {
      var prev := ScanUpTo(kind, names, replies, n - 1, acc);
      if names[n - 1] == who {
        HungLineOfOthers(kind, names, replies, n - 1, acc, HungRollout(kind, who, t));
        assert HungRollout(kind, who, t) !in prev.hung;
      } else {
        HungLineSaysSince(kind, names, replies, n - 1, acc, who, t);
      }
    }
  }

  // ---------------------------------------------------------------------------
  // What the memory means: the trailing run of identical, unfinished observations
  // ---------------------------------------------------------------------------

  /** The memory of a workload after a history. */
  function Memory(h: seq<Item>): Option<Tracked> {
    if h == [] then None else After(Memory(h[..|h| - 1]), h[|h| - 1])
  }

  /** The verdict of the pass that added the last item of `h`. */
  predicate HungAt(h: seq<Item>) {
    h != [] && HungNow(Memory(h[..|h| - 1]), h[|h| - 1])
  }

  ghost predicate Stuck(h: seq<Item>, k: nat) {
    && k < |h|
    && h[|h| - 1].Seen?
    && forall j :: k <= j < |h| ==> h[j].Seen? && h[j].rolling && h[j].status == h[|h| - 1].status
  }

  /** `k` starts the longest trailing run of unfinished observations with one status. */
  ghost predicate TrailingRun(h: seq<Item>, k: nat) {
    Stuck(h, k) && (k > 0 ==> !Stuck(h, k - 1))
  }

  /** That run began strictly more than the timeout ago. */
  ghost predicate Overdue(h: seq<Item>) {
    exists k: nat :: TrailingRun(h, k) && h[|h| - 1].later - h[k].now > PROGRESS_TIMEOUT
  }

  lemma {:induction false} MemoryIsTrailingRun(h: seq<Item>) returns (k: nat)
    ensures Memory(h).Some? <==> Stuck(h, |h| - 1)
    ensures Memory(h).Some? ==> TrailingRun(h, k) && Memory(h).value == Tracked(h[|h| - 1].status, h[k].now)
    ensures Memory(h).None? ==> forall j: nat :: !TrailingRun(h, j)
    requires h != []
  {
    var n := |h| - 1;
    var before := h[..n];
    k := n;
    if Memory(h).Some? && n > 0 {
      var k' := MemoryIsTrailingRun(before);
      if Memory(before).Some? && Memory(before).value.status == h[n].status {
        k := k';
        assert forall j :: 0 <= j < n ==> before[j] == h[j];
      } else if Memory(before).Some? {
        assert before[n - 1] == h[n - 1];
      } else {
        assert before[n - 1] == h[n - 1];
      }
    }
  }

  lemma TrailingRunUnique(h: seq<Item>, k: nat, l: nat)
    requires TrailingRun(h, k) && TrailingRun(h, l)
    ensures k == l
  {
    if k < l {
      assert Stuck(h, l - 1);
    } else if l < k {
      assert Stuck(h, k - 1);
    }
  }

  /** A rollout is called hung exactly when the tracker knew the workload was unfinished
      before this pass and the trailing run of identical statuses began more than the
      timeout ago. */
  lemma HungExactly(h: seq<Item>)
    requires h != []
    ensures HungAt(h) <==> Memory(h[..|h| - 1]).Some? && Overdue(h)
  {
    var k := MemoryIsTrailingRun(h);
    forall j: nat | TrailingRun(h, j) ensures Memory(h).Some? ==> j == k {
      if Memory(h).Some? {
        TrailingRunUnique(h, j, k);
      }
    }
  }

  /** As long as one iteration takes no longer than the timeout, the first condition is
      implied and the trailing run alone decides. */
  lemma HungExactlyByRun(h: seq<Item>)
    requires h != []
    requires h[|h| - 1].Seen? ==> h[|h| - 1].later - h[|h| - 1].now <= PROGRESS_TIMEOUT
    ensures HungAt(h) <==> Overdue(h)
  {
    HungExactly(h);
    var n := |h| - 1;
    forall k: nat | TrailingRun(h, k) && h[n].later - h[k].now > PROGRESS_TIMEOUT
      ensures Memory(h[..n]).Some?
    {
      assert k < n;
      var _ := MemoryIsTrailingRun(h[..n]);
      assert Stuck(h[..n], n - 1);
    }
  }

  // ---------------------------------------------------------------------------
  // Lost snapshots only delay a report
  // ---------------------------------------------------------------------------

  /** The observations of a history, without the losses of memory. */
  function Observations(h: seq<Item>): (r: seq<Item>)
    ensures |r| <= |h|
    ensures forall i :: 0 <= i < |r| ==> r[i] in h && r[i].Seen?
  {
    if h == [] then []
    else
      var r := Observations(h[..|h| - 1]);
      if h[|h| - 1].Seen? then r + [h[|h| - 1]] else r
  }

  ghost predicate Monotone(h: seq<Item>) {
    forall i, j :: 0 <= i <= j < |h| && h[i].Seen? && h[j].Seen? ==> h[i].now <= h[j].now
  }

  /** A stuck suffix holds no loss, so it is a suffix of the observations too. */
  lemma {:induction false} StuckObserved(h: seq<Item>, k: nat)
    requires Stuck(h, k)
    ensures var r := Observations(h); var m := |r| - (|h| - k); m >= 0 && r[m..] == h[k..]
  {
    var n := |h| - 1;
    if k < n {
      assert h[..n][n - 1] == h[n - 1];
      assert forall j :: 0 <= j < n ==> h[..n][j] == h[j];
      assert Stuck(h[..n], k);
      StuckObserved(h[..n], k);
      assert h[k..] == h[..n][k..] + [h[n]];
    } else {
      assert h[k..] == [h[n]];
    }
  }

  lemma {:induction false} ObservationsMonotone(h: seq<Item>)
    requires Monotone(h)
    ensures Monotone(Observations(h))
  {
    if h != [] {
      assert forall j :: 0 <= j < |h| - 1 ==> h[..|h| - 1][j] == h[j];
      ObservationsMonotone(h[..|h| - 1]);
    }
  }

  lemma {:induction false} ExtendRun(h: seq<Item>, m: nat) returns (k: nat)
    requires Stuck(h, m)
    ensures k <= m && TrailingRun(h, k)
  {
    if m > 0 && Stuck(h, m - 1) {
      k := ExtendRun(h, m - 1);
    } else {
      k := m;
    }
  }

  /** A stuck suffix of a history makes a stuck suffix of its observations, from the same item. */
  lemma StuckInObservations(h: seq<Item>, k: nat) returns (m: nat)
    requires Stuck(h, k)
    ensures var r := Observations(h); Stuck(r, m) && r[m] == h[k] && r[|r| - 1] == h[|h| - 1]
  {
    StuckObserved(h, k);
    var r := Observations(h);
    m := |r| - (|h| - k);
    forall j | m <= j < |r| ensures r[j] == h[j - m + k] {
      assert r[m..][j - m] == h[k..][j - m];
    }
  }

  /** Whatever snapshots were lost, a reported rollout really has shown one unfinished status
      for longer than the timeout. */
  lemma HungIsJustified(h: seq<Item>)
    requires HungAt(h) && Monotone(h)
    ensures Overdue(Observations(h))
  {
    HungExactly(h);
    var k: nat :| TrailingRun(h, k) && h[|h| - 1].later - h[k].now > PROGRESS_TIMEOUT;
    ObservationsMonotone(h);
    var m := StuckInObservations(h, k);
    var k' := ExtendRun(Observations(h), m);
    assert Observations(h)[k'].now <= Observations(h)[m].now;
  }

  // ---------------------------------------------------------------------------
  // Entries that do not stand for all observations
  // ---------------------------------------------------------------------------

  lemma MemoryAfter(h: seq<Item>, item: Item)
    ensures Memory(h + [item]) == After(Memory(h), item)
  {
    assert (h + [item])[..|h|] == h;
  }

  lemma MemorySince(h: seq<Item>) returns (k: nat)
    requires Memory(h).Some?
    ensures k < |h| && h[k].Seen? && h[|h| - 1].Seen? && Memory(h).value == Tracked(h[|h| - 1].status, h[k].now)
  {
    k := MemoryIsTrailingRun(h);
  }

  /** Whether a history is overdue can be read off its memory. */
  lemma OverdueByMemory(h: seq<Item>, item: Item)
    requires item.Seen?
    ensures var m := Memory(h + [item]);
            Overdue(h + [item]) <==> m.Some? && item.later - m.value.since > PROGRESS_TIMEOUT
  {
    var all := h + [item];
    var k := MemoryIsTrailingRun(all);
    forall j: nat | TrailingRun(all, j) ensures Memory(all).Some? ==> j == k {
      if Memory(all).Some? {
        TrailingRunUnique(all, j, k);
      }
    }
  }

  /** The entry claims no more than what was really seen. */
  predicate NotOlder(entry: Option<Tracked>, truth: Option<Tracked>) {
    entry.Some? ==> truth.Some? && truth.value.status == entry.value.status && truth.value.since <= entry.value.since
  }

  /** Losing what this look saw leaves an entry that still claims no more. */
  predicate SafeToLose(entry: Option<Tracked>, item: Item)
    requires item.Seen?
  {
    entry.None? || (item.rolling && item.status == entry.value.status)
  }

  /** The item was not seen before any of `r`. */
  ghost predicate NotBefore(r: seq<Item>, item: Item) {
    item.Seen? && forall i :: 0 <= i < |r| && r[i].Seen? ==> r[i].now <= item.now
  }

  /** Recording a look keeps an entry from claiming too much, even if the entry was lost. */
  lemma RecordedKeepsNotOlder(recalled: Option<Tracked>, r: seq<Item>, item: Item)
    requires NotOlder(recalled, Memory(r)) && NotBefore(r, item)
    ensures NotOlder(After(recalled, item), Memory(r + [item]))
  {
    MemoryAfter(r, item);
    if Memory(r).Some? {
      var k := MemorySince(r);
    }
  }

  /** Losing it does so exactly when it is safe to lose. */
  lemma LostKeepsNotOlderIff(entry: Option<Tracked>, r: seq<Item>, item: Item)
    requires NotOlder(entry, Memory(r)) && item.Seen?
    ensures NotOlder(entry, Memory(r + [item])) <==> SafeToLose(entry, item)
  {
    MemoryAfter(r, item);
  }

  /** The entry can make a later look report a rollout too early: it claims a status that was
      not the last one seen, or an earlier start of it than was really seen, of which the last
      look is not already overdue. */
  predicate Misleads(entry: Option<Tracked>, r: seq<Item>) {
    && entry.Some?
    && var truth := Memory(r);
    || truth.None?
    || truth.value.status != entry.value.status
    || (entry.value.since < truth.value.since
        && r != [] && r[|r| - 1].Seen? && r[|r| - 1].now - truth.value.since <= PROGRESS_TIMEOUT)
  }

  /** An entry that does not mislead makes no report too early. */
  lemma JustifiedUnlessMisled(entry: Option<Tracked>, recalled: Option<Tracked>, r: seq<Item>, item: Item)
    requires !Misleads(entry, r) && (recalled == entry || recalled.None?)
    requires NotBefore(r, item) && item.now <= item.later && HungNow(recalled, item)
    ensures Overdue(r + [item])
  {
    MemoryAfter(r, item);
    OverdueByMemory(r, item);
    var k := MemorySince(r);
  }

  /** One that does makes some later look of the claimed status report too early. */
  lemma MisleadingLook(entry: Option<Tracked>, r: seq<Item>) returns (t: Time)
    requires Misleads(entry, r) && Monotone(r) && forall i :: 0 <= i < |r| ==> r[i].Seen?
    ensures var item := Seen(entry.value.status, true, t, t);
            NotBefore(r, item) && HungNow(entry, item) && !Overdue(r + [item])
  {
    t := entry.value.since + PROGRESS_TIMEOUT + 1;
    if r != [] && r[|r| - 1].now > t {
      t := r[|r| - 1].now;
    }
    var item := Seen(entry.value.status, true, t, t);
    MemoryAfter(r, item);
    OverdueByMemory(r, item);
  }

  // ---------------------------------------------------------------------------
  // Saving and loading the snapshot
  // ---------------------------------------------------------------------------

  /** `l` lists every entry of `m` once, under its own key, in some order. */
  ghost predicate IsListing(l: seq<PodState>, m: States) {
    && |l| == |m|
    && (forall i :: 0 <= i < |l| ==> l[i].name in m && l[i] == m[l[i].name].(name := l[i].name))
    && (forall n :: n in m ==> exists i :: 0 <= i < |l| && l[i].name == n)
  }

  function Named(m: States): States {
    map n | n in m :: m[n].(name := n)
  }

  function LoadUpTo(l: seq<PodState>, n: nat): States
    requires n <= |l|
  {
    if n == 0 then map[] else LoadUpTo(l, n - 1)[l[n - 1].name := l[n - 1]]
  }

  /** Go's map iteration: any key that is left may come next. */
  method SaveStates(m: States) returns (l: seq<PodState>)
    ensures IsListing(l, m)
  {
    l := [];
    var left := m.Keys;
    while left != {}
      invariant left <= m.Keys
      invariant |l| + |left| == |m.Keys|
      invariant forall i :: 0 <= i < |l| ==> l[i].name in m && l[i] == m[l[i].name].(name := l[i].name)
      invariant forall n :: n in m && n !in left ==> exists i :: 0 <= i < |l| && l[i].name == n
      decreases |left|
    {
      var n :| n in left;
      left := left - {n};
      ghost var before := l;
      l := l + [m[n].(name := n)];
      assert l[|before|].name == n;
      assert forall i :: 0 <= i < |before| ==> l[i] == before[i];
    }
  }

  method LoadStates(l: seq<PodState>) returns (m: States)
    ensures m == LoadUpTo(l, |l|)
  {
    m := map[];
    for i := 0 to |l|
      invariant m == LoadUpTo(l, i)
    {
      m := m[l[i].name := l[i]];
    }
  }

  /** Where a list names a workload twice, the later entry is loaded. */
  lemma {:induction false} LaterEntryWins(l: seq<PodState>, n: nat, i: nat)
    requires i < n <= |l| && forall j :: i < j < n ==> l[j].name != l[i].name
    ensures l[i].name in LoadUpTo(l, n) && LoadUpTo(l, n)[l[i].name] == l[i]
  {
    if i < n - 1 {
      LaterEntryWins(l, n - 1, i);
    }
  }

  lemma {:induction false} LoadContents(l: seq<PodState>, m: States, n: nat)
    requires n <= |l|
    requires forall i :: 0 <= i < |l| ==> l[i].name in m && l[i] == m[l[i].name].(name := l[i].name)
    ensures forall x :: x in LoadUpTo(l, n) <==> exists i :: 0 <= i < n && l[i].name == x
    ensures forall x :: x in LoadUpTo(l, n) ==> x in m && LoadUpTo(l, n)[x] == m[x].(name := x)
  {
    if n > 0 {
      LoadContents(l, m, n - 1);
      forall x ensures x in LoadUpTo(l, n) <==> exists i :: 0 <= i < n && l[i].name == x {
        if x == l[n - 1].name {
        } else if x in LoadUpTo(l, n - 1) {
          var i :| 0 <= i < n - 1 && l[i].name == x;
        }
      }
    }
  }

  /** Whatever order the entries were saved in, loading gives the same map back, with every
      entry carrying its own key. */
  lemma SnapshotRoundTrip(l: seq<PodState>, m: States)
    requires IsListing(l, m)
    ensures LoadUpTo(l, |l|) == Named(m)
  {
    LoadContents(l, m, |l|);
    assert LoadUpTo(l, |l|).Keys == Named(m).Keys;
  }
}
