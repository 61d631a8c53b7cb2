/** The two reconcilers as threads that share SharedInfo and the StatusManager, each behind
    its own lock.  Every step of a schedule is one access to the shared state; the answers of
    the API server and the branches taken are part of the schedule. */
module LockProtocol {
  import opened Basics

  datatype Thread = Installer | PodWatcher

  /** A rendered object: its identity and its content. */
  datatype Workload = Workload(name: Name, content: string)

  /** One rendering of the manifest's two workloads. */
  datatype Rendering = Rendering(agent: Workload, deployment: Workload)

  /** Where the install reconciler is.  `Status(back)` states are calls into the status manager
      made at the point `back`, waiting for its lock or holding it. */
  datatype InstallerAt =
    | Outside                          // not holding SharedInfo
    | WaitShared(r: Rendering)         // rendered, about to lock SharedInfo
    | Updating(r: Rendering)           // holds SharedInfo; lists handed to the status manager
    | StoringAgent(r: Rendering)       // about to store the agent spec
    | StoringDeployment(r: Rendering)  // agent spec stored, deployment spec not yet
    | Applying                         // both stored; applying objects, deleting pods
    | Releasing                        // about to unlock SharedInfo

  /** Where the pod reconciler is with its request. */
  datatype WatcherAt =
    | Idle
    | CheckingAgent(request: Name)       // the unlocked reads of isAntreaResource
    | CheckingDeployment(request: Name)
    | Reporting(request: Name)           // about to call SetFromPods
    | WantShared(request: Name)          // about to lock SharedInfo
    | Choosing(request: Name)            // holds SharedInfo; reads the stored specs
    | Looking(request: Name, chosen: Workload, isAgent: bool)
    | Recreating(request: Name, chosen: Workload, isAgent: bool)
    | Complaining                        // reports a failed lookup or apply, still holding
    | Leaving                            // about to unlock SharedInfo

  /** A call into the status manager. */
  datatype StatusCall = NoCall | WaitStatus | InStatus

  datatype State = State(
    shared: Option<Thread>,
    status: Option<Thread>,
    agent: Option<Workload>,
    deployment: Option<Workload>,
    installer: InstallerAt,
    installerCall: StatusCall,
    watcher: WatcherAt,
    watcherCall: StatusCall,
    crashed: bool,
    /** Renderings whose two specs are both stored, in order. */
    stored: seq<Rendering>,
    /** The requests for which the pod reconciler has called SetFromPods. */
    reports: seq<Name>,
    /** What the API server answered to the pod reconciler's lookups. */
    asked: seq<Asked>,
    /** The objects recreated so far, each with the number of renderings stored by then and the
        position of the lookup before it. */
    recreated: seq<Recreation>)

  datatype Answer = Exists | NotFound | LookupFailed

  datatype Asked = Asked(request: Name, chosen: Workload, isAgent: bool, answer: Answer)

  datatype Recreation = Recreation(request: Name, target: Workload, isAgent: bool, stored: nat, lookup: int)

  const START: State :=
    State(None, None, None, None, Outside, NoCall, Idle, NoCall, false, [], [], [], [])

  /** Which thread moves, and what it decides or is answered: `rendering` when a configuration
      change was rendered, `request` for the pod reconciler, `call` to make a status call here,
      `answer` to its lookup, and `yes` for the outcome of any other check or request. */
  datatype Move = Move(
    thread: Thread,
    rendering: Option<Rendering>,
    request: Name,
    call: bool,
    answer: Answer,
    yes: bool)

  // ---------------------------------------------------------------------------
  // Steps
  // ---------------------------------------------------------------------------

  /** The points of the install reconciler at which it calls the status manager: degraded and
      cleared levels outside the lock; handing over the lists, or failing to, and reporting
      failed applies and deletions while holding it. */
  predicate InstallerMayCall(at: InstallerAt) {
    at.Outside? || at.Updating? || at.Applying?
  }

  /** The points of the pod reconciler at which it calls the status manager. */
  predicate WatcherMayCall(at: WatcherAt) {
    at.Reporting? || at.Complaining?
  }

  predicate Blocked(s: State, t: Thread) {
    var call := if t == Installer then s.installerCall else s.watcherCall;
    var wantsShared := if t == Installer then s.installer.WaitShared? else s.watcher.WantShared?;
    || (call == WaitStatus && s.status.Some?)
    || (call == NoCall && wantsShared && s.shared.Some?)
  }

  function InstallerStep(s: State, m: Move): State {
    match s.installerCall
    case WaitStatus => s.(status := Some(Installer), installerCall := InStatus)
    case InStatus => s.(status := None, installerCall := NoCall)
    case NoCall =>
      if m.call && InstallerMayCall(s.installer) then s.(installerCall := WaitStatus)
      else
        match s.installer
        case Outside => if m.rendering.Some? then s.(installer := WaitShared(m.rendering.value)) else s
        case WaitShared(r) => s.(shared := Some(Installer), installer := Updating(r))
        case Updating(r) => s.(installer := if m.yes then StoringAgent(r) else Releasing)
        case StoringAgent(r) => s.(agent := Some(r.agent), installer := StoringDeployment(r))
        case StoringDeployment(r) =>
          s.(deployment := Some(r.deployment), stored := s.stored + [r], installer := Applying)
        case Applying => s.(installer := if m.yes then Releasing else Applying)
        case Releasing => s.(shared := None, installer := Outside)
  }

  /** Reading the name of a spec that is not set is a nil dereference. */
  function Crash(s: State): State {
    s.(crashed := true)
  }

  /** The pod reconciler between its status calls. */
  function WatcherMove(s: State, m: Move): State {
    match s.watcher
    case Idle => s.(watcher := CheckingAgent(m.request))
    case CheckingAgent(request) =>
      var found := s.agent.Some? && s.agent.value.name == request;
      s.(watcher := if found then Reporting(request) else CheckingDeployment(request))
    case CheckingDeployment(request) =>
      var found := s.deployment.Some? && s.deployment.value.name == request;
      s.(watcher := if found then Reporting(request) else Idle)
    case WantShared(request) => s.(shared := Some(PodWatcher), watcher := Choosing(request))
    case Choosing(request) =>
      if s.agent.None? then Crash(s)
      else if s.agent.value.name == request then s.(watcher := Looking(request, s.agent.value, true))
      else if s.deployment.None? then Crash(s)
      else s.(watcher := Looking(request, s.deployment.value, false))
    case Looking(request, chosen, isAgent) =>
      s.(asked := s.asked + [Asked(request, chosen, isAgent, m.answer)],
         watcher := match m.answer
                    case Exists => Leaving
                    case NotFound => Recreating(request, chosen, isAgent)
                    case LookupFailed => Complaining)
    case Recreating(request, chosen, isAgent) =>
      if m.yes then
        s.(watcher := Leaving,
           recreated := s.recreated + [Recreation(request, chosen, isAgent, |s.stored|, |s.asked| - 1)])
      else s.(watcher := Complaining)
    case Leaving => s.(shared := None, watcher := Idle)
    case _ => s
  }

  function WatcherStep(s: State, m: Move): State {
    match s.watcherCall
    case WaitStatus => s.(status := Some(PodWatcher), watcherCall := InStatus)
    case InStatus =>
      if s.watcher.Reporting? then
        s.(status := None, watcherCall := NoCall, watcher := WantShared(s.watcher.request),
           reports := s.reports + [s.watcher.request])
      else s.(status := None, watcherCall := NoCall, watcher := Leaving)
    case NoCall => if WatcherMayCall(s.watcher) then s.(watcherCall := WaitStatus) else WatcherMove(s, m)
  }

  /** A blocked thread stays where it is, and so does a crashed operator. */
  function Step(s: State, m: Move): State {
    if s.crashed || Blocked(s, m.thread) then s
    else if m.thread == Installer then InstallerStep(s, m)
    else WatcherStep(s, m)
  }

  function Run(schedule: seq<Move>): State {
    if schedule == [] then START else Step(Run(schedule[..|schedule| - 1]), schedule[|schedule| - 1])
  }

  // ---------------------------------------------------------------------------
  // The invariant
  // ---------------------------------------------------------------------------

  predicate InstallerHolds(at: InstallerAt) {
    !at.Outside? && !at.WaitShared?
  }

  predicate WatcherHolds(at: WatcherAt) {
    at.Choosing? || at.Looking? || at.Recreating? || at.Complaining? || at.Leaving?
  }

  /** The request went through the unlocked check. */
  predicate Checked(at: WatcherAt) {
    at.Reporting? || at.WantShared? || WatcherHolds(at)
  }

  /** The two stored specs are those of the last stored rendering, except between the two
      stores of the next one. */
  predicate SpecsStored(s: State) {
    && s.deployment == (if s.stored == [] then None else Some(s.stored[|s.stored| - 1].deployment))
    && s.agent == (if s.installer.StoringDeployment? then Some(s.installer.r.agent)
                   else if s.stored == [] then None
                   else Some(s.stored[|s.stored| - 1].agent))
  }

  predicate Fresh(s: State, target: Workload, isAgent: bool) {
    s.stored != [] &&
    var last := s.stored[|s.stored| - 1];
    target == if isAgent then last.agent else last.deployment
  }

  predicate Faithful(s: State, r: Recreation) {
    && 0 < r.stored <= |s.stored|
    && var last := s.stored[r.stored - 1];
    && r.target == if r.isAgent then last.agent else last.deployment
  }

  /** The lock words say who is inside, and status calls are made only where they may be. */
  predicate Locks(s: State) {
    && (s.shared == Some(Installer) <==> InstallerHolds(s.installer))
    && (s.shared == Some(PodWatcher) <==> WatcherHolds(s.watcher))
    && (s.status == Some(Installer) <==> s.installerCall == InStatus)
    && (s.status == Some(PodWatcher) <==> s.watcherCall == InStatus)
    && (s.installerCall != NoCall ==> InstallerMayCall(s.installer))
    && (s.watcherCall != NoCall ==> WatcherMayCall(s.watcher))
  }

  /** What the pod reconciler may rely on. */
  predicate Trusts(s: State) {
    && !s.crashed
    && SpecsStored(s)
    && (Checked(s.watcher) ==> s.agent.Some?)
    && (s.watcher.Looking? || s.watcher.Recreating? ==> Fresh(s, s.watcher.chosen, s.watcher.isAgent))
  }

  predicate Records(s: State) {
    forall i :: 0 <= i < |s.recreated| ==> Faithful(s, s.recreated[i])
  }

  predicate Inv(s: State) {
    Locks(s) && Trusts(s) && Records(s)
  }

  lemma InstallerKeepsLocks(s: State, m: Move)
    requires Locks(s) && !Blocked(s, Installer)
    ensures Locks(InstallerStep(s, m))
  {
  }

  lemma MoveKeepsLocks(s: State, m: Move)
    requires Locks(s) && !Blocked(s, PodWatcher) && s.watcherCall == NoCall && !WatcherMayCall(s.watcher)
    ensures Locks(WatcherMove(s, m))
  {
  }

  lemma WatcherKeepsLocks(s: State, m: Move)
    requires Locks(s) && !Blocked(s, PodWatcher)
    ensures Locks(WatcherStep(s, m))
  {
    hide WatcherMove, InstallerHolds, InstallerMayCall;
    if s.watcherCall == NoCall && !WatcherMayCall(s.watcher) {
      MoveKeepsLocks(s, m);
    }
  }

  lemma InstallerKeepsTrust(s: State, m: Move)
    requires Locks(s) && Trusts(s) && !Blocked(s, Installer)
    ensures Trusts(InstallerStep(s, m))
  {
    var s' := InstallerStep(s, m);
    assert InstallerHolds(s.installer) ==> !WatcherHolds(s.watcher);
    assert s'.stored != s.stored ==> s.installer.StoringDeployment?;
  }

  lemma WatcherKeepsTrust(s: State, m: Move)
    requires Locks(s) && Trusts(s) && !Blocked(s, PodWatcher)
    ensures Trusts(WatcherStep(s, m))
  {
    assert WatcherHolds(s.watcher) ==> !s.installer.StoringDeployment?;
  }

  /** A step records at most one more object, faithful to the last stored rendering. */
  lemma StepRecords(s: State, m: Move)
    requires Trusts(s)
    ensures var s' := Step(s, m);
            && s.stored <= s'.stored
            && (s'.recreated == s.recreated
                || (exists r :: s'.recreated == s.recreated + [r] && s'.stored == s.stored && Faithful(s, r)))
  {
    hide SpecsStored, Checked, Blocked;
    var s' := Step(s, m);
    if s'.recreated != s.recreated {
      var r := Recreation(s.watcher.request, s.watcher.chosen, s.watcher.isAgent, |s.stored|, |s.asked| - 1);
      assert s'.recreated == s.recreated + [r];
    }
  }

  lemma StepKeepsRecords(s: State, m: Move)
    requires Trusts(s) && Records(s)
    ensures Records(Step(s, m))
  {
    hide Step, Trusts;
    StepRecords(s, m);
    var s' := Step(s, m);
    forall i | 0 <= i < |s'.recreated| ensures Faithful(s', s'.recreated[i]) {
      if i < |s.recreated| {
        assert s'.recreated[i] == s.recreated[i] && Faithful(s, s.recreated[i]);
      }
    }
  }

  lemma StepKeepsInv(s: State, m: Move)
    requires Inv(s)
    ensures Inv(Step(s, m))
  {
    StepKeepsRecords(s, m);
    if !Blocked(s, m.thread) {
      if m.thread == Installer {
        InstallerKeepsLocks(s, m);
        InstallerKeepsTrust(s, m);
      } else {
        WatcherKeepsLocks(s, m);
        WatcherKeepsTrust(s, m);
      }
    }
  }

  lemma {:induction false} InvHolds(schedule: seq<Move>)
    ensures Inv(Run(schedule))
  {
    if schedule != [] {
      InvHolds(schedule[..|schedule| - 1]);
      StepKeepsInv(Run(schedule[..|schedule| - 1]), schedule[|schedule| - 1]);
    }
  }

  // ---------------------------------------------------------------------------
  // The theorems
  // ---------------------------------------------------------------------------

  function Other(t: Thread): Thread {
    if t == Installer then PodWatcher else Installer
  }

  lemma EitherThread(holder: Option<Thread>, t: Thread)
    ensures holder == None || holder == Some(t) || holder == Some(Other(t))
  {
    if holder.Some? {
      match holder.value
      case Installer => match t { case Installer => case PodWatcher => }
      case PodWatcher => match t { case Installer => case PodWatcher => }
    }
  }

  predicate WaitsForStatus(s: State, t: Thread) {
    (if t == Installer then s.installerCall else s.watcherCall) == WaitStatus
  }

  predicate WaitsForShared(s: State, t: Thread) {
    if t == Installer then s.installerCall == NoCall && s.installer.WaitShared?
    else s.watcherCall == NoCall && s.watcher.WantShared?
  }

  /** In every interleaving: no thread waits for a lock it holds, SharedInfo is never awaited
      by a thread inside the status manager, and a blocked thread waits for a lock held by the
      other thread, which is not blocked.  So there is no deadlock. */
  lemma NoDeadlock(schedule: seq<Move>, t: Thread)
    ensures var s := Run(schedule);
            && (WaitsForStatus(s, t) ==> s.status != Some(t))
            && (WaitsForShared(s, t) ==> s.shared != Some(t) && s.status != Some(t))
            && (Blocked(s, t) ==>
                  && !Blocked(s, Other(t))
                  && (if WaitsForStatus(s, t) then s.status == Some(Other(t)) else s.shared == Some(Other(t))))
  {
    InvHolds(schedule);
    var s := Run(schedule);
    EitherThread(s.status, t);
    EitherThread(s.shared, t);
  }

  /** The unlocked check is enough: the reads under the lock never meet an unset spec. */
  lemma NeverDereferencesUnset(schedule: seq<Move>)
    ensures var s := Run(schedule);
            && !s.crashed
            && (WatcherHolds(s.watcher) ==> s.agent.Some? && s.deployment.Some?)
  {
    InvHolds(schedule);
  }

  /** Whatever is recreated is, at that moment, the object of the most recently stored
      rendering, even if newer renderings arrive while the pod reconciler waits. */
  lemma RecreatesLatest(schedule: seq<Move>, m: Move)
    ensures var s, s' := Run(schedule), Run(schedule + [m]);
            && (s'.recreated == s.recreated || |s'.recreated| == |s.recreated| + 1)
            && (|s'.recreated| == |s.recreated| + 1 ==>
                  && s'.recreated[..|s.recreated|] == s.recreated
                  && Fresh(s, s'.recreated[|s.recreated|].target, s'.recreated[|s.recreated|].isAgent)
                  && s'.stored == s.stored)
  {
    assert (schedule + [m])[..|schedule + [m]| - 1] == schedule;
    InvHolds(schedule);
  }

  // ---------------------------------------------------------------------------
  // The right workload, as long as names do not change between renderings
  // ---------------------------------------------------------------------------

  predicate Named(r: Rendering, agent: Name, deployment: Name) {
    r.agent.name == agent && r.deployment.name == deployment
  }

  ghost predicate StableNames(schedule: seq<Move>, agent: Name, deployment: Name) {
    forall m :: m in schedule && m.rendering.Some? ==> Named(m.rendering.value, agent, deployment)
  }

  /** Every rendering on its way or stored has the two names. */
  predicate RenderingsNamed(s: State, agent: Name, deployment: Name) {
    && (s.installer.WaitShared? || s.installer.Updating?
        || s.installer.StoringAgent? || s.installer.StoringDeployment? ==>
          Named(s.installer.r, agent, deployment))
    && (forall i :: 0 <= i < |s.stored| ==> Named(s.stored[i], agent, deployment))
  }

  /** The pod reconciler handles one of the two names, and has chosen the object of that name. */
  predicate RequestNamed(s: State, agent: Name, deployment: Name) {
    && (s.watcher.Reporting? || s.watcher.WantShared?
        || s.watcher.Choosing? || s.watcher.Looking? || s.watcher.Recreating? ==>
          s.watcher.request in {agent, deployment})
    && (s.watcher.Looking? || s.watcher.Recreating? ==> s.watcher.chosen.name == s.watcher.request)
  }

  predicate RecreatedNamed(s: State) {
    forall i :: 0 <= i < |s.recreated| ==> s.recreated[i].target.name == s.recreated[i].request
  }

  predicate InvNames(s: State, agent: Name, deployment: Name) {
    RenderingsNamed(s, agent, deployment) && RequestNamed(s, agent, deployment) && RecreatedNamed(s)
  }

  lemma {:induction false} NamesHold(schedule: seq<Move>, agent: Name, deployment: Name)
    requires StableNames(schedule, agent, deployment)
    ensures InvNames(Run(schedule), agent, deployment)
  {
    if schedule != [] {
      var before, m := schedule[..|schedule| - 1], schedule[|schedule| - 1];
      NamesHold(before, agent, deployment);
      InvHolds(before);
      assert m in schedule;
      NamesStep(Run(before), m, agent, deployment);
    }
  }

  lemma NamesStep(s: State, m: Move, agent: Name, deployment: Name)
    requires Inv(s) && InvNames(s, agent, deployment)
    requires m.rendering.Some? ==> Named(m.rendering.value, agent, deployment)
    ensures InvNames(Step(s, m), agent, deployment)
  {
    if !Blocked(s, m.thread) {
      if m.thread == Installer {
        InstallerKeepsNames(s, m, agent, deployment);
      } else {
        WatcherKeepsNames(s, m, agent, deployment);
      }
    }
  }

  lemma InstallerKeepsNames(s: State, m: Move, agent: Name, deployment: Name)
    requires InvNames(s, agent, deployment)
    requires m.rendering.Some? ==> Named(m.rendering.value, agent, deployment)
    ensures InvNames(InstallerStep(s, m), agent, deployment)
  {
  }

  /** Whatever spec is stored has its name. */
  lemma SpecsNamed(s: State, agent: Name, deployment: Name)
    requires SpecsStored(s) && RenderingsNamed(s, agent, deployment)
    ensures s.agent.Some? ==> s.agent.value.name == agent
    ensures s.deployment.Some? ==> s.deployment.value.name == deployment
  {
  }

  lemma MoveKeepsRequest(s: State, m: Move, agent: Name, deployment: Name)
    requires s.agent.Some? ==> s.agent.value.name == agent
    requires s.deployment.Some? ==> s.deployment.value.name == deployment
    requires RequestNamed(s, agent, deployment)
    ensures RequestNamed(WatcherMove(s, m), agent, deployment)
  {
  }

  lemma MoveKeepsRecreated(s: State, m: Move, agent: Name, deployment: Name)
    requires RequestNamed(s, agent, deployment) && RecreatedNamed(s)
    ensures RecreatedNamed(WatcherMove(s, m))
    ensures WatcherMove(s, m).installer == s.installer && WatcherMove(s, m).stored == s.stored
  {
  }

  lemma WatcherKeepsNames(s: State, m: Move, agent: Name, deployment: Name)
    requires SpecsStored(s) && InvNames(s, agent, deployment)
    ensures InvNames(WatcherStep(s, m), agent, deployment)
  {
    hide WatcherMove, SpecsStored, Named;
    SpecsNamed(s, agent, deployment);
    MoveKeepsRequest(s, m, agent, deployment);
    MoveKeepsRecreated(s, m, agent, deployment);
  }

  /** If every rendering names its two workloads the same, each recreated object is the one
      that was asked for and found missing. */
  lemma RecreatesWhatWasRequested(schedule: seq<Move>, agent: Name, deployment: Name)
    requires StableNames(schedule, agent, deployment)
    ensures forall r :: r in Run(schedule).recreated ==> r.target.name == r.request
  {
    NamesHold(schedule, agent, deployment);
  }

  // ---------------------------------------------------------------------------
  // When an object is recreated
  // ---------------------------------------------------------------------------

  predicate AnsweredNotFound(s: State, r: Recreation) {
    0 <= r.lookup < |s.asked| && s.asked[r.lookup] == Asked(r.request, r.target, r.isAgent, NotFound)
  }

  /** The recreations follow lookups that were answered not found, each its own. */
  predicate InvAsked(s: State) {
    && (forall i :: 0 <= i < |s.recreated| ==> AnsweredNotFound(s, s.recreated[i]))
    && (forall i, j :: 0 <= i < j < |s.recreated| ==> s.recreated[i].lookup < s.recreated[j].lookup)
    && (s.watcher.Recreating? ==>
          && s.asked != []
          && s.asked[|s.asked| - 1] == Asked(s.watcher.request, s.watcher.chosen, s.watcher.isAgent, NotFound)
          && forall i :: 0 <= i < |s.recreated| ==> s.recreated[i].lookup < |s.asked| - 1)
  }

  /** The pod reconciler has reported the request it is after. */
  predicate InvReported(s: State) {
    s.watcher.WantShared? || s.watcher.Choosing? || s.watcher.Looking? || s.watcher.Recreating? ==>
      s.reports != [] && s.reports[|s.reports| - 1] == s.watcher.request
  }

  lemma InstallerLeavesWatcher(s: State, m: Move)
    ensures var s' := InstallerStep(s, m);
            && s'.watcher == s.watcher && s'.watcherCall == s.watcherCall && s'.crashed == s.crashed
            && s'.asked == s.asked && s'.recreated == s.recreated && s'.reports == s.reports
  {
  }

  lemma LookKeepsAsked(s: State, m: Move)
    requires InvAsked(s) && s.watcher.Looking?
    ensures InvAsked(WatcherMove(s, m))
  {
    var s' := WatcherMove(s, m);
    assert s.asked <= s'.asked;
    forall i | 0 <= i < |s'.recreated| ensures AnsweredNotFound(s', s'.recreated[i]) {
      assert AnsweredNotFound(s, s.recreated[i]);
    }
  }

  lemma RecreateKeepsAsked(s: State, m: Move)
    requires InvAsked(s) && s.watcher.Recreating?
    ensures InvAsked(WatcherMove(s, m))
  {
    var s' := WatcherMove(s, m);
    forall i | 0 <= i < |s'.recreated| ensures AnsweredNotFound(s', s'.recreated[i]) {
      if i < |s.recreated| {
        assert s'.recreated[i] == s.recreated[i] && AnsweredNotFound(s, s.recreated[i]);
      }
    }
  }

  lemma OthersKeepAsked(s: State, m: Move)
    requires InvAsked(s) && !s.watcher.Looking? && !s.watcher.Recreating?
    ensures InvAsked(WatcherStep(s, m))
  {
    var s' := WatcherStep(s, m);
    assert s'.asked == s.asked && s'.recreated == s.recreated && !s'.watcher.Recreating?;
    forall i | 0 <= i < |s'.recreated| ensures AnsweredNotFound(s', s'.recreated[i]) {
      assert AnsweredNotFound(s, s.recreated[i]);
    }
  }

  lemma StepKeepsAsked(s: State, m: Move)
    requires InvAsked(s) && Locks(s)
    ensures InvAsked(Step(s, m))
  {
    hide WatcherMove;
    if m.thread == Installer {
      InstallerLeavesWatcher(s, m);
      assert forall i :: 0 <= i < |s.recreated| ==> AnsweredNotFound(s, s.recreated[i]);
      assert forall i :: 0 <= i < |s.recreated| ==> AnsweredNotFound(Step(s, m), s.recreated[i]);
    } else if s.watcher.Looking? {
      LookKeepsAsked(s, m);
    } else if s.watcher.Recreating? {
      RecreateKeepsAsked(s, m);
    } else {
      OthersKeepAsked(s, m);
    }
  }

  lemma StepKeepsReported(s: State, m: Move)
    requires InvReported(s) && Locks(s)
    ensures InvReported(Step(s, m))
  {
    if m.thread == Installer {
      InstallerLeavesWatcher(s, m);
    }
  }

  lemma {:induction false} AskedHolds(schedule: seq<Move>)
    ensures InvAsked(Run(schedule)) && InvReported(Run(schedule))
  {
    if schedule != [] {
      var before := schedule[..|schedule| - 1];
      AskedHolds(before);
      InvHolds(before);
      StepKeepsAsked(Run(before), schedule[|schedule| - 1]);
      StepKeepsReported(Run(before), schedule[|schedule| - 1]);
    }
  }

  /** Over any schedule an object is recreated only after the lookup for its own request was
      answered not found, once for each such answer; an answer that it exists, or a failed lookup,
      recreates nothing. */
  lemma RecreatesOnlyWhatIsMissing(schedule: seq<Move>)
    ensures var s := Run(schedule);
            && (forall i :: 0 <= i < |s.recreated| ==>
                              && 0 <= s.recreated[i].lookup < |s.asked|
                              && s.asked[s.recreated[i].lookup].answer == NotFound
                              && s.asked[s.recreated[i].lookup].request == s.recreated[i].request
                              && s.asked[s.recreated[i].lookup].chosen == s.recreated[i].target)
            && (forall i, j :: 0 <= i < j < |s.recreated| ==> s.recreated[i].lookup < s.recreated[j].lookup)
  {
    AskedHolds(schedule);
    forall i | 0 <= i < |Run(schedule).recreated| ensures AnsweredNotFound(Run(schedule), Run(schedule).recreated[i]) {
    }
  }

  /** The pod reconciler looks nothing up, and recreates nothing, before it has called SetFromPods
      for its request. */
  lemma ReportsFirst(schedule: seq<Move>)
    ensures var s := Run(schedule);
            s.watcher.Looking? || s.watcher.Recreating? ==>
              s.reports != [] && s.reports[|s.reports| - 1] == s.watcher.request
  {
    AskedHolds(schedule);
  }

  /** While the pod reconciler holds SharedInfo, the install reconciler cannot touch what it is
      about to recreate. */
  lemma {:induction false} InstallerWaits(schedule: seq<Move>, others: seq<Move>)
    requires forall m :: m in others ==> m.thread == Installer
    requires WatcherHolds(Run(schedule).watcher)
    ensures var s, s' := Run(schedule), Run(schedule + others);
            && s'.watcher == s.watcher && s'.watcherCall == s.watcherCall
            && s'.asked == s.asked && s'.recreated == s.recreated && s'.stored == s.stored && !s'.crashed
  {
    InvHolds(schedule);
    if others == [] {
      assert schedule + others == schedule;
    } else {
      var before, m := others[..|others| - 1], others[|others| - 1];
      assert (schedule + others)[..|schedule + others| - 1] == schedule + before;
      assert m in others;
      InstallerWaits(schedule, before);
      InvHolds(schedule + before);
      InstallerLeavesWatcher(Run(schedule + before), m);
      InstallerStoresNothing(Run(schedule + before), m);
    }
  }

  lemma InstallerStoresNothing(s: State, m: Move)
    requires Locks(s) && WatcherHolds(s.watcher) && m.thread == Installer
    ensures Step(s, m).stored == s.stored
  {
  }

  /** Conversely: once its lookup is answered not found and its apply succeeds, whatever the install
      reconciler does in between, exactly one object is recreated, the most recently stored one. */
  lemma MissingIsRecreated(schedule: seq<Move>, look: Move, others: seq<Move>, apply: Move)
    requires Run(schedule).watcher.Looking? && Run(schedule).watcherCall == NoCall
    requires look.thread == PodWatcher && look.answer == NotFound
    requires forall m :: m in others ==> m.thread == Installer
    requires apply.thread == PodWatcher && apply.yes
    ensures var s, s' := Run(schedule), Run(schedule + [look] + others + [apply]);
            && |s'.recreated| == |s.recreated| + 1 && s'.recreated[..|s.recreated|] == s.recreated
            && var r := s'.recreated[|s.recreated|];
            && r.request == s.watcher.request && r.target == s.watcher.chosen
            && Fresh(s', r.target, r.isAgent)
  {
    var s := Run(schedule);
    var looked := schedule + [look];
    InvHolds(schedule);
    assert looked[..|looked| - 1] == schedule;
    assert Run(looked) == WatcherMove(s, look);
    assert Run(looked).watcher.Recreating?;
    InstallerWaits(looked, others);
    var waited := looked + others;
    InvHolds(waited);
    var all := waited + [apply];
    assert all[..|all| - 1] == waited;
    assert Run(all) == WatcherMove(Run(waited), apply);
  }

  /** A request for a stored object is taken up, by name and namespace. */
  lemma RequestIsTakenUp(schedule: seq<Move>, m: Move)
    requires m.thread == PodWatcher
    ensures var s, s' := Run(schedule), Run(schedule + [m]);
            && (s.watcher.CheckingAgent? && s.agent.Some? && s.agent.value.name == s.watcher.request ==>
                  s'.watcher == Reporting(s.watcher.request))
            && (s.watcher.CheckingDeployment? && s.deployment.Some? && s.deployment.value.name == s.watcher.request ==>
                  s'.watcher == Reporting(s.watcher.request))
  {
    assert (schedule + [m])[..|schedule + [m]| - 1] == schedule;
    InvHolds(schedule);
  }
}
