/** ClusterOperator status conditions: lookup, update, and the merge that publishes them.

    `Find` and `SetCondition` state what the operator relies on library-go for: conditions
    are kept by type, an absent type is appended, and the transition time moves only when
    the status does. */
module Conditions {
  import opened Basics

  datatype ConditionType = Available | Progressing | Degraded | Upgradeable | Other(name: string)

  datatype ConditionStatus = ConditionTrue | ConditionFalse | ConditionUnknown

  datatype Condition = Condition(
    kind: ConditionType,
    status: ConditionStatus,
    reason: string,
    message: seq<Line>,
    transition: Time)

  function IndexOf(cs: seq<Condition>, t: ConditionType): (i: nat)
    ensures i <= |cs|
    ensures forall j :: 0 <= j < i ==> cs[j].kind != t
    ensures i < |cs| ==> cs[i].kind == t
  {
    if cs == [] || cs[0].kind == t then 0 else 1 + IndexOf(cs[1..], t)
  }

  function Find(cs: seq<Condition>, t: ConditionType): Option<Condition> {
    var i := IndexOf(cs, t);
    if i < |cs| then Some(cs[i]) else None
  }

  function SetCondition(cs: seq<Condition>, c: Condition, now: Time): seq<Condition> {
    var i := IndexOf(cs, c.kind);
    if i == |cs| then
      cs + [c.(transition := now)]
    else
      cs[i := c.(transition := if cs[i].status != c.status then now else cs[i].transition)]
  }

  /** The test `CombineConditions` makes before it touches a condition. */
  predicate Differs(was: Option<Condition>, c: Condition) {
    was.None? || was.value.status != c.status || was.value.reason != c.reason || was.value.message != c.message
  }

  /** `CombineConditions` for one new condition. */
  function CombineOne(cs: seq<Condition>, c: Condition, now: Time): seq<Condition> {
    if Differs(Find(cs, c.kind), c) then SetCondition(cs, c, now) else cs
  }

  /** `CombineConditions` over the first `n` new conditions. */
  function CombineUpTo(cs: seq<Condition>, news: seq<Condition>, n: nat, now: Time): seq<Condition>
    requires n <= |news|
  {
    if n == 0 then cs
    else CombineOne(CombineUpTo(cs, news, n - 1, now), news[n - 1], now)
  }

  function Combine(cs: seq<Condition>, news: seq<Condition>, now: Time): seq<Condition> {
    CombineUpTo(cs, news, |news|, now)
  }

  const STARTUP: Condition :=
    Condition(Available, ConditionFalse, "Startup", [Text("The network is starting up")], 0)

  const UPGRADEABLE: Condition := Condition(Upgradeable, ConditionTrue, "", [], 0)

  predicate NeedsStartup(cs: seq<Condition>) {
    && Find(cs, Available).None?
    && Find(cs, Progressing).Some?
    && Find(cs, Progressing).value.status == ConditionTrue
  }

  /** What one status write turns the condition list into. */
  function Publish(cs: seq<Condition>, news: seq<Condition>, now: Time): seq<Condition> {
    var combined := Combine(cs, news, now);
    var started := if NeedsStartup(combined) then SetCondition(combined, STARTUP, now) else combined;
    SetCondition(started, UPGRADEABLE, now)
  }

  method CombineConditions(conditions: seq<Condition>, newConditions: seq<Condition>, now: Time)
    returns (result: seq<Condition>, changed: bool)
    ensures result == Combine(conditions, newConditions, now)
    ensures UniqueTypes(newConditions) ==>
              (changed <==> exists k :: 0 <= k < |newConditions| &&
                                        Differs(Find(conditions, newConditions[k].kind), newConditions[k]))
  {
    result, changed := conditions, false;
    for i := 0 to |newConditions|
      invariant result == CombineUpTo(conditions, newConditions, i, now)
      invariant UniqueTypes(newConditions) ==>
                  (changed <==> exists k :: 0 <= k < i &&
                                            Differs(Find(conditions, newConditions[k].kind), newConditions[k]))
    {
      var c := newConditions[i];
      if UniqueTypes(newConditions) {
        CombineUpToFinds(conditions, newConditions, i, now, c.kind);
        FindInPrefix(newConditions, i, c.kind);
      }
      if Differs(Find(result, c.kind), c) {
        result := SetCondition(result, c, now);
        changed := true;
      }
    }
  }

  // ---------------------------------------------------------------------------
  // The merge is an override of maps
  // ---------------------------------------------------------------------------

  ghost predicate UniqueTypes(cs: seq<Condition>) {
    forall i, j :: 0 <= i < j < |cs| ==> cs[i].kind != cs[j].kind
  }

  ghost function Types(cs: seq<Condition>): set<ConditionType> {
    set c | c in cs :: c.kind
  }

  ghost function ByType(cs: seq<Condition>): map<ConditionType, Condition> {
    map t | t in Types(cs) && Find(cs, t).Some? :: Find(cs, t).value
  }

  /** `c` as it is stored over `was`: everything is taken from `c`, and the transition time
      is kept exactly when the status stays. */
  function Merge(was: Option<Condition>, c: Condition, now: Time): Condition {
    c.(transition := if was.Some? && was.value.status == c.status then was.value.transition else now)
  }

  ghost function Overrides(cs: seq<Condition>, news: seq<Condition>, now: Time): map<ConditionType, Condition> {
    map t | t in ByType(news) :: Merge(Find(cs, t), ByType(news)[t], now)
  }

  lemma FindIn(cs: seq<Condition>, t: ConditionType)
    ensures Find(cs, t).Some? <==> t in Types(cs)
    ensures Find(cs, t).Some? ==> Find(cs, t).value in cs && Find(cs, t).value.kind == t
  {
  }

  lemma FindUnique(cs: seq<Condition>, k: nat)
    requires UniqueTypes(cs) && k < |cs|
    ensures Find(cs, cs[k].kind) == Some(cs[k])
  {
  }

  lemma SetFinds(cs: seq<Condition>, c: Condition, now: Time, t: ConditionType)
    ensures Find(SetCondition(cs, c, now), t) ==
            if t == c.kind then Some(Merge(Find(cs, t), c, now)) else Find(cs, t)
  {
    var r := SetCondition(cs, c, now);
    var i, j := IndexOf(cs, t), IndexOf(r, t);
    if i < |cs| {
      assert r[i].kind == t;
      assert i == j;
    } else if t == c.kind {
      assert r[|cs|].kind == t;
    }
  }

  lemma SetKeepsUnique(cs: seq<Condition>, c: Condition, now: Time)
    requires UniqueTypes(cs)
    ensures UniqueTypes(SetCondition(cs, c, now))
  {
  }

  /** One step of the merge, on any type. */
  lemma CombineOneFinds(prev: seq<Condition>, c: Condition, now: Time, t: ConditionType)
    ensures Find(CombineOne(prev, c, now), t) ==
            if t == c.kind then Some(Merge(Find(prev, t), c, now)) else Find(prev, t)
  {
    SetFinds(prev, c, now, t);
    FindIn(prev, c.kind);
  }

  /** Looking a type up in one more condition of a list without duplicate types. */
  lemma FindInPrefix(news: seq<Condition>, n: nat, t: ConditionType)
    requires n < |news| && UniqueTypes(news)
    ensures Find(news[..n + 1], t) == if t == news[n].kind then Some(news[n]) else Find(news[..n], t)
    ensures Find(news[..n], news[n].kind).None?
  {
    var p, q := news[..n], news[..n + 1];
    var i, j := IndexOf(p, t), IndexOf(q, t);
    if t == news[n].kind {
      assert q[n].kind == t;
    } else if i < n {
      assert q[i] == p[i];
    }
  }

  lemma FindInEmpty(t: ConditionType)
    ensures Find([], t).None?
  {
  }

  lemma {:induction false} CombineUpToFinds(cs: seq<Condition>, news: seq<Condition>, n: nat, now: Time,
      t: ConditionType)
    requires n <= |news| && UniqueTypes(news)
    ensures Find(CombineUpTo(cs, news, n, now), t) ==
            if Find(news[..n], t).Some? then Some(Merge(Find(cs, t), Find(news[..n], t).value, now)) else Find(cs, t)
  {
    hide Find, CombineOne, Merge, UniqueTypes;
    if n == 0 {
      assert news[..0] == [];
      FindInEmpty(t);
    } else {
      CombineUpToFinds(cs, news, n - 1, now, t);
      CombineOneFinds(CombineUpTo(cs, news, n - 1, now), news[n - 1], now, t);
      FindInPrefix(news, n - 1, t);
    }
  }

  lemma {:induction false} CombineKeepsUnique(cs: seq<Condition>, news: seq<Condition>, n: nat, now: Time)
    requires n <= |news| && UniqueTypes(cs)
    ensures UniqueTypes(CombineUpTo(cs, news, n, now))
  {
    if n > 0 {
      CombineKeepsUnique(cs, news, n - 1, now);
      SetKeepsUnique(CombineUpTo(cs, news, n - 1, now), news[n - 1], now);
    }
  }

  /** Every type: the new condition wins, all others are untouched. */
  lemma CombineFinds(cs: seq<Condition>, news: seq<Condition>, now: Time, t: ConditionType)
    requires UniqueTypes(news)
    ensures Find(Combine(cs, news, now), t) ==
            if Find(news, t).Some? then Some(Merge(Find(cs, t), Find(news, t).value, now)) else Find(cs, t)
  {
    CombineUpToFinds(cs, news, |news|, now, t);
    assert news[..|news|] == news;
  }

  lemma CombineIsOverride(cs: seq<Condition>, news: seq<Condition>, now: Time)
    requires UniqueTypes(news)
    ensures ByType(Combine(cs, news, now)) == ByType(cs) + Overrides(cs, news, now)
    ensures UniqueTypes(cs) ==> UniqueTypes(Combine(cs, news, now))
  {
    hide Find, CombineUpTo, Merge;
    var r := Combine(cs, news, now);
    forall t
      ensures t in ByType(r) <==> t in ByType(cs) || t in ByType(news)
      ensures t in ByType(r) ==> ByType(r)[t] == (ByType(cs) + Overrides(cs, news, now))[t]
    {
      CombineFinds(cs, news, now, t);
      FindIn(r, t);
      FindIn(cs, t);
      FindIn(news, t);
    }
    if UniqueTypes(cs) {
      CombineKeepsUnique(cs, news, |news|, now);
    }
  }

  // ---------------------------------------------------------------------------
  // Publishing
  // ---------------------------------------------------------------------------

  lemma PublishFinds(cs: seq<Condition>, news: seq<Condition>, now: Time, t: ConditionType)
    requires UniqueTypes(news)
    ensures var combined := Combine(cs, news, now);
            Find(Publish(cs, news, now), t) ==
            match t
            case Upgradeable => Some(Merge(Find(combined, t), UPGRADEABLE, now))
            case Available => if NeedsStartup(combined) then Some(STARTUP.(transition := now)) else Find(combined, t)
            case _ => Find(combined, t)
  {
    var combined := Combine(cs, news, now);
    var started := if NeedsStartup(combined) then SetCondition(combined, STARTUP, now) else combined;
    SetFinds(combined, STARTUP, now, t);
    SetFinds(started, UPGRADEABLE, now, t);
  }

  lemma PublishKeepsUnique(cs: seq<Condition>, news: seq<Condition>, now: Time)
    requires UniqueTypes(cs)
    ensures UniqueTypes(Publish(cs, news, now))
  {
    CombineKeepsUnique(cs, news, |news|, now);
    var combined := Combine(cs, news, now);
    SetKeepsUnique(combined, STARTUP, now);
    SetKeepsUnique(if NeedsStartup(combined) then SetCondition(combined, STARTUP, now) else combined, UPGRADEABLE, now);
  }

  /** This status, reason and message are published. */
  predicate Says(found: Option<Condition>, status: ConditionStatus, reason: string, message: seq<Line>) {
    found.Some? && found.value.status == status && found.value.reason == reason && found.value.message == message
  }

  predicate SaysAs(found: Option<Condition>, c: Condition) {
    Says(found, c.status, c.reason, c.message)
  }

  predicate Runs(found: Option<Condition>) {
    found.Some? && found.value.status == ConditionTrue
  }

  /** What a publish amounts to: Upgradeable is True; every new condition is there as it was
      handed in; Available, if it is not among them, stays as it was, or, if it was absent, is
      False for the startup exactly while Progressing is True; everything else stays. */
  lemma PublishIsExact(cs: seq<Condition>, news: seq<Condition>, now: Time)
    requires UniqueTypes(news) && Find(news, Upgradeable).None?
    ensures var r := Publish(cs, news, now);
            && Says(Find(r, Upgradeable), ConditionTrue, "", [])
            && (forall c :: c in news ==> SaysAs(Find(r, c.kind), c))
            && (Find(news, Available).None? ==>
                  if Find(cs, Available).Some? then Find(r, Available) == Find(cs, Available)
                  else if Runs(Find(r, Progressing)) then
                    Says(Find(r, Available), ConditionFalse, "Startup", [Text("The network is starting up")])
                  else Find(r, Available).None?)
            && (forall t :: Find(news, t).None? && t != Available && t != Upgradeable ==> Find(r, t) == Find(cs, t))
  {
    hide Publish, Combine;
    PublishFinds(cs, news, now, Upgradeable);
    PublishFinds(cs, news, now, Available);
    PublishFinds(cs, news, now, Progressing);
    CombineFinds(cs, news, now, Available);
    CombineFinds(cs, news, now, Progressing);
    forall c | c in news ensures SaysAs(Find(Publish(cs, news, now), c.kind), c) {
      var k :| 0 <= k < |news| && news[k] == c;
      FindUnique(news, k);
      PublishFinds(cs, news, now, c.kind);
      CombineFinds(cs, news, now, c.kind);
    }
    forall t | Find(news, t).None? && t != Available && t != Upgradeable
      ensures Find(Publish(cs, news, now), t) == Find(cs, t)
    {
      PublishFinds(cs, news, now, t);
      CombineFinds(cs, news, now, t);
    }
  }

  /** Every condition of `news` is already stored with its status, reason and message. */
  ghost predicate Agrees(cs: seq<Condition>, news: seq<Condition>) {
    forall c :: c in news ==> !Differs(Find(cs, c.kind), c)
  }

  /** A list that has been through `Publish`. */
  ghost predicate Settled(cs: seq<Condition>) {
    !NeedsStartup(cs) && !Differs(Find(cs, Upgradeable), UPGRADEABLE)
  }

  lemma PublishSettles(cs: seq<Condition>, news: seq<Condition>, now: Time)
    requires UniqueTypes(news)
    requires Find(news, Upgradeable).None?
    ensures Settled(Publish(cs, news, now))
    ensures Agrees(Publish(cs, news, now), news)
  {
    PublishFinds(cs, news, now, Available);
    PublishFinds(cs, news, now, Progressing);
    PublishFinds(cs, news, now, Upgradeable);
    forall c | c in news ensures !Differs(Find(Publish(cs, news, now), c.kind), c) {
      var k :| 0 <= k < |news| && news[k] == c;
      FindUnique(news, k);
      PublishFinds(cs, news, now, c.kind);
      CombineFinds(cs, news, now, c.kind);
      FindIn(news, c.kind);
    }
  }

  lemma {:induction false} CombineAgreedIsIdentity(cs: seq<Condition>, news: seq<Condition>, n: nat, now: Time)
    requires n <= |news| && Agrees(cs, news)
    ensures CombineUpTo(cs, news, n, now) == cs
  {
    if n > 0 {
      CombineAgreedIsIdentity(cs, news, n - 1, now);
    }
  }

  /** Publishing what is already published changes nothing, transition times included. */
  lemma PublishIsQuiescent(cs: seq<Condition>, news: seq<Condition>, now: Time)
    requires Settled(cs) && Agrees(cs, news)
    ensures Publish(cs, news, now) == cs
  {
    CombineAgreedIsIdentity(cs, news, |news|, now);
    FindIn(cs, Upgradeable);
  }

  // ---------------------------------------------------------------------------
  // Transition times
  // ---------------------------------------------------------------------------

  ghost function StatusOf(cs: seq<Condition>, t: ConditionType): Option<ConditionStatus> {
    if Find(cs, t).Some? then Some(Find(cs, t).value.status) else None
  }

  lemma PublishTransition(cs: seq<Condition>, news: seq<Condition>, now: Time, t: ConditionType)
    requires UniqueTypes(news) && Find(news, Upgradeable).None?
    requires Find(Publish(cs, news, now), t).Some?
    ensures Find(Publish(cs, news, now), t).value.transition ==
            if StatusOf(cs, t) != StatusOf(Publish(cs, news, now), t) then now else Find(cs, t).value.transition
  {
    PublishFinds(cs, news, now, t);
    CombineFinds(cs, news, now, t);
    CombineFinds(cs, news, now, Available);
    FindIn(cs, t);
  }
}
