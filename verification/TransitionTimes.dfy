/** Transition times against the record of ClusterOperator writes. */
module TransitionTimes {
  import opened Basics
  import opened Conditions
  import opened StatusModel

  /** The conditions after the writes of `log`, starting from `cs`. */
  ghost function Current(cs: seq<Condition>, log: seq<Event>): seq<Condition> {
    if log == [] then cs
    else if log[|log| - 1].OperatorWrite? then log[|log| - 1].conditions
    else Current(cs, log[..|log| - 1])
  }

  /** The time of the last write of `log` that changed the status of type `t`. */
  ghost function LastFlip(cs: seq<Condition>, log: seq<Event>, t: ConditionType): Option<Time> {
    if log == [] then None
    else
      var before, e := log[..|log| - 1], log[|log| - 1];
      if e.OperatorWrite? && StatusOf(e.conditions, t) != StatusOf(Current(cs, before), t) then Some(e.at)
      else LastFlip(cs, before, t)
  }

  /** The transition times of `w'` are right for the writes made since `w`. */
  ghost predicate Stamped(w: World, w': World) {
    && w.log <= w'.log
    && var since := w'.log[|w.log|..];
    && StoredConditions(w') == Current(StoredConditions(w), since)
    && forall t :: Find(StoredConditions(w'), t).Some? ==> StampedType(w, w', t)
  }

  ghost predicate StampedType(w: World, w': World, t: ConditionType)
    requires w.log <= w'.log && Find(StoredConditions(w'), t).Some?
  {
    var flip := LastFlip(StoredConditions(w), w'.log[|w.log|..], t);
    var c := Find(StoredConditions(w'), t).value;
    if flip.Some? then c.transition == flip.value
    else Find(StoredConditions(w), t).Some? && c.transition == Find(StoredConditions(w), t).value.transition
  }

  ghost predicate NoWrite(log: seq<Event>, start: nat) {
    forall j :: start <= j < |log| ==> !log[j].OperatorWrite?
  }

  lemma {:induction false} QuietLog(cs: seq<Condition>, log: seq<Event>, t: ConditionType)
    requires NoWrite(log, 0)
    ensures Current(cs, log) == cs && LastFlip(cs, log, t).None?
  {
    if log != [] {
      QuietLog(cs, log[..|log| - 1], t);
    }
  }

  lemma QuietIsStamped(w: World, w': World)
    requires w.log <= w'.log && NoWrite(w'.log, |w.log|)
    requires StoredConditions(w') == StoredConditions(w)
    ensures Stamped(w, w')
  {
    var since := w'.log[|w.log|..];
    assert forall j :: 0 <= j < |since| ==> since[j] == w'.log[|w.log| + j];
    QuietLog(StoredConditions(w), since, Available);
    forall t ensures LastFlip(StoredConditions(w), since, t).None? {
      QuietLog(StoredConditions(w), since, t);
    }
  }

  lemma StoreIsStamped(w: World, status: OperatorStatus, news: seq<Condition>, now: Time)
    requires UniqueTypes(news) && Find(news, Upgradeable).None?
    requires status.conditions == Publish(StoredConditions(w), news, now)
    ensures Stamped(w, StoreOperator(w, status, now))
  {
    var w' := StoreOperator(w, status, now);
    var since := w'.log[|w.log|..];
    assert since == [OperatorWrite(status.conditions, now)] && since[..0] == [];
    forall t | Find(StoredConditions(w'), t).Some? ensures StampedType(w, w', t) {
      PublishTransition(StoredConditions(w), news, now, t);
    }
  }

  lemma StoreNothingIsStamped(w: World, now: Time)
    requires StoredConditions(w) == []
    ensures Stamped(w, StoreOperator(w, NO_STATUS, now))
  {
    var w' := StoreOperator(w, NO_STATUS, now);
    assert w'.log[|w.log|..] == [OperatorWrite([], now)];
  }

  lemma {:induction false} FlipsCompose(cs: seq<Condition>, a: seq<Event>, b: seq<Event>, t: ConditionType)
    ensures Current(cs, a + b) == Current(Current(cs, a), b)
    ensures LastFlip(cs, a + b, t) ==
            var late := LastFlip(Current(cs, a), b, t);
            if late.Some? then late else LastFlip(cs, a, t)
  {
    if b == [] {
      assert a + b == a;
    } else {
      assert (a + b)[..|a + b| - 1] == a + b[..|b| - 1];
      FlipsCompose(cs, a, b[..|b| - 1], t);
    }
  }

  lemma StampedTransitive(u: World, v: World, w: World)
    requires Stamped(u, v) && Stamped(v, w)
    ensures Stamped(u, w)
  {
    var cs, a, b := StoredConditions(u), v.log[|u.log|..], w.log[|v.log|..];
    assert w.log[|u.log|..] == a + b;
    FlipsCompose(cs, a, b, Available);
    forall t | Find(StoredConditions(w), t).Some? ensures StampedType(u, w, t) {
      FlipsCompose(cs, a, b, t);
      assert StampedType(v, w, t);
      assert LastFlip(StoredConditions(v), b, t).None? ==> StampedType(u, v, t);
    }
  }
}
