/** Vocabulary shared by every module of the model. */
module Basics {

  datatype Option<+T> = None | Some(value: T)

  /** A reading of the operator's clock. */
  type Time = int

  ghost predicate NoDup<T>(s: seq<T>) {
    forall i, j :: 0 <= i < j < |s| ==> s[i] != s[j]
  }

  /** The two platforms the operator accepts. */
  datatype Platform = OpenShift | Kubernetes

  datatype Kind = DaemonSet | Deployment

  datatype Name = Name(namespace: string, name: string)

  /** One line of a condition message, kept as a function of what it mentions. */
  datatype Line =
    | Text(text: string)
    | NotCreated(kind: Kind, name: Name)
    | RollingOut(name: Name, updated: int, desired: int)
    | AwaitingPods(kind: Kind, name: Name, count: int)
    | Unscheduled(kind: Kind, name: Name)
    | BeingProcessed(kind: Kind, name: Name, generation: int, observed: int)
    | HungRollout(kind: Kind, name: Name, since: Time)

  /** The levels at which the operator reports itself degraded, most important first.  The fifth,
      for cluster nodes, is raised nowhere. */
  type Level = l: nat | l < 5
  const CLUSTER_CONFIG: Level := 0
  const OPERATOR_CONFIG: Level := 1
  const POD_DEPLOYMENT: Level := 2
  const ROLLOUT_HUNG: Level := 3
}
