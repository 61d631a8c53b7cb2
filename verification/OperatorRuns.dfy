/** The install reconciler and the status manager together: what the first hands over is what
    the second is told. */
module OperatorRuns {
  import opened Basics
  import opened ReconcileRuns
  import Reconcilers
  import StatusModel
  import StatusRuns
  import StatusVerdicts

  type Naming = Reconcilers.Manifest -> StatusModel.ObjectReference

  /** The object references of rendered objects, for any way to name them. */
  function References(ref: Naming, related: Option<seq<Reconcilers.Manifest>>):
      (r: Option<seq<StatusModel.ObjectReference>>)
    ensures r.Some? <==> related.Some?
    ensures r.Some? ==>
              |r.value| == |related.value| && forall i :: 0 <= i < |r.value| ==> r.value[i] == ref(related.value[i])
  {
    if related.None? then None
    else Some(seq(|related.value|, i requires 0 <= i < |related.value| => ref(related.value[i])))
  }

  /** If the operation sets the related objects, it is the call a reconciler makes that was
      started in state `start` and went through some run, with any faults and restarts. */
  ghost predicate FromReconciler(e: Setting, start: Reconcilers.State, ref: Naming, op: StatusModel.Op) {
    op.OpSetRelatedObjects? ==>
      exists moves: seq<Move> ::
        && SaneRun(e, moves) && Run(e, start, moves).handed.Some?
        && op.objects == References(ref, Run(e, start, moves).handed.value.related)
  }

  /** So however the reconciler and the status manager interleave, the list of related objects
      is never empty without being nil. */
  lemma OperatorIsNeverNoisy(w: StatusModel.World, ops: seq<StatusModel.Op>, e: Setting, start: Reconcilers.State,
      ref: Naming)
    requires WellHanded(e, start)
    requires StatusRuns.DegradedOnly(w) && StatusRuns.Tidy(w) && w.rendered != Some([])
    requires forall op :: op in ops ==> FromReconciler(e, start, ref, op)
    ensures StatusModel.Run(w, ops).related != Some([])
  {
    hide StatusModel.Run, Run;
    forall op | op in ops && op.OpSetRelatedObjects? ensures op.objects != Some([]) {
      assert FromReconciler(e, start, ref, op);
      var moves: seq<Move> :| SaneRun(e, moves) && Run(e, start, moves).handed.Some?
                              && op.objects == References(ref, Run(e, start, moves).handed.value.related);
      HandedOverRuns(e, start, moves);
    }
    StatusVerdicts.RelatedListIsNeverEmpty(w, ops);
  }
}
