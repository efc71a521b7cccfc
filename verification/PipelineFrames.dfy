/** What each family of steps leaves alone; the safety proofs build on these facts. */
module PipelineFrames {
  import opened Common
  import opened Pipeline

  /** Everything but rows, jobs and campaigns. */
  ghost predicate BooksUnchanged(s: State, s': State) {
    && s'.cfg == s.cfg && s'.now == s.now && s'.quota == s.quota && s'.granted == s.granted
    && s'.attempts == s.attempts && s'.accepted == s.accepted && s'.delivered == s.delivered
    && s'.log == s.log && s'.nextOp == s.nextOp
  }

  /** Rows are never deleted, keep their owner and operation id, and are born pending. */
  ghost predicate RowsKept(s: State, s': State) {
    && s.rows.Keys <= s'.rows.Keys
    && (forall i :: i in s.rows ==>
          && s'.rows[i].campaign == s.rows[i].campaign
          && s'.rows[i].tenant == s.rows[i].tenant
          && s'.rows[i].messageId == s.rows[i].messageId)
    && (forall i :: i in s'.rows && i !in s.rows ==> s'.rows[i].messageId.None? && s'.rows[i].status == Pending)
  }

  /** A table write makes a row sent only on the evidence of a delivered message. */
  ghost predicate SentOnEvidence(s: State, s': State) {
    forall i :: i in s'.rows && i in s.rows && s'.rows[i].status == Sent ==> s.rows[i].status == Sent || i in s.delivered
  }

  /** Jobs appear waiting, and only dead ones are removed. */
  ghost predicate JobsAddedOrBuried(s: State, s': State) {
    && (forall i :: i in s'.jobs ==>
          || (i in s.jobs && s'.jobs[i] == s.jobs[i])
          || (i in s.rows && s'.jobs[i].phase.Waiting? && !Live(s, i)))
    && (forall i :: Live(s, i) ==> i in s'.jobs && s'.jobs[i] == s.jobs[i])
  }

  ghost predicate TableFrame(s: State, s': State) {
    BooksUnchanged(s, s') && RowsKept(s, s') && SentOnEvidence(s, s') && JobsAddedOrBuried(s, s')
  }

  lemma InsertFrame(s: State, id: nat, r: Row)
    requires id !in s.rows && r.status == Pending && r.messageId.None?
    ensures TableFrame(s, s.(rows := s.rows[id := r]))
  {
  }

  lemma SweepFrame(s: State, id: nat)
    requires Stranded(s, id)
    ensures TableFrame(s, ApplyTable(s, Sweep(id)))
  {
  }

  lemma RequeueFrame(s: State, s': State, id: nat)
    requires id in s.rows && s'.rows == s.rows[id := s.rows[id].(status := Queued, touched := s.now)]
    requires s'.jobs.Keys == s.jobs.Keys + {id} && forall i :: i in s.jobs && (i != id || Live(s, id)) ==> s'.jobs[i] == s.jobs[i]
    requires !Live(s, id) ==> s'.jobs[id].phase.Waiting?
    requires BooksUnchanged(s, s')
    ensures TableFrame(s, s')
  {
  }

  lemma FlowEnqueueFrame(s: State, id: nat)
    requires EnabledTable(s, FlowEnqueue(id))
    ensures TableFrame(s, ApplyTable(s, FlowEnqueue(id)))
  {
    RequeueFrame(s, ApplyTable(s, FlowEnqueue(id)), id);
  }

  lemma AddJobsFrame(s: State, channel: nat, ids: set<nat>)
    requires ids <= s.rows.Keys
    ensures TableFrame(s, AddJobs(s, channel, ids))
  {
  }

  lemma IssueFrame(s: State, channel: nat, ids: set<nat>)
    requires ids <= s.rows.Keys
    ensures TableFrame(s, SetStatuses(AddJobs(s, channel, ids), ids, Queued))
  {
  }

  /** updateMany to any status but sent. */
  lemma BulkFrame(s: State, s': State, ids: set<nat>, st: RowStatus)
    requires !st.Sent? && BooksUnchanged(s, s') && s'.jobs == s.jobs && s'.rows == SetStatuses(s, ids, st).rows
    ensures TableFrame(s, s')
  {
  }

  lemma AllTableFrames(s: State, step: TableStep)
    requires EnabledTable(s, step)
    ensures TableFrame(s, ApplyTable(s, step))
  {
    match step
    case Insert(id, _, _, _) => InsertFrame(s, id, ApplyTable(s, step).rows[id]);
    case FlowCreate(id, _, _, _) => InsertFrame(s, id, ApplyTable(s, step).rows[id]);
    case Sweep(id) => SweepFrame(s, id);
    case FlowEnqueue(id) => FlowEnqueueFrame(s, id);
    case Issue(channel, ids) => IssueFrame(s, channel, ids);
    case Enqueue(channel, ids) => AddJobsFrame(s, channel, ids);
    case Mark(ids) => BulkFrame(s, ApplyTable(s, step), ids, Queued);
    case Cancel(c) => BulkFrame(s, ApplyTable(s, step), ActiveRows(s, c), Skipped);
    case Exhaust(c) => BulkFrame(s, ApplyTable(s, step), ActiveRows(s, c), Failed);
  }

  /** Only the job of `id` moved, to phase `p`. */
  ghost predicate JobMoved(s: State, s': State, id: nat, p: Phase) {
    && id in s.jobs
    && s'.jobs == s.jobs[id := s.jobs[id].(phase := p)]
  }

  /** No row became sent, and rows keep owner and operation id. */
  ghost predicate RowsFailedOrHeld(s: State, s': State) {
    && s'.rows.Keys == s.rows.Keys
    && (forall i :: i in s.rows ==>
          && s'.rows[i].campaign == s.rows[i].campaign
          && s'.rows[i].tenant == s.rows[i].tenant
          && s'.rows[i].messageId == s.rows[i].messageId
          && (s'.rows[i].status == Sent ==> s.rows[i].status == Sent))
  }

  /** Some rows failed; all else about rows stays. */
  ghost predicate RowsEnded(s: State, s': State) {
    && s'.rows.Keys == s.rows.Keys
    && (forall i :: i in s.rows ==>
          s'.rows[i] == s.rows[i] || s'.rows[i] == s.rows[i].(status := Failed, touched := s.now))
  }

  lemma EndedAreFailedOrHeld(s: State, s': State)
    requires RowsEnded(s, s')
    ensures RowsFailedOrHeld(s, s')
  {
  }

  lemma StatusFrame(s: State, id: nat)
    requires id in s.rows
    ensures var s' := SetStatus(s, id, Failed); BooksUnchanged(s, s') && s'.jobs == s.jobs && RowsEnded(s, s')
  {
  }

  lemma StatusesFrame(s: State, ids: set<nat>)
    ensures var s' := SetStatuses(s, ids, Failed); BooksUnchanged(s, s') && s'.jobs == s.jobs && RowsEnded(s, s')
  {
  }

  /** Finalising writes campaigns only. */
  lemma FinaliseFrame(s: State, c: Option<nat>)
    ensures var s' := MaybeFinalise(s, c); BooksUnchanged(s, s') && s'.jobs == s.jobs && s'.rows == s.rows
  {
  }

  lemma FailRowFrame(s: State, id: nat)
    requires id in s.rows
    ensures BooksUnchanged(s, FailRow(s, id)) && FailRow(s, id).jobs == s.jobs
    ensures RowsEnded(s, FailRow(s, id)) && RowsFailedOrHeld(s, FailRow(s, id))
  {
    var failed := SetStatus(s, id, Failed);
    StatusFrame(s, id);
    FinaliseFrame(failed, s.rows[id].campaign);
    EndedAreFailedOrHeld(s, FailRow(s, id));
  }

  lemma FailCampaignFrame(s: State, id: nat)
    requires id in s.rows
    ensures BooksUnchanged(s, FailCampaign(s, id)) && FailCampaign(s, id).jobs == s.jobs
    ensures RowsEnded(s, FailCampaign(s, id)) && RowsFailedOrHeld(s, FailCampaign(s, id))
  {
    match s.rows[id].campaign
    case None =>
      StatusFrame(s, id);
      EndedAreFailedOrHeld(s, SetStatus(s, id, Failed));
    case Some(c) =>
      var failed := SetStatuses(s, ActiveRows(s, c), Failed);
      StatusesFrame(s, ActiveRows(s, c));
      FinaliseFrame(failed, Some(c));
      EndedAreFailedOrHeld(s, MaybeFinalise(failed, Some(c)));
  }

  lemma OutcomeFrame(s: State, id: nat, o: Outcome)
    requires id in s.rows && id in s.jobs
    ensures var s' := ApplyOutcome(s, id, o);
      && BooksUnchanged(s, s')
      && RowsFailedOrHeld(s, s')
      && (if o.Pass? then JobMoved(s, s', id, Checked(s.rows[id].messageId))
          else JobMoved(s, s', id, Done(!(o.Fail? && o.throws))))
  {
    match o
    case Fail(throws) => FailRowFrame(SetPhase(s, id, Done(!throws)), id);
    case FailAll => FailCampaignFrame(SetPhase(s, id, Done(true)), id);
    case _ =>
  }

  // ---------------------------------------------------------------------------
  // Single concerns
  // ---------------------------------------------------------------------------

  /** Configuration, clock and rate log. */
  ghost predicate LogUnchanged(s: State, s': State) { s'.cfg == s.cfg && s'.log == s.log && s'.now == s.now }

  lemma TableLogsNothing(s: State, step: TableStep)
    requires EnabledTable(s, step)
    ensures LogUnchanged(s, ApplyTable(s, step))
  {
  }

  lemma FailRowLogsNothing(s: State, id: nat)
    requires id in s.rows
    ensures LogUnchanged(s, FailRow(s, id))
  {
  }

  lemma FailCampaignLogsNothing(s: State, id: nat)
    requires id in s.rows
    ensures LogUnchanged(s, FailCampaign(s, id))
  {
  }

  lemma OutcomeLogsNothing(s: State, id: nat, o: Outcome)
    requires id in s.rows && id in s.jobs
    ensures LogUnchanged(s, ApplyOutcome(s, id, o))
  {
    match o
    case Fail(throws) => FailRowLogsNothing(SetPhase(s, id, Done(!throws)), id);
    case FailAll => FailCampaignLogsNothing(SetPhase(s, id, Done(true)), id);
    case _ =>
  }

  /** Only settling writes the rate log. */
  lemma WorkLogsNothing(s: State, id: nat, step: WorkerStep)
    requires EnabledWork(s, id, step) && !step.Settle?
    ensures LogUnchanged(s, ApplyWork(s, id, step))
  {
    match step
    case Check(v) => OutcomeLogsNothing(s, id, CheckOutcome(s, id, v));
    case Reserve => FailCampaignLogsNothing(SetPhase(s, id, Done(true)), id);
    case _ =>
  }

  lemma ClosingFrame(s: State, id: nat, written: bool)
    requires id in s.jobs && s.jobs[id].phase.Logged? && s.jobs[id].phase.att < |s.attempts|
    ensures var s' := Closing(s, id, written);
      && LogUnchanged(s, s') && s'.rows == s.rows && s'.campaigns == s.campaigns
      && s'.accepted == s.accepted && s'.delivered == s.delivered && s'.nextOp == s.nextOp
      && JobMoved(s, s', id, Done(false))
  {
    var p := s.jobs[id].phase;
    UnitFrame(s, Refund(s, p.att, written), p.att);
    UnitFrame(s, Resolve(s, p.att, Charged), p.att);
  }

  /** Settling an attempt's unit writes the quota and that attempt only. */
  lemma UnitFrame(s: State, s': State, att: nat)
    requires att < |s.attempts|
    requires s' == Refund(s, att, true) || s' == Refund(s, att, false) || s' == Resolve(s, att, Charged)
    ensures LogUnchanged(s, s') && s'.rows == s.rows && s'.jobs == s.jobs && s'.campaigns == s.campaigns
    ensures s'.accepted == s.accepted && s'.delivered == s.delivered && s'.nextOp == s.nextOp
    ensures |s'.attempts| == |s.attempts| && forall k :: 0 <= k < |s.attempts| && k != att ==> s'.attempts[k] == s.attempts[k]
  {
  }

  lemma FailedLogsNothing(s: State, id: nat, written: bool)
    requires EnabledWork(s, id, Settle(written))
    ensures LogUnchanged(s, SettleFailed(s, id, written))
  {
    ClosingFrame(s, id, written);
    FailRowLogsNothing(Closing(s, id, written), id);
  }

  lemma DropKeepsRows(s: State, id: nat, dead: bool)
    requires id in s.jobs && (Holds(s.jobs[id].phase) ==> s.jobs[id].phase.att < |s.attempts|)
    ensures Drop(s, id, dead).rows == s.rows && Drop(s, id, dead).campaigns == s.campaigns
  {
  }

  /** The phases that leave the recipient table alone. */
  lemma RowsUntouched(s: State, id: nat, step: WorkerStep)
    requires EnabledWork(s, id, step)
    requires step.Throw? || step.Call? || step.WriteLog? || step.Finish? || step.Crash? || step.Lose?
    ensures ApplyWork(s, id, step).rows == s.rows && ApplyWork(s, id, step).campaigns == s.campaigns
  {
    match step
    case Crash(dead) => DropKeepsRows(s, id, dead);
    case Throw(written) => UnitFrame(s, Refund(s, s.jobs[id].phase.att, written), s.jobs[id].phase.att);
    case _ =>
  }

  /** Storing the operation id writes one row's id and its job's phase. */
  lemma FixIdFrame(s: State, id: nat)
    requires EnabledWork(s, id, Persist)
    ensures var s' := FixId(s, id); var p := s.jobs[id].phase;
      && LogUnchanged(s, s') && s'.quota == s.quota && s'.granted == s.granted && s'.attempts == s.attempts
      && s'.campaigns == s.campaigns && s'.rows.Keys == s.rows.Keys
      && (forall i :: i in s.rows && i != id ==> s'.rows[i] == s.rows[i])
      && s'.rows[id].tenant == s.rows[id].tenant
      && JobMoved(s, s', id, s'.jobs[id].phase) && s'.jobs[id].phase.Persisted? && s'.jobs[id].phase.att == p.att
  {
  }
}
