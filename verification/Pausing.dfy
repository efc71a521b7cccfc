/**
 * What pausing a campaign promises: while it is paused nothing of it is decided and nothing
 * of it goes out, except what a worker was already past its checks for, until it is resumed,
 * cancelled or its tenant runs out of units. The one thing the program checks before the
 * pause is the sender: a blocked address is still skipped and a refused name still fails.
 */
module Pausing {
  import opened Common
  import opened QuotaRefund
  import opened Pipeline
  import opened PipelineFrames

  predicate OfCampaign(s: State, id: nat, c: nat) { id in s.rows && s.rows[id].campaign == Some(c) }

  predicate IsPaused(s: State, c: nat) { c in s.campaigns && s.campaigns[c].status == Paused }

  predicate Idle(p: Phase) { p.Waiting? || p.Done? || p.Dead? }

  /** No worker is past its checks for a row of the campaign. */
  ghost predicate NoneMidSend(s: State, c: nat) {
    s.jobs.Keys <= s.rows.Keys && forall i :: i in s.jobs && OfCampaign(s, i, c) ==> Idle(s.jobs[i].phase)
  }

  /** Every row a message was logged for exists and, if it is of the campaign, is decided. */
  ghost predicate LogsSettled(s: State, c: nat) {
    forall i :: i in s.delivered ==> i in s.rows && (OfCampaign(s, i, c) ==> Terminal(s.rows[i].status))
  }

  /** Paused, and what was under way has come to its end. */
  ghost predicate Quiet(s: State, c: nat) { IsPaused(s, c) && NoneMidSend(s, c) && LogsSettled(s, c) }

  /** The tick's separate mark comes in time: it names no decided row of the campaign. */
  predicate MarksOpen(s: State, ids: set<nat>, c: nat) {
    forall i :: i in ids && OfCampaign(s, i, c) ==> !Terminal(s.rows[i].status)
  }

  /** The step neither takes the campaign out of its pause nor finds fault with one of its senders. */
  predicate Spares(s: State, step: Step, c: nat) {
    match step
    case Admin(a) => a != Resume(c)
    case Table(t) => t != Cancel(c) && t != Exhaust(c) && (t.Mark? ==> MarksOpen(s, t.ids, c))
    case Work(id, w) => OfCampaign(s, id, c) && w.Check? ==> !w.verdict.AllBlocked? && !w.verdict.BadSenderName?
  }

  predicate SparedRun(s: State, steps: seq<Step>, c: nat)
    requires Runs(s, steps)
    decreases |steps|
  {
    steps == [] || (Spares(s, steps[0], c) && SparedRun(Apply(s, steps[0]), steps[1..], c))
  }

  /** The messages taken for rows of the campaign. */
  function Taken(s: State, c: nat): seq<Acceptance> { TakenFrom(s, s.accepted, c) }

  function TakenFrom(s: State, accepted: seq<Acceptance>, c: nat): seq<Acceptance> {
    if accepted == [] then []
    else
      var init, last := accepted[..|accepted| - 1], accepted[|accepted| - 1];
      TakenFrom(s, init, c) + (if OfCampaign(s, last.row, c) then [last] else [])
  }

  /** Messages are taken for known rows. */
  ghost predicate RowsKnown(s: State) { forall k :: 0 <= k < |s.accepted| ==> s.accepted[k].row in s.rows }

  /** Rows keep their campaign. */
  ghost predicate OwnersKept(s: State, s': State) {
    s.rows.Keys <= s'.rows.Keys && forall i :: i in s.rows ==> s'.rows[i].campaign == s.rows[i].campaign
  }

  /** Open rows stay open, new rows are open, nothing more is taken for the campaign. */
  ghost predicate Held(s: State, s': State, c: nat) {
    && OwnersKept(s, s') && ActiveRows(s, c) <= ActiveRows(s', c)
    && (forall i :: OfCampaign(s', i, c) && i !in s.rows ==> i in ActiveRows(s', c))
    && Taken(s', c) == Taken(s, c)
  }

  // ---------------------------------------------------------------------------
  // One step
  // ---------------------------------------------------------------------------

  lemma {:induction false} TakenSame(s: State, s': State, accepted: seq<Acceptance>, c: nat)
    requires OwnersKept(s, s') && forall k :: 0 <= k < |accepted| ==> accepted[k].row in s.rows
    ensures TakenFrom(s', accepted, c) == TakenFrom(s, accepted, c)
    decreases |accepted|
  {
    if accepted != [] { TakenSame(s, s', accepted[..|accepted| - 1], c); }
  }

  /** What a step must leave for the pause to hold. */
  ghost predicate KeptOpen(s: State, s': State, c: nat) {
    && OwnersKept(s, s')
    && (forall i :: OfCampaign(s, i, c) && !Terminal(s.rows[i].status) ==> !Terminal(s'.rows[i].status))
    && (forall i :: i in s'.rows && i !in s.rows ==> s'.rows[i].status == Pending)
  }

  lemma HeldWhen(s: State, s': State, c: nat)
    requires RowsKnown(s) && KeptOpen(s, s', c) && s'.accepted == s.accepted
    ensures RowsKnown(s') && Held(s, s', c)
  {
    TakenSame(s, s', s.accepted, c);
  }

  /** Work on another row cannot settle one of the campaign. */
  ghost predicate ElsewhereOnly(s: State, s': State, id: nat, c: nat) {
    && s'.rows.Keys == s.rows.Keys && OwnersKept(s, s')
    && (forall i :: OfCampaign(s, i, c) ==> s'.rows[i] == s.rows[i])
    && IsPaused(s', c)
    && (forall i :: i in s'.jobs && i != id ==> i in s.jobs && s'.jobs[i] == s.jobs[i])
  }

  lemma ElsewhereHolds(s: State, id: nat, step: WorkerStep, c: nat)
    requires EnabledWork(s, id, step) && !OfCampaign(s, id, c) && IsPaused(s, c)
    ensures ElsewhereOnly(s, ApplyWork(s, id, step), id, c)
  {
    match step
    case Check(v) => OutcomeElsewhere(s, id, CheckOutcome(s, id, v), c);
    case Reserve => FailCampaignElsewhere(SetPhase(s, id, Done(true)), id, c);
    case Settle(written) => SettleElsewhere(s, id, written, c);
    case _ =>
  }

  lemma FailRowElsewhere(s: State, id: nat, c: nat)
    requires id in s.rows && !OfCampaign(s, id, c) && IsPaused(s, c)
    ensures ElsewhereOnly(s, FailRow(s, id), id, c)
  {
  }

  lemma FailCampaignElsewhere(s: State, id: nat, c: nat)
    requires id in s.rows && !OfCampaign(s, id, c) && IsPaused(s, c)
    ensures ElsewhereOnly(s, FailCampaign(s, id), id, c)
  {
  }

  lemma OutcomeElsewhere(s: State, id: nat, o: Outcome, c: nat)
    requires id in s.rows && id in s.jobs && !OfCampaign(s, id, c) && IsPaused(s, c)
    ensures ElsewhereOnly(s, ApplyOutcome(s, id, o), id, c)
  {
    match o
    case Fail(throws) => FailRowElsewhere(SetPhase(s, id, Done(!throws)), id, c);
    case FailAll => FailCampaignElsewhere(SetPhase(s, id, Done(true)), id, c);
    case _ =>
  }

  lemma SettleElsewhere(s: State, id: nat, written: bool, c: nat)
    requires EnabledWork(s, id, Settle(written)) && !OfCampaign(s, id, c) && IsPaused(s, c)
    ensures ElsewhereOnly(s, ApplyWork(s, id, Settle(written)), id, c)
  {
    var p := s.jobs[id].phase;
    if !p.answer.accepted && !p.answer.duplicate {
      ClosingFrame(s, id, written);
      FailRowElsewhere(Closing(s, id, written), id, c);
    }
  }

  /** Worker steps log and send for their own row only. */
  ghost predicate OwnBooks(s: State, s': State, id: nat) {
    && (s'.delivered == s.delivered || s'.delivered == s.delivered + {id})
    && (s'.accepted == s.accepted
        || (|s'.accepted| == |s.accepted| + 1 && s'.accepted[..|s.accepted|] == s.accepted && s'.accepted[|s.accepted|].row == id))
  }

  lemma WorkKeepsBooks(s: State, id: nat, step: WorkerStep)
    requires EnabledWork(s, id, step)
    ensures OwnBooks(s, ApplyWork(s, id, step), id)
  {
    match step
    case Check(v) => OutcomeFrame(s, id, CheckOutcome(s, id, v));
    case Reserve => FailCampaignFrame(SetPhase(s, id, Done(true)), id);
    case Settle(written) =>
      ClosingFrame(s, id, written);
      FailRowFrame(Closing(s, id, written), id);
    case _ =>
  }

  /** Elsewhere a message may be taken, for the row worked on. */
  lemma FromElsewhere(s: State, s': State, id: nat, c: nat)
    requires id in s.rows && id in s.jobs && !OfCampaign(s, id, c) && Quiet(s, c) && RowsKnown(s)
    requires ElsewhereOnly(s, s', id, c) && OwnBooks(s, s', id)
    ensures Quiet(s', c) && RowsKnown(s') && Held(s, s', c)
  {
    TakenSame(s, s', s.accepted, c);
    if s'.accepted != s.accepted { assert s'.accepted[..|s'.accepted| - 1] == s.accepted; }
  }

  /** A worker that reads a row of the paused campaign puts it back, or moves it to another sender. */
  lemma CheckHere(s: State, id: nat, v: Verdict, c: nat)
    requires EnabledWork(s, id, Check(v)) && OfCampaign(s, id, c) && IsPaused(s, c)
    requires !v.AllBlocked? && !v.BadSenderName?
    ensures var s' := ApplyWork(s, id, Check(v));
      && s'.campaigns == s.campaigns && s'.delivered == s.delivered && s'.accepted == s.accepted
      && s'.jobs == s.jobs[id := s.jobs[id].(phase := Done(true))]
      && s'.rows.Keys == s.rows.Keys && (forall i :: i in s.rows && i != id ==> s'.rows[i] == s.rows[i])
      && s'.rows[id].campaign == Some(c) && (Terminal(s'.rows[id].status) <==> Terminal(s.rows[id].status))
  {
  }

  /** A worker that is not past its checks can end its job, die or lose it. */
  lemma RestHere(s: State, id: nat, step: WorkerStep)
    requires EnabledWork(s, id, step) && Idle(s.jobs[id].phase) && !step.Check?
    ensures var s' := ApplyWork(s, id, step);
      && s'.rows == s.rows && s'.campaigns == s.campaigns && s'.delivered == s.delivered && s'.accepted == s.accepted
      && (forall i :: i in s'.jobs ==> i in s.jobs && (s'.jobs[i] == s.jobs[i] || Idle(s'.jobs[i].phase)))
  {
  }

  lemma WorkHere(s: State, id: nat, step: WorkerStep, c: nat)
    requires EnabledWork(s, id, step) && OfCampaign(s, id, c) && Spares(s, Work(id, step), c)
    requires Quiet(s, c) && RowsKnown(s)
    ensures var s' := ApplyWork(s, id, step); Quiet(s', c) && RowsKnown(s') && Held(s, s', c)
  {
    if step.Check? {
      CheckHere(s, id, step.verdict, c);
      FromHere(s, ApplyWork(s, id, step), id, c);
    } else {
      RestHere(s, id, step);
      FromHere(s, ApplyWork(s, id, step), id, c);
    }
  }

  lemma FromHere(s: State, s': State, id: nat, c: nat)
    requires Quiet(s, c) && RowsKnown(s) && OfCampaign(s, id, c) && id in s.jobs
    requires s'.campaigns == s.campaigns && s'.delivered == s.delivered && s'.accepted == s.accepted
    requires forall i :: i in s'.jobs ==> i in s.jobs && (s'.jobs[i] == s.jobs[i] || Idle(s'.jobs[i].phase))
    requires s'.rows.Keys == s.rows.Keys && (forall i :: i in s.rows && i != id ==> s'.rows[i] == s.rows[i])
    requires s'.rows[id].campaign == Some(c) && (Terminal(s'.rows[id].status) <==> Terminal(s.rows[id].status))
    ensures Quiet(s', c) && RowsKnown(s') && Held(s, s', c)
  {
    HeldWhen(s, s', c);
  }

  /** Open stays open and decided stays decided. */
  ghost predicate SameSide(s: State, s': State, c: nat) {
    forall i :: OfCampaign(s, i, c) ==> i in s'.rows && (Terminal(s'.rows[i].status) <==> Terminal(s.rows[i].status))
  }

  lemma IssueKeepsSide(s: State, channel: nat, ids: set<nat>, c: nat)
    requires CanPick(s, channel, ids)
    ensures SameSide(s, ApplyTable(s, Issue(channel, ids)), c)
  {
    assert forall i :: i in ids ==> i in s.rows && s.rows[i].status == Pending;
  }

  lemma OtherCampaign(s: State, st: RowStatus, c: nat, other: nat)
    requires c != other
    ensures SameSide(s, SetStatuses(s, ActiveRows(s, other), st), c)
  {
    assert forall i :: OfCampaign(s, i, c) ==> i !in ActiveRows(s, other);
  }

  lemma TableKeepsSide(s: State, step: TableStep, c: nat)
    requires EnabledTable(s, step) && Spares(s, Table(step), c) && Quiet(s, c)
    ensures SameSide(s, ApplyTable(s, step), c)
  {
    match step
    case Issue(channel, ids) => IssueKeepsSide(s, channel, ids, c);
    case Cancel(other) => OtherCampaign(SetCampaignStatus(s, other, Canceled), Skipped, c, other);
    case Exhaust(other) => OtherCampaign(s, Failed, c, other);
    case _ =>
  }

  lemma TableKeepsPause(s: State, step: TableStep, c: nat)
    requires EnabledTable(s, step) && Spares(s, Table(step), c) && IsPaused(s, c)
    ensures IsPaused(ApplyTable(s, step), c)
  {
  }

  /** The stale sweep finds no log for an open row of the campaign. */
  lemma TableHolds(s: State, step: TableStep, c: nat)
    requires EnabledTable(s, step) && Spares(s, Table(step), c) && Quiet(s, c) && RowsKnown(s)
    ensures var s' := ApplyTable(s, step); Quiet(s', c) && RowsKnown(s') && Held(s, s', c)
  {
    AllTableFrames(s, step);
    TableKeepsSide(s, step, c);
    TableKeepsPause(s, step, c);
    FromFrame(s, ApplyTable(s, step), c);
  }

  lemma FromFrame(s: State, s': State, c: nat)
    requires TableFrame(s, s') && SameSide(s, s', c) && IsPaused(s', c) && Quiet(s, c) && RowsKnown(s)
    ensures Quiet(s', c) && RowsKnown(s') && Held(s, s', c)
  {
    HeldWhen(s, s', c);
    forall i | i in s'.jobs && OfCampaign(s', i, c) ensures Idle(s'.jobs[i].phase) {
      if i in s.jobs && s'.jobs[i] == s.jobs[i] { assert OfCampaign(s, i, c); }
    }
  }

  lemma AdminHolds(s: State, step: AdminStep, c: nat)
    requires EnabledAdmin(s, step) && Spares(s, Admin(step), c) && Quiet(s, c) && RowsKnown(s)
    ensures var s' := ApplyAdmin(s, step); Quiet(s', c) && RowsKnown(s') && Held(s, s', c)
  {
    HeldWhen(s, ApplyAdmin(s, step), c);
  }

  lemma StepHolds(s: State, step: Step, c: nat)
    requires Enabled(s, step) && Spares(s, step, c) && Quiet(s, c) && RowsKnown(s)
    ensures var s' := Apply(s, step); Quiet(s', c) && RowsKnown(s') && Held(s, s', c)
  {
    match step
    case Admin(a) => AdminHolds(s, a, c);
    case Table(t) => TableHolds(s, t, c);
    case Work(id, w) =>
      if OfCampaign(s, id, c) {
        WorkHere(s, id, w, c);
        return;
      }
      ElsewhereHolds(s, id, w, c);
      WorkKeepsBooks(s, id, w);
      FromElsewhere(s, ApplyWork(s, id, w), id, c);
  }

  // ---------------------------------------------------------------------------
  // Whole runs
  // ---------------------------------------------------------------------------

  lemma HeldOn(s: State, mid: State, end: State, c: nat)
    requires Held(s, mid, c) && Held(mid, end, c)
    ensures Held(s, end, c)
  {
    forall i | OfCampaign(end, i, c) && i !in s.rows ensures i in ActiveRows(end, c) {
      if i in mid.rows { assert i in ActiveRows(mid, c); }
    }
  }

  /**
   * Main result: from the moment a paused campaign has no worker mid-send, over every run
   * that does not resume, cancel or exhaust it, finds no fault with its senders and marks
   * none of its decided rows, no open row of it is decided, rows added meanwhile stay open
   * too, and the provider takes no message for it.
   */
  lemma {:induction false} PauseHolds(s: State, steps: seq<Step>, c: nat)
    requires Quiet(s, c) && RowsKnown(s) && Runs(s, steps) && SparedRun(s, steps, c)
    ensures Held(s, Exec(s, steps), c) && Quiet(Exec(s, steps), c)
    decreases |steps|
  {
    if steps != [] {
      StepHolds(s, steps[0], c);
      PauseHolds(Apply(s, steps[0]), steps[1..], c);
      HeldOn(s, Apply(s, steps[0]), Exec(s, steps), c);
    }
  }

  /** Only checks, none of which finds fault with the sender. */
  ghost predicate OnlyChecks(steps: seq<Step>) {
    forall k :: 0 <= k < |steps| ==> steps[k].Work? && steps[k].work.Check?
                                     && !steps[k].work.verdict.AllBlocked? && !steps[k].work.verdict.BadSenderName?
  }

  lemma CheckHolds(s: State, id: nat, v: Verdict, c: nat)
    requires EnabledWork(s, id, Check(v)) && IsPaused(s, c) && !v.AllBlocked? && !v.BadSenderName?
    ensures var s' := ApplyWork(s, id, Check(v)); IsPaused(s', c) && ActiveRows(s, c) <= ActiveRows(s', c)
  {
    if !OfCampaign(s, id, c) { ElsewhereHolds(s, id, Check(v), c); }
  }

  /** While the campaign is paused, checks that find no fault with the sender decide none of its rows, whoever is mid-send. */
  lemma {:induction false} ChecksDecideNothing(s: State, steps: seq<Step>, c: nat)
    requires IsPaused(s, c) && Runs(s, steps) && OnlyChecks(steps)
    ensures ActiveRows(s, c) <= ActiveRows(Exec(s, steps), c)
    decreases |steps|
  {
    if steps != [] {
      CheckHolds(s, steps[0].id, steps[0].work.verdict, c);
      ChecksDecideNothing(Apply(s, steps[0]), steps[1..], c);
    }
  }
}
