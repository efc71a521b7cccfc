/**
 * The send worker as the program runs it, one phase after the other, with the early
 * returns where the program has them. What the world does — the checks' findings, a failed
 * write, the transport throwing, the provider's answer — comes in as `World`. Uninterrupted
 * it takes exactly the pipeline's worker steps; an interruption is a Crash between two.
 */
module SendWorker {
  import opened Common
  import opened QuotaRefund
  import opened Pipeline
  import opened PipelineFrames

  datatype World = World(
    verdict: Verdict, persistFails: bool, transportThrows: bool,
    answer: Answer, taken: bool, logWritten: bool, refundWritten: bool)

  /** The operation id the row has or is about to get. */
  function OperationId(s: State, id: nat): nat
    requires id in s.rows
  {
    if s.rows[id].messageId.Some? then s.rows[id].messageId.value else s.nextOp
  }

  ghost predicate MayRun(s: State, id: nat, w: World) {
    && EnabledWork(s, id, Check(w.verdict))
    && ProviderMayAnswer(s, OperationId(s, id), w.answer, w.taken)
  }

  /** A unit given back before the provider was reached, the job failed. */
  function Returned(s: State, id: nat, refundWritten: bool): State
    requires id in s.jobs && Holds(s.jobs[id].phase) && s.jobs[id].phase.att < |s.attempts|
  {
    SetPhase(Refund(s, s.jobs[id].phase.att, refundWritten), id, Done(false))
  }

  function Noted(s: State, id: nat, written: bool): State
    requires id in s.rows && id in s.jobs && s.jobs[id].phase.Answered?
  {
    var p := s.jobs[id].phase;
    SetPhase(s, id, Logged(p.op, p.att, p.answer)).(
      delivered := if written && p.answer.accepted && s.rows[id].campaign.Some? then s.delivered + {id} else s.delivered)
  }

  /** From the provider's answer to the end of the job. */
  function Delivered(s: State, id: nat, w: World): State
    requires id in s.rows && id in s.jobs && s.jobs[id].phase.Persisted? && s.jobs[id].phase.att < |s.attempts|
  {
    var n := Noted(Hear(s, id, w.answer, w.taken), id, w.logWritten);
    if w.answer.accepted || w.answer.duplicate then SettleSent(n, id) else SettleFailed(n, id, w.refundWritten)
  }

  /** From the reservation to the end of the job. */
  function Attempted(s: State, id: nat, w: World): State
    requires id in s.rows && id in s.jobs && s.jobs[id].phase.Reserved? && s.jobs[id].phase.att < |s.attempts|
  {
    if w.persistFails && s.rows[id].messageId.None? then Returned(s, id, w.refundWritten)
    else if w.transportThrows then Returned(FixId(s, id), id, w.refundWritten)
    else Delivered(FixId(s, id), id, w)
  }

  /** The job of `id` past its checks. */
  function Passed(s: State, id: nat): State
    requires id in s.rows && id in s.jobs
  {
    SetPhase(s, id, Checked(s.rows[id].messageId))
  }

  /** ... and holding a unit. */
  function Holding(s: State, id: nat): State
    requires id in s.rows && id in s.jobs
  {
    TakeUnit(Passed(s, id), id)
  }

  /** The tables after a send nobody interrupts. */
  function SendRun(s: State, id: nat, w: World): State
    requires id in s.rows && id in s.jobs
  {
    if !CheckOutcome(s, id, w.verdict).Pass? then ApplyOutcome(s, id, CheckOutcome(s, id, w.verdict))
    else if UnitsOf(s.quota, s.rows[id].tenant) <= 0 then FailCampaign(SetPhase(Passed(s, id), id, Done(true)), id)
    else Attempted(Holding(s, id), id, w)
  }

  /** Ending the job first does not change what the checks find or do. */
  lemma DoneFirst(s: State, id: nat, v: Verdict)
    requires id in s.rows && id in s.jobs
    ensures var done := SetPhase(s, id, Done(true));
      && CheckOutcome(done, id, v) == CheckOutcome(s, id, v)
      && ApplyOutcome(done, id, CheckOutcome(s, id, v)) == ApplyOutcome(s, id, CheckOutcome(s, id, v))
  {
    forall p: Phase ensures SetPhase(SetPhase(s, id, Done(true)), id, p) == SetPhase(s, id, p) {}
  }

  class Worker {
    var db: State

    constructor (tables: State)
      ensures db == tables
    {
      db := tables;
    }

    method UpdateStatus(id: nat, status: RowStatus)
      requires id in db.rows
      modifies this
      ensures db == SetStatus(old(db), id, status)
    {
      db := db.(rows := db.rows[id := db.rows[id].(status := status, touched := db.now)]);
    }

    method MoveJob(id: nat, phase: Phase)
      requires id in db.jobs
      modifies this
      ensures db == SetPhase(old(db), id, phase)
    {
      db := db.(jobs := db.jobs[id := db.jobs[id].(phase := phase)]);
    }

    method MaybeFinaliseCampaign(c: nat)
      modifies this
      ensures db == MaybeFinalise(old(db), Some(c))
    {
      var remaining := |ActiveRows(db, c)|;
      if remaining == 0 && c in db.campaigns && db.campaigns[c].status == Sending {
        db := db.(campaigns := db.campaigns[c := db.campaigns[c].(status := Closed)]);
      }
    }

    method FailRecipient(id: nat)
      requires id in db.rows
      modifies this
      ensures db == FailRow(old(db), id)
    {
      var campaign := db.rows[id].campaign;
      UpdateStatus(id, Failed);
      if campaign.Some? { MaybeFinaliseCampaign(campaign.value); }
    }

    /** updateMany over the open recipients of the row's campaign; a flow send has only itself. */
    method FailEveryOpenRecipient(id: nat)
      requires id in db.rows
      modifies this
      ensures db == FailCampaign(old(db), id)
    {
      if db.rows[id].campaign.None? {
        UpdateStatus(id, Failed);
      } else {
        var c := db.rows[id].campaign.value;
        var open := ActiveRows(db, c);
        db := db.(rows := map i | i in db.rows ::
                    if i in open then db.rows[i].(status := Failed, touched := db.now) else db.rows[i]);
        MaybeFinaliseCampaign(c);
      }
    }

    /** Everything before the quota: true when the send may go on. */
    method RunChecks(id: nat, v: Verdict) returns (pass: bool)
      requires id in db.rows && id in db.jobs
      modifies this
      ensures db == ApplyOutcome(old(db), id, CheckOutcome(old(db), id, v))
      ensures pass <==> CheckOutcome(old(db), id, v).Pass?
    {
      var row := db.rows[id];
      DoneFirst(db, id, v);
      MoveJob(id, Done(true));
      if row.status.Sent? || row.status.Failed? || row.status.Skipped? { return false; }
      if v.Reroute? {
        if row.status == Queued {
          db := db.(rows := db.rows[id := row.(status := Pending, sender := v.sender, channel := v.channel, touched := db.now)]);
        }
        return false;
      }
      if v.AllBlocked? {
        if row.status == Queued || row.campaign.None? { UpdateStatus(id, Skipped); }
        return false;
      }
      if v.BadSenderName? { FailRecipient(id); return false; }
      pass := RunLateChecks(id, v);
    }

    /** The campaign's state, then content, channel, links and transport. */
    method RunLateChecks(id: nat, v: Verdict) returns (pass: bool)
      requires id in db.rows && id in db.jobs && db.jobs[id].phase == Done(true)
      requires !Terminal(db.rows[id].status) && !v.Reroute? && !v.AllBlocked? && !v.BadSenderName?
      modifies this
      ensures db == ApplyOutcome(old(db), id, CheckOutcome(old(db), id, v))
      ensures pass <==> CheckOutcome(old(db), id, v).Pass?
    {
      var row := db.rows[id];
      assert SetPhase(db, id, Done(true)) == db;
      if row.campaign.Some? && row.campaign.value in db.campaigns {
        if db.campaigns[row.campaign.value].status == Paused { UpdateStatus(id, Pending); return false; }
        if db.campaigns[row.campaign.value].status == Canceled { UpdateStatus(id, Skipped); return false; }
      }
      if v.Reject? {
        if v.throws { MoveJob(id, Done(false)); }
        FailRecipient(id);
        return false;
      }
      if v.NoTrackingHost? { FailEveryOpenRecipient(id); return false; }
      MoveJob(id, Checked(row.messageId));
      pass := true;
    }

    /** The guarded decrement; on zero rows updated the campaign's open rows are failed. */
    method ReserveUnit(id: nat) returns (reserved: bool)
      requires id in db.rows && id in db.jobs && db.jobs[id].phase.Checked?
      modifies this
      ensures reserved <==> UnitsOf(old(db).quota, old(db).rows[id].tenant) > 0
      ensures db == if reserved then TakeUnit(old(db), id) else FailCampaign(SetPhase(old(db), id, Done(true)), id)
    {
      var tenant := db.rows[id].tenant;
      var remaining := UnitsOf(db.quota, tenant);
      if remaining > 0 {
        var seen := db.jobs[id].phase.seen;
        db := db.(quota := db.quota[tenant := remaining - 1], attempts := db.attempts + [Attempt(tenant, id, None, Open)]);
        MoveJob(id, Reserved(seen, |db.attempts| - 1));
        return true;
      }
      MoveJob(id, Done(true));
      FailEveryOpenRecipient(id);
      reserved := false;
    }

    method RefundUnit(att: nat, written: bool)
      requires att < |db.attempts|
      modifies this
      ensures db == Refund(old(db), att, written)
    {
      var tenant := db.attempts[att].tenant;
      if written {
        db := db.(quota := db.quota[tenant := UnitsOf(db.quota, tenant) + 1],
                  attempts := db.attempts[att := db.attempts[att].(fate := Refunded)]);
      } else {
        db := db.(attempts := db.attempts[att := db.attempts[att].(fate := Leaked)]);
      }
    }

    method PersistOperationId(id: nat)
      requires id in db.rows && id in db.jobs && db.jobs[id].phase.Reserved?
      modifies this
      ensures db == FixId(old(db), id)
    {
      var att := db.jobs[id].phase.att;
      var operationId := if db.jobs[id].phase.seen.Some? then db.jobs[id].phase.seen.value else db.nextOp;
      if db.jobs[id].phase.seen.None? {
        db := db.(rows := db.rows[id := db.rows[id].(messageId := Some(operationId), touched := db.now)], nextOp := db.nextOp + 1);
      }
      MoveJob(id, Persisted(operationId, att));
    }

    /** Nothing reached the provider: give the unit back and let the job fail. */
    method GiveBack(id: nat, refundWritten: bool)
      requires id in db.jobs && Holds(db.jobs[id].phase) && db.jobs[id].phase.att < |db.attempts|
      modifies this
      ensures db == Returned(old(db), id, refundWritten)
    {
      RefundUnit(db.jobs[id].phase.att, refundWritten);
      MoveJob(id, Done(false));
    }

    method CallProvider(id: nat, answer: Answer, taken: bool)
      requires id in db.rows && id in db.jobs && db.jobs[id].phase.Persisted? && db.jobs[id].phase.att < |db.attempts|
      modifies this
      ensures db == Hear(old(db), id, answer, taken)
    {
      var op, att := db.jobs[id].phase.op, db.jobs[id].phase.att;
      if taken { db := db.(accepted := db.accepted + [Acceptance(op, id, db.jobs[id].channel, db.rows[id].campaign.Some?, db.now)]); }
      db := db.(attempts := db.attempts[att := db.attempts[att].(answer := Some(answer))]);
      MoveJob(id, Answered(op, att, answer));
    }

    /** The send log of campaign recipients is what the stale sweep reads. */
    method WriteSendLog(id: nat, written: bool)
      requires id in db.rows && id in db.jobs && db.jobs[id].phase.Answered?
      modifies this
      ensures db == Noted(old(db), id, written)
    {
      var p := db.jobs[id].phase;
      if written && p.answer.accepted && db.rows[id].campaign.Some? { db := db.(delivered := db.delivered + {id}); }
      MoveJob(id, Logged(p.op, p.att, p.answer));
    }

    method MarkSent(id: nat)
      requires id in db.rows && id in db.jobs && db.jobs[id].phase.Logged? && db.jobs[id].phase.att < |db.attempts|
      modifies this
      ensures db == SettleSent(old(db), id)
    {
      var p, row, channel := db.jobs[id].phase, db.rows[id], db.jobs[id].channel;
      db := db.(attempts := db.attempts[p.att := db.attempts[p.att].(fate := Charged)]);
      db := db.(rows := db.rows[id := row.(status := Sent, messageId := Some(p.op), touched := db.now)]);
      var regular := row.campaign.Some? && row.status == Queued && row.channel == channel;
      db := db.(log := db.log + [SendEvent(channel, db.now, row.campaign.Some?, regular)]);
      MoveJob(id, Done(true));
    }

    method MarkFailed(id: nat, refundWritten: bool)
      requires id in db.rows && id in db.jobs && db.jobs[id].phase.Logged? && db.jobs[id].phase.att < |db.attempts|
      modifies this
      ensures db == SettleFailed(old(db), id, refundWritten)
    {
      var p := db.jobs[id].phase;
      if p.answer.platformSide {
        RefundUnit(p.att, refundWritten);
      } else {
        db := db.(attempts := db.attempts[p.att := db.attempts[p.att].(fate := Charged)]);
      }
      MoveJob(id, Done(false));
      FailRecipient(id);
    }

    method AnswerAndSettle(id: nat, w: World)
      requires id in db.rows && id in db.jobs && db.jobs[id].phase.Persisted? && db.jobs[id].phase.att < |db.attempts|
      modifies this
      ensures db == Delivered(old(db), id, w)
    {
      CallProvider(id, w.answer, w.taken);
      WriteSendLog(id, w.logWritten);
      if w.answer.accepted || w.answer.duplicate {
        MarkSent(id);
      } else {
        MarkFailed(id, w.refundWritten);
      }
    }

    method AttemptDelivery(id: nat, w: World)
      requires id in db.rows && id in db.jobs && db.jobs[id].phase.Reserved? && db.jobs[id].phase.att < |db.attempts|
      modifies this
      ensures db == Attempted(old(db), id, w)
    {
      if w.persistFails && db.rows[id].messageId.None? {
        GiveBack(id, w.refundWritten);
        return;
      }
      PersistOperationId(id);
      if w.transportThrows {
        GiveBack(id, w.refundWritten);
        return;
      }
      AnswerAndSettle(id, w);
    }

    /** A whole send without interruption. */
    method RunSend(id: nat, w: World)
      requires id in db.rows && id in db.jobs && db.jobs[id].phase.Waiting?
      modifies this
      ensures db == SendRun(old(db), id, w)
    {
      var pass := RunChecks(id, w.verdict);
      if !pass { return; }
      var reserved := ReserveUnit(id);
      if !reserved { return; }
      AttemptDelivery(id, w);
    }
  }
}
