/**
 * Delivery: whatever the interleaving of ticks, workers, crashes, sweeps and campaign
 * commands, the provider takes at most one message per recipient, and a recipient shown
 * as sent had its message taken. Holds on every run, with the tick split or not.
 */
module OnceOnly {
  import opened Common
  import opened QuotaRefund
  import opened Pipeline
  import opened PipelineFrames

  /** The provider took a message for this row. */
  ghost predicate Taken(s: State, id: nat) {
    exists k :: 0 <= k < |s.accepted| && s.accepted[k].row == id
  }

  /** What a job knows about the operation id is what the row says. */
  ghost predicate JobKnowsId(s: State, id: nat)
    requires id in s.rows && id in s.jobs
  {
    match s.jobs[id].phase
    case Checked(seen) => s.rows[id].messageId == seen
    case Reserved(seen, _) => s.rows[id].messageId == seen
    case Persisted(op, _) => s.rows[id].messageId == Some(op)
    case Answered(op, _, a) => s.rows[id].messageId == Some(op) && (a.accepted || a.duplicate ==> Taken(s, id))
    case Logged(op, _, a) => s.rows[id].messageId == Some(op) && (a.accepted || a.duplicate ==> Taken(s, id))
    case _ => true
  }

  ghost predicate Owns(s: State, id: nat, op: nat) {
    id in s.rows && s.rows[id].messageId == Some(op)
  }

  /** Operation ids come from the counter and belong to one row each. */
  ghost predicate IdsOwned(s: State) {
    && (forall i: nat, op: nat :: Owns(s, i, op) ==> op < s.nextOp)
    && (forall i: nat, j: nat, op: nat :: Owns(s, i, op) && Owns(s, j, op) ==> i == j)
  }

  ghost predicate AcceptedOwned(s: State) {
    && (forall k :: 0 <= k < |s.accepted| ==> Owns(s, s.accepted[k].row, s.accepted[k].op))
    && (forall j, k :: 0 <= j < k < |s.accepted| ==> s.accepted[j].op != s.accepted[k].op)
  }

  ghost predicate SentTaken(s: State) {
    && (forall i :: i in s.delivered ==> Taken(s, i))
    && (forall i :: i in s.rows && s.rows[i].status == Sent ==> Taken(s, i))
  }

  ghost predicate Inv(s: State) {
    && IdsOwned(s)
    && AcceptedOwned(s)
    && SentTaken(s)
    && (forall id :: id in s.jobs ==> id in s.rows && JobKnowsId(s, id))
  }

  lemma InitialInv(s: State)
    requires Initial(s)
    ensures Inv(s)
  {
  }

  /** A step that neither assigns an operation id nor reaches the provider. */
  ghost predicate Quiet(s: State, s': State) {
    && s'.accepted == s.accepted
    && s'.nextOp == s.nextOp
    && s'.delivered == s.delivered
    && RowsKept(s, s')
    && SentOnEvidence(s, s')
    && (forall i :: i in s'.jobs ==>
          || (i in s.jobs && s'.jobs[i].phase == s.jobs[i].phase)
          || (i in s'.rows && (s'.jobs[i].phase.Waiting? || JobKnowsId(s', i))))
  }

  lemma QuietKeepsInv(s: State, s': State)
    requires Inv(s) && Quiet(s, s')
    ensures Inv(s')
  {
    assert forall i :: Taken(s', i) <==> Taken(s, i);
    assert forall i: nat, op: nat :: Owns(s', i, op) <==> Owns(s, i, op);
    forall i | i in s'.jobs ensures i in s'.rows && JobKnowsId(s', i) {
      if i in s.jobs { assert JobKnowsId(s, i); }
    }
  }

  lemma AdminQuiet(s: State, step: AdminStep)
    requires EnabledAdmin(s, step)
    ensures Quiet(s, ApplyAdmin(s, step))
  {
  }

  lemma CheckQuiet(s: State, id: nat, o: Outcome)
    requires id in s.rows && id in s.jobs
    ensures Quiet(s, ApplyOutcome(s, id, o))
  {
    OutcomeFrame(s, id, o);
    QuietWhenOneJobMoves(s, ApplyOutcome(s, id, o), id,
      if o.Pass? then Checked(s.rows[id].messageId) else Done(!(o.Fail? && o.throws)));
  }

  lemma QuietWhenOneJobMoves(s: State, s': State, id: nat, p: Phase)
    requires s'.accepted == s.accepted && s'.nextOp == s.nextOp && s'.delivered == s.delivered
    requires RowsFailedOrHeld(s, s') && id in s.rows && JobMoved(s, s', id, p)
    requires p.Waiting? || JobKnowsId(s', id)
    ensures Quiet(s, s')
  {
  }

  lemma TakeUnitQuiet(s: State, id: nat)
    requires EnabledWork(s, id, Reserve) && JobKnowsId(s, id)
    ensures Quiet(s, TakeUnit(s, id))
  {
    QuietWhenOneJobMoves(s, TakeUnit(s, id), id, TakeUnit(s, id).jobs[id].phase);
  }

  lemma OutOfUnitsQuiet(s: State, id: nat)
    requires id in s.rows && id in s.jobs
    ensures Quiet(s, FailCampaign(SetPhase(s, id, Done(true)), id))
  {
    FailCampaignFrame(SetPhase(s, id, Done(true)), id);
    QuietWhenOneJobMoves(s, FailCampaign(SetPhase(s, id, Done(true)), id), id, Done(true));
  }

  lemma ReserveQuiet(s: State, id: nat)
    requires Inv(s) && EnabledWork(s, id, Reserve)
    ensures Quiet(s, ApplyWork(s, id, Reserve))
  {
    assert JobKnowsId(s, id);
    if UnitsOf(s.quota, s.rows[id].tenant) > 0 { TakeUnitQuiet(s, id); } else { OutOfUnitsQuiet(s, id); }
  }

  lemma ThrowQuiet(s: State, id: nat, written: bool)
    requires EnabledWork(s, id, Throw(written))
    ensures Quiet(s, ApplyWork(s, id, Throw(written)))
  {
  }

  lemma CrashQuiet(s: State, id: nat, dead: bool)
    requires EnabledWork(s, id, Crash(dead))
    ensures Quiet(s, ApplyWork(s, id, Crash(dead)))
  {
  }

  /** Finishing or losing a job ends or restarts it and leaves the rows alone. */
  lemma EndQuiet(s: State, id: nat, step: WorkerStep)
    requires EnabledWork(s, id, step) && (step.Finish? || step.Lose?)
    ensures Quiet(s, ApplyWork(s, id, step))
  {
  }

  lemma SettleFailedQuiet(s: State, id: nat, written: bool)
    requires EnabledWork(s, id, Settle(written))
    ensures Quiet(s, SettleFailed(s, id, written))
  {
    ClosingFrame(s, id, written);
    FailRowFrame(Closing(s, id, written), id);
    QuietWhenOneJobMoves(s, SettleFailed(s, id, written), id, Done(false));
  }

  /** A job moves on while its row, possibly, becomes sent: sound once the provider took the message. */
  lemma MoveInv(s: State, s': State, id: nat, p: Phase)
    requires Inv(s) && id in s.rows && JobMoved(s, s', id, p)
    requires s'.accepted == s.accepted && s'.nextOp == s.nextOp
    requires s'.delivered == s.delivered || (s'.delivered == s.delivered + {id} && Taken(s, id))
    requires s'.rows.Keys == s.rows.Keys && s'.rows[id].messageId == s.rows[id].messageId
    requires forall i :: i in s.rows && i != id ==> s'.rows[i] == s.rows[i]
    requires s'.rows[id].status == s.rows[id].status || Taken(s, id)
    requires JobKnowsId(s', id)
    ensures Inv(s')
  {
    assert forall i :: Taken(s', i) <==> Taken(s, i);
    assert forall i: nat, op: nat :: Owns(s', i, op) <==> Owns(s, i, op);
    forall i | i in s'.jobs ensures i in s'.rows && JobKnowsId(s', i) {
      assert i in s.jobs && JobKnowsId(s, i);
    }
  }

  lemma SettleSentInv(s: State, id: nat)
    requires Inv(s) && EnabledWork(s, id, Settle(true))
    requires s.jobs[id].phase.answer.accepted || s.jobs[id].phase.answer.duplicate
    ensures Inv(SettleSent(s, id))
  {
    assert JobKnowsId(s, id);
    MoveInv(s, SettleSent(s, id), id, Done(true));
  }

  lemma WriteLogInv(s: State, id: nat, written: bool)
    requires Inv(s) && EnabledWork(s, id, WriteLog(written))
    ensures Inv(ApplyWork(s, id, WriteLog(written)))
  {
    assert JobKnowsId(s, id);
    var s' := ApplyWork(s, id, WriteLog(written));
    assert Taken(s, id) ==> Taken(s', id);
    MoveInv(s, s', id, s'.jobs[id].phase);
  }

  /** The id a fresh operation gets belongs to no other row and was never offered to the provider. */
  lemma FreshIdInv(s: State, s': State, id: nat, att: nat)
    requires Inv(s) && id in s.rows && s.rows[id].messageId.None?
    requires s'.rows.Keys == s.rows.Keys && s'.nextOp == s.nextOp + 1
    requires s'.rows[id].messageId == Some(s.nextOp) && s'.rows[id].status == s.rows[id].status
    requires forall i :: i in s.rows && i != id ==> s'.rows[i] == s.rows[i]
    requires s'.accepted == s.accepted && s'.delivered == s.delivered
    requires JobMoved(s, s', id, Persisted(s.nextOp, att))
    ensures Inv(s')
  {
    assert forall i :: Taken(s', i) <==> Taken(s, i);
    assert forall i: nat, op: nat :: Owns(s', i, op) <==> Owns(s, i, op) || (i == id && op == s.nextOp);
    forall i | i in s'.jobs ensures i in s'.rows && JobKnowsId(s', i) {
      assert i in s.jobs && JobKnowsId(s, i);
    }
  }

  lemma PersistInv(s: State, id: nat)
    requires Inv(s) && EnabledWork(s, id, Persist)
    ensures Inv(FixId(s, id))
  {
    assert JobKnowsId(s, id);
    if s.rows[id].messageId.None? {
      FreshIdInv(s, FixId(s, id), id, s.jobs[id].phase.att);
    } else {
      MoveInv(s, FixId(s, id), id, FixId(s, id).jobs[id].phase);
    }
  }

  /** "Operation id already exists" is only ever heard by a recipient whose message was taken. */
  lemma AlreadyExistsMeansTaken(s: State, id: nat, answer: Answer, taken: bool)
    requires Inv(s) && EnabledWork(s, id, Call(answer, taken)) && answer.duplicate
    ensures Taken(s, id)
  {
    var op := s.jobs[id].phase.op;
    assert JobKnowsId(s, id);
    var k :| 0 <= k < |s.accepted| && s.accepted[k].op == op;
    assert Owns(s, s.accepted[k].row, op) && Owns(s, id, op);
  }

  /** The provider takes a message under an id it was never offered before. */
  lemma AcceptedMore(s: State, s': State, id: nat, op: nat)
    requires Inv(s) && Owns(s, id, op) && forall k :: 0 <= k < |s.accepted| ==> s.accepted[k].op != op
    requires id in s.jobs && s'.accepted == s.accepted + [AcceptedNow(s, id, op)]
    requires forall i: nat, o: nat :: Owns(s', i, o) <==> Owns(s, i, o)
    ensures AcceptedOwned(s') && Taken(s', id) && forall i :: Taken(s, i) ==> Taken(s', i)
  {
    assert s'.accepted[|s.accepted|].row == id;
    forall i | Taken(s, i) ensures Taken(s', i) {
      var k :| 0 <= k < |s.accepted| && s.accepted[k].row == i;
      assert s'.accepted[k] == s.accepted[k];
    }
  }

  /** The answer reaches the job; whoever was taken still is. */
  lemma AnswerInv(s: State, s': State, id: nat, p: Phase)
    requires Inv(s) && id in s.rows && JobMoved(s, s', id, p) && s'.rows == s.rows && s'.nextOp == s.nextOp
    requires s'.delivered == s.delivered && AcceptedOwned(s') && forall i :: Taken(s, i) ==> Taken(s', i)
    requires JobKnowsId(s', id)
    ensures Inv(s')
  {
    assert forall i: nat, o: nat :: Owns(s', i, o) <==> Owns(s, i, o);
    forall i | i in s'.jobs ensures i in s'.rows && JobKnowsId(s', i) {
      assert JobKnowsId(s, i);
    }
  }

  lemma CallInv(s: State, id: nat, answer: Answer, taken: bool)
    requires Inv(s) && EnabledWork(s, id, Call(answer, taken))
    ensures Inv(Hear(s, id, answer, taken))
  {
    var s' := Hear(s, id, answer, taken);
    assert JobKnowsId(s, id);
    if taken {
      AcceptedMore(s, s', id, s.jobs[id].phase.op);
    } else {
      if answer.duplicate { AlreadyExistsMeansTaken(s, id, answer, taken); }
      assert forall i :: Taken(s', i) <==> Taken(s, i);
    }
    AnswerInv(s, s', id, s'.jobs[id].phase);
  }

  lemma WorkInv(s: State, id: nat, step: WorkerStep)
    requires Inv(s) && EnabledWork(s, id, step)
    ensures Inv(ApplyWork(s, id, step))
  {
    var s' := ApplyWork(s, id, step);
    match step
    case Check(v) => CheckQuiet(s, id, CheckOutcome(s, id, v)); QuietKeepsInv(s, s');
    case Reserve => ReserveQuiet(s, id); QuietKeepsInv(s, s');
    case Persist => PersistInv(s, id);
    case Call(answer, taken) => CallInv(s, id, answer, taken);
    case WriteLog(written) => WriteLogInv(s, id, written);
    case Settle(written) =>
      if s.jobs[id].phase.answer.accepted || s.jobs[id].phase.answer.duplicate {
        SettleSentInv(s, id);
      } else {
        SettleFailedQuiet(s, id, written);
        QuietKeepsInv(s, s');
      }
    case Throw(written) => ThrowQuiet(s, id, written); QuietKeepsInv(s, s');
    case Crash(dead) => CrashQuiet(s, id, dead); QuietKeepsInv(s, s');
    case _ => EndQuiet(s, id, step); QuietKeepsInv(s, s');
  }

  lemma StepInv(s: State, step: Step)
    requires Inv(s) && Enabled(s, step)
    ensures Inv(Apply(s, step))
  {
    match step
    case Admin(a) => AdminQuiet(s, a); QuietKeepsInv(s, Apply(s, step));
    case Table(t) => AllTableFrames(s, t); QuietKeepsInv(s, Apply(s, step));
    case Work(id, w) => WorkInv(s, id, w);
  }

  lemma {:induction false} RunInv(s: State, steps: seq<Step>)
    requires Inv(s) && Runs(s, steps)
    ensures Inv(Exec(s, steps))
    decreases |steps|
  {
    if steps != [] {
      StepInv(s, steps[0]);
      RunInv(Apply(s, steps[0]), steps[1..]);
    }
  }

  /** Main result: one acceptance per recipient at most, and exactly one once it is shown as sent. */
  lemma AtMostOneAcceptance(s: State, steps: seq<Step>)
    requires Initial(s) && Runs(s, steps)
    ensures var e := Exec(s, steps);
      && (forall j, k :: 0 <= j < |e.accepted| && 0 <= k < |e.accepted| && e.accepted[j].row == e.accepted[k].row ==> j == k)
      && (forall i :: i in e.rows && e.rows[i].status == Sent ==> Taken(e, i))
  {
    InitialInv(s);
    RunInv(s, steps);
  }

  /** Ids once written stay. */
  ghost predicate KeepsIds(s: State, s': State) {
    forall i :: i in s.rows && s.rows[i].messageId.Some? ==> i in s'.rows && s'.rows[i].messageId == s.rows[i].messageId
  }

  lemma SettleKeepsIds(s: State, id: nat, written: bool)
    requires Inv(s) && EnabledWork(s, id, Settle(written))
    ensures KeepsIds(s, ApplyWork(s, id, Settle(written)))
  {
    assert JobKnowsId(s, id);
    if !(s.jobs[id].phase.answer.accepted || s.jobs[id].phase.answer.duplicate) {
      SettleFailedQuiet(s, id, written);
    }
  }

  lemma PersistKeepsIds(s: State, id: nat)
    requires Inv(s) && EnabledWork(s, id, Persist)
    ensures KeepsIds(s, FixId(s, id))
  {
    assert JobKnowsId(s, id);
  }

  lemma WorkKeepsId(s: State, id: nat, step: WorkerStep)
    requires Inv(s) && EnabledWork(s, id, step)
    ensures KeepsIds(s, ApplyWork(s, id, step))
  {
    match step
    case Check(v) => CheckQuiet(s, id, CheckOutcome(s, id, v));
    case Reserve => ReserveQuiet(s, id);
    case Settle(written) => SettleKeepsIds(s, id, written);
    case Persist => PersistKeepsIds(s, id);
    case _ => RowsUntouched(s, id, step);
  }

  lemma StepKeepsId(s: State, step: Step)
    requires Inv(s) && Enabled(s, step)
    ensures KeepsIds(s, Apply(s, step))
  {
    match step
    case Admin(a) => AdminQuiet(s, a);
    case Table(t) => AllTableFrames(s, t);
    case Work(id, w) => WorkKeepsId(s, id, w);
  }

  /** The operation id of a row is written once and never changes afterwards. */
  lemma {:induction false} OperationIdIsWriteOnce(s: State, steps: seq<Step>, id: nat)
    requires Inv(s) && Runs(s, steps) && id in s.rows && s.rows[id].messageId.Some?
    ensures id in Exec(s, steps).rows && Exec(s, steps).rows[id].messageId == s.rows[id].messageId
    decreases |steps|
  {
    if steps != [] {
      StepInv(s, steps[0]);
      StepKeepsId(s, steps[0]);
      OperationIdIsWriteOnce(Apply(s, steps[0]), steps[1..], id);
    }
  }
}
