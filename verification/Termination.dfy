/**
 * Liveness of the pipeline. With sending rules fixed, nothing paused and no faults, every
 * step that moves a send forward lowers a measure over rows, jobs and campaigns, so only
 * finitely many can happen; and while a recipient of a sending campaign is open one of them
 * is always possible, at once or after waiting. Hence every recipient ends sent, failed or
 * skipped. A row is given another sender at most once.
 */
module Termination {
  import opened Common
  import opened QuotaRefund
  import opened Pipeline
  import opened PipelineFrames
  import F = Finalisation

  /** Sending rules: the sender blocks the row's address. */
  type Rules = set<(nat, nat)>

  predicate Blocked(rules: Rules, sender: nat, id: nat) { (sender, id) in rules }

  // ---------------------------------------------------------------------------
  // Measure
  // ---------------------------------------------------------------------------

  function PhaseOf(s: State, id: nat): Option<Phase> { if id in s.jobs then Some(s.jobs[id].phase) else None }

  function StepsLeft(p: Phase): nat {
    match p
    case Logged(_, _, _) => 4
    case Answered(_, _, _) => 5
    case Persisted(_, _) => 6
    case Reserved(_, _) => 7
    case Checked(_) => 8
    case _ => 0
  }

  function TerminalWeight(job: Option<Phase>): nat {
    match job
    case None => 0
    case Some(Dead) => 0
    case Some(Done(ok)) => if ok then 1 else 3
    case Some(Waiting) => 2
    case Some(p) => StepsLeft(p)
  }

  function QueuedWeight(job: Option<Phase>): nat {
    match job
    case None => 11
    case Some(Dead) => 11
    case Some(Done(_)) => 12
    case Some(Waiting) => 9
    case Some(p) => StepsLeft(p)
  }

  function PendingWeight(job: Option<Phase>): nat {
    match job
    case None => 10
    case Some(Dead) => 12
    case Some(Done(ok)) => if ok then 13 else 15
    case Some(Waiting) => 14
    case Some(p) => StepsLeft(p) + 1
  }

  function Weight(st: RowStatus, job: Option<Phase>): (w: nat)
    ensures w <= 15
  {
    if Terminal(st) then TerminalWeight(job) else if st.Queued? then QueuedWeight(job) else PendingWeight(job)
  }

  /** An open row whose sender blocks it still has a reroute ahead. */
  function Detour(r: Row, id: nat, rules: Rules): nat {
    if !Terminal(r.status) && Blocked(rules, r.sender, id) then 5 else 0
  }

  function RowWeight(s: State, rules: Rules, id: nat): nat {
    if id in s.rows then Weight(s.rows[id].status, PhaseOf(s, id)) + Detour(s.rows[id], id, rules) else 0
  }

  function CampaignWeight(s: State, c: nat): nat {
    if c in s.campaigns && s.campaigns[c].status == Sending then 1 else 0
  }

  function RowWeights(s: State, rules: Rules): nat -> nat { id => RowWeight(s, rules, id) }

  function CampaignWeights(s: State): nat -> nat { c => CampaignWeight(s, c) }

  function Measure(s: State, rules: Rules): nat {
    Sum(s.rows.Keys, RowWeights(s, rules)) + Sum(s.campaigns.Keys, CampaignWeights(s))
  }

  lemma MeasureBound(s: State, rules: Rules)
    ensures Measure(s, rules) <= 20 * |s.rows.Keys| + |s.campaigns.Keys|
  {
    SumBounded(s.rows.Keys, RowWeights(s, rules), 20);
    SumBounded(s.campaigns.Keys, CampaignWeights(s), 1);
  }

  /** Nothing got heavier. */
  ghost predicate Calmer(s: State, s': State, rules: Rules) {
    && s'.rows.Keys == s.rows.Keys && s'.campaigns.Keys == s.campaigns.Keys
    && (forall i :: i in s.rows ==> RowWeight(s', rules, i) <= RowWeight(s, rules, i))
    && (forall c :: c in s.campaigns ==> CampaignWeight(s', c) <= CampaignWeight(s, c))
  }

  lemma RowLighter(s: State, s': State, rules: Rules, id: nat)
    requires Calmer(s, s', rules) && id in s.rows && RowWeight(s', rules, id) < RowWeight(s, rules, id)
    ensures Measure(s', rules) < Measure(s, rules)
  {
    SumStrict(s.rows.Keys, RowWeights(s', rules), RowWeights(s, rules), id);
    SumMonotone(s.campaigns.Keys, CampaignWeights(s'), CampaignWeights(s));
  }

  lemma CampaignLighter(s: State, s': State, rules: Rules, c: nat)
    requires Calmer(s, s', rules) && c in s.campaigns && CampaignWeight(s', c) < CampaignWeight(s, c)
    ensures Measure(s', rules) < Measure(s, rules)
  {
    SumMonotone(s.rows.Keys, RowWeights(s', rules), RowWeights(s, rules));
    SumStrict(s.campaigns.Keys, CampaignWeights(s'), CampaignWeights(s), c);
  }

  // ---------------------------------------------------------------------------
  // Productive steps
  // ---------------------------------------------------------------------------

  /** The worker reads the rules: it reroutes a row only away from a sender that blocks it, to one that does not. */
  predicate Faithful(s: State, step: Step, rules: Rules) {
    step.Work? && step.work.Check? && step.work.verdict.Reroute? ==>
      && step.id in s.rows
      && Blocked(rules, s.rows[step.id].sender, step.id)
      && !Blocked(rules, step.work.verdict.sender, step.id)
  }

  predicate ProductiveWork(s: State, id: nat, step: WorkerStep)
    requires EnabledWork(s, id, step)
  {
    match step
    case Check(v) => !CheckOutcome(s, id, v).Hold?
    case Reserve => true
    case Persist => true
    case Call(_, _) => true
    case WriteLog(_) => true
    case Settle(_) => true
    case Finish(_) => true
    case _ => false
  }

  /** Fault-free progress: ticks that queue something, sweeps, closings, and worker phases not held by a pause. */
  predicate Productive(s: State, step: Step, rules: Rules) {
    && Enabled(s, step)
    && Faithful(s, step, rules)
    && match step
       case Admin(a) => a.CloseDrained?
       case Table(t) =>
         || t.Sweep? || t.FlowEnqueue?
         || (t.Issue? && t.ids != {})
         || (t.Exhaust? && s.campaigns[t.campaign].status == Sending)
       case Work(id, w) => ProductiveWork(s, id, w)
  }

  // ---------------------------------------------------------------------------
  // Each of them lowers the measure
  // ---------------------------------------------------------------------------

  /** Rows kept or failed, campaigns kept or closed, jobs kept. */
  ghost predicate FailedSome(s: State, s': State) {
    && s'.rows.Keys == s.rows.Keys && s'.campaigns.Keys == s.campaigns.Keys && s'.jobs == s.jobs
    && (forall i :: i in s.rows ==>
          && s'.rows[i].sender == s.rows[i].sender
          && (s'.rows[i].status == s.rows[i].status || s'.rows[i].status == Failed))
    && (forall c :: c in s.campaigns ==> CampaignWeight(s', c) <= CampaignWeight(s, c))
  }

  lemma FailRowFails(s: State, id: nat)
    requires id in s.rows
    ensures FailedSome(s, FailRow(s, id)) && FailRow(s, id).rows[id].status == Failed
  {
  }

  lemma OpenRowsFail(s: State, c: nat)
    ensures FailedSome(s, SetStatuses(s, ActiveRows(s, c), Failed))
    ensures forall i :: i in s.rows && s.rows[i].campaign == Some(c) ==>
              Terminal(SetStatuses(s, ActiveRows(s, c), Failed).rows[i].status)
  {
  }

  lemma FailCampaignFails(s: State, id: nat)
    requires id in s.rows
    ensures FailedSome(s, FailCampaign(s, id)) && Terminal(FailCampaign(s, id).rows[id].status)
  {
    if s.rows[id].campaign.Some? { OpenRowsFail(s, s.rows[id].campaign.value); }
  }

  /** The job of `id` moves and some rows fail: enough that `id` itself gets lighter. */
  lemma MovedAndFailed(s: State, t: State, s': State, rules: Rules, id: nat)
    requires id in s.rows && id in s.jobs
    requires t.rows == s.rows && t.campaigns == s.campaigns
    requires forall i :: i in s.rows && i != id ==> PhaseOf(t, i) == PhaseOf(s, i)
    requires FailedSome(t, s')
    requires RowWeight(s', rules, id) < RowWeight(s, rules, id)
    ensures Measure(s', rules) < Measure(s, rules)
  {
    forall i | i in s.rows ensures RowWeight(s', rules, i) <= RowWeight(s, rules, i) {
      if i != id { assert PhaseOf(s', i) == PhaseOf(t, i); }
    }
    RowLighter(s, s', rules, id);
  }

  /** Only the row and job of `id` change. */
  lemma OneRowLighter(s: State, s': State, rules: Rules, id: nat)
    requires id in s.rows && s'.rows.Keys == s.rows.Keys && s'.campaigns == s.campaigns
    requires forall i :: i in s.rows && i != id ==> s'.rows[i] == s.rows[i] && PhaseOf(s', i) == PhaseOf(s, i)
    requires RowWeight(s', rules, id) < RowWeight(s, rules, id)
    ensures Measure(s', rules) < Measure(s, rules)
  {
    RowLighter(s, s', rules, id);
  }

  /** What the checks can conclude about an open or terminal row when nothing is paused. */
  predicate Concludes(s: State, id: nat, o: Outcome, rules: Rules)
    requires id in s.rows
  {
    var r := s.rows[id];
    match o
    case Stop => r.status != Queued
    case Move(sender, _) => r.status == Queued && Blocked(rules, r.sender, id) && !Blocked(rules, sender, id)
    case Hold => false
    case _ => !Terminal(r.status)
  }

  lemma OutcomeFacts(s: State, id: nat, v: Verdict, rules: Rules)
    requires Productive(s, Work(id, Check(v)), rules)
    ensures Concludes(s, id, CheckOutcome(s, id, v), rules) && s.jobs[id].phase.Waiting?
  {
  }

  lemma OneRowOutcomeLowers(s: State, id: nat, o: Outcome, rules: Rules)
    requires id in s.rows && id in s.jobs && s.jobs[id].phase.Waiting? && Concludes(s, id, o, rules)
    requires !o.Fail? && !o.FailAll?
    ensures Measure(ApplyOutcome(s, id, o), rules) < Measure(s, rules)
  {
    OneRowLighter(s, ApplyOutcome(s, id, o), rules, id);
  }

  lemma FailingOutcomeLowers(s: State, id: nat, o: Outcome, rules: Rules)
    requires id in s.rows && id in s.jobs && s.jobs[id].phase.Waiting? && Concludes(s, id, o, rules)
    requires o.Fail? || o.FailAll?
    ensures Measure(ApplyOutcome(s, id, o), rules) < Measure(s, rules)
  {
    var t := SetPhase(s, id, Done(o.FailAll? || !o.throws));
    if o.Fail? { FailRowFails(t, id); } else { FailCampaignFails(t, id); }
    MovedAndFailed(s, t, ApplyOutcome(s, id, o), rules, id);
  }

  lemma CheckLowers(s: State, id: nat, v: Verdict, rules: Rules)
    requires Productive(s, Work(id, Check(v)), rules)
    ensures Measure(ApplyOutcome(s, id, CheckOutcome(s, id, v)), rules) < Measure(s, rules)
  {
    OutcomeFacts(s, id, v, rules);
    var o := CheckOutcome(s, id, v);
    if o.Fail? || o.FailAll? { FailingOutcomeLowers(s, id, o, rules); } else { OneRowOutcomeLowers(s, id, o, rules); }
  }

  lemma ReserveLowers(s: State, id: nat, rules: Rules)
    requires EnabledWork(s, id, Reserve)
    ensures Measure(ApplyWork(s, id, Reserve), rules) < Measure(s, rules)
  {
    if UnitsOf(s.quota, s.rows[id].tenant) > 0 {
      OneRowLighter(s, TakeUnit(s, id), rules, id);
    } else {
      var t := SetPhase(s, id, Done(true));
      FailCampaignFails(t, id);
      MovedAndFailed(s, t, FailCampaign(t, id), rules, id);
    }
  }

  lemma SettleSentLowers(s: State, id: nat, rules: Rules)
    requires id in s.rows && id in s.jobs && s.jobs[id].phase.Logged? && s.jobs[id].phase.att < |s.attempts|
    ensures Measure(SettleSent(s, id), rules) < Measure(s, rules)
  {
    OneRowLighter(s, SettleSent(s, id), rules, id);
  }

  lemma SettleFailedLowers(s: State, t: State, id: nat, rules: Rules)
    requires id in s.rows && id in s.jobs && s.jobs[id].phase.Logged?
    requires t.rows == s.rows && t.campaigns == s.campaigns && t.jobs == SetPhase(s, id, Done(false)).jobs
    ensures Measure(FailRow(t, id), rules) < Measure(s, rules)
  {
    FailRowFails(t, id);
    MovedAndFailed(s, t, FailRow(t, id), rules, id);
  }

  lemma SettleLowers(s: State, id: nat, written: bool, rules: Rules)
    requires EnabledWork(s, id, Settle(written))
    ensures Measure(ApplyWork(s, id, Settle(written)), rules) < Measure(s, rules)
  {
    var p := s.jobs[id].phase;
    if p.answer.accepted || p.answer.duplicate {
      SettleSentLowers(s, id, rules);
    } else {
      SettleFailedLowers(s, Closing(s, id, written), id, rules);
    }
  }

  /** The job of `id` moves to a lighter phase, or ends; its row keeps status and sender. */
  lemma PhaseLighter(s: State, s': State, id: nat, rules: Rules)
    requires id in s.rows && s'.rows.Keys == s.rows.Keys && s'.campaigns == s.campaigns
    requires forall i :: i in s.rows && i != id ==> s'.rows[i] == s.rows[i] && PhaseOf(s', i) == PhaseOf(s, i)
    requires s'.rows[id].status == s.rows[id].status && s'.rows[id].sender == s.rows[id].sender
    requires forall st :: Weight(st, PhaseOf(s', id)) < Weight(st, PhaseOf(s, id))
    ensures Measure(s', rules) < Measure(s, rules)
  {
    OneRowLighter(s, s', rules, id);
  }

  lemma FinishLowers(s: State, id: nat, again: bool, rules: Rules)
    requires EnabledWork(s, id, Finish(again))
    ensures Measure(ApplyWork(s, id, Finish(again)), rules) < Measure(s, rules)
  {
    PhaseLighter(s, ApplyWork(s, id, Finish(again)), id, rules);
  }

  lemma PersistLowers(s: State, id: nat, rules: Rules)
    requires id in s.rows && id in s.jobs && s.jobs[id].phase.Reserved?
    ensures Measure(FixId(s, id), rules) < Measure(s, rules)
  {
    PhaseLighter(s, FixId(s, id), id, rules);
  }

  lemma PhaseLowers(s: State, id: nat, step: WorkerStep, rules: Rules)
    requires EnabledWork(s, id, step) && (step.Call? || step.WriteLog?)
    ensures Measure(ApplyWork(s, id, step), rules) < Measure(s, rules)
  {
    PhaseLighter(s, ApplyWork(s, id, step), id, rules);
  }

  lemma SingleTableLowers(s: State, step: TableStep, rules: Rules)
    requires EnabledTable(s, step) && (step.Sweep? || step.FlowEnqueue?)
    ensures Measure(ApplyTable(s, step), rules) < Measure(s, rules)
  {
    OneRowLighter(s, ApplyTable(s, step), rules, step.id);
  }

  lemma IssueLowers(s: State, channel: nat, ids: set<nat>, rules: Rules)
    requires ids != {}
    requires forall i :: i in ids ==> i in s.rows && s.rows[i].status == Pending
    ensures Measure(SetStatuses(AddJobs(s, channel, ids), ids, Queued), rules) < Measure(s, rules)
  {
    var s' := SetStatuses(AddJobs(s, channel, ids), ids, Queued);
    forall i | i in s.rows
      ensures RowWeight(s', rules, i) <= RowWeight(s, rules, i) - (if i in ids then 1 else 0)
    {
    }
    var i :| i in ids;
    RowLighter(s, s', rules, i);
  }

  lemma ExhaustLowers(s: State, c: nat, rules: Rules)
    requires c in s.campaigns && s.campaigns[c].status == Sending
    ensures Measure(SetCampaignStatus(SetStatuses(s, ActiveRows(s, c), Failed), c, Closed), rules) < Measure(s, rules)
  {
    var s' := SetCampaignStatus(SetStatuses(s, ActiveRows(s, c), Failed), c, Closed);
    forall i | i in s.rows ensures RowWeight(s', rules, i) <= RowWeight(s, rules, i) {
    }
    CampaignLighter(s, s', rules, c);
  }

  lemma CloseLowers(s: State, c: nat, rules: Rules)
    requires c in s.campaigns && s.campaigns[c].status == Sending
    ensures Measure(SetCampaignStatus(s, c, Closed), rules) < Measure(s, rules)
  {
    CampaignLighter(s, SetCampaignStatus(s, c, Closed), rules, c);
  }

  lemma StepLowers(s: State, step: Step, rules: Rules)
    requires Productive(s, step, rules)
    ensures Measure(Apply(s, step), rules) < Measure(s, rules)
  {
    match step
    case Admin(a) => CloseLowers(s, a.campaign, rules);
    case Table(t) =>
      match t {
        case Issue(channel, ids) => IssueLowers(s, channel, ids, rules);
        case Exhaust(c) => ExhaustLowers(s, c, rules);
        case _ => SingleTableLowers(s, t, rules);
      }
    case Work(id, w) =>
      match w {
        case Check(v) => CheckLowers(s, id, v, rules);
        case Reserve => ReserveLowers(s, id, rules);
        case Settle(written) => SettleLowers(s, id, written, rules);
        case Persist => PersistLowers(s, id, rules);
        case Finish(again) => FinishLowers(s, id, again, rules);
        case _ => PhaseLowers(s, id, w, rules);
      }
  }

  // ---------------------------------------------------------------------------
  // Runs end
  // ---------------------------------------------------------------------------

  /** Time passing and quota purchases. */
  predicate Idle(step: Step) { step.Admin? && (step.admin.Advance? || step.admin.TopUp?) }

  lemma SameMeasure(s: State, s': State, rules: Rules)
    requires s'.rows == s.rows && s'.jobs == s.jobs && s'.campaigns == s.campaigns
    ensures Measure(s', rules) == Measure(s, rules)
  {
    assert forall i :: RowWeight(s', rules, i) == RowWeight(s, rules, i);
    SumMonotone(s.rows.Keys, RowWeights(s', rules), RowWeights(s, rules));
    SumMonotone(s.rows.Keys, RowWeights(s, rules), RowWeights(s', rules));
    SumMonotone(s.campaigns.Keys, CampaignWeights(s'), CampaignWeights(s));
    SumMonotone(s.campaigns.Keys, CampaignWeights(s), CampaignWeights(s'));
  }

  lemma IdleKeepsMeasure(s: State, step: Step, rules: Rules)
    requires Idle(step)
    ensures Enabled(s, step) && Measure(Apply(s, step), rules) == Measure(s, rules)
  {
    SameMeasure(s, Apply(s, step), rules);
  }

  /** A fault-free run: every step makes progress or lets time pass. */
  predicate Smooth(s: State, steps: seq<Step>, rules: Rules)
    decreases |steps|
  {
    steps == [] ||
    ((Productive(s, steps[0], rules) || Idle(steps[0])) && Enabled(s, steps[0]) && Smooth(Apply(s, steps[0]), steps[1..], rules))
  }

  function CountBusy(steps: seq<Step>): nat {
    if steps == [] then 0 else (if Idle(steps[0]) then 0 else 1) + CountBusy(steps[1..])
  }

  lemma {:induction false} SmoothRunsEnd(s: State, steps: seq<Step>, rules: Rules)
    requires Smooth(s, steps, rules)
    ensures CountBusy(steps) <= Measure(s, rules)
    decreases |steps|
  {
    if steps != [] {
      if Idle(steps[0]) { IdleKeepsMeasure(s, steps[0], rules); } else { StepLowers(s, steps[0], rules); }
      SmoothRunsEnd(Apply(s, steps[0]), steps[1..], rules);
    }
  }

  /** Main result: no fault-free run has more than 20 productive steps a recipient and one a campaign. */
  lemma ProductiveStepsAreBounded(s: State, steps: seq<Step>, rules: Rules)
    requires Smooth(s, steps, rules)
    ensures CountBusy(steps) <= 20 * |s.rows.Keys| + |s.campaigns.Keys|
  {
    SmoothRunsEnd(s, steps, rules);
    MeasureBound(s, rules);
  }
}
