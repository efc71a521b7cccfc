/**
 * Progress: in a reachable state where nothing is paused and the channels of the open rows
 * are active, an open recipient of a sending campaign always leaves some productive step
 * possible, at once or after waiting. With the bound on productive steps, every fault-free
 * run that is carried as far as it goes ends with all recipients sent, failed or skipped.
 */
module Liveness {
  import opened Common
  import opened QuotaRefund
  import opened Pipeline
  import opened PipelineFrames
  import opened Termination
  import F = Finalisation
  import OnceOnly
  import Ledger
  import WindowBound
  import SW = SlidingWindow

  ghost predicate Healthy(s: State) {
    OnceOnly.Inv(s) && Ledger.Inv(s) && WindowBound.Inv(s)
  }

  predicate ActiveChannel(cfg: Config, channel: nat) {
    && channel in cfg.limits
    && var q := cfg.limits[channel];
       q.rpsLimit >= 1 && q.rpmLimit >= 1 && q.rphLimit >= 1 && q.rpdLimit >= 1
  }

  predicate OpenRow(s: State, i: nat) {
    i in s.rows && s.rows[i].campaign.Some? && !Terminal(s.rows[i].status)
  }

  /** Every open recipient belongs to a sending campaign and sits on an active channel. */
  ghost predicate Unhindered(s: State) {
    && s.cfg.maxInflight >= 1
    && forall i :: OpenRow(s, i) ==>
         && s.rows[i].campaign.value in s.campaigns
         && s.campaigns[s.rows[i].campaign.value].status == Sending
         && ActiveChannel(s.cfg, s.rows[i].channel)
  }

  // ---------------------------------------------------------------------------
  // Someone can move
  // ---------------------------------------------------------------------------

  function Later(s: State, d: nat): State { s.(now := s.now + d) }

  /** The tick queues rows of tenants with units left, and finalises campaigns of the others. */
  predicate TickWould(s: State, step: Step) {
    step.Table? && step.table.Issue? ==>
      forall i :: i in step.table.ids ==>
        && i in s.rows && s.rows[i].campaign.Some? && s.rows[i].campaign.value in s.campaigns
        && UnitsOf(s.quota, s.campaigns[s.rows[i].campaign.value].tenant) >= |step.table.ids|
  }

  /** At once or after waiting, a productive step exists. */
  ghost predicate CanMove(s: State, rules: Rules) {
    exists d: nat, step :: Productive(Later(s, d), step, rules) && TickWould(Later(s, d), step)
  }

  lemma NowIsLater(s: State)
    ensures Later(s, 0) == s
  {
  }

  lemma JobMoves(s: State, rules: Rules, id: nat) returns (step: Step)
    requires OnceOnly.Inv(s) && Ledger.Inv(s) && Live(s, id) && !s.jobs[id].phase.Waiting?
    ensures Productive(s, step, rules) && step.Work?
  {
    var p := s.jobs[id].phase;
    if Holds(p) { assert Ledger.Linked(s, id); }
    var w :=
      match p
      case Checked(_) => Reserve
      case Reserved(_, _) => Persist
      case Persisted(_, _) => Call(Answer(false, false, false), false)
      case Answered(_, _, _) => WriteLog(true)
      case Logged(_, _, _) => Settle(true)
      case _ => Finish(false);
    step := Work(id, w);
  }

  /** Whatever a worker that follows the rules finds, its check is productive. */
  lemma EveryCheckMoves(s: State, rules: Rules, id: nat, v: Verdict)
    requires id in s.rows && id in s.jobs && s.jobs[id].phase.Waiting? && Unhindered(s)
    requires (v.Reroute? ==> s.rows[id].campaign.Some?) && Faithful(s, Work(id, Check(v)), rules)
    ensures Productive(s, Work(id, Check(v)), rules)
  {
  }

  lemma LiveJobMoves(s: State, rules: Rules, id: nat)
    requires OnceOnly.Inv(s) && Ledger.Inv(s) && Unhindered(s) && Live(s, id)
    ensures CanMove(s, rules)
  {
    NowIsLater(s);
    if s.jobs[id].phase.Waiting? {
      EveryCheckMoves(s, rules, id, Proceed);
      assert Productive(Later(s, 0), Work(id, Check(Proceed)), rules) && TickWould(Later(s, 0), Work(id, Check(Proceed)));
    } else {
      var step := JobMoves(s, rules, id);
      assert Productive(Later(s, 0), step, rules) && TickWould(Later(s, 0), step);
    }
  }

  lemma StrandedMoves(s: State, rules: Rules, id: nat)
    requires OpenRow(s, id) && s.rows[id].status == Queued && !Live(s, id)
    ensures CanMove(s, rules)
  {
    var t := Later(s, s.rows[id].touched + s.cfg.staleMs + 1);
    assert Stranded(t, id);
    assert Productive(t, Table(Sweep(id)), rules) && TickWould(t, Table(Sweep(id)));
  }

  lemma QueuedMoves(s: State, rules: Rules, id: nat)
    requires Healthy(s) && Unhindered(s) && OpenRow(s, id) && s.rows[id].status == Queued
    ensures CanMove(s, rules)
  {
    if Live(s, id) { LiveJobMoves(s, rules, id); } else { StrandedMoves(s, rules, id); }
  }

  lemma {:induction false} NoneLater(h: seq<int>, t: int)
    requires forall k :: 0 <= k < |h| ==> h[k] <= t
    ensures SW.CountAfter(h, t) == 0
  {
    if h != [] { NoneLater(h[..|h| - 1], t); }
  }

  lemma {:induction false} TimesLogged(log: seq<SendEvent>, channel: nat, t: int)
    requires forall k :: 0 <= k < |log| ==> log[k].time <= t
    ensures forall k :: 0 <= k < |Times(log, channel)| ==> Times(log, channel)[k] <= t
  {
    if log != [] { TimesLogged(log[..|log| - 1], channel, t); }
  }

  /** A day later every window of the channel is empty. */
  lemma BudgetReturns(s: State, channel: nat)
    requires forall k :: 0 <= k < |s.log| ==> s.log[k].time <= s.now
    requires ActiveChannel(s.cfg, channel) && s.cfg.maxInflight >= 1 && QueuedOn(s, channel) == {}
    ensures Budget(Later(s, SW.DAY_MS), channel) >= 1
  {
    var t := Later(s, SW.DAY_MS);
    var h := Times(s.log, channel);
    assert QueuedOn(t, channel) == {};
    TimesLogged(s.log, channel, s.now);
    NoneLater(h, t.now - SW.DAY_MS);
    NoneLater(h, t.now - SW.HOUR_MS);
    NoneLater(h, t.now - SW.MINUTE_MS);
    NoneLater(h, t.now - SW.SECOND_MS);
  }

  lemma PendingMoves(s: State, rules: Rules, id: nat)
    requires Healthy(s) && Unhindered(s) && OpenRow(s, id) && s.rows[id].status == Pending
    requires QueuedOn(s, s.rows[id].channel) == {}
    ensures CanMove(s, rules)
  {
    var channel, c := s.rows[id].channel, s.rows[id].campaign.value;
    if UnitsOf(s.quota, s.campaigns[c].tenant) <= 0 {
      NowIsLater(s);
      assert Productive(Later(s, 0), Table(Exhaust(c)), rules) && TickWould(Later(s, 0), Table(Exhaust(c)));
    } else {
      BudgetReturns(s, channel);
      var t := Later(s, SW.DAY_MS);
      assert CanPick(t, channel, {id});
      var step := Table(Issue(channel, {id}));
      assert Productive(t, step, rules) && TickWould(t, step);
    }
  }

  /** Main result: while a recipient is open, some productive step is possible. */
  lemma SomeoneCanMove(s: State, rules: Rules, id: nat)
    requires Healthy(s) && Unhindered(s) && OpenRow(s, id)
    ensures CanMove(s, rules)
  {
    var channel := s.rows[id].channel;
    if s.rows[id].status == Queued {
      QueuedMoves(s, rules, id);
    } else if QueuedOn(s, channel) != {} {
      var j :| j in QueuedOn(s, channel);
      QueuedMoves(s, rules, j);
    } else {
      PendingMoves(s, rules, id);
    }
  }

  // ---------------------------------------------------------------------------
  // Unhindered and healthy states last
  // ---------------------------------------------------------------------------

  /** Rows are kept, open ones were open before and moved at most to an active channel; campaigns at most close. */
  ghost predicate Settling(s: State, s': State) {
    && s'.cfg == s.cfg && s'.rows.Keys == s.rows.Keys && s'.campaigns.Keys == s.campaigns.Keys
    && (forall i :: OpenRow(s', i) ==>
          && OpenRow(s, i) && s'.rows[i].campaign == s.rows[i].campaign
          && (s'.rows[i].channel == s.rows[i].channel || ActiveChannel(s.cfg, s'.rows[i].channel)))
    && (forall c :: c in s.campaigns ==>
          s'.campaigns[c].status == s.campaigns[c].status || s'.campaigns[c].status == Closed)
  }

  /** A reroute goes to a channel that is active. */
  predicate RoutesActive(s: State, step: Step) {
    step.Work? && step.work.Check? && step.work.verdict.Reroute? ==> ActiveChannel(s.cfg, step.work.verdict.channel)
  }

  lemma SettlingKeepsUnhindered(s: State, s': State)
    requires Unhindered(s) && Settling(s, s')
    requires forall c :: !F.IsClosed(s, c) && F.IsClosed(s', c) ==> ActiveRows(s', c) == {}
    ensures Unhindered(s')
  {
    forall i | OpenRow(s', i)
      ensures s'.rows[i].campaign.value in s'.campaigns
      ensures s'.campaigns[s'.rows[i].campaign.value].status == Sending
      ensures ActiveChannel(s'.cfg, s'.rows[i].channel)
    {
      assert OpenRow(s, i);
      assert i in ActiveRows(s', s'.rows[i].campaign.value);
    }
  }

  lemma FailRowSettles(s: State, id: nat)
    requires id in s.rows
    ensures Settling(s, FailRow(s, id))
  {
  }

  lemma OpenRowsSettle(s: State, c: nat)
    ensures Settling(s, SetStatuses(s, ActiveRows(s, c), Failed))
  {
  }

  lemma FailCampaignSettles(s: State, id: nat)
    requires id in s.rows
    ensures Settling(s, FailCampaign(s, id))
  {
    if s.rows[id].campaign.Some? { OpenRowsSettle(s, s.rows[id].campaign.value); }
  }

  lemma CheckSettles(s: State, id: nat, o: Outcome)
    requires id in s.rows && id in s.jobs
    requires o.Move? ==> ActiveChannel(s.cfg, o.channel) && s.rows[id].status == Queued
    requires o.Hold? ==> !Terminal(s.rows[id].status)
    ensures Settling(s, ApplyOutcome(s, id, o))
  {
    match o
    case Fail(throws) => FailRowSettles(SetPhase(s, id, Done(!throws)), id);
    case FailAll => FailCampaignSettles(SetPhase(s, id, Done(true)), id);
    case _ =>
  }

  lemma ReserveSettles(s: State, id: nat)
    requires EnabledWork(s, id, Reserve)
    ensures Settling(s, ApplyWork(s, id, Reserve))
  {
    if UnitsOf(s.quota, s.rows[id].tenant) <= 0 { FailCampaignSettles(SetPhase(s, id, Done(true)), id); }
  }

  lemma SettleSettles(s: State, id: nat, written: bool)
    requires EnabledWork(s, id, Settle(written))
    ensures Settling(s, ApplyWork(s, id, Settle(written)))
  {
    var p := s.jobs[id].phase;
    if !p.answer.accepted && !p.answer.duplicate {
      ClosingFrame(s, id, written);
      FailRowSettles(Closing(s, id, written), id);
      SettlingFrom(s, Closing(s, id, written), SettleFailed(s, id, written));
    }
  }

  /** Books and jobs aside. */
  lemma SettlingFrom(s: State, mid: State, s': State)
    requires mid.cfg == s.cfg && mid.rows == s.rows && mid.campaigns == s.campaigns && Settling(mid, s')
    ensures Settling(s, s')
  {
  }

  lemma IssueSettles(s: State, channel: nat, ids: set<nat>)
    requires forall i :: i in ids ==> i in s.rows && s.rows[i].status == Pending
    ensures Settling(s, SetStatuses(AddJobs(s, channel, ids), ids, Queued))
  {
  }

  lemma ExhaustSettles(s: State, c: nat)
    requires c in s.campaigns
    ensures Settling(s, SetCampaignStatus(SetStatuses(s, ActiveRows(s, c), Failed), c, Closed))
  {
  }

  lemma OneRowSettles(s: State, step: TableStep)
    requires EnabledTable(s, step) && (step.Sweep? || step.FlowEnqueue?)
    ensures Settling(s, ApplyTable(s, step))
  {
  }

  lemma TableSettles(s: State, step: TableStep)
    requires EnabledTable(s, step)
    requires step.Sweep? || step.FlowEnqueue? || step.Exhaust? || step.Issue?
    ensures Settling(s, ApplyTable(s, step))
  {
    match step
    case Issue(channel, ids) => IssueSettles(s, channel, ids);
    case Exhaust(c) => ExhaustSettles(s, c);
    case _ => OneRowSettles(s, step);
  }

  lemma WorkSettles(s: State, id: nat, step: WorkerStep)
    requires EnabledWork(s, id, step) && ProductiveWork(s, id, step) && RoutesActive(s, Work(id, step))
    ensures Settling(s, ApplyWork(s, id, step))
  {
    match step
    case Check(v) => CheckSettles(s, id, CheckOutcome(s, id, v));
    case Reserve => ReserveSettles(s, id);
    case Settle(written) => SettleSettles(s, id, written);
    case _ =>
  }

  lemma StepSettles(s: State, step: Step, rules: Rules)
    requires Productive(s, step, rules) && RoutesActive(s, step)
    ensures Settling(s, Apply(s, step))
  {
    match step
    case Admin(a) =>
    case Table(t) => TableSettles(s, t);
    case Work(id, w) => WorkSettles(s, id, w);
  }

  lemma UnhinderedLasts(s: State, step: Step, rules: Rules)
    requires Unhindered(s) && Productive(s, step, rules) && RoutesActive(s, step)
    ensures Unhindered(Apply(s, step))
  {
    StepSettles(s, step, rules);
    forall c | !F.IsClosed(s, c) && F.IsClosed(Apply(s, step), c) ensures ActiveRows(Apply(s, step), c) == {} {
      F.ClosingDrains(s, step, c);
    }
    SettlingKeepsUnhindered(s, Apply(s, step));
  }

  lemma IdleKeepsUnhindered(s: State, step: Step)
    requires Unhindered(s) && Idle(step)
    ensures Enabled(s, step) && Unhindered(Apply(s, step))
  {
  }

  lemma HealthLasts(s: State, step: Step)
    requires Healthy(s) && Enabled(s, step) && F.Coarse(step)
    ensures Healthy(Apply(s, step))
  {
    OnceOnly.StepInv(s, step);
    Ledger.StepInv(s, step);
    WindowBound.StepInv(s, step);
  }

  /** Every run with single-step ticks is healthy. */
  lemma {:induction false} RunsAreHealthy(s: State, steps: seq<Step>)
    requires Healthy(s) && Runs(s, steps) && forall k :: 0 <= k < |steps| ==> F.Coarse(steps[k])
    ensures Healthy(Exec(s, steps))
    decreases |steps|
  {
    if steps != [] {
      HealthLasts(s, steps[0]);
      RunsAreHealthy(Apply(s, steps[0]), steps[1..]);
    }
  }

  lemma InitialHealthy(s: State)
    requires Initial(s)
    ensures Healthy(s)
  {
  }

  // ---------------------------------------------------------------------------
  // Main result
  // ---------------------------------------------------------------------------

  ghost predicate ReroutesActive(s: State, steps: seq<Step>, rules: Rules)
    requires Smooth(s, steps, rules)
    decreases |steps|
  {
    steps == [] || (RoutesActive(s, steps[0]) && ReroutesActive(Apply(s, steps[0]), steps[1..], rules))
  }

  lemma {:induction false} SmoothIsARun(s: State, steps: seq<Step>, rules: Rules)
    requires Smooth(s, steps, rules)
    ensures Runs(s, steps)
    decreases |steps|
  {
    if steps != [] { SmoothIsARun(Apply(s, steps[0]), steps[1..], rules); }
  }

  lemma {:induction false} SmoothKeeps(s: State, steps: seq<Step>, rules: Rules)
    requires Healthy(s) && Unhindered(s) && Smooth(s, steps, rules) && ReroutesActive(s, steps, rules)
    ensures Runs(s, steps) && Healthy(Exec(s, steps)) && Unhindered(Exec(s, steps))
    decreases |steps|
  {
    SmoothIsARun(s, steps, rules);
    if steps != [] {
      HealthLasts(s, steps[0]);
      if Idle(steps[0]) { IdleKeepsUnhindered(s, steps[0]); } else { UnhinderedLasts(s, steps[0], rules); }
      SmoothKeeps(Apply(s, steps[0]), steps[1..], rules);
    }
  }

  /**
   * Main result: a fault-free run that cannot be carried further, even by waiting, ends with
   * every campaign recipient sent, failed or skipped; and no such run is longer than 20
   * productive steps a recipient and one a campaign.
   */
  lemma EveryRecipientIsDecided(s: State, steps: seq<Step>, rules: Rules, id: nat)
    requires Healthy(s) && Unhindered(s) && Smooth(s, steps, rules) && ReroutesActive(s, steps, rules)
    ensures Runs(s, steps) && CountBusy(steps) <= 20 * |s.rows.Keys| + |s.campaigns.Keys|
    ensures var e := Exec(s, steps);
      !CanMove(e, rules) && id in e.rows && e.rows[id].campaign.Some? ==> Terminal(e.rows[id].status)
  {
    ProductiveStepsAreBounded(s, steps, rules);
    SmoothKeeps(s, steps, rules);
    var e := Exec(s, steps);
    if OpenRow(e, id) { SomeoneCanMove(e, rules, id); }
  }

  // ---------------------------------------------------------------------------
  // Rerouted at most once
  // ---------------------------------------------------------------------------

  /** The step gives the row another sender. */
  predicate Reroutes(s: State, step: Step, id: nat)
    requires Enabled(s, step)
  {
    step.Work? && step.id == id && step.work.Check? && CheckOutcome(s, id, step.work.verdict).Move?
  }

  /** Senders change only by rerouting. */
  ghost predicate SenderKept(s: State, s': State, id: nat) {
    id in s.rows ==> id in s'.rows && s'.rows[id].sender == s.rows[id].sender
  }

  lemma CheckKeepsSender(s: State, j: nat, o: Outcome, id: nat)
    requires j in s.rows && j in s.jobs && !(o.Move? && j == id)
    ensures SenderKept(s, ApplyOutcome(s, j, o), id)
  {
  }

  lemma SettleKeepsSender(s: State, j: nat, step: WorkerStep, id: nat)
    requires EnabledWork(s, j, step) && step.Settle?
    ensures SenderKept(s, ApplyWork(s, j, step), id)
  {
    var answer := s.jobs[j].phase.answer;
    if !answer.accepted && !answer.duplicate {
      ClosingFrame(s, j, step.refundWritten);
      FailRowFrame(Closing(s, j, step.refundWritten), j);
    }
  }

  lemma WorkKeepsSender(s: State, j: nat, step: WorkerStep, id: nat)
    requires EnabledWork(s, j, step) && !Reroutes(s, Work(j, step), id)
    ensures SenderKept(s, ApplyWork(s, j, step), id)
  {
    match step
    case Check(v) => CheckKeepsSender(s, j, CheckOutcome(s, j, v), id);
    case Reserve => if UnitsOf(s.quota, s.rows[j].tenant) <= 0 { FailCampaignFails(SetPhase(s, j, Done(true)), j); }
    case Settle(_) => SettleKeepsSender(s, j, step, id);
    case _ =>
  }

  lemma TableKeepsSender(s: State, step: TableStep, id: nat)
    requires EnabledTable(s, step)
    ensures SenderKept(s, ApplyTable(s, step), id)
  {
  }

  lemma StepKeepsSender(s: State, step: Step, id: nat)
    requires Enabled(s, step) && !Reroutes(s, step, id)
    ensures SenderKept(s, Apply(s, step), id)
  {
    match step
    case Admin(a) =>
    case Table(t) => TableKeepsSender(s, t, id);
    case Work(j, w) => WorkKeepsSender(s, j, w, id);
  }

  /** All steps are allowed, faults included, as long as workers follow the rules. */
  predicate FollowsRules(s: State, steps: seq<Step>, rules: Rules)
    requires Runs(s, steps)
    decreases |steps|
  {
    steps == [] || (Faithful(s, steps[0], rules) && FollowsRules(Apply(s, steps[0]), steps[1..], rules))
  }

  function CountReroutes(s: State, steps: seq<Step>, id: nat): nat
    requires Runs(s, steps)
    decreases |steps|
  {
    if steps == [] then 0
    else (if Reroutes(s, steps[0], id) then 1 else 0) + CountReroutes(Apply(s, steps[0]), steps[1..], id)
  }

  /** Main result: on any run under fixed rules a row is rerouted at most once, and not at all once its sender is free. */
  lemma {:induction false} ReroutedAtMostOnce(s: State, steps: seq<Step>, rules: Rules, id: nat)
    requires Runs(s, steps) && FollowsRules(s, steps, rules)
    ensures CountReroutes(s, steps, id) <= 1
    ensures id in s.rows && !Blocked(rules, s.rows[id].sender, id) ==> CountReroutes(s, steps, id) == 0
    decreases |steps|
  {
    if steps != [] {
      var s' := Apply(s, steps[0]);
      ReroutedAtMostOnce(s', steps[1..], rules, id);
      if !Reroutes(s, steps[0], id) { StepKeepsSender(s, steps[0], id); }
    }
  }
}
