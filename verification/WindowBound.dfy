/**
 * Rate limits over the whole pipeline. Ticks hand out permits against the sliding-window
 * log; sends are logged later, when workers settle. With the tick as one step, any rolling
 * window of length W and limit L holds at most L - 1 + MAX_INFLIGHT sends of rows that
 * were queued on the channel.
 */
module WindowBound {
  import opened Common
  import opened QuotaRefund
  import opened Pipeline
  import opened PipelineFrames
  import SW = SlidingWindow
  import F = Finalisation

  /** Which logged sends are counted: those of rows still queued on the channel, or all of campaigns. */
  datatype Scope = QueuedRows | Campaigns

  predicate Hit(e: SendEvent, scope: Scope, channel: nat) {
    e.channel == channel && match scope case QueuedRows => e.regular case Campaigns => e.campaign
  }

  /** Counted sends of the channel logged strictly after `a`. */
  function SentAfter(log: seq<SendEvent>, scope: Scope, channel: nat, a: int): nat {
    if log == [] then 0
    else
      var e := log[|log| - 1];
      SentAfter(log[..|log| - 1], scope, channel, a) + (if Hit(e, scope, channel) && e.time > a then 1 else 0)
  }

  /** ... in the half-open interval (a, b]. */
  function SentWithin(log: seq<SendEvent>, scope: Scope, channel: nat, a: int, b: int): nat {
    if log == [] then 0
    else
      var e := log[|log| - 1];
      SentWithin(log[..|log| - 1], scope, channel, a, b) + (if Hit(e, scope, channel) && a < e.time <= b then 1 else 0)
  }

  lemma {:induction false} WithinIsAfter(log: seq<SendEvent>, scope: Scope, channel: nat, a: int, b: int)
    requires forall k :: 0 <= k < |log| ==> log[k].time <= b
    ensures SentWithin(log, scope, channel, a, b) == SentAfter(log, scope, channel, a)
  {
    if log != [] { WithinIsAfter(log[..|log| - 1], scope, channel, a, b); }
  }

  /** The limiter sees every logged send, later ones included. */
  lemma {:induction false} LimiterSeesAll(log: seq<SendEvent>, scope: Scope, channel: nat, a: int, t: int)
    requires t <= a
    ensures SentAfter(log, scope, channel, a) <= SW.CountAfter(Times(log, channel), t)
  {
    if log != [] {
      var rest := log[..|log| - 1];
      var e := log[|log| - 1];
      LimiterSeesAll(rest, scope, channel, a, t);
      if e.channel == channel {
        assert Times(log, channel) == Times(rest, channel) + [e.time];
        assert Times(log, channel)[..|Times(rest, channel)|] == Times(rest, channel);
      }
    }
  }

  lemma SentAfterAppend(log: seq<SendEvent>, e: SendEvent, scope: Scope, channel: nat, a: int)
    ensures SentAfter(log + [e], scope, channel, a) == SentAfter(log, scope, channel, a) + (if Hit(e, scope, channel) && e.time > a then 1 else 0)
  {
  }

  lemma SentWithinAppend(log: seq<SendEvent>, e: SendEvent, scope: Scope, channel: nat, a: int, b: int)
    ensures SentWithin(log + [e], scope, channel, a, b) ==
            SentWithin(log, scope, channel, a, b) + (if Hit(e, scope, channel) && a < e.time <= b then 1 else 0)
  {
  }

  // ---------------------------------------------------------------------------
  // Invariant
  // ---------------------------------------------------------------------------

  function Cap(s: State, limit: int): int { s.cfg.maxInflight + Max(0, limit - 1) }

  /** (window, limit) is a tier of an active channel. */
  predicate TierOf(s: State, channel: nat, window: int, limit: int) {
    channel in s.cfg.limits && SW.Tier(s.cfg.limits[channel], window, limit)
  }

  /** Recent sends plus rows still queued never exceed the cap. */
  ghost predicate Covered(s: State, channel: nat, window: int, limit: int) {
    forall a: int :: a >= s.now - window ==> SentAfter(s.log, QueuedRows, channel, a) + |QueuedOn(s, channel)| <= Cap(s, limit)
  }

  /** Sends in the window of this length that opens just after `a`. */
  function InWindow(log: seq<SendEvent>, channel: nat, a: int, window: int): nat {
    SentWithin(log, QueuedRows, channel, a, a + window)
  }

  ghost predicate WindowsHold(s: State, channel: nat, window: int, limit: int) {
    forall a: int :: InWindow(s.log, channel, a, window) <= Cap(s, limit)
  }

  ghost predicate Inv(s: State) {
    && (forall k :: 0 <= k < |s.log| ==> s.log[k].time <= s.now)
    && (forall ch: nat :: |QueuedOn(s, ch)| <= s.cfg.maxInflight && (QueuedOn(s, ch) != {} ==> ch in s.cfg.limits))
    && (forall ch: nat, w, l :: TierOf(s, ch, w, l) ==> Covered(s, ch, w, l) && WindowsHold(s, ch, w, l))
  }

  lemma InitialInv(s: State)
    requires Initial(s)
    ensures Inv(s)
  {
  }

  // ---------------------------------------------------------------------------
  // The three ways the pipeline moves
  // ---------------------------------------------------------------------------

  /** No row became queued on any channel. */
  ghost predicate NothingQueued(s: State, s': State) {
    forall i :: i in s'.rows && s'.rows[i].campaign.Some? && s'.rows[i].status == Queued ==>
      && i in s.rows && s.rows[i].campaign.Some? && s.rows[i].status == Queued
      && s.rows[i].channel == s'.rows[i].channel
  }

  lemma Drained(s: State, s': State)
    requires Inv(s) && NothingQueued(s, s')
    requires s'.cfg == s.cfg && s'.log == s.log && s'.now >= s.now
    ensures Inv(s')
  {
    forall ch: nat ensures QueuedOn(s', ch) <= QueuedOn(s, ch) && |QueuedOn(s', ch)| <= |QueuedOn(s, ch)| {
      SubsetSize(QueuedOn(s', ch), QueuedOn(s, ch));
    }
    forall ch: nat, w, l | TierOf(s', ch, w, l) ensures Covered(s', ch, w, l) && WindowsHold(s', ch, w, l) {
      assert TierOf(s, ch, w, l);
      assert Covered(s, ch, w, l) && WindowsHold(s, ch, w, l);
      assert w >= 0;
    }
  }

  /** Rows `ids` came onto the channel's queue. */
  ghost predicate QueuedMore(s: State, s': State, channel: nat, ids: set<nat>) {
    && QueuedOn(s', channel) == QueuedOn(s, channel) + ids
    && forall ch: nat :: ch != channel ==> QueuedOn(s', ch) == QueuedOn(s, ch)
  }

  /** A tick queues `ids` on `channel`: the permits come out of the tightest window. */
  lemma Issued(s: State, s': State, channel: nat, ids: set<nat>)
    requires Inv(s) && CanPick(s, channel, ids) && LogUnchanged(s, s') && QueuedMore(s, s', channel, ids)
    ensures Inv(s')
  {
    assert QueuedOn(s, channel) * ids == {};
    assert |QueuedOn(s', channel)| == |QueuedOn(s, channel)| + |ids|;
    assert |QueuedOn(s, channel)| <= s.cfg.maxInflight;
    assert forall ch: nat :: |QueuedOn(s', ch)| <= s.cfg.maxInflight;
    forall ch: nat, w, l | TierOf(s', ch, w, l) ensures Covered(s', ch, w, l) && WindowsHold(s', ch, w, l) {
      assert TierOf(s, ch, w, l);
      assert Covered(s, ch, w, l) && WindowsHold(s, ch, w, l);
      if ch == channel && ids != {} {
        PermitsFit(s, QueuedRows, channel, ids, w, l);
        assert Covered(s', ch, w, l);
      }
    }
  }

  lemma PermitsFit(s: State, scope: Scope, channel: nat, ids: set<nat>, w: int, l: int)
    requires CanPick(s, channel, ids) && ids != {} && TierOf(s, channel, w, l)
    ensures forall a: int :: a >= s.now - w ==>
              SentAfter(s.log, scope, channel, a) + |QueuedOn(s, channel)| + |ids| <= Cap(s, l)
  {
    var h := Times(s.log, channel);
    SW.TierBoundsAvailable(h, s.now, s.cfg.limits[channel], w, l);
    forall a: int | a >= s.now - w
      ensures SentAfter(s.log, scope, channel, a) + |QueuedOn(s, channel)| + |ids| <= Cap(s, l)
    {
      LimiterSeesAll(s.log, scope, channel, a, s.now - w);
    }
  }

  /** A worker marks a row sent and logs it. */
  lemma Settled(s: State, s': State, id: nat, e: SendEvent)
    requires Inv(s) && id in s.rows && e.time == s.now
    requires s'.cfg == s.cfg && s'.log == s.log + [e] && s'.now == s.now
    requires s'.rows.Keys == s.rows.Keys && s'.rows[id].status == Sent
    requires forall i :: i in s.rows && i != id ==> s'.rows[i] == s.rows[i]
    requires e.regular ==> id in QueuedOn(s, e.channel)
    ensures Inv(s')
  {
    forall ch: nat
      ensures QueuedOn(s', ch) <= QueuedOn(s, ch)
      ensures |QueuedOn(s', ch)| <= |QueuedOn(s, ch)| - (if Hit(e, QueuedRows, ch) then 1 else 0)
    {
      assert QueuedOn(s', ch) == QueuedOn(s, ch) - {id};
    }
    forall ch: nat, w, l | TierOf(s', ch, w, l) ensures Covered(s', ch, w, l) && WindowsHold(s', ch, w, l) {
      assert TierOf(s, ch, w, l);
      SettledTier(s, s', e, ch, w, l);
    }
  }

  /** A counted send trades a queued row for a log entry. */
  lemma SettledTier(s: State, s': State, e: SendEvent, ch: nat, w: int, l: int)
    requires Covered(s, ch, w, l) && WindowsHold(s, ch, w, l) && w >= 0 && e.time == s.now
    requires s'.cfg == s.cfg && s'.log == s.log + [e] && s'.now == s.now
    requires forall k :: 0 <= k < |s.log| ==> s.log[k].time <= s.now
    requires |QueuedOn(s', ch)| <= |QueuedOn(s, ch)| - (if Hit(e, QueuedRows, ch) then 1 else 0)
    ensures Covered(s', ch, w, l) && WindowsHold(s', ch, w, l)
  {
    forall a: int | a >= s'.now - w ensures SentAfter(s'.log, QueuedRows, ch, a) + |QueuedOn(s', ch)| <= Cap(s', l) {
      SentAfterAppend(s.log, e, QueuedRows, ch, a);
    }
    forall a: int ensures InWindow(s'.log, ch, a, w) <= Cap(s', l) {
      SentWithinAppend(s.log, e, QueuedRows, ch, a, a + w);
      assert InWindow(s.log, ch, a, w) <= Cap(s, l);
      if Hit(e, QueuedRows, ch) && a < e.time <= a + w {
        WithinIsAfter(s'.log, QueuedRows, ch, a, a + w);
        assert SentAfter(s'.log, QueuedRows, ch, a) + |QueuedOn(s', ch)| <= Cap(s', l);
      }
    }
  }

  // ---------------------------------------------------------------------------
  // Every step
  // ---------------------------------------------------------------------------

  lemma AdminInv(s: State, step: AdminStep)
    requires Inv(s) && EnabledAdmin(s, step)
    ensures Inv(ApplyAdmin(s, step))
  {
    Drained(s, ApplyAdmin(s, step));
  }

  lemma IssueInv(s: State, channel: nat, ids: set<nat>)
    requires Inv(s) && EnabledTable(s, Issue(channel, ids))
    ensures Inv(ApplyTable(s, Issue(channel, ids)))
  {
    TableLogsNothing(s, Issue(channel, ids));
    QueuedEverywhere(s, channel, ids);
    Issued(s, ApplyTable(s, Issue(channel, ids)), channel, ids);
  }

  lemma QueuedEverywhere(s: State, channel: nat, ids: set<nat>)
    requires forall i :: i in ids ==> i in s.rows && s.rows[i].campaign.Some? && s.rows[i].channel == channel
    ensures QueuedMore(s, SetStatuses(AddJobs(s, channel, ids), ids, Queued), channel, ids)
  {
    forall ch: nat { QueuedAfterIssue(s, channel, ids, ch); }
  }

  lemma QueuedAfterIssue(s: State, channel: nat, ids: set<nat>, ch: nat)
    requires forall i :: i in ids ==> i in s.rows && s.rows[i].campaign.Some? && s.rows[i].channel == channel
    ensures QueuedOn(SetStatuses(AddJobs(s, channel, ids), ids, Queued), ch)
            == QueuedOn(s, ch) + (if ch == channel then ids else {})
  {
  }

  lemma OtherTableQueuesNothing(s: State, step: TableStep)
    requires EnabledTable(s, step) && F.Coarse(Table(step)) && !step.Issue?
    ensures NothingQueued(s, ApplyTable(s, step))
  {
  }

  lemma OtherTableInv(s: State, step: TableStep)
    requires Inv(s) && EnabledTable(s, step) && F.Coarse(Table(step)) && !step.Issue?
    ensures Inv(ApplyTable(s, step))
  {
    TableLogsNothing(s, step);
    OtherTableQueuesNothing(s, step);
    Drained(s, ApplyTable(s, step));
  }

  /** Failed rows are not queued. */
  lemma EndedDrains(s: State, s': State)
    requires RowsEnded(s, s')
    ensures NothingQueued(s, s')
  {
  }

  lemma OutcomeDrains(s: State, id: nat, o: Outcome)
    requires id in s.rows && id in s.jobs
    ensures NothingQueued(s, ApplyOutcome(s, id, o))
  {
    match o
    case Fail(throws) =>
      FailRowFrame(SetPhase(s, id, Done(!throws)), id);
      EndedDrains(s, ApplyOutcome(s, id, o));
    case FailAll =>
      FailCampaignFrame(SetPhase(s, id, Done(true)), id);
      EndedDrains(s, ApplyOutcome(s, id, o));
    case _ =>
  }

  lemma CheckInv(s: State, id: nat, v: Verdict)
    requires Inv(s) && EnabledWork(s, id, Check(v))
    ensures Inv(ApplyWork(s, id, Check(v)))
  {
    var o := CheckOutcome(s, id, v);
    OutcomeDrains(s, id, o);
    OutcomeLogsNothing(s, id, o);
    Drained(s, ApplyOutcome(s, id, o));
  }

  lemma SentInv(s: State, id: nat)
    requires Inv(s) && EnabledWork(s, id, Settle(true))
    ensures Inv(SettleSent(s, id))
  {
    var s' := SettleSent(s, id);
    Settled(s, s', id, s'.log[|s.log|]);
  }

  lemma FailedInv(s: State, id: nat, written: bool)
    requires Inv(s) && EnabledWork(s, id, Settle(written))
    ensures Inv(SettleFailed(s, id, written))
  {
    ClosingFrame(s, id, written);
    FailRowFrame(Closing(s, id, written), id);
    EndedDrains(s, SettleFailed(s, id, written));
    Drained(s, SettleFailed(s, id, written));
  }

  lemma ReserveInv(s: State, id: nat)
    requires Inv(s) && EnabledWork(s, id, Reserve)
    ensures Inv(ApplyWork(s, id, Reserve))
  {
    if UnitsOf(s.quota, s.rows[id].tenant) <= 0 {
      FailCampaignFrame(SetPhase(s, id, Done(true)), id);
      EndedDrains(s, ApplyWork(s, id, Reserve));
    }
    WorkLogsNothing(s, id, Reserve);
    Drained(s, ApplyWork(s, id, Reserve));
  }

  lemma PersistInv(s: State, id: nat)
    requires Inv(s) && EnabledWork(s, id, Persist)
    ensures Inv(FixId(s, id))
  {
    Drained(s, FixId(s, id));
  }

  lemma OtherWorkInv(s: State, id: nat, step: WorkerStep)
    requires Inv(s) && EnabledWork(s, id, step)
    requires !step.Check? && !step.Settle? && !step.Reserve? && !step.Persist?
    ensures Inv(ApplyWork(s, id, step))
  {
    RowsUntouched(s, id, step);
    WorkLogsNothing(s, id, step);
    Drained(s, ApplyWork(s, id, step));
  }

  lemma WorkInv(s: State, id: nat, step: WorkerStep)
    requires Inv(s) && EnabledWork(s, id, step)
    ensures Inv(ApplyWork(s, id, step))
  {
    match step
    case Check(v) => CheckInv(s, id, v);
    case Settle(written) =>
      var answer := s.jobs[id].phase.answer;
      if answer.accepted || answer.duplicate { SentInv(s, id); } else { FailedInv(s, id, written); }
    case Reserve => ReserveInv(s, id);
    case Persist => PersistInv(s, id);
    case _ => OtherWorkInv(s, id, step);
  }

  lemma StepInv(s: State, step: Step)
    requires Inv(s) && Enabled(s, step) && F.Coarse(step)
    ensures Inv(Apply(s, step))
  {
    match step
    case Admin(a) => AdminInv(s, a);
    case Table(t) => if t.Issue? { IssueInv(s, t.channel, t.ids); } else { OtherTableInv(s, t); }
    case Work(id, w) => WorkInv(s, id, w);
  }

  lemma {:induction false} RunInv(s: State, steps: seq<Step>)
    requires Inv(s) && Runs(s, steps) && forall i :: 0 <= i < |steps| ==> F.Coarse(steps[i])
    ensures Inv(Exec(s, steps)) && Exec(s, steps).cfg == s.cfg
    decreases |steps|
  {
    if steps != [] {
      StepInv(s, steps[0]);
      StepKeepsConfig(s, steps[0]);
      RunInv(Apply(s, steps[0]), steps[1..]);
    }
  }

  lemma StepKeepsConfig(s: State, step: Step)
    requires Enabled(s, step)
    ensures Apply(s, step).cfg == s.cfg
  {
    match step
    case Admin(a) =>
    case Table(t) => TableLogsNothing(s, t);
    case Work(id, w) => WorkKeepsConfig(s, id, w);
  }

  lemma WorkKeepsConfig(s: State, id: nat, step: WorkerStep)
    requires EnabledWork(s, id, step)
    ensures ApplyWork(s, id, step).cfg == s.cfg
  {
    if step.Settle? { FailedLogsNothing(s, id, step.refundWritten); } else { WorkLogsNothing(s, id, step); }
  }

  /**
   * Main result: on a run whose ticks are single steps, every channel keeps at most
   * MAX_INFLIGHT rows queued, and any interval (a, a + W] holds at most
   * MAX_INFLIGHT + max(0, L - 1) sends of rows queued on the channel, for each of its tiers.
   */
  lemma RollingWindowBound(s: State, steps: seq<Step>, channel: nat, window: int, limit: int, a: int)
    requires Initial(s) && Runs(s, steps) && (forall i :: 0 <= i < |steps| ==> F.Coarse(steps[i]))
    requires TierOf(s, channel, window, limit)
    ensures |QueuedOn(Exec(s, steps), channel)| <= s.cfg.maxInflight
    ensures InWindow(Exec(s, steps).log, channel, a, window) <= s.cfg.maxInflight + Max(0, limit - 1)
  {
    InitialInv(s);
    RunInv(s, steps);
    var e := Exec(s, steps);
    assert TierOf(e, channel, window, limit);
    assert WindowsHold(e, channel, window, limit);
  }
}
