/**
 * The rate limits and every campaign send. A row that may yet be sent on a channel is queued
 * there, or has a worker of the channel past its checks, or a waiting job whose checks it
 * would pass. Only a tick's issue adds such rows, out of permits, except that a worker dying
 * between finishing its row and ending its job can bring one back. Cancelling, exhausting or
 * failing a campaign takes rows off the channel's queue without stopping workers mid-send:
 * those are the rows the next permits do not count.
 */
module MidSend {
  import opened Common
  import opened QuotaRefund
  import opened Pipeline
  import opened PipelineFrames
  import F = Finalisation
  import W = WindowBound

  /** A worker is past its checks and has not settled the row. */
  predicate Sending(p: Phase) { p.Checked? || Holds(p) }

  predicate IsQueuedOn(r: Row, ch: nat) { r.campaign.Some? && r.status == Queued && r.channel == ch }

  /** The row may yet be sent on the channel. */
  predicate MayYet(s: State, i: nat, ch: nat) {
    && i in s.rows && s.rows[i].campaign.Some?
    && (IsQueuedOn(s.rows[i], ch)
        || (i in s.jobs && s.jobs[i].channel == ch
            && (Sending(s.jobs[i].phase) || (s.jobs[i].phase.Waiting? && !Terminal(s.rows[i].status)))))
  }

  /** An open row off the queue of the channel whose job there is waiting or at work. */
  predicate Drifts(s: State, i: nat, ch: nat) {
    && i in s.rows && s.rows[i].campaign.Some? && !Terminal(s.rows[i].status) && !IsQueuedOn(s.rows[i], ch)
    && i in s.jobs && s.jobs[i].channel == ch && (Sending(s.jobs[i].phase) || s.jobs[i].phase.Waiting?)
  }

  /** A worker of the channel is mid-send for a row no longer queued there. */
  predicate Strays(s: State, i: nat, ch: nat) {
    && i in s.rows && s.rows[i].campaign.Some? && !IsQueuedOn(s.rows[i], ch)
    && i in s.jobs && s.jobs[i].channel == ch && Sending(s.jobs[i].phase)
  }

  function MayYetSend(s: State, ch: nat): set<nat> { set i | i in s.rows && MayYet(s, i, ch) }

  function Drifting(s: State, ch: nat): set<nat> { set i | i in s.rows && Drifts(s, i, ch) }

  function Straying(s: State, ch: nat): set<nat> { set i | i in s.rows && Strays(s, i, ch) }

  /** What may yet be sent is queued, straying, or drifting. */
  lemma MayYetSplit(s: State, ch: nat)
    ensures |MayYetSend(s, ch)| <= |QueuedOn(s, ch)| + |Straying(s, ch)| + |Drifting(s, ch)|
  {
    var parts := QueuedOn(s, ch) + Straying(s, ch) + Drifting(s, ch);
    assert MayYetSend(s, ch) <= parts;
    SubsetSize(MayYetSend(s, ch), parts);
  }

  // ---------------------------------------------------------------------------
  // Steps that bring no row back
  // ---------------------------------------------------------------------------

  ghost predicate CalmAt(s: State, s': State, i: nat) {
    forall ch: nat :: (MayYet(s', i, ch) ==> MayYet(s, i, ch)) && (Drifts(s', i, ch) ==> Drifts(s, i, ch))
  }

  ghost predicate Calm(s: State, s': State) {
    && (forall i :: i in s'.jobs ==> i in s'.rows)
    && forall i :: CalmAt(s, s', i)
  }

  ghost predicate JobsHaveRows(s: State) { forall i :: i in s.jobs ==> i in s.rows }

  lemma Joined(s: State, mid: State, s': State)
    requires Calm(s, mid) && Calm(mid, s')
    ensures Calm(s, s')
  {
    forall i ensures CalmAt(s, s', i) { assert CalmAt(s, mid, i) && CalmAt(mid, s', i); }
  }

  /** Rows end, all else stays. */
  lemma EndingIsCalm(s: State, s': State)
    requires JobsHaveRows(s) && s'.jobs == s.jobs && s'.rows.Keys == s.rows.Keys
    requires forall i :: i in s.rows ==>
               s'.rows[i] == s.rows[i] || (Terminal(s'.rows[i].status) && s'.rows[i].campaign == s.rows[i].campaign)
    ensures Calm(s, s')
  {
  }

  lemma FailRowIsCalm(s: State, id: nat)
    requires JobsHaveRows(s) && id in s.rows
    ensures Calm(s, FailRow(s, id))
  {
    EndingIsCalm(s, FailRow(s, id));
  }

  lemma FailCampaignIsCalm(s: State, id: nat)
    requires JobsHaveRows(s) && id in s.rows
    ensures Calm(s, FailCampaign(s, id))
  {
    EndingIsCalm(s, FailCampaign(s, id));
  }

  /** One row and its job move. */
  lemma OneRowIsCalm(s: State, s': State, id: nat)
    requires JobsHaveRows(s) && id in s.rows
    requires s'.rows.Keys == s.rows.Keys && forall i :: i in s.rows && i != id ==> s'.rows[i] == s.rows[i]
    requires s'.jobs.Keys <= s.jobs.Keys + {id} && forall i :: i in s'.jobs && i != id ==> s'.jobs[i] == s.jobs[i]
    requires CalmAt(s, s', id)
    ensures Calm(s, s')
  {
    forall i ensures CalmAt(s, s', i) { }
  }

  lemma AdminIsCalm(s: State, step: AdminStep)
    requires JobsHaveRows(s) && EnabledAdmin(s, step)
    ensures Calm(s, ApplyAdmin(s, step))
  {
  }

  lemma CreateIsCalm(s: State, step: TableStep)
    requires JobsHaveRows(s) && EnabledTable(s, step) && (step.Insert? || step.FlowCreate?)
    ensures Calm(s, ApplyTable(s, step))
  {
  }

  lemma FlowEnqueueIsCalm(s: State, id: nat)
    requires JobsHaveRows(s) && EnabledTable(s, FlowEnqueue(id))
    ensures Calm(s, ApplyTable(s, FlowEnqueue(id)))
  {
    OneRowIsCalm(s, ApplyTable(s, FlowEnqueue(id)), id);
  }

  lemma SweepIsCalm(s: State, id: nat)
    requires JobsHaveRows(s) && EnabledTable(s, Sweep(id))
    ensures Calm(s, ApplyTable(s, Sweep(id)))
  {
    OneRowIsCalm(s, ApplyTable(s, Sweep(id)), id);
  }

  lemma TableIsCalm(s: State, step: TableStep)
    requires JobsHaveRows(s) && EnabledTable(s, step) && F.Coarse(Table(step)) && !step.Issue?
    ensures Calm(s, ApplyTable(s, step))
  {
    match step
    case Insert(_, _, _, _) => CreateIsCalm(s, step);
    case FlowCreate(_, _, _, _) => CreateIsCalm(s, step);
    case FlowEnqueue(id) => FlowEnqueueIsCalm(s, id);
    case Sweep(id) => SweepIsCalm(s, id);
    case Cancel(_) => EndingIsCalm(s, ApplyTable(s, step));
    case Exhaust(_) => EndingIsCalm(s, ApplyTable(s, step));
  }

  /** A job moves on, its row untouched; it does not go back to waiting with the row settled. */
  lemma PhaseIsCalm(s: State, s': State, id: nat, p: Phase)
    requires JobsHaveRows(s) && JobMoved(s, s', id, p) && s'.rows == s.rows
    requires Sending(p) ==> (s.jobs[id].phase.Waiting? && !Terminal(s.rows[id].status)) || Sending(s.jobs[id].phase)
    requires p.Waiting? ==> Sending(s.jobs[id].phase) || s.jobs[id].phase.Waiting? || s.rows[id].campaign.None?
    ensures Calm(s, s')
  {
    OneRowIsCalm(s, s', id);
  }

  lemma CheckIsCalm(s: State, id: nat, v: Verdict)
    requires JobsHaveRows(s) && EnabledWork(s, id, Check(v))
    ensures Calm(s, ApplyWork(s, id, Check(v)))
  {
    var o := CheckOutcome(s, id, v);
    match o
    case Fail(throws) =>
      var done := SetPhase(s, id, Done(!throws));
      PhaseIsCalm(s, done, id, Done(!throws));
      FailRowIsCalm(done, id);
      Joined(s, done, FailRow(done, id));
    case FailAll =>
      var done := SetPhase(s, id, Done(true));
      PhaseIsCalm(s, done, id, Done(true));
      FailCampaignIsCalm(done, id);
      Joined(s, done, FailCampaign(done, id));
    case Pass => PhaseIsCalm(s, ApplyOutcome(s, id, o), id, Checked(s.rows[id].messageId));
    case _ => HeldIsCalm(s, id, o);
  }

  /** The row is moved, skipped or put back, its job done. */
  lemma HeldIsCalm(s: State, id: nat, o: Outcome)
    requires JobsHaveRows(s) && id in s.rows && id in s.jobs && (o.Stop? || o.Move? || o.Skip? || o.Hold?)
    ensures Calm(s, ApplyOutcome(s, id, o))
  {
    OneRowIsCalm(s, ApplyOutcome(s, id, o), id);
  }

  lemma ReserveIsCalm(s: State, id: nat)
    requires JobsHaveRows(s) && EnabledWork(s, id, Reserve)
    ensures Calm(s, ApplyWork(s, id, Reserve))
  {
    if UnitsOf(s.quota, s.rows[id].tenant) > 0 {
      PhaseIsCalm(s, TakeUnit(s, id), id, TakeUnit(s, id).jobs[id].phase);
    } else {
      var done := SetPhase(s, id, Done(true));
      PhaseIsCalm(s, done, id, Done(true));
      FailCampaignIsCalm(done, id);
      Joined(s, done, FailCampaign(done, id));
    }
  }

  lemma PersistIsCalm(s: State, id: nat)
    requires JobsHaveRows(s) && EnabledWork(s, id, Persist)
    ensures Calm(s, FixId(s, id))
  {
    OneRowIsCalm(s, FixId(s, id), id);
  }

  lemma SettleIsCalm(s: State, id: nat, written: bool)
    requires JobsHaveRows(s) && EnabledWork(s, id, Settle(written))
    ensures Calm(s, ApplyWork(s, id, Settle(written)))
  {
    var p := s.jobs[id].phase;
    if p.answer.accepted || p.answer.duplicate {
      OneRowIsCalm(s, SettleSent(s, id), id);
    } else {
      var done := Closing(s, id, written);
      PhaseIsCalm(s, done, id, Done(false));
      FailRowIsCalm(done, id);
      Joined(s, done, FailRow(done, id));
    }
  }

  lemma EndIsCalm(s: State, id: nat, step: WorkerStep)
    requires JobsHaveRows(s) && EnabledWork(s, id, step) && (step.Finish? || step.Lose?)
    ensures Calm(s, ApplyWork(s, id, step))
  {
    OneRowIsCalm(s, ApplyWork(s, id, step), id);
  }

  /** A worker of a campaign row of the channel dies after settling the row and before its job ends. */
  predicate LateCrash(s: State, step: Step, ch: nat)
    requires Enabled(s, step)
  {
    && step.Work? && step.work.Crash? && s.jobs[step.id].phase.Done?
    && s.jobs[step.id].channel == ch && s.rows[step.id].campaign.Some?
  }

  /** The phases in between: call, log, throw and crash. */
  lemma PhaseStepIsCalm(s: State, id: nat, step: WorkerStep)
    requires JobsHaveRows(s) && EnabledWork(s, id, step)
    requires step.Throw? || step.Call? || step.WriteLog? || (step.Crash? && Sending(s.jobs[id].phase))
    ensures Calm(s, ApplyWork(s, id, step))
  {
    PhaseIsCalm(s, ApplyWork(s, id, step), id, ApplyWork(s, id, step).jobs[id].phase);
  }

  lemma WorkIsCalm(s: State, id: nat, step: WorkerStep)
    requires JobsHaveRows(s) && EnabledWork(s, id, step)
    requires step.Crash? ==> !s.jobs[id].phase.Done?
    ensures Calm(s, ApplyWork(s, id, step))
  {
    match step
    case Check(v) => CheckIsCalm(s, id, v);
    case Reserve => ReserveIsCalm(s, id);
    case Persist => PersistIsCalm(s, id);
    case Settle(written) => SettleIsCalm(s, id, written);
    case Finish(_) => EndIsCalm(s, id, step);
    case Lose => EndIsCalm(s, id, step);
    case _ => PhaseStepIsCalm(s, id, step);
  }

  // ---------------------------------------------------------------------------
  // Invariant of one channel and one of its tiers
  // ---------------------------------------------------------------------------

  /**
   * Campaign sends of the tier's window plus the rows that may yet be sent stay within the
   * permits, `strays` workers mid-send and one row per late crash.
   */
  ghost predicate Inv(s: State, ch: nat, w: int, l: int, strays: nat, crashes: nat) {
    && JobsHaveRows(s) && w >= 0
    && (forall k :: 0 <= k < |s.log| ==> s.log[k].time <= s.now)
    && |Drifting(s, ch)| <= crashes
    && (forall a: int :: a >= s.now - w ==> After(s, ch, a) + |MayYetSend(s, ch)| <= W.Cap(s, l) + strays + crashes)
    && (forall a: int :: Within(s.log, ch, a, w) <= W.Cap(s, l) + strays + crashes)
  }

  function After(s: State, ch: nat, a: int): nat { W.SentAfter(s.log, W.Campaigns, ch, a) }

  /** Campaign sends of the channel in the window of this length that opens just after `a`. */
  function Within(log: seq<SendEvent>, ch: nat, a: int, window: int): nat {
    W.SentWithin(log, W.Campaigns, ch, a, a + window)
  }

  /** The invariant after a step that writes no log. */
  lemma InvAgain(s: State, s': State, ch: nat, w: int, l: int, strays: nat, crashes: nat, crashes': nat)
    requires Inv(s, ch, w, l, strays, crashes) && crashes <= crashes'
    requires s'.cfg == s.cfg && s'.log == s.log && s'.now >= s.now
    requires JobsHaveRows(s') && |Drifting(s', ch)| <= crashes'
    requires forall a: int :: a >= s.now - w ==> After(s, ch, a) + |MayYetSend(s', ch)| <= W.Cap(s, l) + strays + crashes'
    ensures Inv(s', ch, w, l, strays, crashes')
  {
    assert W.Cap(s', l) == W.Cap(s, l);
    forall a: int ensures Within(s'.log, ch, a, w) <= W.Cap(s', l) + strays + crashes' {
      assert Within(s.log, ch, a, w) <= W.Cap(s, l) + strays + crashes;
    }
    forall a: int | a >= s'.now - w ensures After(s', ch, a) + |MayYetSend(s', ch)| <= W.Cap(s', l) + strays + crashes' {
      assert After(s', ch, a) == After(s, ch, a);
    }
  }

  lemma CalmKeepsInv(s: State, s': State, ch: nat, w: int, l: int, strays: nat, crashes: nat)
    requires Inv(s, ch, w, l, strays, crashes) && Calm(s, s')
    requires s'.cfg == s.cfg && s'.log == s.log && s'.now >= s.now
    ensures Inv(s', ch, w, l, strays, crashes)
  {
    CalmShrinks(s, s', ch);
    forall a: int | a >= s.now - w ensures After(s, ch, a) + |MayYetSend(s', ch)| <= W.Cap(s, l) + strays + crashes {
      assert After(s, ch, a) + |MayYetSend(s, ch)| <= W.Cap(s, l) + strays + crashes;
    }
    InvAgain(s, s', ch, w, l, strays, crashes, crashes);
  }

  lemma CalmShrinks(s: State, s': State, ch: nat)
    requires Calm(s, s')
    ensures MayYetSend(s', ch) <= MayYetSend(s, ch) && |MayYetSend(s', ch)| <= |MayYetSend(s, ch)|
    ensures |Drifting(s', ch)| <= |Drifting(s, ch)|
  {
    forall i | i in MayYetSend(s', ch) ensures i in MayYetSend(s, ch) { assert CalmAt(s, s', i); }
    forall i | i in Drifting(s', ch) ensures i in Drifting(s, ch) { assert CalmAt(s, s', i); }
    SubsetSize(MayYetSend(s', ch), MayYetSend(s, ch));
    SubsetSize(Drifting(s', ch), Drifting(s, ch));
  }

  /** A settled send leaves the rows that may yet be sent for the log. */
  lemma SentKeepsInv(s: State, s': State, id: nat, e: SendEvent, ch: nat, w: int, l: int, strays: nat, crashes: nat)
    requires Inv(s, ch, w, l, strays, crashes) && Calm(s, s') && e.time == s.now
    requires s'.cfg == s.cfg && s'.log == s.log + [e] && s'.now == s.now
    requires W.Hit(e, W.Campaigns, ch) ==> MayYet(s, id, ch) && !MayYet(s', id, ch)
    ensures Inv(s', ch, w, l, strays, crashes)
  {
    CalmShrinks(s, s', ch);
    var hit := if W.Hit(e, W.Campaigns, ch) then 1 else 0;
    assert |MayYetSend(s', ch)| + hit <= |MayYetSend(s, ch)| by {
      if hit == 1 { SubsetSize(MayYetSend(s', ch), MayYetSend(s, ch) - {id}); }
    }
    forall a: int | a >= s'.now - w ensures After(s', ch, a) + |MayYetSend(s', ch)| <= W.Cap(s', l) + strays + crashes {
      assert After(s, ch, a) + |MayYetSend(s, ch)| <= W.Cap(s, l) + strays + crashes;
      W.SentAfterAppend(s.log, e, W.Campaigns, ch, a);
    }
    forall a: int ensures Within(s'.log, ch, a, w) <= W.Cap(s', l) + strays + crashes {
      assert Within(s.log, ch, a, w) <= W.Cap(s, l) + strays + crashes;
      W.SentWithinAppend(s.log, e, W.Campaigns, ch, a, a + w);
      if hit == 1 && a < e.time <= a + w {
        W.WithinIsAfter(s'.log, W.Campaigns, ch, a, a + w);
        assert After(s', ch, a) + |MayYetSend(s', ch)| <= W.Cap(s', l) + strays + crashes;
      }
    }
  }

  /** Rows `ids` of the channel became queued, with fresh jobs where the queue knew none. */
  ghost predicate IssuedOn(s: State, s': State, channel: nat, ids: set<nat>) {
    && s'.rows.Keys == s.rows.Keys
    && (forall i :: i in s.rows && i !in ids ==> s'.rows[i] == s.rows[i])
    && (forall i :: i in ids ==> i in s.rows && s.rows[i].status == Pending && IsQueuedOn(s'.rows[i], channel)
                                 && s.rows[i].campaign == s'.rows[i].campaign)
    && (forall i :: i in s'.jobs ==> (i in s.jobs && s'.jobs[i] == s.jobs[i]) || (i in ids && s'.jobs[i] == Job(channel, Waiting)))
  }

  lemma IssueIssues(s: State, channel: nat, ids: set<nat>)
    requires CanPick(s, channel, ids)
    ensures IssuedOn(s, SetStatuses(AddJobs(s, channel, ids), ids, Queued), channel, ids)
  {
    var s' := SetStatuses(AddJobs(s, channel, ids), ids, Queued);
    assert s'.rows == SetStatuses(s, ids, Queued).rows;
    assert s'.jobs == AddJobs(s, channel, ids).jobs;
    PickedRowsIssue(s, s', channel, ids);
  }

  lemma PickedRowsIssue(s: State, s': State, channel: nat, ids: set<nat>)
    requires forall i :: i in ids ==> i in s.rows && s.rows[i].campaign.Some? && s.rows[i].status == Pending && s.rows[i].channel == channel
    requires s'.rows == SetStatuses(s, ids, Queued).rows && s'.jobs == AddJobs(s, channel, ids).jobs
    ensures IssuedOn(s, s', channel, ids)
  {
  }

  /** What an issue on `channel` adds on channel `ch`. */
  lemma IssueAdds(s: State, s': State, channel: nat, ids: set<nat>, ch: nat)
    requires JobsHaveRows(s) && IssuedOn(s, s', channel, ids)
    ensures JobsHaveRows(s')
    ensures |Drifting(s', ch)| <= |Drifting(s, ch)|
    ensures |MayYetSend(s', ch)| <= |MayYetSend(s, ch)| + (if ch == channel then |ids| else 0)
  {
    var more := if ch == channel then ids else {};
    forall i | i in MayYetSend(s', ch) ensures i in MayYetSend(s, ch) + more {}
    forall i | i in Drifting(s', ch) ensures i in Drifting(s, ch) {}
    SubsetSize(MayYetSend(s', ch), (MayYetSend(s, ch) - more) + more);
    SubsetSize(Drifting(s', ch), Drifting(s, ch));
  }

  lemma IssueKeepsInv(s: State, s': State, channel: nat, ids: set<nat>, ch: nat, w: int, l: int, strays: nat, crashes: nat)
    requires Inv(s, ch, w, l, strays, crashes) && CanPick(s, channel, ids) && W.TierOf(s, ch, w, l)
    requires ch == channel && ids != {} ==> |Straying(s, ch)| <= strays
    requires IssuedOn(s, s', channel, ids) && s'.cfg == s.cfg && s'.log == s.log && s'.now == s.now
    ensures Inv(s', ch, w, l, strays, crashes)
  {
    IssueAdds(s, s', channel, ids, ch);
    if ch == channel && ids != {} {
      IssuedFits(s, channel, ids, w, l, strays, crashes);
    }
    forall a: int | a >= s.now - w
      ensures After(s, ch, a) + |MayYetSend(s', ch)| <= W.Cap(s, l) + strays + crashes
    {
      assert After(s, ch, a) + |MayYetSend(s, ch)| <= W.Cap(s, l) + strays + crashes;
    }
    InvAgain(s, s', ch, w, l, strays, crashes, crashes);
  }

  /** Fresh permits cover what is queued and issued; strays and drifting rows come on top. */
  lemma IssuedFits(s: State, channel: nat, ids: set<nat>, w: int, l: int, strays: nat, crashes: nat)
    requires CanPick(s, channel, ids) && ids != {} && W.TierOf(s, channel, w, l)
    requires |Straying(s, channel)| <= strays && |Drifting(s, channel)| <= crashes
    ensures forall a: int :: a >= s.now - w ==>
              After(s, channel, a) + |MayYetSend(s, channel)| + |ids| <= W.Cap(s, l) + strays + crashes
  {
    MayYetSplit(s, channel);
    W.PermitsFit(s, W.Campaigns, channel, ids, w, l);
  }

  /** A late crash brings back at most its own row. */
  lemma CrashAdds(s: State, id: nat, dead: bool, ch: nat)
    requires JobsHaveRows(s) && EnabledWork(s, id, Crash(dead)) && s.jobs[id].phase.Done?
    ensures var s' := Drop(s, id, dead); var back := if LateCrash(s, Work(id, Crash(dead)), ch) then {id} else {};
      && JobsHaveRows(s')
      && Drifting(s', ch) <= Drifting(s, ch) + back
      && MayYetSend(s', ch) <= MayYetSend(s, ch) + back
  {
  }

  function Late(s: State, step: Step, ch: nat): nat
    requires Enabled(s, step)
  {
    if LateCrash(s, step, ch) then 1 else 0
  }

  lemma CrashKeepsInv(s: State, id: nat, dead: bool, ch: nat, w: int, l: int, strays: nat, crashes: nat)
    requires Inv(s, ch, w, l, strays, crashes) && EnabledWork(s, id, Crash(dead)) && s.jobs[id].phase.Done?
    ensures Inv(Drop(s, id, dead), ch, w, l, strays, crashes + Late(s, Work(id, Crash(dead)), ch))
  {
    var s' := Drop(s, id, dead);
    CrashAdds(s, id, dead, ch);
    var back := if LateCrash(s, Work(id, Crash(dead)), ch) then {id} else {};
    SubsetSize(Drifting(s', ch), Drifting(s, ch) + back);
    SubsetSize(MayYetSend(s', ch), MayYetSend(s, ch) + back);
    InvAgain(s, s', ch, w, l, strays, crashes, crashes + |back|);
  }

  lemma SettleKeepsInv(s: State, id: nat, written: bool, ch: nat, w: int, l: int, strays: nat, crashes: nat)
    requires Inv(s, ch, w, l, strays, crashes) && EnabledWork(s, id, Settle(written))
    ensures Inv(ApplyWork(s, id, Settle(written)), ch, w, l, strays, crashes)
  {
    SettleIsCalm(s, id, written);
    var p := s.jobs[id].phase;
    var s' := ApplyWork(s, id, Settle(written));
    if p.answer.accepted || p.answer.duplicate {
      SentLogs(s, id, ch);
      SentKeepsInv(s, s', id, s'.log[|s.log|], ch, w, l, strays, crashes);
    } else {
      FailedLogsNothing(s, id, written);
      CalmKeepsInv(s, s', ch, w, l, strays, crashes);
    }
  }

  lemma SentLogs(s: State, id: nat, ch: nat)
    requires EnabledWork(s, id, Settle(true))
    ensures var s' := SettleSent(s, id);
      && s'.cfg == s.cfg && s'.now == s.now && |s'.log| == |s.log| + 1
      && var e := s'.log[|s.log|];
         && s'.log == s.log + [e] && e.time == s.now
         && (W.Hit(e, W.Campaigns, ch) ==> MayYet(s, id, ch) && !MayYet(s', id, ch))
  {
  }

  lemma WorkKeepsInv(s: State, id: nat, step: WorkerStep, ch: nat, w: int, l: int, strays: nat, crashes: nat)
    requires Inv(s, ch, w, l, strays, crashes) && EnabledWork(s, id, step)
    ensures Inv(ApplyWork(s, id, step), ch, w, l, strays, crashes + Late(s, Work(id, step), ch))
  {
    if step.Crash? && s.jobs[id].phase.Done? {
      CrashKeepsInv(s, id, step.dead, ch, w, l, strays, crashes);
    } else if step.Settle? {
      SettleKeepsInv(s, id, step.refundWritten, ch, w, l, strays, crashes);
    } else {
      WorkIsCalm(s, id, step);
      WorkLogsNothing(s, id, step);
      CalmKeepsInv(s, ApplyWork(s, id, step), ch, w, l, strays, crashes);
    }
  }

  /** When the step issues rows of the channel, at most `strays` workers are mid-send for rows not queued there. */
  predicate FewStrays(s: State, step: Step, ch: nat, strays: nat) {
    step.Table? && step.table.Issue? && step.table.channel == ch && step.table.ids != {} ==> |Straying(s, ch)| <= strays
  }

  lemma TableKeepsInv(s: State, step: TableStep, ch: nat, w: int, l: int, strays: nat, crashes: nat)
    requires Inv(s, ch, w, l, strays, crashes) && EnabledTable(s, step) && F.Coarse(Table(step))
    requires W.TierOf(s, ch, w, l) && FewStrays(s, Table(step), ch, strays)
    ensures Inv(ApplyTable(s, step), ch, w, l, strays, crashes)
  {
    TableLogsNothing(s, step);
    if step.Issue? {
      IssueIssues(s, step.channel, step.ids);
      IssueKeepsInv(s, ApplyTable(s, step), step.channel, step.ids, ch, w, l, strays, crashes);
    } else {
      TableIsCalm(s, step);
      CalmKeepsInv(s, ApplyTable(s, step), ch, w, l, strays, crashes);
    }
  }

  lemma AdminKeepsInv(s: State, step: AdminStep, ch: nat, w: int, l: int, strays: nat, crashes: nat)
    requires Inv(s, ch, w, l, strays, crashes) && EnabledAdmin(s, step)
    ensures Inv(ApplyAdmin(s, step), ch, w, l, strays, crashes)
  {
    AdminIsCalm(s, step);
    CalmKeepsInv(s, ApplyAdmin(s, step), ch, w, l, strays, crashes);
  }

  lemma StepKeepsInv(s: State, step: Step, ch: nat, w: int, l: int, strays: nat, crashes: nat)
    requires Inv(s, ch, w, l, strays, crashes) && Enabled(s, step) && F.Coarse(step)
    requires W.TierOf(s, ch, w, l) && FewStrays(s, step, ch, strays)
    ensures Inv(Apply(s, step), ch, w, l, strays, crashes + Late(s, step, ch))
  {
    match step
    case Admin(a) => AdminKeepsInv(s, a, ch, w, l, strays, crashes);
    case Table(t) => TableKeepsInv(s, t, ch, w, l, strays, crashes);
    case Work(id, work) => WorkKeepsInv(s, id, work, ch, w, l, strays, crashes);
  }

  // ---------------------------------------------------------------------------
  // Runs
  // ---------------------------------------------------------------------------

  /** Whenever a tick issues rows of the channel, at most `strays` workers are mid-send for rows not queued there. */
  predicate StraysAtTicks(s: State, steps: seq<Step>, ch: nat, strays: nat)
    requires Runs(s, steps)
    decreases |steps|
  {
    steps == [] || (FewStrays(s, steps[0], ch, strays) && StraysAtTicks(Apply(s, steps[0]), steps[1..], ch, strays))
  }

  /** How many workers of the channel died between settling their row and ending their job. */
  function LateCrashes(s: State, steps: seq<Step>, ch: nat): nat
    requires Runs(s, steps)
    decreases |steps|
  {
    if steps == [] then 0 else Late(s, steps[0], ch) + LateCrashes(Apply(s, steps[0]), steps[1..], ch)
  }

  lemma {:induction false} RunKeepsInv(s: State, steps: seq<Step>, ch: nat, w: int, l: int, strays: nat, crashes: nat)
    requires Runs(s, steps) && (forall i :: 0 <= i < |steps| ==> F.Coarse(steps[i]))
    requires Inv(s, ch, w, l, strays, crashes) && W.TierOf(s, ch, w, l) && StraysAtTicks(s, steps, ch, strays)
    ensures Inv(Exec(s, steps), ch, w, l, strays, crashes + LateCrashes(s, steps, ch))
    ensures Exec(s, steps).cfg == s.cfg
    decreases |steps|
  {
    if steps != [] {
      StepKeepsInv(s, steps[0], ch, w, l, strays, crashes);
      W.StepKeepsConfig(s, steps[0]);
      RunKeepsInv(Apply(s, steps[0]), steps[1..], ch, w, l, strays, crashes + Late(s, steps[0], ch));
    }
  }

  lemma InitialInv(s: State, ch: nat, w: int, l: int, strays: nat)
    requires Initial(s) && W.TierOf(s, ch, w, l)
    ensures Inv(s, ch, w, l, strays, 0)
  {
    assert Drifting(s, ch) == {} && MayYetSend(s, ch) == {};
  }

  /**
   * Main result: on every run whose ticks are single steps, any window (a, a + W] of a tier
   * holds at most MAX_INFLIGHT + max(0, L - 1) campaign sends of the channel, plus the
   * workers mid-send for rows already off its queue when a tick issues, plus one for each
   * worker that died between settling its row and ending its job.
   */
  lemma EveryCampaignSendBounded(s: State, steps: seq<Step>, channel: nat, window: int, limit: int, a: int, strays: nat)
    requires Initial(s) && Runs(s, steps) && (forall i :: 0 <= i < |steps| ==> F.Coarse(steps[i]))
    requires W.TierOf(s, channel, window, limit) && StraysAtTicks(s, steps, channel, strays)
    ensures Within(Exec(s, steps).log, channel, a, window)
            <= s.cfg.maxInflight + Max(0, limit - 1) + strays + LateCrashes(s, steps, channel)
  {
    InitialInv(s, channel, window, limit, strays);
    RunKeepsInv(s, steps, channel, window, limit, strays, 0);
  }

  /** Workers of the channel past their checks. */
  function Workers(s: State, ch: nat): set<nat> {
    set i | i in s.jobs && s.jobs[i].channel == ch && Sending(s.jobs[i].phase)
  }

  /** At most `n` workers of the channel are past their checks, at every state of the run. */
  predicate FewWorkers(s: State, steps: seq<Step>, ch: nat, n: nat)
    requires Runs(s, steps)
    decreases |steps|
  {
    |Workers(s, ch)| <= n && (steps == [] || FewWorkers(Apply(s, steps[0]), steps[1..], ch, n))
  }

  lemma {:induction false} StraysAreWorkers(s: State, steps: seq<Step>, ch: nat, n: nat)
    requires Runs(s, steps) && FewWorkers(s, steps, ch, n)
    ensures StraysAtTicks(s, steps, ch, n)
    decreases |steps|
  {
    SubsetSize(Straying(s, ch), Workers(s, ch));
    if steps != [] { StraysAreWorkers(Apply(s, steps[0]), steps[1..], ch, n); }
  }

  /** In terms of the worker pool: the concurrency of the channel's workers is the only excess without late crashes. */
  lemma BoundedByConcurrency(s: State, steps: seq<Step>, channel: nat, window: int, limit: int, a: int, workers: nat)
    requires Initial(s) && Runs(s, steps) && (forall i :: 0 <= i < |steps| ==> F.Coarse(steps[i]))
    requires W.TierOf(s, channel, window, limit) && FewWorkers(s, steps, channel, workers)
    requires LateCrashes(s, steps, channel) == 0
    ensures Within(Exec(s, steps).log, channel, a, window) <= s.cfg.maxInflight + Max(0, limit - 1) + workers
  {
    StraysAreWorkers(s, steps, channel, workers);
    EveryCampaignSendBounded(s, steps, channel, window, limit, a, workers);
  }
}
