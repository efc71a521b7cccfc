/**
 * What the allocation of a tick means, and that a whole tick is a run of the pipeline made
 * of Sweep, CloseDrained, Exhaust and Issue steps, so that every theorem about runs covers it.
 */
module TickSafety {
  import opened Common
  import opened Pipeline
  import opened Recovery
  import opened Tick
  import F = Finalisation
  import SW = SlidingWindow
  import OnceOnly
  import Ledger
  import WindowBound

  // ---------------------------------------------------------------------------
  // Bounds
  // ---------------------------------------------------------------------------

  lemma {:induction false} SeqBoundsSet(ids: set<nat>, s: seq<nat>)
    requires forall i :: i in ids ==> i in s
    ensures |ids| <= |s|
    decreases |s|
  {
    if s == [] {
      assert ids == {};
    } else {
      var rest := ids - {s[0]};
      forall i | i in rest ensures i in s[1..] {}
      SeqBoundsSet(rest, s[1..]);
      SubsetSize(ids, rest + {s[0]});
    }
  }

  /** Per channel: within its rate limits and its headroom. */
  lemma ChannelWithinBudget(s: State, eligible: set<nat>, ids: set<nat>, channel: nat)
    requires FromCandidates(s, eligible, ids)
    ensures |OnChannel(s, ids, channel)| <= Max(0, Budget(s, channel))
  {
    SeqBoundsSet(OnChannel(s, ids, channel), Candidates(s, eligible, channel));
    CandidatesArePending(s, eligible, channel);
  }

  lemma QueuedGrows(s: State, ids: set<nat>, channel: nat)
    requires forall i :: i in ids ==> i in s.rows && s.rows[i].status == Pending && s.rows[i].campaign.Some?
    ensures QueuedOn(Granted(s, ids), channel) == QueuedOn(s, channel) + OnChannel(s, ids, channel)
    ensures QueuedOn(s, channel) !! OnChannel(s, ids, channel)
  {
  }

  /** The depth of a channel grows by what was granted on it, and not beyond the in-flight limit. */
  lemma DepthBound(s: State, eligible: set<nat>, ids: set<nat>, channel: nat)
    requires FromCandidates(s, eligible, ids) && ids <= s.rows.Keys
    ensures QueuedOn(Granted(s, ids), channel) == QueuedOn(s, channel) + OnChannel(s, ids, channel)
    ensures |QueuedOn(Granted(s, ids), channel)| <= Max(|QueuedOn(s, channel)|, s.cfg.maxInflight)
  {
    GrantedArePending(s, eligible, ids);
    QueuedGrows(s, ids, channel);
    ChannelWithinBudget(s, eligible, ids, channel);
    BudgetWithinHeadroom(s, channel);
  }

  lemma BudgetWithinHeadroom(s: State, channel: nat)
    ensures |QueuedOn(s, channel)| + Max(0, Budget(s, channel)) <= Max(|QueuedOn(s, channel)|, s.cfg.maxInflight)
  {
  }

  lemma GrantedArePending(s: State, eligible: set<nat>, ids: set<nat>)
    requires FromCandidates(s, eligible, ids)
    ensures forall i :: i in ids ==>
              i in s.rows && s.rows[i].status == Pending && s.rows[i].campaign.Some? && s.rows[i].campaign.value in eligible
  {
    forall i | i in ids
      ensures i in s.rows && s.rows[i].status == Pending && s.rows[i].campaign.Some? && s.rows[i].campaign.value in eligible
    {
      CandidatesArePending(s, eligible, s.rows[i].channel);
    }
  }

  lemma PendingBefore(s: State, eligible: set<nat>, channel: nat, i: nat, j: nat)
    requires i in PendingOn(s, eligible, channel) && j in Candidates(s, eligible, channel) && i < j
    ensures i in Candidates(s, eligible, channel)
  {
    var pending := Sorted(PendingOn(s, eligible, channel));
    SortedAscends(PendingOn(s, eligible, channel));
    assert i in pending;
  }

  /** A tenant's older rows on a channel go before its newer ones. */
  lemma OldestFirst(s: State, eligible: set<nat>, ids: set<nat>, i: nat, j: nat)
    requires Allocation(s, eligible, ids) && j in ids
    requires i in s.rows && s.rows[i].status == Pending && s.rows[i].campaign.Some? && s.rows[i].campaign.value in eligible
    requires i < j && s.rows[i].channel == s.rows[j].channel && TenantOf(s, i) == TenantOf(s, j)
    ensures i in ids
  {
    PendingBefore(s, eligible, s.rows[i].channel, i, j);
    assert InOrder(s, eligible, s.rows[i].channel, ids);
    assert OlderAlike(s, i, j);
  }

  /** While no tenant with pending rows on the channel runs out, all its candidates are taken. */
  lemma AllCandidatesTaken(s: State, eligible: set<nat>, ids: set<nat>, channel: nat)
    requires NothingWasted(s, eligible, channel, ids)
    requires forall i :: i in PendingOn(s, eligible, channel) ==>
               |OfTenant(s, ids, TenantOf(s, i))| < UnitsOf(s.quota, TenantOf(s, i))
    ensures Members(Candidates(s, eligible, channel)) <= OnChannel(s, ids, channel)
  {
    CandidatesArePending(s, eligible, channel);
    forall i | i in Candidates(s, eligible, channel) ensures i in OnChannel(s, ids, channel) {
      assert i in PendingOn(s, eligible, channel);
    }
  }

  /** ... so the channel's whole budget is spent, or nothing is left pending on it. */
  lemma BudgetSpent(s: State, eligible: set<nat>, ids: set<nat>, channel: nat)
    requires Allocation(s, eligible, ids)
    requires forall i :: i in PendingOn(s, eligible, channel) ==>
               |OfTenant(s, ids, TenantOf(s, i))| < UnitsOf(s.quota, TenantOf(s, i))
    ensures |OnChannel(s, ids, channel)| == Max(0, Min(|PendingOn(s, eligible, channel)|, Budget(s, channel)))
  {
    AllCandidatesTaken(s, eligible, ids, channel);
    OnlyCandidates(s, eligible, ids, channel);
  }

  /** With rate limit, in-flight limit and pending rows spelled out: the tick takes as many rows as the tightest of the three allows. */
  lemma FillsUp(s: State, eligible: set<nat>, ids: set<nat>, channel: nat)
    requires Allocation(s, eligible, ids) && channel in s.cfg.limits
    requires forall i :: i in PendingOn(s, eligible, channel) ==>
               |OfTenant(s, ids, TenantOf(s, i))| < UnitsOf(s.quota, TenantOf(s, i))
    ensures var taken := |OnChannel(s, ids, channel)|;
      && (taken == |PendingOn(s, eligible, channel)|
          || taken == SW.Available(Times(s.log, channel), s.now, s.cfg.limits[channel])
          || taken == Max(0, s.cfg.maxInflight - |QueuedOn(s, channel)|))
      && taken <= |PendingOn(s, eligible, channel)|
      && taken <= SW.Available(Times(s.log, channel), s.now, s.cfg.limits[channel])
      && taken <= Max(0, s.cfg.maxInflight - |QueuedOn(s, channel)|)
  {
    BudgetSpent(s, eligible, ids, channel);
    AllowanceNotNegative(Times(s.log, channel), s.now, s.cfg.limits[channel]);
  }

  lemma AllowanceNotNegative(h: seq<int>, now: int, q: SW.Quota)
    ensures SW.Available(h, now, q) >= 0
  {
  }

  lemma OnlyCandidates(s: State, eligible: set<nat>, ids: set<nat>, channel: nat)
    requires FromCandidates(s, eligible, ids) && Members(Candidates(s, eligible, channel)) <= OnChannel(s, ids, channel)
    ensures |OnChannel(s, ids, channel)| == Max(0, Min(|PendingOn(s, eligible, channel)|, Budget(s, channel)))
  {
    CandidatesArePending(s, eligible, channel);
    DistinctMembers(Candidates(s, eligible, channel));
    assert Members(Candidates(s, eligible, channel)) == OnChannel(s, ids, channel);
  }

  // ---------------------------------------------------------------------------
  // The tick as a run
  // ---------------------------------------------------------------------------

  ghost predicate TickStep(step: Step) {
    || (step.Admin? && step.admin.CloseDrained?)
    || (step.Table? && (step.table.Sweep? || step.table.Exhaust? || step.table.Issue?))
  }

  ghost predicate TickRun(s: State, steps: seq<Step>, s': State) {
    && Runs(s, steps) && Exec(s, steps) == s'
    && forall k :: 0 <= k < |steps| ==> TickStep(steps[k])
  }

  /** Some run of tick steps leads from one state to the other. */
  ghost predicate Ticks(s: State, s': State) {
    exists steps :: TickRun(s, steps, s')
  }

  lemma Join(s: State, mid: State, end: State)
    requires Ticks(s, mid) && Ticks(mid, end)
    ensures Ticks(s, end)
  {
    var a :| TickRun(s, a, mid);
    var b :| TickRun(mid, b, end);
    RunsConcat(s, a, b);
    assert TickRun(s, a + b, end);
  }

  lemma JoinOne(s: State, mid: State, step: Step)
    requires Ticks(s, mid) && Enabled(mid, step) && TickStep(step)
    ensures Ticks(s, Apply(mid, step))
  {
    var a :| TickRun(s, a, mid);
    RunsExtend(s, a, step);
    assert TickRun(s, a + [step], Apply(mid, step));
  }

  lemma EmptyRun(s: State)
    ensures Ticks(s, s)
  {
    assert TickRun(s, [], s);
  }

  lemma CloseOneMore(s: State, done: set<nat>, c: nat)
    requires c in s.campaigns && s.campaigns[c].status == Sending && s.campaigns[c].total > 0
    requires ActiveRows(s, c) == {} && c !in done
    ensures var t := CloseAll(s, done);
      EnabledAdmin(t, CloseDrained(c)) && ApplyAdmin(t, CloseDrained(c)) == CloseAll(s, done + {c})
  {
  }

  /** Closing campaigns that are drained, one at a time. */
  lemma {:induction false} ClosingRuns(s: State, cs: set<nat>)
    requires forall c :: c in cs ==>
               c in s.campaigns && s.campaigns[c].status == Sending && s.campaigns[c].total > 0 && ActiveRows(s, c) == {}
    ensures Ticks(s, CloseAll(s, cs))
    decreases |cs|
  {
    if cs == {} {
      assert CloseAll(s, {}) == s;
      EmptyRun(s);
    } else {
      var c :| c in cs;
      ClosingRuns(s, cs - {c});
      CloseOneMore(s, cs - {c}, c);
      JoinOne(s, CloseAll(s, cs - {c}), Admin(CloseDrained(c)));
      assert cs - {c} + {c} == cs;
    }
  }

  lemma {:induction false} ExhaustingRuns(s: State, cs: set<nat>)
    requires cs <= Broke(s, cs)
    ensures Ticks(s, ExhaustAll(s, cs))
    decreases |cs|
  {
    if cs == {} {
      ExhaustNone(s);
      EmptyRun(s);
    } else {
      var c :| c in cs;
      ExhaustingRuns(s, cs - {c});
      ExhaustOneMore(s, cs - {c}, c);
      JoinOne(s, ExhaustAll(s, cs - {c}), Table(Exhaust(c)));
      assert cs - {c} + {c} == cs;
    }
  }

  /** Grants on other channels leave a channel's budget as it was. */
  lemma BudgetUnaffected(s: State, done: set<nat>, channel: nat)
    requires done <= s.rows.Keys && forall i :: i in done ==> s.rows[i].channel != channel
    ensures Budget(Granted(s, done), channel) == Budget(s, channel)
  {
    TurnUnaffected(s, done, {}, channel);
  }

  lemma StillPickable(s: State, eligible: set<nat>, ids: set<nat>, channel: nat)
    requires FromCandidates(s, eligible, ids) && OnChannel(s, ids, channel) != {}
    requires ids - OnChannel(s, ids, channel) <= s.rows.Keys
    ensures CanPick(Granted(s, ids - OnChannel(s, ids, channel)), channel, OnChannel(s, ids, channel))
  {
    GrantedArePending(s, eligible, ids);
    ChannelWithinBudget(s, eligible, ids, channel);
    BudgetUnaffected(s, ids - OnChannel(s, ids, channel), channel);
  }

  lemma IssueLands(s: State, done: set<nat>, more: set<nat>, channel: nat, ids: set<nat>)
    requires ids <= s.rows.Keys && more <= ids && done == ids - more
    requires forall i :: i in more ==> s.rows[i].channel == channel
    ensures SetStatuses(AddJobs(Granted(s, done), channel, more), more, Queued) == Granted(s, ids)
  {
    GrantedMore(s, done, more, channel);
    assert done + more == ids;
  }

  lemma JoinIssue(s: State, mid: State, channel: nat, more: set<nat>, end: State)
    requires Ticks(s, mid) && CanPick(mid, channel, more)
    requires SetStatuses(AddJobs(mid, channel, more), more, Queued) == end
    ensures Ticks(s, end)
  {
    JoinOne(s, mid, Table(Issue(channel, more)));
  }

  lemma {:induction false} IssuingRuns(s: State, eligible: set<nat>, ids: set<nat>)
    requires FromCandidates(s, eligible, ids)
    ensures ids <= s.rows.Keys && Ticks(s, Granted(s, ids))
    decreases |ids|
  {
    if ids == {} {
      NothingPromised(s, map[]);
      EmptyRun(s);
    } else {
      var i :| i in ids;
      var channel := s.rows[i].channel;
      assert i in OnChannel(s, ids, channel);
      var more := OnChannel(s, ids, channel);
      SubsetSize(ids - more, ids - {i});
      IssuingRuns(s, eligible, ids - more);
      IssueJoins(s, eligible, ids, channel);
    }
  }

  lemma IssueJoins(s: State, eligible: set<nat>, ids: set<nat>, channel: nat)
    requires FromCandidates(s, eligible, ids) && OnChannel(s, ids, channel) != {} && ids <= s.rows.Keys
    requires Ticks(s, Granted(s, ids - OnChannel(s, ids, channel)))
    ensures Ticks(s, Granted(s, ids))
  {
    var more := OnChannel(s, ids, channel);
    StillPickable(s, eligible, ids, channel);
    IssueLands(s, ids - more, more, channel, ids);
    JoinIssue(s, Granted(s, ids - more), channel, more, Granted(s, ids));
  }

  lemma SweepingRuns(s: State, due: bool, campaigns: set<nat>, picked: seq<nat>)
    requires due ==> QueryReturns(s, campaigns, picked)
    ensures Ticks(s, Swept1(s, due, picked))
  {
    if due {
      assert forall i :: i in picked ==> i in Members(picked);
      var steps := SweepRuns(s, Visited(s, picked));
      assert TickRun(s, steps, Swept1(s, due, picked));
    } else {
      EmptyRun(s);
    }
  }

  /** Campaigns without open rows before the sweep have none after it. */
  lemma DrainedStayDrained(s: State, due: bool, picked: seq<nat>, c: nat)
    requires due ==> QueryReturns(s, ActiveAmong(s, SendingCampaigns(s)), picked)
    requires c in Drained(s)
    ensures var t := Swept1(s, due, picked);
      c in t.campaigns && t.campaigns[c].status == Sending && t.campaigns[c].total > 0 && ActiveRows(t, c) == {}
  {
    assert forall i :: i in picked ==> i in Members(picked);
    assert forall i :: i in s.rows && s.rows[i].campaign == Some(c) && !Terminal(s.rows[i].status) ==>
        c in ActiveAmong(s, SendingCampaigns(s));
    assert ActiveRows(s, c) == {};
    forall i | i in s.rows && s.rows[i].campaign == Some(c) ensures Terminal(s.rows[i].status) {
      F.NotActive(s, c, i);
    }
  }

  /**
   * What closing means: the tick closes exactly the campaigns that were sending, had their
   * audience published and no open row; each is still without open rows when it is closed,
   * and nothing but its status changes.
   */
  lemma ClosesExactlyDrained(s: State, due: bool, picked: seq<nat>, c: nat)
    requires due ==> QueryReturns(s, ActiveAmong(s, SendingCampaigns(s)), picked)
    ensures var swept, t := Swept1(s, due, picked), ClosedDrained(s, due, picked);
      && (!F.IsClosed(s, c) && F.IsClosed(t, c) <==> EnabledAdmin(s, CloseDrained(c)))
      && (EnabledAdmin(s, CloseDrained(c)) ==> ActiveRows(t, c) == {})
      && (c in s.campaigns ==> c in t.campaigns && t.campaigns[c].(status := s.campaigns[c].status) == s.campaigns[c])
      && t.(campaigns := swept.campaigns) == swept
  {
    DrainedIff(s, c);
    if c in Drained(s) { DrainedStayDrained(s, due, picked, c); }
  }

  /**
   * What running out of units means: of the campaigns that go on sending exactly those whose
   * tenant has no unit left are closed, with all their rows decided: failed, unless the sweep
   * just found them delivered. The others stay as they are, and so does what was not sending.
   */
  lemma ExhaustsExactly(s: State, due: bool, picked: seq<nat>, issued: set<nat>, c: nat)
    requires Allocation(Reconciled(s, due, picked), Eligible(s), issued)
    requires c in s.campaigns && s.campaigns[c].status == Sending && !EnabledAdmin(s, CloseDrained(c))
    ensures issued <= Reconciled(s, due, picked).rows.Keys
    ensures var e := Granted(Reconciled(s, due, picked), issued);
      && c in e.campaigns && (e.campaigns[c].status == Closed <==> UnitsOf(s.quota, s.campaigns[c].tenant) <= 0)
      && (F.IsClosed(e, c) ==> ActiveRows(e, c) == {})
      && (F.IsClosed(e, c) ==> forall i :: i in ActiveRows(s, c) ==>
            i in e.rows && (e.rows[i].status == Failed || (e.rows[i].status == Sent && i in s.delivered)))
      && (!F.IsClosed(e, c) ==> e.campaigns[c] == s.campaigns[c])
    ensures c in Eligible(s) <==> UnitsOf(s.quota, s.campaigns[c].tenant) > 0
  {
    var mid := Reconciled(s, due, picked);
    ReconciledHeeds(s, due, picked);
    EligibleCanPay(s);
    GrantedArePending(mid, Eligible(s), issued);
    GrantedHeeds(s, mid, Eligible(s), issued);
    assert OutOfUnits(s, Granted(mid, issued), c);
  }

  lemma SweptClosingRuns(s: State, due: bool, picked: seq<nat>)
    requires due ==> QueryReturns(s, ActiveAmong(s, SendingCampaigns(s)), picked)
    ensures Ticks(Swept1(s, due, picked), ClosedDrained(s, due, picked))
  {
    var swept := Swept1(s, due, picked);
    forall c | c in Drained(s)
      ensures c in swept.campaigns && swept.campaigns[c].status == Sending && swept.campaigns[c].total > 0
              && ActiveRows(swept, c) == {}
    {
      DrainedStayDrained(s, due, picked, c);
    }
    ClosingRuns(swept, Drained(s));
  }

  lemma BrokeRuns(s: State, cs: set<nat>)
    ensures Ticks(s, DroppedBroke(s, cs))
  {
    ExhaustingRuns(s, Broke(s, cs));
  }

  lemma ThenExhaust(s: State, closed: State, cs: set<nat>)
    requires Ticks(s, closed)
    ensures Ticks(s, DroppedBroke(closed, cs))
  {
    BrokeRuns(closed, cs);
    Join(s, closed, DroppedBroke(closed, cs));
  }

  lemma ClosedRuns(s: State, due: bool, picked: seq<nat>)
    requires due ==> QueryReturns(s, ActiveAmong(s, SendingCampaigns(s)), picked)
    ensures Ticks(s, ClosedDrained(s, due, picked))
  {
    SweepingRuns(s, due, ActiveAmong(s, SendingCampaigns(s)), picked);
    SweptClosingRuns(s, due, picked);
    Join(s, Swept1(s, due, picked), ClosedDrained(s, due, picked));
  }

  lemma ReconcilingRuns(s: State, due: bool, picked: seq<nat>)
    requires due ==> QueryReturns(s, ActiveAmong(s, SendingCampaigns(s)), picked)
    ensures Ticks(s, Reconciled(s, due, picked))
  {
    ClosedRuns(s, due, picked);
    ThenExhaust(s, ClosedDrained(s, due, picked), SendingCampaigns(s) - Drained(s));
  }

  /** What a tick does after its sweep is a run of closings, exhaustions and issues. */
  lemma RestOfTickRuns(s: State, due: bool, picked: seq<nat>, issued: set<nat>)
    requires due ==> QueryReturns(s, ActiveAmong(s, SendingCampaigns(s)), picked)
    requires Allocation(Reconciled(s, due, picked), Eligible(s), issued)
    ensures issued <= Reconciled(s, due, picked).rows.Keys
    ensures Ticks(Swept1(s, due, picked), Granted(Reconciled(s, due, picked), issued))
  {
    var swept, mid := Swept1(s, due, picked), Reconciled(s, due, picked);
    SweptClosingRuns(s, due, picked);
    ThenExhaust(swept, ClosedDrained(s, due, picked), SendingCampaigns(s) - Drained(s));
    IssuingRuns(mid, Eligible(s), issued);
    Join(swept, mid, Granted(mid, issued));
  }

  /** Main result: whatever a tick allocates, the tick is a run of single-step issues. */
  lemma TickIsARun(s: State, due: bool, picked: seq<nat>, issued: set<nat>) returns (steps: seq<Step>)
    requires due ==> QueryReturns(s, ActiveAmong(s, SendingCampaigns(s)), picked)
    requires Allocation(Reconciled(s, due, picked), Eligible(s), issued)
    ensures issued <= Reconciled(s, due, picked).rows.Keys
    ensures TickRun(s, steps, Granted(Reconciled(s, due, picked), issued))
    ensures forall k :: 0 <= k < |steps| ==> F.Coarse(steps[k])
  {
    ReconcilingRuns(s, due, picked);
    var mid := Reconciled(s, due, picked);
    IssuingRuns(mid, Eligible(s), issued);
    Join(s, mid, Granted(mid, issued));
    steps :| TickRun(s, steps, Granted(mid, issued));
  }

  /** Hence a tick keeps the delivery, quota and rate-limit invariants. */
  lemma TickKeepsInvariants(s: State, due: bool, picked: seq<nat>, issued: set<nat>)
    requires due ==> QueryReturns(s, ActiveAmong(s, SendingCampaigns(s)), picked)
    requires Allocation(Reconciled(s, due, picked), Eligible(s), issued)
    requires OnceOnly.Inv(s) && Ledger.Inv(s) && WindowBound.Inv(s)
    ensures issued <= Reconciled(s, due, picked).rows.Keys
    ensures var s' := Granted(Reconciled(s, due, picked), issued); OnceOnly.Inv(s') && Ledger.Inv(s') && WindowBound.Inv(s')
  {
    var steps := TickIsARun(s, due, picked, issued);
    OnceOnly.RunInv(s, steps);
    Ledger.RunInv(s, steps);
    WindowBound.RunInv(s, steps);
  }
}
