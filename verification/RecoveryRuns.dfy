/**
 * The stale sweep over time. Ticks come at least once every `period` milliseconds and sweep
 * when a minute has passed since the last sweep; between them the pipeline moves freely.
 * While every due sweep finds no more rows than its batch holds, no row stays stranded for
 * longer than a minute and a period. With more, one row can be passed over for ever.
 */
module RecoveryRuns {
  import opened Common
  import opened Pipeline
  import opened Recovery
  import opened Tick
  import TS = TickSafety
  import F = Finalisation
  import W = WindowBound
  import PF = PipelineFrames
  import SW = SlidingWindow

  /** The tables with the times of the last sweep and of the last tick. */
  datatype Clocked = Clocked(s: State, lastSweep: nat, lastTick: nat)

  /** A step of the pipeline, or the sweeping part of a tick with the batch its query returned. */
  datatype Event = Other(step: Step) | Tick(picked: seq<nat>)

  /** The campaigns a tick sweeps: sending, with open rows. */
  function SweptCampaigns(s: State): set<nat> { ActiveAmong(s, SendingCampaigns(s)) }

  predicate DueAt(c: Clocked) { SweptCampaigns(c.s) != {} && c.s.now >= c.lastSweep + STALE_SWEEP_INTERVAL_MS }

  /** The clock does not run past the next tick. */
  ghost predicate Happens(c: Clocked, e: Event, period: nat) {
    match e
    case Other(step) =>
      Enabled(c.s, step) && (step.Admin? && step.admin.Advance? ==> c.s.now + step.admin.dt <= c.lastTick + period)
    case Tick(picked) => DueAt(c) ==> QueryReturns(c.s, SweptCampaigns(c.s), picked)
  }

  ghost function After(c: Clocked, e: Event, period: nat): Clocked
    requires Happens(c, e, period)
  {
    match e
    case Other(step) => c.(s := Apply(c.s, step))
    case Tick(picked) =>
      if DueAt(c) then Clocked(Swept(c.s, Visited(c.s, picked)), c.s.now, c.s.now) else c.(lastTick := c.s.now)
  }

  ghost predicate History(c: Clocked, events: seq<Event>, period: nat)
    decreases |events|
  {
    events == [] || (Happens(c, events[0], period) && History(After(c, events[0], period), events[1..], period))
  }

  ghost function End(c: Clocked, events: seq<Event>, period: nat): Clocked
    requires History(c, events, period)
    decreases |events|
  {
    if events == [] then c else End(After(c, events[0], period), events[1..], period)
  }

  /** Stranded in a campaign that is still sending. */
  predicate StrandedNow(s: State, id: nat) {
    Stranded(s, id) && s.rows[id].campaign.value in SendingCampaigns(s)
  }

  /** The row is stranded at every moment of the stretch. */
  ghost predicate StrandedThroughout(c: Clocked, events: seq<Event>, period: nat, id: nat)
    requires History(c, events, period)
    decreases |events|
  {
    StrandedNow(c.s, id) && (events == [] || StrandedThroughout(After(c, events[0], period), events[1..], period, id))
  }

  /** What a due sweep finds fits into its batch. */
  ghost predicate FitsBatch(c: Clocked, e: Event) {
    e.Tick? && DueAt(c) ==> |Aged(c.s, SweptCampaigns(c.s))| <= STALE_SWEEP_BATCH
  }

  /** ... at every due sweep of the stretch. */
  ghost predicate BatchesHold(c: Clocked, events: seq<Event>, period: nat)
    requires History(c, events, period)
    decreases |events|
  {
    events == [] || (FitsBatch(c, events[0]) && BatchesHold(After(c, events[0], period), events[1..], period))
  }

  lemma StrandedIsSwept(s: State, id: nat)
    requires StrandedNow(s, id)
    ensures id in StrandedIn(s, SweptCampaigns(s))
  {
    assert s.rows[id].campaign.value in SweptCampaigns(s);
  }

  /** A due sweep that fits its batch leaves no row stranded; those it recovers are pending or sent, without a job. */
  lemma DueSweepClears(c: Clocked, picked: seq<nat>, period: nat)
    requires Happens(c, Tick(picked), period) && DueAt(c) && |Aged(c.s, SweptCampaigns(c.s))| <= STALE_SWEEP_BATCH
    ensures var s' := After(c, Tick(picked), period).s;
      && (forall id :: !StrandedNow(s', id))
      && (forall id :: StrandedNow(c.s, id) ==>
            id in s'.rows && id !in s'.jobs && s'.rows[id].status == if id in c.s.delivered then Sent else Pending)
  {
    WholeBatch(c.s, SweptCampaigns(c.s), picked);
    var s' := After(c, Tick(picked), period).s;
    forall id | StrandedNow(c.s, id)
      ensures id in s'.rows && id !in s'.jobs && s'.rows[id].status == if id in c.s.delivered then Sent else Pending
    {
      StrandedIsSwept(c.s, id);
    }
    forall id ensures !StrandedNow(s', id) {
      if StrandedNow(s', id) { SweptKeepsOthers(c.s, Visited(c.s, picked), id); }
    }
  }

  /** A row stranded after a sweep was stranded before, and not visited. */
  lemma SweptKeepsOthers(s: State, ids: set<nat>, id: nat)
    requires StrandedNow(Swept(s, ids), id)
    ensures id !in ids && StrandedNow(s, id)
  {
  }

  ghost predicate ClocksRight(c: Clocked, period: nat) {
    c.lastSweep <= c.s.now && c.lastTick <= c.s.now <= c.lastTick + period
  }

  lemma ClockMoves(s: State, step: Step)
    requires Enabled(s, step)
    ensures Apply(s, step).now == if step.Admin? && step.admin.Advance? then s.now + step.admin.dt else s.now
  {
    match step
    case Admin(_) =>
    case Table(t) => TableKeepsTime(s, t);
    case Work(id, w) => WorkKeepsTime(s, id, w);
  }

  lemma TableKeepsTime(s: State, step: TableStep)
    requires EnabledTable(s, step)
    ensures ApplyTable(s, step).now == s.now
  {
    PF.TableLogsNothing(s, step);
  }

  lemma WorkKeepsTime(s: State, id: nat, step: WorkerStep)
    requires EnabledWork(s, id, step)
    ensures ApplyWork(s, id, step).now == s.now
  {
    if step.Settle? { PF.FailedLogsNothing(s, id, step.refundWritten); } else { PF.WorkLogsNothing(s, id, step); }
  }

  lemma ClocksStayRight(c: Clocked, e: Event, period: nat)
    requires ClocksRight(c, period) && Happens(c, e, period)
    ensures ClocksRight(After(c, e, period), period)
  {
    if e.Other? { ClockMoves(c.s, e.step); }
  }

  /**
   * A row stranded throughout a stretch whose sweeps fit their batches saw no due sweep in
   * it: the clock is still within a period of the moment the next one falls due.
   */
  lemma {:induction false} NoSweepWentBy(c: Clocked, events: seq<Event>, period: nat, id: nat, due: nat)
    requires ClocksRight(c, period) && History(c, events, period)
    requires StrandedThroughout(c, events, period, id) && BatchesHold(c, events, period)
    requires c.lastSweep + STALE_SWEEP_INTERVAL_MS <= due && c.lastTick <= due
    ensures End(c, events, period).s.now <= due + period
    decreases |events|
  {
    if events != [] {
      var next := After(c, events[0], period);
      ClocksStayRight(c, events[0], period);
      assert StrandedNow(next.s, id);
      if events[0].Tick? {
        StrandedIsSwept(c.s, id);
        if DueAt(c) { DueSweepClears(c, events[0].picked, period); }
      }
      NoSweepWentBy(next, events[1..], period, id, due);
    }
  }

  /**
   * Main result: while due sweeps fit their batches, no row of a sending campaign stays
   * stranded for longer than the sweep interval and one tick period, whatever else happens.
   */
  lemma NoRowStaysStranded(c: Clocked, events: seq<Event>, period: nat, id: nat)
    requires ClocksRight(c, period) && History(c, events, period)
    requires StrandedThroughout(c, events, period, id) && BatchesHold(c, events, period)
    ensures End(c, events, period).s.now <= c.s.now + 60_000 + period
  {
    NoSweepWentBy(c, events, period, id, c.s.now + STALE_SWEEP_INTERVAL_MS);
  }

  // ---------------------------------------------------------------------------
  // The scheduler's ticks are such events
  // ---------------------------------------------------------------------------

  function AsEvents(steps: seq<Step>): seq<Event> { seq(|steps|, k requires 0 <= k < |steps| => Other(steps[k])) }

  /** Steps that do not move the clock happen between two ticks. */
  lemma {:induction false} StepsHappen(c: Clocked, steps: seq<Step>, period: nat)
    requires Runs(c.s, steps) && forall k :: 0 <= k < |steps| ==> TS.TickStep(steps[k])
    ensures History(c, AsEvents(steps), period) && End(c, AsEvents(steps), period) == c.(s := Exec(c.s, steps))
    decreases |steps|
  {
    if steps != [] {
      StepsHappen(c.(s := Apply(c.s, steps[0])), steps[1..], period);
      assert AsEvents(steps)[1..] == AsEvents(steps[1..]);
    }
  }

  /**
   * A whole tick, as the scheduler is proved to run it, is one sweeping event followed by
   * steps: what is said of histories holds of the scheduler's.
   */
  lemma TickIsASweepAndSteps(c: Clocked, picked: seq<nat>, issued: set<nat>, period: nat) returns (events: seq<Event>)
    requires Happens(c, Tick(picked), period)
    requires Allocation(Reconciled(c.s, DueAt(c), picked), Eligible(c.s), issued)
    ensures issued <= Reconciled(c.s, DueAt(c), picked).rows.Keys
    ensures |events| > 0 && events[0] == Tick(picked) && forall k :: 0 < k < |events| ==> events[k].Other?
    ensures History(c, events, period)
    ensures End(c, events, period) == Clocked(Granted(Reconciled(c.s, DueAt(c), picked), issued),
                                              if DueAt(c) then c.s.now else c.lastSweep, c.s.now)
  {
    var due := DueAt(c);
    TS.RestOfTickRuns(c.s, due, picked, issued);
    var end := Granted(Reconciled(c.s, due, picked), issued);
    var steps :| TS.TickRun(Swept1(c.s, due, picked), steps, end);
    var mid := After(c, Tick(picked), period);
    StepsHappen(mid, steps, period);
    events := [Tick(picked)] + AsEvents(steps);
    assert events[1..] == AsEvents(steps);
  }

  /** How many events of the history are sweeps that ran. */
  ghost function Sweeps(c: Clocked, events: seq<Event>, period: nat): nat
    requires History(c, events, period)
    decreases |events|
  {
    if events == [] then 0
    else
      (if events[0].Tick? && DueAt(c) then 1 else 0) + Sweeps(After(c, events[0], period), events[1..], period)
  }

  /** At most one sweep a minute. */
  lemma {:induction false} SweepsAMinuteApart(c: Clocked, events: seq<Event>, period: nat)
    requires ClocksRight(c, period) && History(c, events, period)
    ensures c.lastSweep + Sweeps(c, events, period) * 60_000 <= End(c, events, period).s.now
    decreases |events|
  {
    if events != [] {
      ClocksStayRight(c, events[0], period);
      SweepsAMinuteApart(After(c, events[0], period), events[1..], period);
    }
  }

  // ---------------------------------------------------------------------------
  // A configuration under which batches always hold
  // ---------------------------------------------------------------------------

  /** Campaign rows queued on one of the channels. */
  function QueuedOnAny(s: State, channels: set<nat>): set<nat> {
    set i | i in s.rows && s.rows[i].campaign.Some? && s.rows[i].status == Queued && s.rows[i].channel in channels
  }

  lemma {:induction false} DepthsAddUp(s: State, channels: set<nat>, depth: nat)
    requires forall ch :: ch in channels ==> |QueuedOn(s, ch)| <= depth
    ensures |QueuedOnAny(s, channels)| <= |channels| * depth
    decreases |channels|
  {
    if channels == {} {
      assert QueuedOnAny(s, {}) == {};
    } else {
      var ch :| ch in channels;
      DepthsAddUp(s, channels - {ch}, depth);
      OneMoreDepth(s, channels, ch);
      OneMoreTimes(|channels|, depth);
    }
  }

  lemma OneMoreTimes(n: nat, depth: nat)
    requires n > 0
    ensures n * depth == (n - 1) * depth + depth
  {
  }

  lemma OneMoreDepth(s: State, channels: set<nat>, ch: nat)
    requires ch in channels
    ensures |QueuedOnAny(s, channels)| <= |QueuedOnAny(s, channels - {ch})| + |QueuedOn(s, ch)|
    ensures |channels - {ch}| == |channels| - 1
  {
    assert QueuedOnAny(s, channels) == QueuedOnAny(s, channels - {ch}) + QueuedOn(s, ch);
  }

  lemma AgedAreQueued(s: State, campaigns: set<nat>)
    requires W.Inv(s)
    ensures |Aged(s, campaigns)| <= |s.cfg.limits.Keys| * s.cfg.maxInflight
  {
    var channels := s.cfg.limits.Keys;
    DepthsAddUp(s, channels, s.cfg.maxInflight);
    forall i | i in Aged(s, campaigns) ensures i in QueuedOnAny(s, channels) {
      assert i in QueuedOn(s, s.rows[i].channel);
    }
    SubsetSize(Aged(s, campaigns), QueuedOnAny(s, channels));
  }

  ghost predicate CoarseEvents(events: seq<Event>) {
    forall k :: 0 <= k < |events| && events[k].Other? ==> F.Coarse(events[k].step)
  }

  lemma EventKeepsInv(c: Clocked, e: Event, period: nat)
    requires W.Inv(c.s) && Happens(c, e, period) && (e.Other? ==> F.Coarse(e.step))
    ensures W.Inv(After(c, e, period).s) && After(c, e, period).s.cfg == c.s.cfg
  {
    match e
    case Other(step) =>
      W.StepInv(c.s, step);
      W.StepKeepsConfig(c.s, step);
    case Tick(picked) =>
      if DueAt(c) {
        assert forall i :: i in picked ==> i in Members(picked);
        var steps := SweepRuns(c.s, Visited(c.s, picked));
        W.RunInv(c.s, steps);
      }
  }

  /** All channels together cannot queue more rows than one batch holds: sweeps never miss a row. */
  lemma {:induction false} SmallQueuesFit(c: Clocked, events: seq<Event>, period: nat)
    requires W.Inv(c.s) && |c.s.cfg.limits.Keys| * c.s.cfg.maxInflight <= 500
    requires History(c, events, period) && CoarseEvents(events)
    ensures BatchesHold(c, events, period)
    decreases |events|
  {
    if events != [] {
      AgedAreQueued(c.s, SweptCampaigns(c.s));
      EventKeepsInv(c, events[0], period);
      assert CoarseEvents(events[1..]) by {
        forall k | 0 <= k < |events[1..]| && events[1..][k].Other? ensures F.Coarse(events[1..][k].step) {
          assert events[k + 1] == events[1..][k];
        }
      }
      SmallQueuesFit(After(c, events[0], period), events[1..], period);
    }
  }

  // ---------------------------------------------------------------------------
  // A row passed over for ever
  // ---------------------------------------------------------------------------

  const STALE_QUEUED_MS := 900_000
  const MAX_INFLIGHT_PER_CHANNEL := 2_000

  /** The default limits, one busy channel, one campaign being dispatched. */
  function Empty(dispatchers: nat): State {
    State(
      Config(map[0 := SW.Quota(10_000, 10_000, 10_000, 10_000)], MAX_INFLIGHT_PER_CHANNEL, STALE_QUEUED_MS), 0,
      map[], map[], map[0 := Campaign(0, Sending, 0, dispatchers)],
      map[0 := 9], map[0 := 9], [], [], {}, [], 0)
  }

  function Below(n: nat): (r: set<nat>)
    ensures |r| == n && forall i: nat :: i in r <==> i < n
  {
    if n == 0 then {} else Below(n - 1) + {n - 1}
  }

  function RowAs(status: RowStatus): Row { Row(Some(0), 0, 0, 0, status, None, 0) }

  /** The first `n` rows, all in this status. */
  function RowsBelow(n: nat, status: RowStatus): map<nat, Row> { map i | i in Below(n) :: RowAs(status) }

  function JobsBelow(n: nat): map<nat, Job> { map i | i in Below(n) :: Job(0, Waiting) }

  function Inserted(n: nat): State { Empty(1).(rows := RowsBelow(n, Pending)) }

  /** `n` rows are queued, the first `jobs` of them with their jobs. */
  function Crowded(n: nat, jobs: nat, now: nat): State {
    Empty(1).(rows := RowsBelow(n, Queued), jobs := JobsBelow(jobs), now := now)
  }

  lemma EmptyReached()
    ensures Reached(Empty(1))
  {
    InitialReached(Empty(0));
    StepReached(Empty(0), Admin(DispatchStart(0)));
    assert ApplyAdmin(Empty(0), DispatchStart(0)) == Empty(1);
  }

  lemma {:induction false} InsertedReached(n: nat)
    ensures Reached(Inserted(n))
  {
    if n == 0 {
      NoneInserted();
    } else {
      InsertedReached(n - 1);
      OneMoreInserted(n - 1);
    }
  }

  lemma NoneInserted()
    ensures Reached(Inserted(0))
  {
    EmptyReached();
    assert Inserted(0) == Empty(1);
  }

  lemma OneMoreInserted(n: nat)
    requires Reached(Inserted(n))
    ensures Reached(Inserted(n + 1))
  {
    InsertNext(n);
    ThenReached(Inserted(n), Insert(n, 0, 0, 0), Inserted(n + 1));
  }

  lemma ThenReached(s: State, step: TableStep, e: State)
    requires Reached(s) && EnabledTable(s, step) && ApplyTable(s, step) == e
    ensures Reached(e)
  {
    StepReached(s, Table(step));
  }

  lemma InsertNext(n: nat)
    ensures EnabledTable(Inserted(n), Insert(n, 0, 0, 0)) && ApplyTable(Inserted(n), Insert(n, 0, 0, 0)) == Inserted(n + 1)
  {
    assert RowsBelow(n, Pending)[n := RowAs(Pending)] == RowsBelow(n + 1, Pending);
  }

  /** An idle channel has room for up to 2,000 rows at once. */
  lemma RoomForAll(n: nat)
    requires n <= MAX_INFLIGHT_PER_CHANNEL
    ensures CanPick(Inserted(n), 0, Below(n))
  {
    var s := Inserted(n);
    assert QueuedOn(s, 0) == {};
    assert Times(s.log, 0) == [];
  }

  lemma IssueQueuesAll(n: nat)
    ensures SetStatuses(AddJobs(Inserted(n), 0, Below(n)), Below(n), Queued) == Crowded(n, n, 0)
  {
    RowsQueued(n);
    JobsAdded(n);
  }

  lemma RowsQueued(n: nat)
    ensures SetStatuses(AddJobs(Inserted(n), 0, Below(n)), Below(n), Queued).rows == RowsBelow(n, Queued)
  {
  }

  lemma JobsAdded(n: nat)
    ensures AddJobs(Inserted(n), 0, Below(n)).jobs == JobsBelow(n)
  {
  }

  lemma CrowdIssued(n: nat)
    requires n <= MAX_INFLIGHT_PER_CHANNEL
    ensures Reached(Crowded(n, n, 0))
  {
    InsertedReached(n);
    RoomForAll(n);
    StepReached(Inserted(n), Table(Issue(0, Below(n))));
    IssueQueuesAll(n);
  }

  lemma LastJobLost(n: nat)
    requires n < MAX_INFLIGHT_PER_CHANNEL
    ensures Reached(Crowded(n + 1, n, 0))
  {
    CrowdIssued(n + 1);
    StepReached(Crowded(n + 1, n + 1, 0), Work(n, Lose));
    assert JobsBelow(n + 1) - {n} == JobsBelow(n);
  }

  /** The last row's job is lost and everything grows old: a state the pipeline reaches. */
  lemma CrowdReached(n: nat, now: nat)
    requires n < MAX_INFLIGHT_PER_CHANNEL
    ensures Reached(Crowded(n + 1, n, now))
  {
    LastJobLost(n);
    StepReached(Crowded(n + 1, n, 0), Admin(Advance(now)));
  }

  /** In the crowd the last row is stranded. */
  lemma LastIsStranded(n: nat, now: nat)
    requires now > STALE_QUEUED_MS
    ensures var s := Crowded(n + 1, n, now); StrandedNow(s, n) && SweptCampaigns(s) == {0} && Aged(s, {0}) == Below(n + 1)
  {
    var s := Crowded(n + 1, n, now);
    assert StrandedNow(s, n);
    StrandedIsSwept(s, n);
  }

  /** A batch of rows with live jobs misses it, and changes nothing. */
  lemma SweepMisses(n: nat, now: nat) returns (picked: seq<nat>)
    requires n >= STALE_SWEEP_BATCH && now > STALE_QUEUED_MS
    ensures var s := Crowded(n + 1, n, now);
      QueryReturns(s, SweptCampaigns(s), picked) && Swept(s, Visited(s, picked)) == s
  {
    var s := Crowded(n + 1, n, now);
    LastIsStranded(n, now);
    picked := Batch(Below(n), STALE_SWEEP_BATCH);
    assert forall i :: i in picked ==> i in Members(picked);
    assert Visited(s, picked) == {};
    SweptNone(s);
  }

  /** The crowd, just swept. */
  function CrowdAt(n: nat, now: nat): Clocked { Clocked(Crowded(n + 1, n, now), now, now) }

  /** These events lead from one moment to the other, the row stranded all along. */
  ghost predicate Stretch(c: Clocked, events: seq<Event>, period: nat, id: nat, end: Clocked) {
    History(c, events, period) && StrandedThroughout(c, events, period, id) && End(c, events, period) == end
  }

  /** A minute passes, and the due sweep of the next tick looks at live rows only. */
  lemma AnotherMinute(n: nat, now: nat) returns (events: seq<Event>)
    requires n >= STALE_SWEEP_BATCH && now > STALE_QUEUED_MS
    ensures |events| == 2 && events[1].Tick?
    ensures Stretch(CrowdAt(n, now), events, STALE_SWEEP_INTERVAL_MS, n, CrowdAt(n, now + STALE_SWEEP_INTERVAL_MS))
  {
    var later := now + STALE_SWEEP_INTERVAL_MS;
    var picked := SweepMisses(n, later);
    LastIsStranded(n, now);
    LastIsStranded(n, later);
    var waited := Clocked(Crowded(n + 1, n, later), now, now);
    events := [Other(Admin(Advance(STALE_SWEEP_INTERVAL_MS))), Tick(picked)];
    assert After(CrowdAt(n, now), events[0], STALE_SWEEP_INTERVAL_MS) == waited;
    SweptAgain(n, now, picked);
    assert events[1..] == [Tick(picked)];
  }

  lemma SweptAgain(n: nat, now: nat, picked: seq<nat>)
    requires n >= STALE_SWEEP_BATCH && now > STALE_QUEUED_MS
    requires var s := Crowded(n + 1, n, now + STALE_SWEEP_INTERVAL_MS);
      QueryReturns(s, SweptCampaigns(s), picked) && Swept(s, Visited(s, picked)) == s
    ensures var waited := Clocked(Crowded(n + 1, n, now + STALE_SWEEP_INTERVAL_MS), now, now);
      && DueAt(waited)
      && Stretch(waited, [Tick(picked)], STALE_SWEEP_INTERVAL_MS, n, CrowdAt(n, now + STALE_SWEEP_INTERVAL_MS))
  {
    var later := now + STALE_SWEEP_INTERVAL_MS;
    LastIsStranded(n, later);
    assert [Tick(picked)][1..] == [];
    assert History(CrowdAt(n, later), [], STALE_SWEEP_INTERVAL_MS);
  }

  lemma {:induction false} Concat(c: Clocked, mid: Clocked, end: Clocked, a: seq<Event>, b: seq<Event>, period: nat, id: nat)
    requires Stretch(c, a, period, id, mid) && Stretch(mid, b, period, id, end)
    ensures Stretch(c, a + b, period, id, end)
    decreases |a|
  {
    if a == [] {
      assert a + b == b;
    } else {
      Concat(After(c, a[0], period), mid, end, a[1..], b, period, id);
      OneEarlier(c, a[0], a[1..] + b, period, id, end);
      assert [a[0]] + (a[1..] + b) == a + b;
    }
  }

  lemma OneEarlier(c: Clocked, e: Event, rest: seq<Event>, period: nat, id: nat, end: Clocked)
    requires Happens(c, e, period) && StrandedNow(c.s, id) && Stretch(After(c, e, period), rest, period, id, end)
    ensures Stretch(c, [e] + rest, period, id, end)
  {
    assert ([e] + rest)[1..] == rest;
  }

  /** Some events lead from one moment to the other, the row stranded all along. */
  ghost predicate Stays(c: Clocked, end: Clocked, period: nat, id: nat) {
    exists events :: Stretch(c, events, period, id, end)
  }

  lemma StaysOn(c: Clocked, mid: Clocked, end: Clocked, period: nat, id: nat)
    requires Stays(c, mid, period, id) && Stays(mid, end, period, id)
    ensures Stays(c, end, period, id)
  {
    var a :| Stretch(c, a, period, id, mid);
    var b :| Stretch(mid, b, period, id, end);
    Concat(c, mid, end, a, b, period, id);
  }

  /** From one minute to another the last row of the crowd is stranded all along. */
  ghost predicate FromTo(n: nat, now: nat, a: nat, b: nat) {
    Stays(CrowdAt(n, now + a * STALE_SWEEP_INTERVAL_MS), CrowdAt(n, now + b * STALE_SWEEP_INTERVAL_MS), STALE_SWEEP_INTERVAL_MS, n)
  }

  lemma ThisMinute(n: nat, now: nat, a: nat)
    requires n >= STALE_SWEEP_BATCH && now > STALE_QUEUED_MS
    ensures FromTo(n, now, a, a)
  {
    var c := CrowdAt(n, now + a * STALE_SWEEP_INTERVAL_MS);
    LastIsStranded(n, now + a * STALE_SWEEP_INTERVAL_MS);
    assert Stretch(c, [], STALE_SWEEP_INTERVAL_MS, n, c);
  }

  lemma NextMinute(n: nat, now: nat, a: nat)
    requires n >= STALE_SWEEP_BATCH && now > STALE_QUEUED_MS
    ensures FromTo(n, now, a, a + 1)
  {
    var _ := AnotherMinute(n, now + a * STALE_SWEEP_INTERVAL_MS);
  }

  lemma MinutesJoin(n: nat, now: nat, a: nat, b: nat, c: nat)
    requires FromTo(n, now, a, b) && FromTo(n, now, b, c)
    ensures FromTo(n, now, a, c)
  {
    StaysOn(CrowdAt(n, now + a * STALE_SWEEP_INTERVAL_MS), CrowdAt(n, now + b * STALE_SWEEP_INTERVAL_MS),
      CrowdAt(n, now + c * STALE_SWEEP_INTERVAL_MS), STALE_SWEEP_INTERVAL_MS, n);
  }

  lemma {:induction false} MinutesStay(n: nat, now: nat, minutes: nat)
    requires n >= STALE_SWEEP_BATCH && now > STALE_QUEUED_MS
    ensures FromTo(n, now, 0, minutes)
  {
    if minutes == 0 {
      ThisMinute(n, now, 0);
    } else {
      MinutesStay(n, now, minutes - 1);
      NextMinute(n, now, minutes - 1);
      MinutesJoin(n, now, 0, minutes - 1, minutes);
    }
  }

  /**
   * Without the condition on the batch a row can stay stranded for any number of minutes,
   * with a sweep due in each: 500 queued rows with live jobs, as many as one batch holds,
   * are enough, a quarter of what one channel may have in flight.
   */
  lemma PassedOverForEver(n: nat, now: nat, minutes: nat)
    requires STALE_SWEEP_BATCH <= n < MAX_INFLIGHT_PER_CHANNEL && now > STALE_QUEUED_MS
    ensures Reached(CrowdAt(n, now).s) && ClocksRight(CrowdAt(n, now), STALE_SWEEP_INTERVAL_MS)
    ensures FromTo(n, now, 0, minutes)
  {
    CrowdReached(n, now);
    MinutesStay(n, now, minutes);
  }
}
