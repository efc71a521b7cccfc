/**
 * Closing a campaign. Every write that closes one leaves it without pending or queued
 * rows. It stays that way exactly when no dispatch job is still inserting rows for it,
 * provided the tick's enqueue and mark are one step; the two counterexamples at the end
 * show what happens otherwise.
 */
module Finalisation {
  import opened Common
  import opened QuotaRefund
  import opened Pipeline
  import opened PipelineFrames
  import SW = SlidingWindow

  predicate IsClosed(s: State, c: nat) { c in s.campaigns && s.campaigns[c].status == Closed }

  /** Closed, no dispatcher left, nothing to send. */
  ghost predicate Settled(s: State, c: nat) {
    IsClosed(s, c) && s.campaigns[c].dispatchers == 0 && ActiveRows(s, c) == {}
  }

  /** The tick publishes and marks in one step. */
  predicate Coarse(step: Step) {
    !(step.Table? && (step.table.Enqueue? || step.table.Mark?))
  }

  // ---------------------------------------------------------------------------
  // Every closing write drains the campaign
  // ---------------------------------------------------------------------------

  lemma FailRowCloses(s: State, id: nat, c: nat)
    requires id in s.rows && !IsClosed(s, c) && IsClosed(FailRow(s, id), c)
    ensures ActiveRows(FailRow(s, id), c) == {}
  {
  }

  lemma FailCampaignCloses(s: State, id: nat, c: nat)
    requires id in s.rows && !IsClosed(s, c) && IsClosed(FailCampaign(s, id), c)
    ensures ActiveRows(FailCampaign(s, id), c) == {}
  {
  }

  lemma CheckCloses(s: State, id: nat, o: Outcome, c: nat)
    requires id in s.rows && id in s.jobs
    requires !IsClosed(s, c) && IsClosed(ApplyOutcome(s, id, o), c)
    ensures ActiveRows(ApplyOutcome(s, id, o), c) == {}
  {
  }

  lemma WorkCloses(s: State, id: nat, step: WorkerStep, c: nat)
    requires EnabledWork(s, id, step)
    requires !IsClosed(s, c) && IsClosed(ApplyWork(s, id, step), c)
    ensures ActiveRows(ApplyWork(s, id, step), c) == {}
  {
    match step
    case Check(v) => CheckCloses(s, id, CheckOutcome(s, id, v), c);
    case Reserve => FailCampaignCloses(SetPhase(s, id, Done(true)), id, c);
    case Settle(written) =>
      var p := s.jobs[id].phase;
      FailRowCloses(Closing(s, id, written), id, c);
    case _ =>
  }

  lemma AdminCloses(s: State, step: AdminStep, c: nat)
    requires EnabledAdmin(s, step)
    requires !IsClosed(s, c) && IsClosed(ApplyAdmin(s, step), c)
    ensures ActiveRows(ApplyAdmin(s, step), c) == {}
  {
  }

  lemma TableCloses(s: State, step: TableStep, c: nat)
    requires EnabledTable(s, step)
    requires !IsClosed(s, c) && IsClosed(ApplyTable(s, step), c)
    ensures ActiveRows(ApplyTable(s, step), c) == {}
  {
  }

  /** All paths: drained sweep, exhausted quota, per-failure finalise, empty audience. */
  lemma ClosingDrains(s: State, step: Step, c: nat)
    requires Enabled(s, step)
    requires !IsClosed(s, c) && IsClosed(Apply(s, step), c)
    ensures ActiveRows(Apply(s, step), c) == {}
  {
    match step
    case Admin(a) => AdminCloses(s, a, c);
    case Table(t) => TableCloses(s, t, c);
    case Work(id, w) => WorkCloses(s, id, w, c);
  }

  // ---------------------------------------------------------------------------
  // A settled campaign stays settled
  // ---------------------------------------------------------------------------

  lemma AdminKeepsSettled(s: State, step: AdminStep, c: nat)
    requires EnabledAdmin(s, step) && Settled(s, c)
    ensures Settled(ApplyAdmin(s, step), c)
  {
  }

  lemma NotActive(s: State, c: nat, i: nat)
    requires ActiveRows(s, c) == {} && i in s.rows && s.rows[i].campaign == Some(c)
    ensures Terminal(s.rows[i].status)
  {
    assert i !in ActiveRows(s, c);
  }

  lemma IssueKeepsSettled(s: State, channel: nat, ids: set<nat>, c: nat)
    requires EnabledTable(s, Issue(channel, ids)) && Settled(s, c)
    ensures Settled(ApplyTable(s, Issue(channel, ids)), c)
  {
    var s' := ApplyTable(s, Issue(channel, ids));
    forall i | i in s'.rows && s'.rows[i].campaign == Some(c) ensures Terminal(s'.rows[i].status) {
      NotActive(s, c, i);
      assert i !in ids;
    }
  }

  lemma TableKeepsSettled(s: State, step: TableStep, c: nat)
    requires EnabledTable(s, step) && Coarse(Table(step)) && Settled(s, c)
    ensures Settled(ApplyTable(s, step), c)
  {
    if step.Issue? {
      IssueKeepsSettled(s, step.channel, step.ids, c);
    } else {
      var s' := ApplyTable(s, step);
      forall i | i in s'.rows && s'.rows[i].campaign == Some(c) ensures Terminal(s'.rows[i].status) {
        assert i in s.rows;
        NotActive(s, c, i);
      }
    }
  }

  lemma FailRowKeeps(s: State, id: nat, c: nat)
    requires id in s.rows && Settled(s, c)
    ensures Settled(FailRow(s, id), c)
  {
  }

  lemma FailCampaignKeeps(s: State, id: nat, c: nat)
    requires id in s.rows && Settled(s, c)
    ensures Settled(FailCampaign(s, id), c)
  {
  }

  /** Phases and books aside, a state settles a campaign when another with the same rows does. */
  lemma SettledDependsOn(s: State, s': State, c: nat)
    requires Settled(s, c) && s'.rows == s.rows && s'.campaigns == s.campaigns
    ensures Settled(s', c)
  {
  }

  lemma CheckKeepsSettled(s: State, id: nat, v: Verdict, c: nat)
    requires EnabledWork(s, id, Check(v)) && Settled(s, c)
    ensures Settled(ApplyWork(s, id, Check(v)), c)
  {
    var o := CheckOutcome(s, id, v);
    var s' := ApplyOutcome(s, id, o);
    match o
    case Fail(throws) =>
      SettledDependsOn(s, SetPhase(s, id, Done(!throws)), c);
      FailRowKeeps(SetPhase(s, id, Done(!throws)), id, c);
    case FailAll =>
      SettledDependsOn(s, SetPhase(s, id, Done(true)), c);
      FailCampaignKeeps(SetPhase(s, id, Done(true)), id, c);
    case _ =>
      forall i | i in s'.rows && s'.rows[i].campaign == Some(c) ensures Terminal(s'.rows[i].status) {
        NotActive(s, c, i);
      }
  }

  lemma SettleKeepsSettled(s: State, id: nat, written: bool, c: nat)
    requires EnabledWork(s, id, Settle(written)) && Settled(s, c)
    ensures Settled(ApplyWork(s, id, Settle(written)), c)
  {
    var p := s.jobs[id].phase;
    if p.answer.accepted || p.answer.duplicate {
      var s' := SettleSent(s, id);
      forall i | i in s'.rows && s'.rows[i].campaign == Some(c) ensures Terminal(s'.rows[i].status) {
        if i != id { NotActive(s, c, i); }
      }
    } else {
      SettledDependsOn(s, Closing(s, id, written), c);
      FailRowKeeps(Closing(s, id, written), id, c);
    }
  }

  lemma PersistKeepsSettled(s: State, id: nat, c: nat)
    requires EnabledWork(s, id, Persist) && Settled(s, c)
    ensures Settled(ApplyWork(s, id, Persist), c)
  {
  }

  lemma WorkKeepsSettled(s: State, id: nat, step: WorkerStep, c: nat)
    requires EnabledWork(s, id, step) && Settled(s, c)
    ensures Settled(ApplyWork(s, id, step), c)
  {
    match step
    case Check(v) => CheckKeepsSettled(s, id, v, c);
    case Persist => PersistKeepsSettled(s, id, c);
    case Settle(written) => SettleKeepsSettled(s, id, written, c);
    case Reserve =>
      if UnitsOf(s.quota, s.rows[id].tenant) > 0 {
        SettledDependsOn(s, TakeUnit(s, id), c);
      } else {
        SettledDependsOn(s, SetPhase(s, id, Done(true)), c);
        FailCampaignKeeps(SetPhase(s, id, Done(true)), id, c);
      }
    case _ => SettledDependsOn(s, ApplyWork(s, id, step), c);
  }

  lemma {:induction false} SettledForEver(s: State, steps: seq<Step>, c: nat)
    requires Settled(s, c) && Runs(s, steps) && forall i :: 0 <= i < |steps| ==> Coarse(steps[i])
    ensures Settled(Exec(s, steps), c)
    decreases |steps|
  {
    if steps != [] {
      match steps[0] {
        case Admin(a) => AdminKeepsSettled(s, a, c);
        case Table(t) => TableKeepsSettled(s, t, c);
        case Work(id, w) => WorkKeepsSettled(s, id, w, c);
      }
      SettledForEver(Apply(s, steps[0]), steps[1..], c);
    }
  }

  // ---------------------------------------------------------------------------
  // Exact condition
  // ---------------------------------------------------------------------------

  ghost predicate NothingLeftOpen(s: State, c: nat) {
    forall steps :: Runs(s, steps) && (forall i :: 0 <= i < |steps| ==> Coarse(steps[i])) ==> ActiveRows(Exec(s, steps), c) == {}
  }

  lemma FreshId(ids: set<nat>) returns (id: nat)
    ensures id !in ids
  {
    if ids == {} { return 0; }
    var r := Sorted(ids);
    SortedAscends(ids);
    id := r[|r| - 1] + 1;
    forall x | x in ids ensures x < id {
      assert x in r;
    }
  }

  /**
   * Main result: right after a step closes a campaign it has no open row, and it never gets
   * one again if and only if no dispatch job was still inserting at that moment.
   */
  lemma ClosedForGood(s: State, step: Step, c: nat)
    requires Enabled(s, step)
    requires !IsClosed(s, c) && IsClosed(Apply(s, step), c)
    ensures ActiveRows(Apply(s, step), c) == {}
    ensures NothingLeftOpen(Apply(s, step), c) <==> Apply(s, step).campaigns[c].dispatchers == 0
  {
    ClosingDrains(s, step, c);
    var s' := Apply(s, step);
    if s'.campaigns[c].dispatchers == 0 {
      forall steps | Runs(s', steps) && (forall i :: 0 <= i < |steps| ==> Coarse(steps[i]))
        ensures ActiveRows(Exec(s', steps), c) == {}
      {
        SettledForEver(s', steps, c);
      }
    } else {
      LateInsert(s', c);
    }
  }

  /** A dispatcher that outlives the closing can still add a pending row. */
  lemma LateInsert(s: State, c: nat)
    requires c in s.campaigns && s.campaigns[c].dispatchers > 0
    ensures !NothingLeftOpen(s, c)
  {
    var id := FreshId(s.rows.Keys);
    var step := Table(Insert(id, c, 0, 0));
    assert Runs(s, []) && Exec(s, []) == s;
    RunsExtend(s, [], step);
    var steps := [] + [step];
    assert Coarse(steps[0]);
    assert id in ActiveRows(Exec(s, steps), c);
  }

  /** The separate mark write keeps a settled campaign settled exactly when it names none of its rows. */
  lemma MarkIsSafeIff(s: State, ids: set<nat>, c: nat)
    requires EnabledTable(s, Mark(ids)) && Settled(s, c)
    ensures Settled(ApplyTable(s, Mark(ids)), c) <==> ids * RowsOf(s, c) == {}
  {
  }

  // ---------------------------------------------------------------------------
  // Serial dispatch: the tick's total > 0 guard is the right one
  // ---------------------------------------------------------------------------

  /** A dispatch starts only when none is running for the campaign. */
  ghost predicate SerialDispatch(s: State, step: Step) {
    step.Admin? && step.admin.DispatchStart? && step.admin.campaign in s.campaigns ==>
      s.campaigns[step.admin.campaign].dispatchers == 0
  }

  ghost predicate SerialRun(s: State, steps: seq<Step>)
    requires Runs(s, steps)
    decreases |steps|
  {
    steps == [] || (SerialDispatch(s, steps[0]) && SerialRun(Apply(s, steps[0]), steps[1..]))
  }

  /** A published total means the rows are all there and nobody is inserting. */
  ghost predicate TotalsFinal(s: State) {
    forall c :: c in s.campaigns ==>
      && s.campaigns[c].dispatchers <= 1
      && |RowsOf(s, c)| >= s.campaigns[c].total
      && (s.campaigns[c].total > 0 ==> s.campaigns[c].dispatchers == 0)
  }

  /** Every step keeps the rows, totals and dispatcher counts unless it is a dispatch step. */
  ghost predicate TotalsKept(s: State, s': State) {
    && s.rows.Keys <= s'.rows.Keys
    && (forall i :: i in s.rows ==> s'.rows[i].campaign == s.rows[i].campaign)
    && s'.campaigns.Keys == s.campaigns.Keys
    && (forall c :: c in s.campaigns ==>
          s'.campaigns[c].total == s.campaigns[c].total && s'.campaigns[c].dispatchers == s.campaigns[c].dispatchers)
  }

  lemma TotalsStayFinal(s: State, s': State)
    requires TotalsFinal(s) && TotalsKept(s, s')
    ensures TotalsFinal(s')
  {
    forall c | c in s'.campaigns ensures |RowsOf(s', c)| >= s'.campaigns[c].total {
      SubsetSize(RowsOf(s, c), RowsOf(s', c));
    }
  }

  lemma TableTotals(s: State, step: TableStep)
    requires EnabledTable(s, step)
    ensures TotalsKept(s, ApplyTable(s, step))
  {
    AllTableFrames(s, step);
  }

  lemma WorkTotals(s: State, id: nat, step: WorkerStep)
    requires EnabledWork(s, id, step)
    ensures TotalsKept(s, ApplyWork(s, id, step))
  {
    match step
    case Check(v) => OutcomeTotals(s, id, CheckOutcome(s, id, v));
    case Settle(written) => SettleTotals(s, id, written);
    case Reserve => ReserveTotals(s, id);
    case _ =>
  }

  lemma SettleTotals(s: State, id: nat, written: bool)
    requires EnabledWork(s, id, Settle(written))
    ensures TotalsKept(s, ApplyWork(s, id, Settle(written)))
  {
    var p := s.jobs[id].phase;
    if !p.answer.accepted && !p.answer.duplicate {
      SettleFailedTotals(s, id, written);
    }
  }

  lemma SettleFailedTotals(s: State, id: nat, written: bool)
    requires EnabledWork(s, id, Settle(written))
    ensures TotalsKept(s, SettleFailed(s, id, written))
  {
    ClosingFrame(s, id, written);
    FailRowTotals(Closing(s, id, written), id);
    TotalsDependOn(s, Closing(s, id, written), SettleFailed(s, id, written));
  }

  lemma FailRowTotals(s: State, id: nat)
    requires id in s.rows
    ensures TotalsKept(s, FailRow(s, id))
  {
  }

  lemma TotalsDependOn(s: State, mid: State, s': State)
    requires mid.rows == s.rows && mid.campaigns == s.campaigns && TotalsKept(mid, s')
    ensures TotalsKept(s, s')
  {
  }

  lemma ReserveTotals(s: State, id: nat)
    requires EnabledWork(s, id, Reserve)
    ensures TotalsKept(s, ApplyWork(s, id, Reserve))
  {
  }

  lemma OutcomeTotals(s: State, id: nat, o: Outcome)
    requires id in s.rows && id in s.jobs
    ensures TotalsKept(s, ApplyOutcome(s, id, o))
  {
    OutcomeFrame(s, id, o);
  }

  lemma AdminTotals(s: State, step: AdminStep)
    requires EnabledAdmin(s, step) && TotalsFinal(s) && SerialDispatch(s, Admin(step))
    ensures TotalsFinal(ApplyAdmin(s, step))
  {
  }

  lemma {:induction false} SerialTotals(s: State, steps: seq<Step>)
    requires Runs(s, steps) && SerialRun(s, steps) && TotalsFinal(s)
    ensures TotalsFinal(Exec(s, steps))
    decreases |steps|
  {
    if steps != [] {
      match steps[0] {
        case Admin(a) => AdminTotals(s, a);
        case Table(t) => TableTotals(s, t); TotalsStayFinal(s, ApplyTable(s, t));
        case Work(id, w) => WorkTotals(s, id, w); TotalsStayFinal(s, ApplyWork(s, id, w));
      }
      SerialTotals(Apply(s, steps[0]), steps[1..]);
    }
  }

  /** With serial dispatch a campaign the tick closes stays without open rows for ever. */
  lemma TickClosesForGood(s0: State, before: seq<Step>, c: nat, after: seq<Step>)
    requires Initial(s0) && Runs(s0, before) && SerialRun(s0, before)
    requires var s := Exec(s0, before); EnabledAdmin(s, CloseDrained(c)) && Runs(Apply(s, Admin(CloseDrained(c))), after)
    requires forall i :: 0 <= i < |after| ==> Coarse(after[i])
    ensures Settled(Exec(Apply(Exec(s0, before), Admin(CloseDrained(c))), after), c)
  {
    var s := Exec(s0, before);
    SerialTotals(s0, before);
    ClosingDrains(s, Admin(CloseDrained(c)), c);
    SettledForEver(Apply(s, Admin(CloseDrained(c))), after, c);
  }

  // ---------------------------------------------------------------------------
  // Counterexamples
  // ---------------------------------------------------------------------------

  /** One tenant with units, one active channel, one campaign of status sending. */
  function Start(): State {
    State(
      Config(map[0 := SW.Quota(9, 9, 9, 9)], 9, 0), 0,
      map[], map[], map[0 := Campaign(0, Sending, 0, 0)],
      map[0 := 9], map[0 := 9], [], [], {}, [], 0)
  }

  function FirstRow(status: RowStatus, messageId: Option<nat>): Row { Row(Some(0), 0, 0, 0, status, messageId, 0) }

  lemma Picked(s: State)
    requires s.rows == map[0 := FirstRow(Pending, None)] && s.log == [] && s.cfg == Start().cfg
    ensures CanPick(s, 0, {0})
  {
  }

  function Dispatching(): State { Start().(campaigns := map[0 := Campaign(0, Sending, 0, 1)]) }

  lemma StartReached()
    ensures Reached(Start())
  {
    InitialReached(Start());
  }

  lemma DispatchOpens()
    ensures EnabledAdmin(Start(), DispatchStart(0))
    ensures ApplyAdmin(Start(), DispatchStart(0)) == Dispatching()
  {
  }

  lemma DispatchStarts()
    ensures Reached(Dispatching())
  {
    StartReached();
    DispatchOpens();
    StepReached(Start(), Admin(DispatchStart(0)));
  }

  /** A dispatcher has inserted the first row and is still at work. */
  function OneInserted(): State { Dispatching().(rows := map[0 := FirstRow(Pending, None)]) }

  lemma FirstInsert()
    ensures Reached(OneInserted())
  {
    DispatchStarts();
    StepReached(Dispatching(), Table(Insert(0, 0, 0, 0)));
    assert ApplyTable(Dispatching(), Insert(0, 0, 0, 0)) == OneInserted();
  }

  /** The dispatch has ended with one row. */
  lemma DispatchOne() returns (s: State)
    ensures Reached(s)
    ensures s == Start().(rows := map[0 := FirstRow(Pending, None)], campaigns := map[0 := Campaign(0, Sending, 1, 0)])
  {
    FirstInsert();
    var s0 := OneInserted();
    assert RowsOf(s0, 0) == {0};
    StepReached(s0, Admin(DispatchEnd(0)));
    s := ApplyAdmin(s0, DispatchEnd(0));
  }

  /** One row, still marked pending, whose job is in the given phase. */
  function Unmarked(phase: Phase): State {
    Start().(
      rows := map[0 := FirstRow(Pending, None)],
      jobs := map[0 := Job(0, phase)],
      campaigns := map[0 := Campaign(0, Sending, 1, 0)])
  }

  /** Publishing leaves the row as it is. */
  lemma EnqueueLeavesRow(s: State)
    requires s == Unmarked(Waiting).(jobs := map[])
    ensures EnabledTable(s, Enqueue(0, {0})) && ApplyTable(s, Enqueue(0, {0})) == Unmarked(Waiting)
  {
    Picked(s);
  }

  /** The tick has published the row's job but not marked the row. */
  lemma EnqueuedNotMarked()
    ensures Reached(Unmarked(Waiting))
  {
    var s0 := DispatchOne();
    EnqueueLeavesRow(s0);
    StepReached(s0, Table(Enqueue(0, {0})));
  }

  lemma UnmarkedPasses()
    ensures EnabledWork(Unmarked(Waiting), 0, Check(Proceed))
    ensures ApplyWork(Unmarked(Waiting), 0, Check(Proceed)) == Unmarked(Checked(None))
  {
    assert CheckOutcome(Unmarked(Waiting), 0, Proceed) == Pass;
    assert ApplyOutcome(Unmarked(Waiting), 0, Pass) == Unmarked(Checked(None));
  }

  lemma CheckedBeforeMark()
    ensures Reached(Unmarked(Checked(None)))
  {
    EnqueuedNotMarked();
    UnmarkedPasses();
    StepReached(Unmarked(Waiting), Work(0, Check(Proceed)));
  }

  lemma ReservedBeforeMark() returns (s: State)
    ensures Reached(s)
    ensures s.rows == map[0 := FirstRow(Pending, None)] && s.jobs == map[0 := Job(0, Reserved(None, 0))]
    ensures s.campaigns == map[0 := Campaign(0, Sending, 1, 0)]
    ensures |s.attempts| == 1 && s.accepted == [] && s.now == 0 && s.nextOp == 0
  {
    CheckedBeforeMark();
    var s0 := Unmarked(Checked(None));
    StepReached(s0, Work(0, Reserve));
    s := TakeUnit(s0, 0);
  }

  lemma PersistedBeforeMark() returns (s: State)
    ensures Reached(s)
    ensures s.rows == map[0 := FirstRow(Pending, Some(0))] && s.jobs == map[0 := Job(0, Persisted(0, 0))]
    ensures s.campaigns == map[0 := Campaign(0, Sending, 1, 0)]
    ensures |s.attempts| == 1 && s.accepted == [] && s.now == 0
  {
    var s0 := ReservedBeforeMark();
    StepReached(s0, Work(0, Persist));
    s := FixId(s0, 0);
  }

  lemma AnsweredBeforeMark() returns (s: State)
    ensures Reached(s)
    ensures s.rows == map[0 := FirstRow(Pending, Some(0))]
    ensures s.jobs == map[0 := Job(0, Answered(0, 0, Answer(true, false, false)))]
    ensures s.campaigns == map[0 := Campaign(0, Sending, 1, 0)] && |s.attempts| == 1 && s.now == 0
  {
    var s0 := PersistedBeforeMark();
    var ok := Answer(true, false, false);
    StepReached(s0, Work(0, Call(ok, true)));
    s := Hear(s0, 0, ok, true);
  }

  lemma LoggedBeforeMark() returns (s: State)
    ensures Reached(s)
    ensures s.rows == map[0 := FirstRow(Pending, Some(0))]
    ensures s.jobs == map[0 := Job(0, Logged(0, 0, Answer(true, false, false)))]
    ensures s.campaigns == map[0 := Campaign(0, Sending, 1, 0)] && |s.attempts| == 1 && s.now == 0
  {
    var s0 := AnsweredBeforeMark();
    StepReached(s0, Work(0, WriteLog(true)));
    s := ApplyWork(s0, 0, WriteLog(true));
  }

  /** The worker has sent the row before the tick marks it. */
  lemma SentBeforeMark() returns (s: State)
    ensures Reached(s)
    ensures s.rows == map[0 := FirstRow(Sent, Some(0))]
    ensures s.campaigns == map[0 := Campaign(0, Sending, 1, 0)]
  {
    var s0 := LoggedBeforeMark();
    StepReached(s0, Work(0, Settle(true)));
    s := SettleSent(s0, 0);
  }

  lemma ClosedBeforeMark() returns (s: State)
    ensures Reached(s)
    ensures s.rows == map[0 := FirstRow(Sent, Some(0))] && s.campaigns == map[0 := Campaign(0, Closed, 1, 0)]
  {
    var s0 := SentBeforeMark();
    assert ActiveRows(s0, 0) == {};
    StepReached(s0, Admin(CloseDrained(0)));
    s := ApplyAdmin(s0, CloseDrained(0));
  }

  /** Split tick: the unguarded mark turns a sent row back to queued in a campaign already closed. */
  lemma SplitMarkReopens() returns (s: State)
    ensures Reached(s) && IsClosed(s, 0) && s.campaigns[0].dispatchers == 0 && s.campaigns[0].total > 0
    ensures 0 in ActiveRows(s, 0) && s.rows[0].messageId == Some(0)
  {
    var s0 := ClosedBeforeMark();
    StepReached(s0, Table(Mark({0})));
    s := ApplyTable(s0, Mark({0}));
  }

  /** One row and its job while the dispatch is still running. */
  function EarlyState(row: RowStatus, phase: Phase, status: CampaignStatus): State {
    Start().(
      rows := map[0 := FirstRow(row, None)],
      jobs := map[0 := Job(0, phase)],
      campaigns := map[0 := Campaign(0, status, 0, 1)])
  }

  lemma EarlyIssue()
    ensures EnabledTable(OneInserted(), Issue(0, {0}))
    ensures ApplyTable(OneInserted(), Issue(0, {0})) == EarlyState(Queued, Waiting, Sending)
  {
    Picked(OneInserted());
  }

  /** The first row is issued while its dispatch is still running. */
  lemma IssuedDuringDispatch()
    ensures Reached(EarlyState(Queued, Waiting, Sending))
  {
    FirstInsert();
    EarlyIssue();
    StepReached(OneInserted(), Table(Issue(0, {0})));
  }

  /** The first row fails and nothing else is open. */
  lemma EarlyFailure()
    ensures var s := EarlyState(Queued, Waiting, Sending);
      && CheckOutcome(s, 0, Reject(false)) == Fail(false)
      && ApplyOutcome(s, 0, Fail(false)) == EarlyState(Failed, Done(true), Closed)
  {
    var failed := EarlyState(Failed, Done(true), Sending);
    assert SetStatus(SetPhase(EarlyState(Queued, Waiting, Sending), 0, Done(true)), 0, Failed) == failed;
    assert ActiveRows(failed, 0) == {};
  }

  lemma ClosedDuringDispatch()
    ensures Reached(EarlyState(Failed, Done(true), Closed))
  {
    IssuedDuringDispatch();
    EarlyFailure();
    StepReached(EarlyState(Queued, Waiting, Sending), Work(0, Check(Reject(false))));
  }

  /** Per-failure finalise ignores the total: it closes a campaign whose audience is still being inserted. */
  lemma EarlyCloseStrands() returns (s: State)
    ensures Reached(s) && IsClosed(s, 0) && 1 in ActiveRows(s, 0) && s.campaigns[0].total == 0
  {
    ClosedDuringDispatch();
    var s0 := EarlyState(Failed, Done(true), Closed);
    StepReached(s0, Table(Insert(1, 0, 0, 0)));
    s := ApplyTable(s0, Insert(1, 0, 0, 0));
  }
}
