/**
 * Runs on which no worker strays, and runs on which one does. A row whose worker is under
 * way stays queued on the job's channel unless its whole campaign is failed or skipped
 * meanwhile, or a worker dies between finishing its row and ending its job. Without those
 * the window bound covers every campaign send as it stands; two traces go over with them.
 */
module CampaignSends {
  import opened Common
  import opened QuotaRefund
  import opened Pipeline
  import opened PipelineFrames
  import F = Finalisation
  import W = WindowBound
  import opened MidSend
  import OnceOnly
  import SW = SlidingWindow

  /** The job of a campaign row is waiting or at work. */
  predicate UnderWay(s: State, id: nat) {
    id in s.jobs && id in s.rows && s.rows[id].campaign.Some? && !s.jobs[id].phase.Done? && !s.jobs[id].phase.Dead?
  }

  ghost predicate OnCourse(s: State) {
    && (forall id :: id in s.jobs ==> id in s.rows)
    && (forall id :: UnderWay(s, id) ==> s.rows[id].status == Queued && s.rows[id].channel == s.jobs[id].channel)
  }

  /** No campaign is failed or skipped as a whole, and no finished worker dies before its job ends. */
  predicate Undisturbed(s: State, step: Step)
    requires Enabled(s, step)
  {
    && F.Coarse(step)
    && match step
       case Admin(_) => true
       case Table(t) => !t.Cancel? && !t.Exhaust?
       case Work(id, w) =>
         match w {
           case Check(v) => !CheckOutcome(s, id, v).FailAll?
           case Reserve => UnitsOf(s.quota, s.rows[id].tenant) > 0
           case Crash(_) => !s.jobs[id].phase.Done?
           case _ => true
         }
  }

  /** Rows under way keep status and channel, and nothing else gets under way. */
  ghost predicate KeepsCourse(s: State, s': State) {
    && (forall id :: id in s'.jobs ==> id in s'.rows)
    && (forall id :: UnderWay(s', id) ==>
          && UnderWay(s, id)
          && s'.rows[id].status == s.rows[id].status && s'.rows[id].channel == s.rows[id].channel
          && s'.jobs[id].channel == s.jobs[id].channel)
  }

  lemma CourseKept(s: State, s': State)
    requires OnCourse(s) && KeepsCourse(s, s')
    ensures OnCourse(s')
  {
  }

  lemma IssueKeepsCourse(s: State, channel: nat, ids: set<nat>)
    requires OnCourse(s)
    requires forall i :: i in ids ==> i in s.rows && s.rows[i].status == Pending && s.rows[i].channel == channel
    ensures OnCourse(SetStatuses(AddJobs(s, channel, ids), ids, Queued))
  {
  }

  lemma TableKeepsCourse(s: State, step: TableStep)
    requires OnCourse(s) && EnabledTable(s, step)
    requires step.Insert? || step.FlowCreate? || step.FlowEnqueue? || step.Sweep?
    ensures KeepsCourse(s, ApplyTable(s, step))
  {
  }

  lemma FailRowKeepsCourse(s: State, id: nat)
    requires OnCourse(s) && id in s.rows && !UnderWay(s, id)
    ensures KeepsCourse(s, FailRow(s, id)) && OnCourse(FailRow(s, id))
  {
  }

  /** A job leaves the road, or stays on it with its row untouched. */
  lemma JobKeepsCourse(s: State, s': State, id: nat, p: Phase)
    requires OnCourse(s) && id in s.rows && JobMoved(s, s', id, p) && s'.rows.Keys == s.rows.Keys
    requires forall i :: i in s.rows && i != id ==> s'.rows[i] == s.rows[i]
    requires p.Done? || p.Dead?
             || (UnderWay(s, id) && s'.rows[id].status == s.rows[id].status && s'.rows[id].channel == s.rows[id].channel
                 && s'.rows[id].campaign == s.rows[id].campaign)
             || s'.rows[id].campaign.None?
    ensures OnCourse(s')
  {
  }

  lemma CheckKeepsCourse(s: State, id: nat, o: Outcome)
    requires OnCourse(s) && id in s.rows && id in s.jobs && s.jobs[id].phase.Waiting? && !o.FailAll?
    ensures OnCourse(ApplyOutcome(s, id, o))
  {
    if o.Fail? {
      var t := SetPhase(s, id, Done(!o.throws));
      JobKeepsCourse(s, t, id, Done(!o.throws));
      FailRowKeepsCourse(t, id);
    } else {
      JobKeepsCourse(s, ApplyOutcome(s, id, o), id, if o.Pass? then Checked(s.rows[id].messageId) else Done(true));
    }
  }

  lemma SettleKeepsCourse(s: State, id: nat, written: bool)
    requires OnCourse(s) && EnabledWork(s, id, Settle(written))
    ensures OnCourse(ApplyWork(s, id, Settle(written)))
  {
    var p := s.jobs[id].phase;
    if p.answer.accepted || p.answer.duplicate {
      JobKeepsCourse(s, SettleSent(s, id), id, Done(true));
    } else {
      var t := Closing(s, id, written);
      JobKeepsCourse(s, t, id, Done(false));
      FailRowKeepsCourse(t, id);
    }
  }

  lemma PersistKeepsCourse(s: State, id: nat)
    requires OnCourse(s) && EnabledWork(s, id, Persist)
    ensures OnCourse(FixId(s, id))
  {
    JobKeepsCourse(s, FixId(s, id), id, FixId(s, id).jobs[id].phase);
  }

  /** One phase of a worker: nothing but its job and the books moves. */
  lemma PhaseKeepsCourse(s: State, id: nat, step: WorkerStep)
    requires OnCourse(s) && EnabledWork(s, id, step) && Busy(s.jobs[id].phase) && !s.jobs[id].phase.Done?
    requires step.Throw? || step.Call? || step.WriteLog? || step.Crash?
    ensures OnCourse(ApplyWork(s, id, step))
  {
    var s' := ApplyWork(s, id, step);
    JobKeepsCourse(s, s', id, s'.jobs[id].phase);
  }

  lemma ReserveKeepsCourse(s: State, id: nat)
    requires OnCourse(s) && EnabledWork(s, id, Reserve)
    ensures OnCourse(TakeUnit(s, id))
  {
    JobKeepsCourse(s, TakeUnit(s, id), id, TakeUnit(s, id).jobs[id].phase);
  }

  lemma EndKeepsCourse(s: State, id: nat, step: WorkerStep)
    requires OnCourse(s) && EnabledWork(s, id, step) && (step.Finish? || step.Lose?)
    ensures OnCourse(ApplyWork(s, id, step))
  {
  }

  lemma WorkKeepsCourse(s: State, id: nat, step: WorkerStep)
    requires OnCourse(s) && EnabledWork(s, id, step) && Undisturbed(s, Work(id, step))
    ensures OnCourse(ApplyWork(s, id, step))
  {
    match step
    case Check(v) => CheckKeepsCourse(s, id, CheckOutcome(s, id, v));
    case Settle(written) => SettleKeepsCourse(s, id, written);
    case Reserve => ReserveKeepsCourse(s, id);
    case Persist => PersistKeepsCourse(s, id);
    case Finish(_) => EndKeepsCourse(s, id, step);
    case Lose => EndKeepsCourse(s, id, step);
    case _ => PhaseKeepsCourse(s, id, step);
  }

  lemma StepKeepsCourse(s: State, step: Step)
    requires OnCourse(s) && Enabled(s, step) && Undisturbed(s, step)
    ensures OnCourse(Apply(s, step))
  {
    match step
    case Admin(a) => CourseKept(s, ApplyAdmin(s, a));
    case Table(t) =>
      if t.Issue? { IssueKeepsCourse(s, t.channel, t.ids); } else { TableKeepsCourse(s, t); CourseKept(s, ApplyTable(s, t)); }
    case Work(id, w) => WorkKeepsCourse(s, id, w);
  }

  predicate UndisturbedRun(s: State, steps: seq<Step>)
    requires Runs(s, steps)
    decreases |steps|
  {
    steps == [] || (Undisturbed(s, steps[0]) && UndisturbedRun(Apply(s, steps[0]), steps[1..]))
  }

  /** On course no worker strays, and undisturbed workers do not die late. */
  lemma {:induction false} NothingStrays(s: State, steps: seq<Step>, channel: nat)
    requires OnCourse(s) && Runs(s, steps) && UndisturbedRun(s, steps)
    ensures StraysAtTicks(s, steps, channel, 0) && LateCrashes(s, steps, channel) == 0
    ensures forall k :: 0 <= k < |steps| ==> F.Coarse(steps[k])
    decreases |steps|
  {
    if steps != [] {
      assert Straying(s, channel) == {} by {
        forall i | i in s.rows ensures !Strays(s, i, channel) { assert UnderWay(s, i) ==> s.rows[i].status == Queued; }
      }
      StepKeepsCourse(s, steps[0]);
      NothingStrays(Apply(s, steps[0]), steps[1..], channel);
      forall k | 0 <= k < |steps| ensures F.Coarse(steps[k]) {
        if k > 0 { assert steps[k] == steps[1..][k - 1]; }
      }
    }
  }

  /**
   * On undisturbed runs any window (a, a + W] of a tier holds at most
   * MAX_INFLIGHT + max(0, L - 1) campaign sends of the channel, all of them counted.
   */
  lemma UndisturbedKeepTheCap(s: State, steps: seq<Step>, channel: nat, window: int, limit: int, a: int)
    requires Initial(s) && Runs(s, steps) && UndisturbedRun(s, steps) && W.TierOf(s, channel, window, limit)
    ensures Within(Exec(s, steps).log, channel, a, window) <= s.cfg.maxInflight + Max(0, limit - 1)
  {
    NothingStrays(s, steps, channel);
    EveryCampaignSendBounded(s, steps, channel, window, limit, a, 0);
  }

  // ---------------------------------------------------------------------------
  // A disturbed run goes over
  // ---------------------------------------------------------------------------

  /** Row `id` is open in a sending campaign, its job waits, and its tenant can pay. */
  predicate Ready(s: State, id: nat) {
    && id in s.rows && id in s.jobs && s.jobs[id].phase.Waiting?
    && !Terminal(s.rows[id].status) && s.rows[id].messageId.None?
    && s.rows[id].campaign.Some? && s.rows[id].campaign.value in s.campaigns
    && s.campaigns[s.rows[id].campaign.value].status == Sending
    && UnitsOf(s.quota, s.rows[id].tenant) > 0
  }

  const OK: Answer := Answer(true, false, false)

  /** From `s` to `t` only the job of `id`, its operation id and the books moved. */
  ghost predicate OnlyWorked(s: State, t: State, id: nat, p: Phase) {
    && id in s.rows && id in s.jobs
    && t.cfg == s.cfg && t.now == s.now && t.log == s.log && t.campaigns == s.campaigns
    && t.jobs == s.jobs[id := s.jobs[id].(phase := p)]
    && t.rows.Keys == s.rows.Keys
    && (forall i :: i in s.rows && i != id ==> t.rows[i] == s.rows[i])
    && t.rows[id].status == s.rows[id].status && t.rows[id].campaign == s.rows[id].campaign
    && t.rows[id].channel == s.rows[id].channel && t.rows[id].tenant == s.rows[id].tenant
  }

  lemma ReachedIsSound(s: State)
    requires Reached(s)
    ensures OnceOnly.Inv(s)
  {
    var s0, steps :| Initial(s0) && Runs(s0, steps) && Exec(s0, steps) == s;
    OnceOnly.InitialInv(s0);
    OnceOnly.RunInv(s0, steps);
  }

  lemma FreshIdUnused(s: State)
    requires OnceOnly.Inv(s)
    ensures forall k :: 0 <= k < |s.accepted| ==> s.accepted[k].op != s.nextOp
  {
    forall k | 0 <= k < |s.accepted| ensures s.accepted[k].op != s.nextOp {
      assert OnceOnly.Owns(s, s.accepted[k].row, s.accepted[k].op);
    }
  }

  lemma ToChecked(s: State, id: nat)
    requires Reached(s) && Ready(s, id)
    ensures Reached(SetPhase(s, id, Checked(None)))
  {
    StepReached(s, Work(id, Check(Proceed)));
    assert CheckOutcome(s, id, Proceed) == Pass;
  }

  lemma ToReserved(s: State, id: nat)
    requires Reached(s) && id in s.rows && id in s.jobs && s.jobs[id].phase.Checked? && UnitsOf(s.quota, s.rows[id].tenant) > 0
    ensures Reached(TakeUnit(s, id))
  {
    StepReached(s, Work(id, Reserve));
  }

  lemma ToPersisted(s: State, id: nat)
    requires Reached(s) && id in s.rows && id in s.jobs && s.jobs[id].phase.Reserved?
    ensures Reached(FixId(s, id))
  {
    StepReached(s, Work(id, Persist));
  }

  lemma ToAnswered(s: State, id: nat)
    requires Reached(s) && id in s.rows && id in s.jobs && s.jobs[id].phase.Persisted? && s.jobs[id].phase.att < |s.attempts|
    requires forall k :: 0 <= k < |s.accepted| ==> s.accepted[k].op != s.jobs[id].phase.op
    ensures Reached(Hear(s, id, OK, true))
  {
    StepReached(s, Work(id, Call(OK, true)));
  }

  lemma ToLogged(s: State, id: nat) returns (t: State)
    requires Reached(s) && id in s.rows && id in s.jobs && s.jobs[id].phase.Answered? && s.jobs[id].phase.att < |s.attempts|
    ensures Reached(t) && OnlyWorked(s, t, id, Logged(s.jobs[id].phase.op, s.jobs[id].phase.att, s.jobs[id].phase.answer))
    ensures t.attempts == s.attempts && t.quota == s.quota
  {
    StepReached(s, Work(id, WriteLog(true)));
    t := ApplyWork(s, id, WriteLog(true));
  }

  lemma WorkUpToCalling(s: State, id: nat) returns (f: State)
    requires Reached(s) && Ready(s, id)
    ensures Reached(f) && OnlyWorked(s, f, id, Persisted(s.nextOp, |s.attempts|))
    ensures f.accepted == s.accepted && |f.attempts| == |s.attempts| + 1
    ensures UnitsOf(f.quota, s.rows[id].tenant) == UnitsOf(s.quota, s.rows[id].tenant) - 1
  {
    var c := SetPhase(s, id, Checked(None));
    ToChecked(s, id);
    ToReserved(c, id);
    ToPersisted(TakeUnit(c, id), id);
    f := FixId(TakeUnit(c, id), id);
  }

  /** A ready row can be brought to the point where its message is accepted and logged. */
  lemma WorkUpToSettling(s: State, id: nat) returns (t: State)
    requires Reached(s) && Ready(s, id)
    ensures Reached(t) && id in t.jobs && OnlyWorked(s, t, id, t.jobs[id].phase)
    ensures t.jobs[id].phase.Logged? && t.jobs[id].phase.answer == OK && t.jobs[id].phase.att < |t.attempts|
    ensures UnitsOf(t.quota, s.rows[id].tenant) == UnitsOf(s.quota, s.rows[id].tenant) - 1
  {
    var f := WorkUpToCalling(s, id);
    ReachedIsSound(s);
    FreshIdUnused(s);
    ToAnswered(f, id);
    t := ToLogged(Hear(f, id, OK, true), id);
  }

  /** From `s` to `t` only row `id`, its job and the books moved. */
  ghost predicate OneSettled(s: State, t: State, id: nat) {
    && id in s.rows && id in s.jobs
    && t.cfg == s.cfg && t.now == s.now && t.campaigns == s.campaigns && t.quota == s.quota
    && t.rows.Keys == s.rows.Keys && (forall i :: i in s.rows && i != id ==> t.rows[i] == s.rows[i])
    && t.jobs.Keys == s.jobs.Keys && (forall i :: i in s.jobs && i != id ==> t.jobs[i] == s.jobs[i])
  }

  /** A campaign send of the channel logged at this time. */
  predicate SendOf(e: SendEvent, channel: nat, time: int) { e.channel == channel && e.time == time && e.campaign }

  lemma Settles(s: State, id: nat) returns (t: State, e: SendEvent)
    requires Reached(s) && id in s.rows && id in s.jobs && s.jobs[id].phase.Logged? && s.jobs[id].phase.answer == OK
    requires s.jobs[id].phase.att < |s.attempts| && s.rows[id].campaign.Some?
    ensures Reached(t) && OneSettled(s, t, id)
    ensures t.log == s.log + [e] && SendOf(e, s.jobs[id].channel, s.now)
  {
    StepReached(s, Work(id, Settle(true)));
    t := SettleSent(s, id);
    e := t.log[|s.log|];
  }

  /** One channel, one send a second, one in flight; two campaigns being dispatched. */
  function TwoCampaigns(dispatching: nat): State {
    State(
      Config(map[0 := SW.Quota(1, 9, 9, 9)], 1, 0), 0,
      map[], map[], map[0 := Campaign(0, Sending, 0, dispatching), 1 := Campaign(0, Sending, 0, dispatching)],
      map[0 := 9], map[0 := 9], [], [], {}, [], 0)
  }

  lemma NothingYet()
    ensures Reached(TwoCampaigns(0))
  {
    InitialReached(TwoCampaigns(0));
  }

  function OneDispatching(): State {
    TwoCampaigns(0).(campaigns := map[0 := Campaign(0, Sending, 0, 1), 1 := Campaign(0, Sending, 0, 0)])
  }

  lemma DispatchesStart()
    ensures EnabledAdmin(TwoCampaigns(0), DispatchStart(0))
    ensures ApplyAdmin(TwoCampaigns(0), DispatchStart(0)) == OneDispatching()
    ensures EnabledAdmin(OneDispatching(), DispatchStart(1))
    ensures ApplyAdmin(OneDispatching(), DispatchStart(1)) == TwoCampaigns(1)
  {
    assert RowsOf(TwoCampaigns(0), 0) == {} && RowsOf(OneDispatching(), 1) == {};
  }

  lemma FirstDispatching()
    ensures Reached(OneDispatching())
  {
    NothingYet();
    DispatchesStart();
    StepReached(TwoCampaigns(0), Admin(DispatchStart(0)));
  }

  lemma BothDispatching()
    ensures Reached(TwoCampaigns(1))
  {
    FirstDispatching();
    DispatchesStart();
    StepReached(OneDispatching(), Admin(DispatchStart(1)));
  }

  function NewRow(campaign: nat): Row { Row(Some(campaign), 0, 0, 0, Pending, None, 0) }

  function TwoRows(): State { TwoCampaigns(1).(rows := map[0 := NewRow(0), 1 := NewRow(1)]) }

  lemma BothInserted()
    ensures Reached(TwoRows())
  {
    BothDispatching();
    RowsInsert();
    StepReached(TwoCampaigns(1), Table(Insert(0, 0, 0, 0)));
    StepReached(OneRow(), Table(Insert(1, 1, 0, 0)));
  }

  function OneRow(): State { TwoCampaigns(1).(rows := map[0 := NewRow(0)]) }

  lemma RowsInsert()
    ensures EnabledTable(TwoCampaigns(1), Insert(0, 0, 0, 0)) && ApplyTable(TwoCampaigns(1), Insert(0, 0, 0, 0)) == OneRow()
    ensures EnabledTable(OneRow(), Insert(1, 1, 0, 0)) && ApplyTable(OneRow(), Insert(1, 1, 0, 0)) == TwoRows()
  {
  }

  /** With nothing sent and nothing queued the channel has room for one row. */
  lemma RoomForOne(s: State, id: nat)
    requires s.cfg == TwoCampaigns(0).cfg && s.log == [] && QueuedOn(s, 0) == {}
    requires id in s.rows && s.rows[id].campaign.Some? && s.rows[id].status == Pending && s.rows[id].channel == 0
    ensures CanPick(s, 0, {id})
  {
    assert Times(s.log, 0) == [];
  }

  function FirstIssued(): State {
    TwoRows().(rows := map[0 := NewRow(0).(status := Queued), 1 := NewRow(1)], jobs := map[0 := Job(0, Waiting)])
  }

  lemma IssuingTheFirst()
    ensures CanPick(TwoRows(), 0, {0})
    ensures SetStatuses(AddJobs(TwoRows(), 0, {0}), {0}, Queued) == FirstIssued()
  {
    assert QueuedOn(TwoRows(), 0) == {};
    RoomForOne(TwoRows(), 0);
  }

  lemma FirstIsIssued()
    ensures Reached(FirstIssued())
  {
    BothInserted();
    IssuingTheFirst();
    IssueReached(TwoRows(), 0, {0});
  }

  lemma IssueReached(s: State, channel: nat, ids: set<nat>)
    requires Reached(s) && CanPick(s, channel, ids)
    ensures Reached(SetStatuses(AddJobs(s, channel, ids), ids, Queued))
  {
    StepReached(s, Table(Issue(channel, ids)));
  }

  /** The first row is issued and sent up to settling. */
  lemma FirstAtTheProvider() returns (s: State)
    ensures Reached(s) && 0 in s.jobs && OnlyWorked(FirstIssued(), s, 0, s.jobs[0].phase)
    ensures s.jobs[0].phase.Logged? && s.jobs[0].phase.answer == OK && s.jobs[0].phase.att < |s.attempts|
    ensures UnitsOf(s.quota, 0) == 8
  {
    FirstIsIssued();
    s := WorkUpToSettling(FirstIssued(), 0);
  }

  /** The first campaign is cancelled while its row is at the provider: the channel looks idle again. */
  lemma CancelledMeanwhile() returns (s: State)
    ensures Reached(s) && s.cfg == TwoCampaigns(0).cfg && s.now == 0 && s.log == [] && UnitsOf(s.quota, 0) == 8
    ensures s.rows.Keys == {0, 1} && s.rows[0].status == Skipped && s.rows[0].campaign == Some(0) && s.rows[1] == NewRow(1)
    ensures s.jobs.Keys == {0} && s.jobs[0].channel == 0 && s.jobs[0].phase.Logged? && s.jobs[0].phase.answer == OK
    ensures s.jobs[0].phase.att < |s.attempts| && 1 in s.campaigns && s.campaigns[1].status == Sending
  {
    var t := FirstAtTheProvider();
    StepReached(t, Table(Cancel(0)));
    s := ApplyTable(t, Cancel(0));
    assert 0 in ActiveRows(t, 0) && 1 !in ActiveRows(t, 0);
  }

  /** So the tick issues the second row. */
  lemma SecondIssued() returns (s: State)
    ensures Reached(s) && s.cfg == TwoCampaigns(0).cfg && s.now == 0 && s.log == [] && Ready(s, 1) && s.jobs[1].channel == 0
    ensures 0 in s.rows && s.rows[0].campaign == Some(0) && 0 in s.jobs && s.jobs[0].channel == 0
    ensures s.jobs[0].phase.Logged? && s.jobs[0].phase.answer == OK && s.jobs[0].phase.att < |s.attempts|
  {
    var t := CancelledMeanwhile();
    assert QueuedOn(t, 0) == {};
    RoomForOne(t, 1);
    StepReached(t, Table(Issue(0, {1})));
    s := ApplyTable(t, Issue(0, {1}));
  }

  /** One second, one send and one in flight are the limits; the cancelled row's worker makes it two. */
  lemma CancelLetsOneMoreThrough() returns (s: State)
    ensures Reached(s) && W.TierOf(s, 0, SW.SECOND_MS, 1)
    ensures Within(s.log, 0, -1, SW.SECOND_MS) == s.cfg.maxInflight + Max(0, 1 - 1) + 1
  {
    var t := SecondIssued();
    s := BothSettle(t);
  }

  /** Row 0's message is logged, row 1 is ready: both sends land in the same instant. */
  lemma BothSettle(t: State) returns (s: State)
    requires Reached(t) && t.now == 0 && t.log == [] && Ready(t, 1) && t.jobs[1].channel == 0
    requires 0 in t.rows && t.rows[0].campaign == Some(0) && 0 in t.jobs && t.jobs[0].channel == 0
    requires t.jobs[0].phase.Logged? && t.jobs[0].phase.answer == OK && t.jobs[0].phase.att < |t.attempts|
    ensures Reached(s) && s.cfg == t.cfg && Within(s.log, 0, -1, SW.SECOND_MS) == 2
  {
    var u, first := FirstSettles(t);
    var second;
    s, second := ReadySends(u, 1);
    TwoInTheLog(s.log, first, second);
  }

  /** Row 0 is settled; row 1 stays ready. */
  lemma FirstSettles(t: State) returns (u: State, e: SendEvent)
    requires Reached(t) && t.now == 0 && t.log == [] && Ready(t, 1) && t.jobs[1].channel == 0
    requires 0 in t.rows && t.rows[0].campaign == Some(0) && 0 in t.jobs && t.jobs[0].channel == 0
    requires t.jobs[0].phase.Logged? && t.jobs[0].phase.answer == OK && t.jobs[0].phase.att < |t.attempts|
    ensures Reached(u) && u.cfg == t.cfg && u.now == 0 && Ready(u, 1) && u.jobs[1].channel == 0
    ensures u.log == [e] && SendOf(e, 0, 0)
  {
    u, e := Settles(t, 0);
  }

  /** A ready row can be sent: one more campaign send of its job's channel, now. */
  lemma ReadySends(s: State, id: nat) returns (t: State, e: SendEvent)
    requires Reached(s) && Ready(s, id)
    ensures Reached(t) && t.cfg == s.cfg && t.now == s.now
    ensures t.log == s.log + [e] && SendOf(e, s.jobs[id].channel, s.now)
  {
    var v := WorkUpToSettling(s, id);
    t, e := Settles(v, id);
  }

  lemma TwoInTheLog(log: seq<SendEvent>, first: SendEvent, second: SendEvent)
    requires log == [first] + [second] && SendOf(first, 0, 0) && SendOf(second, 0, 0)
    ensures Within(log, 0, -1, SW.SECOND_MS) == 2
  {
    var b := -1 + SW.SECOND_MS;
    assert log[..1] == [first] && [first][..0] == [];
    assert W.SentWithin([first], W.Campaigns, 0, -1, b) == 1;
    assert W.SentWithin(log, W.Campaigns, 0, -1, b) == 2;
  }

  function FirstMoved(phase: Phase): State {
    FirstIssued().(rows := map[0 := NewRow(0).(sender := 1, channel := 1), 1 := NewRow(1)], jobs := map[0 := Job(0, phase)])
  }

  /** The first row is moved to channel 1 ... */
  lemma FirstIsMoved()
    ensures Reached(FirstMoved(Done(true)))
  {
    FirstIsIssued();
    FirstMoves();
    StepReached(FirstIssued(), Work(0, Check(Reroute(1, 1))));
  }

  lemma FirstMoves()
    ensures CheckOutcome(FirstIssued(), 0, Reroute(1, 1)) == Move(1, 1)
    ensures ApplyOutcome(FirstIssued(), 0, Move(1, 1)) == FirstMoved(Done(true))
  {
    assert FirstIssued().rows[0 := NewRow(0).(sender := 1, channel := 1)] == FirstMoved(Done(true)).rows;
    assert FirstIssued().jobs[0 := Job(0, Done(true))] == FirstMoved(Done(true)).jobs;
  }

  /** ... and its worker dies before its job ends. */
  lemma ThenItsWorkerDies()
    ensures Reached(FirstMoved(Waiting))
  {
    FirstIsMoved();
    FirstDrops();
    StepReached(FirstMoved(Done(true)), Work(0, Crash(false)));
  }

  lemma FirstDrops()
    ensures Drop(FirstMoved(Done(true)), 0, false) == FirstMoved(Waiting)
  {
    assert FirstMoved(Done(true)).jobs[0 := Job(0, Waiting)] == FirstMoved(Waiting).jobs;
  }

  /** The tick sees an idle channel and issues the second row; the first one's job is still there. */
  lemma SecondIssuedAnyway() returns (s: State)
    ensures Reached(s) && s.cfg == TwoCampaigns(0).cfg && s.now == 0 && s.log == []
    ensures Ready(s, 0) && s.jobs[0].channel == 0 && s.rows[0].campaign == Some(0) && s.rows[0].tenant == 0
    ensures Ready(s, 1) && s.jobs[1].channel == 0 && s.rows[1].tenant == 0 && UnitsOf(s.quota, 0) == 9
  {
    ThenItsWorkerDies();
    var t := FirstMoved(Waiting);
    assert QueuedOn(t, 0) == {};
    RoomForOne(t, 1);
    StepReached(t, Table(Issue(0, {1})));
    s := ApplyTable(t, Issue(0, {1}));
  }

  /** A late crash is enough to go over: the row is sent on the channel it was moved away from. */
  lemma LateCrashLetsOneMoreThrough() returns (s: State)
    ensures Reached(s) && W.TierOf(s, 0, SW.SECOND_MS, 1)
    ensures Within(s.log, 0, -1, SW.SECOND_MS) == s.cfg.maxInflight + Max(0, 1 - 1) + 1
  {
    var t := SecondIssuedAnyway();
    var u := WorkUpToSettling(t, 0);
    s := BothSettle(u);
  }
}
