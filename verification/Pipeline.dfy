/**
 * The send pipeline as a labelled transition system over the recipient table, the send
 * queue (one job per recipient), the prepaid quota, the provider and the rate-limit log.
 *
 * Campaign recipients and automation ("flow") sends live in one table here; a row without
 * a campaign is a flow send. The worker runs in separate phases and can crash between any
 * two of them. The tick is available both as one step (Issue) and split into its two
 * writes (Enqueue, then Mark).
 */
module Pipeline {
  import opened Common
  import opened QuotaRefund
  import SW = SlidingWindow

  datatype RowStatus = Pending | Queued | Sent | Failed | Skipped

  predicate Terminal(st: RowStatus) { st.Sent? || st.Failed? || st.Skipped? }

  datatype Row = Row(
    campaign: Option<nat>,
    tenant: nat,
    channel: nat,
    sender: nat,
    status: RowStatus,
    messageId: Option<nat>,
    touched: nat)

  datatype CampaignStatus = Scheduled | Sending | Paused | Canceled | Closed

  /** `dispatchers` counts the dispatch jobs still inserting rows for the campaign. */
  datatype Campaign = Campaign(tenant: nat, status: CampaignStatus, total: nat, dispatchers: nat)

  /**
   * Where the job of a row stands. A worker reads the row and passes its checks (Checked),
   * reserves a quota unit (Reserved), fixes and persists the operation id (Persisted), has
   * the provider's answer (Answered), has logged it (Logged), has settled the row (Done).
   * Dead is a failed job kept by the queue.
   */
  datatype Phase =
    | Waiting
    | Checked(seen: Option<nat>)
    | Reserved(seen: Option<nat>, att: nat)
    | Persisted(op: nat, att: nat)
    | Answered(op: nat, att: nat, answer: Answer)
    | Logged(op: nat, att: nat, answer: Answer)
    | Done(ok: bool)
    | Dead

  datatype Job = Job(channel: nat, phase: Phase)

  /** A quota reservation and what became of it. */
  datatype Fate = Open | Charged | Refunded | Leaked
  datatype Attempt = Attempt(tenant: nat, row: nat, answer: Option<Answer>, fate: Fate)

  /** A message the provider took responsibility for, on a channel, at a time. */
  datatype Acceptance = Acceptance(op: nat, row: nat, channel: nat, campaign: bool, time: int)

  /** One entry of a channel's rate log; `regular` when the row was still a queued campaign row of that channel. */
  datatype SendEvent = SendEvent(channel: nat, time: int, campaign: bool, regular: bool)

  datatype Config = Config(limits: map<nat, SW.Quota>, maxInflight: nat, staleMs: nat)

  datatype State = State(
    cfg: Config,
    now: nat,
    rows: map<nat, Row>,
    jobs: map<nat, Job>,
    campaigns: map<nat, Campaign>,
    quota: map<nat, int>,
    granted: map<nat, int>,
    attempts: seq<Attempt>,
    accepted: seq<Acceptance>,
    delivered: set<nat>,
    log: seq<SendEvent>,
    nextOp: nat)

  /**
   * What the pre-send checks of a worker concluded: the sender rules send the row to another
   * sender, or leave it none (a flow send is also skipped when its automation or contact no
   * longer wants it); the sender name is refused; content, channel, links or transport fail,
   * some of these rethrowing; no tracking host is left.
   */
  datatype Verdict =
    | Proceed
    | Reroute(sender: nat, channel: nat)
    | AllBlocked
    | BadSenderName
    | Reject(throws: bool)
    | NoTrackingHost

  /** Clock, quota purchases, campaign commands and the dispatcher's bookkeeping. */
  datatype AdminStep =
    | Advance(dt: nat)
    | TopUp(tenant: nat, units: nat)
    | DispatchStart(campaign: nat)
    | DispatchEnd(campaign: nat)
    | DispatchAbort(campaign: nat)
    | Pause(campaign: nat)
    | Resume(campaign: nat)
    | CloseDrained(campaign: nat)

  /** Writes to the recipient table and the queue made outside the send worker. */
  datatype TableStep =
    | Insert(id: nat, campaign: nat, channel: nat, sender: nat)
    | FlowCreate(id: nat, tenant: nat, channel: nat, sender: nat)
    | FlowEnqueue(id: nat)
    | Issue(channel: nat, ids: set<nat>)
    | Enqueue(channel: nat, ids: set<nat>)
    | Mark(ids: set<nat>)
    | Cancel(campaign: nat)
    | Exhaust(campaign: nat)
    | Sweep(id: nat)

  /** One phase of the worker that runs the job of a row, or the end of that job. */
  datatype WorkerStep =
    | Check(verdict: Verdict)
    | Reserve
    | Persist
    | Throw(refundWritten: bool)
    | Call(answer: Answer, taken: bool)
    | WriteLog(written: bool)
    | Settle(refundWritten: bool)
    | Finish(again: bool)
    | Crash(dead: bool)
    | Lose

  datatype Step =
    | Admin(admin: AdminStep)
    | Table(table: TableStep)
    | Work(id: nat, work: WorkerStep)

  // ---------------------------------------------------------------------------
  // Reading the tables
  // ---------------------------------------------------------------------------

  function UnitsOf(m: map<nat, int>, tenant: nat): int { if tenant in m then m[tenant] else 0 }

  function RowsOf(s: State, c: nat): set<nat> {
    set i | i in s.rows && s.rows[i].campaign == Some(c)
  }

  /** Rows of a campaign still pending or queued. */
  function ActiveRows(s: State, c: nat): set<nat> {
    set i | i in s.rows && s.rows[i].campaign == Some(c) && !Terminal(s.rows[i].status)
  }

  /** In-flight depth of a channel: its queued campaign rows. */
  function QueuedOn(s: State, channel: nat): set<nat> {
    set i | i in s.rows && s.rows[i].campaign.Some? && s.rows[i].channel == channel && s.rows[i].status == Queued
  }

  function Times(log: seq<SendEvent>, channel: nat): seq<int> {
    if log == [] then []
    else
      var rest := Times(log[..|log| - 1], channel);
      var e := log[|log| - 1];
      if e.channel == channel then rest + [e.time] else rest
  }

  function Headroom(s: State, channel: nat): int { s.cfg.maxInflight - |QueuedOn(s, channel)| }

  /** What the tick may put on a channel now; 0 for an inactive channel. */
  function Budget(s: State, channel: nat): int {
    if channel !in s.cfg.limits then 0
    else Min(SW.Available(Times(s.log, channel), s.now, s.cfg.limits[channel]), Headroom(s, channel))
  }

  predicate Live(s: State, id: nat) { id in s.jobs && !s.jobs[id].phase.Dead? }

  predicate Busy(p: Phase) { !p.Waiting? && !p.Dead? }

  predicate Holds(p: Phase) { p.Reserved? || p.Persisted? || p.Answered? || p.Logged? }

  // ---------------------------------------------------------------------------
  // Writes
  // ---------------------------------------------------------------------------

  function SetRow(s: State, id: nat, r: Row): State { s.(rows := s.rows[id := r.(touched := s.now)]) }

  function SetPhase(s: State, id: nat, p: Phase): State
    requires id in s.jobs
  {
    s.(jobs := s.jobs[id := s.jobs[id].(phase := p)])
  }

  function SetStatus(s: State, id: nat, st: RowStatus): State
    requires id in s.rows
  {
    SetRow(s, id, s.rows[id].(status := st))
  }

  /** updateMany over a set of rows. */
  function SetStatuses(s: State, ids: set<nat>, st: RowStatus): State {
    s.(rows := map i | i in s.rows :: if i in ids then s.rows[i].(status := st, touched := s.now) else s.rows[i])
  }

  function SetCampaignStatus(s: State, c: nat, st: CampaignStatus): State
    requires c in s.campaigns
  {
    s.(campaigns := s.campaigns[c := s.campaigns[c].(status := st)])
  }

  /** maybeFinaliseCampaign: no guard on the recipient total. */
  function MaybeFinalise(s: State, c: Option<nat>): State {
    if c.Some? && c.value in s.campaigns && ActiveRows(s, c.value) == {} && s.campaigns[c.value].status == Sending
    then SetCampaignStatus(s, c.value, Closed)
    else s
  }

  /** failCampaignRecipient, or the flow equivalent. */
  function FailRow(s: State, id: nat): State
    requires id in s.rows
  {
    MaybeFinalise(SetStatus(s, id, Failed), s.rows[id].campaign)
  }

  /** Fail every open row of the campaign of `id` (a flow send has only itself). */
  function FailCampaign(s: State, id: nat): State
    requires id in s.rows
  {
    match s.rows[id].campaign
    case None => SetStatus(s, id, Failed)
    case Some(c) => MaybeFinalise(SetStatuses(s, ActiveRows(s, c), Failed), Some(c))
  }

  function Resolve(s: State, att: nat, fate: Fate): State
    requires att < |s.attempts|
  {
    s.(attempts := s.attempts[att := s.attempts[att].(fate := fate)])
  }

  /** Give the unit of an attempt back; a failed refund write is swallowed and the unit is lost. */
  function Refund(s: State, att: nat, written: bool): State
    requires att < |s.attempts|
  {
    if written then
      var t := s.attempts[att].tenant;
      Resolve(s, att, Refunded).(quota := s.quota[t := UnitsOf(s.quota, t) + 1])
    else Resolve(s, att, Leaked)
  }

  /** addBulk: a job id the queue still knows is ignored. */
  function AddJobs(s: State, channel: nat, ids: set<nat>): State {
    s.(jobs := map i | i in s.jobs.Keys + ids :: if i in s.jobs then s.jobs[i] else Job(channel, Waiting))
  }

  // ---------------------------------------------------------------------------
  // Steps
  // ---------------------------------------------------------------------------

  predicate EnabledAdmin(s: State, step: AdminStep) {
    match step
    case Advance(_) => true
    case TopUp(_, _) => true
    case DispatchStart(c) =>
      && c in s.campaigns
      && s.campaigns[c].status in {Scheduled, Sending}
      && !(s.campaigns[c].total > 0 && |RowsOf(s, c)| >= s.campaigns[c].total)
    case DispatchEnd(c) => c in s.campaigns && s.campaigns[c].dispatchers > 0
    case DispatchAbort(c) => c in s.campaigns && s.campaigns[c].dispatchers > 0
    case Pause(c) => c in s.campaigns && s.campaigns[c].status in {Sending, Scheduled}
    case Resume(c) => c in s.campaigns && s.campaigns[c].status == Paused
    case CloseDrained(c) =>
      && c in s.campaigns
      && s.campaigns[c].status == Sending
      && s.campaigns[c].total > 0
      && ActiveRows(s, c) == {}
  }

  /** Close an empty audience, otherwise publish the recipient count and start a scheduled campaign. */
  function AfterDispatch(camp: Campaign, count: nat): Campaign
    requires camp.dispatchers > 0
  {
    var left := camp.(dispatchers := camp.dispatchers - 1);
    if count == 0 then
      if camp.status in {Scheduled, Sending} then left.(status := Closed, total := 0) else left
    else left.(total := count, status := if camp.status == Scheduled then Sending else camp.status)
  }

  function ApplyAdmin(s: State, step: AdminStep): State
    requires EnabledAdmin(s, step)
  {
    match step
    case Advance(dt) => s.(now := s.now + dt)
    case TopUp(t, units) =>
      s.(quota := s.quota[t := UnitsOf(s.quota, t) + units], granted := s.granted[t := UnitsOf(s.granted, t) + units])
    case DispatchStart(c) =>
      s.(campaigns := s.campaigns[c := s.campaigns[c].(dispatchers := s.campaigns[c].dispatchers + 1)])
    case DispatchEnd(c) => s.(campaigns := s.campaigns[c := AfterDispatch(s.campaigns[c], |RowsOf(s, c)|)])
    case DispatchAbort(c) =>
      s.(campaigns := s.campaigns[c := s.campaigns[c].(dispatchers := s.campaigns[c].dispatchers - 1)])
    case Pause(c) => SetCampaignStatus(s, c, Paused)
    case Resume(c) => SetCampaignStatus(s, c, Sending)
    case CloseDrained(c) => SetCampaignStatus(s, c, Closed)
  }

  /** The tick may only pick pending campaign rows of the channel, within its budget. */
  predicate CanPick(s: State, channel: nat, ids: set<nat>) {
    && (forall i :: i in ids ==>
          i in s.rows && s.rows[i].campaign.Some? && s.rows[i].status == Pending && s.rows[i].channel == channel)
    && |ids| <= Budget(s, channel)
  }

  /** Queued for longer than the stale limit with no live job. */
  predicate Stranded(s: State, id: nat) {
    && id in s.rows
    && s.rows[id].campaign.Some?
    && s.rows[id].status == Queued
    && s.rows[id].touched + s.cfg.staleMs < s.now
    && !Live(s, id)
  }

  predicate EnabledTable(s: State, step: TableStep) {
    match step
    case Insert(id, c, _, _) => id !in s.rows && c in s.campaigns && s.campaigns[c].dispatchers > 0
    case FlowCreate(id, _, _, _) => id !in s.rows
    case FlowEnqueue(id) => id in s.rows && s.rows[id].campaign.None? && s.rows[id].status == Pending
    case Issue(channel, ids) => CanPick(s, channel, ids)
    case Enqueue(channel, ids) => CanPick(s, channel, ids)
    case Mark(ids) => forall i :: i in ids ==> i in s.rows && s.rows[i].campaign.Some?
    case Cancel(c) => c in s.campaigns && s.campaigns[c].status in {Sending, Scheduled, Paused}
    case Exhaust(c) => c in s.campaigns && UnitsOf(s.quota, s.campaigns[c].tenant) <= 0
    case Sweep(id) => Stranded(s, id)
  }

  /** A failed or lost job is removed before the row's send is published again. */
  function ClearDeadJob(s: State, id: nat): State {
    if Live(s, id) then s else s.(jobs := s.jobs - {id})
  }

  function ApplyTable(s: State, step: TableStep): State
    requires EnabledTable(s, step)
  {
    match step
    case Insert(id, c, channel, sender) =>
      s.(rows := s.rows[id := Row(Some(c), s.campaigns[c].tenant, channel, sender, Pending, None, s.now)])
    case FlowCreate(id, tenant, channel, sender) =>
      s.(rows := s.rows[id := Row(None, tenant, channel, sender, Pending, None, s.now)])
    case FlowEnqueue(id) => SetStatus(AddJobs(ClearDeadJob(s, id), s.rows[id].channel, {id}), id, Queued)
    case Issue(channel, ids) => SetStatuses(AddJobs(s, channel, ids), ids, Queued)
    case Enqueue(channel, ids) => AddJobs(s, channel, ids)
    case Mark(ids) => SetStatuses(s, ids, Queued)
    case Cancel(c) => SetStatuses(SetCampaignStatus(s, c, Canceled), ActiveRows(s, c), Skipped)
    case Exhaust(c) => SetCampaignStatus(SetStatuses(s, ActiveRows(s, c), Failed), c, Closed)
    case Sweep(id) => SetStatus(s.(jobs := s.jobs - {id}), id, if id in s.delivered then Sent else Pending)
  }

  /**
   * The provider remembers operation ids: it takes a message only under an unused id, a
   * success answer means it took the message, and "already exists" is said only of a used
   * id. It may also take the message and have its answer lost.
   */
  predicate ProviderMayAnswer(s: State, op: nat, answer: Answer, taken: bool) {
    && (taken ==> forall k :: 0 <= k < |s.accepted| ==> s.accepted[k].op != op)
    && (answer.accepted ==> taken && !answer.duplicate && !answer.platformSide)
    && (answer.duplicate ==> exists k :: 0 <= k < |s.accepted| && s.accepted[k].op == op)
  }

  predicate EnabledWork(s: State, id: nat, step: WorkerStep) {
    && id in s.rows
    && id in s.jobs
    && var p := s.jobs[id].phase;
       match step
       case Check(v) => p.Waiting? && (v.Reroute? ==> s.rows[id].campaign.Some?)
       case Reserve => p.Checked?
       case Persist => p.Reserved?
       case Throw(_) => (p.Reserved? || p.Persisted?) && p.att < |s.attempts|
       case Call(answer, taken) => p.Persisted? && p.att < |s.attempts| && ProviderMayAnswer(s, p.op, answer, taken)
       case WriteLog(_) => p.Answered?
       case Settle(_) => p.Logged? && p.att < |s.attempts|
       case Finish(again) => p.Done? && (again ==> s.rows[id].campaign.None? && !p.ok)
       case Crash(_) => Busy(p) && (Holds(p) ==> p.att < |s.attempts|)
       case Lose => !Busy(p)
  }

  /** What the worker does after its checks, in the order the checks are made. */
  datatype Outcome = Stop | Move(sender: nat, channel: nat) | Skip | Fail(throws: bool) | Hold | FailAll | Pass

  function CheckOutcome(s: State, id: nat, v: Verdict): Outcome
    requires id in s.rows
  {
    var r := s.rows[id];
    var status := if r.campaign.Some? && r.campaign.value in s.campaigns then s.campaigns[r.campaign.value].status else Sending;
    if Terminal(r.status) then Stop
    else if v.Reroute? then if r.status == Queued then Move(v.sender, v.channel) else Stop
    else if v.AllBlocked? then if r.status == Queued || r.campaign.None? then Skip else Stop
    else if v.BadSenderName? then Fail(false)
    else if status == Paused then Hold
    else if status == Canceled then Skip
    else if v.Reject? then Fail(v.throws)
    else if v.NoTrackingHost? then FailAll
    else Pass
  }

  function ApplyOutcome(s: State, id: nat, o: Outcome): State
    requires id in s.rows && id in s.jobs
  {
    var done := SetPhase(s, id, Done(true));
    match o
    case Stop => done
    case Move(sender, channel) => SetRow(done, id, s.rows[id].(status := Pending, sender := sender, channel := channel))
    case Skip => SetStatus(done, id, Skipped)
    case Fail(throws) => FailRow(SetPhase(s, id, Done(!throws)), id)
    case Hold => SetStatus(done, id, Pending)
    case FailAll => FailCampaign(done, id)
    case Pass => SetPhase(s, id, Checked(s.rows[id].messageId))
  }

  function TakeUnit(s: State, id: nat): State
    requires id in s.rows && id in s.jobs && s.jobs[id].phase.Checked?
  {
    var t := s.rows[id].tenant;
    SetPhase(s, id, Reserved(s.jobs[id].phase.seen, |s.attempts|)).(
      quota := s.quota[t := UnitsOf(s.quota, t) - 1],
      attempts := s.attempts + [Attempt(t, id, None, Open)])
  }

  function FixId(s: State, id: nat): State
    requires id in s.rows && id in s.jobs && s.jobs[id].phase.Reserved?
  {
    var p := s.jobs[id].phase;
    match p.seen
    case Some(op) => SetPhase(s, id, Persisted(op, p.att))
    case None =>
      SetRow(SetPhase(s, id, Persisted(s.nextOp, p.att)), id, s.rows[id].(messageId := Some(s.nextOp))).(
        nextOp := s.nextOp + 1)
  }

  /** What the provider's books say when it takes the message of this job now. */
  function AcceptedNow(s: State, id: nat, op: nat): Acceptance
    requires id in s.rows && id in s.jobs
  {
    Acceptance(op, id, s.jobs[id].channel, s.rows[id].campaign.Some?, s.now)
  }

  function Hear(s: State, id: nat, answer: Answer, taken: bool): State
    requires id in s.rows && id in s.jobs && s.jobs[id].phase.Persisted? && s.jobs[id].phase.att < |s.attempts|
  {
    var p := s.jobs[id].phase;
    SetPhase(s, id, Answered(p.op, p.att, answer)).(
      accepted := if taken then s.accepted + [AcceptedNow(s, id, p.op)] else s.accepted,
      attempts := s.attempts[p.att := s.attempts[p.att].(answer := Some(answer))])
  }

  /** Mark sent, charge, and count the send against the channel's windows. */
  function SettleSent(s: State, id: nat): State
    requires id in s.rows && id in s.jobs && s.jobs[id].phase.Logged? && s.jobs[id].phase.att < |s.attempts|
  {
    var p := s.jobs[id].phase;
    var r := s.rows[id];
    var channel := s.jobs[id].channel;
    SetRow(SetPhase(Resolve(s, p.att, Charged), id, Done(true)), id, r.(status := Sent, messageId := Some(p.op))).(
      log := s.log + [SendEvent(channel, s.now, r.campaign.Some?, r.campaign.Some? && r.status == Queued && r.channel == channel)])
  }

  /** Refund a platform-side failure, keep the charge for any other, and end the job as failed. */
  function Closing(s: State, id: nat, refundWritten: bool): State
    requires id in s.jobs && s.jobs[id].phase.Logged? && s.jobs[id].phase.att < |s.attempts|
  {
    var p := s.jobs[id].phase;
    var paid := if p.answer.platformSide then Refund(s, p.att, refundWritten) else Resolve(s, p.att, Charged);
    SetPhase(paid, id, Done(false))
  }

  function SettleFailed(s: State, id: nat, refundWritten: bool): State
    requires id in s.rows && id in s.jobs && s.jobs[id].phase.Logged? && s.jobs[id].phase.att < |s.attempts|
  {
    FailRow(Closing(s, id, refundWritten), id)
  }

  function Drop(s: State, id: nat, dead: bool): State
    requires id in s.jobs && (Holds(s.jobs[id].phase) ==> s.jobs[id].phase.att < |s.attempts|)
  {
    var p := s.jobs[id].phase;
    var s1 := SetPhase(s, id, if dead then Dead else Waiting);
    if Holds(p) then Resolve(s1, p.att, Leaked) else s1
  }

  function ApplyWork(s: State, id: nat, step: WorkerStep): State
    requires EnabledWork(s, id, step)
  {
    var p := s.jobs[id].phase;
    match step
    case Check(v) => ApplyOutcome(s, id, CheckOutcome(s, id, v))
    case Reserve =>
      if UnitsOf(s.quota, s.rows[id].tenant) > 0 then TakeUnit(s, id)
      else FailCampaign(SetPhase(s, id, Done(true)), id)
    case Persist => FixId(s, id)
    case Throw(written) => SetPhase(Refund(s, p.att, written), id, Done(false))
    case Call(answer, taken) => Hear(s, id, answer, taken)
    case WriteLog(written) =>
      SetPhase(s, id, Logged(p.op, p.att, p.answer)).(
        delivered := if written && p.answer.accepted && s.rows[id].campaign.Some? then s.delivered + {id} else s.delivered)
    case Settle(written) =>
      if p.answer.accepted || p.answer.duplicate then SettleSent(s, id) else SettleFailed(s, id, written)
    case Finish(again) =>
      if p.ok then s.(jobs := s.jobs - {id}) else SetPhase(s, id, if again then Waiting else Dead)
    case Crash(dead) => Drop(s, id, dead)
    case Lose => s.(jobs := s.jobs - {id})
  }

  predicate Enabled(s: State, step: Step) {
    match step
    case Admin(a) => EnabledAdmin(s, a)
    case Table(t) => EnabledTable(s, t)
    case Work(id, w) => EnabledWork(s, id, w)
  }

  function Apply(s: State, step: Step): State
    requires Enabled(s, step)
  {
    match step
    case Admin(a) => ApplyAdmin(s, a)
    case Table(t) => ApplyTable(s, t)
    case Work(id, w) => ApplyWork(s, id, w)
  }

  // ---------------------------------------------------------------------------
  // Runs
  // ---------------------------------------------------------------------------

  /** Nothing stored yet; campaigns exist as the API left them. */
  ghost predicate Initial(s: State) {
    && s.rows == map[] && s.jobs == map[]
    && s.attempts == [] && s.accepted == [] && s.delivered == {} && s.log == []
    && s.quota == s.granted
    && (forall t :: t in s.quota ==> s.quota[t] >= 0)
    && (forall c :: c in s.campaigns ==> s.campaigns[c].dispatchers == 0 && s.campaigns[c].total == 0)
  }

  predicate Runs(s: State, steps: seq<Step>)
    decreases |steps|
  {
    steps == [] || (Enabled(s, steps[0]) && Runs(Apply(s, steps[0]), steps[1..]))
  }

  function Exec(s: State, steps: seq<Step>): State
    requires Runs(s, steps)
    decreases |steps|
  {
    if steps == [] then s else Exec(Apply(s, steps[0]), steps[1..])
  }

  /** A run may be cut anywhere. */
  lemma {:induction false} RunsConcat(s: State, a: seq<Step>, b: seq<Step>)
    requires Runs(s, a) && Runs(Exec(s, a), b)
    ensures Runs(s, a + b) && Exec(s, a + b) == Exec(Exec(s, a), b)
    decreases |a|
  {
    if a == [] {
      assert a + b == b;
    } else {
      assert (a + b)[0] == a[0];
      assert (a + b)[1..] == a[1..] + b;
      RunsConcat(Apply(s, a[0]), a[1..], b);
    }
  }

  lemma RunsExtend(s: State, a: seq<Step>, step: Step)
    requires Runs(s, a) && Enabled(Exec(s, a), step)
    ensures Runs(s, a + [step]) && Exec(s, a + [step]) == Apply(Exec(s, a), step)
  {
    var e := Exec(s, a);
    assert [step][1..] == [];
    assert Runs(Apply(e, step), []);
    RunsConcat(s, a, [step]);
  }

  /** Some run from an initial state ends here. */
  ghost predicate Reached(s: State) {
    exists s0, steps :: Initial(s0) && Runs(s0, steps) && Exec(s0, steps) == s
  }

  lemma InitialReached(s: State)
    requires Initial(s)
    ensures Reached(s)
  {
    assert Runs(s, []) && Exec(s, []) == s;
  }

  lemma StepReached(s: State, step: Step)
    requires Reached(s) && Enabled(s, step)
    ensures Reached(Apply(s, step))
  {
    var s0, steps :| Initial(s0) && Runs(s0, steps) && Exec(s0, steps) == s;
    RunsExtend(s0, steps, step);
  }
}
