/**
 * The rate limits at the provider. A message is taken when the provider is called and
 * counted when its worker settles, so the windows of the rate log and those of the provider
 * are not the same. A message taken and not yet counted belongs to a worker between the two
 * phases, one of the rows that may yet be sent, unless the answer never got there: then the
 * permits never learn of it. The windows hold as many messages more as were lost that way.
 */
module ProviderWindow {
  import opened Common
  import opened QuotaRefund
  import opened Pipeline
  import opened PipelineFrames
  import opened MidSend
  import F = Finalisation
  import W = WindowBound
  import CS = CampaignSends
  import SW = SlidingWindow

  /** The provider's books as a log. */
  function AsLog(accepted: seq<Acceptance>): (log: seq<SendEvent>)
    ensures |log| == |accepted|
    ensures forall k :: 0 <= k < |log| ==> log[k].time == accepted[k].time
  {
    seq(|accepted|, k requires 0 <= k < |accepted| => EventOf(accepted[k]))
  }

  function EventOf(a: Acceptance): SendEvent { SendEvent(a.channel, a.time, a.campaign, false) }

  lemma AsLogAppend(accepted: seq<Acceptance>, a: Acceptance)
    ensures AsLog(accepted + [a]) == AsLog(accepted) + [EventOf(a)]
  {
  }

  /** Campaign messages the provider took on the channel after `a` ... */
  function TakenAfter(s: State, ch: nat, a: int): nat { W.SentAfter(AsLog(s.accepted), W.Campaigns, ch, a) }

  /** ... and in the window of this length that opens just after `a`. */
  function TakenWithin(accepted: seq<Acceptance>, ch: nat, a: int, window: int): nat {
    W.SentWithin(AsLog(accepted), W.Campaigns, ch, a, a + window)
  }

  lemma {:induction false} NothingLater(log: seq<SendEvent>, scope: W.Scope, ch: nat, a: int)
    requires forall k :: 0 <= k < |log| ==> log[k].time <= a
    ensures W.SentAfter(log, scope, ch, a) == 0
  {
    if log != [] { NothingLater(log[..|log| - 1], scope, ch, a); }
  }

  // ---------------------------------------------------------------------------
  // Between the call and the count
  // ---------------------------------------------------------------------------

  /** The worker of a campaign row of the channel knows of the acceptance and has not counted it. */
  predicate Between(s: State, i: nat, ch: nat) {
    && i in s.rows && s.rows[i].campaign.Some? && i in s.jobs && s.jobs[i].channel == ch
    && (s.jobs[i].phase.Answered? || s.jobs[i].phase.Logged?) && s.jobs[i].phase.answer.accepted
  }

  function Betweens(s: State, ch: nat): set<nat> { set i | i in s.rows && Between(s, i, ch) }

  lemma BetweensMayYetSend(s: State, ch: nat)
    ensures |Betweens(s, ch)| <= |MayYetSend(s, ch)|
  {
    SubsetSize(Betweens(s, ch), MayYetSend(s, ch));
  }

  /**
   * The step leaves an acceptance the rate log will not hear of from this worker: the
   * provider takes the message and its answer says otherwise, or the worker dies with the
   * answer in hand.
   */
  predicate Unheard(s: State, step: Step, ch: nat)
    requires Enabled(s, step)
  {
    && step.Work? && s.rows[step.id].campaign.Some? && s.jobs[step.id].channel == ch
    && match step.work
       case Call(answer, taken) => taken && !answer.accepted
       case Crash(_) => Between(s, step.id, ch)
       case _ => false
  }

  function Misses(s: State, step: Step, ch: nat): nat
    requires Enabled(s, step)
  {
    if Unheard(s, step, ch) then 1 else 0
  }

  /** Every message taken was counted, is with its worker, or was missed. */
  ghost predicate Accounted(s: State, ch: nat, missed: nat) {
    && (forall k :: 0 <= k < |s.accepted| ==> s.accepted[k].time <= s.now)
    && (forall k :: 0 <= k < |s.log| ==> s.log[k].time <= s.now)
    && forall a: int :: TakenAfter(s, ch, a) <= After(s, ch, a) + |Betweens(s, ch)| + missed
  }

  /** Nothing was taken or counted, and the workers in between are the same. */
  lemma SameAccounts(s: State, s': State, ch: nat, missed: nat)
    requires Accounted(s, ch, missed) && s'.accepted == s.accepted && s'.log == s.log && s'.now >= s.now
    requires |Betweens(s', ch)| == |Betweens(s, ch)|
    ensures Accounted(s', ch, missed)
  {
    forall a: int ensures TakenAfter(s', ch, a) <= After(s', ch, a) + |Betweens(s', ch)| + missed {
      assert TakenAfter(s, ch, a) <= After(s, ch, a) + |Betweens(s, ch)| + missed;
    }
  }

  lemma AdminAccounts(s: State, step: AdminStep, ch: nat, missed: nat)
    requires Accounted(s, ch, missed) && EnabledAdmin(s, step)
    ensures Accounted(ApplyAdmin(s, step), ch, missed)
  {
    assert Betweens(ApplyAdmin(s, step), ch) == Betweens(s, ch);
    SameAccounts(s, ApplyAdmin(s, step), ch, missed);
  }

  /** Table writes neither touch jobs at work nor move a row to another campaign. */
  lemma TableKeepsBetweens(s: State, s': State, ch: nat)
    requires JobsHaveRows(s) && RowsKept(s, s') && JobsAddedOrBuried(s, s')
    ensures Betweens(s', ch) == Betweens(s, ch)
  {
    forall i ensures Between(s', i, ch) <==> Between(s, i, ch) {
      if Between(s, i, ch) { assert Live(s, i); }
    }
  }

  lemma TableAccounts(s: State, step: TableStep, ch: nat, missed: nat)
    requires Accounted(s, ch, missed) && JobsHaveRows(s) && EnabledTable(s, step)
    ensures Accounted(ApplyTable(s, step), ch, missed)
  {
    AllTableFrames(s, step);
    TableKeepsBetweens(s, ApplyTable(s, step), ch);
    SameAccounts(s, ApplyTable(s, step), ch, missed);
  }

  /** Only the job of `id` moved, and rows keep their campaigns. */
  ghost predicate OneJobMoved(s: State, s': State, id: nat) {
    && id in s.jobs && id in s.rows
    && s'.rows.Keys == s.rows.Keys && (forall i :: i in s.rows ==> s'.rows[i].campaign == s.rows[i].campaign)
    && (forall i :: i in s.jobs && i != id ==> i in s'.jobs && s'.jobs[i] == s.jobs[i])
    && (forall i :: i in s'.jobs && i != id ==> i in s.jobs)
  }

  lemma OneJobBetweens(s: State, s': State, id: nat, ch: nat)
    requires OneJobMoved(s, s', id)
    ensures |Betweens(s', ch)| == |Betweens(s, ch)| - (if Between(s, id, ch) then 1 else 0) + (if Between(s', id, ch) then 1 else 0)
  {
    forall i | i != id ensures Between(s', i, ch) <==> Between(s, i, ch) {}
    SizeOff(Betweens(s, ch), Betweens(s', ch), id);
  }

  /** Two sets that agree off one element. */
  lemma SizeOff(a: set<nat>, b: set<nat>, id: nat)
    requires forall i :: i != id ==> (i in a <==> i in b)
    ensures |b| == |a| - (if id in a then 1 else 0) + (if id in b then 1 else 0)
  {
    var rest := a - {id};
    assert b - {id} == rest;
    assert a == rest + (if id in a then {id} else {});
    assert b == rest + (if id in b then {id} else {});
  }

  /** The provider takes a message: its worker knows, or it is missed. */
  lemma CallAccounts(s: State, id: nat, answer: Answer, taken: bool, ch: nat, missed: nat)
    requires Accounted(s, ch, missed) && EnabledWork(s, id, Call(answer, taken))
    ensures Accounted(Hear(s, id, answer, taken), ch, missed + Misses(s, Work(id, Call(answer, taken)), ch))
  {
    var s' := Hear(s, id, answer, taken);
    var more := Misses(s, Work(id, Call(answer, taken)), ch);
    OneJobBetweens(s, s', id, ch);
    if taken {
      AsLogAppend(s.accepted, AcceptedNow(s, id, s.jobs[id].phase.op));
      OneMoreTaken(s, s', id, s.jobs[id].phase.op, ch, missed, more);
    } else {
      SameAccounts(s, s', ch, missed);
    }
  }

  lemma OneMoreTaken(s: State, s': State, id: nat, op: nat, ch: nat, missed: nat, more: nat)
    requires Accounted(s, ch, missed) && id in s.rows && id in s.jobs
    requires s'.accepted == s.accepted + [AcceptedNow(s, id, op)] && s'.log == s.log && s'.now == s.now
    requires |Betweens(s', ch)| + more
             == |Betweens(s, ch)| + (if s.rows[id].campaign.Some? && s.jobs[id].channel == ch then 1 else 0)
    ensures Accounted(s', ch, missed + more)
  {
    var e := AcceptedNow(s, id, op);
    AsLogAppend(s.accepted, e);
    forall a: int ensures TakenAfter(s', ch, a) <= After(s', ch, a) + |Betweens(s', ch)| + missed + more {
      W.SentAfterAppend(AsLog(s.accepted), EventOf(e), W.Campaigns, ch, a);
      assert TakenAfter(s, ch, a) <= After(s, ch, a) + |Betweens(s, ch)| + missed;
    }
  }

  /** A settled send moves from the worker to the log. */
  lemma SentAccounts(s: State, id: nat, ch: nat, missed: nat)
    requires Accounted(s, ch, missed) && EnabledWork(s, id, Settle(true))
    ensures Accounted(SettleSent(s, id), ch, missed)
  {
    var s' := SettleSent(s, id);
    OneJobBetweens(s, s', id, ch);
    SentLogs(s, id, ch);
    OneMoreCounted(s, s', s'.log[|s.log|], ch, missed);
  }

  lemma OneMoreCounted(s: State, s': State, e: SendEvent, ch: nat, missed: nat)
    requires Accounted(s, ch, missed) && s'.log == s.log + [e] && e.time == s.now && s'.now == s.now
    requires s'.accepted == s.accepted
    requires |Betweens(s', ch)| + (if W.Hit(e, W.Campaigns, ch) then 1 else 0) >= |Betweens(s, ch)|
    ensures Accounted(s', ch, missed)
  {
    forall a: int ensures TakenAfter(s', ch, a) <= After(s', ch, a) + |Betweens(s', ch)| + missed {
      W.SentAfterAppend(s.log, e, W.Campaigns, ch, a);
      assert TakenAfter(s, ch, a) <= After(s, ch, a) + |Betweens(s, ch)| + missed;
      if s.now <= a { NothingLater(AsLog(s.accepted), W.Campaigns, ch, a); }
    }
  }

  /** A worker that dies with the answer in hand takes it along. */
  lemma CrashAccounts(s: State, id: nat, dead: bool, ch: nat, missed: nat)
    requires Accounted(s, ch, missed) && EnabledWork(s, id, Crash(dead))
    ensures Accounted(Drop(s, id, dead), ch, missed + Misses(s, Work(id, Crash(dead)), ch))
  {
    var s' := Drop(s, id, dead);
    OneJobBetweens(s, s', id, ch);
    forall a: int
      ensures TakenAfter(s', ch, a) <= After(s', ch, a) + |Betweens(s', ch)| + missed + Misses(s, Work(id, Crash(dead)), ch)
    {
      assert TakenAfter(s, ch, a) <= After(s, ch, a) + |Betweens(s, ch)| + missed;
    }
  }

  lemma CheckAccounts(s: State, id: nat, v: Verdict, ch: nat, missed: nat)
    requires Accounted(s, ch, missed) && EnabledWork(s, id, Check(v))
    ensures Accounted(ApplyWork(s, id, Check(v)), ch, missed)
  {
    var o := CheckOutcome(s, id, v);
    OutcomeFrame(s, id, o);
    OneJobBetweens(s, ApplyOutcome(s, id, o), id, ch);
    SameAccounts(s, ApplyOutcome(s, id, o), ch, missed);
  }

  lemma ReserveAccounts(s: State, id: nat, ch: nat, missed: nat)
    requires Accounted(s, ch, missed) && EnabledWork(s, id, Reserve)
    ensures Accounted(ApplyWork(s, id, Reserve), ch, missed)
  {
    var s' := ApplyWork(s, id, Reserve);
    if UnitsOf(s.quota, s.rows[id].tenant) <= 0 { FailCampaignFrame(SetPhase(s, id, Done(true)), id); }
    OneJobBetweens(s, s', id, ch);
    SameAccounts(s, s', ch, missed);
  }

  lemma FailedAccounts(s: State, id: nat, written: bool, ch: nat, missed: nat)
    requires Accounted(s, ch, missed) && EnabledWork(s, id, Settle(written)) && !s.jobs[id].phase.answer.accepted
    ensures Accounted(SettleFailed(s, id, written), ch, missed)
  {
    ClosingFrame(s, id, written);
    FailRowFrame(Closing(s, id, written), id);
    OneJobBetweens(s, SettleFailed(s, id, written), id, ch);
    SameAccounts(s, SettleFailed(s, id, written), ch, missed);
  }

  lemma PersistAccounts(s: State, id: nat, ch: nat, missed: nat)
    requires Accounted(s, ch, missed) && EnabledWork(s, id, Persist)
    ensures Accounted(FixId(s, id), ch, missed)
  {
    OneJobBetweens(s, FixId(s, id), id, ch);
    SameAccounts(s, FixId(s, id), ch, missed);
  }

  /** Throwing, logging the answer, and the end of a job. */
  lemma PhaseAccounts(s: State, id: nat, step: WorkerStep, ch: nat, missed: nat)
    requires Accounted(s, ch, missed) && EnabledWork(s, id, step)
    requires step.Throw? || step.WriteLog? || step.Finish? || step.Lose?
    ensures Accounted(ApplyWork(s, id, step), ch, missed)
  {
    RowsUntouched(s, id, step);
    WorkLogsNothing(s, id, step);
    OneJobBetweens(s, ApplyWork(s, id, step), id, ch);
    SameAccounts(s, ApplyWork(s, id, step), ch, missed);
  }

  lemma WorkAccounts(s: State, id: nat, step: WorkerStep, ch: nat, missed: nat)
    requires Accounted(s, ch, missed) && EnabledWork(s, id, step)
    ensures Accounted(ApplyWork(s, id, step), ch, missed + Misses(s, Work(id, step), ch))
  {
    match step
    case Check(v) => CheckAccounts(s, id, v, ch, missed);
    case Reserve => ReserveAccounts(s, id, ch, missed);
    case Persist => PersistAccounts(s, id, ch, missed);
    case Call(answer, taken) => CallAccounts(s, id, answer, taken, ch, missed);
    case Settle(written) =>
      var answer := s.jobs[id].phase.answer;
      if answer.accepted || answer.duplicate { SentAccounts(s, id, ch, missed); } else { FailedAccounts(s, id, written, ch, missed); }
    case Crash(dead) => CrashAccounts(s, id, dead, ch, missed);
    case _ => PhaseAccounts(s, id, step, ch, missed);
  }

  lemma StepAccounts(s: State, step: Step, ch: nat, missed: nat)
    requires Accounted(s, ch, missed) && JobsHaveRows(s) && Enabled(s, step)
    ensures Accounted(Apply(s, step), ch, missed + Misses(s, step, ch))
  {
    match step
    case Admin(a) => AdminAccounts(s, a, ch, missed);
    case Table(t) => TableAccounts(s, t, ch, missed);
    case Work(id, w) => WorkAccounts(s, id, w, ch, missed);
  }

  // ---------------------------------------------------------------------------
  // Windows
  // ---------------------------------------------------------------------------

  ghost predicate WindowsHold(s: State, ch: nat, w: int, most: int) {
    forall a: int :: TakenWithin(s.accepted, ch, a, w) <= most
  }

  /** The provider's books grow by at most the message taken now. */
  ghost predicate BooksGrow(s: State, s': State) {
    s'.accepted == s.accepted || exists e: Acceptance :: s'.accepted == s.accepted + [e] && e.time == s.now == s'.now
  }

  lemma StepBooks(s: State, step: Step)
    requires Enabled(s, step)
    ensures BooksGrow(s, Apply(s, step))
  {
    match step
    case Admin(_) =>
    case Table(t) => AllTableFrames(s, t);
    case Work(id, w) => WorkBooks(s, id, w);
  }

  lemma WorkBooks(s: State, id: nat, step: WorkerStep)
    requires EnabledWork(s, id, step)
    ensures BooksGrow(s, ApplyWork(s, id, step))
  {
    match step
    case Check(v) => OutcomeFrame(s, id, CheckOutcome(s, id, v));
    case Reserve => FailCampaignFrame(SetPhase(s, id, Done(true)), id);
    case Settle(written) =>
      ClosingFrame(s, id, written);
      FailRowFrame(Closing(s, id, written), id);
    case Call(answer, taken) =>
      assert taken ==> Hear(s, id, answer, taken).accepted == s.accepted + [AcceptedNow(s, id, s.jobs[id].phase.op)];
    case _ =>
  }

  /** What the provider took within a window ending now or later is covered by the permits. */
  lemma WindowsKept(s: State, s': State, ch: nat, w: int, l: int, strays: nat, crashes: nat, missed: nat, before: int)
    requires WindowsHold(s, ch, w, before) && BooksGrow(s, s')
    requires Inv(s', ch, w, l, strays, crashes) && Accounted(s', ch, missed)
    requires before <= W.Cap(s', l) + strays + crashes + missed
    ensures WindowsHold(s', ch, w, W.Cap(s', l) + strays + crashes + missed)
  {
    var most := W.Cap(s', l) + strays + crashes + missed;
    forall a: int ensures TakenWithin(s'.accepted, ch, a, w) <= most {
      assert TakenWithin(s.accepted, ch, a, w) <= before;
      if s'.accepted != s.accepted {
        var e: Acceptance :| s'.accepted == s.accepted + [e] && e.time == s.now == s'.now;
        AsLogAppend(s.accepted, e);
        W.SentWithinAppend(AsLog(s.accepted), EventOf(e), W.Campaigns, ch, a, a + w);
        if a < e.time <= a + w {
          W.WithinIsAfter(AsLog(s'.accepted), W.Campaigns, ch, a, a + w);
          BetweensMayYetSend(s', ch);
          assert After(s', ch, a) + |MayYetSend(s', ch)| <= W.Cap(s', l) + strays + crashes;
          assert TakenAfter(s', ch, a) <= After(s', ch, a) + |Betweens(s', ch)| + missed;
        }
      }
    }
  }

  /** Permits, accounts and windows of the provider together. */
  ghost predicate Covers(s: State, ch: nat, w: int, l: int, strays: nat, crashes: nat, missed: nat) {
    && Inv(s, ch, w, l, strays, crashes) && Accounted(s, ch, missed)
    && WindowsHold(s, ch, w, W.Cap(s, l) + strays + crashes + missed)
  }

  lemma StepCovers(s: State, step: Step, ch: nat, w: int, l: int, strays: nat, crashes: nat, missed: nat)
    requires Covers(s, ch, w, l, strays, crashes, missed) && Enabled(s, step) && F.Coarse(step)
    requires W.TierOf(s, ch, w, l) && FewStrays(s, step, ch, strays)
    ensures Covers(Apply(s, step), ch, w, l, strays, crashes + Late(s, step, ch), missed + Misses(s, step, ch))
  {
    StepKeepsInv(s, step, ch, w, l, strays, crashes);
    StepAccounts(s, step, ch, missed);
    StepBooks(s, step);
    W.StepKeepsConfig(s, step);
    WindowsKept(s, Apply(s, step), ch, w, l, strays, crashes + Late(s, step, ch), missed + Misses(s, step, ch),
      W.Cap(s, l) + strays + crashes + missed);
  }

  /** Acceptances of the run that the rate log never hears of from the worker that made the call. */
  function AllMisses(s: State, steps: seq<Step>, ch: nat): nat
    requires Runs(s, steps)
    decreases |steps|
  {
    if steps == [] then 0 else Misses(s, steps[0], ch) + AllMisses(Apply(s, steps[0]), steps[1..], ch)
  }

  lemma {:induction false} RunCovers(s: State, steps: seq<Step>, ch: nat, w: int, l: int, strays: nat, crashes: nat, missed: nat)
    requires Runs(s, steps) && (forall i :: 0 <= i < |steps| ==> F.Coarse(steps[i]))
    requires Covers(s, ch, w, l, strays, crashes, missed) && W.TierOf(s, ch, w, l) && StraysAtTicks(s, steps, ch, strays)
    ensures Covers(Exec(s, steps), ch, w, l, strays, crashes + LateCrashes(s, steps, ch), missed + AllMisses(s, steps, ch))
    ensures Exec(s, steps).cfg == s.cfg
    decreases |steps|
  {
    if steps != [] {
      StepCovers(s, steps[0], ch, w, l, strays, crashes, missed);
      W.StepKeepsConfig(s, steps[0]);
      RunCovers(Apply(s, steps[0]), steps[1..], ch, w, l, strays, crashes + Late(s, steps[0], ch), missed + Misses(s, steps[0], ch));
    }
  }

  lemma NothingTakenYet(s: State, ch: nat, w: int, l: int, strays: nat)
    requires Initial(s) && W.TierOf(s, ch, w, l)
    ensures Covers(s, ch, w, l, strays, 0, 0)
  {
    InitialInv(s, ch, w, l, strays);
    assert AsLog(s.accepted) == [];
    assert Betweens(s, ch) == {};
  }

  /**
   * Main result: on every run whose ticks are single steps the provider takes, in any window
   * (a, a + W] of a tier, at most MAX_INFLIGHT + max(0, L - 1) campaign messages of the
   * channel, plus the excess the rate log itself may have, plus one for each acceptance
   * whose answer was wrong or died with its worker.
   */
  lemma EveryAcceptanceBounded(s: State, steps: seq<Step>, channel: nat, window: int, limit: int, a: int, strays: nat)
    requires Initial(s) && Runs(s, steps) && (forall i :: 0 <= i < |steps| ==> F.Coarse(steps[i]))
    requires W.TierOf(s, channel, window, limit) && StraysAtTicks(s, steps, channel, strays)
    ensures TakenWithin(Exec(s, steps).accepted, channel, a, window)
            <= s.cfg.maxInflight + Max(0, limit - 1) + strays + LateCrashes(s, steps, channel) + AllMisses(s, steps, channel)
  {
    NothingTakenYet(s, channel, window, limit, strays);
    RunCovers(s, steps, channel, window, limit, strays, 0, 0);
    assert WindowsHold(Exec(s, steps), channel, window, W.Cap(Exec(s, steps), limit) + strays
      + LateCrashes(s, steps, channel) + AllMisses(s, steps, channel));
  }

  // ---------------------------------------------------------------------------
  // A lost answer lets one more through
  // ---------------------------------------------------------------------------

  /** The provider took the message, but what came back looks like an outage. */
  const LOST: Answer := Answer(false, false, true)

  /** One campaign message taken on channel 0 at time 0. */
  ghost predicate OneTaken(s: State) {
    |s.accepted| == 1 && s.accepted[0].channel == 0 && s.accepted[0].time == 0 && s.accepted[0].campaign
  }

  /** The first row's message is taken and its answer lost. */
  lemma AnswerLost() returns (s: State)
    ensures Reached(s) && 0 in s.jobs && s.jobs[0].phase.Answered? && s.jobs[0].phase.answer == LOST
    ensures s.jobs[0].phase.att < |s.attempts| && CS.OnlyWorked(CS.FirstIssued(), s, 0, s.jobs[0].phase)
    ensures OneTaken(s) && UnitsOf(s.quota, 0) == 8
  {
    CS.FirstIsIssued();
    var f := CS.WorkUpToCalling(CS.FirstIssued(), 0);
    StepReached(f, Work(0, Call(LOST, true)));
    s := Hear(f, 0, LOST, true);
  }

  lemma LostAndLogged() returns (s: State)
    ensures Reached(s) && 0 in s.jobs && s.jobs[0].phase.Logged? && s.jobs[0].phase.answer == LOST
    ensures s.jobs[0].phase.att < |s.attempts| && CS.OnlyWorked(CS.FirstIssued(), s, 0, s.jobs[0].phase)
    ensures OneTaken(s) && UnitsOf(s.quota, 0) == 8
  {
    var t := AnswerLost();
    StepReached(t, Work(0, WriteLog(true)));
    s := ApplyWork(t, 0, WriteLog(true));
  }

  /** The row is failed: the channel looks idle and unused. */
  lemma FailedThoughTaken() returns (s: State)
    ensures Reached(s) && s.cfg == CS.TwoCampaigns(0).cfg && s.now == 0 && s.log == [] && OneTaken(s)
    ensures s.rows.Keys == {0, 1} && s.rows[0].status == Failed && s.rows[1] == CS.NewRow(1) && s.jobs.Keys == {0}
    ensures 1 in s.campaigns && s.campaigns[1].status == Sending && UnitsOf(s.quota, 0) >= 8
  {
    var t := LostAndLogged();
    StepReached(t, Work(0, Settle(false)));
    ClosingFrame(t, 0, false);
    FailRowFrame(Closing(t, 0, false), 0);
    s := SettleFailed(t, 0, false);
  }

  lemma SecondIssuedToo() returns (s: State)
    ensures Reached(s) && s.cfg == CS.TwoCampaigns(0).cfg && s.now == 0 && OneTaken(s) && CS.Ready(s, 1) && s.jobs[1].channel == 0
  {
    var t := FailedThoughTaken();
    assert QueuedOn(t, 0) == {};
    CS.RoomForOne(t, 1);
    StepReached(t, Table(Issue(0, {1})));
    s := ApplyTable(t, Issue(0, {1}));
  }

  /** Two messages at the provider in one second where one second, one send and one in flight are the limits. */
  lemma LostAnswerLetsOneMoreThrough() returns (s: State)
    ensures Reached(s) && W.TierOf(s, 0, SW.SECOND_MS, 1)
    ensures TakenWithin(s.accepted, 0, -1, SW.SECOND_MS) == s.cfg.maxInflight + Max(0, 1 - 1) + 1
  {
    var t := SecondIssuedToo();
    var f := CS.WorkUpToCalling(t, 1);
    CS.ReachedIsSound(t);
    CS.FreshIdUnused(t);
    CS.ToAnswered(f, 1);
    s := Hear(f, 1, CS.OK, true);
    TwoTaken(s.accepted);
  }

  lemma TwoTaken(accepted: seq<Acceptance>)
    requires |accepted| == 2 && forall k :: 0 <= k < 2 ==> accepted[k].channel == 0 && accepted[k].time == 0 && accepted[k].campaign
    ensures TakenWithin(accepted, 0, -1, SW.SECOND_MS) == 2
  {
    var first, second := EventOf(accepted[0]), EventOf(accepted[1]);
    assert AsLog(accepted) == [first] + [second];
    CS.TwoInTheLog(AsLog(accepted), first, second);
  }
}
