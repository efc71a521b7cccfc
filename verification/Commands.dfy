/**
 * Campaign commands and dispatch: what they write, what cancelling decides, and whether the
 * tick can always close a campaign whose audience has been dispatched once it has nothing
 * left to send. It can, with one exception: an empty audience in a campaign paused
 * meanwhile. That one is closed by the dispatch that resuming it queues.
 */
module Commands {
  import opened Common
  import opened Pipeline
  import opened PipelineFrames
  import F = Finalisation

  predicate Stands(s: State, c: nat, st: CampaignStatus) { c in s.campaigns && s.campaigns[c].status == st }

  // ---------------------------------------------------------------------------
  // Cancelling
  // ---------------------------------------------------------------------------

  /** Cancelling skips every pending or queued recipient of the campaign and touches no other row, job or campaign. */
  lemma CancelSkips(s: State, c: nat)
    requires EnabledTable(s, Cancel(c))
    ensures var e := ApplyTable(s, Cancel(c));
      && Stands(e, c, Canceled) && BooksUnchanged(s, e) && e.jobs == s.jobs && e.rows.Keys == s.rows.Keys
      && (forall i :: i in s.rows ==>
            e.rows[i] == if s.rows[i].campaign == Some(c) && (s.rows[i].status == Pending || s.rows[i].status == Queued)
                         then s.rows[i].(status := Skipped, touched := s.now) else s.rows[i])
      && e.campaigns.Keys == s.campaigns.Keys && forall d :: d in s.campaigns && d != c ==> e.campaigns[d] == s.campaigns[d]
  {
  }

  /** Pausing and resuming change the campaign's state and nothing else. */
  lemma PauseAndResume(s: State, c: nat)
    ensures EnabledAdmin(s, Pause(c)) <==> Stands(s, c, Sending) || Stands(s, c, Scheduled)
    ensures EnabledAdmin(s, Pause(c)) ==> var e := ApplyAdmin(s, Pause(c));
              e == s.(campaigns := e.campaigns) && OnlyMoved(s, e, c, Paused)
    ensures EnabledAdmin(s, Resume(c)) <==> Stands(s, c, Paused)
    ensures EnabledAdmin(s, Resume(c)) ==> var e := ApplyAdmin(s, Resume(c));
              e == s.(campaigns := e.campaigns) && OnlyMoved(s, e, c, Sending)
  {
  }

  ghost predicate OnlyMoved(s: State, e: State, c: nat, st: CampaignStatus) {
    && c in s.campaigns && e.campaigns.Keys == s.campaigns.Keys && e.campaigns[c] == s.campaigns[c].(status := st)
    && forall d :: d in s.campaigns && d != c ==> e.campaigns[d] == s.campaigns[d]
  }

  /** Recipients and flow sends are born pending, with the sender and channel given and no operation id, and touch nothing else. */
  lemma BornPending(s: State, step: TableStep)
    requires EnabledTable(s, step) && (step.Insert? || step.FlowCreate?)
    ensures var e := ApplyTable(s, step);
      && step.id !in s.rows && e == s.(rows := s.rows[step.id := e.rows[step.id]])
      && e.rows[step.id].channel == step.channel && e.rows[step.id].sender == step.sender
      && e.rows[step.id].status == Pending && e.rows[step.id].messageId == None && e.rows[step.id].touched == s.now
      && (step.Insert? ==> e.rows[step.id].campaign == Some(step.campaign) && step.campaign in s.campaigns
                           && e.rows[step.id].tenant == s.campaigns[step.campaign].tenant)
      && (step.FlowCreate? ==> e.rows[step.id].campaign == None && e.rows[step.id].tenant == step.tenant)
  {
  }

  // ---------------------------------------------------------------------------
  // The end of a dispatch
  // ---------------------------------------------------------------------------

  /** Once closed or cancelled a campaign never sends again. */
  ghost predicate Over(s: State, c: nat) { Stands(s, c, Closed) || Stands(s, c, Canceled) }

  /** Its recipients are counted. */
  ghost predicate Published(s: State, c: nat) {
    c in s.campaigns && s.campaigns[c].total > 0 && RowsOf(s, c) != {}
  }

  lemma AdminKeepsOver(s: State, step: AdminStep, c: nat)
    requires EnabledAdmin(s, step) && Over(s, c)
    ensures Over(ApplyAdmin(s, step), c)
  {
  }

  lemma TableKeepsOver(s: State, step: TableStep, c: nat)
    requires EnabledTable(s, step) && Over(s, c)
    ensures Over(ApplyTable(s, step), c)
  {
  }

  lemma FailingKeepsOver(s: State, id: nat, c: nat)
    requires id in s.rows && Over(s, c)
    ensures Over(FailRow(s, id), c) && Over(FailCampaign(s, id), c)
  {
  }

  lemma OutcomeKeepsOver(s: State, id: nat, o: Outcome, c: nat)
    requires id in s.rows && id in s.jobs && Over(s, c)
    ensures Over(ApplyOutcome(s, id, o), c)
  {
    match o
    case Fail(throws) => FailingKeepsOver(SetPhase(s, id, Done(!throws)), id, c);
    case FailAll => FailingKeepsOver(SetPhase(s, id, Done(true)), id, c);
    case _ =>
  }

  lemma WorkKeepsOver(s: State, id: nat, step: WorkerStep, c: nat)
    requires EnabledWork(s, id, step) && Over(s, c)
    ensures Over(ApplyWork(s, id, step), c)
  {
    match step
    case Check(v) => OutcomeKeepsOver(s, id, CheckOutcome(s, id, v), c);
    case Reserve => FailingKeepsOver(SetPhase(s, id, Done(true)), id, c);
    case Settle(written) =>
      ClosingFrame(s, id, written);
      FailingKeepsOver(Closing(s, id, written), id, c);
    case _ =>
  }

  lemma StepKeepsOver(s: State, step: Step, c: nat)
    requires Enabled(s, step) && Over(s, c)
    ensures Over(Apply(s, step), c)
  {
    match step
    case Admin(a) => AdminKeepsOver(s, a, c);
    case Table(t) => TableKeepsOver(s, t, c);
    case Work(id, w) => WorkKeepsOver(s, id, w, c);
  }

  lemma AdminKeepsPublished(s: State, step: AdminStep, c: nat)
    requires EnabledAdmin(s, step) && Published(s, c)
    ensures Published(ApplyAdmin(s, step), c)
  {
    assert RowsOf(ApplyAdmin(s, step), c) == RowsOf(s, c);
  }

  lemma KeptIsPublished(s: State, s': State, c: nat)
    requires F.TotalsKept(s, s') && Published(s, c)
    ensures Published(s', c)
  {
    var i :| i in RowsOf(s, c);
    assert i in RowsOf(s', c);
  }

  lemma StepKeepsPublished(s: State, step: Step, c: nat)
    requires Enabled(s, step) && Published(s, c)
    ensures Published(Apply(s, step), c)
  {
    match step
    case Admin(a) => AdminKeepsPublished(s, a, c);
    case Table(t) =>
      F.TableTotals(s, t);
      KeptIsPublished(s, ApplyTable(s, t), c);
    case Work(id, w) =>
      F.WorkTotals(s, id, w);
      KeptIsPublished(s, ApplyWork(s, id, w), c);
  }

  lemma {:induction false} OverForGood(s: State, steps: seq<Step>, c: nat)
    requires Over(s, c) && Runs(s, steps)
    ensures Over(Exec(s, steps), c)
    decreases |steps|
  {
    if steps != [] {
      StepKeepsOver(s, steps[0], c);
      OverForGood(Apply(s, steps[0]), steps[1..], c);
    }
  }

  lemma {:induction false} PublishedForGood(s: State, steps: seq<Step>, c: nat)
    requires Published(s, c) && Runs(s, steps)
    ensures Published(Exec(s, steps), c)
    decreases |steps|
  {
    if steps != [] {
      StepKeepsPublished(s, steps[0], c);
      PublishedForGood(Apply(s, steps[0]), steps[1..], c);
    }
  }

  /** Whatever happens from here on, whenever the campaign is sending with nothing left to send, the tick may close it. */
  ghost predicate NeverDangles(s: State, c: nat) {
    forall steps :: Runs(s, steps) ==> !Dangles(Exec(s, steps), c)
  }

  /** Sending, with no open recipient, and beyond the reach of the tick's drained check. */
  ghost predicate Dangles(s: State, c: nat) {
    Stands(s, c, Sending) && ActiveRows(s, c) == {} && !EnabledAdmin(s, CloseDrained(c))
  }

  /** What the end of a dispatch writes: the number of rows, and the start of a scheduled campaign that has any. */
  lemma DispatchWrites(s: State, c: nat)
    requires EnabledAdmin(s, DispatchEnd(c))
    ensures var e := ApplyAdmin(s, DispatchEnd(c)); var was := s.campaigns[c].status;
      && e.(campaigns := s.campaigns) == s && e.campaigns.Keys == s.campaigns.Keys
      && (forall d :: d in s.campaigns && d != c ==> e.campaigns[d] == s.campaigns[d])
      && e.campaigns[c].tenant == s.campaigns[c].tenant && e.campaigns[c].dispatchers == s.campaigns[c].dispatchers - 1
      && (RowsOf(s, c) != {} ==> e.campaigns[c].total == |RowsOf(s, c)|
                                 && (Stands(s, c, Scheduled) ==> Stands(e, c, Sending)) && (!Stands(s, c, Scheduled) ==> Stands(e, c, was)))
      && (RowsOf(s, c) == {} ==>
            if was == Scheduled || was == Sending then Stands(e, c, Closed) && e.campaigns[c].total == 0
            else Stands(e, c, was) && e.campaigns[c].total == s.campaigns[c].total)
  {
  }

  /**
   * Main result: whatever happens after its dispatch, the tick can close a campaign once it
   * is drained, if and only if the dispatch found recipients or was not overtaken by a pause:
   * with an empty audience the paused campaign is neither closed nor counted, and once
   * resumed it is sending with nothing to send.
   */
  lemma DispatchedClosesIff(s: State, c: nat)
    requires EnabledAdmin(s, DispatchEnd(c)) && s.campaigns[c].total <= |RowsOf(s, c)|
    ensures NeverDangles(ApplyAdmin(s, DispatchEnd(c)), c) <==> RowsOf(s, c) != {} || s.campaigns[c].status != Paused
  {
    var e := ApplyAdmin(s, DispatchEnd(c));
    DispatchWrites(s, c);
    assert RowsOf(e, c) == RowsOf(s, c);
    if RowsOf(s, c) == {} && s.campaigns[c].status == Paused {
      Resumed(e, c);
    } else {
      forall steps | Runs(e, steps) ensures !Dangles(Exec(e, steps), c) {
        if RowsOf(s, c) != {} { PublishedForGood(e, steps, c); } else { OverForGood(e, steps, c); }
      }
    }
  }

  /** The dispatch that resuming queues finds the audience as empty as before and closes the campaign. */
  lemma RedispatchCloses(s: State, c: nat)
    requires Stands(s, c, Paused) && RowsOf(s, c) == {} && s.campaigns[c].total == 0
    ensures EnabledAdmin(s, Resume(c))
    ensures var resumed := ApplyAdmin(s, Resume(c)); EnabledAdmin(resumed, DispatchStart(c))
    ensures var started := ApplyAdmin(ApplyAdmin(s, Resume(c)), DispatchStart(c));
      EnabledAdmin(started, DispatchEnd(c)) && Stands(ApplyAdmin(started, DispatchEnd(c)), c, Closed)
  {
    var started := ApplyAdmin(ApplyAdmin(s, Resume(c)), DispatchStart(c));
    assert RowsOf(started, c) == RowsOf(s, c);
    DispatchWrites(started, c);
  }

  lemma Resumed(e: State, c: nat)
    requires Stands(e, c, Paused) && RowsOf(e, c) == {} && e.campaigns[c].total == 0
    ensures !NeverDangles(e, c)
  {
    var step := Admin(Resume(c));
    assert Runs(e, []) && Exec(e, []) == e;
    RunsExtend(e, [], step);
    var steps := [] + [step];
    assert ActiveRows(Exec(e, steps), c) <= RowsOf(e, c);
    assert Runs(e, steps) && Dangles(Exec(e, steps), c);
  }
}
