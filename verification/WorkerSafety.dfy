/** What an uninterrupted send does, end to end, and that it is a run of the pipeline. */
module WorkerSafety {
  import opened Common
  import opened QuotaRefund
  import opened Pipeline
  import opened PipelineFrames
  import opened SendWorker
  import F = Finalisation
  import OnceOnly

  // ---------------------------------------------------------------------------
  // End to end
  // ---------------------------------------------------------------------------

  /** The row's campaign stands at `st`; a flow send has none. */
  predicate CampaignIs(s: State, id: nat, st: CampaignStatus)
    requires id in s.rows
  {
    && s.rows[id].campaign.Some? && s.rows[id].campaign.value in s.campaigns
    && s.campaigns[s.rows[id].campaign.value].status == st
  }

  predicate Undecided(s: State, id: nat)
    requires id in s.rows
  {
    s.rows[id].status == Pending || s.rows[id].status == Queued
  }

  /** Nothing stands in the way: the row undecided, no finding, its campaign neither paused nor cancelled. */
  predicate Cleared(s: State, id: nat, v: Verdict)
    requires id in s.rows
  {
    Undecided(s, id) && v.Proceed? && !CampaignIs(s, id, Paused) && !CampaignIs(s, id, Canceled)
  }

  lemma PassesIff(s: State, id: nat, v: Verdict)
    requires id in s.rows
    ensures CheckOutcome(s, id, v).Pass? <==> Cleared(s, id, v)
  {
  }

  /** The send goes past the checks and gets a unit. */
  predicate Reserves(s: State, id: nat, w: World)
    requires id in s.rows
  {
    Cleared(s, id, w.verdict) && UnitsOf(s.quota, s.rows[id].tenant) > 0
  }

  /** ... and its id is stored and the provider answers. */
  predicate Answers(s: State, id: nat, w: World)
    requires id in s.rows
  {
    Reserves(s, id, w) && !(w.persistFails && s.rows[id].messageId.None?) && !w.transportThrows
  }

  predicate Succeeds(s: State, id: nat, w: World)
    requires id in s.rows
  {
    Answers(s, id, w) && (w.answer.accepted || w.answer.duplicate)
  }

  /** The tenant keeps paying: the answer came and was no platform-side failure, or the refund was lost. */
  predicate Pays(s: State, id: nat, w: World)
    requires id in s.rows
  {
    Reserves(s, id, w) && (Succeeds(s, id, w) || (Answers(s, id, w) && !w.answer.platformSide) || !w.refundWritten)
  }

  /** The job of `id` ended with its row in status `st`, and no other row or job moved. */
  ghost predicate Ended(s: State, e: State, id: nat, st: RowStatus, ok: bool) {
    && id in s.rows && id in s.jobs
    && e.rows.Keys == s.rows.Keys
    && e.rows[id].status == st
    && (forall i :: i in s.rows && i != id ==> e.rows[i] == s.rows[i])
    && e.jobs == s.jobs[id := s.jobs[id].(phase := Done(ok))]
  }

  // ---------------------------------------------------------------------------
  // Sends that end before a unit is taken
  // ---------------------------------------------------------------------------

  /** The job ended well and its row is now `row`; nothing else moved. */
  ghost predicate Becomes(s: State, e: State, id: nat, row: Row) {
    id in s.jobs && e == s.(rows := s.rows[id := row], jobs := s.jobs[id := s.jobs[id].(phase := Done(true))])
  }

  /**
   * The job ended, the rows of `gone` failed, and their campaign closed exactly when it was
   * sending and has no other open row; nothing else moved.
   */
  ghost predicate Fails(s: State, e: State, id: nat, gone: set<nat>, ok: bool) {
    && id in s.rows && id in s.jobs && BooksUnchanged(s, e)
    && e.jobs == s.jobs[id := s.jobs[id].(phase := Done(ok))]
    && e.rows.Keys == s.rows.Keys
    && (forall i :: i in s.rows ==>
          e.rows[i] == if i in gone then s.rows[i].(status := Failed, touched := s.now) else s.rows[i])
    && e.campaigns.Keys == s.campaigns.Keys
    && forall c :: c in s.campaigns ==>
         e.campaigns[c] == if s.rows[id].campaign == Some(c) && s.campaigns[c].status == Sending && ActiveRows(s, c) <= gone
                           then s.campaigns[c].(status := Closed) else s.campaigns[c]
  }

  /** Every open row of the campaign; a flow send has only itself. */
  function Together(s: State, id: nat): set<nat>
    requires id in s.rows
  {
    if s.rows[id].campaign.Some? then ActiveRows(s, s.rows[id].campaign.value) else {id}
  }

  lemma OneFails(s: State, id: nat, ok: bool)
    requires id in s.rows && id in s.jobs
    ensures Fails(s, FailRow(SetPhase(s, id, Done(ok)), id), id, {id}, ok)
  {
    var done := SetPhase(s, id, Done(ok));
    FailRowFrame(done, id);
    forall c ensures ActiveRows(SetStatus(done, id, Failed), c) == ActiveRows(s, c) - {id} {}
  }

  lemma TogetherFail(s: State, id: nat)
    requires id in s.rows && id in s.jobs
    ensures Fails(s, FailCampaign(SetPhase(s, id, Done(true)), id), id, Together(s, id), true)
  {
    var done := SetPhase(s, id, Done(true));
    FailCampaignFrame(done, id);
    if s.rows[id].campaign.Some? {
      var c := s.rows[id].campaign.value;
      assert ActiveRows(done, c) == ActiveRows(s, c);
      assert ActiveRows(SetStatuses(done, ActiveRows(s, c), Failed), c) == {};
    }
  }

  /** A decided row is left alone, whatever the checks find and whatever became of its campaign. */
  lemma DecidedIsLeft(s: State, id: nat, w: World)
    requires id in s.rows && id in s.jobs && !Undecided(s, id)
    ensures Becomes(s, SendRun(s, id, w), id, s.rows[id])
  {
    assert s.rows[id := s.rows[id]] == s.rows;
  }

  /**
   * What the sender rules find comes first: a queued row goes back to pending with its new
   * sender and channel, or is skipped when every sender is blocked. A campaign row that is
   * pending again by now is left alone.
   */
  lemma BlockedSender(s: State, id: nat, w: World)
    requires id in s.rows && id in s.jobs && Undecided(s, id)
    ensures w.verdict.Reroute? ==>
              Becomes(s, SendRun(s, id, w), id,
                      if s.rows[id].status == Queued
                      then s.rows[id].(status := Pending, sender := w.verdict.sender, channel := w.verdict.channel, touched := s.now)
                      else s.rows[id])
    ensures w.verdict.AllBlocked? ==>
              Becomes(s, SendRun(s, id, w), id,
                      if s.rows[id].status == Queued || s.rows[id].campaign.None?
                      then s.rows[id].(status := Skipped, touched := s.now)
                      else s.rows[id])
  {
    assert s.rows[id := s.rows[id]] == s.rows;
  }

  /** Then the sender's name, even while the campaign is paused or cancelled. */
  lemma BadName(s: State, id: nat, w: World)
    requires id in s.rows && id in s.jobs && Undecided(s, id) && w.verdict.BadSenderName?
    ensures Fails(s, SendRun(s, id, w), id, {id}, true)
  {
    var o := CheckOutcome(s, id, w.verdict);
    assert SendRun(s, id, w) == ApplyOutcome(s, id, o);
    OneFails(s, id, true);
  }

  /** Then the campaign: while it is paused the row goes back to pending, once it is cancelled it is skipped. */
  lemma StoppedCampaign(s: State, id: nat, w: World)
    requires id in s.rows && id in s.jobs && Undecided(s, id)
    requires !w.verdict.Reroute? && !w.verdict.AllBlocked? && !w.verdict.BadSenderName?
    ensures CampaignIs(s, id, Paused) ==> Becomes(s, SendRun(s, id, w), id, s.rows[id].(status := Pending, touched := s.now))
    ensures CampaignIs(s, id, Canceled) ==> Becomes(s, SendRun(s, id, w), id, s.rows[id].(status := Skipped, touched := s.now))
  {
  }

  /** Then content, channel, links and transport: the row fails, and with it the job exactly when the error is thrown on. */
  lemma FailedCheck(s: State, id: nat, w: World)
    requires id in s.rows && id in s.jobs && Undecided(s, id) && !CampaignIs(s, id, Paused) && !CampaignIs(s, id, Canceled)
    requires w.verdict.Reject?
    ensures Fails(s, SendRun(s, id, w), id, {id}, !w.verdict.throws)
  {
    var o := CheckOutcome(s, id, w.verdict);
    assert SendRun(s, id, w) == ApplyOutcome(s, id, o);
    OneFails(s, id, !w.verdict.throws);
  }

  /** Last the tracking host and the tenant's units: without either every open row of the campaign fails. */
  lemma NothingToSendWith(s: State, id: nat, w: World)
    requires id in s.rows && id in s.jobs && Undecided(s, id) && !CampaignIs(s, id, Paused) && !CampaignIs(s, id, Canceled)
    requires w.verdict.NoTrackingHost? || (w.verdict.Proceed? && UnitsOf(s.quota, s.rows[id].tenant) <= 0)
    ensures Fails(s, SendRun(s, id, w), id, Together(s, id), true)
  {
    TogetherFail(s, id);
    PassesIff(s, id, w.verdict);
    assert SetPhase(Passed(s, id), id, Done(true)) == SetPhase(s, id, Done(true));
  }

  // ---------------------------------------------------------------------------
  // The three ways a reservation ends
  // ---------------------------------------------------------------------------

  /**
   * The reservation `att` met its fate and its tenant got `units` back; no other reservation
   * and no other tenant is affected, and the provider's books stay as they were.
   */
  ghost predicate UnitSettled(s: State, e: State, att: nat, fate: Fate, units: int) {
    && att < |s.attempts| && |e.attempts| == |s.attempts|
    && e.attempts[att].fate == fate && e.attempts[att].tenant == s.attempts[att].tenant && e.attempts[att].answer == s.attempts[att].answer
    && (forall k :: 0 <= k < |s.attempts| && k != att ==> e.attempts[k] == s.attempts[k])
    && (forall t: nat :: UnitsOf(e.quota, t) == UnitsOf(s.quota, t) + (if t == s.attempts[att].tenant then units else 0))
    && e.granted == s.granted && e.accepted == s.accepted && e.delivered == s.delivered
  }

  lemma UnitMoves(s: State, att: nat)
    requires att < |s.attempts|
    ensures UnitSettled(s, Refund(s, att, true), att, Refunded, 1)
    ensures UnitSettled(s, Refund(s, att, false), att, Leaked, 0)
    ensures UnitSettled(s, Resolve(s, att, Charged), att, Charged, 0)
  {
  }

  /** Given back before the provider was reached: the row stays as it was for the retry, the unit returns if the write lands. */
  lemma GivenBackOutcome(s: State, id: nat, written: bool)
    requires id in s.rows && id in s.jobs && Holds(s.jobs[id].phase) && s.jobs[id].phase.att < |s.attempts|
    ensures var e := Returned(s, id, written); var att := s.jobs[id].phase.att;
      && Ended(s, e, id, s.rows[id].status, false) && e.rows[id] == s.rows[id]
      && UnitSettled(s, e, att, if written then Refunded else Leaked, if written then 1 else 0)
      && e.log == s.log && e.campaigns == s.campaigns
  {
    UnitMoves(s, s.jobs[id].phase.att);
  }

  /** Marked sent: the row carries the id the provider took, the unit is spent, and one send is counted on the job's channel now. */
  lemma SentOutcome(s: State, id: nat)
    requires id in s.rows && id in s.jobs && s.jobs[id].phase.Logged? && s.jobs[id].phase.att < |s.attempts|
    ensures var e := SettleSent(s, id); var p := s.jobs[id].phase;
      && Ended(s, e, id, Sent, true) && e.rows[id].messageId == Some(p.op)
      && UnitSettled(s, e, p.att, Charged, 0)
      && |e.log| == |s.log| + 1 && e.log[..|s.log|] == s.log
      && e.log[|s.log|].channel == s.jobs[id].channel && e.log[|s.log|].time == s.now
      && (e.log[|s.log|].campaign <==> s.rows[id].campaign.Some?)
      && e.campaigns == s.campaigns
  {
    UnitMoves(s, s.jobs[id].phase.att);
  }

  /**
   * Marked failed: the unit comes back exactly for a platform-side failure whose refund
   * lands, no send is counted, and the row's campaign closes exactly when it is sending and
   * this was its last open row.
   */
  lemma FailedOutcome(s: State, id: nat, written: bool)
    requires id in s.rows && id in s.jobs && s.jobs[id].phase.Logged? && s.jobs[id].phase.att < |s.attempts|
    ensures var e := SettleFailed(s, id, written); var p := s.jobs[id].phase;
      && Ended(s, e, id, Failed, false) && e.rows[id].messageId == s.rows[id].messageId
      && (if p.answer.platformSide then UnitSettled(s, e, p.att, if written then Refunded else Leaked, if written then 1 else 0)
          else UnitSettled(s, e, p.att, Charged, 0))
      && e.log == s.log
    ensures forall c :: !F.IsClosed(s, c) && F.IsClosed(SettleFailed(s, id, written), c) <==>
              && s.rows[id].campaign == Some(c) && c in s.campaigns && s.campaigns[c].status == Sending
              && ActiveRows(s, c) <= {id}
  {
    var paid := Closing(s, id, written);
    ClosingFrame(s, id, written);
    UnitMoves(s, s.jobs[id].phase.att);
    FailRowFrame(paid, id);
    FailedEnds(paid, id);
    forall c ensures !F.IsClosed(s, c) && F.IsClosed(FailRow(paid, id), c) <==>
              && s.rows[id].campaign == Some(c) && c in s.campaigns && s.campaigns[c].status == Sending
              && ActiveRows(s, c) <= {id}
    {
      LastOneCloses(paid, id, c);
      assert ActiveRows(paid, c) == ActiveRows(s, c);
    }
  }

  /** Failing a row touches no other row. */
  lemma FailedEnds(s: State, id: nat)
    requires id in s.rows
    ensures var e := FailRow(s, id);
      e.rows.Keys == s.rows.Keys && e.rows[id].status == Failed && forall i :: i in s.rows && i != id ==> e.rows[i] == s.rows[i]
  {
  }

  /** A campaign closes with its last open row. */
  lemma LastOneCloses(s: State, id: nat, c: nat)
    requires id in s.rows
    ensures !F.IsClosed(s, c) && F.IsClosed(FailRow(s, id), c) <==>
            && s.rows[id].campaign == Some(c) && c in s.campaigns && s.campaigns[c].status == Sending
            && ActiveRows(s, c) <= {id}
  {
    var failed := SetStatus(s, id, Failed);
    assert ActiveRows(failed, c) == ActiveRows(s, c) - {id};
  }

  // ---------------------------------------------------------------------------
  // From the provider's answer on
  // ---------------------------------------------------------------------------

  lemma DeliveredOutcome(s: State, id: nat, w: World)
    requires id in s.rows && id in s.jobs && s.jobs[id].phase.Persisted? && s.jobs[id].phase.att < |s.attempts|
    ensures var e := Delivered(s, id, w);
      var ok := w.answer.accepted || w.answer.duplicate;
      && Ended(s, e, id, if ok then Sent else Failed, ok)
      && e.accepted == (if w.taken then s.accepted + [AcceptedNow(s, id, s.jobs[id].phase.op)] else s.accepted)
      && |e.log| == |s.log| + (if ok then 1 else 0)
  {
  }

  lemma DeliveredPays(s: State, id: nat, w: World)
    requires id in s.rows && id in s.jobs && s.jobs[id].phase.Persisted? && s.jobs[id].phase.att < |s.attempts|
    ensures var e := Delivered(s, id, w);
      var ok := w.answer.accepted || w.answer.duplicate;
      var t := s.attempts[s.jobs[id].phase.att].tenant;
      UnitsOf(e.quota, t) == UnitsOf(s.quota, t) + (if !ok && w.answer.platformSide && w.refundWritten then 1 else 0)
  {
  }

  /**
   * The job of `id` ended (see Ended); the provider took a message under the row's id or
   * nothing at all, the rate log grew by `logged` and tenant `t` gained `units`.
   */
  ghost predicate Result(s: State, e: State, id: nat, st: RowStatus, ok: bool, took: bool, logged: nat, t: nat, units: int) {
    && Ended(s, e, id, st, ok)
    && e.accepted == (if took then s.accepted + [AcceptedNow(s, id, OperationId(s, id))] else s.accepted)
    && |e.log| == |s.log| + logged
    && UnitsOf(e.quota, t) == UnitsOf(s.quota, t) + units
  }

  /** The provider is reached from a reserved job. */
  predicate Reaches(s: State, id: nat, w: World)
    requires id in s.rows
  {
    !(w.persistFails && s.rows[id].messageId.None?) && !w.transportThrows
  }

  /** Storing the operation id changes nothing else that counts. */
  ghost predicate IdStored(s: State, f: State, id: nat) {
    && id in s.rows && id in s.jobs
    && f.now == s.now && f.rows.Keys == s.rows.Keys && f.rows[id].status == s.rows[id].status
    && f.rows[id].campaign == s.rows[id].campaign
    && (forall i :: i in s.rows && i != id ==> f.rows[i] == s.rows[i])
    && OperationId(f, id) == OperationId(s, id)
    && f.jobs.Keys == s.jobs.Keys && f.jobs[id].channel == s.jobs[id].channel
    && (forall i :: i in s.jobs && i != id ==> f.jobs[i] == s.jobs[i])
    && f.accepted == s.accepted && f.log == s.log && f.quota == s.quota && f.attempts == s.attempts
  }

  lemma StoreId(s: State, id: nat)
    requires id in s.rows && id in s.jobs && s.jobs[id].phase.Reserved? && s.jobs[id].phase.seen == s.rows[id].messageId
    ensures IdStored(s, FixId(s, id), id)
    ensures var p := FixId(s, id).jobs[id].phase; p == Persisted(OperationId(s, id), s.jobs[id].phase.att)
  {
  }

  lemma ResultAfterStore(s: State, f: State, e: State, id: nat, st: RowStatus, ok: bool, took: bool, logged: nat, t: nat, units: int)
    requires IdStored(s, f, id) && Result(f, e, id, st, ok, took, logged, t, units)
    ensures Result(s, e, id, st, ok, took, logged, t, units)
  {
  }

  lemma UnreachedOutcome(s: State, id: nat, w: World)
    requires id in s.rows && id in s.jobs && s.jobs[id].phase.Reserved? && s.jobs[id].phase.att < |s.attempts|
    requires s.jobs[id].phase.seen == s.rows[id].messageId && !Reaches(s, id, w)
    ensures Result(s, Attempted(s, id, w), id, s.rows[id].status, false, false, 0,
                   s.attempts[s.jobs[id].phase.att].tenant, if w.refundWritten then 1 else 0)
  {
  }

  predicate Ok(w: World) { w.answer.accepted || w.answer.duplicate }

  function Units(w: World): int { if !Ok(w) && w.answer.platformSide && w.refundWritten then 1 else 0 }

  lemma DeliveredResult(s: State, id: nat, w: World)
    requires id in s.rows && id in s.jobs && s.jobs[id].phase.Persisted? && s.jobs[id].phase.att < |s.attempts|
    requires s.jobs[id].phase.op == OperationId(s, id)
    ensures Result(s, Delivered(s, id, w), id, if Ok(w) then Sent else Failed, Ok(w), w.taken, if Ok(w) then 1 else 0,
                   s.attempts[s.jobs[id].phase.att].tenant, Units(w))
  {
    DeliveredOutcome(s, id, w);
    DeliveredPays(s, id, w);
  }

  lemma ReachedOutcome(s: State, id: nat, w: World)
    requires id in s.rows && id in s.jobs && s.jobs[id].phase.Reserved? && s.jobs[id].phase.att < |s.attempts|
    requires s.jobs[id].phase.seen == s.rows[id].messageId && Reaches(s, id, w)
    ensures Result(s, Attempted(s, id, w), id, if Ok(w) then Sent else Failed, Ok(w), w.taken, if Ok(w) then 1 else 0,
                   s.attempts[s.jobs[id].phase.att].tenant, Units(w))
  {
    StoreId(s, id);
    DeliveredResult(FixId(s, id), id, w);
    ResultAfterStore(s, FixId(s, id), Delivered(FixId(s, id), id, w), id, if Ok(w) then Sent else Failed, Ok(w), w.taken,
      if Ok(w) then 1 else 0, s.attempts[s.jobs[id].phase.att].tenant, Units(w));
  }

  /** Taking the unit changes nothing else that counts. */
  ghost predicate UnitTaken(s: State, r: State, id: nat) {
    && id in s.rows && id in s.jobs
    && r.now == s.now && r.rows == s.rows && r.nextOp == s.nextOp && r.accepted == s.accepted && r.log == s.log
    && r.jobs == s.jobs[id := s.jobs[id].(phase := Reserved(s.rows[id].messageId, |s.attempts|))]
    && |r.attempts| == |s.attempts| + 1 && r.attempts[|s.attempts|].tenant == s.rows[id].tenant
    && UnitsOf(r.quota, s.rows[id].tenant) == UnitsOf(s.quota, s.rows[id].tenant) - 1
  }

  lemma HoldingKeeps(s: State, id: nat)
    requires id in s.rows && id in s.jobs
    ensures UnitTaken(s, Holding(s, id), id)
  {
  }

  lemma ResultAfterTaking(s: State, r: State, e: State, id: nat, st: RowStatus, ok: bool, took: bool, logged: nat, units: int)
    requires UnitTaken(s, r, id) && Result(r, e, id, st, ok, took, logged, s.rows[id].tenant, units)
    ensures Result(s, e, id, st, ok, took, logged, s.rows[id].tenant, units - 1)
  {
  }

  lemma HoldingOutcome(s: State, r: State, id: nat, w: World)
    requires UnitTaken(s, r, id) && Reserves(s, id, w)
    ensures Result(s, Attempted(r, id, w), id,
                   if Succeeds(s, id, w) then Sent else if Answers(s, id, w) then Failed else s.rows[id].status,
                   Succeeds(s, id, w), Answers(s, id, w) && w.taken, if Succeeds(s, id, w) then 1 else 0,
                   s.rows[id].tenant, if Pays(s, id, w) then -1 else 0)
  {
    if Reaches(r, id, w) {
      ReachedOutcome(r, id, w);
      ResultAfterTaking(s, r, Attempted(r, id, w), id, if Ok(w) then Sent else Failed, Ok(w), w.taken,
        if Ok(w) then 1 else 0, Units(w));
    } else {
      UnreachedOutcome(r, id, w);
      ResultAfterTaking(s, r, Attempted(r, id, w), id, s.rows[id].status, false, false, 0, if w.refundWritten then 1 else 0);
    }
  }

  /** A send that gets past the checks and has a unit touches no other row and ends its job. */
  lemma ReservedOutcome(s: State, id: nat, w: World)
    requires id in s.rows && id in s.jobs && Reserves(s, id, w)
    ensures Result(s, SendRun(s, id, w), id,
                   if Succeeds(s, id, w) then Sent else if Answers(s, id, w) then Failed else s.rows[id].status,
                   Succeeds(s, id, w), Answers(s, id, w) && w.taken, if Succeeds(s, id, w) then 1 else 0,
                   s.rows[id].tenant, if Pays(s, id, w) then -1 else 0)
  {
    PassesIff(s, id, w.verdict);
    HoldingKeeps(s, id);
    HoldingOutcome(s, Holding(s, id), id, w);
  }

  /** A send stopped by its checks or by an empty account ends its job, sends nothing and costs nothing. */
  lemma StoppedOutcome(s: State, id: nat, w: World)
    requires id in s.rows && id in s.jobs && s.jobs[id].phase.Waiting? && !Reserves(s, id, w)
    ensures var e := SendRun(s, id, w);
      && id in e.rows && id in e.jobs && e.jobs[id].phase.Done?
      && (e.rows[id].status == Sent ==> s.rows[id].status == Sent)
      && e.accepted == s.accepted && e.log == s.log && e.quota == s.quota
  {
    var o := CheckOutcome(s, id, w.verdict);
    PassesIff(s, id, w.verdict);
    OutcomeFrame(s, id, o);
    if o.Pass? { FailCampaignFrame(SetPhase(Passed(s, id), id, Done(true)), id); }
  }

  /**
   * Main result for one send: the row becomes sent exactly on an acceptance or a duplicate,
   * the provider's books grow only under the row's own operation id, the rate log grows by
   * one exactly when the row is sent, and the tenant is down one unit exactly when it pays.
   */
  lemma SendOutcome(s: State, id: nat, w: World)
    requires id in s.rows && id in s.jobs && s.jobs[id].phase.Waiting?
    ensures var e := SendRun(s, id, w); var t := s.rows[id].tenant;
      && id in e.rows && id in e.jobs && e.jobs[id].phase.Done?
      && (s.rows[id].status != Sent ==> (e.rows[id].status == Sent <==> Succeeds(s, id, w)))
      && e.accepted == (if Answers(s, id, w) && w.taken then s.accepted + [AcceptedNow(s, id, OperationId(s, id))] else s.accepted)
      && |e.log| == |s.log| + (if Succeeds(s, id, w) then 1 else 0)
      && UnitsOf(e.quota, t) == UnitsOf(s.quota, t) - (if Pays(s, id, w) then 1 else 0)
  {
    if Reserves(s, id, w) {
      ReservedOutcome(s, id, w);
    } else {
      StoppedOutcome(s, id, w);
    }
  }

  // ---------------------------------------------------------------------------
  // By what the provider said
  // ---------------------------------------------------------------------------

  /** What is written of a delivery: the operation id on a sent row, one log entry now on the job's channel, and the proof the sweep looks for. */
  ghost predicate Written(s: State, e: State, id: nat, op: nat, sent: bool, proof: bool) {
    && id in s.rows && id in s.jobs && id in e.rows
    && (sent ==> e.rows[id].messageId == Some(op))
    && (sent ==> |e.log| == |s.log| + 1 && e.log[..|s.log|] == s.log
                 && e.log[|s.log|].channel == s.jobs[id].channel && e.log[|s.log|].time == s.now
                 && (e.log[|s.log|].campaign <==> s.rows[id].campaign.Some?))
    && (!sent ==> e.log == s.log)
    && e.delivered == if proof then s.delivered + {id} else s.delivered
  }

  predicate Proves(s: State, id: nat, w: World)
    requires id in s.rows
  {
    w.answer.accepted && w.logWritten && s.rows[id].campaign.Some?
  }

  lemma DeliveredWrites(s: State, id: nat, w: World)
    requires id in s.rows && id in s.jobs && s.jobs[id].phase.Persisted? && s.jobs[id].phase.att < |s.attempts|
    ensures Written(s, Delivered(s, id, w), id, s.jobs[id].phase.op, Ok(w), Proves(s, id, w))
  {
    var n := Noted(Hear(s, id, w.answer, w.taken), id, w.logWritten);
    assert n.log == s.log && n.now == s.now && n.jobs[id].phase == Logged(s.jobs[id].phase.op, s.jobs[id].phase.att, w.answer);
    if Ok(w) {
      SentOutcome(n, id);
    } else {
      ClosingFrame(n, id, w.refundWritten);
      FailRowFrame(Closing(n, id, w.refundWritten), id);
    }
  }

  lemma AttemptWrites(s: State, r: State, id: nat, w: World)
    requires UnitTaken(s, r, id) && r.delivered == s.delivered && Reaches(r, id, w)
    ensures Written(s, Attempted(r, id, w), id, OperationId(s, id), Ok(w), Proves(s, id, w))
  {
    StoreId(r, id);
    DeliveredWrites(FixId(r, id), id, w);
  }

  /** The provider has the message, now or from an earlier attempt. */
  predicate HasIt(result: SendResult) { result.ok || result.alreadyExists }

  /** No response at all, or a response that blames the platform's side. */
  ghost predicate PlatformsFault(result: SendResult) {
    result.providerStatus == "Error"
    || exists code: nat :: code < 1000 && result.providerStatus == HttpStatus(code) && (500 <= code || code in {401, 403, 408, 429})
  }

  /**
   * Main result, in the provider's own words: the row ends sent under its operation id when
   * the provider took the message or had it already, and failed otherwise, the job with it;
   * the tenant pays unless the failure is the platform's and the refund is written.
   */
  lemma ResultSettles(s: State, id: nat, w: World, result: SendResult)
    requires id in s.rows && id in s.jobs && s.jobs[id].phase.Waiting? && Answers(s, id, w) && w.answer == Classify(result)
    ensures var e := SendRun(s, id, w); var t := s.rows[id].tenant;
      && id in e.rows && id in e.jobs && e.rows[id].status == (if HasIt(result) then Sent else Failed)
      && e.jobs[id].phase == Done(HasIt(result))
      && Written(s, e, id, OperationId(s, id), HasIt(result), result.ok && w.logWritten && s.rows[id].campaign.Some?)
      && UnitsOf(e.quota, t) == UnitsOf(s.quota, t) - (if !HasIt(result) && PlatformsFault(result) && w.refundWritten then 0 else 1)
  {
    PassesIff(s, id, w.verdict);
    PlatformSideIff(result);
    ReservedOutcome(s, id, w);
    HoldingKeeps(s, id);
    AttemptWrites(s, Holding(s, id), id, w);
    assert PlatformsFault(result) && !result.ok <==> IsPlatformSideFailure(result);
  }

  // ---------------------------------------------------------------------------
  // As a run
  // ---------------------------------------------------------------------------

  ghost predicate WorkRun(s: State, id: nat, steps: seq<Step>, s': State) {
    && Runs(s, steps) && Exec(s, steps) == s'
    && forall k :: 0 <= k < |steps| ==> steps[k].Work? && steps[k].id == id
  }

  /** Some run of worker steps of the job of `id` leads from one state to the other. */
  ghost predicate Works(s: State, id: nat, s': State) {
    exists steps :: WorkRun(s, id, steps, s')
  }

  lemma WorksOn(s: State, id: nat, mid: State, w: WorkerStep)
    requires Works(s, id, mid) && EnabledWork(mid, id, w)
    ensures Works(s, id, ApplyWork(mid, id, w))
  {
    var steps :| WorkRun(s, id, steps, mid);
    RunsExtend(s, steps, Work(id, w));
    assert WorkRun(s, id, steps + [Work(id, w)], ApplyWork(mid, id, w));
  }

  lemma WorksNot(s: State, id: nat)
    ensures Works(s, id, s)
  {
    assert WorkRun(s, id, [], s);
  }

  lemma DeliveredWorks(s: State, id: nat, p: State, w: World)
    requires Works(s, id, p)
    requires id in p.rows && id in p.jobs && p.jobs[id].phase.Persisted? && p.jobs[id].phase.att < |p.attempts|
    requires ProviderMayAnswer(p, p.jobs[id].phase.op, w.answer, w.taken)
    ensures Works(s, id, Delivered(p, id, w))
  {
    WorksOn(s, id, p, Call(w.answer, w.taken));
    var heard := Hear(p, id, w.answer, w.taken);
    WorksOn(s, id, heard, WriteLog(w.logWritten));
    WorksOn(s, id, Noted(heard, id, w.logWritten), Settle(w.refundWritten));
  }

  lemma AttemptedWorks(s: State, id: nat, r: State, w: World)
    requires Works(s, id, r)
    requires id in r.rows && id in r.jobs && r.jobs[id].phase.Reserved? && r.jobs[id].phase.att < |r.attempts|
    requires r.jobs[id].phase.seen == r.rows[id].messageId
    requires ProviderMayAnswer(r, OperationId(r, id), w.answer, w.taken)
    ensures Works(s, id, Attempted(r, id, w))
  {
    if w.persistFails && r.rows[id].messageId.None? {
      WorksOn(s, id, r, Throw(w.refundWritten));
    } else {
      WorksOn(s, id, r, Persist);
      if w.transportThrows {
        WorksOn(s, id, FixId(r, id), Throw(w.refundWritten));
      } else {
        DeliveredWorks(s, id, FixId(r, id), w);
      }
    }
  }

  /** Main result: an uninterrupted send is a run of worker steps, whatever the world does. */
  lemma SendIsARun(s: State, id: nat, w: World)
    requires MayRun(s, id, w)
    ensures Works(s, id, SendRun(s, id, w))
  {
    WorksNot(s, id);
    WorksOn(s, id, s, Check(w.verdict));
    var o := CheckOutcome(s, id, w.verdict);
    if o.Pass? {
      WorksOn(s, id, Passed(s, id), Reserve);
      if UnitsOf(s.quota, s.rows[id].tenant) > 0 { AttemptedWorks(s, id, Holding(s, id), w); }
    }
  }

  /** A job sent twice, however the first attempt ended, still leaves one acceptance. */
  lemma SendKeepsOnceOnly(s: State, id: nat, w: World)
    requires OnceOnly.Inv(s) && MayRun(s, id, w)
    ensures OnceOnly.Inv(SendRun(s, id, w))
  {
    SendIsARun(s, id, w);
    var steps :| WorkRun(s, id, steps, SendRun(s, id, w));
    OnceOnly.RunInv(s, steps);
  }
}
