/**
 * Prepaid quota: over every interleaving of campaign and flow workers the units a tenant
 * was granted are either still there or accounted for by exactly one reservation each.
 */
module Ledger {
  import opened Common
  import opened QuotaRefund
  import opened Pipeline
  import opened PipelineFrames

  /** A failure the platform pays for; success and "already exists" count as delivered. */
  predicate Refundable(a: Answer) { a.platformSide && !a.accepted && !a.duplicate }

  // ---------------------------------------------------------------------------
  // Counting attempts
  // ---------------------------------------------------------------------------

  function One(a: Attempt, t: nat, f: Fate): nat { if a.tenant == t && a.fate == f then 1 else 0 }

  /** Attempts of tenant `t` that ended in fate `f`. */
  function Count(attempts: seq<Attempt>, t: nat, f: Fate): nat {
    if attempts == [] then 0
    else Count(attempts[..|attempts| - 1], t, f) + One(attempts[|attempts| - 1], t, f)
  }

  function Unreturned(attempts: seq<Attempt>, t: nat): nat {
    Count(attempts, t, Open) + Count(attempts, t, Charged) + Count(attempts, t, Leaked)
  }

  lemma {:induction false} CountUpdate(attempts: seq<Attempt>, k: nat, a: Attempt, t: nat, f: Fate)
    requires k < |attempts|
    ensures Count(attempts[k := a], t, f) + One(attempts[k], t, f) == Count(attempts, t, f) + One(a, t, f)
  {
    var n := |attempts| - 1;
    if k == n {
      assert attempts[k := a][..n] == attempts[..n];
    } else {
      CountUpdate(attempts[..n], k, a, t, f);
      assert attempts[k := a][..n] == attempts[..n][k := a];
    }
  }

  lemma UnreturnedUpdate(attempts: seq<Attempt>, k: nat, a: Attempt, t: nat)
    requires k < |attempts| && attempts[k].fate == Open && a.tenant == attempts[k].tenant
    ensures Unreturned(attempts[k := a], t) ==
            Unreturned(attempts, t) - (if a.fate == Refunded && a.tenant == t then 1 else 0)
  {
    CountUpdate(attempts, k, a, t, Open);
    CountUpdate(attempts, k, a, t, Charged);
    CountUpdate(attempts, k, a, t, Leaked);
  }

  // ---------------------------------------------------------------------------
  // Invariant
  // ---------------------------------------------------------------------------

  function AnswerOf(p: Phase): Option<Answer>
    requires Holds(p)
  {
    if p.Answered? || p.Logged? then Some(p.answer) else None
  }

  predicate Carries(s: State, id: nat, att: nat) {
    id in s.jobs && Holds(s.jobs[id].phase) && s.jobs[id].phase.att == att
  }

  /** The reservation a worker carries is open and its own. */
  ghost predicate Linked(s: State, id: nat)
    requires id in s.jobs && Holds(s.jobs[id].phase)
  {
    var p := s.jobs[id].phase;
    && id in s.rows
    && p.att < |s.attempts|
    && s.attempts[p.att] == Attempt(s.rows[id].tenant, id, AnswerOf(p), Open)
  }

  /** The fate of a reservation is the one its answer calls for. */
  ghost predicate Justified(a: Attempt) {
    match a.fate
    case Charged => a.answer.Some? && !Refundable(a.answer.value)
    case Refunded => a.answer.None? || Refundable(a.answer.value)
    case _ => true
  }

  ghost predicate Balanced(s: State) {
    forall t: nat ::
      && UnitsOf(s.quota, t) >= 0
      && UnitsOf(s.quota, t) + Unreturned(s.attempts, t) == UnitsOf(s.granted, t)
  }

  ghost predicate Inv(s: State) {
    && Balanced(s)
    && (forall id :: id in s.jobs && Holds(s.jobs[id].phase) ==> Linked(s, id))
    && (forall k :: 0 <= k < |s.attempts| && s.attempts[k].fate == Open ==> Carries(s, s.attempts[k].row, k))
    && (forall k :: 0 <= k < |s.attempts| ==> Justified(s.attempts[k]))
  }

  lemma InitialInv(s: State)
    requires Initial(s)
    ensures Inv(s)
  {
  }

  // ---------------------------------------------------------------------------
  // The four things that can happen to the books
  // ---------------------------------------------------------------------------

  /** Nothing: reservations stay with the workers that carry them. */
  lemma BooksKept(s: State, s': State)
    requires Inv(s) && s'.attempts == s.attempts
    requires forall t: nat :: UnitsOf(s'.quota, t) - UnitsOf(s.quota, t) == UnitsOf(s'.granted, t) - UnitsOf(s.granted, t) >= 0
    requires forall i :: i in s.rows ==> i in s'.rows && s'.rows[i].tenant == s.rows[i].tenant
    requires forall i :: i in s'.jobs && Holds(s'.jobs[i].phase) ==>
               i in s.jobs && Holds(s.jobs[i].phase) && s.jobs[i].phase.att == s'.jobs[i].phase.att
               && AnswerOf(s.jobs[i].phase) == AnswerOf(s'.jobs[i].phase)
    requires forall i :: i in s.jobs && Holds(s.jobs[i].phase) ==>
               i in s'.jobs && Holds(s'.jobs[i].phase) && s'.jobs[i].phase.att == s.jobs[i].phase.att
    ensures Inv(s')
  {
  }

  /** A unit is reserved. */
  lemma UnitTaken(s: State, s': State, id: nat, p: Phase)
    requires Inv(s) && id in s.rows && id in s.jobs && !Holds(s.jobs[id].phase)
    requires Holds(p) && AnswerOf(p) == None && p.att == |s.attempts|
    requires JobMoved(s, s', id, p) && s'.rows == s.rows && s'.granted == s.granted
    requires UnitsOf(s.quota, s.rows[id].tenant) > 0
    requires s'.quota == s.quota[s.rows[id].tenant := UnitsOf(s.quota, s.rows[id].tenant) - 1]
    requires s'.attempts == s.attempts + [Attempt(s.rows[id].tenant, id, None, Open)]
    ensures Inv(s')
  {
  }

  /** The reservation a worker carries is resolved and the worker lets go of it. */
  lemma UnitResolved(s: State, s': State, id: nat, p: Phase, fate: Fate)
    requires Inv(s) && id in s.jobs && Holds(s.jobs[id].phase) && !Holds(p) && fate != Open
    requires Linked(s, id) && Justified(s.attempts[s.jobs[id].phase.att].(fate := fate))
    requires JobMoved(s, s', id, p) && s'.granted == s.granted
    requires forall i :: i in s.rows ==> i in s'.rows && s'.rows[i].tenant == s.rows[i].tenant
    requires s'.attempts == s.attempts[s.jobs[id].phase.att := s.attempts[s.jobs[id].phase.att].(fate := fate)]
    requires s'.quota == if fate == Refunded then s.quota[s.rows[id].tenant := UnitsOf(s.quota, s.rows[id].tenant) + 1] else s.quota
    ensures Inv(s')
  {
    var k := s.jobs[id].phase.att;
    var a := s.attempts[k].(fate := fate);
    forall t: nat
      ensures UnitsOf(s'.quota, t) >= 0 && UnitsOf(s'.quota, t) + Unreturned(s'.attempts, t) == UnitsOf(s'.granted, t)
    {
      UnreturnedUpdate(s.attempts, k, a, t);
      assert UnitsOf(s.quota, t) >= 0;
    }
    forall i | i in s'.jobs && Holds(s'.jobs[i].phase) ensures Linked(s', i) {
      assert Linked(s, i);
    }
    forall j | 0 <= j < |s'.attempts| && s'.attempts[j].fate == Open ensures Carries(s', s'.attempts[j].row, j) {
      assert Carries(s, s.attempts[j].row, j);
    }
  }

  /** The provider's answer is entered against the reservation. */
  lemma UnitAnswered(s: State, s': State, id: nat, p: Phase, answer: Answer)
    requires Inv(s) && id in s.jobs && Holds(s.jobs[id].phase) && Linked(s, id)
    requires Holds(p) && p.att == s.jobs[id].phase.att && AnswerOf(p) == Some(answer)
    requires JobMoved(s, s', id, p) && s'.rows == s.rows && s'.quota == s.quota && s'.granted == s.granted
    requires s'.attempts == s.attempts[p.att := s.attempts[p.att].(answer := Some(answer))]
    ensures Inv(s')
  {
    forall t: nat
      ensures UnitsOf(s'.quota, t) >= 0 && UnitsOf(s'.quota, t) + Unreturned(s'.attempts, t) == UnitsOf(s'.granted, t)
    {
      UnreturnedUpdate(s.attempts, p.att, s'.attempts[p.att], t);
      assert UnitsOf(s.quota, t) >= 0;
    }
    forall i | i in s'.jobs && Holds(s'.jobs[i].phase) ensures Linked(s', i) {
      assert Linked(s, i);
    }
    forall j | 0 <= j < |s'.attempts| && s'.attempts[j].fate == Open ensures Carries(s', s'.attempts[j].row, j) {
      assert Carries(s, s.attempts[j].row, j);
    }
  }

  // ---------------------------------------------------------------------------
  // Every step
  // ---------------------------------------------------------------------------

  lemma AdminInv(s: State, step: AdminStep)
    requires Inv(s) && EnabledAdmin(s, step)
    ensures Inv(ApplyAdmin(s, step))
  {
  }

  lemma TableInv(s: State, step: TableStep)
    requires Inv(s) && EnabledTable(s, step)
    ensures Inv(ApplyTable(s, step))
  {
    AllTableFrames(s, step);
    TableKept(s, ApplyTable(s, step));
  }

  lemma TableKept(s: State, s': State)
    requires Inv(s) && TableFrame(s, s')
    ensures Inv(s')
  {
  }

  lemma CheckInv(s: State, id: nat, v: Verdict)
    requires Inv(s) && EnabledWork(s, id, Check(v))
    ensures Inv(ApplyWork(s, id, Check(v)))
  {
    var o := CheckOutcome(s, id, v);
    OutcomeFrame(s, id, o);
    BooksKept(s, ApplyOutcome(s, id, o));
  }

  lemma ReserveInv(s: State, id: nat)
    requires Inv(s) && EnabledWork(s, id, Reserve)
    ensures Inv(ApplyWork(s, id, Reserve))
  {
    if UnitsOf(s.quota, s.rows[id].tenant) > 0 {
      UnitTaken(s, TakeUnit(s, id), id, TakeUnit(s, id).jobs[id].phase);
    } else {
      var done := SetPhase(s, id, Done(true));
      JobDone(s, id);
      FailCampaignFrame(done, id);
      EndedInv(done, FailCampaign(done, id));
    }
  }

  /** A worker without a reservation ends its job. */
  lemma JobDone(s: State, id: nat)
    requires Inv(s) && id in s.jobs && !Holds(s.jobs[id].phase)
    ensures Inv(SetPhase(s, id, Done(true)))
  {
    BooksKept(s, SetPhase(s, id, Done(true)));
  }

  lemma ThrowInv(s: State, id: nat, written: bool)
    requires Inv(s) && EnabledWork(s, id, Throw(written))
    ensures Inv(ApplyWork(s, id, Throw(written)))
  {
    assert Linked(s, id);
    UnitResolved(s, ApplyWork(s, id, Throw(written)), id, Done(false), if written then Refunded else Leaked);
  }

  lemma CrashInv(s: State, id: nat, dead: bool)
    requires Inv(s) && EnabledWork(s, id, Crash(dead))
    ensures Inv(Drop(s, id, dead))
  {
    if Holds(s.jobs[id].phase) {
      assert Linked(s, id);
      UnitResolved(s, Drop(s, id, dead), id, if dead then Dead else Waiting, Leaked);
    } else {
      BooksKept(s, Drop(s, id, dead));
    }
  }

  lemma CallInv(s: State, id: nat, answer: Answer, taken: bool)
    requires Inv(s) && EnabledWork(s, id, Call(answer, taken))
    ensures Inv(ApplyWork(s, id, Call(answer, taken)))
  {
    assert Linked(s, id);
    var s' := ApplyWork(s, id, Call(answer, taken));
    UnitAnswered(s, s', id, s'.jobs[id].phase, answer);
  }

  lemma SentInv(s: State, id: nat)
    requires Inv(s) && EnabledWork(s, id, Settle(true))
    requires s.jobs[id].phase.answer.accepted || s.jobs[id].phase.answer.duplicate
    ensures Inv(SettleSent(s, id))
  {
    assert Linked(s, id);
    UnitResolved(s, SettleSent(s, id), id, Done(true), Charged);
  }

  lemma ClosingInv(s: State, id: nat, written: bool)
    requires Inv(s) && EnabledWork(s, id, Settle(written))
    requires !s.jobs[id].phase.answer.accepted && !s.jobs[id].phase.answer.duplicate
    ensures Inv(Closing(s, id, written))
  {
    assert Linked(s, id);
    var fate := if !s.jobs[id].phase.answer.platformSide then Charged else if written then Refunded else Leaked;
    UnitResolved(s, Closing(s, id, written), id, Done(false), fate);
  }

  /** Failing rows does not touch the books. */
  lemma EndedInv(s: State, s': State)
    requires Inv(s) && BooksUnchanged(s, s') && s'.jobs == s.jobs && RowsFailedOrHeld(s, s')
    ensures Inv(s')
  {
    BooksKept(s, s');
  }

  lemma SettleInv(s: State, id: nat, written: bool)
    requires Inv(s) && EnabledWork(s, id, Settle(written))
    ensures Inv(ApplyWork(s, id, Settle(written)))
  {
    var answer := s.jobs[id].phase.answer;
    if answer.accepted || answer.duplicate {
      SentInv(s, id);
    } else {
      ClosingInv(s, id, written);
      FailRowFrame(Closing(s, id, written), id);
      EndedInv(Closing(s, id, written), SettleFailed(s, id, written));
    }
  }

  /** Persisting the id carries the reservation along. */
  lemma PersistInv(s: State, id: nat)
    requires Inv(s) && EnabledWork(s, id, Persist)
    ensures Inv(FixId(s, id))
  {
    FixIdFrame(s, id);
    CarriedOn(s, FixId(s, id), id, FixId(s, id).jobs[id].phase);
  }

  /** A worker moves on with its reservation, no answer yet. */
  lemma CarriedOn(s: State, s': State, id: nat, p: Phase)
    requires Inv(s) && JobMoved(s, s', id, p) && s.jobs[id].phase.Reserved? && p.Persisted? && p.att == s.jobs[id].phase.att
    requires s'.attempts == s.attempts && s'.quota == s.quota && s'.granted == s.granted
    requires forall i :: i in s.rows ==> i in s'.rows && s'.rows[i].tenant == s.rows[i].tenant
    ensures Inv(s')
  {
    BooksKept(s, s');
  }

  lemma WriteLogInv(s: State, id: nat, written: bool)
    requires Inv(s) && EnabledWork(s, id, WriteLog(written))
    ensures Inv(ApplyWork(s, id, WriteLog(written)))
  {
  }

  lemma EndInv(s: State, id: nat, step: WorkerStep)
    requires Inv(s) && EnabledWork(s, id, step) && (step.Finish? || step.Lose?)
    ensures Inv(ApplyWork(s, id, step))
  {
    BooksKept(s, ApplyWork(s, id, step));
  }

  lemma StepInv(s: State, step: Step)
    requires Inv(s) && Enabled(s, step)
    ensures Inv(Apply(s, step))
  {
    match step
    case Admin(a) => AdminInv(s, a);
    case Table(t) => TableInv(s, t);
    case Work(id, w) =>
      match w {
        case Check(v) => CheckInv(s, id, v);
        case Reserve => ReserveInv(s, id);
        case Throw(written) => ThrowInv(s, id, written);
        case Crash(dead) => CrashInv(s, id, dead);
        case Call(answer, taken) => CallInv(s, id, answer, taken);
        case Settle(written) => SettleInv(s, id, written);
        case Persist => PersistInv(s, id);
        case WriteLog(written) => WriteLogInv(s, id, written);
        case _ => EndInv(s, id, w);
      }
  }

  lemma {:induction false} RunInv(s: State, steps: seq<Step>)
    requires Inv(s) && Runs(s, steps)
    ensures Inv(Exec(s, steps))
    decreases |steps|
  {
    if steps != [] {
      StepInv(s, steps[0]);
      RunInv(Apply(s, steps[0]), steps[1..]);
    }
  }

  // ---------------------------------------------------------------------------
  // Main results
  // ---------------------------------------------------------------------------

  /** Rows whose worker currently carries a reservation charged to the tenant. */
  function InFlight(s: State, t: nat): set<nat> {
    set i | i in s.jobs && Holds(s.jobs[i].phase) && i in s.rows && s.rows[i].tenant == t
  }

  /** Rows of the open reservations of the tenant. */
  function OpenRows(attempts: seq<Attempt>, t: nat): set<nat> {
    if attempts == [] then {}
    else
      var last := attempts[|attempts| - 1];
      OpenRows(attempts[..|attempts| - 1], t) + (if last.tenant == t && last.fate == Open then {last.row} else {})
  }

  lemma {:induction false} OpenRowHasAttempt(attempts: seq<Attempt>, t: nat, r: nat) returns (k: nat)
    requires r in OpenRows(attempts, t)
    ensures k < |attempts| && attempts[k].tenant == t && attempts[k].fate == Open && attempts[k].row == r
  {
    var n := |attempts| - 1;
    if r in OpenRows(attempts[..n], t) {
      k := OpenRowHasAttempt(attempts[..n], t, r);
    } else {
      k := n;
    }
  }

  lemma {:induction false} AttemptIsOpenRow(attempts: seq<Attempt>, t: nat, k: nat)
    requires k < |attempts| && attempts[k].tenant == t && attempts[k].fate == Open
    ensures attempts[k].row in OpenRows(attempts, t)
  {
    if k < |attempts| - 1 { AttemptIsOpenRow(attempts[..|attempts| - 1], t, k); }
  }

  lemma {:induction false} OpenRowsCounted(attempts: seq<Attempt>, t: nat)
    requires forall j, k :: 0 <= j < k < |attempts| && attempts[j].fate == Open && attempts[k].fate == Open ==> attempts[j].row != attempts[k].row
    ensures |OpenRows(attempts, t)| == Count(attempts, t, Open)
  {
    if attempts != [] {
      var n := |attempts| - 1;
      var last := attempts[n];
      OpenRowsCounted(attempts[..n], t);
      if last.tenant == t && last.fate == Open && last.row in OpenRows(attempts[..n], t) {
        var k := OpenRowHasAttempt(attempts[..n], t, last.row);
      }
    }
  }

  lemma InFlightCounted(s: State, t: nat)
    requires Inv(s)
    ensures |InFlight(s, t)| == Count(s.attempts, t, Open)
  {
    forall j, k | 0 <= j < k < |s.attempts| && s.attempts[j].fate == Open && s.attempts[k].fate == Open
      ensures s.attempts[j].row != s.attempts[k].row
    {
      assert Carries(s, s.attempts[j].row, j) && Carries(s, s.attempts[k].row, k);
    }
    OpenRowsCounted(s.attempts, t);
    assert InFlight(s, t) == OpenRows(s.attempts, t) by {
      forall i | i in InFlight(s, t) ensures i in OpenRows(s.attempts, t) {
        assert Linked(s, i);
        AttemptIsOpenRow(s.attempts, t, s.jobs[i].phase.att);
      }
      forall i | i in OpenRows(s.attempts, t) ensures i in InFlight(s, t) {
        var k := OpenRowHasAttempt(s.attempts, t, i);
        assert Carries(s, i, k);
        assert Linked(s, i);
      }
    }
  }

  /**
   * Main result: what is left, what workers carry, what was charged and what crashes lost
   * add up to what was granted; the balance never goes below zero; and a reservation ends
   * charged or refunded as the provider's answer demands.
   */
  lemma UnitsAddUp(s: State, steps: seq<Step>, t: nat)
    requires Initial(s) && Runs(s, steps)
    ensures var e := Exec(s, steps);
      && UnitsOf(e.quota, t) >= 0
      && UnitsOf(e.quota, t) + |InFlight(e, t)| + Count(e.attempts, t, Charged) + Count(e.attempts, t, Leaked)
         == UnitsOf(e.granted, t)
      && (forall k :: 0 <= k < |e.attempts| ==> Justified(e.attempts[k]))
  {
    InitialInv(s);
    RunInv(s, steps);
    InFlightCounted(Exec(s, steps), t);
    assert Balanced(Exec(s, steps));
    assert UnitsOf(Exec(s, steps).quota, t) >= 0;
  }

  /** A step that loses a reservation: a worker dies holding it, or the refund write fails. */
  predicate Lossless(step: Step) {
    !(step.Work? && (step.work.Crash? || step.work == Throw(false) || step.work == Settle(false)))
  }

  ghost predicate NoneLeaked(s: State) {
    forall k :: 0 <= k < |s.attempts| ==> s.attempts[k].fate != Leaked
  }

  lemma StepLeaksNothing(s: State, step: Step)
    requires Enabled(s, step) && Lossless(step) && NoneLeaked(s)
    ensures NoneLeaked(Apply(s, step))
  {
    match step
    case Admin(a) =>
    case Table(t) => AllTableFrames(s, t);
    case Work(id, w) => WorkLeaksNothing(s, id, w);
  }

  lemma SettleLeaksNothing(s: State, id: nat)
    requires EnabledWork(s, id, Settle(true)) && NoneLeaked(s)
    ensures NoneLeaked(ApplyWork(s, id, Settle(true)))
  {
    ClosingLeaksNothing(s, id);
    FailRowFrame(Closing(s, id, true), id);
    SameAttempts(Closing(s, id, true), SettleFailed(s, id, true));
  }

  lemma ClosingLeaksNothing(s: State, id: nat)
    requires EnabledWork(s, id, Settle(true)) && NoneLeaked(s)
    ensures NoneLeaked(Closing(s, id, true))
  {
  }

  lemma SameAttempts(s: State, s': State)
    requires NoneLeaked(s) && s'.attempts == s.attempts
    ensures NoneLeaked(s')
  {
  }

  lemma ReserveLeaksNothing(s: State, id: nat)
    requires EnabledWork(s, id, Reserve) && NoneLeaked(s)
    ensures NoneLeaked(ApplyWork(s, id, Reserve))
  {
    FailCampaignFrame(SetPhase(s, id, Done(true)), id);
  }

  lemma WorkLeaksNothing(s: State, id: nat, step: WorkerStep)
    requires EnabledWork(s, id, step) && Lossless(Work(id, step)) && NoneLeaked(s)
    ensures NoneLeaked(ApplyWork(s, id, step))
  {
    match step
    case Check(v) => OutcomeFrame(s, id, CheckOutcome(s, id, v));
    case Reserve => ReserveLeaksNothing(s, id);
    case Settle(_) => SettleLeaksNothing(s, id);
    case _ =>
  }

  lemma {:induction false} LosslessRun(s: State, steps: seq<Step>)
    requires Runs(s, steps) && NoneLeaked(s) && forall i :: 0 <= i < |steps| ==> Lossless(steps[i])
    ensures NoneLeaked(Exec(s, steps))
    decreases |steps|
  {
    if steps != [] {
      StepLeaksNothing(s, steps[0]);
      LosslessRun(Apply(s, steps[0]), steps[1..]);
    }
  }

  lemma {:induction false} NoneLeakedCount(attempts: seq<Attempt>, t: nat)
    requires forall k :: 0 <= k < |attempts| ==> attempts[k].fate != Leaked
    ensures Count(attempts, t, Leaked) == 0
  {
    if attempts != [] { NoneLeakedCount(attempts[..|attempts| - 1], t); }
  }

  /** Without crashes and failed refund writes nothing leaks: the three-way ledger closes. */
  lemma LedgerClosesWithoutFaults(s: State, steps: seq<Step>, t: nat)
    requires Initial(s) && Runs(s, steps) && forall i :: 0 <= i < |steps| ==> Lossless(steps[i])
    ensures var e := Exec(s, steps);
      UnitsOf(e.quota, t) + |InFlight(e, t)| + Count(e.attempts, t, Charged) == UnitsOf(e.granted, t)
  {
    UnitsAddUp(s, steps, t);
    LosslessRun(s, steps);
    NoneLeakedCount(Exec(s, steps).attempts, t);
  }
}
