/**
 * The scheduler tick as the program runs it: sweep, close drained campaigns, finalise
 * exhausted ones, then hand out each channel's budget to pending rows while a mutable
 * per-tenant budget lasts. Each part is proved against a function of the state before, the
 * allocation against what the tick promises, and the whole is a run of the pipeline.
 */
module Tick {
  import opened Common
  import opened Pipeline
  import opened Recovery
  import F = Finalisation
  import SW = SlidingWindow

  const STALE_SWEEP_INTERVAL_MS := 60_000

  // ---------------------------------------------------------------------------
  // Reconciling: drained and exhausted campaigns
  // ---------------------------------------------------------------------------

  function SendingCampaigns(s: State): set<nat> {
    set c | c in s.campaigns && s.campaigns[c].status == Sending
  }

  /** The campaigns among `cs` with a pending or queued row. */
  function ActiveAmong(s: State, cs: set<nat>): set<nat> {
    set i | i in s.rows && s.rows[i].campaign.Some? && s.rows[i].campaign.value in cs && !Terminal(s.rows[i].status)
      :: s.rows[i].campaign.value
  }

  function DrainedAmong(s: State, cs: set<nat>, active: set<nat>): set<nat> {
    set c | c in cs && c in s.campaigns && s.campaigns[c].total > 0 && c !in active
  }

  function CloseAll(s: State, cs: set<nat>): State {
    s.(campaigns := map c | c in s.campaigns ::
                      if c in cs && s.campaigns[c].status == Sending then s.campaigns[c].(status := Closed) else s.campaigns[c])
  }

  function Broke(s: State, cs: set<nat>): set<nat> {
    set c | c in cs && c in s.campaigns && UnitsOf(s.quota, s.campaigns[c].tenant) <= 0
  }

  predicate OpenIn(s: State, i: nat, cs: set<nat>)
    requires i in s.rows
  {
    s.rows[i].campaign.Some? && s.rows[i].campaign.value in cs && !Terminal(s.rows[i].status)
  }

  /** Fail what is open in the campaigns and close them. */
  function ExhaustAll(s: State, cs: set<nat>): State {
    s.(rows := map i | i in s.rows :: if OpenIn(s, i, cs) then s.rows[i].(status := Failed, touched := s.now) else s.rows[i],
       campaigns := map c | c in s.campaigns :: if c in cs then s.campaigns[c].(status := Closed) else s.campaigns[c])
  }

  // ---------------------------------------------------------------------------
  // Allocation
  // ---------------------------------------------------------------------------

  function TenantOf(s: State, i: nat): nat
    requires i in s.rows
  {
    if s.rows[i].campaign.Some? && s.rows[i].campaign.value in s.campaigns then s.campaigns[s.rows[i].campaign.value].tenant else 0
  }

  function PendingOn(s: State, eligible: set<nat>, channel: nat): set<nat> {
    set i | i in s.rows && s.rows[i].campaign.Some? && s.rows[i].campaign.value in eligible
            && s.rows[i].status == Pending && s.rows[i].channel == channel
  }

  /** The rows the tick fetches for a channel: the oldest pending ones, as many as its budget. */
  function Candidates(s: State, eligible: set<nat>, channel: nat): seq<nat> {
    var pending := Sorted(PendingOn(s, eligible, channel));
    pending[..Max(0, Min(|pending|, Budget(s, channel)))]
  }

  function OfTenant(s: State, ids: set<nat>, tenant: nat): set<nat> {
    set i | i in ids && i in s.rows && TenantOf(s, i) == tenant
  }

  function OnChannel(s: State, ids: set<nat>, channel: nat): set<nat> {
    set i | i in ids && i in s.rows && s.rows[i].channel == channel
  }

  /** Rows `ids` published and marked, all else as before. */
  function Granted(s: State, ids: set<nat>): State
    requires ids <= s.rows.Keys
  {
    s.(rows := map i | i in s.rows :: if i in ids then s.rows[i].(status := Queued, touched := s.now) else s.rows[i],
       jobs := map i | i in s.jobs.Keys + ids :: if i in s.jobs then s.jobs[i] else Job(s.rows[i].channel, Waiting))
  }

  /** Everything taken is among the candidates of its channel. */
  ghost predicate FromCandidates(s: State, eligible: set<nat>, ids: set<nat>) {
    forall i :: i in ids ==> i in s.rows && i in Candidates(s, eligible, s.rows[i].channel)
  }

  /** No tenant is promised more than it has left. */
  ghost predicate WithinQuota(s: State, ids: set<nat>) {
    forall t :: |OfTenant(s, ids, t)| <= Max(0, UnitsOf(s.quota, t))
  }

  /** A candidate is passed over only when its tenant's units are all promised. */
  ghost predicate NothingWasted(s: State, eligible: set<nat>, channel: nat, ids: set<nat>) {
    forall i :: i in Candidates(s, eligible, channel) && i !in ids ==>
      i in s.rows && UnitsOf(s.quota, TenantOf(s, i)) <= |OfTenant(s, ids, TenantOf(s, i))|
  }

  /** Row `i` is older than `j`, of the same tenant and on the same channel. */
  predicate OlderAlike(s: State, i: nat, j: nat) {
    i < j && i in s.rows && j in s.rows && s.rows[i].channel == s.rows[j].channel && TenantOf(s, i) == TenantOf(s, j)
  }

  /** A tenant's rows are taken oldest first. */
  ghost predicate InOrder(s: State, eligible: set<nat>, channel: nat, ids: set<nat>) {
    forall i, j :: i in Candidates(s, eligible, channel) && j in ids && OlderAlike(s, i, j) ==> i in ids
  }

  /**
   * What a tick may queue: candidates only, within every tenant's units, oldest first, and
   * all the candidates those units allow.
   */
  ghost predicate Allocation(s: State, eligible: set<nat>, ids: set<nat>) {
    && FromCandidates(s, eligible, ids)
    && WithinQuota(s, ids)
    && forall ch: nat :: NothingWasted(s, eligible, ch, ids) && InOrder(s, eligible, ch, ids)
  }

  /** What is left of each tenant's units after promising one to each of `ids`. */
  ghost predicate Tracks(s: State, left: map<nat, int>, ids: set<nat>) {
    && (forall i :: i in ids ==> i in s.rows && TenantOf(s, i) in left)
    && (forall t :: t in left ==>
          && left[t] == UnitsOf(s.quota, t) - |OfTenant(s, ids, t)|
          && (OfTenant(s, ids, t) == {} || left[t] >= 0))
  }

  lemma TracksOneMore(s: State, left: map<nat, int>, ids: set<nat>, i: nat)
    requires Tracks(s, left, ids) && i !in ids && i in s.rows && TenantOf(s, i) in left && left[TenantOf(s, i)] > 0
    ensures Tracks(s, left[TenantOf(s, i) := left[TenantOf(s, i)] - 1], ids + {i})
  {
    var left' := left[TenantOf(s, i) := left[TenantOf(s, i)] - 1];
    forall t | t in left'
      ensures left'[t] == UnitsOf(s.quota, t) - |OfTenant(s, ids + {i}, t)|
      ensures OfTenant(s, ids + {i}, t) == {} || left'[t] >= 0
    {
      OfTenantOneMore(s, ids, i, t);
    }
  }

  lemma OfTenantOneMore(s: State, ids: set<nat>, i: nat, t: nat)
    requires i !in ids && i in s.rows
    ensures OfTenant(s, ids + {i}, t) == OfTenant(s, ids, t) + (if t == TenantOf(s, i) then {i} else {})
    ensures |OfTenant(s, ids + {i}, t)| == |OfTenant(s, ids, t)| + (if t == TenantOf(s, i) then 1 else 0)
  {
  }

  lemma MembersAppend(a: seq<nat>, x: nat)
    ensures Members(a + [x]) == Members(a) + {x}
  {
  }

  /** Every candidate's tenant has an entry. */
  predicate Charged(s: State, candidates: seq<nat>, budget: map<nat, int>) {
    forall i :: i in candidates ==> i in s.rows && TenantOf(s, i) in budget
  }

  /** The candidates taken, in order while their tenant has units left, and what is left then. */
  function Taken(s: State, candidates: seq<nat>, budget: map<nat, int>): (r: (seq<nat>, map<nat, int>))
    requires Charged(s, candidates, budget)
    ensures r.1.Keys == budget.Keys && |r.0| <= |candidates|
  {
    if candidates == [] then ([], budget)
    else
      var n := |candidates| - 1;
      var (ids, left) := Taken(s, candidates[..n], budget);
      var t := TenantOf(s, candidates[n]);
      if left[t] <= 0 then (ids, left) else (ids + [candidates[n]], left[t := left[t] - 1])
  }

  /** Of one tenant's candidates, none is taken before an older one. */
  ghost predicate TakenInOrder(s: State, candidates: seq<nat>, toQueue: seq<nat>) {
    forall i, j :: i in candidates && j in toQueue && OlderAlike(s, i, j) ==> i in toQueue
  }

  /** A candidate is passed over only when its tenant has nothing left. */
  ghost predicate PassedWhenEmpty(s: State, candidates: seq<nat>, toQueue: seq<nat>, left: map<nat, int>) {
    forall i :: i in candidates && i !in toQueue ==> i in s.rows && TenantOf(s, i) in left && left[TenantOf(s, i)] <= 0
  }

  lemma LastOfAll(all: seq<nat>, i: nat)
    requires all != [] && i in all
    ensures i in all[..|all| - 1] || i == all[|all| - 1]
  {
  }

  lemma {:induction false} TakenInTurn(s: State, candidates: seq<nat>, budget: map<nat, int>)
    requires Charged(s, candidates, budget) && Ascending(candidates)
    ensures var r := Taken(s, candidates, budget);
      Ascending(r.0) && (forall i :: i in r.0 ==> i in candidates) && PassedWhenEmpty(s, candidates, r.0, r.1)
  {
    if candidates != [] {
      var n := |candidates| - 1;
      TakenInTurn(s, candidates[..n], budget);
      forall i | i in candidates { LastOfAll(candidates, i); }
      assert forall x :: x in candidates[..n] ==> x < candidates[n];
      AscendingAppend(Taken(s, candidates[..n], budget).0, candidates[n]);
    }
  }

  lemma {:induction false} OldestTaken(s: State, candidates: seq<nat>, budget: map<nat, int>)
    requires Charged(s, candidates, budget) && Ascending(candidates)
    ensures TakenInOrder(s, candidates, Taken(s, candidates, budget).0)
  {
    if candidates != [] {
      var n := |candidates| - 1;
      OldestTaken(s, candidates[..n], budget);
      TakenInTurn(s, candidates[..n], budget);
      var (ids, left) := Taken(s, candidates[..n], budget);
      forall i, j | i in candidates && j in Taken(s, candidates, budget).0 && OlderAlike(s, i, j)
        ensures i in Taken(s, candidates, budget).0
      {
        LastOfAll(candidates, i);
        if j in ids { assert j in candidates[..n]; }
      }
    }
  }

  lemma {:induction false} TakenTracked(s: State, candidates: seq<nat>, budget: map<nat, int>, done: set<nat>)
    requires Charged(s, candidates, budget) && Ascending(candidates) && Tracks(s, budget, done)
    requires forall i :: i in candidates ==> i !in done
    ensures var r := Taken(s, candidates, budget); Tracks(s, r.1, done + Members(r.0))
  {
    if candidates == [] {
      assert done + Members([]) == done;
    } else {
      var n := |candidates| - 1;
      TakenTracked(s, candidates[..n], budget, done);
      TakenInTurn(s, candidates[..n], budget);
      assert candidates[n] !in candidates[..n];
      var (ids, left) := Taken(s, candidates[..n], budget);
      if left[TenantOf(s, candidates[n])] > 0 { PromisedNext(s, candidates[n], ids, left, done); }
    }
  }

  /** One candidate more is promised a unit. */
  lemma PromisedNext(s: State, i: nat, toQueue: seq<nat>, left: map<nat, int>, done: set<nat>)
    requires Tracks(s, left, done + Members(toQueue)) && i !in done && i !in toQueue
    requires i in s.rows && TenantOf(s, i) in left && left[TenantOf(s, i)] > 0
    ensures var t := TenantOf(s, i); Tracks(s, left[t := left[t] - 1], done + Members(toQueue + [i]))
  {
    TracksOneMore(s, left, done + Members(toQueue), i);
    MembersAppend(toQueue, i);
    assert done + Members(toQueue + [i]) == done + Members(toQueue) + {i};
  }

  /** The inner loop of the tick: take candidates in order while their tenant has units left. */
  method AllocateChannel(s: State, candidates: seq<nat>, tenantBudget: map<nat, int>, channelBudget: nat, ghost done: set<nat>)
    returns (toQueue: seq<nat>, left: map<nat, int>)
    requires Tracks(s, tenantBudget, done)
    requires Ascending(candidates) && |candidates| <= channelBudget
    requires forall i :: i in candidates ==> i in s.rows && i !in done && TenantOf(s, i) in tenantBudget
    ensures Ascending(toQueue) && |toQueue| <= channelBudget
    ensures forall i :: i in toQueue ==> i in candidates
    ensures left.Keys == tenantBudget.Keys && Tracks(s, left, done + Members(toQueue))
    ensures forall i :: i in candidates && i !in toQueue ==> TenantOf(s, i) in left && left[TenantOf(s, i)] <= 0
    ensures TakenInOrder(s, candidates, toQueue)
  {
    toQueue, left := TakeFrom(s, candidates, tenantBudget, channelBudget);
    TakenTracked(s, candidates, tenantBudget, done);
    TakenInTurn(s, candidates, tenantBudget);
    OldestTaken(s, candidates, tenantBudget);
  }

  method TakeFrom(s: State, candidates: seq<nat>, tenantBudget: map<nat, int>, channelBudget: nat)
    returns (toQueue: seq<nat>, left: map<nat, int>)
    requires Charged(s, candidates, tenantBudget) && |candidates| <= channelBudget
    ensures (toQueue, left) == Taken(s, candidates, tenantBudget)
  {
    var budget := channelBudget;
    toQueue, left := [], tenantBudget;
    for k := 0 to |candidates|
      invariant |toQueue| + budget == channelBudget && |toQueue| <= k
      invariant (toQueue, left) == Taken(s, candidates[..k], tenantBudget)
    {
      assert candidates[..k + 1][..k] == candidates[..k];
      var i := candidates[k];
      if budget <= 0 { break; }
      var tenant := TenantOf(s, i);
      if left[tenant] <= 0 { continue; }
      toQueue := toQueue + [i];
      left := left[tenant := left[tenant] - 1];
      budget := budget - 1;
    }
    assert candidates[..|candidates|] == candidates;
  }

  // ---------------------------------------------------------------------------
  // The allocation meets its promise
  // ---------------------------------------------------------------------------

  lemma WastedMonotone(s: State, eligible: set<nat>, channel: nat, ids: set<nat>, more: set<nat>)
    requires NothingWasted(s, eligible, channel, ids) && ids <= more
    ensures NothingWasted(s, eligible, channel, more)
  {
    forall i | i in Candidates(s, eligible, channel) && i !in more
      ensures i in s.rows && UnitsOf(s.quota, TenantOf(s, i)) <= |OfTenant(s, more, TenantOf(s, i))|
    {
      SubsetSize(OfTenant(s, ids, TenantOf(s, i)), OfTenant(s, more, TenantOf(s, i)));
    }
  }

  lemma CandidatesArePending(s: State, eligible: set<nat>, channel: nat)
    ensures Ascending(Candidates(s, eligible, channel))
    ensures |Candidates(s, eligible, channel)| <= Max(0, Budget(s, channel))
    ensures forall i :: i in Candidates(s, eligible, channel) ==> i in PendingOn(s, eligible, channel)
  {
    SortedAscends(PendingOn(s, eligible, channel));
    var pending := Sorted(PendingOn(s, eligible, channel));
    assert forall i :: i in Candidates(s, eligible, channel) ==> i in pending;
  }

  /** Publishing and marking one channel's rows extends what was granted. */
  lemma GrantedMore(s: State, done: set<nat>, more: set<nat>, channel: nat)
    requires done <= s.rows.Keys && more <= s.rows.Keys && done !! more
    requires forall i :: i in more ==> s.rows[i].channel == channel
    ensures SetStatuses(AddJobs(Granted(s, done), channel, more), more, Queued) == Granted(s, done + more)
  {
    GrantedRows(s, done, more, channel);
    GrantedJobs(s, done, more, channel);
  }

  lemma GrantedRows(s: State, done: set<nat>, more: set<nat>, channel: nat)
    requires done <= s.rows.Keys && more <= s.rows.Keys
    ensures SetStatuses(AddJobs(Granted(s, done), channel, more), more, Queued).rows == Granted(s, done + more).rows
  {
  }

  lemma GrantedJobs(s: State, done: set<nat>, more: set<nat>, channel: nat)
    requires done <= s.rows.Keys && more <= s.rows.Keys
    requires forall i :: i in more ==> s.rows[i].channel == channel
    ensures AddJobs(Granted(s, done), channel, more).jobs == Granted(s, done + more).jobs
  {
  }

  /** Granting rows of other channels changes nothing a channel's turn reads. */
  lemma TurnUnaffected(s: State, done: set<nat>, eligible: set<nat>, channel: nat)
    requires done <= s.rows.Keys && forall i :: i in done ==> s.rows[i].channel != channel
    ensures PendingOn(Granted(s, done), eligible, channel) == PendingOn(s, eligible, channel)
    ensures QueuedOn(Granted(s, done), channel) == QueuedOn(s, channel)
  {
  }

  lemma NotCandidates(s: State, eligible: set<nat>, channel: nat, ids: set<nat>)
    requires Budget(s, channel) <= 0 || PendingOn(s, eligible, channel) == {}
    ensures NothingWasted(s, eligible, channel, ids) && InOrder(s, eligible, channel, ids)
  {
  }

  lemma OrderKept(s: State, eligible: set<nat>, ch: nat, ids: set<nat>, more: set<nat>)
    requires InOrder(s, eligible, ch, ids) && forall i :: i in more ==> i in s.rows && s.rows[i].channel != ch
    ensures InOrder(s, eligible, ch, ids + more)
  {
    CandidatesArePending(s, eligible, ch);
  }

  /** Every row taken so far was taken in the turn of a channel no longer waiting. */
  ghost predicate TurnsTaken(s: State, eligible: set<nat>, waiting: set<nat>, ids: set<nat>) {
    && FromCandidates(s, eligible, ids)
    && (forall i :: i in ids ==> s.rows[i].channel !in waiting)
    && (forall ch: nat :: ch !in waiting ==> NothingWasted(s, eligible, ch, ids) && InOrder(s, eligible, ch, ids))
  }

  lemma ChannelUnmoved(s: State, eligible: set<nat>, ch: nat, ids: set<nat>, more: set<nat>)
    requires NothingWasted(s, eligible, ch, ids) && InOrder(s, eligible, ch, ids)
    requires forall i :: i in more ==> i in s.rows && s.rows[i].channel != ch
    ensures NothingWasted(s, eligible, ch, ids + more) && InOrder(s, eligible, ch, ids + more)
  {
    WastedMonotone(s, eligible, ch, ids, ids + more);
    OrderKept(s, eligible, ch, ids, more);
  }

  /** The channels whose turn is over and the one whose turn it was. */
  lemma TurnsOver(s: State, eligible: set<nat>, waiting: set<nat>, channel: nat, ids: set<nat>, more: set<nat>)
    requires forall ch: nat :: ch !in waiting ==> NothingWasted(s, eligible, ch, ids) && InOrder(s, eligible, ch, ids)
    requires forall i :: i in more ==> i in s.rows && s.rows[i].channel == channel
    requires NothingWasted(s, eligible, channel, ids + more) && InOrder(s, eligible, channel, ids + more)
    ensures forall ch: nat :: ch !in waiting - {channel} ==>
              NothingWasted(s, eligible, ch, ids + more) && InOrder(s, eligible, ch, ids + more)
  {
    forall ch: nat | ch !in waiting - {channel}
      ensures NothingWasted(s, eligible, ch, ids + more) && InOrder(s, eligible, ch, ids + more)
    {
      if ch != channel { ChannelUnmoved(s, eligible, ch, ids, more); }
    }
  }

  lemma TurnDone(s: State, eligible: set<nat>, waiting: set<nat>, channel: nat, ids: set<nat>, more: set<nat>)
    requires TurnsTaken(s, eligible, waiting, ids)
    requires forall i :: i in more ==> i in Candidates(s, eligible, channel)
    requires NothingWasted(s, eligible, channel, ids + more) && InOrder(s, eligible, channel, ids + more)
    ensures TurnsTaken(s, eligible, waiting - {channel}, ids + more)
  {
    CandidatesArePending(s, eligible, channel);
    TurnsOver(s, eligible, waiting, channel, ids, more);
  }

  lemma TurnSkipped(s: State, eligible: set<nat>, waiting: set<nat>, channel: nat, ids: set<nat>)
    requires TurnsTaken(s, eligible, waiting, ids) && Budget(s, channel) <= 0
    ensures TurnsTaken(s, eligible, waiting - {channel}, ids + {}) && ids + {} == ids
  {
    NotCandidates(s, eligible, channel, ids);
    assert ids + {} == ids;
    TurnDone(s, eligible, waiting, channel, ids, {});
  }

  /** What the inner loop needs to know about the candidates of a channel whose turn it is. */
  lemma TurnReady(s: State, eligible: set<nat>, waiting: set<nat>, channel: nat, left: map<nat, int>, ids: set<nat>)
    requires ids <= s.rows.Keys && channel in waiting
    requires Tracks(s, left, ids) && TurnsTaken(s, eligible, waiting, ids)
    requires CoversTenants(s, eligible, left)
    ensures var g := Granted(s, ids);
      && Ascending(Candidates(s, eligible, channel)) && Tracks(g, left, ids)
      && (forall i :: i in Candidates(s, eligible, channel) ==> i in g.rows && i !in ids && TenantOf(g, i) in left)
  {
    SameTenants(s, ids, left, ids);
    CandidatesArePending(s, eligible, channel);
  }

  lemma TurnInOrder(s: State, eligible: set<nat>, channel: nat, ids: set<nat>, toQueue: seq<nat>)
    requires ids <= s.rows.Keys && TakenInOrder(Granted(s, ids), Candidates(s, eligible, channel), toQueue)
    requires forall i :: i in ids ==> s.rows[i].channel != channel
    ensures InOrder(s, eligible, channel, ids + Members(toQueue))
  {
    CandidatesArePending(s, eligible, channel);
    forall i, j | i in Candidates(s, eligible, channel) && j in ids + Members(toQueue) && OlderAlike(s, i, j)
      ensures i in ids + Members(toQueue)
    {
      assert OlderAlike(Granted(s, ids), i, j);
    }
  }

  /** What the inner loop's result means for the whole tick. */
  lemma TurnAllocated(s: State, eligible: set<nat>, waiting: set<nat>, channel: nat, left: map<nat, int>,
                      ids: set<nat>, toQueue: seq<nat>)
    requires ids <= s.rows.Keys && channel in waiting && TurnsTaken(s, eligible, waiting, ids)
    requires forall i :: i in toQueue ==> i in Candidates(s, eligible, channel)
    requires Tracks(Granted(s, ids), left, ids + Members(toQueue))
    requires forall i :: i in Candidates(s, eligible, channel) && i !in toQueue ==>
               i in s.rows && TenantOf(Granted(s, ids), i) in left && left[TenantOf(Granted(s, ids), i)] <= 0
    requires TakenInOrder(Granted(s, ids), Candidates(s, eligible, channel), toQueue)
    ensures Tracks(s, left, ids + Members(toQueue))
    ensures TurnsTaken(s, eligible, waiting - {channel}, ids + Members(toQueue))
    ensures Members(toQueue) <= s.rows.Keys && ids !! Members(toQueue)
    ensures forall i :: i in Members(toQueue) ==> s.rows[i].channel == channel
  {
    SameTenants(s, ids, left, ids + Members(toQueue));
    CandidatesArePending(s, eligible, channel);
    TurnInOrder(s, eligible, channel, ids, toQueue);
    assert NothingWasted(s, eligible, channel, ids + Members(toQueue));
    TurnDone(s, eligible, waiting, channel, ids, Members(toQueue));
  }

  lemma SameTenants(s: State, done: set<nat>, left: map<nat, int>, ids: set<nat>)
    requires done <= s.rows.Keys
    ensures Tracks(Granted(s, done), left, ids) <==> Tracks(s, left, ids)
    ensures forall i :: i in s.rows ==> TenantOf(Granted(s, done), i) == TenantOf(s, i)
  {
    assert forall t :: OfTenant(Granted(s, done), ids, t) == OfTenant(s, ids, t);
  }

  /** The channels with pending rows of eligible campaigns. */
  function Buckets(s: State, eligible: set<nat>): set<nat> {
    set i | i in s.rows && s.rows[i].campaign.Some? && s.rows[i].campaign.value in eligible && s.rows[i].status == Pending
      :: s.rows[i].channel
  }

  lemma StartTurns(s: State, eligible: set<nat>)
    ensures TurnsTaken(s, eligible, Buckets(s, eligible), {})
  {
  }

  lemma NothingPromised(s: State, left: map<nat, int>)
    requires forall t :: t in left ==> left[t] == UnitsOf(s.quota, t)
    ensures Granted(s, {}) == s && Tracks(s, left, {})
  {
  }

  /** Every eligible campaign's tenant has an entry. */
  predicate CoversTenants(s: State, eligible: set<nat>, left: map<nat, int>) {
    forall c :: c in eligible ==> c in s.campaigns && s.campaigns[c].tenant in left
  }

  lemma ChannelsDone(s: State, eligible: set<nat>, left: map<nat, int>, ids: set<nat>)
    requires TurnsTaken(s, eligible, {}, ids) && Tracks(s, left, ids)
    ensures Allocation(s, eligible, ids)
  {
  }

  // ---------------------------------------------------------------------------
  // The tick
  // ---------------------------------------------------------------------------

  function Swept1(s: State, due: bool, picked: seq<nat>): State {
    if due then Swept(s, Visited(s, picked)) else s
  }

  function Drained(s: State): set<nat> {
    DrainedAmong(s, SendingCampaigns(s), ActiveAmong(s, SendingCampaigns(s)))
  }

  function ClosedDrained(s: State, due: bool, picked: seq<nat>): State {
    CloseAll(Swept1(s, due, picked), Drained(s))
  }

  function DroppedBroke(s: State, cs: set<nat>): State { ExhaustAll(s, Broke(s, cs)) }

  /** The tables a tick allocates from: swept, drained campaigns closed, exhausted ones failed. */
  function Reconciled(s: State, due: bool, picked: seq<nat>): State {
    DroppedBroke(ClosedDrained(s, due, picked), SendingCampaigns(s) - Drained(s))
  }

  function Eligible(s: State): set<nat> {
    var open := SendingCampaigns(s) - Drained(s);
    open - Broke(s, open)
  }

  lemma ExhaustNone(s: State)
    ensures ExhaustAll(s, {}) == s
  {
  }

  lemma ExhaustOneMore(s: State, done: set<nat>, c: nat)
    requires c in s.campaigns && c !in done
    ensures var t := ExhaustAll(s, done);
      SetCampaignStatus(SetStatuses(t, ActiveRows(t, c), Failed), c, Closed) == ExhaustAll(s, done + {c})
  {
  }

  /** With no eligible campaign there is nothing to allocate. */
  lemma NothingEligible(s: State)
    ensures Granted(s, {}) == s && Allocation(s, {}, {})
  {
    NothingPromised(s, map[]);
    StartTurns(s, {});
    assert Buckets(s, {}) == {};
    ChannelsDone(s, {}, map[], {});
  }

  lemma NothingSending(s: State, picked: seq<nat>)
    requires SendingCampaigns(s) == {}
    ensures Reconciled(s, false, picked) == s && Eligible(s) == {}
  {
  }

  /** Sweeping and closing do not change who can pay. */
  lemma BrokeEarlier(s: State, due: bool, picked: seq<nat>)
    ensures Broke(ClosedDrained(s, due, picked), SendingCampaigns(s) - Drained(s)) == Broke(s, SendingCampaigns(s) - Drained(s))
  {
  }

  /** Grouping the open rows by campaign finds exactly the campaigns the drained check may close. */
  lemma DrainedIff(s: State, c: nat)
    ensures c in Drained(s) <==> EnabledAdmin(s, CloseDrained(c))
  {
    var active := ActiveAmong(s, SendingCampaigns(s));
    if c in SendingCampaigns(s) && ActiveRows(s, c) != {} {
      var i :| i in ActiveRows(s, c);
      assert s.rows[i].campaign.value in active;
    }
    if c in active {
      var i :| i in s.rows && s.rows[i].campaign == Some(c) && !Terminal(s.rows[i].status);
      assert i in ActiveRows(s, c);
    }
  }

  /** The campaign is sending and has rows to send, or its audience is not published yet. */
  predicate GoesOn(s: State, c: nat) {
    c in s.campaigns && s.campaigns[c].status == Sending && !EnabledAdmin(s, CloseDrained(c))
  }

  /**
   * What a tick from `s` to `e` does about a campaign's units: with none left for its tenant
   * a campaign that goes on is closed and all its rows are decided, those open so far as
   * failed, or as sent if a log proves it; otherwise it stays as it is.
   */
  ghost predicate OutOfUnits(s: State, e: State, c: nat)
    requires c in s.campaigns && c in e.campaigns
  {
    && (GoesOn(s, c) && UnitsOf(s.quota, s.campaigns[c].tenant) <= 0 ==>
          && e.campaigns[c] == s.campaigns[c].(status := Closed)
          && ActiveRows(e, c) == {}
          && forall i :: i in ActiveRows(s, c) ==>
               && i in e.rows && e.rows[i].campaign == Some(c)
               && (e.rows[i].status == Failed || (e.rows[i].status == Sent && i in s.delivered)))
    && (GoesOn(s, c) && UnitsOf(s.quota, s.campaigns[c].tenant) > 0 ==> e.campaigns[c] == s.campaigns[c])
    && (s.campaigns[c].status != Sending ==> e.campaigns[c] == s.campaigns[c])
  }

  /** Every campaign fares as its tenant's units demand. */
  ghost predicate UnitsHeeded(s: State, e: State) {
    forall c :: c in s.campaigns ==> c in e.campaigns && OutOfUnits(s, e, c)
  }

  /** The campaigns that go on and can pay. */
  ghost predicate CanPay(s: State, eligible: set<nat>) {
    forall c :: c in eligible <==> GoesOn(s, c) && UnitsOf(s.quota, s.campaigns[c].tenant) > 0
  }

  lemma EligibleCanPay(s: State)
    ensures CanPay(s, Eligible(s))
  {
    forall c { DrainedIff(s, c); }
  }

  lemma SweptOpenRow(s: State, due: bool, picked: seq<nat>, i: nat)
    requires i in s.rows
    ensures var t := Swept1(s, due, picked);
      && t.campaigns == s.campaigns && t.quota == s.quota && t.rows.Keys == s.rows.Keys
      && t.rows[i].campaign == s.rows[i].campaign
      && (!Terminal(s.rows[i].status) ==> !Terminal(t.rows[i].status) || (t.rows[i].status == Sent && i in s.delivered))
  {
  }

  lemma ReconciledCampaign(s: State, due: bool, picked: seq<nat>, c: nat)
    requires c in s.campaigns
    ensures c in Reconciled(s, due, picked).campaigns && OutOfUnits(s, Reconciled(s, due, picked), c)
  {
    DrainedIff(s, c);
    forall i | i in s.rows { SweptOpenRow(s, due, picked, i); }
    BrokeEarlier(s, due, picked);
  }

  /** Sweeping, closing and finalising heed every tenant's units. */
  lemma ReconciledHeeds(s: State, due: bool, picked: seq<nat>)
    ensures UnitsHeeded(s, Reconciled(s, due, picked))
  {
    forall c | c in s.campaigns { ReconciledCampaign(s, due, picked, c); }
  }

  /** Granting rows of campaigns that can pay takes nothing of it back. */
  lemma GrantedHeeds(s: State, mid: State, eligible: set<nat>, issued: set<nat>)
    requires UnitsHeeded(s, mid) && CanPay(s, eligible) && issued <= mid.rows.Keys
    requires FromCandidates(mid, eligible, issued)
    ensures UnitsHeeded(s, Granted(mid, issued))
  {
    forall i | i in issued ensures mid.rows[i].campaign.Some? && mid.rows[i].campaign.value in eligible {
      CandidatesArePending(mid, eligible, mid.rows[i].channel);
    }
    forall c | c in s.campaigns ensures c in mid.campaigns && OutOfUnits(s, Granted(mid, issued), c) {
      if c !in eligible { NotGranted(mid, eligible, issued, c); }
      StillHeeds(s, mid, Granted(mid, issued), c);
    }
  }

  lemma StillHeeds(s: State, mid: State, e: State, c: nat)
    requires c in s.campaigns && c in mid.campaigns && OutOfUnits(s, mid, c) && e.campaigns == mid.campaigns
    requires !(GoesOn(s, c) && UnitsOf(s.quota, s.campaigns[c].tenant) > 0) ==> SameRows(mid, e, c)
    ensures OutOfUnits(s, e, c)
  {
  }

  ghost predicate SameRows(s: State, e: State, c: nat) {
    && ActiveRows(e, c) == ActiveRows(s, c)
    && forall i :: i in s.rows && s.rows[i].campaign == Some(c) ==> i in e.rows && e.rows[i] == s.rows[i]
  }

  lemma NotGranted(mid: State, eligible: set<nat>, issued: set<nat>, c: nat)
    requires issued <= mid.rows.Keys && c !in eligible
    requires forall i :: i in issued ==> mid.rows[i].campaign.Some? && mid.rows[i].campaign.value in eligible
    ensures SameRows(mid, Granted(mid, issued), c)
  {
  }

  class Scheduler {
    var db: State
    var lastStaleSweepAt: nat

    constructor (tables: State)
      ensures db == tables && lastStaleSweepAt == 0
    {
      db := tables;
      lastStaleSweepAt := 0;
    }

    predicate SweepDue(campaigns: set<nat>)
      reads this
    {
      campaigns != {} && db.now >= lastStaleSweepAt + STALE_SWEEP_INTERVAL_MS
    }

    /** The sweep of this tick will run its query. */
    predicate Due()
      reads this
    {
      SweepDue(ActiveAmong(db, SendingCampaigns(db)))
    }

    /** `picked` is the batch the database returned. */
    method RecoverStaleQueuedRecipients(campaigns: set<nat>, picked: seq<nat>)
      requires SweepDue(campaigns) ==> QueryReturns(db, campaigns, picked)
      modifies this
      ensures db == Swept1(old(db), old(SweepDue(campaigns)), picked)
      ensures lastStaleSweepAt == if old(SweepDue(campaigns)) then old(db).now else old(lastStaleSweepAt)
    {
      if campaigns == {} || db.now < lastStaleSweepAt + STALE_SWEEP_INTERVAL_MS { return; }
      lastStaleSweepAt := db.now;
      ghost var before := db;
      SweptNone(db);
      ghost var done: set<nat> := {};
      for k := 0 to |picked|
        invariant lastStaleSweepAt == before.now
        invariant done == Visited(before, picked[..k]) && db == Swept(before, done)
      {
        RecoverOne(picked[k], before, done, campaigns, picked);
        assert picked[..k + 1] == picked[..k] + [picked[k]];
        done := done + (if Live(before, picked[k]) then {} else {picked[k]});
        assert done == Visited(before, picked[..k + 1]);
      }
      assert picked[..|picked|] == picked;
    }

    /** One row of the batch. */
    method RecoverOne(id: nat, ghost before: State, ghost done: set<nat>, ghost campaigns: set<nat>, ghost picked: seq<nat>)
      requires db == Swept(before, done) && QueryReturns(before, campaigns, picked) && id in picked
      requires id !in done || !Live(before, id)
      modifies this`db
      ensures db == Swept(before, done + (if Live(before, id) then {} else {id}))
    {
      assert id in Members(picked);
      if Live(db, id) {
        assert done + {} == done;
        return;
      }
      db := db.(jobs := db.jobs - {id});
      var delivered := id in db.delivered;
      if id in db.rows && db.rows[id].status == Queued {
        db := SetStatus(db, id, if delivered then Sent else Pending);
      }
      assert db.jobs == before.jobs - (done + {id});
    }

    /** Hand out every channel's budget. */
    method AllocateChannels(eligible: set<nat>, tenantBudget: map<nat, int>) returns (ghost issued: set<nat>)
      requires CoversTenants(db, eligible, tenantBudget)
      requires forall t :: t in tenantBudget ==> tenantBudget[t] == UnitsOf(db.quota, t)
      modifies this`db
      ensures issued <= old(db).rows.Keys && db == Granted(old(db), issued)
      ensures Allocation(old(db), eligible, issued)
    {
      ghost var s := db;
      var waiting := Buckets(db, eligible);
      var inflight := map ch | ch in waiting :: |QueuedOn(db, ch)|;
      var left := tenantBudget;
      issued := {};
      StartTurns(s, eligible);
      NothingPromised(s, left);
      while waiting != {}
        invariant issued <= s.rows.Keys && db == Granted(s, issued)
        invariant forall ch :: ch in waiting ==> ch in inflight && inflight[ch] == |QueuedOn(s, ch)|
        invariant CoversTenants(s, eligible, left) && Tracks(s, left, issued)
        invariant TurnsTaken(s, eligible, waiting, issued)
        decreases waiting
      {
        var channel :| channel in waiting;
        ghost var taken;
        left, taken := TakeTurn(channel, eligible, inflight[channel], left, s, issued, waiting);
        issued := issued + taken;
        waiting := waiting - {channel};
      }
      ChannelsDone(s, eligible, left, issued);
    }

    /** One channel's turn. */
    method TakeTurn(channel: nat, eligible: set<nat>, inflight: nat, tenantBudget: map<nat, int>,
                    ghost s: State, ghost issued: set<nat>, ghost waiting: set<nat>)
      returns (left: map<nat, int>, ghost taken: set<nat>)
      requires issued <= s.rows.Keys && db == Granted(s, issued)
      requires inflight == |QueuedOn(s, channel)| && channel in waiting
      requires Tracks(s, tenantBudget, issued) && TurnsTaken(s, eligible, waiting, issued)
      requires CoversTenants(s, eligible, tenantBudget)
      modifies this`db
      ensures issued + taken <= s.rows.Keys && db == Granted(s, issued + taken)
      ensures CoversTenants(s, eligible, left) && Tracks(s, left, issued + taken)
      ensures TurnsTaken(s, eligible, waiting - {channel}, issued + taken)
    {
      var budget := ChannelBudget(channel, inflight, s, issued);
      if budget > 0 {
        left, taken := SpendTurn(channel, eligible, budget, tenantBudget, s, issued, waiting);
      } else {
        TurnSkipped(s, eligible, waiting, channel, issued);
        left, taken := tenantBudget, {};
      }
    }

    /** Spend a positive channel budget. */
    method SpendTurn(channel: nat, eligible: set<nat>, budget: nat, tenantBudget: map<nat, int>,
                     ghost s: State, ghost issued: set<nat>, ghost waiting: set<nat>)
      returns (left: map<nat, int>, ghost taken: set<nat>)
      requires issued <= s.rows.Keys && db == Granted(s, issued)
      requires budget == Budget(s, channel) && channel in waiting
      requires Tracks(s, tenantBudget, issued) && TurnsTaken(s, eligible, waiting, issued)
      requires CoversTenants(s, eligible, tenantBudget)
      modifies this`db
      ensures issued + taken <= s.rows.Keys && db == Granted(s, issued + taken)
      ensures CoversTenants(s, eligible, left) && Tracks(s, left, issued + taken)
      ensures TurnsTaken(s, eligible, waiting - {channel}, issued + taken)
    {
      var candidates := FetchCandidates(channel, eligible, budget, s, issued, waiting);
      TurnReady(s, eligible, waiting, channel, tenantBudget, issued);
      var toQueue;
      toQueue, left := AllocateChannel(db, candidates, tenantBudget, budget, issued);
      TurnAllocated(s, eligible, waiting, channel, left, issued, toQueue);
      taken := Members(toQueue);
      if toQueue == [] {
        assert issued + taken == issued;
        return;
      }
      Publish(channel, toQueue, s, issued);
    }

    /** The smaller of what the rate limits and the in-flight headroom allow. */
    method ChannelBudget(channel: nat, inflight: nat, ghost s: State, ghost issued: set<nat>) returns (budget: int)
      requires issued <= s.rows.Keys && db == Granted(s, issued) && inflight == |QueuedOn(s, channel)|
      ensures budget > 0 ==> budget == Budget(s, channel)
      ensures budget <= 0 ==> Budget(s, channel) <= 0
    {
      if channel !in db.cfg.limits { return 0; }
      budget := SW.Available(Times(db.log, channel), db.now, db.cfg.limits[channel]);
      if budget <= 0 { return; }
      var headroom := db.cfg.maxInflight - inflight;
      if headroom <= 0 { return 0; }
      if budget > headroom { budget := headroom; }
    }

    method FetchCandidates(channel: nat, eligible: set<nat>, budget: nat,
                           ghost s: State, ghost issued: set<nat>, ghost waiting: set<nat>)
      returns (candidates: seq<nat>)
      requires issued <= s.rows.Keys && db == Granted(s, issued) && budget == Budget(s, channel)
      requires channel in waiting && TurnsTaken(s, eligible, waiting, issued)
      ensures candidates == Candidates(s, eligible, channel) && |candidates| <= budget
    {
      TurnUnaffected(s, issued, eligible, channel);
      var pending := Sorted(PendingOn(db, eligible, channel));
      candidates := pending[..Min(|pending|, budget)];
    }

    /** addBulk, then updateMany. */
    method Publish(channel: nat, toQueue: seq<nat>, ghost s: State, ghost issued: set<nat>)
      requires issued <= s.rows.Keys && db == Granted(s, issued)
      requires Members(toQueue) <= s.rows.Keys && issued !! Members(toQueue)
      requires forall i :: i in Members(toQueue) ==> s.rows[i].channel == channel
      modifies this`db
      ensures db == Granted(s, issued + Members(toQueue))
    {
      var ids := Members(toQueue);
      GrantedMore(s, issued, ids, channel);
      db := AddJobs(db, channel, ids);
      db := SetStatuses(db, ids, Queued);
    }

    /** Close campaigns with a published audience and nothing left to send. */
    method CloseDrainedCampaigns(drained: set<nat>)
      modifies this`db
      ensures db == CloseAll(old(db), drained)
    {
      db := db.(campaigns := map c | c in db.campaigns ::
                               if c in drained && db.campaigns[c].status == Sending then db.campaigns[c].(status := Closed)
                               else db.campaigns[c]);
    }

    /** One transaction per campaign whose tenant has no units left. */
    method FinaliseExhausted(exhausted: set<nat>)
      requires exhausted <= db.campaigns.Keys
      modifies this`db
      ensures db == ExhaustAll(old(db), exhausted)
    {
      ghost var s := db;
      var todo := exhausted;
      ExhaustNone(s);
      while todo != {}
        invariant todo <= exhausted && db == ExhaustAll(s, exhausted - todo)
        decreases |todo|
      {
        var c :| c in todo;
        ExhaustOneMore(s, exhausted - todo, c);
        db := SetCampaignStatus(SetStatuses(db, ActiveRows(db, c), Failed), c, Closed);
        assert exhausted - todo + {c} == exhausted - (todo - {c});
        todo := todo - {c};
      }
      assert exhausted - todo == exhausted;
    }

    /** Sweep, close and exhaust; what remains is eligible, with its tenants' units. */
    method Reconcile(picked: seq<nat>) returns (eligible: set<nat>, tenantBudget: map<nat, int>)
      requires Due() ==> QueryReturns(db, ActiveAmong(db, SendingCampaigns(db)), picked)
      modifies this
      ensures db == Reconciled(old(db), old(Due()), picked) && eligible == Eligible(old(db))
      ensures UnitsHeeded(old(db), db) && CanPay(old(db), eligible)
      ensures lastStaleSweepAt == if old(Due()) then old(db).now else old(lastStaleSweepAt)
      ensures CoversTenants(db, eligible, tenantBudget)
      ensures forall t :: t in tenantBudget ==> tenantBudget[t] == UnitsOf(db.quota, t)
    {
      ghost var s := db;
      var campaigns := SendingCampaigns(db);
      EligibleCanPay(s);
      ReconciledHeeds(s, Due(), picked);
      if campaigns == {} {
        NothingSending(db, picked);
        return {}, map[];
      }
      var active := ActiveAmong(db, campaigns);
      var drained := DrainedAmong(db, campaigns, active);
      RecoverStaleQueuedRecipients(active, picked);
      CloseDrainedCampaigns(drained);
      eligible, tenantBudget := DropExhausted(campaigns - drained);
      BrokeEarlier(s, old(Due()), picked);
    }

    /** Read the tenants' units and finalise the campaigns of those without any. */
    method DropExhausted(campaigns: set<nat>) returns (eligible: set<nat>, tenantBudget: map<nat, int>)
      requires campaigns <= db.campaigns.Keys
      modifies this`db
      ensures db == ExhaustAll(old(db), Broke(old(db), campaigns))
      ensures eligible == campaigns - Broke(old(db), campaigns)
      ensures CoversTenants(db, eligible, tenantBudget)
      ensures forall t :: t in tenantBudget ==> tenantBudget[t] == UnitsOf(db.quota, t)
    {
      ExhaustNone(db);
      tenantBudget := ReadTenantBudget(campaigns);
      var exhausted := Broke(db, campaigns);
      FinaliseExhausted(exhausted);
      eligible := campaigns - exhausted;
    }

    /**
     * One tick. `picked` is the batch the stale sweep's query returned. The tables end as the
     * reconciled ones plus an allocation: candidates of each channel's budget, each tenant
     * within its units over all channels, nothing passed over while units were left.
     */
    method RunTick(picked: seq<nat>) returns (ghost issued: set<nat>)
      requires Due() ==> QueryReturns(db, ActiveAmong(db, SendingCampaigns(db)), picked)
      modifies this
      ensures var mid := Reconciled(old(db), old(Due()), picked);
        && issued <= mid.rows.Keys
        && db == Granted(mid, issued)
        && Allocation(mid, Eligible(old(db)), issued)
      ensures UnitsHeeded(old(db), db)
      ensures lastStaleSweepAt == if old(Due()) then old(db).now else old(lastStaleSweepAt)
    {
      ghost var s := db;
      var eligible, tenantBudget := Reconcile(picked);
      ghost var mid := db;
      if eligible == {} {
        NothingEligible(db);
        issued := {};
        return;
      }
      issued := AllocateChannels(eligible, tenantBudget);
      GrantedHeeds(s, mid, eligible, issued);
    }

    method ReadTenantBudget(campaigns: set<nat>) returns (tenantBudget: map<nat, int>)
      ensures forall c :: c in campaigns && c in db.campaigns ==> db.campaigns[c].tenant in tenantBudget
      ensures forall t :: t in tenantBudget ==> tenantBudget[t] == UnitsOf(db.quota, t)
    {
      var tenants := set c | c in campaigns && c in db.campaigns :: db.campaigns[c].tenant;
      tenantBudget := map t | t in tenants :: UnitsOf(db.quota, t);
    }
  }
}
