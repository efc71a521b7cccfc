/**
 * The stale-queue sweep. A sweep looks at one batch of rows queued for too long, leaves
 * those whose job is live, and returns the others to pending, or to sent when a successful
 * log proves the message went out. The query has no order, so which rows fill the batch is
 * up to the database: some stranded row is certain to be recovered exactly when the aged
 * rows with live jobs do not fill the batch, a given one exactly when all aged rows fit.
 */
module Recovery {
  import opened Common
  import opened Pipeline
  import OnceOnly

  const STALE_SWEEP_BATCH := 500

  /** What the sweep's query matches: rows of the campaigns queued for longer than the limit. */
  function Aged(s: State, campaigns: set<nat>): set<nat> {
    set i | i in s.rows && s.rows[i].campaign.Some? && s.rows[i].campaign.value in campaigns
            && s.rows[i].status == Queued && s.rows[i].touched + s.cfg.staleMs < s.now
  }

  function WithLiveJob(s: State, campaigns: set<nat>): set<nat> {
    set i | i in Aged(s, campaigns) && Live(s, i)
  }

  function StrandedIn(s: State, campaigns: set<nat>): set<nat> {
    set i | i in Aged(s, campaigns) && !Live(s, i)
  }

  function Members(picked: seq<nat>): set<nat> { set i | i in picked }

  /** Any duplicate-free batch of matching rows, as many as there are up to the batch size. */
  ghost predicate QueryReturns(s: State, campaigns: set<nat>, picked: seq<nat>) {
    && Members(picked) <= Aged(s, campaigns)
    && |Members(picked)| == |picked| == Min(STALE_SWEEP_BATCH, |Aged(s, campaigns)|)
  }

  function Visited(s: State, picked: seq<nat>): set<nat> { set i | i in picked && !Live(s, i) }

  /** Rows `ids` recovered, all else as before. */
  function Swept(s: State, ids: set<nat>): State {
    s.(
      jobs := s.jobs - ids,
      rows := map i | i in s.rows ::
                if i in ids then s.rows[i].(status := if i in s.delivered then Sent else Pending, touched := s.now)
                else s.rows[i])
  }

  /** Recovering one more row is a Sweep step of the pipeline. */
  lemma SweepOneMore(s: State, ids: set<nat>, id: nat)
    requires id !in ids && Stranded(s, id)
    ensures EnabledTable(Swept(s, ids), Sweep(id))
    ensures ApplyTable(Swept(s, ids), Sweep(id)) == Swept(s, ids + {id})
  {
  }

  lemma SweptNone(s: State)
    ensures Swept(s, {}) == s
  {
  }

  /** A whole sweep is a run of the pipeline. */
  lemma {:induction false} SweepRuns(s: State, ids: set<nat>) returns (steps: seq<Step>)
    requires forall i :: i in ids ==> Stranded(s, i)
    ensures Runs(s, steps) && Exec(s, steps) == Swept(s, ids)
    ensures forall k :: 0 <= k < |steps| ==> steps[k].Table? && steps[k].table.Sweep?
    decreases |ids|
  {
    if ids == {} {
      SweptNone(s);
      steps := [];
      assert Runs(s, steps);
    } else {
      var id :| id in ids;
      var before := SweepRuns(s, ids - {id});
      SweepOneMore(s, ids - {id}, id);
      RunsExtend(s, before, Table(Sweep(id)));
      steps := before + [Table(Sweep(id))];
      assert ids - {id} + {id} == ids;
    }
  }

  /**
   * What a sweep means: a row with a live job, or queued no longer than the limit, is not
   * touched, a row goes back to pending only without a successful log, to sent only with one, and every visited row without a live job stops being
   * queued, leaving the queue free to take its job id again.
   */
  lemma SweepKeepsMeaning(s: State, campaigns: set<nat>, picked: seq<nat>)
    requires QueryReturns(s, campaigns, picked)
    ensures var s' := Swept(s, Visited(s, picked));
      && (forall i :: Live(s, i) ==> Live(s', i) && s'.jobs[i] == s.jobs[i] && (i in s.rows ==> s'.rows[i] == s.rows[i]))
      && (forall i :: i in s'.rows && s'.rows[i] != s.rows[i] ==>
            && s.rows[i].status == Queued && i !in s'.jobs && s.now - s.rows[i].touched > s.cfg.staleMs
            && s'.rows[i] == s.rows[i].(status := if i in s.delivered then Sent else Pending, touched := s.now))
      && (forall i :: i in s'.rows && s'.rows[i].status == Pending && i in s.delivered ==> s.rows[i].status == Pending)
      && (forall i :: i in picked && i in s'.rows && !Live(s, i) ==> s'.rows[i].status != Queued)
  {
    assert forall i :: i in picked ==> i in Members(picked);
  }

  /** On the states of a run, a row the sweep marks sent had its message taken by the provider. */
  lemma SweptSentWasTaken(s: State, ids: set<nat>, id: nat)
    requires OnceOnly.Inv(s) && id in ids && Stranded(s, id)
    ensures Swept(s, ids).rows[id].status == Sent ==> OnceOnly.Taken(s, id)
  {
  }

  // ---------------------------------------------------------------------------
  // Progress
  // ---------------------------------------------------------------------------

  lemma AgedSplit(s: State, campaigns: set<nat>)
    ensures |Aged(s, campaigns)| == |WithLiveJob(s, campaigns)| + |StrandedIn(s, campaigns)|
  {
    assert Aged(s, campaigns) == WithLiveJob(s, campaigns) + StrandedIn(s, campaigns);
  }

  /** A sweep visits at least as many stranded rows as the batch leaves over after the live ones. */
  lemma SweepRecovers(s: State, campaigns: set<nat>, picked: seq<nat>)
    requires QueryReturns(s, campaigns, picked)
    ensures |Visited(s, picked)| >= Min(|StrandedIn(s, campaigns)|, STALE_SWEEP_BATCH - |WithLiveJob(s, campaigns)|)
  {
    var visited := Visited(s, picked);
    assert forall i :: i in picked <==> i in Members(picked);
    AgedSplit(s, campaigns);
    assert Members(picked) == visited + (Members(picked) - visited);
    SubsetSize(Members(picked) - visited, WithLiveJob(s, campaigns));
  }

  /** The first `n` of a set in id order, as a batch. */
  lemma Batch(ids: set<nat>, n: nat) returns (picked: seq<nat>)
    requires n <= |ids|
    ensures Members(picked) <= ids && |Members(picked)| == |picked| == n
  {
    var all := Sorted(ids);
    SortedAscends(ids);
    picked := all[..n];
    DistinctMembers(picked);
    assert forall i :: i in picked ==> i in all;
  }

  lemma {:induction false} DistinctMembers(picked: seq<nat>)
    requires Ascending(picked)
    ensures |Members(picked)| == |picked|
  {
    if picked != [] {
      var init, last := picked[..|picked| - 1], picked[|picked| - 1];
      DistinctMembers(init);
      assert picked == init + [last];
      assert Members(picked) == Members(init) + {last};
      assert last !in init;
    }
  }

  /** However the database chooses, some stranded row is visited. */
  ghost predicate AlwaysProgresses(s: State, campaigns: set<nat>) {
    forall picked :: QueryReturns(s, campaigns, picked) ==> Visited(s, picked) != {}
  }

  /**
   * Main result: with stranded rows about, a sweep is certain to recover one if and only if
   * the aged rows with live jobs do not fill the batch on their own.
   */
  lemma ProgressIffBatchNotFull(s: State, campaigns: set<nat>)
    requires StrandedIn(s, campaigns) != {}
    ensures AlwaysProgresses(s, campaigns) <==> |WithLiveJob(s, campaigns)| < 500
  {
    AgedSplit(s, campaigns);
    if |WithLiveJob(s, campaigns)| < STALE_SWEEP_BATCH {
      forall picked | QueryReturns(s, campaigns, picked) ensures Visited(s, picked) != {} {
        SweepRecovers(s, campaigns, picked);
      }
    } else {
      var picked := Batch(WithLiveJob(s, campaigns), STALE_SWEEP_BATCH);
      assert forall i :: i in picked ==> i in Members(picked);
      assert QueryReturns(s, campaigns, picked) && Visited(s, picked) == {};
    }
  }

  /** A batch of matching rows that leaves one of them out. */
  lemma BatchWithout(s: State, campaigns: set<nat>, id: nat) returns (picked: seq<nat>)
    requires id in Aged(s, campaigns) && |Aged(s, campaigns)| > STALE_SWEEP_BATCH
    ensures QueryReturns(s, campaigns, picked) && id !in picked
  {
    var others := Aged(s, campaigns) - {id};
    assert |others| == |Aged(s, campaigns)| - 1;
    picked := Batch(others, STALE_SWEEP_BATCH);
    assert forall i :: i in picked ==> i in Members(picked);
  }

  /** When all matching rows fit, the batch is all of them. */
  lemma WholeBatch(s: State, campaigns: set<nat>, picked: seq<nat>)
    requires QueryReturns(s, campaigns, picked) && |Aged(s, campaigns)| <= STALE_SWEEP_BATCH
    ensures Members(picked) == Aged(s, campaigns)
    ensures Visited(s, picked) == StrandedIn(s, campaigns)
  {
    SameSize(Members(picked), Aged(s, campaigns));
    assert forall i :: i in picked <==> i in Members(picked);
  }

  lemma SameSize<T>(a: set<T>, b: set<T>)
    requires a <= b && |a| == |b|
    ensures a == b
  {
    assert b == a + (b - a);
  }

  /** However the database chooses, the row is visited. */
  ghost predicate SureToVisit(s: State, campaigns: set<nat>, id: nat) {
    forall picked :: QueryReturns(s, campaigns, picked) ==> id in Visited(s, picked)
  }

  /**
   * Main result for one row: a stranded row is certain to be recovered by the next sweep if
   * and only if the rows matching the query, its own included, fit into one batch.
   */
  lemma RecoveredIffBatchHolds(s: State, campaigns: set<nat>, id: nat)
    requires id in StrandedIn(s, campaigns)
    ensures SureToVisit(s, campaigns, id) <==> |Aged(s, campaigns)| <= 500
  {
    if |Aged(s, campaigns)| <= STALE_SWEEP_BATCH {
      forall picked | QueryReturns(s, campaigns, picked) ensures id in Visited(s, picked) {
        WholeBatch(s, campaigns, picked);
      }
    } else {
      var picked := BatchWithout(s, campaigns, id);
      assert QueryReturns(s, campaigns, picked) && id !in Visited(s, picked);
    }
  }

  /** A queued row that loses its job is stranded once the stale limit has passed. */
  lemma LostJobGetsStranded(s: State, id: nat)
    requires id in s.rows && s.rows[id].campaign.Some? && s.rows[id].status == Queued && !Live(s, id)
    requires s.rows[id].touched <= s.now
    ensures id in StrandedIn(ApplyAdmin(s, Advance(s.cfg.staleMs + 1)), {s.rows[id].campaign.value})
  {
  }
}
