/**
 * Fairness of the sender rotation. Without rules the assignments of one dispatch go round
 * the senders, so any two are assigned equally often, up to one. A row bears the sender of
 * its contact's first assignment: the rows are as even, except for the assignments that
 * createMany skips because the contact has a row already.
 */
module Fairness {
  import opened Common
  import opened Materialise
  import SP = SegmentPlan

  ghost predicate NoRules(senders: seq<Sender>) {
    senders != [] && forall k, email :: 0 <= k < |senders| ==> !senders[k].blocks(email)
  }

  // ---------------------------------------------------------------------------
  // Turns
  // ---------------------------------------------------------------------------

  /** Turn after turn the rotation goes round. */
  ghost predicate InRotation(offset: nat, turns: seq<nat>, n: nat)
    requires n > 0
  {
    forall k :: 0 <= k < |turns| ==> turns[k] == At(offset, k, n)
  }

  lemma NobodySkipped(senders: seq<Sender>, email: string, from: nat, o: nat)
    requires NoRules(senders) && FirstFree(senders, email, from, o)
    ensures At(from, o, |senders|) == from % |senders|
  {
    assert !senders[At(from, 0, |senders|)].blocks(email);
  }

  lemma {:induction false} TurnNumber(x: Run, p: Progress, k: nat)
    requires Dealt(x, p) && NoRules(x.senders) && k < |p.turns|
    ensures p.turns[k] == At(x.offset, k, |x.senders|)
  {
    var n := |x.senders|;
    assert TakesTurn(x, p.turns, p.placed, k);
    var from := Position(x, p.turns[..k]);
    var o :| FirstFree(x.senders, EmailOf(x.w, p.placed[k]), from, o) && p.turns[k] == At(from, o, n);
    NobodySkipped(x.senders, EmailOf(x.w, p.placed[k]), from, o);
    if k > 0 {
      TurnNumber(x, p, k - 1);
      assert p.turns[..k][k - 1] == p.turns[k - 1];
      ModShift(x.offset + (k - 1), 1, n);
    }
  }

  /** Without rules the rotation never skips anybody. */
  lemma RotationGoesRound(x: Run, p: Progress)
    requires Dealt(x, p) && NoRules(x.senders)
    ensures InRotation(x.offset, p.turns, |x.senders|)
  {
    forall k | 0 <= k < |p.turns| { TurnNumber(x, p, k); }
  }

  function Share(turns: seq<nat>, sender: nat): nat {
    if turns == [] then 0
    else Share(turns[..|turns| - 1], sender) + (if turns[|turns| - 1] == sender then 1 else 0)
  }

  lemma DivModNext(m: nat, n: nat)
    requires n > 0
    ensures if m % n == n - 1 then (m + 1) / n == m / n + 1 && (m + 1) % n == 0
            else (m + 1) / n == m / n && (m + 1) % n == m % n + 1
  {
    assert m == (m / n) * n + m % n;
    if m % n == n - 1 {
      assert (m / n + 1) * n == (m / n) * n + n;
      DivModUnique(m + 1, n, m / n + 1, 0);
    } else {
      DivModUnique(m + 1, n, m / n, m % n + 1);
    }
  }

  /** How many turns the rotation starting at `offset` takes to first reach a sender. */
  function Distance(offset: nat, sender: nat, n: nat): (d: nat)
    requires sender < n
    ensures d < n
  {
    var r := offset % n;
    if sender >= r then sender - r else sender + n - r
  }

  lemma TurnFalls(offset: nat, k: nat, sender: nat, n: nat)
    requires sender < n
    ensures At(offset, k, n) == sender <==> k % n == Distance(offset, sender, n)
  {
    var r, j := offset % n, k % n;
    ModShift(offset, k, n);
    ModShift(k, r, n);
    assert (r + k) % n == (j + r) % n by { assert r + k == k + r; }
    if j + r < n { DivModUnique(j + r, n, 0, j + r); } else { DivModUnique(j + r, n, 1, j + r - n); }
  }

  lemma {:induction false} ShareCounted(offset: nat, turns: seq<nat>, sender: nat, n: nat)
    requires sender < n && InRotation(offset, turns, n)
    ensures Share(turns, sender) == |turns| / n + (if |turns| % n > Distance(offset, sender, n) then 1 else 0)
  {
    if turns == [] {
      DivModUnique(0, n, 0, 0);
    } else {
      var m := |turns| - 1;
      ShareCounted(offset, turns[..m], sender, n);
      TurnFalls(offset, m, sender, n);
      DivModNext(m, n);
    }
  }

  /** Without rules any two senders' shares differ by at most one, at every prefix of a run. */
  lemma FairShares(offset: nat, turns: seq<nat>, upTo: nat, a: nat, b: nat, n: nat)
    requires a < n && b < n && InRotation(offset, turns, n) && upTo <= |turns|
    ensures -1 <= Share(turns[..upTo], a) - Share(turns[..upTo], b) <= 1
  {
    ShareCounted(offset, turns[..upTo], a, n);
    ShareCounted(offset, turns[..upTo], b, n);
  }

  // ---------------------------------------------------------------------------
  // Rows
  // ---------------------------------------------------------------------------

  /** The new rows among these contacts that bear the sender. */
  function NewRows(before: map<nat, Recipient>, table: map<nat, Recipient>, placed: seq<nat>, sender: nat): set<nat> {
    set c | c in placed && c !in before && c in table && SenderOf(table[c]) == sender
  }

  /** The rows a sender got out of the first `upTo` assignments. */
  function RowsOf(x: Run, p: Progress, upTo: nat, sender: nat): set<nat>
    requires upTo <= |p.placed|
  {
    NewRows(x.before, p.table, p.placed[..upTo], sender)
  }

  /** The assignments among the first `upTo` whose contact had a row already. */
  function Skipped(x: Run, p: Progress, upTo: nat): nat
    requires upTo <= |p.placed|
  {
    if upTo == 0 then 0 else Skipped(x, p, upTo - 1) + (if NewAt(x.before, p.placed, upTo - 1) then 0 else 1)
  }

  /** One more contact adds its row to its sender's, if it is new. */
  lemma OneMoreRow(before: map<nat, Recipient>, table: map<nat, Recipient>, placed: seq<nat>, c: nat, sender: nat)
    requires c in table
    ensures |NewRows(before, table, placed + [c], sender)|
            == |NewRows(before, table, placed, sender)|
               + (if c !in before && c !in placed && SenderOf(table[c]) == sender then 1 else 0)
  {
    var more := if c !in before && SenderOf(table[c]) == sender then {c} else {};
    assert NewRows(before, table, placed + [c], sender) == NewRows(before, table, placed, sender) + more;
    if c in placed { assert NewRows(before, table, placed, sender) + more == NewRows(before, table, placed, sender); }
  }

  /** A sender's rows are its turns less some of those skipped. */
  lemma {:induction false} RowsAndTurns(x: Run, p: Progress, upTo: nat, sender: nat)
    requires Booked(x, p) && upTo <= |p.placed|
    ensures |RowsOf(x, p, upTo, sender)| <= Share(p.turns[..upTo], sender) <= |RowsOf(x, p, upTo, sender)| + Skipped(x, p, upTo)
  {
    if upTo == 0 {
      assert RowsOf(x, p, 0, sender) == {} && p.turns[..0] == [];
    } else {
      var m := upTo - 1;
      RowsAndTurns(x, p, m, sender);
      RowsGrow(x, p, m, sender);
      ShareGrows(p.turns, m, sender);
      SkippedGrows(x, p, m);
    }
  }

  lemma SkippedGrows(x: Run, p: Progress, m: nat)
    requires m < |p.placed|
    ensures Skipped(x, p, m + 1) == Skipped(x, p, m) + (if NewAt(x.before, p.placed, m) then 0 else 1)
  {
  }

  /** A placed contact has a row, which bears its turn's sender if it was new. */
  lemma RowOfTurn(x: Run, p: Progress, m: nat)
    requires Booked(x, p) && m < |p.placed|
    ensures p.placed[m] in p.table
    ensures NewAt(x.before, p.placed, m) ==> SenderOf(p.table[p.placed[m]]) == p.turns[m]
  {
    assert p.placed[m] in SP.ToSet(p.placed);
  }

  lemma RowsGrow(x: Run, p: Progress, m: nat, sender: nat)
    requires Booked(x, p) && m < |p.placed|
    ensures |RowsOf(x, p, m + 1, sender)|
            == |RowsOf(x, p, m, sender)| + (if NewAt(x.before, p.placed, m) && p.turns[m] == sender then 1 else 0)
  {
    RowOfTurn(x, p, m);
    RowsGrowBy(x.before, p.table, p.placed, m, p.turns[m], sender);
  }

  lemma RowsGrowBy(before: map<nat, Recipient>, table: map<nat, Recipient>, placed: seq<nat>, m: nat, turn: nat, sender: nat)
    requires m < |placed| && placed[m] in table && (NewAt(before, placed, m) ==> SenderOf(table[placed[m]]) == turn)
    ensures |NewRows(before, table, placed[..m + 1], sender)|
            == |NewRows(before, table, placed[..m], sender)| + (if NewAt(before, placed, m) && turn == sender then 1 else 0)
  {
    OneMoreRow(before, table, placed[..m], placed[m], sender);
    assert placed[..m + 1] == placed[..m] + [placed[m]];
  }

  lemma ShareGrows(turns: seq<nat>, m: nat, sender: nat)
    requires m < |turns|
    ensures Share(turns[..m + 1], sender) == Share(turns[..m], sender) + (if turns[m] == sender then 1 else 0)
  {
    assert turns[..m + 1][..m] == turns[..m];
  }

  /**
   * Main result: without rules, after any number of assignments of a dispatch, crashed or
   * not, on a fresh table or a retry, the new rows of any two senders differ by at most one
   * and the assignments skipped because the contact had a row already.
   */
  lemma RowsAreFair(x: Run, p: Progress, upTo: nat, a: nat, b: nat)
    requires Booked(x, p) && NoRules(x.senders) && upTo <= |p.placed| && a < |x.senders| && b < |x.senders|
    ensures |RowsOf(x, p, upTo, a)| <= |RowsOf(x, p, upTo, b)| + 1 + Skipped(x, p, upTo)
  {
    RotationGoesRound(x, p);
    FairShares(x.offset, p.turns, upTo, a, b, |x.senders|);
    RowsAndTurns(x, p, upTo, a);
    RowsAndTurns(x, p, upTo, b);
  }

  predicate Distinct(s: seq<nat>) { forall i, j :: 0 <= i < j < |s| ==> s[i] != s[j] }

  lemma {:induction false} NothingSkipped(x: Run, p: Progress, upTo: nat)
    requires x.before == map[] && Distinct(p.placed) && upTo <= |p.placed|
    ensures Skipped(x, p, upTo) == 0
  {
    if upTo > 0 { NothingSkipped(x, p, upTo - 1); }
  }

  /** Any two senders' rows, counted over the table, differ by at most one. */
  ghost predicate Even(rows: map<nat, Recipient>, senders: nat) {
    forall a, b :: 0 <= a < senders && 0 <= b < senders ==> |BySender(rows, a)| <= |BySender(rows, b)| + 1
  }

  function BySender(rows: map<nat, Recipient>, sender: nat): set<nat> { set c | c in rows && SenderOf(rows[c]) == sender }

  /**
   * A first dispatch, died early or not: without rules, and when no contact is streamed
   * twice (as when it has no segments), the rows in the table are spread evenly over the
   * senders.
   */
  method DispatchFresh(w: Snapshot, senders: seq<Sender>, lists: seq<nat>, segments: seq<nat>, rotationOffset: nat, crashAfter: Option<nat>)
    returns (rows: map<nat, Recipient>)
    ensures NoRules(senders) && Distinct(KeptOf(w, senders, Stream(w, lists, segments))) ==> Even(rows, |senders|)
    ensures NoRules(senders) && segments == [] ==> Even(rows, |senders|)
  {
    var q, _, seen := MaterialiseCampaignAudience(map[], w, senders, lists, segments, rotationOffset, crashAfter);
    rows := q.table;
    if segments == [] { ListsNameNobodyTwice(w, senders, lists); }
    if NoRules(senders) && Distinct(KeptOf(w, senders, Stream(w, lists, segments))) {
      PlacedDistinct(w, senders, seen, Stream(w, lists, segments));
      FreshIsEven(Run(w, senders, lists, map[], rotationOffset), q);
    }
  }

  lemma {:induction false} OfferedAscends(w: Snapshot, ids: seq<nat>)
    requires Ascending(ids)
    ensures Ascending(Offered(w, ids))
  {
    if ids != [] {
      var init := ids[..|ids| - 1];
      OfferedAscends(w, init);
      OfferedMembers(w, init);
      AscendingAppend(Offered(w, init), ids[|ids| - 1]);
    }
  }

  lemma {:induction false} TakersAscend(w: Snapshot, senders: seq<Sender>, ids: seq<nat>)
    requires Ascending(ids)
    ensures Ascending(Takers(w, senders, ids))
  {
    if ids != [] {
      var init := ids[..|ids| - 1];
      TakersAscend(w, senders, init);
      TakersMembers(w, senders, init);
      AscendingAppend(Takers(w, senders, init), ids[|ids| - 1]);
    }
  }

  /** The list members are streamed in id order, each once. */
  lemma ListsNameNobodyTwice(w: Snapshot, senders: seq<Sender>, lists: seq<nat>)
    ensures Distinct(KeptOf(w, senders, Stream(w, lists, [])))
  {
    var members := Sorted(FromLists(w, lists));
    SortedAscends(FromLists(w, lists));
    assert Stream(w, lists, []) == members;
    OfferedAscends(w, members);
    TakersAscend(w, senders, Offered(w, members));
  }

  lemma PlacedDistinct(w: Snapshot, senders: seq<Sender>, seen: seq<nat>, all: seq<nat>)
    requires seen <= all && Distinct(KeptOf(w, senders, all))
    ensures Distinct(KeptOf(w, senders, seen))
  {
    assert seen + all[|seen|..] == all;
    KeptConcat(w, senders, seen, all[|seen|..]);
    var a, b := KeptOf(w, senders, seen), KeptOf(w, senders, all);
    assert forall i :: 0 <= i < |a| ==> a[i] == b[i];
  }

  lemma FreshIsEven(x: Run, p: Progress)
    requires Booked(x, p) && NoRules(x.senders) && x.before == map[] && Distinct(p.placed)
    ensures Even(p.table, |x.senders|)
  {
    var n := |p.placed|;
    forall a, b | 0 <= a < |x.senders| && 0 <= b < |x.senders| ensures |BySender(p.table, a)| <= |BySender(p.table, b)| + 1 {
      AllNewRows(x, p, a);
      AllNewRows(x, p, b);
      NothingSkipped(x, p, n);
      RowsAreFair(x, p, n, a, b);
    }
  }

  /** On a fresh table all rows are new. */
  lemma AllNewRows(x: Run, p: Progress, sender: nat)
    requires Booked(x, p) && x.before == map[]
    ensures BySender(p.table, sender) == RowsOf(x, p, |p.placed|, sender)
  {
    assert p.placed[..|p.placed|] == p.placed;
    assert forall c :: c in p.table.Keys <==> c in SP.ToSet(p.placed);
  }
}
