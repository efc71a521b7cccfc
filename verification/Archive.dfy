/**
 * Moving old recipients to cold storage: copy a batch, delete it, repeat, then mark the
 * campaign. The process may die after any single operation and be run again, any number of
 * times; a recipient can be looked up at every moment, and the copy that counts is the row
 * as it last was, unless a webhook changed it between the copy and the delete.
 */
module Archive {
  import opened Common

  const BATCH_SIZE := 5_000

  datatype Identity = Identity(account: nat, campaign: nat, contact: nat)

  /** A recipient row; only its status changes while it is hot. */
  datatype Recipient = Recipient(identity: Identity, status: nat)

  datatype ColdRow = ColdRow(id: nat, row: Recipient)

  /** FINAL: of the copies of a row the last one written counts. */
  function Final(cold: seq<ColdRow>, id: nat): Option<Recipient> {
    if cold == [] then None
    else if cold[|cold| - 1].id == id then Some(cold[|cold| - 1].row)
    else Final(cold[..|cold| - 1], id)
  }

  /** Hot first, then cold. */
  function Resolve(hot: map<nat, Recipient>, cold: seq<ColdRow>, id: nat): Option<Identity> {
    if id in hot then Some(hot[id].identity)
    else if Final(cold, id).Some? then Some(Final(cold, id).value.identity)
    else None
  }

  function HotRows(hot: map<nat, Recipient>, c: nat): set<nat> {
    set i | i in hot && hot[i].identity.campaign == c
  }

  /** Every original recipient is still found, with the account, campaign and contact it always had. */
  ghost predicate Found(original: map<nat, Recipient>, hot: map<nat, Recipient>, cold: seq<ColdRow>) {
    forall i :: i in original ==> Resolve(hot, cold, i) == Some(original[i].identity)
  }

  /** Copies of an original recipient all carry its identity. */
  ghost predicate Faithful(original: map<nat, Recipient>, hot: map<nat, Recipient>, cold: seq<ColdRow>) {
    && (forall i :: i in hot && i in original ==> hot[i].identity == original[i].identity)
    && (forall k :: 0 <= k < |cold| && cold[k].id in original ==> cold[k].row.identity == original[cold[k].id].identity)
  }

  ghost predicate Copied(cold: seq<ColdRow>, id: nat) { exists k :: 0 <= k < |cold| && cold[k].id == id }

  lemma {:induction false} FinalIsACopy(cold: seq<ColdRow>, id: nat)
    ensures Final(cold, id).Some? <==> Copied(cold, id)
    ensures Final(cold, id).Some? ==> exists k :: 0 <= k < |cold| && cold[k] == ColdRow(id, Final(cold, id).value)
  {
    if cold != [] && cold[|cold| - 1].id != id {
      FinalIsACopy(cold[..|cold| - 1], id);
      if Copied(cold[..|cold| - 1], id) {
        var k :| 0 <= k < |cold[..|cold| - 1]| && cold[..|cold| - 1][k].id == id;
        assert cold[k].id == id;
      }
    }
  }

  /** With faithful copies, being hot or copied is being found. */
  lemma FoundWhenSomewhere(original: map<nat, Recipient>, hot: map<nat, Recipient>, cold: seq<ColdRow>)
    requires Faithful(original, hot, cold)
    requires forall i :: i in original ==> i in hot || Copied(cold, i)
    ensures Found(original, hot, cold)
  {
    forall i | i in original ensures Resolve(hot, cold, i) == Some(original[i].identity) {
      FinalIsACopy(cold, i);
    }
  }

  /** Faithful and nowhere lost. */
  ghost predicate Safe(original: map<nat, Recipient>, hot: map<nat, Recipient>, cold: seq<ColdRow>) {
    Faithful(original, hot, cold) && forall i :: i in original ==> i in hot || Copied(cold, i)
  }

  function CopiesOf(hot: map<nat, Recipient>, ids: seq<nat>): (rows: seq<ColdRow>)
    requires forall i :: i in ids ==> i in hot
    ensures |rows| == |ids| && forall k :: 0 <= k < |ids| ==> ids[k] in hot && rows[k] == ColdRow(ids[k], hot[ids[k]])
  {
    if ids == [] then [] else assert ids[0] in ids; [ColdRow(ids[0], hot[ids[0]])] + CopiesOf(hot, ids[1..])
  }

  lemma CopyIsSafe(original: map<nat, Recipient>, hot: map<nat, Recipient>, cold: seq<ColdRow>, ids: seq<nat>)
    requires Safe(original, hot, cold) && forall i :: i in ids ==> i in hot
    ensures Safe(original, hot, cold + CopiesOf(hot, ids))
    ensures forall i :: i in ids ==> Copied(cold + CopiesOf(hot, ids), i)
  {
    var rows := CopiesOf(hot, ids);
    var cold' := cold + rows;
    assert forall k :: 0 <= k < |cold| ==> cold'[k] == cold[k];
    forall i | Copied(cold, i) ensures Copied(cold', i) {
      var k :| 0 <= k < |cold| && cold[k].id == i;
      assert cold'[k].id == i;
    }
    forall i | i in ids ensures Copied(cold', i) {
      var k :| 0 <= k < |ids| && ids[k] == i;
      assert cold'[|cold| + k] == rows[k];
    }
    forall k | 0 <= k < |cold'| && cold'[k].id in original ensures cold'[k].row.identity == original[cold'[k].id].identity {
      if k >= |cold| {
        assert cold'[k] == rows[k - |cold|];
        assert ids[k - |cold|] in ids;
      }
    }
  }

  // ---------------------------------------------------------------------------
  // The copy that counts
  // ---------------------------------------------------------------------------

  lemma {:induction false} FinalOfConcat(a: seq<ColdRow>, b: seq<ColdRow>, id: nat)
    ensures Final(a + b, id) == if Final(b, id).Some? then Final(b, id) else Final(a, id)
    decreases |b|
  {
    if b == [] {
      assert a + b == a;
    } else {
      var init := b[..|b| - 1];
      assert (a + b)[..|a + b| - 1] == a + init;
      FinalOfConcat(a, init, id);
    }
  }

  /** Of a batch just copied the copies are the rows themselves. */
  lemma CopiesAreRows(hot: map<nat, Recipient>, ids: seq<nat>, id: nat)
    requires forall i :: i in ids ==> i in hot
    ensures Final(CopiesOf(hot, ids), id) == if id in ids then Some(hot[id]) else None
  {
    var rows := CopiesOf(hot, ids);
    FinalIsACopy(rows, id);
    if id in ids {
      var k :| 0 <= k < |ids| && ids[k] == id;
      assert rows[k].id == id;
    }
    if Copied(rows, id) {
      var k :| 0 <= k < |rows| && rows[k].id == id;
      assert ids[k] == id;
    }
  }

  /** A new copy supersedes an older one and leaves the other recipients' alone. */
  lemma CopySupersedes(hot: map<nat, Recipient>, cold: seq<ColdRow>, ids: seq<nat>, id: nat)
    requires forall i :: i in ids ==> i in hot
    ensures Final(cold + CopiesOf(hot, ids), id) == if id in ids then Some(hot[id]) else Final(cold, id)
  {
    CopiesAreRows(hot, ids, id);
    FinalOfConcat(cold, CopiesOf(hot, ids), id);
  }

  /**
   * `last` is every recipient's row as it last was: the hot one, or for one that is gone
   * what its last copy says, except exactly for those of `missed`.
   */
  ghost predicate Whole(last: map<nat, Recipient>, missed: set<nat>, hot: map<nat, Recipient>, cold: seq<ColdRow>) {
    && (forall i :: i in hot ==> i in last && last[i] == hot[i] && i !in missed)
    && (forall i :: i in last && i !in hot ==> (Final(cold, i) == Some(last[i]) <==> i !in missed))
  }

  function Without(hot: map<nat, Recipient>, ids: set<nat>): map<nat, Recipient> { hot - ids }

  lemma DeleteIsSafe(original: map<nat, Recipient>, hot: map<nat, Recipient>, cold: seq<ColdRow>, ids: set<nat>)
    requires Safe(original, hot, cold) && forall i :: i in ids ==> Copied(cold, i)
    ensures Safe(original, Without(hot, ids), cold)
  {
  }

  /** Webhooks changed the status of these rows of a batch before it was deleted. */
  function Changed(hot: map<nat, Recipient>, late: map<nat, nat>, ids: set<nat>): set<nat> {
    set i | i in ids && i in hot && i in late && late[i] != hot[i].status
  }

  function Rewritten(rows: map<nat, Recipient>, late: map<nat, nat>, ids: set<nat>): map<nat, Recipient> {
    map i | i in rows :: if i in ids && i in late then rows[i].(status := late[i]) else rows[i]
  }

  /** Every row of a batch has its copy; those webhooks change now will have a stale one. */
  lemma DeleteKeepsWhole(last: map<nat, Recipient>, missed: set<nat>, hot: map<nat, Recipient>, cold: seq<ColdRow>,
                         late: map<nat, nat>, ids: set<nat>)
    requires Whole(last, missed, hot, cold) && ids <= hot.Keys
    requires forall i :: i in ids ==> Final(cold, i) == Some(hot[i])
    ensures Whole(Rewritten(last, late, ids), missed + Changed(hot, late, ids), Without(hot, ids), cold)
  {
  }

  class Archiver {
    var hot: map<nat, Recipient>
    var cold: seq<ColdRow>
    var archived: set<nat>
    ghost const original: map<nat, Recipient>
    ghost var last: map<nat, Recipient>
    ghost var missed: set<nat>

    constructor (recipients: map<nat, Recipient>)
      ensures Valid() && original == recipients && hot == recipients && archived == {} && cold == []
      ensures last == recipients && missed == {}
    {
      hot, cold, archived := recipients, [], {};
      original, last, missed := recipients, recipients, {};
    }

    /**
     * Nothing lost, every recipient's last row is hot or the copy that counts, and only
     * drained campaigns are marked.
     */
    ghost predicate Valid()
      reads this
    {
      && Safe(original, hot, cold)
      && hot.Keys <= original.Keys == last.Keys
      && Whole(last, missed, hot, cold)
      && forall c :: c in archived ==> HotRows(hot, c) == {}
    }

    /** A webhook may change the status of a hot row at any time. */
    method Touch(id: nat, status: nat)
      requires Valid()
      modifies `hot, `last
      ensures Valid() && hot.Keys == old(hot.Keys)
      ensures forall i :: i in hot ==> hot[i] == if i == id then old(hot)[i].(status := status) else old(hot)[i]
      ensures forall i :: i in last ==> last[i] == if i in hot then hot[i] else old(last)[i]
    {
      if id in hot {
        var row := hot[id].(status := status);
        forall c ensures HotRows(hot[id := row], c) == HotRows(hot, c) {}
        hot := hot[id := row];
        last := last[id := row];
      }
    }

    /** From now on these rows as they are count, whatever an interrupted run left. */
    method Copy(ids: seq<nat>)
      requires Valid() && forall i :: i in ids ==> i in hot
      modifies `cold
      ensures Valid() && old(cold) <= cold && forall i :: i in ids ==> Copied(cold, i)
      ensures forall i: nat :: Final(cold, i) == if i in ids then Some(hot[i]) else Final(old(cold), i)
    {
      CopyIsSafe(original, hot, cold, ids);
      forall i: nat { CopySupersedes(hot, cold, ids, i); }
      cold := cold + CopiesOf(hot, ids);
    }

    /** Delete a batch just copied; `late` are the statuses webhooks write in between. */
    method Delete(ids: set<nat>, late: map<nat, nat>) returns (count: nat)
      requires Valid() && ids <= hot.Keys && forall i :: i in ids ==> Copied(cold, i) && Final(cold, i) == Some(hot[i])
      modifies `hot, `last, `missed
      ensures Valid() && hot == Without(old(hot), ids) && count == |ids|
      ensures missed == old(missed) + Changed(old(hot), late, ids)
    {
      DeleteIsSafe(original, hot, cold, ids);
      DeleteKeepsWhole(last, missed, hot, cold, late, ids);
      assert forall c :: HotRows(Without(hot, ids), c) <= HotRows(hot, c);
      last, missed := Rewritten(last, late, ids), missed + Changed(hot, late, ids);
      hot := Without(hot, ids);
      count := |ids|;
    }

    ghost function Now(): Moment
      reads this
    {
      Moment(hot, cold, missed)
    }

    /**
     * Archive one campaign; the process dies after `operations` copies, deletes and marks if
     * that is given. Whenever it dies, every recipient is found, and the copy that counts of
     * each recipient gone is its whole row as it was; it marks the campaign only when it has
     * no hot rows left.
     */
    method ArchiveOneCampaign(c: nat, operations: Option<nat>, late: map<nat, nat>) returns (alive: bool, total: nat)
      requires Valid()
      modifies this
      ensures Valid() && old(cold) <= cold
      ensures Moved(old(Now()), Now(), late)
      ensures forall i :: i in hot ==> i in old(hot) && hot[i] == old(hot)[i]
      ensures forall i :: i in old(hot) && old(hot)[i].identity.campaign != c ==> i in hot
      ensures forall i :: i in old(hot) && i !in hot ==> Final(cold, i) == Some(old(hot)[i])
      ensures missed == old(missed) + Changed(old(hot), late, old(hot).Keys - hot.Keys)
      ensures alive ==> HotRows(hot, c) == {} && archived == old(archived) + {c} && total == |HotRows(old(hot), c)|
      ensures !alive ==> archived == old(archived)
      ensures operations.None? ==> alive
    {
      var left;
      alive, left, total := Drain(c, operations, late);
      if !alive || left == Some(0) { return false, total; }
      Mark(c);
    }

    /** Page after page until one is short. */
    method Drain(c: nat, operations: Option<nat>, late: map<nat, nat>) returns (alive: bool, left: Option<nat>, total: nat)
      requires Valid()
      modifies `hot, `cold, `last, `missed
      ensures Valid() && old(cold) <= cold
      ensures Drained(old(Now()), Now(), c, late, total)
      ensures alive ==> HotRows(hot, c) == {}
      ensures operations.None? ==> alive && left.None?
    {
      ghost var start := Now();
      alive, left, total := true, operations, 0;
      NotDrained(start, c, late);
      while HotRows(hot, c) != {}
        invariant Valid() && old(cold) <= cold && Drained(start, Now(), c, late, total)
        invariant alive && (operations.None? ==> left.None?)
        decreases |HotRows(hot, c)|
      {
        var count, more;
        alive, left, count, more := ArchiveBatch(c, left, late, start, total);
        total := total + count;
        if !alive || !more { return; }
      }
    }

    /** Read a page, copy it, delete it; `more` unless the page was short. */
    method ArchiveBatch(c: nat, operations: Option<nat>, late: map<nat, nat>, ghost start: Moment, ghost total: nat)
      returns (alive: bool, left: Option<nat>, count: nat, more: bool)
      requires Valid() && HotRows(hot, c) != {} && Drained(start, Now(), c, late, total)
      modifies `hot, `cold, `last, `missed
      ensures Valid() && old(cold) <= cold && Drained(start, Now(), c, late, total + count)
      ensures alive ==> count == Min(5_000, |HotRows(old(hot), c)|) && (!more ==> HotRows(hot, c) == {})
      ensures operations.None? ==> alive && left.None?
    {
      var all := Sorted(HotRows(hot, c));
      var ids := all[..Min(BATCH_SIZE, |all|)];
      BatchFacts(hot, c, ids);
      PageSize(HotRows(hot, c), ids);
      ghost var was := Now();
      alive, left, count := MovePage(ids, operations, late);
      PageMoved(was, Now(), late, ids, alive);
      BatchDrained(start, was, Now(), c, late, ids, total, count, alive);
      more := |ids| == BATCH_SIZE;
    }

    /** Copy, then delete; the process may die before either. */
    method MovePage(ids: seq<nat>, operations: Option<nat>, late: map<nat, nat>) returns (alive: bool, left: Option<nat>, count: nat)
      requires Valid() && forall i :: i in ids ==> i in hot
      modifies `hot, `cold, `last, `missed
      ensures Valid() && old(cold) <= cold
      ensures forall i: nat :: i !in old(hot) ==> Final(cold, i) == Final(old(cold), i)
      ensures alive ==> forall i :: i in ids ==> Final(cold, i) == Some(old(hot)[i])
      ensures hot == (if alive then Without(old(hot), IdSet(ids)) else old(hot)) && count == (if alive then |IdSet(ids)| else 0)
      ensures missed == if alive then old(missed) + Changed(old(hot), late, IdSet(ids)) else old(missed)
      ensures operations.None? ==> alive && left.None?
    {
      left, count := operations, 0;
      if left == Some(0) { return false, left, 0; }
      left := OneLess(left);
      Copy(ids);
      if left == Some(0) { return false, left, 0; }
      left := OneLess(left);
      count := Delete(IdSet(ids), late);
      alive := true;
    }

    /** Only a campaign without hot rows is marked. */
    method Mark(c: nat)
      requires Valid() && HotRows(hot, c) == {}
      modifies `archived
      ensures Valid() && archived == old(archived) + {c}
    {
      archived := archived + {c};
    }

    /**
     * The nightly job: one campaign after another, each failing on its own; `stop` cuts the
     * run short when its time is up.
     */
    method RunArchiveJob(candidates: seq<nat>, failures: map<nat, nat>, stop: nat, late: map<nat, nat>)
      requires Valid()
      modifies this
      ensures Valid() && old(cold) <= cold && old(archived) <= archived
      ensures forall i :: i in hot ==> i in old(hot) && hot[i] == old(hot)[i]
      ensures forall i :: i in old(hot) && i !in hot ==> Final(cold, i) == Some(old(hot)[i])
      ensures missed == old(missed) + Changed(old(hot), late, old(hot).Keys - hot.Keys)
      ensures forall k :: 0 <= k < |candidates| && k < stop && candidates[k] !in failures ==> candidates[k] in archived
      ensures forall c :: c in archived && c !in old(archived) ==> c in candidates
      ensures forall i :: i in old(hot) && i !in hot ==> old(hot)[i].identity.campaign in candidates
    {
      ghost var start := Now();
      NotMoved(start, late);
      for k := 0 to |candidates|
        invariant Valid() && old(cold) <= cold && old(archived) <= archived
        invariant Moved(start, Now(), late)
        invariant forall c :: c in archived && c !in old(archived) ==> c in candidates
        invariant forall i :: i in start.hot && i !in hot ==> start.hot[i].identity.campaign in candidates
        invariant forall j :: 0 <= j < k && j < stop && candidates[j] !in failures ==> candidates[j] in archived
      {
        if k >= stop { break; }
        var c := candidates[k];
        ghost var before := Now();
        var alive, total := ArchiveOneCampaign(c, if c in failures then Some(failures[c]) else None, late);
        MovedOn(start, before, Now(), late);
      }
    }

    /** What a tracking event sees at any moment. */
    method ResolveRecipient(id: nat) returns (r: Option<Identity>)
      requires Valid()
      ensures id in original ==> r == Some(original[id].identity)
    {
      FoundWhenSomewhere(original, hot, cold);
      r := Resolve(hot, cold, id);
    }
  }

  /** Both stores and the recipients with a stale copy, at one moment. */
  datatype Moment = Moment(hot: map<nat, Recipient>, cold: seq<ColdRow>, missed: set<nat>)

  /**
   * From `x` to `y` no hot row changed, each recipient that went has its whole row as the
   * copy that counts, and of those webhooks changed just before they went it is stale.
   */
  ghost predicate Moved(x: Moment, y: Moment, late: map<nat, nat>) {
    && (forall i :: i in y.hot ==> i in x.hot && y.hot[i] == x.hot[i])
    && (forall i :: i in x.hot && i !in y.hot ==> Final(y.cold, i) == Some(x.hot[i]))
    && (forall i: nat :: i !in x.hot ==> Final(y.cold, i) == Final(x.cold, i))
    && y.missed == x.missed + Changed(x.hot, late, x.hot.Keys - y.hot.Keys)
  }

  /** `total` rows of campaign `c` moved, and no others. */
  ghost predicate Drained(x: Moment, y: Moment, c: nat, late: map<nat, nat>, total: int) {
    Moved(x, y, late) && OnlyLost(x.hot, y.hot, c) && total == |HotRows(x.hot, c)| - |HotRows(y.hot, c)|
  }

  lemma NotDrained(x: Moment, c: nat, late: map<nat, nat>)
    ensures Drained(x, x, c, late, 0)
  {
    NotMoved(x, late);
  }

  lemma NotMoved(x: Moment, late: map<nat, nat>)
    ensures Moved(x, x, late)
  {
    assert Changed(x.hot, late, x.hot.Keys - x.hot.Keys) == {};
  }

  lemma PageMoved(x: Moment, y: Moment, late: map<nat, nat>, ids: seq<nat>, alive: bool)
    requires forall i :: i in ids ==> i in x.hot
    requires forall i: nat :: i !in x.hot ==> Final(y.cold, i) == Final(x.cold, i)
    requires alive ==> forall i :: i in ids ==> Final(y.cold, i) == Some(x.hot[i])
    requires y.hot == if alive then Without(x.hot, IdSet(ids)) else x.hot
    requires y.missed == if alive then x.missed + Changed(x.hot, late, IdSet(ids)) else x.missed
    ensures Moved(x, y, late)
  {
    if alive {
      assert x.hot.Keys - y.hot.Keys == IdSet(ids);
    } else {
      assert Changed(x.hot, late, x.hot.Keys - y.hot.Keys) == {};
    }
  }

  /** One batch or one campaign more. */
  lemma MovedOn(x: Moment, y: Moment, z: Moment, late: map<nat, nat>)
    requires Moved(x, y, late) && Moved(y, z, late)
    ensures Moved(x, z, late)
  {
    assert x.hot.Keys - z.hot.Keys == (x.hot.Keys - y.hot.Keys) + (y.hot.Keys - z.hot.Keys);
  }

  /** Rows disappeared from campaign `c` only, none changed. */
  ghost predicate OnlyLost(start: map<nat, Recipient>, hot: map<nat, Recipient>, c: nat) {
    && (forall i :: i in hot ==> i in start && hot[i] == start[i])
    && (forall i :: i in start && start[i].identity.campaign != c ==> i in hot)
  }

  function IdSet(ids: seq<nat>): set<nat> { set i | i in ids }

  lemma PageSize(all: set<nat>, ids: seq<nat>)
    requires ids <= Sorted(all)
    ensures |IdSet(ids)| == |ids|
  {
    SortedAscends(all);
    Distinct(ids);
  }

  lemma {:induction false} Distinct(ids: seq<nat>)
    requires Ascending(ids)
    ensures |IdSet(ids)| == |ids|
  {
    if ids != [] {
      var init, last := ids[..|ids| - 1], ids[|ids| - 1];
      Distinct(init);
      assert last !in init;
      assert IdSet(ids) == IdSet(init) + {last};
    }
  }

  lemma BatchFacts(hot: map<nat, Recipient>, c: nat, ids: seq<nat>)
    requires ids <= Sorted(HotRows(hot, c))
    ensures forall i :: i in ids ==> i in HotRows(hot, c)
  {
  }

  lemma BatchDrained(x: Moment, y: Moment, z: Moment, c: nat, late: map<nat, nat>, ids: seq<nat>, total: nat, count: nat, alive: bool)
    requires Drained(x, y, c, late, total) && Moved(y, z, late)
    requires ids <= Sorted(HotRows(y.hot, c)) && ids != []
    requires z.hot == if alive then Without(y.hot, IdSet(ids)) else y.hot
    requires count == if alive then |IdSet(ids)| else 0
    ensures Drained(x, z, c, late, total + count)
    ensures alive ==> |HotRows(z.hot, c)| < |HotRows(y.hot, c)|
    ensures alive && |ids| == |Sorted(HotRows(y.hot, c))| ==> HotRows(z.hot, c) == {}
  {
    MovedOn(x, y, z, late);
    BatchGone(x.hot, y.hot, c, ids);
  }

  /** Deleting a batch takes exactly its rows off the campaign. */
  lemma BatchGone(start: map<nat, Recipient>, hot: map<nat, Recipient>, c: nat, ids: seq<nat>)
    requires OnlyLost(start, hot, c) && ids <= Sorted(HotRows(hot, c)) && ids != []
    ensures var gone := IdSet(ids); var hot' := Without(hot, gone);
      && OnlyLost(start, hot', c)
      && |HotRows(hot', c)| == |HotRows(hot, c)| - |gone|
      && |gone| > 0
      && (|ids| == |Sorted(HotRows(hot, c))| ==> HotRows(hot', c) == {})
  {
    BatchFacts(hot, c, ids);
    var gone := IdSet(ids);
    assert ids[0] in gone;
    assert HotRows(Without(hot, gone), c) == HotRows(hot, c) - gone;
    assert HotRows(hot, c) == (HotRows(hot, c) - gone) + gone;
    if |ids| == |Sorted(HotRows(hot, c))| { assert ids == Sorted(HotRows(hot, c)); }
  }
}
