/**
 * Turning lists and segments into recipient rows: batches streamed in id order, suppressed
 * addresses dropped, senders rotated past those that block the address, duplicates skipped.
 * A run may stop after any batch; whatever it left behind, a later run completes the same
 * recipient set.
 */
module Materialise {
  import opened Common
  import opened RecipientBlock
  import SR = SegmentRules
  import SP = SegmentPlan

  const BATCH := 5_000
  const SUBSCRIBED := 0

  /** `blocks` is the verdict of the sending rules of the sender's domain. */
  datatype Sender = Sender(address: string, channel: Option<nat>, blocks: string -> bool)

  function SenderWith(address: string, channel: Option<nat>, rules: seq<Rule>): Sender {
    Sender(address, channel, email => IsBlocked(email, rules))
  }

  /** A recipient row; no sender means the campaign's primary one. */
  datatype Recipient = Recipient(email: string, sender: Option<nat>, channel: Option<nat>, listId: Option<nat>)

  /** What a dispatch reads: contacts and their addresses, the segments, and the suppression list. */
  datatype Snapshot = Snapshot(
    db: SR.Store, emails: map<nat, string>, tenant: nat, now: int, segments: map<nat, seq<SR.Rule>>, suppression: set<string>)

  datatype Candidate = Candidate(id: nat, email: string, listId: Option<nat>)

  function EmailOf(w: Snapshot, c: nat): string { if c in w.emails then w.emails[c] else "" }

  // ---------------------------------------------------------------------------
  // What the audience is
  // ---------------------------------------------------------------------------

  predicate Suppressed(w: Snapshot, email: string) { Lower(email) in w.suppression }

  predicate AllBlock(senders: seq<Sender>, email: string) {
    forall k :: 0 <= k < |senders| ==> senders[k].blocks(email)
  }

  predicate Kept(w: Snapshot, senders: seq<Sender>, c: nat) {
    !Suppressed(w, EmailOf(w, c)) && !AllBlock(senders, EmailOf(w, c))
  }

  function FromLists(w: Snapshot, lists: seq<nat>): set<nat> {
    set c | c in w.db.contacts && w.db.contacts[c].tenant == w.tenant && w.db.contacts[c].subscription == SUBSCRIBED
            && exists l :: l in lists && l in w.db.contacts[c].lists
  }

  function FromSegment(w: Snapshot, g: nat): set<nat> {
    if g in w.segments then
      set c | c in SR.Segment(w.db, w.tenant, w.now, w.segments[g]) && w.db.contacts[c].subscription == SUBSCRIBED
    else {}
  }

  function FromSegments(w: Snapshot, gs: seq<nat>): set<nat> {
    if gs == [] then {} else FromSegments(w, gs[..|gs| - 1]) + FromSegment(w, gs[|gs| - 1])
  }

  /** ((subscribed in any list) or (subscribed in any segment)), not suppressed, not blocked by every sender. */
  function Audience(w: Snapshot, senders: seq<Sender>, lists: seq<nat>, segments: seq<nat>): set<nat> {
    set c | c in FromLists(w, lists) + FromSegments(w, segments) && Kept(w, senders, c)
  }

  // ---------------------------------------------------------------------------
  // Rotation
  // ---------------------------------------------------------------------------

  /** Counting from `positioned`, the sender `o` places on is the first that does not block the address. */
  ghost predicate FirstFree(senders: seq<Sender>, email: string, positioned: nat, o: nat) {
    && o < |senders| && !senders[At(positioned, o, |senders|)].blocks(email)
    && forall o' :: 0 <= o' < o ==> senders[At(positioned, o', |senders|)].blocks(email)
  }

  /** The first sender from `positioned` on that does not block the address. */
  method SelectSender(senders: seq<Sender>, email: string, positioned: nat) returns (selected: Option<nat>)
    ensures selected.None? <==> AllBlock(senders, email)
    ensures selected.Some? ==> selected.value < |senders| && !senders[selected.value].blocks(email)
    ensures selected.Some? ==> exists o :: FirstFree(senders, email, positioned, o) && selected.value == At(positioned, o, |senders|)
    ensures selected.Some? ==>
              forall k :: 0 <= k < |senders| && OnTheWay(positioned % |senders|, selected.value, k) ==> senders[k].blocks(email)
    ensures |senders| > 0 && !senders[positioned % |senders|].blocks(email) ==> selected == Some(positioned % |senders|)
  {
    for offset := 0 to |senders|
      invariant forall o :: 0 <= o < offset ==> senders[At(positioned, o, |senders|)].blocks(email)
      invariant offset > 0 ==> senders[positioned % |senders|].blocks(email)
    {
      var index := At(positioned, offset, |senders|);
      if !senders[index].blocks(email) {
        assert !AllBlock(senders, email);
        assert FirstFree(senders, email, positioned, offset);
        NobodyOnTheWay(senders, email, positioned, offset);
        return Some(index);
      }
    }
    NobodyLeft(senders, email, positioned);
    selected := None;
  }

  function At(positioned: nat, offset: nat, n: nat): (k: nat)
    requires n > 0
    ensures k < n && (offset == 0 ==> k == positioned % n)
  {
    (positioned + offset) % n
  }

  lemma OffsetOf(positioned: nat, k: nat, n: nat) returns (o: nat)
    requires k < n
    ensures o < n && At(positioned, o, n) == k
    ensures o == if k >= positioned % n then k - positioned % n else k + n - positioned % n
  {
    var r := positioned % n;
    o := if k >= r then k - r else k + n - r;
    ModShift(positioned, o, n);
    ModOnce(k, n);
  }

  /** Going up from `from`, and round past the last place, `k` comes before `to`. */
  predicate OnTheWay(from: nat, to: nat, k: int) {
    if from <= to then from <= k < to else from <= k || k < to
  }

  lemma NobodyOnTheWay(senders: seq<Sender>, email: string, positioned: nat, offset: nat)
    requires FirstFree(senders, email, positioned, offset)
    ensures forall k :: 0 <= k < |senders| && OnTheWay(positioned % |senders|, At(positioned, offset, |senders|), k) ==> senders[k].blocks(email)
  {
    var n := |senders|;
    var r := positioned % n;
    ModShift(positioned, offset, n);
    DivModUnique(r + offset, n, if r + offset < n then 0 else 1, if r + offset < n then r + offset else r + offset - n);
    forall k | 0 <= k < n && OnTheWay(r, At(positioned, offset, n), k) ensures senders[k].blocks(email) {
      var o := OffsetOf(positioned, k, n);
      assert o < offset;
    }
  }

  lemma NobodyLeft(senders: seq<Sender>, email: string, positioned: nat)
    requires forall o :: 0 <= o < |senders| ==> senders[At(positioned, o, |senders|)].blocks(email)
    ensures AllBlock(senders, email)
  {
    forall k | 0 <= k < |senders| ensures senders[k].blocks(email) {
      var o := OffsetOf(positioned, k, |senders|);
    }
  }

  // ---------------------------------------------------------------------------
  // The run
  // ---------------------------------------------------------------------------

  /** The sender of a row, the primary one standing in for none. */
  function SenderOf(r: Recipient): nat { if r.sender.Some? then r.sender.value else 0 }

  function ChannelOf(senders: seq<Sender>, k: nat): Option<nat>
    requires k < |senders|
  {
    if senders[k].channel.Some? then senders[k].channel else senders[0].channel
  }

  /** The first target list, in selection order, that the contact is on. */
  function FirstList(w: Snapshot, lists: seq<nat>, c: nat): (l: Option<nat>)
    ensures l.None? <==> c !in w.db.contacts || forall x :: x in lists ==> x !in w.db.contacts[c].lists
    ensures l.Some? ==> c in w.db.contacts && l.value in lists && l.value in w.db.contacts[c].lists
  {
    if c !in w.db.contacts || lists == [] then None
    else if lists[0] in w.db.contacts[c].lists then Some(lists[0])
    else FirstList(w, lists[1..], c)
  }

  /** What a new row of contact `c` must look like. */
  predicate RowFits(w: Snapshot, senders: seq<Sender>, lists: seq<nat>, c: nat, r: Recipient) {
    && SenderOf(r) < |senders| && !senders[SenderOf(r)].blocks(r.email)
    && (r.sender.Some? <==> |senders| > 1)
    && r.channel == ChannelOf(senders, SenderOf(r))
    && r.email == EmailOf(w, c) && r.listId == FirstList(w, lists, c)
  }

  /**
   * A row's channel is its sender's own, and the first sender's only where that one has
   * none; its sender is written down exactly when the campaign has several, its list is the
   * first target list the contact is on.
   */
  ghost predicate Routed(w: Snapshot, senders: seq<Sender>, lists: seq<nat>, c: nat, r: Recipient) {
    && (|senders| == 1 ==> r.sender == None && r.channel == senders[0].channel)
    && (|senders| > 1 ==>
          && r.sender.Some? && r.sender.value < |senders|
          && (senders[r.sender.value].channel.Some? ==> r.channel == senders[r.sender.value].channel)
          && (senders[r.sender.value].channel.None? ==> r.channel == senders[0].channel))
    && (r.listId.None? ==> c !in w.db.contacts || forall l :: l in lists ==> l !in w.db.contacts[c].lists)
    && (r.listId.Some? ==> c in w.db.contacts && exists k: nat :: FirstListed(lists, w.db.contacts[c].lists, k) && r.listId == Some(lists[k]))
  }

  ghost predicate FirstListed(lists: seq<nat>, on: set<nat>, k: nat) {
    k < |lists| && lists[k] in on && forall j :: 0 <= j < k ==> lists[j] !in on
  }

  lemma {:induction false} FirstListIsFirst(w: Snapshot, lists: seq<nat>, c: nat)
    requires FirstList(w, lists, c).Some?
    ensures exists k: nat :: FirstListed(lists, w.db.contacts[c].lists, k) && FirstList(w, lists, c) == Some(lists[k])
  {
    var on := w.db.contacts[c].lists;
    if lists[0] in on {
      assert FirstListed(lists, on, 0);
    } else {
      FirstListIsFirst(w, lists[1..], c);
      var k: nat :| FirstListed(lists[1..], on, k) && FirstList(w, lists[1..], c) == Some(lists[1..][k]);
      assert FirstListed(lists, on, k + 1) by {
        forall j | 0 <= j < k + 1 ensures lists[j] !in on { if j > 0 { assert lists[j] == lists[1..][j - 1]; } }
      }
    }
  }

  lemma FittingIsRouted(w: Snapshot, senders: seq<Sender>, lists: seq<nat>, c: nat, r: Recipient)
    requires RowFits(w, senders, lists, c, r)
    ensures Routed(w, senders, lists, c, r)
  {
    if r.listId.Some? { FirstListIsFirst(w, lists, c); }
  }

  /** Rows of `before` stay as they were, and every new row fits. */
  ghost predicate Extends(w: Snapshot, senders: seq<Sender>, lists: seq<nat>, before: map<nat, Recipient>, table: map<nat, Recipient>) {
    && before.Keys <= table.Keys
    && (forall c :: c in before ==> table[c] == before[c])
    && (forall c :: c in table && c !in before ==> RowFits(w, senders, lists, c, table[c]))
  }

  lemma NewRowsRouted(w: Snapshot, senders: seq<Sender>, lists: seq<nat>, before: map<nat, Recipient>, table: map<nat, Recipient>)
    requires forall c :: c in table && c !in before ==> RowFits(w, senders, lists, c, table[c])
    ensures forall c :: c in table && c !in before ==> Routed(w, senders, lists, c, table[c])
  {
    forall c | c in table && c !in before { FittingIsRouted(w, senders, lists, c, table[c]); }
  }

  /** createMany with skipDuplicates, one row. */
  function InsertRow(table: map<nat, Recipient>, c: nat, r: Recipient): map<nat, Recipient> {
    if c in table then table else table[c := r]
  }

  // ---------------------------------------------------------------------------
  // Progress of a run
  // ---------------------------------------------------------------------------

  /**
   * The recipient table and the counters of one run; `placed` lists the contacts assigned a
   * sender so far, in order, and `turns` the senders they were assigned.
   */
  datatype Progress = Progress(
    table: map<nat, Recipient>, positioned: nat, inserted: nat, suppressed: nat, blocked: nat, turns: seq<nat>, placed: seq<nat>)

  /** The fixed inputs of a run: `before` is the table it found, `offset` where its rotation started. */
  datatype Run = Run(w: Snapshot, senders: seq<Sender>, lists: seq<nat>, before: map<nat, Recipient>, offset: nat)

  /** Where the rotation stands after these turns: one past the sender taken last. */
  function Position(x: Run, turns: seq<nat>): nat { if turns == [] then x.offset else turns[|turns| - 1] + 1 }

  /** The assignment number `k` is the first sender from the rotation position on that does not block the contact. */
  ghost predicate TakesTurn(x: Run, turns: seq<nat>, placed: seq<nat>, k: nat)
    requires k < |turns| == |placed|
  {
    var from := Position(x, turns[..k]);
    exists o :: FirstFree(x.senders, EmailOf(x.w, placed[k]), from, o) && turns[k] == At(from, o, |x.senders|)
  }

  ghost predicate Dealt(x: Run, p: Progress) {
    && |p.turns| == |p.placed| && p.positioned == Position(x, p.turns)
    && forall k :: 0 <= k < |p.placed| ==> TakesTurn(x, p.turns, p.placed, k)
  }

  /** The contact had no row when assignment `k` was made. */
  predicate NewAt(before: map<nat, Recipient>, placed: seq<nat>, k: nat)
    requires k < |placed|
  {
    placed[k] !in before && placed[k] !in placed[..k]
  }

  /** Each new row bears the sender its contact was assigned first; createMany skips the later ones. */
  ghost predicate Stamped(x: Run, p: Progress)
    requires |p.turns| == |p.placed|
  {
    forall k :: 0 <= k < |p.placed| && NewAt(x.before, p.placed, k) ==>
      p.placed[k] in p.table && SenderOf(p.table[p.placed[k]]) == p.turns[k]
  }

  /**
   * The table extends the one found by the contacts placed, `inserted` counts the difference,
   * and every row bears the sender its turn gave it.
   */
  ghost predicate Booked(x: Run, p: Progress) {
    && Extends(x.w, x.senders, x.lists, x.before, p.table) && p.inserted == |p.table.Keys| - |x.before.Keys|
    && p.table.Keys == x.before.Keys + SP.ToSet(p.placed)
    && Dealt(x, p) && Stamped(x, p)
  }

  /** `q` makes one more assignment than `p`. */
  ghost predicate OneMore(p: Progress, q: Progress, c: nat, selected: nat) {
    q.turns == p.turns + [selected] && q.placed == p.placed + [c] && q.positioned == selected + 1
  }

  lemma PlacedDealt(x: Run, p: Progress, q: Progress, c: nat, selected: nat)
    requires Dealt(x, p) && OneMore(p, q, c, selected)
    requires exists o :: FirstFree(x.senders, EmailOf(x.w, c), p.positioned, o) && selected == At(p.positioned, o, |x.senders|)
    ensures Dealt(x, q)
  {
    var n := |p.placed|;
    forall k | 0 <= k < n + 1 ensures TakesTurn(x, q.turns, q.placed, k) {
      assert q.turns[..k] == p.turns[..k];
      if k < n { assert TakesTurn(x, p.turns, p.placed, k); } else { assert p.turns[..n] == p.turns; }
    }
  }

  /** Assignments made before keep their rows: createMany skips a contact that has one. */
  lemma StillStamped(x: Run, p: Progress, q: Progress, c: nat, row: Recipient, k: nat)
    requires |p.turns| == |p.placed| && Stamped(x, p) && OneMore(p, q, c, SenderOf(row)) && q.table == InsertRow(p.table, c, row)
    requires k < |p.placed| && NewAt(x.before, q.placed, k)
    ensures q.placed[k] in q.table && SenderOf(q.table[q.placed[k]]) == q.turns[k]
  {
    assert q.placed[..k] == p.placed[..k];
    assert NewAt(x.before, p.placed, k);
  }

  /** The one just made stamps its row if the contact had none. */
  lemma NowStamped(x: Run, p: Progress, q: Progress, c: nat, row: Recipient)
    requires |p.turns| == |p.placed| && OneMore(p, q, c, SenderOf(row)) && q.table == InsertRow(p.table, c, row)
    requires p.table.Keys == x.before.Keys + SP.ToSet(p.placed)
    requires NewAt(x.before, q.placed, |p.placed|)
    ensures c in q.table && SenderOf(q.table[c]) == SenderOf(row)
  {
    assert q.placed[..|p.placed|] == p.placed;
    assert c !in p.table;
  }

  lemma PlacedStamped(x: Run, p: Progress, q: Progress, c: nat, row: Recipient)
    requires |p.turns| == |p.placed| && Stamped(x, p) && OneMore(p, q, c, SenderOf(row)) && q.table == InsertRow(p.table, c, row)
    requires p.table.Keys == x.before.Keys + SP.ToSet(p.placed)
    ensures |q.turns| == |q.placed| && Stamped(x, q)
  {
    var n := |p.placed|;
    forall k | 0 <= k < n + 1 && NewAt(x.before, q.placed, k)
      ensures q.placed[k] in q.table && SenderOf(q.table[q.placed[k]]) == q.turns[k]
    {
      if k < n { StillStamped(x, p, q, c, row, k); } else { NowStamped(x, p, q, c, row); }
    }
  }

  lemma PlacedBooked(x: Run, p: Progress, q: Progress, c: nat, row: Recipient)
    requires Booked(x, p) && OneMore(p, q, c, SenderOf(row)) && q.table == InsertRow(p.table, c, row)
    requires q.inserted == p.inserted + (if c in p.table then 0 else 1)
    requires c !in p.table ==> RowFits(x.w, x.senders, x.lists, c, row)
    requires Dealt(x, q)
    ensures Booked(x, q)
  {
    PlacedStamped(x, p, q, c, row);
    RowExtends(x, p.table, c, row);
    RowCounted(p.table, c, row);
    PlacedKeys(x.before, p.placed, c);
  }

  lemma PlacedKeys(before: map<nat, Recipient>, placed: seq<nat>, c: nat)
    ensures before.Keys + SP.ToSet(placed + [c]) == before.Keys + SP.ToSet(placed) + {c}
  {
  }

  lemma RowExtends(x: Run, table: map<nat, Recipient>, c: nat, row: Recipient)
    requires Extends(x.w, x.senders, x.lists, x.before, table)
    requires c !in table ==> RowFits(x.w, x.senders, x.lists, c, row)
    ensures Extends(x.w, x.senders, x.lists, x.before, InsertRow(table, c, row))
  {
  }

  lemma RowCounted(table: map<nat, Recipient>, c: nat, row: Recipient)
    ensures InsertRow(table, c, row).Keys == table.Keys + {c}
    ensures |InsertRow(table, c, row).Keys| == |table.Keys| + (if c in table then 0 else 1)
  {
    if c in table { assert table.Keys + {c} == table.Keys; } else { assert table[c := row].Keys == table.Keys + {c}; }
  }

  /** The row of a candidate for a sender. */
  method RowFor(r: Candidate, senders: seq<Sender>, selected: nat) returns (row: Recipient)
    requires selected < |senders|
    ensures SenderOf(row) == selected && (row.sender.Some? <==> |senders| > 1)
    ensures row.channel == ChannelOf(senders, selected) && row.email == r.email && row.listId == r.listId
  {
    var s := if |senders| > 1 then Some(selected) else None;
    var channel := if senders[selected].channel.Some? then senders[selected].channel else senders[0].channel;
    row := Recipient(r.email, s, channel, r.listId);
  }

  /** A candidate as the streams build it: a list stream names the first list, a segment stream none. */
  ghost predicate Proper(x: Run, p: Progress, r: Candidate) {
    && r.email == EmailOf(x.w, r.id)
    && (r.id !in p.table && Kept(x.w, x.senders, r.id) ==> r.listId == FirstList(x.w, x.lists, r.id))
  }

  /** One contact of a batch. */
  method Place(ghost x: Run, p: Progress, r: Candidate, senders: seq<Sender>) returns (q: Progress)
    requires Booked(x, p) && x.senders == senders && Proper(x, p, r) && !Suppressed(x.w, r.email)
    ensures Booked(x, q) && q.suppressed == p.suppressed
    ensures q.placed == p.placed + (if AllBlock(senders, r.email) then [] else [r.id])
    ensures q.blocked == p.blocked + (if AllBlock(senders, r.email) then 1 else 0)
  {
    var selected := SelectSender(senders, r.email, p.positioned);
    if selected.None? {
      assert p.placed + [] == p.placed;
      return p.(blocked := p.blocked + 1);
    }
    var row := RowFor(r, senders, selected.value);
    q := p.(
      table := InsertRow(p.table, r.id, row),
      positioned := selected.value + 1,
      inserted := p.inserted + (if r.id in p.table then 0 else 1),
      turns := p.turns + [selected.value],
      placed := p.placed + [r.id]);
    PlacedDealt(x, p, q, r.id, selected.value);
    PlacedBooked(x, p, q, r.id, row);
  }

  // ---------------------------------------------------------------------------
  // Batches
  // ---------------------------------------------------------------------------

  function Ids(rows: seq<Candidate>): (ids: seq<nat>)
    ensures |ids| == |rows| && forall k :: 0 <= k < |rows| ==> ids[k] == rows[k].id
  {
    seq(|rows|, k requires 0 <= k < |rows| => rows[k].id)
  }

  function Unsuppressed(w: Snapshot, rows: seq<Candidate>): seq<Candidate> {
    if rows == [] then []
    else
      var last := rows[|rows| - 1];
      Unsuppressed(w, rows[..|rows| - 1]) + (if Suppressed(w, last.email) then [] else [last])
  }

  /** Drop the rows whose address is on the suppression list. */
  method FilterSuppressed(w: Snapshot, rows: seq<Candidate>) returns (kept: seq<Candidate>)
    ensures kept == Unsuppressed(w, rows)
    ensures forall r :: r in kept <==> r in rows && !Suppressed(w, r.email)
  {
    kept := [];
    for k := 0 to |rows|
      invariant kept == Unsuppressed(w, rows[..k])
    {
      assert rows[..k + 1][..k] == rows[..k];
      if Lower(rows[k].email) !in w.suppression { kept := kept + [rows[k]]; }
    }
    assert rows[..|rows|] == rows;
    UnsuppressedMembers(w, rows);
  }

  lemma {:induction false} UnsuppressedMembers(w: Snapshot, rows: seq<Candidate>)
    ensures forall r :: r in Unsuppressed(w, rows) <==> r in rows && !Suppressed(w, r.email)
  {
    if rows != [] { UnsuppressedMembers(w, rows[..|rows| - 1]); }
  }

  /** Of a stream of contacts, those off the suppression list, in order. */
  function Offered(w: Snapshot, ids: seq<nat>): (kept: seq<nat>)
    ensures |kept| <= |ids|
  {
    if ids == [] then []
    else
      var last := ids[|ids| - 1];
      Offered(w, ids[..|ids| - 1]) + (if Suppressed(w, EmailOf(w, last)) then [] else [last])
  }

  /** ... and those some sender does not block. */
  function Takers(w: Snapshot, senders: seq<Sender>, ids: seq<nat>): (kept: seq<nat>)
    ensures |kept| <= |ids|
  {
    if ids == [] then []
    else
      var last := ids[|ids| - 1];
      Takers(w, senders, ids[..|ids| - 1]) + (if AllBlock(senders, EmailOf(w, last)) then [] else [last])
  }

  /** The contacts of a stream that get an assignment, in order. */
  function KeptOf(w: Snapshot, senders: seq<Sender>, ids: seq<nat>): seq<nat> { Takers(w, senders, Offered(w, ids)) }

  lemma {:induction false} OfferedMembers(w: Snapshot, ids: seq<nat>)
    ensures forall c :: c in Offered(w, ids) <==> c in ids && !Suppressed(w, EmailOf(w, c))
  {
    if ids != [] { OfferedMembers(w, ids[..|ids| - 1]); }
  }

  lemma {:induction false} TakersMembers(w: Snapshot, senders: seq<Sender>, ids: seq<nat>)
    ensures forall c :: c in Takers(w, senders, ids) <==> c in ids && !AllBlock(senders, EmailOf(w, c))
  {
    if ids != [] { TakersMembers(w, senders, ids[..|ids| - 1]); }
  }

  lemma {:induction false} OfferedConcat(w: Snapshot, a: seq<nat>, b: seq<nat>)
    ensures Offered(w, a + b) == Offered(w, a) + Offered(w, b)
    decreases |b|
  {
    if b == [] {
      assert a + b == a;
    } else {
      assert (a + b)[..|a + b| - 1] == a + b[..|b| - 1];
      OfferedConcat(w, a, b[..|b| - 1]);
    }
  }

  lemma {:induction false} TakersConcat(w: Snapshot, senders: seq<Sender>, a: seq<nat>, b: seq<nat>)
    ensures Takers(w, senders, a + b) == Takers(w, senders, a) + Takers(w, senders, b)
    decreases |b|
  {
    if b == [] {
      assert a + b == a;
    } else {
      assert (a + b)[..|a + b| - 1] == a + b[..|b| - 1];
      TakersConcat(w, senders, a, b[..|b| - 1]);
    }
  }

  lemma KeptConcat(w: Snapshot, senders: seq<Sender>, a: seq<nat>, b: seq<nat>)
    ensures KeptOf(w, senders, a + b) == KeptOf(w, senders, a) + KeptOf(w, senders, b)
  {
    OfferedConcat(w, a, b);
    TakersConcat(w, senders, Offered(w, a), Offered(w, b));
  }

  lemma {:induction false} UnsuppressedIds(w: Snapshot, rows: seq<Candidate>)
    requires forall k :: 0 <= k < |rows| ==> rows[k].email == EmailOf(w, rows[k].id)
    ensures Ids(Unsuppressed(w, rows)) == Offered(w, Ids(rows))
  {
    if rows != [] {
      var init, last := rows[..|rows| - 1], rows[|rows| - 1];
      UnsuppressedIds(w, init);
      assert Ids(rows)[..|rows| - 1] == Ids(init);
      IdsOneMore(Unsuppressed(w, init), last);
    }
  }

  lemma IdsOneMore(rows: seq<Candidate>, last: Candidate)
    ensures Ids(rows + [last]) == Ids(rows) + [last.id]
  {
  }

  ghost predicate AllProper(x: Run, p: Progress, rows: seq<Candidate>) {
    forall r :: r in rows ==> Proper(x, p, r)
  }

  /** Adding rows only makes fewer demands on later candidates. */
  lemma ProperLater(x: Run, p: Progress, q: Progress, rows: seq<Candidate>)
    requires AllProper(x, p, rows) && p.table.Keys <= q.table.Keys
    ensures AllProper(x, q, rows)
  {
  }

  /** Suppressed addresses are dropped and counted, the others assigned a sender or counted as blocked. */
  method InsertBatch(ghost x: Run, p: Progress, rows: seq<Candidate>, w: Snapshot, senders: seq<Sender>) returns (q: Progress)
    requires Booked(x, p) && x.w == w && x.senders == senders && AllProper(x, p, rows)
    ensures Booked(x, q) && q.placed == p.placed + KeptOf(w, senders, Ids(rows))
    ensures q.suppressed == p.suppressed + |rows| - |Offered(w, Ids(rows))|
    ensures q.blocked == p.blocked + |Offered(w, Ids(rows))| - |KeptOf(w, senders, Ids(rows))|
  {
    var kept := FilterSuppressed(w, rows);
    forall k | 0 <= k < |rows| ensures rows[k].email == EmailOf(w, rows[k].id) { assert Proper(x, p, rows[k]); }
    UnsuppressedIds(w, rows);
    q := PlaceAll(x, p.(suppressed := p.suppressed + (|rows| - |kept|)), kept, senders);
  }

  /** The first `k` candidates are dealt with. */
  ghost predicate PlacedUpTo(x: Run, p: Progress, q: Progress, kept: seq<Candidate>, k: nat) {
    && Booked(x, q) && AllProper(x, q, kept) && k <= |kept| && q.suppressed == p.suppressed
    && var takers := Takers(x.w, x.senders, Ids(kept)[..k]);
       q.placed == p.placed + takers && q.blocked == p.blocked + k - |takers|
  }

  method PlaceAll(ghost x: Run, p: Progress, kept: seq<Candidate>, senders: seq<Sender>) returns (q: Progress)
    requires Booked(x, p) && x.senders == senders && AllProper(x, p, kept)
    requires forall r :: r in kept ==> !Suppressed(x.w, r.email)
    ensures Booked(x, q) && q.suppressed == p.suppressed
    ensures q.placed == p.placed + Takers(x.w, senders, Ids(kept))
    ensures q.blocked == p.blocked + |kept| - |Takers(x.w, senders, Ids(kept))|
  {
    q := p;
    NonePlaced(x, p, kept);
    for k := 0 to |kept|
      invariant PlacedUpTo(x, p, q, kept, k)
    {
      q := PlaceNext(x, p, q, kept, k, senders);
    }
    assert Ids(kept)[..|kept|] == Ids(kept);
  }

  lemma NonePlaced(x: Run, p: Progress, kept: seq<Candidate>)
    requires Booked(x, p) && AllProper(x, p, kept)
    ensures PlacedUpTo(x, p, p, kept, 0)
  {
    assert p.placed + [] == p.placed;
  }

  method PlaceNext(ghost x: Run, ghost p0: Progress, p: Progress, kept: seq<Candidate>, k: nat, senders: seq<Sender>)
    returns (q: Progress)
    requires PlacedUpTo(x, p0, p, kept, k) && k < |kept| && x.senders == senders && !Suppressed(x.w, kept[k].email)
    ensures PlacedUpTo(x, p0, q, kept, k + 1)
  {
    q := Place(x, p, kept[k], senders);
    OneMoreTaker(x, p0, p, q, kept, k);
    SP.ToSetConcat(p.placed, if AllBlock(senders, kept[k].email) then [] else [kept[k].id]);
    ProperLater(x, p, q, kept);
  }

  lemma OneMoreTaker(x: Run, p0: Progress, p: Progress, q: Progress, kept: seq<Candidate>, k: nat)
    requires PlacedUpTo(x, p0, p, kept, k) && k < |kept|
    requires q.placed == p.placed + (if AllBlock(x.senders, kept[k].email) then [] else [kept[k].id])
    requires q.blocked == p.blocked + (if AllBlock(x.senders, kept[k].email) then 1 else 0)
    ensures var takers := Takers(x.w, x.senders, Ids(kept)[..k + 1]);
      q.placed == p0.placed + takers && q.blocked == p0.blocked + (k + 1) - |takers|
  {
    assert kept[k] in kept && Proper(x, p, kept[k]);
    NextTaker(x.w, x.senders, Ids(kept), k);
    assert p0.placed + (Takers(x.w, x.senders, Ids(kept)[..k]) + (if AllBlock(x.senders, kept[k].email) then [] else [kept[k].id]))
        == q.placed;
  }

  lemma NextTaker(w: Snapshot, senders: seq<Sender>, ids: seq<nat>, k: nat)
    requires k < |ids|
    ensures Takers(w, senders, ids[..k + 1])
            == Takers(w, senders, ids[..k]) + (if AllBlock(senders, EmailOf(w, ids[k])) then [] else [ids[k]])
  {
    assert ids[..k + 1][..k] == ids[..k];
  }

  /** The contacts of `ids` that the table should hold. */
  function KeptAmong(w: Snapshot, senders: seq<Sender>, ids: set<nat>): set<nat> {
    set c | c in ids && Kept(w, senders, c)
  }

  lemma KeptSet(w: Snapshot, senders: seq<Sender>, ids: seq<nat>)
    ensures SP.ToSet(KeptOf(w, senders, ids)) == KeptAmong(w, senders, SP.ToSet(ids))
  {
    OfferedMembers(w, ids);
    TakersMembers(w, senders, Offered(w, ids));
  }

  function ListCandidates(w: Snapshot, lists: seq<nat>, ids: seq<nat>): (rows: seq<Candidate>)
    ensures |rows| == |ids| && forall k :: 0 <= k < |ids| ==> rows[k] == Candidate(ids[k], EmailOf(w, ids[k]), FirstList(w, lists, ids[k]))
    ensures Ids(rows) == ids
  {
    seq(|ids|, k requires 0 <= k < |ids| => Candidate(ids[k], EmailOf(w, ids[k]), FirstList(w, lists, ids[k])))
  }

  function SegmentCandidates(w: Snapshot, ids: seq<nat>): (rows: seq<Candidate>)
    ensures |rows| == |ids| && forall k :: 0 <= k < |ids| ==> rows[k] == Candidate(ids[k], EmailOf(w, ids[k]), None)
    ensures Ids(rows) == ids
  {
    seq(|ids|, k requires 0 <= k < |ids| => Candidate(ids[k], EmailOf(w, ids[k]), None))
  }

  // ---------------------------------------------------------------------------
  // Streams; `crashAfter` batches the process dies
  // ---------------------------------------------------------------------------

  /** The contacts `seen` have been streamed, in this order, and dealt with; the counters say what became of them. */
  ghost predicate Streamed(x: Run, q: Progress, seen: seq<nat>) {
    && Booked(x, q) && q.placed == KeptOf(x.w, x.senders, seen)
    && q.suppressed == |seen| - |Offered(x.w, seen)|
    && q.blocked == |Offered(x.w, seen)| - |q.placed|
  }

  method InsertIds(ghost x: Run, q: Progress, rows: seq<Candidate>, w: Snapshot, senders: seq<Sender>, ghost seen: seq<nat>)
    returns (r: Progress)
    requires Streamed(x, q, seen) && x.w == w && x.senders == senders && AllProper(x, q, rows)
    ensures Streamed(x, r, seen + Ids(rows))
  {
    r := InsertBatch(x, q, rows, w, senders);
    KeptConcat(w, senders, seen, Ids(rows));
    OfferedConcat(w, seen, Ids(rows));
  }

  lemma ListRowsProper(x: Run, q: Progress, ids: seq<nat>)
    ensures AllProper(x, q, ListCandidates(x.w, x.lists, ids))
  {
  }

  lemma ListPage(base: set<nat>, cursor: Option<nat>, ids: seq<nat>)
    requires ids == SP.Page(base, cursor, BATCH) && ids != []
    ensures var next := Some(ids[|ids| - 1]);
      && Sorted(SP.UpTo(base, next)) == Sorted(SP.UpTo(base, cursor)) + ids
      && |SP.Beyond(base, next)| < |SP.Beyond(base, cursor)|
      && (|ids| < BATCH ==> SP.UpTo(base, next) == base)
  {
    StretchSorted(base, cursor, ids);
    PageMoves(base, cursor, ids, ids[|ids| - 1]);
  }

  lemma PageMoves(base: set<nat>, cursor: Option<nat>, ids: seq<nat>, last: nat)
    requires ids == SP.Page(base, cursor, BATCH) && ids != [] && last == ids[|ids| - 1]
    ensures |SP.Beyond(base, Some(last))| < |SP.Beyond(base, cursor)|
    ensures |ids| < BATCH ==> SP.UpTo(base, Some(last)) == base
  {
    SP.PageAdvances(base, cursor, BATCH);
  }

  lemma StretchSorted(base: set<nat>, cursor: Option<nat>, ids: seq<nat>)
    requires ids <= Sorted(SP.Beyond(base, cursor)) && ids != []
    ensures Sorted(SP.UpTo(base, Some(ids[|ids| - 1]))) == Sorted(SP.UpTo(base, cursor)) + ids
  {
    SP.KeptExtends(base, {}, cursor, ids, ids);
    NoneOut(SP.UpTo(base, cursor));
    NoneOut(SP.UpTo(base, Some(ids[|ids| - 1])));
  }

  lemma NoneOut(ids: set<nat>)
    ensures ids - {} == ids
  {
  }

  /** The list members up to the cursor are in. */
  ghost predicate MembersIn(x: Run, q: Progress, cursor: Option<nat>) {
    Streamed(x, q, Sorted(SP.UpTo(FromLists(x.w, x.lists), cursor)))
  }

  lemma NoMemberIn(x: Run, p: Progress)
    requires p == Progress(x.before, x.offset, 0, 0, 0, [], [])
    ensures MembersIn(x, p, None)
  {
    assert SP.UpTo(FromLists(x.w, x.lists), None) == {};
  }

  /** One page of list members. */
  method OneListPage(ghost x: Run, q: Progress, w: Snapshot, senders: seq<Sender>, lists: seq<nat>,
                     cursor: Option<nat>, ids: seq<nat>)
    returns (r: Progress)
    requires MembersIn(x, q, cursor) && x.w == w && x.senders == senders && x.lists == lists
    requires ids == SP.Page(FromLists(w, lists), cursor, BATCH) && ids != []
    ensures var next := Some(ids[|ids| - 1]);
      && MembersIn(x, r, next)
      && |SP.Beyond(FromLists(w, lists), next)| < |SP.Beyond(FromLists(w, lists), cursor)|
      && (|ids| < BATCH ==> SP.UpTo(FromLists(w, lists), next) == FromLists(w, lists))
  {
    ListRowsProper(x, q, ids);
    r := InsertIds(x, q, ListCandidates(w, lists, ids), w, senders, Sorted(SP.UpTo(FromLists(w, lists), cursor)));
    ListPage(FromLists(w, lists), cursor, ids);
  }

  /** Cursor pagination over the list members, up to the last cursor reached. */
  method StreamLists(ghost x: Run, p: Progress, w: Snapshot, senders: seq<Sender>, lists: seq<nat>, crashAfter: Option<nat>)
    returns (q: Progress, left: Option<nat>, alive: bool, ghost reached: Option<nat>)
    requires MembersIn(x, p, None) && x.w == w && x.senders == senders && x.lists == lists
    ensures MembersIn(x, q, reached)
    ensures alive ==> SP.UpTo(FromLists(w, lists), reached) == FromLists(w, lists)
    ensures crashAfter.None? ==> alive && left.None?
  {
    q, left, alive := p, crashAfter, true;
    var cursor: Option<nat> := None;
    while true
      invariant MembersIn(x, q, cursor)
      invariant crashAfter.None? ==> left.None?
      decreases |SP.Beyond(FromLists(w, lists), cursor)|
    {
      var ids := SP.Page(FromLists(w, lists), cursor, BATCH);
      if |ids| == 0 {
        SP.AllSeen(FromLists(w, lists), cursor);
        return q, left, true, cursor;
      }
      if left == Some(0) { return q, left, false, cursor; }
      left := OneLess(left);
      q := OneListPage(x, q, w, senders, lists, cursor, ids);
      var last: nat := ids[|ids| - 1];
      cursor := Some(last);
      if |ids| < BATCH { return q, left, true, cursor; }
    }
  }

  /** A contact a segment adds is on none of the lists: the list stream would have taken it. */
  lemma SegmentOnly(w: Snapshot, senders: seq<Sender>, lists: seq<nat>, table: set<nat>, c: nat, g: nat)
    requires KeptAmong(w, senders, FromLists(w, lists)) <= table
    requires c in FromSegment(w, g) && c !in table && Kept(w, senders, c)
    ensures FirstList(w, lists, c) == None
  {
  }

  /** The stream so far began with all the list members. */
  ghost predicate ListsSeen(x: Run, seen: seq<nat>) {
    Sorted(FromLists(x.w, x.lists)) <= seen
  }

  lemma ListsAreIn(x: Run, q: Progress, seen: seq<nat>)
    requires Streamed(x, q, seen) && ListsSeen(x, seen)
    ensures KeptAmong(x.w, x.senders, FromLists(x.w, x.lists)) <= q.table.Keys
  {
    KeptSet(x.w, x.senders, seen);
    var members := Sorted(FromLists(x.w, x.lists));
    forall c | c in members ensures c in seen {
      var k :| 0 <= k < |members| && members[k] == c;
      assert seen[k] == c;
    }
  }

  lemma SegmentRowsProper(x: Run, q: Progress, seen: seq<nat>, ids: seq<nat>, g: nat)
    requires Streamed(x, q, seen) && ListsSeen(x, seen)
    requires forall c :: c in ids ==> c in FromSegment(x.w, g)
    ensures AllProper(x, q, SegmentCandidates(x.w, ids))
  {
    ListsAreIn(x, q, seen);
    forall r | r in SegmentCandidates(x.w, ids) ensures Proper(x, q, r) {
      if r.id !in q.table && Kept(x.w, x.senders, r.id) {
        SegmentOnly(x.w, x.senders, x.lists, q.table.Keys, r.id, g);
      }
    }
  }

  // ---------------------------------------------------------------------------
  // Segments
  // ---------------------------------------------------------------------------

  /** The WHERE clause every segment scan adds. */
  function OnlySubscribed(): seq<SR.Where> { [SR.SubscriptionIs(SUBSCRIBED)] }

  lemma SubscribedClause(x: SR.Contact)
    ensures SR.Passes(OnlySubscribed(), x) <==> x.subscription == SUBSCRIBED
  {
    assert SR.SubscriptionIs(SUBSCRIBED) in OnlySubscribed();
  }

  /** The scan of a segment streams its subscribed contacts. */
  method SegmentBatches(w: Snapshot, g: nat) returns (batches: seq<seq<nat>>)
    requires g in w.segments
    ensures Flatten(batches) == Sorted(FromSegment(w, g))
  {
    var plan := SP.PlanSegment(w.db, w.tenant, w.segments[g], w.now);
    batches := SP.ScanSegment(w.db, plan, OnlySubscribed(), BATCH);
    ghost var chosen := SP.Chosen(w.db, plan, OnlySubscribed());
    SP.ChosenWithExtra(w.db, plan, OnlySubscribed());
    forall c ensures c in chosen <==> c in FromSegment(w, g) {
      if c in w.db.contacts { SubscribedClause(w.db.contacts[c]); }
    }
    assert chosen == FromSegment(w, g);
  }

  /** One segment: all its subscribed contacts in id order, or the batches up to the crash. */
  method StreamSegment(ghost x: Run, q0: Progress, w: Snapshot, senders: seq<Sender>, g: nat,
                       crashAfter: Option<nat>, ghost seen0: seq<nat>)
    returns (q: Progress, left: Option<nat>, alive: bool, ghost seen: seq<nat>)
    requires Streamed(x, q0, seen0) && ListsSeen(x, seen0) && x.w == w && x.senders == senders
    ensures Streamed(x, q, seen) && seen0 <= seen <= seen0 + Sorted(FromSegment(w, g))
    ensures alive ==> seen == seen0 + Sorted(FromSegment(w, g))
    ensures crashAfter.None? ==> alive && left.None?
  {
    if g in w.segments {
      var batches := SegmentBatches(w, g);
      NoBatchIn(x, q0, batches, seen0);
      ghost var n;
      q, left, n := StreamBatches(x, q0, w, senders, g, batches, crashAfter, seen0);
      seen := seen0 + Flatten(batches[..n]);
      alive := left != Some(0);
      PartOfScan(seen0, batches, n);
    } else {
      q, left, alive, seen := q0, crashAfter, true, seen0;
      assert seen0 + [] == seen0;
    }
  }

  lemma PartOfScan(seen0: seq<nat>, batches: seq<seq<nat>>, n: nat)
    requires n <= |batches|
    ensures seen0 <= seen0 + Flatten(batches[..n]) <= seen0 + Flatten(batches)
    ensures n == |batches| ==> Flatten(batches[..n]) == Flatten(batches)
  {
    FlattenPrefix(batches, n);
    if n == |batches| { assert batches[..n] == batches; }
  }

  /** `k` batches of a scan are in. */
  ghost predicate BatchesIn(x: Run, q: Progress, batches: seq<seq<nat>>, k: nat, seen0: seq<nat>) {
    && k <= |batches| && ListsSeen(x, seen0)
    && Streamed(x, q, seen0 + Flatten(batches[..k]))
  }

  lemma NoBatchIn(x: Run, q: Progress, batches: seq<seq<nat>>, seen0: seq<nat>)
    requires Streamed(x, q, seen0) && ListsSeen(x, seen0)
    ensures BatchesIn(x, q, batches, 0, seen0)
  {
    assert seen0 + Flatten(batches[..0]) == seen0;
  }

  /** The batches of a scan, inserted one by one; `n` of them get in. */
  method StreamBatches(ghost x: Run, q0: Progress, w: Snapshot, senders: seq<Sender>, ghost g: nat,
                       batches: seq<seq<nat>>, crashAfter: Option<nat>, ghost seen0: seq<nat>)
    returns (q: Progress, left: Option<nat>, ghost n: nat)
    requires BatchesIn(x, q0, batches, 0, seen0) && x.w == w && x.senders == senders
    requires Flatten(batches) == Sorted(FromSegment(w, g))
    ensures BatchesIn(x, q, batches, n, seen0)
    ensures crashAfter.None? ==> left.None?
    ensures n == |batches| || left == Some(0)
  {
    q, left := q0, crashAfter;
    for k := 0 to |batches|
      invariant BatchesIn(x, q, batches, k, seen0)
      invariant crashAfter.None? ==> left.None?
    {
      if left == Some(0) { return q, left, k; }
      left := OneLess(left);
      q := OneBatch(x, q, w, senders, g, batches, k, seen0);
    }
    n := |batches|;
  }

  method OneBatch(ghost x: Run, q: Progress, w: Snapshot, senders: seq<Sender>, ghost g: nat,
                  batches: seq<seq<nat>>, k: nat, ghost seen0: seq<nat>)
    returns (r: Progress)
    requires k < |batches| && BatchesIn(x, q, batches, k, seen0) && x.w == w && x.senders == senders
    requires Flatten(batches) == Sorted(FromSegment(w, g))
    ensures BatchesIn(x, r, batches, k + 1, seen0)
  {
    BatchFromSegment(w, g, batches, k);
    SegmentRowsProper(x, q, seen0 + Flatten(batches[..k]), batches[k], g);
    r := InsertIds(x, q, SegmentCandidates(w, batches[k]), w, senders, seen0 + Flatten(batches[..k]));
    OneMoreBatch(seen0, batches, k);
  }

  lemma OneMoreBatch(seen0: seq<nat>, batches: seq<seq<nat>>, k: nat)
    requires k < |batches|
    ensures seen0 + Flatten(batches[..k]) + batches[k] == seen0 + Flatten(batches[..k + 1])
  {
    FlattenNext(batches, k);
  }

  lemma BatchFromSegment(w: Snapshot, g: nat, batches: seq<seq<nat>>, k: nat)
    requires k < |batches| && Flatten(batches) == Sorted(FromSegment(w, g))
    ensures forall c :: c in batches[k] ==> c in FromSegment(w, g)
  {
    FlattenStep(batches, k);
    PartIsInWhole(Flatten(batches[..k]), batches[k], Flatten(batches));
  }

  lemma PartIsInWhole(a: seq<nat>, b: seq<nat>, all: seq<nat>)
    requires a + b <= all
    ensures forall c :: c in b ==> c in all
  {
    forall c | c in b ensures c in all {
      var i :| 0 <= i < |b| && b[i] == c;
      assert all[|a| + i] == (a + b)[|a| + i] == c;
    }
  }

  // ---------------------------------------------------------------------------
  // The whole run
  // ---------------------------------------------------------------------------

  /** The contacts the segments stream, segment by segment, each in id order. */
  function StreamOf(w: Snapshot, gs: seq<nat>): seq<nat> {
    if gs == [] then [] else StreamOf(w, gs[..|gs| - 1]) + Sorted(FromSegment(w, gs[|gs| - 1]))
  }

  /** The whole stream of a dispatch: the list members, then the segments. */
  function Stream(w: Snapshot, lists: seq<nat>, segments: seq<nat>): seq<nat> {
    Sorted(FromLists(w, lists)) + StreamOf(w, segments)
  }

  lemma {:induction false} StreamOfMembers(w: Snapshot, gs: seq<nat>)
    ensures SP.ToSet(StreamOf(w, gs)) == FromSegments(w, gs)
  {
    if gs != [] {
      StreamOfMembers(w, gs[..|gs| - 1]);
      SP.ToSetConcat(StreamOf(w, gs[..|gs| - 1]), Sorted(FromSegment(w, gs[|gs| - 1])));
    }
  }

  /** Who gets a row is the audience. */
  lemma StreamIsAudience(w: Snapshot, senders: seq<Sender>, lists: seq<nat>, segments: seq<nat>)
    ensures SP.ToSet(KeptOf(w, senders, Stream(w, lists, segments))) == Audience(w, senders, lists, segments)
  {
    KeptSet(w, senders, Stream(w, lists, segments));
    StreamOfMembers(w, segments);
    SP.ToSetConcat(Sorted(FromLists(w, lists)), StreamOf(w, segments));
  }

  /** Nobody else does, however early the stream stops. */
  lemma PrefixInAudience(w: Snapshot, senders: seq<Sender>, lists: seq<nat>, segments: seq<nat>, seen: seq<nat>)
    requires seen <= Stream(w, lists, segments)
    ensures SP.ToSet(KeptOf(w, senders, seen)) <= Audience(w, senders, lists, segments)
  {
    StreamIsAudience(w, senders, lists, segments);
    var rest := Stream(w, lists, segments)[|seen|..];
    assert seen + rest == Stream(w, lists, segments);
    KeptConcat(w, senders, seen, rest);
    SP.ToSetConcat(KeptOf(w, senders, seen), KeptOf(w, senders, rest));
  }

  lemma StreamOfNext(w: Snapshot, gs: seq<nat>, k: nat)
    requires k < |gs|
    ensures StreamOf(w, gs[..k + 1]) == StreamOf(w, gs[..k]) + Sorted(FromSegment(w, gs[k]))
  {
    var first := gs[..k + 1];
    assert first[..|first| - 1] == gs[..k] && first[|first| - 1] == gs[k];
  }

  lemma {:induction false} StreamOfGrows(w: Snapshot, gs: seq<nat>, k: nat)
    requires k <= |gs|
    ensures StreamOf(w, gs[..k]) <= StreamOf(w, gs)
    decreases |gs| - k
  {
    if k == |gs| {
      assert gs[..k] == gs;
    } else {
      StreamOfNext(w, gs, k);
      StreamOfGrows(w, gs, k + 1);
    }
  }

  lemma StreamOfPrefix(w: Snapshot, gs: seq<nat>, k: nat)
    requires k < |gs|
    ensures StreamOf(w, gs[..k + 1]) == StreamOf(w, gs[..k]) + Sorted(FromSegment(w, gs[k]))
    ensures StreamOf(w, gs[..k + 1]) <= StreamOf(w, gs)
  {
    StreamOfNext(w, gs, k);
    StreamOfGrows(w, gs, k + 1);
  }

  /** The lists and `k` segments are in. */
  ghost predicate SegmentsIn(x: Run, q: Progress, segments: seq<nat>, k: nat) {
    k <= |segments| && Streamed(x, q, Stream(x.w, x.lists, segments[..k]))
  }

  lemma NoSegmentIn(x: Run, q: Progress, segments: seq<nat>)
    requires Streamed(x, q, Sorted(FromLists(x.w, x.lists)))
    ensures SegmentsIn(x, q, segments, 0)
  {
    assert Stream(x.w, x.lists, segments[..0]) == Sorted(FromLists(x.w, x.lists));
  }

  /** What one more segment streams is still part of the whole stream. */
  lemma OneMoreSegment(x: Run, segments: seq<nat>, k: nat)
    requires k < |segments|
    ensures var seen := Stream(x.w, x.lists, segments[..k]) + Sorted(FromSegment(x.w, segments[k]));
      seen == Stream(x.w, x.lists, segments[..k + 1]) && seen <= Stream(x.w, x.lists, segments)
  {
    StreamOfPrefix(x.w, segments, k);
    AfterLists(Sorted(FromLists(x.w, x.lists)), StreamOf(x.w, segments[..k]), Sorted(FromSegment(x.w, segments[k])),
      StreamOf(x.w, segments));
  }

  lemma AfterLists(l: seq<nat>, a: seq<nat>, b: seq<nat>, all: seq<nat>)
    requires a + b <= all
    ensures l + a + b == l + (a + b) <= l + all
  {
  }

  /** All segments, after the lists. */
  method StreamSegments(ghost x: Run, q0: Progress, w: Snapshot, senders: seq<Sender>, segments: seq<nat>, crashAfter: Option<nat>)
    returns (q: Progress, alive: bool, ghost seen: seq<nat>)
    requires SegmentsIn(x, q0, segments, 0) && x.w == w && x.senders == senders
    ensures Streamed(x, q, seen) && seen <= Stream(w, x.lists, segments)
    ensures alive ==> seen == Stream(w, x.lists, segments)
    ensures crashAfter.None? ==> alive
  {
    var left := crashAfter;
    q := q0;
    for k := 0 to |segments|
      invariant SegmentsIn(x, q, segments, k)
      invariant crashAfter.None? ==> left.None?
    {
      q, left, alive, seen := OneSegment(x, q, w, senders, segments, k, left);
      if !alive { return; }
    }
    AllSegmentsIn(x, q, segments);
    alive, seen := true, Stream(w, x.lists, segments);
  }

  lemma AllSegmentsIn(x: Run, q: Progress, segments: seq<nat>)
    requires SegmentsIn(x, q, segments, |segments|)
    ensures Streamed(x, q, Stream(x.w, x.lists, segments))
  {
    assert segments[..|segments|] == segments;
  }

  method OneSegment(ghost x: Run, q0: Progress, w: Snapshot, senders: seq<Sender>, segments: seq<nat>, k: nat,
                    crashAfter: Option<nat>)
    returns (q: Progress, left: Option<nat>, alive: bool, ghost seen: seq<nat>)
    requires SegmentsIn(x, q0, segments, k) && k < |segments| && x.w == w && x.senders == senders
    ensures Streamed(x, q, seen) && seen <= Stream(w, x.lists, segments)
    ensures alive ==> SegmentsIn(x, q, segments, k + 1)
    ensures crashAfter.None? ==> alive && left.None?
  {
    ghost var seen0 := Stream(w, x.lists, segments[..k]);
    q, left, alive, seen := StreamSegment(x, q0, w, senders, segments[k], crashAfter, seen0);
    OneMoreSegment(x, segments, k);
  }

  /** What a list stream that reached the cursor saw is the beginning of the whole stream. */
  lemma ListsComeFirst(w: Snapshot, lists: seq<nat>, segments: seq<nat>, reached: Option<nat>)
    ensures Sorted(SP.UpTo(FromLists(w, lists), reached)) <= Stream(w, lists, segments)
  {
    UpToComesFirst(FromLists(w, lists), reached);
  }

  lemma UpToComesFirst(base: set<nat>, reached: Option<nat>)
    ensures Sorted(SP.UpTo(base, reached)) <= Sorted(base)
  {
    assert base == SP.UpTo(base, reached) + SP.Beyond(base, reached);
    SP.SortedSplit(SP.UpTo(base, reached), SP.Beyond(base, reached));
  }

  /**
   * One dispatch over a fixed snapshot, dying after `crashAfter` batches if that is given. It
   * streams list members and then segments, all of them if it lives, and deals with each in
   * turn: suppressed ones are dropped and counted, blocked ones counted, the others assigned
   * the first sender from the rotation position that does not block them. It never touches
   * existing rows, adds nobody outside the audience and, when it lives, leaves out nobody.
   */
  method MaterialiseCampaignAudience(table: map<nat, Recipient>, w: Snapshot, senders: seq<Sender>, lists: seq<nat>,
                                     segments: seq<nat>, rotationOffset: nat, crashAfter: Option<nat>)
    returns (q: Progress, alive: bool, ghost seen: seq<nat>)
    ensures Streamed(Run(w, senders, lists, table, rotationOffset), q, seen)
    ensures seen <= Stream(w, lists, segments) && (alive ==> seen == Stream(w, lists, segments))
    ensures Extends(w, senders, lists, table, q.table) && q.inserted == |q.table.Keys| - |table.Keys|
    ensures forall c :: c in q.table && c !in table ==> Routed(w, senders, lists, c, q.table[c])
    ensures q.table.Keys <= table.Keys + Audience(w, senders, lists, segments)
    ensures alive ==> q.table.Keys == table.Keys + Audience(w, senders, lists, segments)
    ensures crashAfter.None? ==> alive
  {
    ghost var x := Run(w, senders, lists, table, rotationOffset);
    var p := Progress(table, rotationOffset, 0, 0, 0, [], []);
    NoMemberIn(x, p);
    ghost var reached;
    var left;
    q, left, alive, reached := StreamLists(x, p, w, senders, lists, crashAfter);
    seen := Sorted(SP.UpTo(FromLists(w, lists), reached));
    ListsComeFirst(w, lists, segments, reached);
    if alive {
      NoSegmentIn(x, q, segments);
      q, alive, seen := StreamSegments(x, q, w, senders, segments, left);
    }
    PrefixInAudience(w, senders, lists, segments, seen);
    StreamIsAudience(w, senders, lists, segments);
    NewRowsRouted(w, senders, lists, table, q.table);
  }

  /**
   * Main result: crash after any number of batches, retry with the rotation starting
   * anywhere, and the recipients are exactly the audience, one row each, as if the first
   * attempt had lived.
   */
  method DispatchWithRetry(w: Snapshot, senders: seq<Sender>, lists: seq<nat>, segments: seq<nat>, crashAfter: nat, rotationOffset: nat)
    returns (rows: map<nat, Recipient>)
    ensures rows.Keys == Audience(w, senders, lists, segments)
    ensures forall c :: c in rows ==> RowFits(w, senders, lists, c, rows[c]) && Routed(w, senders, lists, c, rows[c])
  {
    var first, _, _ := MaterialiseCampaignAudience(map[], w, senders, lists, segments, 0, Some(crashAfter));
    var second, _, _ := MaterialiseCampaignAudience(first.table, w, senders, lists, segments, rotationOffset, None);
    rows := second.table;
    RetryCompletes(w, senders, lists, first.table, rows, Audience(w, senders, lists, segments));
    NewRowsRouted(w, senders, lists, map[], rows);
  }

  /** A run that extends what an earlier one left leaves fitting rows of the audience, all of them. */
  lemma RetryCompletes(w: Snapshot, senders: seq<Sender>, lists: seq<nat>, first: map<nat, Recipient>, rows: map<nat, Recipient>,
                       audience: set<nat>)
    requires Extends(w, senders, lists, map[], first) && Extends(w, senders, lists, first, rows)
    requires first.Keys <= audience && rows.Keys == first.Keys + audience
    ensures rows.Keys == audience && forall c :: c in rows ==> RowFits(w, senders, lists, c, rows[c])
  {
  }

  // ---------------------------------------------------------------------------
  // Senders with their rules
  // ---------------------------------------------------------------------------

  datatype Configured = Configured(address: string, channel: Option<nat>, rules: seq<Rule>)

  function Roster(senders: seq<Configured>): (r: seq<Sender>)
    ensures |r| == |senders|
    ensures forall k :: 0 <= k < |senders| ==> r[k] == SenderWith(senders[k].address, senders[k].channel, senders[k].rules)
  {
    seq(|senders|, k requires 0 <= k < |senders| => SenderWith(senders[k].address, senders[k].channel, senders[k].rules))
  }

  /** A subscribed contact of the tenant that is on a target list, or meets every rule of a target segment. */
  ghost predicate Targeted(w: Snapshot, lists: seq<nat>, segments: seq<nat>, c: nat) {
    && c in w.db.contacts && w.db.contacts[c].tenant == w.tenant && w.db.contacts[c].subscription == 0
    && ((exists l :: l in lists && l in w.db.contacts[c].lists)
        || exists g :: g in segments && g in w.segments && SR.SatisfiesAll(w.db, w.now, w.segments[g], c))
  }

  lemma {:induction false} InSomeSegment(w: Snapshot, gs: seq<nat>, c: nat)
    ensures c in FromSegments(w, gs) <==> exists g :: g in gs && c in FromSegment(w, g)
  {
    if gs != [] {
      var init, last := gs[..|gs| - 1], gs[|gs| - 1];
      InSomeSegment(w, init, c);
      assert forall g :: g in gs <==> g in init || g == last;
    }
  }

  lemma TargetedIff(w: Snapshot, lists: seq<nat>, segments: seq<nat>, c: nat)
    ensures Targeted(w, lists, segments, c) <==> c in FromLists(w, lists) + FromSegments(w, segments)
  {
    InSomeSegment(w, segments, c);
    if c in FromSegments(w, segments) {
      var g :| g in segments && c in FromSegment(w, g);
      assert c in w.db.contacts && SR.SatisfiesAll(w.db, w.now, w.segments[g], c);
    }
    if Targeted(w, lists, segments, c) && c !in FromLists(w, lists) {
      var g :| g in segments && g in w.segments && SR.SatisfiesAll(w.db, w.now, w.segments[g], c);
      assert c in FromSegment(w, g);
    }
  }

  /**
   * The dispatch with the rules of the senders' domains: a targeted contact off the
   * suppression list is left out exactly when the rules of every sender block its address,
   * and the sender stamped on a row is one whose own rules let the address through, with its
   * own channel if it has one.
   */
  method DispatchByRules(w: Snapshot, senders: seq<Configured>, lists: seq<nat>, segments: seq<nat>, crashAfter: nat, rotationOffset: nat)
    returns (rows: map<nat, Recipient>)
    ensures forall c :: c in rows ==> Targeted(w, lists, segments, c) && Lower(EmailOf(w, c)) !in w.suppression
    ensures forall c :: Targeted(w, lists, segments, c) && Lower(EmailOf(w, c)) !in w.suppression ==>
              (c !in rows <==> forall k :: 0 <= k < |senders| ==> IsBlocked(EmailOf(w, c), senders[k].rules))
    ensures forall c :: c in rows ==>
              && rows[c].email == EmailOf(w, c) && SenderOf(rows[c]) < |senders|
              && !IsBlocked(EmailOf(w, c), senders[SenderOf(rows[c])].rules)
    ensures forall c :: c in rows ==> OwnChannel(senders, rows[c])
  {
    rows := DispatchWithRetry(w, Roster(senders), lists, segments, crashAfter, rotationOffset);
    EveryRosterBlocks(senders);
    forall c: nat { TargetedIff(w, lists, segments, c); }
    forall c | c in rows ensures OwnChannel(senders, rows[c]) { RosterRoutes(w, senders, lists, c, rows[c]); }
  }

  /** The row's channel is its sender's own, or the first sender's where that one has none. */
  predicate OwnChannel(senders: seq<Configured>, r: Recipient) {
    SenderOf(r) < |senders|
    && (senders[SenderOf(r)].channel.Some? ==> r.channel == senders[SenderOf(r)].channel)
    && (senders[SenderOf(r)].channel.None? ==> r.channel == senders[0].channel)
  }

  lemma RosterRoutes(w: Snapshot, senders: seq<Configured>, lists: seq<nat>, c: nat, r: Recipient)
    requires Routed(w, Roster(senders), lists, c, r) && SenderOf(r) < |senders|
    ensures OwnChannel(senders, r)
  {
  }

  lemma EveryRosterBlocks(senders: seq<Configured>)
    ensures forall email :: AllBlock(Roster(senders), email) <==> forall k :: 0 <= k < |senders| ==> IsBlocked(email, senders[k].rules)
  {
    forall email { RosterBlocks(senders, email); }
  }

  lemma RosterBlocks(senders: seq<Configured>, email: string)
    ensures AllBlock(Roster(senders), email) <==> forall k :: 0 <= k < |senders| ==> IsBlocked(email, senders[k].rules)
  {
    var roster := Roster(senders);
    forall k | 0 <= k < |senders| ensures roster[k].blocks(email) == IsBlocked(email, senders[k].rules) {}
  }
}
