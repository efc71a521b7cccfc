/**
 * Contact import in batches: duplicates inside a batch collapse to the last one, existing
 * contacts are overwritten or kept, and four counters describe what happened. Rows arrive
 * normalised; a record without a valid address is none.
 */
module Import {
  import opened Common

  const BATCH_SIZE := 1_000

  /** A valid row: the address and everything else. */
  datatype Row = Row(email: string, data: nat)

  type Contacts = map<string, nat>

  // ---------------------------------------------------------------------------
  // Row by row
  // ---------------------------------------------------------------------------

  /** Upsert each row in turn; the last one wins. */
  function Overwritten(contacts: Contacts, rows: seq<Row>): Contacts {
    if rows == [] then contacts
    else Overwritten(contacts, rows[..|rows| - 1])[rows[|rows| - 1].email := rows[|rows| - 1].data]
  }

  /** Insert each row in turn unless its address is there; the first one wins. */
  function Kept(contacts: Contacts, rows: seq<Row>): Contacts {
    if rows == [] then contacts
    else
      var before := Kept(contacts, rows[..|rows| - 1]);
      var r := rows[|rows| - 1];
      if r.email in before then before else before[r.email := r.data]
  }

  function Emails(rows: seq<Row>): set<string> { set r | r in rows :: r.email }

  lemma {:induction false} OverwrittenKeys(contacts: Contacts, rows: seq<Row>)
    ensures Overwritten(contacts, rows).Keys == contacts.Keys + Emails(rows)
    ensures Kept(contacts, rows).Keys == contacts.Keys + Emails(rows)
  {
    if rows == [] {
      assert Emails(rows) == {};
    } else {
      OverwrittenKeys(contacts, rows[..|rows| - 1]);
      assert rows == rows[..|rows| - 1] + [rows[|rows| - 1]];
      assert Emails(rows) == Emails(rows[..|rows| - 1]) + {rows[|rows| - 1].email};
    }
  }

  /** Row `i` is the last, or the first, of its address. */
  ghost predicate IsLast(rows: seq<Row>, i: nat, e: string) {
    i < |rows| && rows[i].email == e && forall j :: i < j < |rows| ==> rows[j].email != e
  }

  ghost predicate IsFirst(rows: seq<Row>, i: nat, e: string) {
    i < |rows| && rows[i].email == e && forall j :: 0 <= j < i ==> rows[j].email != e
  }

  /** Overwriting leaves with each address what its last row says, and the rest alone. */
  lemma {:induction false} LastRowWins(contacts: Contacts, rows: seq<Row>, e: string)
    ensures forall i: nat :: IsLast(rows, i, e) ==> e in Overwritten(contacts, rows) && Overwritten(contacts, rows)[e] == rows[i].data
    ensures e !in Emails(rows) ==> (e in Overwritten(contacts, rows) <==> e in contacts)
                                   && (e in contacts ==> Overwritten(contacts, rows)[e] == contacts[e])
  {
    if rows != [] {
      var n := |rows| - 1;
      LastRowWins(contacts, rows[..n], e);
      assert rows[n] in rows && forall r :: r in rows[..n] ==> r in rows;
      assert forall i: nat :: IsLast(rows, i, e) && i < n ==> IsLast(rows[..n], i, e);
    }
  }

  /** Keeping leaves with each address what it had, or else what its first row says. */
  lemma {:induction false} FirstRowWins(contacts: Contacts, rows: seq<Row>, e: string)
    ensures e in contacts ==> e in Kept(contacts, rows) && Kept(contacts, rows)[e] == contacts[e]
    ensures e !in contacts ==> forall i: nat :: IsFirst(rows, i, e) ==> e in Kept(contacts, rows) && Kept(contacts, rows)[e] == rows[i].data
    ensures e !in contacts && e !in Emails(rows) ==> e !in Kept(contacts, rows)
  {
    if rows != [] {
      var n := |rows| - 1;
      FirstRowWins(contacts, rows[..n], e);
      assert rows[n] in rows && forall r :: r in rows[..n] ==> r in rows;
      assert forall i: nat :: IsFirst(rows, i, e) && i < n ==> IsFirst(rows[..n], i, e);
      if e !in contacts && IsFirst(rows, n, e) { NotYet(contacts, rows, n, e); }
    }
  }

  lemma NotYet(contacts: Contacts, rows: seq<Row>, n: nat, e: string)
    requires IsFirst(rows, n, e) && e !in contacts
    ensures e !in Kept(contacts, rows[..n])
  {
    OverwrittenKeys(contacts, rows[..n]);
    forall r | r in rows[..n] ensures r.email != e {}
  }

  /** Replaying rows over contacts is laying the collapsed batch over them. */
  lemma {:induction false} OverwriteIsMerge(contacts: Contacts, rows: seq<Row>)
    ensures Overwritten(contacts, rows) == contacts + Overwritten(map[], rows)
  {
    if rows != [] { OverwriteIsMerge(contacts, rows[..|rows| - 1]); }
  }

  /** Keeping what is there is laying the contacts over the firsts. */
  lemma {:induction false} KeepIsMerge(contacts: Contacts, rows: seq<Row>)
    ensures Kept(contacts, rows) == Kept(map[], rows) + contacts
  {
    if rows == [] {
      assert Kept(map[], []) + contacts == contacts;
    } else {
      KeepIsMerge(contacts, rows[..|rows| - 1]);
    }
  }

  lemma {:induction false} OverwrittenConcat(contacts: Contacts, a: seq<Row>, b: seq<Row>)
    ensures Overwritten(contacts, a + b) == Overwritten(Overwritten(contacts, a), b)
    decreases |b|
  {
    if b == [] {
      assert a + b == a;
    } else {
      assert (a + b)[..|a + b| - 1] == a + b[..|b| - 1];
      OverwrittenConcat(contacts, a, b[..|b| - 1]);
    }
  }

  lemma {:induction false} KeptConcat(contacts: Contacts, a: seq<Row>, b: seq<Row>)
    ensures Kept(contacts, a + b) == Kept(Kept(contacts, a), b)
    decreases |b|
  {
    if b == [] {
      assert a + b == a;
    } else {
      assert (a + b)[..|a + b| - 1] == a + b[..|b| - 1];
      KeptConcat(contacts, a, b[..|b| - 1]);
    }
  }

  // ---------------------------------------------------------------------------
  // Batches
  // ---------------------------------------------------------------------------

  datatype Counts = Counts(inserted: nat, updated: nat, skipped: nat)

  /** One batch: what it does to the contacts. */
  function Batched(contacts: Contacts, rows: seq<Row>, overwrite: bool): Contacts {
    var dedup := Overwritten(map[], rows);
    if overwrite then contacts + dedup else dedup + contacts
  }

  method Deduplicate(rows: seq<Row>) returns (dedup: Contacts)
    ensures dedup == Overwritten(map[], rows)
  {
    dedup := map[];
    for i := 0 to |rows|
      invariant dedup == Overwritten(map[], rows[..i])
    {
      assert rows[..i + 1][..i] == rows[..i];
      dedup := dedup[rows[i].email := rows[i].data];
    }
    assert rows[..|rows|] == rows;
  }

  /** Rows already represented in their batch, and existing contacts left alone. */
  function Repeats(rows: seq<Row>): int { |rows| - |Emails(rows)| }

  function Untouched(contacts: Contacts, rows: seq<Row>, overwrite: bool): nat {
    if overwrite then 0 else |Emails(rows) * contacts.Keys|
  }

  lemma {:induction false} EmailsFit(rows: seq<Row>)
    ensures |Emails(rows)| <= |rows|
  {
    if rows != [] {
      EmailsFit(rows[..|rows| - 1]);
      assert rows == rows[..|rows| - 1] + [rows[|rows| - 1]];
      assert Emails(rows) == Emails(rows[..|rows| - 1]) + {rows[|rows| - 1].email};
    }
  }

  /** createMany of the rows whose address is not there. */
  function CreateMissing(contacts: Contacts, dedup: Contacts): Contacts { dedup + contacts }

  /** Overwrite the contacts whose address is in the batch. */
  function UpdateExisting(contacts: Contacts, dedup: Contacts, existing: set<string>): Contacts {
    map e | e in contacts :: if e in existing && e in dedup then dedup[e] else contacts[e]
  }

  lemma CreateThenUpdate(contacts: Contacts, dedup: Contacts)
    ensures UpdateExisting(CreateMissing(contacts, dedup), dedup, dedup.Keys * contacts.Keys) == contacts + dedup
  {
  }

  lemma NewAndExisting(contacts: Contacts, dedup: Contacts)
    ensures |CreateMissing(contacts, dedup).Keys| - |contacts.Keys| == |dedup.Keys - contacts.Keys|
    ensures |dedup.Keys| == |dedup.Keys - contacts.Keys| + |dedup.Keys * contacts.Keys|
  {
  }

  /** Create what is missing and, if asked, overwrite what is there. */
  method WriteBatch(contacts: Contacts, dedup: Contacts, overwrite: bool) returns (contacts': Contacts, n: Counts)
    ensures contacts' == if overwrite then contacts + dedup else dedup + contacts
    ensures n.inserted == |contacts'.Keys| - |contacts.Keys|
    ensures n.inserted + n.updated + n.skipped == |dedup.Keys|
    ensures n.skipped == if overwrite then 0 else |dedup.Keys * contacts.Keys|
  {
    var existing := dedup.Keys * contacts.Keys;
    NewAndExisting(contacts, dedup);
    CreateThenUpdate(contacts, dedup);
    contacts' := CreateMissing(contacts, dedup);
    n := Counts(|dedup.Keys - contacts.Keys|, 0, |existing|);
    if overwrite {
      contacts' := UpdateExisting(contacts', dedup, existing);
      n := n.(updated := |existing|, skipped := 0);
      assert contacts'.Keys == CreateMissing(contacts, dedup).Keys;
    }
  }

  method UpsertBatch(contacts: Contacts, members: set<string>, inList: bool, rows: seq<Row>, overwrite: bool)
    returns (contacts': Contacts, members': set<string>, n: Counts)
    ensures contacts' == Batched(contacts, rows, overwrite)
    ensures members' == if inList then members + Emails(rows) else members
    ensures n.inserted + n.updated + n.skipped == |rows|
    ensures n.skipped == Repeats(rows) + Untouched(contacts, rows, overwrite)
    ensures n.inserted == |contacts'.Keys| - |contacts.Keys|
  {
    var dedup := Deduplicate(rows);
    BatchEmails(rows);
    contacts', n := WriteBatch(contacts, dedup, overwrite);
    n := n.(skipped := n.skipped + (|rows| - |dedup.Keys|));
    members' := if inList then members + dedup.Keys else members;
  }

  lemma BatchEmails(rows: seq<Row>)
    ensures Overwritten(map[], rows).Keys == Emails(rows) && |Emails(rows)| <= |rows|
  {
  }

  // ---------------------------------------------------------------------------
  // A whole file
  // ---------------------------------------------------------------------------

  /** The batches laid over the contacts one after the other. */
  function Imported(contacts: Contacts, batches: seq<seq<Row>>, overwrite: bool): Contacts {
    if batches == [] then contacts
    else Batched(Imported(contacts, batches[..|batches| - 1], overwrite), batches[|batches| - 1], overwrite)
  }

  function AllRepeats(batches: seq<seq<Row>>): int {
    if batches == [] then 0 else AllRepeats(batches[..|batches| - 1]) + Repeats(batches[|batches| - 1])
  }

  function AllUntouched(contacts: Contacts, batches: seq<seq<Row>>, overwrite: bool): nat {
    if batches == [] then 0
    else
      var before := batches[..|batches| - 1];
      AllUntouched(contacts, before, overwrite) + Untouched(Imported(contacts, before, overwrite), batches[|batches| - 1], overwrite)
  }

  function ValidRows(records: seq<Option<Row>>): seq<Row> {
    if records == [] then []
    else
      var before := ValidRows(records[..|records| - 1]);
      if records[|records| - 1].Some? then before + [records[|records| - 1].value] else before
  }

  /** The valid rows, in the order of the records: record `i` comes after the valid ones before it. */
  lemma {:induction false} ValidInOrder(records: seq<Option<Row>>, i: nat)
    requires i < |records| && records[i].Some?
    ensures |ValidRows(records[..i])| < |ValidRows(records)| && ValidRows(records)[|ValidRows(records[..i])|] == records[i].value
    decreases |records|
  {
    var n := |records| - 1;
    if i < n {
      ValidInOrder(records[..n], i);
      assert records[..n][..i] == records[..i];
    }
  }

  /** Nothing else is read. */
  lemma {:induction false} OnlyValid(records: seq<Option<Row>>, r: Row)
    ensures r in ValidRows(records) <==> Some(r) in records
  {
    if records != [] { OnlyValid(records[..|records| - 1], r); }
  }

  lemma AppendBatch(contacts: Contacts, batches: seq<seq<Row>>, b: seq<Row>, overwrite: bool)
    ensures Imported(contacts, batches + [b], overwrite) == Batched(Imported(contacts, batches, overwrite), b, overwrite)
    ensures AllRepeats(batches + [b]) == AllRepeats(batches) + Repeats(b)
    ensures AllUntouched(contacts, batches + [b], overwrite)
            == AllUntouched(contacts, batches, overwrite) + Untouched(Imported(contacts, batches, overwrite), b, overwrite)
    ensures Flatten(batches + [b]) == Flatten(batches) + b
  {
  }

  datatype Progress = Progress(contacts: Contacts, members: set<string>, processed: nat, inserted: nat, updated: nat, skipped: nat)

  /** The counters agree with the batches flushed and the records rejected so far. */
  ghost predicate Accounted(start: Contacts, p: Progress, batches: seq<seq<Row>>, rejected: nat, overwrite: bool) {
    && p.contacts == Imported(start, batches, overwrite)
    && p.processed == |Flatten(batches)|
    && p.inserted + p.updated + p.skipped == |Flatten(batches)| + rejected
    && p.skipped == AllRepeats(batches) + AllUntouched(start, batches, overwrite) + rejected
    && p.inserted == |p.contacts.Keys| - |start.Keys|
  }

  /** The list holds the addresses flushed so far. */
  ghost predicate Listed(members: set<string>, p: Progress, batches: seq<seq<Row>>, inList: bool) {
    p.members == if inList then members + Emails(Flatten(batches)) else members
  }

  lemma EmailsConcat(a: seq<Row>, b: seq<Row>)
    ensures Emails(a + b) == Emails(a) + Emails(b)
  {
  }

  lemma ListedNext(members: set<string>, p: Progress, q: Progress, batches: seq<seq<Row>>, batch: seq<Row>, inList: bool)
    requires Listed(members, p, batches, inList) && q.members == if inList then p.members + Emails(batch) else p.members
    ensures Listed(members, q, batches + [batch], inList)
  {
    FlattenAppend(batches, batch);
    EmailsConcat(Flatten(batches), batch);
  }

  method Flush(ghost start: Contacts, p: Progress, inList: bool, batch: seq<Row>, overwrite: bool,
               ghost batches: seq<seq<Row>>, ghost rejected: nat)
    returns (q: Progress)
    requires Accounted(start, p, batches, rejected, overwrite)
    ensures Accounted(start, q, batches + [batch], rejected, overwrite)
    ensures q.members == if inList then p.members + Emails(batch) else p.members
  {
    AppendBatch(start, batches, batch, overwrite);
    var contacts, members, n := UpsertBatch(p.contacts, p.members, inList, batch, overwrite);
    q := Progress(contacts, members, p.processed + |batch|, p.inserted + n.inserted, p.updated + n.updated, p.skipped + n.skipped);
  }

  /** What the job writes when it is done. */
  datatype Report = Report(totalRows: nat, processedRows: nat, insertedRows: nat, updatedRows: nat, skippedRows: nat)

  /** Cut into full batches of a thousand, except the last. */
  ghost predicate InBatches(batches: seq<seq<Row>>, rows: seq<Row>) {
    && Flatten(batches) == rows
    && (forall k :: 0 <= k < |batches| ==> 0 < |batches[k]| <= 1_000 && (k + 1 < |batches| ==> |batches[k]| == 1_000))
  }

  ghost predicate AllFull(batches: seq<seq<Row>>) { forall k :: 0 <= k < |batches| ==> |batches[k]| == BATCH_SIZE }

  /** After `seen` records: full batches flushed, fewer than a batch waiting, the rest rejected. */
  ghost predicate Reading(start: Contacts, p: Progress, batches: seq<seq<Row>>, batch: seq<Row>,
                          records: seq<Option<Row>>, seen: nat, rejected: nat, overwrite: bool) {
    && seen <= |records|
    && Accounted(start, p, batches, rejected, overwrite)
    && AllFull(batches)
    && Flatten(batches) + batch == ValidRows(records[..seen])
    && |ValidRows(records[..seen])| + rejected == seen
  }

  lemma StartReading(start: Contacts, members: set<string>, records: seq<Option<Row>>, overwrite: bool)
    ensures Reading(start, Progress(start, members, 0, 0, 0, 0), [], [], records, 0, 0, overwrite)
  {
  }

  lemma ReadNext(records: seq<Option<Row>>, seen: nat)
    requires seen < |records|
    ensures ValidRows(records[..seen + 1])
            == if records[seen].Some? then ValidRows(records[..seen]) + [records[seen].value] else ValidRows(records[..seen])
  {
    assert records[..seen + 1][..seen] == records[..seen];
  }

  lemma FlushKeepsReading(start: Contacts, p: Progress, q: Progress, batches: seq<seq<Row>>, batch: seq<Row>,
                          records: seq<Option<Row>>, seen: nat, rejected: nat, overwrite: bool)
    requires Reading(start, p, batches, batch, records, seen, rejected, overwrite)
    requires Accounted(start, q, batches + [batch], rejected, overwrite)
    ensures Flatten(batches + [batch]) + [] == ValidRows(records[..seen])
    ensures |batch| == BATCH_SIZE ==> Reading(start, q, batches + [batch], [], records, seen, rejected, overwrite)
  {
    FlattenAppend(batches, batch);
  }

  lemma Rejects(start: Contacts, p: Progress, batches: seq<seq<Row>>, batch: seq<Row>,
                records: seq<Option<Row>>, seen: nat, rejected: nat, overwrite: bool)
    requires Reading(start, p, batches, batch, records, seen, rejected, overwrite) && seen < |records| && records[seen].None?
    ensures Reading(start, p.(skipped := p.skipped + 1), batches, batch, records, seen + 1, rejected + 1, overwrite)
  {
    ReadNext(records, seen);
  }

  lemma Accepts(start: Contacts, p: Progress, batches: seq<seq<Row>>, batch: seq<Row>,
                records: seq<Option<Row>>, seen: nat, rejected: nat, overwrite: bool)
    requires Reading(start, p, batches, batch, records, seen, rejected, overwrite) && seen < |records| && records[seen].Some?
    ensures Reading(start, p, batches, batch + [records[seen].value], records, seen + 1, rejected, overwrite)
  {
    ReadNext(records, seen);
    assert Flatten(batches) + (batch + [records[seen].value]) == Flatten(batches) + batch + [records[seen].value];
  }

  /** A full batch goes to the database. */
  method FlushFull(ghost start: Contacts, ghost members: set<string>, p: Progress, ghost batches: seq<seq<Row>>,
                   batch: seq<Row>, ghost records: seq<Option<Row>>, ghost seen: nat, ghost rejected: nat, inList: bool, overwrite: bool)
    returns (q: Progress)
    requires Listed(members, p, batches, inList)
    requires Reading(start, p, batches, batch, records, seen, rejected, overwrite) && |batch| == BATCH_SIZE
    ensures Listed(members, q, batches + [batch], inList)
    ensures Reading(start, q, batches + [batch], [], records, seen, rejected, overwrite)
  {
    q := Flush(start, p, inList, batch, overwrite, batches, rejected);
    ListedNext(members, p, q, batches, batch, inList);
    FlushKeepsReading(start, p, q, batches, batch, records, seen, rejected, overwrite);
  }

  /** A valid row joins the batch. */
  method Collect(ghost start: Contacts, ghost members: set<string>, p: Progress, ghost batches: seq<seq<Row>>,
                 batch: seq<Row>, row: Row, ghost records: seq<Option<Row>>, ghost seen: nat, ghost rejected: nat, inList: bool, overwrite: bool)
    returns (q: Progress, ghost batches': seq<seq<Row>>, batch': seq<Row>)
    requires Listed(members, p, batches, inList)
    requires Reading(start, p, batches, batch + [row], records, seen, rejected, overwrite) && |batch| < BATCH_SIZE
    ensures Listed(members, q, batches', inList)
    ensures Reading(start, q, batches', batch', records, seen, rejected, overwrite) && |batch'| < BATCH_SIZE
  {
    q, batches', batch' := p, batches, batch + [row];
    if |batch'| >= BATCH_SIZE {
      q := FlushFull(start, members, p, batches, batch', records, seen, rejected, inList, overwrite);
      batches', batch' := batches + [batch'], [];
    }
  }

  /** One record: rejected, or put in the batch, which is flushed when full. */
  method Take(ghost start: Contacts, ghost members: set<string>, p: Progress, ghost batches: seq<seq<Row>>,
              batch: seq<Row>, records: seq<Option<Row>>, seen: nat, ghost rejected: nat, inList: bool, overwrite: bool)
    returns (q: Progress, ghost batches': seq<seq<Row>>, batch': seq<Row>, ghost rejected': nat)
    requires Listed(members, p, batches, inList)
    requires Reading(start, p, batches, batch, records, seen, rejected, overwrite) && |batch| < BATCH_SIZE && seen < |records|
    ensures Listed(members, q, batches', inList)
    ensures Reading(start, q, batches', batch', records, seen + 1, rejected', overwrite) && |batch'| < BATCH_SIZE
  {
    if records[seen].None? {
      Rejects(start, p, batches, batch, records, seen, rejected, overwrite);
      q, batches', batch', rejected' := p.(skipped := p.skipped + 1), batches, batch, rejected + 1;
    } else {
      Accepts(start, p, batches, batch, records, seen, rejected, overwrite);
      rejected' := rejected;
      q, batches', batch' := Collect(start, members, p, batches, batch, records[seen].value, records, seen + 1, rejected, inList, overwrite);
    }
  }

  /** What the counters say at the end. */
  lemma ReportAddsUp(start: Contacts, p: Progress, batches: seq<seq<Row>>, records: seq<Option<Row>>, rejected: nat, overwrite: bool)
    requires Accounted(start, p, batches, rejected, overwrite)
    requires Flatten(batches) == ValidRows(records) && |ValidRows(records)| + rejected == |records|
    ensures p.inserted + p.updated + p.skipped == |records|
    ensures p.processed + p.skipped == |records| + AllRepeats(batches) + AllUntouched(start, batches, overwrite)
  {
  }

  lemma LastBatch(batches: seq<seq<Row>>, batch: seq<Row>)
    requires AllFull(batches) && 0 < |batch| <= BATCH_SIZE
    ensures InBatches(batches + [batch], Flatten(batches + [batch]))
  {
  }

  /**
   * Read the records, flush full batches, flush the rest. The report adds up: every record
   * seen is inserted, updated or skipped, and totalRows exceeds the records seen by exactly
   * the repeats inside batches and the existing contacts left alone.
   */
  method RunJobBody(contacts: Contacts, members: set<string>, inList: bool, records: seq<Option<Row>>, overwrite: bool)
    returns (p: Progress, report: Report, ghost batches: seq<seq<Row>>)
    ensures InBatches(batches, ValidRows(records)) && p.contacts == Imported(contacts, batches, overwrite)
    ensures report.insertedRows + report.updatedRows + report.skippedRows == |records|
    ensures report.processedRows == |ValidRows(records)|
    ensures report.totalRows == |records| + AllRepeats(batches) + AllUntouched(contacts, batches, overwrite)
    ensures report.insertedRows == |p.contacts.Keys| - |contacts.Keys|
    ensures p.members == if inList then members + Emails(ValidRows(records)) else members
    ensures overwrite ==> p.contacts == Overwritten(contacts, ValidRows(records))
    ensures !overwrite ==> (p.contacts == Kept(contacts, ValidRows(records)) <==> FirstsAgree(contacts, batches))
  {
    p := Progress(contacts, members, 0, 0, 0, 0);
    batches := [];
    var batch: seq<Row> := [];
    ghost var rejected := 0;
    StartReading(contacts, members, records, overwrite);
    assert Emails(Flatten(batches)) == {};
    for seen := 0 to |records|
      invariant Listed(members, p, batches, inList)
      invariant Reading(contacts, p, batches, batch, records, seen, rejected, overwrite) && |batch| < BATCH_SIZE
    {
      p, batches, batch, rejected := Take(contacts, members, p, batches, batch, records, seen, rejected, inList, overwrite);
    }
    p, batches := FlushRest(contacts, members, p, batches, batch, records, rejected, inList, overwrite);
    ReportAddsUp(contacts, p, batches, records, rejected, overwrite);
    OverwriteIgnoresBatches(contacts, batches);
    KeepMatchesIff(contacts, batches);
    report := Report(p.processed + p.skipped, p.processed, p.inserted, p.updated, p.skipped);
  }

  method FlushRest(ghost start: Contacts, ghost members: set<string>, p: Progress, ghost batches: seq<seq<Row>>, batch: seq<Row>,
                   ghost records: seq<Option<Row>>, ghost rejected: nat, inList: bool, overwrite: bool)
    returns (q: Progress, ghost batches': seq<seq<Row>>)
    requires Listed(members, p, batches, inList)
    requires Reading(start, p, batches, batch, records, |records|, rejected, overwrite) && |batch| < BATCH_SIZE
    ensures Listed(members, q, batches', inList)
    ensures Accounted(start, q, batches', rejected, overwrite) && InBatches(batches', ValidRows(records))
    ensures |ValidRows(records)| + rejected == |records|
  {
    assert records[..|records|] == records;
    q, batches' := p, batches;
    if |batch| > 0 {
      q := Flush(start, p, inList, batch, overwrite, batches, rejected);
      ListedNext(members, p, q, batches, batch, inList);
      FlushKeepsReading(start, p, q, batches, batch, records, |records|, rejected, overwrite);
      LastBatch(batches, batch);
      batches' := batches + [batch];
    }
  }

  // ---------------------------------------------------------------------------
  // Batched against row by row
  // ---------------------------------------------------------------------------

  /** Overwriting does not depend on where the batches are cut: it is the last-wins upsert. */
  lemma {:induction false} OverwriteIgnoresBatches(contacts: Contacts, batches: seq<seq<Row>>)
    ensures Imported(contacts, batches, true) == Overwritten(contacts, Flatten(batches))
  {
    if batches != [] {
      var init, b := batches[..|batches| - 1], batches[|batches| - 1];
      OverwriteIgnoresBatches(contacts, init);
      OverwriteIsMerge(Imported(contacts, init, true), b);
      OverwrittenConcat(contacts, Flatten(init), b);
    }
  }

  /** In the first batch that brings a new address, its last row says what its first row says. */
  ghost predicate FirstsAgree(contacts: Contacts, batches: seq<seq<Row>>) {
    batches == [] ||
    var init, b := batches[..|batches| - 1], batches[|batches| - 1];
    && FirstsAgree(contacts, init)
    && forall e :: e in Emails(b) && e !in Imported(contacts, init, false) ==> SameEnds(b, e)
  }

  ghost predicate SameEnds(rows: seq<Row>, e: string) {
    e in Overwritten(map[], rows) && e in Kept(map[], rows) && Overwritten(map[], rows)[e] == Kept(map[], rows)[e]
  }

  lemma {:induction false} ImportedKeys(contacts: Contacts, batches: seq<seq<Row>>)
    ensures Imported(contacts, batches, false).Keys == Kept(contacts, Flatten(batches)).Keys
  {
    if batches != [] {
      var init, b := batches[..|batches| - 1], batches[|batches| - 1];
      ImportedKeys(contacts, init);
      KeptConcat(contacts, Flatten(init), b);
      KeepIsMerge(Kept(contacts, Flatten(init)), b);
      OverwrittenKeys(map[], b);
    }
  }

  /** Addresses already there keep their data through later batches, both ways. */
  lemma OneBatchKept(a: Contacts, k: Contacts, b: seq<Row>)
    requires a.Keys == k.Keys
    ensures Batched(a, b, false) == Kept(k, b) <==> a == k && forall e :: e in Emails(b) && e !in a ==> SameEnds(b, e)
  {
    KeepIsMerge(k, b);
    OverwrittenKeys(map[], b);
    var x, y := Batched(a, b, false), Kept(k, b);
    assert x.Keys == y.Keys;
    if x == y {
      forall e | e in a ensures a[e] == k[e] { assert x[e] == a[e] && y[e] == k[e]; }
      forall e | e in Emails(b) && e !in a ensures SameEnds(b, e) { assert x[e] == y[e]; }
    } else if a == k && forall e :: e in Emails(b) && e !in a ==> SameEnds(b, e) {
      forall e | e in x ensures x[e] == y[e] {
        if e !in a { assert SameEnds(b, e); }
      }
    }
  }

  /**
   * Main result for the keep mode: the batched import equals the row-by-row one exactly when
   * no batch that introduces an address disagrees with itself about it.
   */
  lemma {:induction false} KeepMatchesIff(contacts: Contacts, batches: seq<seq<Row>>)
    ensures Imported(contacts, batches, false) == Kept(contacts, Flatten(batches)) <==> FirstsAgree(contacts, batches)
  {
    if batches != [] {
      var init, b := batches[..|batches| - 1], batches[|batches| - 1];
      KeepMatchesIff(contacts, init);
      ImportedKeys(contacts, init);
      KeptConcat(contacts, Flatten(init), b);
      OneBatchKept(Imported(contacts, init, false), Kept(contacts, Flatten(init)), b);
    }
  }

  // ---------------------------------------------------------------------------
  // The per-tenant semaphore
  // ---------------------------------------------------------------------------

  /** The counter of a tenant, 0 while the key is missing, and the jobs that really run under a permit. */
  datatype Gate = Gate(limit: nat, counter: int, running: nat)

  /** A job asks for a permit, ends, dies without giving it back; the key times out. */
  datatype Use = Acquire | Finish | Die | Expire

  predicate Possible(g: Gate, u: Use) { u.Finish? || u.Die? ==> g.running > 0 }

  predicate Admits(g: Gate) { g.counter < g.limit }

  function After(g: Gate, u: Use): Gate
    requires Possible(g, u)
  {
    match u
    case Acquire => if Admits(g) then g.(counter := g.counter + 1, running := g.running + 1) else g
    case Finish => g.(counter := g.counter - 1, running := g.running - 1)
    case Die => g.(running := g.running - 1)
    case Expire => g.(counter := 0)
  }

  /** A counter in Redis with an expiry. */
  class Semaphore {
    const max: nat
    var counter: Option<int>
    ghost var running: nat

    constructor (limit: nat)
      ensures View() == Gate(limit, 0, 0)
    {
      max := limit;
      counter := None;
      running := 0;
    }

    function Value(): int
      reads this
    {
      if counter.Some? then counter.value else 0
    }

    ghost function View(): Gate
      reads this
    {
      Gate(max, Value(), running)
    }

    /** INCR, and DECR again above the limit; 0 says no. */
    method TryAcquire() returns (c: int)
      requires Value() <= max
      modifies this
      ensures View() == After(old(View()), Acquire) && Value() <= max
      ensures c == if Admits(old(View())) then Value() else 0
    {
      c := Value() + 1;
      counter := Some(c);
      if c > max {
        counter := Some(c - 1);
        return 0;
      }
      running := running + 1;
    }

    method Release()
      requires running > 0 && Value() <= max
      modifies this
      ensures View() == After(old(View()), Finish) && Value() <= max
    {
      counter := Some(Value() - 1);
      running := running - 1;
    }

    /** The key times out: everything still running is forgotten. */
    method TimeOut()
      modifies this
      ensures View() == After(old(View()), Expire) && Value() <= max
    {
      counter := None;
    }
  }

  predicate Uses(g: Gate, us: seq<Use>)
    decreases |us|
  {
    us == [] || (Possible(g, us[0]) && Uses(After(g, us[0]), us[1..]))
  }

  function AfterAll(g: Gate, us: seq<Use>): Gate
    requires Uses(g, us)
    decreases |us|
  {
    if us == [] then g else AfterAll(After(g, us[0]), us[1..])
  }

  /** Jobs that run without the counter knowing, less permits whose jobs are dead. */
  function Excess(g: Gate): int { g.running - g.counter }

  /** Permits asked for and given back leave the excess; a death lowers it; only a time-out sets it, to all that runs. */
  lemma ExcessMoves(g: Gate, u: Use)
    requires Possible(g, u)
    ensures Excess(After(g, u)) == match u case Die => Excess(g) - 1 case Expire => g.running case _ => Excess(g)
  {
  }

  /** Whatever happens before the next time-out, the tenant's limit holds. */
  ghost predicate LimitHolds(g: Gate) {
    forall us :: Uses(g, us) && Expire !in us ==> AfterAll(g, us).running <= g.limit
  }

  lemma {:induction false} NoMoreThanExcess(g: Gate, us: seq<Use>)
    requires g.counter <= g.limit && Uses(g, us) && Expire !in us
    ensures AfterAll(g, us).running <= g.limit + Excess(g)
    decreases |us|
  {
    if us != [] {
      assert us[0] in us && forall u :: u in us[1..] ==> u in us;
      ExcessMoves(g, us[0]);
      NoMoreThanExcess(After(g, us[0]), us[1..]);
    }
  }

  /** As many more jobs as the counter has room for. */
  lemma {:induction false} FillUp(g: Gate) returns (us: seq<Use>)
    requires g.counter <= g.limit
    ensures Uses(g, us) && Expire !in us && AfterAll(g, us).running == g.limit + Excess(g)
    decreases g.limit - g.counter
  {
    if g.counter == g.limit {
      us := [];
    } else {
      var rest := FillUp(After(g, Acquire));
      us := [Acquire] + rest;
      assert us[1..] == rest;
    }
  }

  /**
   * Main result: until the next time-out at most the limit runs, whatever the tenant's jobs
   * do, if and only if no job runs that the counter has forgotten, permits of dead jobs set
   * against them.
   */
  lemma LimitHoldsIff(g: Gate)
    requires g.counter <= g.limit
    ensures LimitHolds(g) <==> Excess(g) <= 0
  {
    if Excess(g) <= 0 {
      forall us | Uses(g, us) && Expire !in us ensures AfterAll(g, us).running <= g.limit {
        NoMoreThanExcess(g, us);
      }
    } else {
      var us := FillUp(g);
      assert AfterAll(g, us).running > g.limit;
    }
  }

  lemma UseFirst(g: Gate, u: Use, rest: seq<Use>, end: Gate)
    requires Possible(g, u) && Uses(After(g, u), rest) && AfterAll(After(g, u), rest) == end
    ensures Uses(g, [u] + rest) && AfterAll(g, [u] + rest) == end
  {
    assert ([u] + rest)[1..] == rest;
  }

  /** The forgotten jobs need not run any more: with limit 2, two time out and end, and then four run. */
  lemma ExcessOutlivesTheForgotten() returns (us: seq<Use>, more: seq<Use>)
    ensures us == [Acquire] + ([Acquire] + ([Expire] + ([Finish] + ([Finish] + []))))
    ensures Uses(Gate(2, 0, 0), us) && AfterAll(Gate(2, 0, 0), us) == Gate(2, -2, 0)
    ensures Uses(Gate(2, -2, 0), more) && Expire !in more && AfterAll(Gate(2, -2, 0), more).running == 4
  {
    var end := Gate(2, -2, 0);
    us := [];
    UseFirst(Gate(2, -1, 1), Finish, us, end);
    us := [Finish] + us;
    UseFirst(Gate(2, 0, 2), Finish, us, end);
    us := [Finish] + us;
    UseFirst(Gate(2, 2, 2), Expire, us, end);
    us := [Expire] + us;
    UseFirst(Gate(2, 1, 1), Acquire, us, end);
    us := [Acquire] + us;
    UseFirst(Gate(2, 0, 0), Acquire, us, end);
    us := [Acquire] + us;
    more := FillUp(end);
  }
}
