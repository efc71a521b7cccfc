/**
 * Running a compiled segment: derived id sets, the include list or exclude set, and the
 * three ways to read the result without holding it in memory — counting, streaming in id
 * order, and one page of it. All agree with the set of contacts that satisfy every rule.
 */
module SegmentPlan {
  import opened Common
  import opened SegmentRules

  const IN_LIMIT := 25_000
  const RECIPIENT_CHUNK := 20_000

  datatype Plan = Plan(tenant: nat, clauses: seq<Where>, included: Option<seq<nat>>, excluded: set<nat>)

  // ---------------------------------------------------------------------------
  // Chunks
  // ---------------------------------------------------------------------------

  method Chunks<T>(arr: seq<T>, size: nat) returns (out: seq<seq<T>>)
    requires size > 0
    ensures Flatten(out) == arr
    ensures forall k :: 0 <= k < |out| ==> 0 < |out[k]| <= size
  {
    out := [];
    var i := 0;
    while i < |arr|
      invariant 0 <= i
      invariant Flatten(out) == arr[..Min(i, |arr|)]
      invariant forall k :: 0 <= k < |out| ==> 0 < |out[k]| <= size
    {
      var chunk := arr[i..Min(i + size, |arr|)];
      FlattenAppend(out, chunk);
      assert arr[..i] + chunk == arr[..Min(i + size, |arr|)];
      out := out + [chunk];
      i := i + size;
    }
  }

  function ToSet<T>(s: seq<T>): set<T> { set x | x in s }

  lemma ToSetConcat<T>(a: seq<T>, b: seq<T>)
    ensures ToSet(a + b) == ToSet(a) + ToSet(b)
  {
  }

  lemma AscendingPrefix(s: seq<nat>, a: seq<nat>, b: seq<nat>)
    requires Ascending(s) && a + b <= s
    ensures Ascending(a) && Ascending(b) && ToSet(a) !! ToSet(b)
    ensures forall x, y :: x in a && y in b ==> x < y
  {
    assert forall i :: 0 <= i < |a| ==> a[i] == s[i];
    assert forall i :: 0 <= i < |b| ==> b[i] == s[|a| + i];
  }

  lemma AscendingConcat(a: seq<nat>, b: seq<nat>)
    requires Ascending(a) && Ascending(b) && forall x, y :: x in a && y in b ==> x < y
    ensures Ascending(a + b)
  {
    forall i, j | 0 <= i < j < |a + b| ensures (a + b)[i] < (a + b)[j] {
      if i < |a| <= j { assert a[i] in a && b[j - |a|] in b; }
    }
  }

  /** Sorting two sets of which one lies below the other. */
  lemma SortedSplit(a: set<nat>, b: set<nat>)
    requires forall x, y :: x in a && y in b ==> x < y
    ensures Sorted(a + b) == Sorted(a) + Sorted(b)
  {
    SortedAscends(a);
    SortedAscends(b);
    SortedAscends(a + b);
    AscendingConcat(Sorted(a), Sorted(b));
    AscendingIsDetermined(Sorted(a) + Sorted(b), Sorted(a + b));
  }

  // ---------------------------------------------------------------------------
  // Derived id sets
  // ---------------------------------------------------------------------------

  function DirectContacts(db: Store, tenant: nat, kind: MailKind, campaign: Option<nat>, since: int): set<nat> {
    set k | 0 <= k < |db.mail| && MailMatches(db.mail[k], tenant, kind, campaign, since) && db.mail[k].contact.Some?
      :: db.mail[k].contact.value
  }

  function Recipients(db: Store, tenant: nat, kind: MailKind, campaign: Option<nat>, since: int): set<nat> {
    set k | 0 <= k < |db.mail| && MailMatches(db.mail[k], tenant, kind, campaign, since) && db.mail[k].recipient.Some?
      :: db.mail[k].recipient.value
  }

  lemma DidMailMeans(db: Store, tenant: nat, kind: MailKind, campaign: Option<nat>, since: int, c: nat)
    ensures DidMail(db, tenant, c, kind, campaign, since) <==>
            c in DirectContacts(db, tenant, kind, campaign, since)
            || exists r :: r in Recipients(db, tenant, kind, campaign, since) && Resolves(db, tenant, r, c)
  {
  }

  /** Contacts of an event rule: named directly, or through the recipient in either store. */
  method ContactIdsFromEvent(db: Store, tenant: nat, kind: MailKind, campaign: Option<nat>, since: int) returns (ids: set<nat>)
    ensures forall c :: c in ids <==> DidMail(db, tenant, c, kind, campaign, since)
  {
    forall c ensures DidMail(db, tenant, c, kind, campaign, since) <==>
                     c in DirectContacts(db, tenant, kind, campaign, since)
                     || exists r :: r in Recipients(db, tenant, kind, campaign, since) && Resolves(db, tenant, r, c)
    {
      DidMailMeans(db, tenant, kind, campaign, since, c);
    }
    ids := DirectContacts(db, tenant, kind, campaign, since);
    var recipients := Recipients(db, tenant, kind, campaign, since);
    if recipients == {} { return; }
    var hot := MapHotRecipients(db, tenant, Sorted(recipients));
    var archived := MapArchivedRecipients(db, tenant, recipients);
    ids := ids + hot + archived;
  }

  method MapArchivedRecipients(db: Store, tenant: nat, recipients: set<nat>) returns (mapped: set<nat>)
    ensures forall c :: c in mapped <==> exists r :: r in recipients && r in db.cold && db.cold[r] == Link(tenant, c)
  {
    mapped := set r | r in recipients && r in db.cold && db.cold[r].tenant == tenant :: db.cold[r].contact;
  }

  /** Looked up in bounded chunks. */
  method MapHotRecipients(db: Store, tenant: nat, recipients: seq<nat>) returns (mapped: set<nat>)
    ensures forall c :: c in mapped <==> exists r :: r in recipients && r in db.hot && db.hot[r] == Link(tenant, c)
  {
    mapped := {};
    var chunks := Chunks(recipients, RECIPIENT_CHUNK);
    for i := 0 to |chunks|
      invariant forall c :: c in mapped <==> exists r :: r in Flatten(chunks[..i]) && r in db.hot && db.hot[r] == Link(tenant, c)
    {
      FlattenAppend(chunks[..i], chunks[i]);
      assert chunks[..i + 1] == chunks[..i] + [chunks[i]];
      mapped := mapped + set r | r in chunks[i] && r in db.hot && db.hot[r].tenant == tenant :: db.hot[r].contact;
    }
    assert chunks[..|chunks|] == chunks;
  }

  method ContactIdsFromOrder(db: Store, tenant: nat, from: int, to: int) returns (ids: set<nat>)
    ensures forall c :: c in ids <==> BoughtWithin(db, tenant, c, from, to)
  {
    ids := set k | 0 <= k < |db.orders| && db.orders[k].tenant == tenant && db.orders[k].counted
                   && db.orders[k].contact.Some? && from <= db.orders[k].time <= to
      :: db.orders[k].contact.value;
  }

  lemma {:induction false} VisitorSeen(site: seq<SiteEvent>, tenant: nat, c: nat, kind: nat, campaign: Option<nat>, since: int)
    requires Visits(site, tenant, c, kind, campaign, since) > 0
    ensures exists k :: 0 <= k < |site| && VisitMatches(site[k], tenant, c, kind, campaign, since)
  {
    var n := |site| - 1;
    if !VisitMatches(site[n], tenant, c, kind, campaign, since) {
      VisitorSeen(site[..n], tenant, c, kind, campaign, since);
      var k :| 0 <= k < n && VisitMatches(site[..n][k], tenant, c, kind, campaign, since);
      assert site[k] == site[..n][k];
    }
  }

  method ContactIdsFromSiteEvent(db: Store, tenant: nat, kind: nat, campaign: Option<nat>, since: int, minCount: nat)
    returns (ids: set<nat>)
    ensures forall c :: c in ids <==> Visits(db.site, tenant, c, kind, campaign, since) >= Threshold(minCount)
  {
    var groups := set k | 0 <= k < |db.site| && VisitMatches(db.site[k], tenant, db.site[k].contact, kind, campaign, since)
      :: db.site[k].contact;
    ids := set c | c in groups && Visits(db.site, tenant, c, kind, campaign, since) >= minCount;
    forall c ensures c in ids <==> Visits(db.site, tenant, c, kind, campaign, since) >= Threshold(minCount) {
      if Visits(db.site, tenant, c, kind, campaign, since) > 0 { VisitorSeen(db.site, tenant, c, kind, campaign, since); }
      if c in groups { VisitorCounts(db.site, tenant, c, kind, campaign, since); }
    }
  }

  lemma {:induction false} VisitorCounts(site: seq<SiteEvent>, tenant: nat, c: nat, kind: nat, campaign: Option<nat>, since: int)
    requires exists k :: 0 <= k < |site| && VisitMatches(site[k], tenant, c, kind, campaign, since)
    ensures Visits(site, tenant, c, kind, campaign, since) > 0
  {
    var n := |site| - 1;
    if !VisitMatches(site[n], tenant, c, kind, campaign, since) {
      var k :| 0 <= k < |site| && VisitMatches(site[k], tenant, c, kind, campaign, since);
      assert site[..n][k] == site[k];
      VisitorCounts(site[..n], tenant, c, kind, campaign, since);
    }
  }

  method IdsOf(db: Store, tenant: nat, k: Constraint) returns (ids: set<nat>)
    ensures forall c :: c in ids <==> Did(db, tenant, k, c)
  {
    match k {
      case MailConstraint(_, kind, campaign, since) => ids := ContactIdsFromEvent(db, tenant, kind, campaign, since);
      case OrderConstraint(_, from, to) => ids := ContactIdsFromOrder(db, tenant, from, to);
      case SiteConstraint(_, kind, since, minCount, campaign) =>
        ids := ContactIdsFromSiteEvent(db, tenant, kind, campaign, since, minCount);
    }
  }

  // ---------------------------------------------------------------------------
  // Planning
  // ---------------------------------------------------------------------------

  predicate InAll(sets: seq<set<nat>>, c: nat) { forall s :: s in sets ==> c in s }

  /** Contacts passing the plan's SQL and the caller's extra clauses. */
  function Base(db: Store, plan: Plan, extra: seq<Where>): set<nat> {
    set c | c in db.contacts && db.contacts[c].tenant == plan.tenant
            && Passes(plan.clauses, db.contacts[c]) && Passes(extra, db.contacts[c])
  }

  /** What the plan stands for. */
  function Chosen(db: Store, plan: Plan, extra: seq<Where>): set<nat> {
    set c | c in Base(db, plan, extra)
            && (if plan.included.Some? then c in plan.included.value else c !in plan.excluded)
  }

  predicate WellFormed(plan: Plan) {
    plan.included.Some? ==> Ascending(plan.included.value)
  }

  predicate BySize(sets: seq<set<nat>>) { forall i, j :: 0 <= i < j < |sets| ==> |sets[i]| <= |sets[j]| }

  /** Put a set where its size belongs. */
  method PlaceBySize(sets: seq<set<nat>>, s: set<nat>) returns (r: seq<set<nat>>)
    requires BySize(sets)
    ensures BySize(r) && |r| == |sets| + 1 && forall x :: x in r <==> x in sets || x == s
  {
    var at := 0;
    while at < |sets| && |sets[at]| <= |s|
      invariant 0 <= at <= |sets| && forall i :: 0 <= i < at ==> |sets[i]| <= |s|
    {
      at := at + 1;
    }
    r := sets[..at] + [s] + sets[at..];
    assert sets == sets[..at] + sets[at..];
  }

  /** Sort a list of sets by size. */
  method SortBySize(sets: seq<set<nat>>) returns (r: seq<set<nat>>)
    ensures BySize(r) && |r| == |sets| && forall x :: x in r <==> x in sets
  {
    r := [];
    for k := 0 to |sets|
      invariant BySize(r) && |r| == k && forall x :: x in r <==> x in sets[..k]
    {
      r := PlaceBySize(r, sets[k]);
      assert sets[..k + 1] == sets[..k] + [sets[k]];
    }
    assert sets[..|sets|] == sets;
  }

  /** Route each constraint's ids to the intersection or to the exclusion. */
  method Collect(db: Store, tenant: nat, ks: seq<Constraint>, hasSets: seq<set<nat>>, excluded: set<nat>)
    returns (hasSets': seq<set<nat>>, excluded': set<nat>)
    ensures forall c :: InAll(hasSets', c) && c !in excluded' <==>
              InAll(hasSets, c) && c !in excluded && Meets(db, tenant, ks, c)
  {
    hasSets', excluded' := hasSets, excluded;
    for i := 0 to |ks|
      invariant forall c :: InAll(hasSets', c) && c !in excluded' <==>
                  InAll(hasSets, c) && c !in excluded && Meets(db, tenant, ks[..i], c)
    {
      var ids := IdsOf(db, tenant, ks[i]);
      MeetsOneMore(ks[..i], ks[i]);
      assert ks[..i + 1] == ks[..i] + [ks[i]];
      if ks[i].has {
        InAllOneMore(hasSets', ids);
        hasSets' := hasSets' + [ids];
      } else {
        excluded' := excluded' + ids;
      }
    }
    assert ks[..|ks|] == ks;
  }

  lemma InAllOneMore(sets: seq<set<nat>>, s: set<nat>)
    ensures forall c :: InAll(sets + [s], c) <==> InAll(sets, c) && c in s
  {
  }

  /** Walk the smallest set, keeping what is in every other one and not excluded. */
  method Intersect(sets: seq<set<nat>>, excluded: set<nat>) returns (ids: seq<nat>)
    requires sets != []
    ensures Ascending(ids)
    ensures forall c :: c in ids <==> InAll(sets, c) && c !in excluded
  {
    var ordered := SortBySize(sets);
    var kept: set<nat> := {};
    var todo := ordered[0];
    while todo != {}
      invariant todo <= ordered[0]
      invariant forall c :: c in kept <==> c in ordered[0] - todo && InAll(ordered, c) && c !in excluded
      decreases |todo|
    {
      var id :| id in todo;
      if id !in excluded {
        var everywhere := InEveryOther(ordered, id);
        if everywhere { kept := kept + {id}; }
      }
      todo := todo - {id};
    }
    forall c ensures c in kept <==> InAll(sets, c) && c !in excluded {
      assert InAll(sets, c) <==> InAll(ordered, c);
      if InAll(ordered, c) { assert ordered[0] in ordered; }
    }
    ids := Sorted(kept);
    SortedAscends(kept);
  }

  method InEveryOther(sets: seq<set<nat>>, id: nat) returns (yes: bool)
    requires sets != [] && id in sets[0]
    ensures yes <==> InAll(sets, id)
  {
    for i := 1 to |sets|
      invariant forall k :: 0 <= k < i ==> id in sets[k]
    {
      if id !in sets[i] {
        assert sets[i] in sets;
        return false;
      }
    }
    yes := true;
  }

  method PlanSegment(db: Store, tenant: nat, rules: seq<Rule>, now: int) returns (plan: Plan)
    ensures WellFormed(plan) && Chosen(db, plan, []) == Segment(db, tenant, now, rules)
  {
    var compiled := CompileSegment(rules, now);
    var hasSets, excluded := Collect(db, tenant, compiled.mail, [], {});
    hasSets, excluded := Collect(db, tenant, compiled.orders, hasSets, excluded);
    hasSets, excluded := Collect(db, tenant, compiled.site, hasSets, excluded);
    if hasSets == [] {
      plan := Plan(tenant, compiled.clauses, None, excluded);
    } else {
      var included := Intersect(hasSets, excluded);
      plan := Plan(tenant, compiled.clauses, Some(included), {});
    }
    ChosenIsSegment(db, tenant, rules, now, compiled, plan, hasSets, excluded);
  }

  lemma ChosenIsSegment(db: Store, tenant: nat, rules: seq<Rule>, now: int, p: Compiled, plan: Plan,
                        hasSets: seq<set<nat>>, excluded: set<nat>)
    requires forall db: Store, c :: c in db.contacts ==>
               (Accepts(db, db.contacts[c].tenant, p, c) <==> SatisfiesAll(db, now, rules, c))
    requires forall c :: InAll(hasSets, c) && c !in excluded <==>
               Meets(db, tenant, p.mail, c) && Meets(db, tenant, p.orders, c) && Meets(db, tenant, p.site, c)
    requires plan.tenant == tenant && plan.clauses == p.clauses
    requires if hasSets == [] then plan.included.None? && plan.excluded == excluded
             else plan.included.Some? && forall c :: c in plan.included.value <==> InAll(hasSets, c) && c !in excluded
    ensures Chosen(db, plan, []) == Segment(db, tenant, now, rules)
  {
  }

  /** Extra clauses narrow the plan to the segment's contacts passing them. */
  lemma ChosenWithExtra(db: Store, plan: Plan, extra: seq<Where>)
    ensures forall c :: c in Chosen(db, plan, extra) <==> c in Chosen(db, plan, []) && Passes(extra, db.contacts[c])
  {
  }

  // ---------------------------------------------------------------------------
  // Counting
  // ---------------------------------------------------------------------------

  /** COUNT of the base narrowed to `ids`. */
  function CountIn(db: Store, plan: Plan, extra: seq<Where>, ids: set<nat>): nat {
    |Base(db, plan, extra) * ids|
  }

  lemma CountSplits(db: Store, plan: Plan, extra: seq<Where>, a: set<nat>, b: set<nat>)
    requires a !! b
    ensures CountIn(db, plan, extra, a + b) == CountIn(db, plan, extra, a) + CountIn(db, plan, extra, b)
  {
    var base := Base(db, plan, extra);
    assert base * (a + b) == base * a + base * b;
  }

  /** The counts over chunks of a duplicate-free list add up to the count over all of it. */
  method CountChunks(db: Store, plan: Plan, extra: seq<Where>, ids: seq<nat>) returns (n: nat)
    requires Ascending(ids)
    ensures n == CountIn(db, plan, extra, ToSet(ids))
  {
    n := 0;
    var chunks := Chunks(ids, IN_LIMIT);
    for i := 0 to |chunks|
      invariant n == CountIn(db, plan, extra, ToSet(Flatten(chunks[..i])))
    {
      ChunkStep(ids, chunks, i);
      CountSplits(db, plan, extra, ToSet(Flatten(chunks[..i])), ToSet(chunks[i]));
      n := n + CountIn(db, plan, extra, ToSet(chunks[i]));
    }
    assert chunks[..|chunks|] == chunks;
  }

  lemma ChunkStep(ids: seq<nat>, chunks: seq<seq<nat>>, i: nat)
    requires Ascending(ids) && Flatten(chunks) == ids && i < |chunks|
    ensures ToSet(Flatten(chunks[..i])) !! ToSet(chunks[i])
    ensures ToSet(Flatten(chunks[..i + 1])) == ToSet(Flatten(chunks[..i])) + ToSet(chunks[i])
    ensures forall x, y :: x in Flatten(chunks[..i]) && y in chunks[i] ==> x < y
  {
    FlattenStep(chunks, i);
    AscendingPrefix(ids, Flatten(chunks[..i]), chunks[i]);
    ToSetConcat(Flatten(chunks[..i]), chunks[i]);
  }

  lemma Subtracted(base: set<nat>, out: set<nat>)
    ensures |base - out| == |base| - |base * out|
  {
  }

  /** The plan's set, by inclusion and by subtraction. */
  lemma ChosenSets(db: Store, plan: Plan, extra: seq<Where>)
    ensures plan.included.Some? ==> Chosen(db, plan, extra) == Base(db, plan, extra) * ToSet(plan.included.value)
    ensures plan.included.None? ==> Chosen(db, plan, extra) == Base(db, plan, extra) - plan.excluded
  {
  }

  /** The count is the size of the set, counted by inclusion or by subtraction. */
  method CountSegment(db: Store, plan: Plan, extra: seq<Where>) returns (n: nat)
    requires WellFormed(plan)
    ensures n == |Chosen(db, plan, extra)|
  {
    ChosenSets(db, plan, extra);
    if plan.included.Some? {
      n := CountChunks(db, plan, extra, plan.included.value);
      return;
    }
    var total: int := |Base(db, plan, extra)|;
    Subtracted(Base(db, plan, extra), plan.excluded);
    if plan.excluded != {} {
      var out := CountExcluded(db, plan, extra);
      total := total - out;
    } else {
      assert Base(db, plan, extra) - plan.excluded == Base(db, plan, extra);
    }
    n := Max(0, total);
  }

  method CountExcluded(db: Store, plan: Plan, extra: seq<Where>) returns (n: nat)
    ensures n == |Base(db, plan, extra) * plan.excluded|
  {
    SortedAscends(plan.excluded);
    n := CountChunks(db, plan, extra, Sorted(plan.excluded));
    assert ToSet(Sorted(plan.excluded)) == plan.excluded;
  }

  // ---------------------------------------------------------------------------
  // Streaming
  // ---------------------------------------------------------------------------

  function Without(rows: seq<nat>, excluded: set<nat>): (kept: seq<nat>)
    ensures forall x :: x in kept <==> x in rows && x !in excluded
  {
    if rows == [] then []
    else
      var rest := Without(rows[..|rows| - 1], excluded);
      var last := rows[|rows| - 1];
      if last in excluded then rest else rest + [last]
  }

  lemma {:induction false} WithoutAscends(rows: seq<nat>, excluded: set<nat>)
    requires Ascending(rows)
    ensures Ascending(Without(rows, excluded))
  {
    if rows != [] {
      WithoutAscends(rows[..|rows| - 1], excluded);
      AscendingAppend(Without(rows[..|rows| - 1], excluded), rows[|rows| - 1]);
    }
  }

  /** One batch: the ids of a duplicate-free list, filtered, are a sorted set. */
  lemma FilteredIsSorted(rows: seq<nat>, excluded: set<nat>)
    requires Ascending(rows)
    ensures Without(rows, excluded) == Sorted(ToSet(rows) - excluded)
  {
    WithoutAscends(rows, excluded);
    SortedAscends(ToSet(rows) - excluded);
    AscendingIsDetermined(Without(rows, excluded), Sorted(ToSet(rows) - excluded));
  }

  function UpTo(ids: set<nat>, last: Option<nat>): set<nat> {
    set c | c in ids && last.Some? && c <= last.value
  }

  function Beyond(ids: set<nat>, last: Option<nat>): set<nat> {
    set c | c in ids && (last.Some? ==> c > last.value)
  }

  /** The rows of a page are beyond `last`, and whatever is beyond it up to the page's end is a row. */
  lemma PageCovers(base: set<nat>, last: Option<nat>, rows: seq<nat>)
    requires rows <= Sorted(Beyond(base, last)) && rows != []
    ensures Ascending(rows)
    ensures forall x :: x in rows ==> x in Beyond(base, last) && x <= rows[|rows| - 1]
    ensures forall x :: x in Beyond(base, last) && x <= rows[|rows| - 1] ==> x in rows
  {
    var all := Sorted(Beyond(base, last));
    SortedAscends(Beyond(base, last));
    assert forall i :: 0 <= i < |rows| ==> rows[i] == all[i];
    var top := rows[|rows| - 1];
    forall x | x in rows ensures x in Beyond(base, last) && x <= top { assert x in all; }
    forall x | x in Beyond(base, last) && x <= top ensures x in rows {
      assert x in all;
      var i :| 0 <= i < |all| && all[i] == x;
      assert i < |rows| && rows[i] == x;
    }
  }

  /** A page of the base beyond `last` is exactly the next stretch of ids. */
  lemma NextStretch(base: set<nat>, last: Option<nat>, rows: seq<nat>)
    requires rows <= Sorted(Beyond(base, last)) && rows != []
    ensures Ascending(rows)
    ensures var next := Some(rows[|rows| - 1]);
      && UpTo(base, next) == UpTo(base, last) + ToSet(rows)
      && (forall x, y :: x in UpTo(base, last) && y in rows ==> x < y)
      && Beyond(base, next) < Beyond(base, last)
  {
    PageCovers(base, last, rows);
    var top := rows[|rows| - 1];
    assert top in rows;
    forall x ensures x in UpTo(base, Some(top)) <==> x in UpTo(base, last) || x in rows {}
  }

  method ScanIncluded(db: Store, plan: Plan, extra: seq<Where>, ids: seq<nat>, size: nat) returns (batches: seq<seq<nat>>)
    requires size > 0 && Ascending(ids)
    ensures Flatten(batches) == Sorted(Base(db, plan, extra) * ToSet(ids))
    ensures forall k :: 0 <= k < |batches| ==> batches[k] != []
  {
    var base := Base(db, plan, extra);
    batches := [];
    var chunks := Chunks(ids, size);
    assert base * {} == {};
    for i := 0 to |chunks|
      invariant Flatten(batches) == Sorted(base * ToSet(Flatten(chunks[..i])))
      invariant forall k :: 0 <= k < |batches| ==> batches[k] != []
    {
      var rows := Sorted(base * ToSet(chunks[i]));
      ChunkRows(base, ids, chunks, i);
      batches := Yield(batches, rows);
    }
    assert chunks[..|chunks|] == chunks;
  }

  lemma ChunkRows(base: set<nat>, ids: seq<nat>, chunks: seq<seq<nat>>, i: nat)
    requires Ascending(ids) && Flatten(chunks) == ids && i < |chunks|
    ensures Sorted(base * ToSet(Flatten(chunks[..i + 1])))
            == Sorted(base * ToSet(Flatten(chunks[..i]))) + Sorted(base * ToSet(chunks[i]))
  {
    ChunkStep(ids, chunks, i);
    NarrowedSplit(base, ToSet(Flatten(chunks[..i])), ToSet(chunks[i]));
  }

  lemma NarrowedSplit(base: set<nat>, a: set<nat>, b: set<nat>)
    requires forall x, y :: x in a && y in b ==> x < y
    ensures Sorted(base * (a + b)) == Sorted(base * a) + Sorted(base * b)
  {
    var c, d := base * a, base * b;
    assert base * (a + b) == c + d;
    SortedSplit(c, d);
  }

  /** Empty batches are not yielded. */
  method Yield(batches: seq<seq<nat>>, rows: seq<nat>) returns (more: seq<seq<nat>>)
    requires forall k :: 0 <= k < |batches| ==> batches[k] != []
    ensures forall k :: 0 <= k < |more| ==> more[k] != []
    ensures Flatten(more) == Flatten(batches) + rows
  {
    more := batches;
    if |rows| > 0 {
      FlattenAppend(batches, rows);
      more := batches + [rows];
    }
  }

  /** Keyset pagination: the next `size` ids after the last one seen, until a short page. */
  method ScanKeyset(db: Store, plan: Plan, extra: seq<Where>, size: nat) returns (batches: seq<seq<nat>>)
    requires size > 0
    ensures Flatten(batches) == Sorted(Base(db, plan, extra) - plan.excluded)
    ensures forall k :: 0 <= k < |batches| ==> batches[k] != []
  {
    var base := Base(db, plan, extra);
    batches := [];
    var last: Option<nat> := None;
    assert UpTo(base, None) - plan.excluded == {};
    while true
      invariant Flatten(batches) == Sorted(UpTo(base, last) - plan.excluded)
      invariant forall k :: 0 <= k < |batches| ==> batches[k] != []
      decreases |Beyond(base, last)|
    {
      var rows := Page(base, last, size);
      if |rows| == 0 {
        AllSeen(base, last);
        return;
      }
      var kept := if plan.excluded != {} then Without(rows, plan.excluded) else rows;
      KeptExtends(base, plan.excluded, last, rows, kept);
      PageAdvances(base, last, size);
      last := Some(rows[|rows| - 1]);
      batches := Yield(batches, kept);
      if |rows| < size { return; }
    }
  }

  /** The first `size` ids of the base after `last`. */
  function Page(base: set<nat>, last: Option<nat>, size: nat): (rows: seq<nat>)
    ensures rows <= Sorted(Beyond(base, last))
    ensures rows == [] && size > 0 ==> Beyond(base, last) == {}
    ensures |rows| < size ==> rows == Sorted(Beyond(base, last))
  {
    var beyond := Sorted(Beyond(base, last));
    beyond[..Min(size, |beyond|)]
  }

  lemma PageAdvances(base: set<nat>, last: Option<nat>, size: nat)
    requires Page(base, last, size) != []
    ensures var rows := Page(base, last, size); var next := Some(rows[|rows| - 1]);
      && |Beyond(base, next)| < |Beyond(base, last)|
      && (|rows| < size ==> UpTo(base, next) == base)
  {
    var rows := Page(base, last, size);
    var next := Some(rows[|rows| - 1]);
    NextStretch(base, last, rows);
    ProperSubsetSize(Beyond(base, next), Beyond(base, last));
    if |rows| < size { LastStretch(base, last, next, rows); }
  }

  lemma ProperSubsetSize(a: set<nat>, b: set<nat>)
    requires a < b
    ensures |a| < |b|
  {
    var x :| x in b && x !in a;
    SubsetSize(a + {x}, b);
  }

  lemma AllSeen(base: set<nat>, last: Option<nat>)
    requires Beyond(base, last) == {}
    ensures UpTo(base, last) == base
  {
    assert forall c :: c in base ==> c !in Beyond(base, last);
  }

  lemma LastStretch(base: set<nat>, last: Option<nat>, next: Option<nat>, rows: seq<nat>)
    requires UpTo(base, next) == UpTo(base, last) + ToSet(rows) && rows == Sorted(Beyond(base, last))
    ensures UpTo(base, next) == base
  {
  }

  lemma KeptExtends(base: set<nat>, excluded: set<nat>, last: Option<nat>, rows: seq<nat>, kept: seq<nat>)
    requires rows <= Sorted(Beyond(base, last)) && rows != []
    requires kept == if excluded != {} then Without(rows, excluded) else rows
    ensures Sorted(UpTo(base, Some(rows[|rows| - 1])) - excluded) == Sorted(UpTo(base, last) - excluded) + kept
  {
    NextStretch(base, last, rows);
    FilteredIsSorted(rows, excluded);
    if excluded == {} { FilteredNothing(rows); }
    RemainderSplit(UpTo(base, last), ToSet(rows), excluded);
  }

  lemma RemainderSplit(a: set<nat>, b: set<nat>, excluded: set<nat>)
    requires forall x, y :: x in a && y in b ==> x < y
    ensures Sorted(a + b - excluded) == Sorted(a - excluded) + Sorted(b - excluded)
  {
    var c, d := a - excluded, b - excluded;
    assert a + b - excluded == c + d;
    SortedSplit(c, d);
  }

  lemma {:induction false} FilteredNothing(rows: seq<nat>)
    ensures Without(rows, {}) == rows
  {
    if rows != [] { FilteredNothing(rows[..|rows| - 1]); }
  }

  /** Streaming yields the chosen contacts once each, in id order, whatever the batch size. */
  method ScanSegment(db: Store, plan: Plan, extra: seq<Where>, wanted: nat) returns (batches: seq<seq<nat>>)
    requires WellFormed(plan) && wanted > 0
    ensures Flatten(batches) == Sorted(Chosen(db, plan, extra))
    ensures forall k :: 0 <= k < |batches| ==> batches[k] != []
  {
    var size := Min(wanted, IN_LIMIT);
    ChosenSets(db, plan, extra);
    if plan.included.Some? {
      batches := ScanIncluded(db, plan, extra, plan.included.value, size);
    } else {
      batches := ScanKeyset(db, plan, extra, size);
    }
  }

  // ---------------------------------------------------------------------------
  // One page
  // ---------------------------------------------------------------------------

  function Slice(s: seq<nat>, offset: nat, n: nat): seq<nat> { s[Min(offset, |s|)..Min(offset + n, |s|)] }

  lemma SliceConcat(a: seq<nat>, b: seq<nat>, offset: nat, n: nat)
    ensures Slice(a + b, offset, n) == Slice(a, offset, n) + Slice(b, Max(0, offset - |a|), n - |Slice(a, offset, n)|)
  {
  }

  method PageSegment(db: Store, plan: Plan, page: nat, pageSize: nat) returns (out: seq<nat>)
    requires WellFormed(plan) && page >= 1 && pageSize >= 1
    ensures out == Slice(Sorted(Chosen(db, plan, [])), (page - 1) * pageSize, pageSize)
  {
    var offset := (page - 1) * pageSize;
    if plan.included.None? && plan.excluded == {} {
      var rows := Sorted(Base(db, plan, []));
      assert Base(db, plan, []) == Chosen(db, plan, []);
      return Slice(rows, offset, pageSize);
    }
    var batches := ScanSegment(db, plan, [], Max(1000, pageSize));
    out := PageOf(batches, offset, pageSize);
  }

  /** Skip and cut while the batches stream past; stop when the page is full. */
  method PageOf(batches: seq<seq<nat>>, offset: nat, pageSize: nat) returns (out: seq<nat>)
    requires pageSize >= 1 && forall k :: 0 <= k < |batches| ==> batches[k] != []
    ensures out == Slice(Flatten(batches), offset, pageSize)
  {
    out := [];
    var skip := offset;
    var i := 0;
    while i < |batches|
      invariant 0 <= i <= |batches|
      invariant out == Slice(Flatten(batches[..i]), offset, pageSize) && |out| < pageSize
      invariant skip == Max(0, offset - |Flatten(batches[..i])|)
    {
      var batch := batches[i];
      assert batches[..i + 1] == batches[..i] + [batch];
      FlattenAppend(batches[..i], batch);
      SliceConcat(Flatten(batches[..i]), batch, offset, pageSize);
      i := i + 1;
      if skip >= |batch| {
        skip := skip - |batch|;
        continue;
      }
      out := out + batch[skip..Min(skip + pageSize - |out|, |batch|)];
      skip := 0;
      if |out| >= pageSize {
        FlattenPrefix(batches, i);
        SliceOfPrefix(Flatten(batches[..i]), Flatten(batches), offset, pageSize);
        return;
      }
    }
    assert batches[..|batches|] == batches;
  }

  lemma SliceOfPrefix(a: seq<nat>, s: seq<nat>, offset: nat, n: nat)
    requires a <= s && |Slice(a, offset, n)| == n
    ensures Slice(s, offset, n) == Slice(a, offset, n)
  {
  }

  // ---------------------------------------------------------------------------
  // End to end
  // ---------------------------------------------------------------------------

  /** Main result: the three readings of a rule list agree with the segment it defines. */
  method ReadSegment(db: Store, tenant: nat, rules: seq<Rule>, now: int, extra: seq<Where>, wanted: nat, page: nat, pageSize: nat)
    returns (batches: seq<seq<nat>>, count: nat, rows: seq<nat>)
    requires wanted > 0 && page >= 1 && pageSize >= 1
    ensures forall c :: c in Flatten(batches) <==> c in Segment(db, tenant, now, rules) && Passes(extra, db.contacts[c])
    ensures Ascending(Flatten(batches)) && count == |Flatten(batches)|
    ensures rows == Slice(Sorted(Segment(db, tenant, now, rules)), (page - 1) * pageSize, pageSize)
  {
    var plan := PlanSegment(db, tenant, rules, now);
    ChosenWithExtra(db, plan, extra);
    batches := ScanSegment(db, plan, extra, wanted);
    SortedAscends(Chosen(db, plan, extra));
    count := CountSegment(db, plan, extra);
    rows := PageSegment(db, plan, page, pageSize);
  }
}
