/**
 * The contact column a look-back rule reads is kept by the order events: it only moves
 * forward, while an order's date and buyer may change later. This says exactly which
 * histories leave it at the contact's latest counted order.
 */
module OrderColumn {
  import opened Common
  import opened Orders
  import S = SegmentRules

  /** The event moves the contact's order date if it is later. */
  predicate Marks(e: Event, c: nat) { !e.kind.Create? && e.contact == c && MarkLands(e) }

  /** Each counted order of the contact was marked, at its present date or a later one. */
  ghost predicate EveryOrderMarked(events: seq<Event>, c: nat) {
    forall k :: k in CountedOrders(Replay(map[], events), c) ==> MarkedFrom(events, c, Replay(map[], events)[k].time)
  }

  ghost predicate MarkedFrom(events: seq<Event>, c: nat, t: int) {
    exists i :: 0 <= i < |events| && Marks(events[i], c) && t <= events[i].time
  }

  /** Each mark still stands: some counted order of the contact has that date or a later one. */
  ghost predicate EveryMarkStands(events: seq<Event>, c: nat) {
    forall i :: 0 <= i < |events| && Marks(events[i], c) ==> OrderedFrom(Replay(map[], events), c, events[i].time)
  }

  ghost predicate OrderedFrom(orders: map<nat, Order>, c: nat, t: int) {
    exists k :: k in CountedOrders(orders, c) && t <= orders[k].time
  }

  /** `last` is the latest of the marks. */
  ghost predicate IsLatestMark(events: seq<Event>, c: nat, last: Option<int>) {
    && (last.Some? ==> MarkedFrom(events, c, last.value))
    && (forall i :: 0 <= i < |events| && Marks(events[i], c) ==> last.Some? && events[i].time <= last.value)
  }

  /** The column is the latest mark. */
  lemma {:induction false} LastMarkedIsLatest(events: seq<Event>, c: nat)
    ensures IsLatestMark(events, c, LastMarked(None, events, c))
    decreases |events|
  {
    if events != [] {
      var init, e := events[..|events| - 1], events[|events| - 1];
      var last := LastMarked(None, events, c);
      LastMarkedIsLatest(init, c);
      forall i | 0 <= i < |events| && Marks(events[i], c) ensures last.Some? && events[i].time <= last.value {
        if i < |init| { assert Marks(init[i], c); }
      }
      if last.Some? {
        if last == LastMarked(None, init, c) {
          var i :| 0 <= i < |init| && Marks(init[i], c) && last.value <= init[i].time;
          assert Marks(events[i], c);
        } else {
          assert Marks(events[|events| - 1], c);
        }
      }
    }
  }

  /** `last` is the date of the contact's latest counted order, if it has one. */
  ghost predicate IsLatestOrder(orders: map<nat, Order>, c: nat, last: Option<int>) {
    && (forall k :: k in CountedOrders(orders, c) ==> last.Some? && orders[k].time <= last.value)
    && (last.Some? ==> exists k :: k in CountedOrders(orders, c) && orders[k].time == last.value)
  }

  lemma MarkedAndStanding(events: seq<Event>, orders: map<nat, Order>, last: Option<int>, c: nat)
    requires IsLatestMark(events, c, last)
    requires forall k :: k in CountedOrders(orders, c) ==> MarkedFrom(events, c, orders[k].time)
    requires forall i :: 0 <= i < |events| && Marks(events[i], c) ==> OrderedFrom(orders, c, events[i].time)
    ensures IsLatestOrder(orders, c, last)
  {
    forall k | k in CountedOrders(orders, c) ensures last.Some? && orders[k].time <= last.value {
      assert MarkedFrom(events, c, orders[k].time);
    }
    if last.Some? {
      var i :| 0 <= i < |events| && Marks(events[i], c) && last.value <= events[i].time;
      assert OrderedFrom(orders, c, events[i].time);
    }
  }

  lemma LatestIsMarked(events: seq<Event>, c: nat)
    requires IsLatestOrder(Replay(map[], events), c, LastMarked(None, events, c))
    ensures EveryOrderMarked(events, c) && EveryMarkStands(events, c)
  {
    var orders, last := Replay(map[], events), LastMarked(None, events, c);
    LastMarkedIsLatest(events, c);
    forall k | k in CountedOrders(orders, c) ensures MarkedFrom(events, c, orders[k].time) {}
    forall i | 0 <= i < |events| && Marks(events[i], c) ensures OrderedFrom(orders, c, events[i].time) {
      var k :| k in CountedOrders(orders, c) && orders[k].time == last.value;
    }
  }

  /**
   * Main result: after a history the column holds the date of the contact's latest counted
   * order if and only if every counted order of the contact was marked from its present date
   * on, and every mark still stands.
   */
  lemma ColumnRightIff(events: seq<Event>, c: nat)
    ensures IsLatestOrder(Replay(map[], events), c, LastMarked(None, events, c))
            <==> EveryOrderMarked(events, c) && EveryMarkStands(events, c)
  {
    if EveryOrderMarked(events, c) && EveryMarkStands(events, c) {
      LastMarkedIsLatest(events, c);
      MarkedAndStanding(events, Replay(map[], events), LastMarked(None, events, c), c);
    }
    if IsLatestOrder(Replay(map[], events), c, LastMarked(None, events, c)) { LatestIsMarked(events, c); }
  }

  // ---------------------------------------------------------------------------
  // Which events spoil the column
  // ---------------------------------------------------------------------------

  /** The event dates a counted order of the contact beyond the column without marking it. */
  predicate Overtakes(orders: map<nat, Order>, last: Option<int>, e: Event, c: nat) {
    && e.contact == c && IsCounted(Saved(Lookup(orders, e.order), e).status) && !Marks(e, c)
    && (last.None? || e.time > last.value)
  }

  /** The event re-dates to an earlier day, or moves to another buyer, the only order with the column's date. */
  predicate Withdraws(orders: map<nat, Order>, last: Option<int>, e: Event, c: nat) {
    && last.Some? && e.order in CountedOrders(orders, c) && orders[e.order].time == last.value
    && (e.contact != c || e.time < last.value)
    && forall k :: k in CountedOrders(orders, c) && k != e.order ==> orders[k].time != last.value
  }

  /** The orders after an event, as the contact sees them. */
  lemma CountedAfter(orders: map<nat, Order>, e: Event, c: nat)
    ensures var after := Saved(Lookup(orders, e.order), e); var orders' := orders[e.order := after];
      forall k :: k in CountedOrders(orders', c) <==>
        if k == e.order then e.contact == c && IsCounted(after.status) else k in CountedOrders(orders, c)
  {
  }

  lemma SpoiledOrKept(orders: map<nat, Order>, last: Option<int>, e: Event, c: nat)
    requires IsLatestOrder(orders, c, last) && !Overtakes(orders, last, e, c) && !Withdraws(orders, last, e, c)
    ensures IsLatestOrder(orders[e.order := Saved(Lookup(orders, e.order), e)], c, Marked(last, e, c))
  {
    var orders' := orders[e.order := Saved(Lookup(orders, e.order), e)];
    var last' := Marked(last, e, c);
    CountedAfter(orders, e, c);
    if last'.Some? {
      if last' != last {
        assert e.order in CountedOrders(orders', c) && orders'[e.order].time == last'.value;
      } else {
        var k :| k in CountedOrders(orders, c) && orders[k].time == last.value;
        if k == e.order {
          if e.contact == c && e.time >= last.value {
            assert e.order in CountedOrders(orders', c) && orders'[e.order].time == last.value;
          } else {
            var j :| j in CountedOrders(orders, c) && j != e.order && orders[j].time == last.value;
            assert j in CountedOrders(orders', c) && orders'[j].time == last.value;
          }
        } else {
          assert k in CountedOrders(orders', c) && orders'[k].time == last.value;
        }
      }
    }
  }

  lemma SpoiledIs(orders: map<nat, Order>, last: Option<int>, e: Event, c: nat)
    requires IsLatestOrder(orders, c, last) && (Overtakes(orders, last, e, c) || Withdraws(orders, last, e, c))
    requires !(Marks(e, c) && (last.None? || e.time > last.value))
    ensures !IsLatestOrder(orders[e.order := Saved(Lookup(orders, e.order), e)], c, Marked(last, e, c))
  {
    var orders' := orders[e.order := Saved(Lookup(orders, e.order), e)];
    CountedAfter(orders, e, c);
    if Overtakes(orders, last, e, c) {
      assert e.order in CountedOrders(orders', c) && orders'[e.order].time == e.time;
    } else {
      forall k | k in CountedOrders(orders', c) ensures orders'[k].time != last.value {
        if k != e.order { assert k in CountedOrders(orders, c); }
      }
    }
  }

  /**
   * Main result for one event: a right column stays right if and only if the event neither
   * dates an order beyond it unmarked nor takes away the only order with its date.
   */
  lemma StaysRightIff(orders: map<nat, Order>, last: Option<int>, e: Event, c: nat)
    requires IsLatestOrder(orders, c, last)
    ensures IsLatestOrder(orders[e.order := Saved(Lookup(orders, e.order), e)], c, Marked(last, e, c))
            <==> !Overtakes(orders, last, e, c) && !Withdraws(orders, last, e, c)
  {
    if Overtakes(orders, last, e, c) || Withdraws(orders, last, e, c) {
      SpoiledIs(orders, last, e, c);
    } else {
      SpoiledOrKept(orders, last, e, c);
    }
  }

  /** No event of the history spoils the contact's column. */
  ghost predicate NothingSpoils(events: seq<Event>, c: nat) {
    forall i :: 0 <= i < |events| ==> Harmless(events, i, c)
  }

  predicate Harmless(events: seq<Event>, i: nat, c: nat)
    requires i < |events|
  {
    var orders, last := Replay(map[], events[..i]), LastMarked(None, events[..i], c);
    !Overtakes(orders, last, events[i], c) && !Withdraws(orders, last, events[i], c)
  }

  /** Then the column is right at the end, and was all along. */
  lemma {:induction false} UnspoiledIsRight(events: seq<Event>, c: nat)
    requires NothingSpoils(events, c)
    ensures IsLatestOrder(Replay(map[], events), c, LastMarked(None, events, c))
    decreases |events|
  {
    if events != [] {
      var n := |events| - 1;
      var init := events[..n];
      forall i | 0 <= i < n ensures Harmless(init, i, c) {
        assert Harmless(events, i, c) && init[..i] == events[..i];
      }
      UnspoiledIsRight(init, c);
      assert Harmless(events, n, c);
      StaysRightIff(Replay(map[], init), LastMarked(None, init, c), events[n], c);
    }
  }

  /** The segment store shows the shop's orders and the column of the contact. */
  ghost predicate Shows(db: S.Store, orders: map<nat, Order>, last: Option<int>, c: nat) {
    && c in db.contacts && db.contacts[c].lastOrderedAt == last
    && (forall k :: k in CountedOrders(orders, c) ==> ShowsOrder(db, c, orders[k].time))
    && (forall j :: 0 <= j < |db.orders| && CountsIn(db, db.orders[j], c) ==>
          exists k :: k in CountedOrders(orders, c) && orders[k].time == db.orders[j].time)
  }

  predicate CountsIn(db: S.Store, o: S.Order, c: nat)
    requires c in db.contacts
  {
    o.tenant == db.contacts[c].tenant && o.contact == Some(c) && o.counted
  }

  ghost predicate ShowsOrder(db: S.Store, c: nat, t: int)
    requires c in db.contacts
  {
    exists j :: 0 <= j < |db.orders| && db.orders[j] == S.Order(db.contacts[c].tenant, Some(c), true, t)
  }

  lemma FaithfulIsLatest(db: S.Store, orders: map<nat, Order>, last: Option<int>, c: nat)
    requires Shows(db, orders, last, c)
    ensures S.ColumnFaithful(db, c) <==> IsLatestOrder(orders, c, last)
  {
    if S.ColumnFaithful(db, c) {
      forall k | k in CountedOrders(orders, c) ensures last.Some? && orders[k].time <= last.value {
        assert ShowsOrder(db, c, orders[k].time);
      }
    }
    if IsLatestOrder(orders, c, last) && last.Some? {
      var k :| k in CountedOrders(orders, c) && orders[k].time == last.value;
      assert ShowsOrder(db, c, orders[k].time);
    }
  }

  /** Hence exactly when a segment may take the column for the orders. */
  lemma ColumnFaithfulIff(db: S.Store, events: seq<Event>, c: nat)
    requires Shows(db, Replay(map[], events), LastMarked(None, events, c), c)
    ensures S.ColumnFaithful(db, c) <==> EveryOrderMarked(events, c) && EveryMarkStands(events, c)
  {
    FaithfulIsLatest(db, Replay(map[], events), LastMarked(None, events, c), c);
    ColumnRightIff(events, c);
  }

  /** Events of an order agree on its date and buyer, and no mark is lost. */
  ghost predicate Steady(events: seq<Event>) {
    && (forall i :: 0 <= i < |events| ==> MarkLands(events[i]))
    && (forall i, j :: 0 <= i < j < |events| && events[i].order == events[j].order ==>
          events[i].contact == events[j].contact && events[i].time == events[j].time)
  }

  /** What a history makes of an order: counted once an event beyond its creation arrived, dated by its events. */
  lemma {:induction false} SteadyOrders(events: seq<Event>, k: nat)
    requires Steady(events)
    ensures forall i :: 0 <= i < |events| && events[i].order == k ==>
              && k in Replay(map[], events)
              && Replay(map[], events)[k].contact == Some(events[i].contact) && Replay(map[], events)[k].time == events[i].time
              && (!events[i].kind.Create? ==> IsCounted(Replay(map[], events)[k].status))
    ensures k in Replay(map[], events) && IsCounted(Replay(map[], events)[k].status) ==>
              exists i :: 0 <= i < |events| && events[i].order == k && !events[i].kind.Create?
    decreases |events|
  {
    if events != [] {
      var n := |events| - 1;
      var init := events[..n];
      assert forall i :: 0 <= i < n ==> init[i] == events[i];
      SteadyOrders(init, k);
      if k in Replay(map[], init) && IsCounted(Replay(map[], init)[k].status) {
        var i :| 0 <= i < |init| && init[i].order == k && !init[i].kind.Create?;
        assert events[i].order == k;
      }
    }
  }

  /** Orders that keep their date and buyer keep the column right for every contact. */
  lemma SteadyIsRight(events: seq<Event>, c: nat)
    requires Steady(events)
    ensures EveryOrderMarked(events, c) && EveryMarkStands(events, c)
  {
    var orders := Replay(map[], events);
    forall k | k in CountedOrders(orders, c) ensures MarkedFrom(events, c, orders[k].time) {
      SteadyOrders(events, k);
      var i :| 0 <= i < |events| && events[i].order == k && !events[i].kind.Create?;
      assert Marks(events[i], c);
    }
    forall i | 0 <= i < |events| && Marks(events[i], c) ensures OrderedFrom(orders, c, events[i].time) {
      SteadyOrders(events, events[i].order);
      assert events[i].order in CountedOrders(orders, c);
    }
  }

  /** An order paid at 5 and re-dated to 3 when shipped leaves the column at 5. */
  lemma RedatedIsWrong()
    ensures var events := [Event(Pay, 1, 7, 100, 5, false, true, 2), Event(Ship, 1, 7, 100, 3, false, true, 2)];
      LastMarked(None, events, 7) == Some(5) && !EveryMarkStands(events, 7)
  {
    var paid, shipped := Event(Pay, 1, 7, 100, 5, false, true, 2), Event(Ship, 1, 7, 100, 3, false, true, 2);
    var events := [paid, shipped];
    assert events[..1] == [paid] && [paid][..0] == [];
    assert LastMarked(None, [paid], 7) == Some(5);
    assert Replay(map[], [paid]) == map[1 := Order(Paid, Some(7), 100, 5)];
    assert Replay(map[], events) == map[1 := Order(Shipped, Some(7), 100, 3)];
    assert Marks(events[0], 7);
  }
}
