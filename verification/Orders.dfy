/**
 * Shop orders ingested from webhooks and backfill: statuses only move forward, and a
 * contact's order counters differ from the orders they summarise by exactly the counter
 * updates that were lost, so by nothing when none was. Amounts are in cents. Events of one
 * order are handled one at a time.
 */
module Orders {
  import opened Common

  datatype Status = Pending | Paid | Shipped

  function Rank(s: Status): nat { match s case Pending => 0 case Paid => 1 case Shipped => 2 }

  /** The statuses a target may advance from. */
  function LowerStatuses(target: Status): set<Status> {
    set s | s in {Pending, Paid, Shipped} && Rank(s) < Rank(target)
  }

  datatype Order = Order(status: Status, contact: Option<nat>, value: int, time: int)

  datatype Metrics = Metrics(count: int, amount: int, lastOrderedAt: Option<int>)

  datatype Kind = Create | Pay | Ship | Backfill

  /**
   * A webhook or a backfilled order being handled; `contact` is the buyer its email resolves
   * to and `attributed` says that a mail of ours brought the order in. Failed updates of the
   * contact are swallowed: `marked` says that the order date lands, `writes` how many of the
   * counter updates do.
   */
  datatype Event = Event(
    kind: Kind, order: nat, contact: nat, value: int, time: int, attributed: bool, marked: bool, writes: nat)

  // ---------------------------------------------------------------------------
  // What the counters summarise
  // ---------------------------------------------------------------------------

  predicate IsCounted(s: Status) { s.Paid? || s.Shipped? }

  predicate CountsFor(o: Order, c: nat) { IsCounted(o.status) && o.contact == Some(c) }

  function CountedOrders(orders: map<nat, Order>, c: nat): set<nat> {
    set k | k in orders && CountsFor(orders[k], c)
  }

  /** Sum of the values of the orders `ids`. */
  function Value(orders: map<nat, Order>, ids: set<nat>): int
    requires ids <= orders.Keys
    decreases |ids|
  {
    if ids == {} then 0
    else
      var k := Least(ids);
      orders[k].value + Value(orders, ids - {k})
  }

  lemma {:induction false} ValueWithout(orders: map<nat, Order>, ids: set<nat>, k: nat)
    requires ids <= orders.Keys && k in ids
    ensures Value(orders, ids) == orders[k].value + Value(orders, ids - {k})
    decreases |ids|
  {
    var m := Least(ids);
    if m != k {
      var rest := ids - {k};
      assert m in rest;
      assert Least(rest) == m;
      ValueWithout(orders, ids - {m}, k);
      assert ids - {m} - {k} == rest - {m};
    }
  }

  lemma {:induction false} ValueSame(a: map<nat, Order>, b: map<nat, Order>, ids: set<nat>)
    requires ids <= a.Keys && ids <= b.Keys && forall k :: k in ids ==> a[k].value == b[k].value
    ensures Value(a, ids) == Value(b, ids)
    decreases |ids|
  {
    if ids != {} { ValueSame(a, b, ids - {Least(ids)}); }
  }

  /** Every buyer has a row. */
  ghost predicate Known(orders: map<nat, Order>, contacts: map<nat, Metrics>) {
    forall k :: k in orders && orders[k].contact.Some? ==> orders[k].contact.value in contacts
  }

  /** By how much the counters fall short of the number and the exact sum of the contact's counted orders. */
  function CountDebt(orders: map<nat, Order>, contacts: map<nat, Metrics>, c: nat): int {
    |CountedOrders(orders, c)| - (if c in contacts then contacts[c].count else 0)
  }

  function AmountDebt(orders: map<nat, Order>, contacts: map<nat, Metrics>, c: nat): int {
    Value(orders, CountedOrders(orders, c)) - (if c in contacts then contacts[c].amount else 0)
  }

  /** The row's counters are the number and the exact sum of the contact's paid or shipped orders. */
  ghost predicate Exact(orders: map<nat, Order>, contacts: map<nat, Metrics>) {
    forall c :: c in contacts ==>
      && contacts[c].count == |CountedOrders(orders, c)|
      && contacts[c].amount == Value(orders, CountedOrders(orders, c))
  }

  function One(o: Option<Order>, c: nat): int { if o.Some? && CountsFor(o.value, c) then 1 else 0 }

  function Worth(o: Option<Order>, c: nat): int { if o.Some? && CountsFor(o.value, c) then o.value.value else 0 }

  function Lookup(orders: map<nat, Order>, k: nat): Option<Order> { if k in orders then Some(orders[k]) else None }

  /** Apart from the order written, a contact's counted orders and their values stay. */
  lemma OthersStay(orders: map<nat, Order>, k: nat, o: Order, c: nat)
    ensures CountedOrders(orders[k := o], c) - {k} == CountedOrders(orders, c) - {k}
    ensures Value(orders[k := o], CountedOrders(orders, c) - {k}) == Value(orders, CountedOrders(orders, c) - {k})
  {
    ValueSame(orders, orders[k := o], CountedOrders(orders, c) - {k});
  }

  /** A contact's totals are its share of one order and the rest. */
  lemma TotalsSplit(orders: map<nat, Order>, k: nat, c: nat)
    ensures |CountedOrders(orders, c)| == |CountedOrders(orders, c) - {k}| + One(Lookup(orders, k), c)
    ensures Value(orders, CountedOrders(orders, c)) == Value(orders, CountedOrders(orders, c) - {k}) + Worth(Lookup(orders, k), c)
  {
    var ids := CountedOrders(orders, c);
    if k in ids {
      ValueWithout(orders, ids, k);
    } else {
      assert ids - {k} == ids;
    }
  }

  /** Writing one order moves a contact's totals by that order's old and new share. */
  lemma TotalsMove(orders: map<nat, Order>, k: nat, o: Order, c: nat)
    ensures |CountedOrders(orders[k := o], c)| == |CountedOrders(orders, c)| - One(Lookup(orders, k), c) + One(Some(o), c)
    ensures Value(orders[k := o], CountedOrders(orders[k := o], c))
            == Value(orders, CountedOrders(orders, c)) - Worth(Lookup(orders, k), c) + Worth(Some(o), c)
  {
    OthersStay(orders, k, o, c);
    TotalsSplit(orders, k, c);
    TotalsSplit(orders[k := o], k, c);
  }

  // ---------------------------------------------------------------------------
  // Counter updates
  // ---------------------------------------------------------------------------

  /** One increment of a contact's counters. */
  datatype Move = Move(contact: nat, count: int, amount: int)

  /** What the old buyer loses. */
  function Taken(before: Option<Order>): seq<Move> {
    if before.Some? && IsCounted(before.value.status) && before.value.contact.Some?
    then [Move(before.value.contact.value, -1, -before.value.value)] else []
  }

  /** What the new buyer gains. */
  function Given(after: Order): seq<Move> {
    if IsCounted(after.status) && after.contact.Some? then [Move(after.contact.value, 1, after.value)] else []
  }

  /** The increments a write of an order calls for, in the order they are made. */
  function Moves(before: Option<Order>, after: Order): (moves: seq<Move>)
    ensures |moves| <= 2
  {
    if SameBuyer(before, after) then
      if after.value != before.value.value then [Move(after.contact.value, 0, after.value - before.value.value)] else []
    else Taken(before) + Given(after)
  }

  function CountOf(moves: seq<Move>, c: nat): int {
    if moves == [] then 0 else (if moves[0].contact == c then moves[0].count else 0) + CountOf(moves[1..], c)
  }

  function AmountOf(moves: seq<Move>, c: nat): int {
    if moves == [] then 0 else (if moves[0].contact == c then moves[0].amount else 0) + AmountOf(moves[1..], c)
  }

  lemma SumOfTwo(moves: seq<Move>, c: nat)
    requires |moves| == 2
    ensures CountOf(moves, c) == CountOf([moves[0]], c) + CountOf([moves[1]], c)
    ensures AmountOf(moves, c) == AmountOf([moves[0]], c) + AmountOf([moves[1]], c)
  {
    assert moves[1..] == [moves[1]] && [moves[0]][1..] == [];
  }

  /** All together they move a contact's totals from the order's old share to its new one. */
  lemma MovesAddUp(before: Option<Order>, after: Order, c: nat)
    ensures CountOf(Moves(before, after), c) == One(Some(after), c) - One(before, c)
    ensures AmountOf(Moves(before, after), c) == Worth(Some(after), c) - Worth(before, c)
  {
    var moves := Moves(before, after);
    if |moves| == 2 { SumOfTwo(moves, c); }
  }

  function Landed(moves: seq<Move>, writes: nat): seq<Move> { moves[..Min(writes, |moves|)] }

  /** One buyer before and after, counted both times. */
  predicate SameBuyer(before: Option<Order>, after: Order) {
    Taken(before) != [] && Given(after) != [] && before.value.contact == after.contact
  }

  /** What lands for a contact, case by case. */
  lemma LandedCases(before: Option<Order>, after: Order, writes: nat, c: nat)
    ensures var landed := Landed(Moves(before, after), writes);
      if SameBuyer(before, after) then
        && CountOf(landed, c) == 0
        && AmountOf(landed, c) == if after.contact == Some(c) && writes > 0 then after.value - before.value.value else 0
      else
        && CountOf(landed, c) == (if writes > 0 then -One(before, c) else 0)
                                 + (if writes > |Taken(before)| then One(Some(after), c) else 0)
        && AmountOf(landed, c) == (if writes > 0 then -Worth(before, c) else 0)
                                  + (if writes > |Taken(before)| then Worth(Some(after), c) else 0)
  {
    var moves := Moves(before, after);
    var landed := Landed(moves, writes);
    if |landed| == 2 {
      assert landed == moves;
      SumOfTwo(landed, c);
    } else if |landed| == 1 {
      assert landed == [moves[0]];
    }
  }

  function Lost(moves: seq<Move>, writes: nat): seq<Move> { moves[Min(writes, |moves|)..] }

  lemma LandedAndLost(moves: seq<Move>, writes: nat, c: nat)
    requires |moves| <= 2
    ensures CountOf(moves, c) == CountOf(Landed(moves, writes), c) + CountOf(Lost(moves, writes), c)
    ensures AmountOf(moves, c) == AmountOf(Landed(moves, writes), c) + AmountOf(Lost(moves, writes), c)
  {
    if writes == 0 {
      assert Landed(moves, writes) == [] && Lost(moves, writes) == moves;
    } else if writes >= |moves| {
      assert Landed(moves, writes) == moves && Lost(moves, writes) == [];
    } else {
      assert Landed(moves, writes) == [moves[0]] && Lost(moves, writes) == moves[1..] == [moves[1]];
      assert [moves[0]][1..] == [] && [moves[1]][1..] == [];
    }
  }

  // ---------------------------------------------------------------------------
  // One event
  // ---------------------------------------------------------------------------

  function Target(kind: Kind): Status {
    match kind
    case Create => Pending
    case Pay => Paid
    case Ship => Shipped
    case Backfill => Paid
  }

  function Further(a: Status, b: Status): Status { if Rank(a) > Rank(b) then a else b }

  /** What an event leaves of its order. */
  function Saved(before: Option<Order>, e: Event): Order {
    Order(if before.Some? then Further(before.value.status, Target(e.kind)) else Target(e.kind), Some(e.contact), e.value, e.time)
  }

  function Latest(a: Option<int>, t: int): Option<int> { if a.None? || a.value < t then Some(t) else a }

  /** The increments the event's write calls for. */
  function EventMoves(orders: map<nat, Order>, e: Event): (moves: seq<Move>)
    ensures |moves| <= 2
  {
    Moves(Lookup(orders, e.order), Saved(Lookup(orders, e.order), e))
  }

  /** Debts after an event: what it lost comes on top. */
  ghost predicate DebtsGrow(orders: map<nat, Order>, contacts: map<nat, Metrics>, e: Event,
                            orders': map<nat, Order>, contacts': map<nat, Metrics>) {
    var lost := Lost(EventMoves(orders, e), e.writes);
    forall c: nat ::
      && CountDebt(orders', contacts', c) == CountDebt(orders, contacts, c) + CountOf(lost, c)
      && AmountDebt(orders', contacts', c) == AmountDebt(orders, contacts, c) + AmountOf(lost, c)
  }

  /** A webhook goes on when its mark fails; a backfill stops there, so that one handled has landed its mark. */
  predicate MarkLands(e: Event) { e.marked || e.kind.Backfill? }

  /** The order date the event leaves on a contact. */
  function Marked(was: Option<int>, e: Event, c: nat): Option<int> {
    if !e.kind.Create? && e.contact == c && MarkLands(e) then Latest(was, e.time) else was
  }

  function DateOf(contacts: map<nat, Metrics>, c: nat): Option<int> {
    if c in contacts then contacts[c].lastOrderedAt else None
  }

  class ShopSync {
    var orders: map<nat, Order>
    var contacts: map<nat, Metrics>

    constructor ()
      ensures orders == map[] && contacts == map[] && Known(orders, contacts) && Exact(orders, contacts)
    {
      orders, contacts := map[], map[];
    }

    method UpsertContact(c: nat)
      requires Known(orders, contacts)
      modifies `contacts
      ensures Known(orders, contacts) && c in contacts
      ensures contacts == if c in old(contacts) then old(contacts) else old(contacts)[c := Metrics(0, 0, None)]
    {
      if c !in contacts { contacts := contacts[c := Metrics(0, 0, None)]; }
    }

    /** Only ever moves the date forward. */
    method MarkContactOrdered(c: nat, t: int)
      requires c in contacts
      modifies `contacts
      ensures contacts == old(contacts)[c := old(contacts)[c].(lastOrderedAt := Latest(old(contacts)[c].lastOrderedAt, t))]
    {
      var x := contacts[c];
      if x.lastOrderedAt.None? || x.lastOrderedAt.value < t {
        contacts := contacts[c := x.(lastOrderedAt := Some(t))];
      } else {
        assert contacts[c := x] == contacts;
      }
    }

    /**
     * Move the counters from what the order counted as to what it counts as now; only the
     * first `writes` of the updates land.
     */
    method ApplyContactOrderMetricDelta(before: Option<Order>, after: Order, writes: nat)
      requires before.Some? && before.value.contact.Some? ==> before.value.contact.value in contacts
      requires after.contact.Some? ==> after.contact.value in contacts
      modifies `contacts
      ensures contacts.Keys == old(contacts.Keys)
      ensures forall c :: c in contacts ==>
                && contacts[c].count == old(contacts)[c].count + CountOf(Landed(Moves(before, after), writes), c)
                && contacts[c].amount == old(contacts)[c].amount + AmountOf(Landed(Moves(before, after), writes), c)
                && contacts[c].lastOrderedAt == old(contacts)[c].lastOrderedAt
    {
      forall c: nat { LandedCases(before, after, writes, c); }
      var beforeCounted := before.Some? && IsCounted(before.value.status) && before.value.contact.Some?;
      var afterCounted := IsCounted(after.status) && after.contact.Some?;
      if beforeCounted && before.value.contact == after.contact && afterCounted {
        var delta := after.value - before.value.value;
        if delta != 0 && writes > 0 { Add(after.contact.value, 0, delta); }
      } else {
        TakeAndGive(before, beforeCounted, after, afterCounted, writes);
      }
    }

    /** From the old buyer to the new one, as far as the writes go. */
    method TakeAndGive(before: Option<Order>, beforeCounted: bool, after: Order, afterCounted: bool, writes: nat)
      requires beforeCounted <==> Taken(before) != []
      requires afterCounted <==> Given(after) != []
      requires beforeCounted ==> before.value.contact.value in contacts
      requires afterCounted ==> after.contact.value in contacts
      modifies `contacts
      ensures contacts.Keys == old(contacts.Keys)
      ensures forall c :: c in contacts ==>
                && contacts[c].count == old(contacts)[c].count + (if writes > 0 then -One(before, c) else 0)
                                        + (if writes > |Taken(before)| then One(Some(after), c) else 0)
                && contacts[c].amount == old(contacts)[c].amount + (if writes > 0 then -Worth(before, c) else 0)
                                         + (if writes > |Taken(before)| then Worth(Some(after), c) else 0)
                && contacts[c].lastOrderedAt == old(contacts)[c].lastOrderedAt
    {
      var left := writes;
      if beforeCounted {
        if left == 0 { return; }
        Add(before.value.contact.value, -1, -before.value.value);
        left := left - 1;
      }
      if afterCounted && left > 0 { Add(after.contact.value, 1, after.value); }
    }

    method Add(c: nat, count: int, amount: int)
      requires c in contacts
      modifies `contacts
      ensures contacts == old(contacts)[c := old(contacts)[c].(
                            count := old(contacts)[c].count + count, amount := old(contacts)[c].amount + amount)]
    {
      contacts := contacts[c := contacts[c].(count := contacts[c].count + count, amount := contacts[c].amount + amount)];
    }

    /** Insert at the event's status, or refresh everything but the status. */
    method UpsertOrder(e: Event)
      modifies `orders
      ensures orders == old(orders)[e.order := Order(
                          if e.order in old(orders) then old(orders)[e.order].status else Target(e.kind), Some(e.contact), e.value, e.time)]
    {
      var status := if e.order in orders then orders[e.order].status else Target(e.kind);
      orders := orders[e.order := Order(status, Some(e.contact), e.value, e.time)];
    }

    /** UPDATE ... WHERE status is lower. */
    method AdvanceStatus(k: nat, target: Status)
      requires k in orders
      modifies `orders
      ensures orders == old(orders)[k := old(orders)[k].(status := Further(old(orders)[k].status, target))]
    {
      if orders[k].status in LowerStatuses(target) {
        orders := orders[k := orders[k].(status := target)];
      } else {
        assert orders == orders[k := orders[k]];
      }
    }

    /** The buyer's row exists and carries the order date. */
    method TouchContact(e: Event)
      requires Known(orders, contacts)
      modifies `contacts
      ensures Known(orders, contacts) && e.contact in contacts && SameDebts(orders, old(contacts), contacts)
      ensures forall c: nat :: DateOf(contacts, c) == Marked(DateOf(old(contacts), c), e, c)
    {
      UpsertContact(e.contact);
      if MarkLands(e) && !e.kind.Create? { MarkContactOrdered(e.contact, e.time); }
      UpsertKeepsDebts(orders, old(contacts), contacts);
    }

    /** Upsert, then advance the status if it is lower; a created order leaves the status alone. */
    method SaveOrder(e: Event)
      modifies `orders
      ensures orders == old(orders)[e.order := Saved(Lookup(old(orders), e.order), e)]
    {
      UpsertOrder(e);
      if !e.kind.Create? { AdvanceStatus(e.order, Target(e.kind)); }
      assert orders == old(orders)[e.order := orders[e.order]];
    }

    /** Move the counters by what the event made of its order. */
    method CountOrder(e: Event, existing: Option<Order>, finalStatus: Status, ghost was: map<nat, Order>)
      requires Known(was, contacts) && e.contact in contacts && existing == Lookup(was, e.order)
      requires orders == was[e.order := Saved(existing, e)] && finalStatus == Saved(existing, e).status
      modifies `contacts
      ensures Known(orders, contacts) && DebtsGrow(was, old(contacts), e, orders, contacts)
      ensures forall c: nat :: DateOf(contacts, c) == DateOf(old(contacts), c)
    {
      ApplyContactOrderMetricDelta(existing, Order(finalStatus, Some(e.contact), e.value, e.time), e.writes);
      DebtsAfter(was, old(contacts), e, contacts);
    }

    /** Paid, shipped and backfilled orders. `first` says the purchase record is to be attempted. */
    method HandleOrder(e: Event) returns (first: bool)
      requires Known(orders, contacts) && !e.kind.Create?
      modifies this
      ensures Known(orders, contacts)
      ensures orders == old(orders)[e.order := Saved(Lookup(old(orders), e.order), e)]
      ensures orders[e.order].status == if e.kind.Ship? || Was(old(orders), e.order, Shipped) then Shipped else Paid
      ensures orders[e.order].contact == Some(e.contact) && orders[e.order].value == e.value && orders[e.order].time == e.time
      ensures DebtsGrow(old(orders), old(contacts), e, orders, contacts)
      ensures forall c: nat :: DateOf(contacts, c) == Marked(DateOf(old(contacts), c), e, c)
      ensures DateOf(contacts, e.contact) == var was := DateOf(old(contacts), e.contact);
                if !e.marked && !e.kind.Backfill? then was else if was.None? then Some(e.time) else Some(Max(was.value, e.time))
      ensures forall c: nat :: c != e.contact ==> DateOf(contacts, c) == DateOf(old(contacts), c)
      ensures first <==> IsFirstPaid(Lookup(old(orders), e.order), e)
    {
      TouchContact(e);
      var existing := Lookup(orders, e.order);
      SaveOrder(e);
      var newStatus := Target(e.kind);
      var finalStatus := if existing.Some? && Rank(existing.value.status) > Rank(newStatus) then existing.value.status else newStatus;
      CountOrder(e, existing, finalStatus, old(orders));
      first := e.kind.Pay? && (existing.None? || existing.value.status == Pending) && e.attributed;
    }

    method HandleOrderCreated(e: Event)
      requires Known(orders, contacts) && e.kind.Create?
      modifies this
      ensures Known(orders, contacts)
      ensures orders == old(orders)[e.order := Saved(Lookup(old(orders), e.order), e)]
      ensures orders[e.order].status == if e.order in old(orders) then old(orders)[e.order].status else Pending
      ensures orders[e.order].contact == Some(e.contact) && orders[e.order].value == e.value && orders[e.order].time == e.time
      ensures DebtsGrow(old(orders), old(contacts), e, orders, contacts)
      ensures forall c: nat :: DateOf(contacts, c) == DateOf(old(contacts), c)
    {
      TouchContact(e);
      var existing := Lookup(orders, e.order);
      SaveOrder(e);
      CountOrder(e, existing, if existing.Some? then existing.value.status else Pending, old(orders));
    }

    /** One event of any kind. */
    method Handle(e: Event)
      requires Known(orders, contacts)
      modifies this
      ensures Known(orders, contacts)
      ensures orders == old(orders)[e.order := Saved(Lookup(old(orders), e.order), e)]
      ensures DebtsGrow(old(orders), old(contacts), e, orders, contacts)
      ensures forall c: nat :: DateOf(contacts, c) == Marked(DateOf(old(contacts), c), e, c)
    {
      if e.kind.Create? {
        HandleOrderCreated(e);
      } else {
        var _ := HandleOrder(e);
      }
    }

    /** A whole history, in the order the events are handled. */
    method HandleAll(events: seq<Event>)
      requires Known(orders, contacts)
      modifies this
      ensures Known(orders, contacts) && orders == Replay(old(orders), events)
      ensures forall k :: k in orders <==> k in old(orders) || HasEvent(events, k)
      ensures forall k :: k in orders ==> TellsOf(old(orders), events, k, orders[k])
      ensures forall c: nat ::
                && CountDebt(orders, contacts, c) == CountDebt(old(orders), old(contacts), c) + CountLost(old(orders), events, c)
                && AmountDebt(orders, contacts, c) == AmountDebt(old(orders), old(contacts), c) + AmountLost(old(orders), events, c)
      ensures forall c: nat :: DateOf(contacts, c) == LastMarked(DateOf(old(contacts), c), events, c)
      ensures Exact(old(orders), old(contacts)) ==>
                (Exact(orders, contacts) <==> LossesCancel(old(orders), events, contacts.Keys))
    {
      ghost var start, metrics := orders, contacts;
      for i := 0 to |events|
        invariant Known(orders, contacts) && orders == Replay(start, events[..i])
        invariant forall c: nat ::
                    && CountDebt(orders, contacts, c) == CountDebt(start, metrics, c) + CountLost(start, events[..i], c)
                    && AmountDebt(orders, contacts, c) == AmountDebt(start, metrics, c) + AmountLost(start, events[..i], c)
        invariant forall c: nat :: DateOf(contacts, c) == LastMarked(DateOf(metrics, c), events[..i], c)
      {
        assert events[..i + 1][..i] == events[..i];
        Handle(events[i]);
      }
      assert events[..|events|] == events;
      forall k: nat { HistoryTells(start, events, k); }
      if Exact(start, metrics) { ExactIffNothingLost(start, metrics, events, orders, contacts); }
    }
  }

  ghost predicate SameDebts(orders: map<nat, Order>, contacts: map<nat, Metrics>, contacts': map<nat, Metrics>) {
    forall c: nat ::
      && CountDebt(orders, contacts', c) == CountDebt(orders, contacts, c)
      && AmountDebt(orders, contacts', c) == AmountDebt(orders, contacts, c)
  }

  /** A new row and a moved date owe nothing. */
  lemma UpsertKeepsDebts(orders: map<nat, Order>, contacts: map<nat, Metrics>, contacts': map<nat, Metrics>)
    requires Known(orders, contacts) && contacts.Keys <= contacts'.Keys
    requires forall c :: c in contacts' ==>
               if c in contacts then contacts'[c].count == contacts[c].count && contacts'[c].amount == contacts[c].amount
               else contacts'[c].count == 0 && contacts'[c].amount == 0
    ensures SameDebts(orders, contacts, contacts')
  {
  }

  /** The write moves the summary by all its increments, the counters by those that land. */
  lemma DebtsAfter(orders: map<nat, Order>, contacts: map<nat, Metrics>, e: Event, contacts': map<nat, Metrics>)
    requires Known(orders, contacts) && e.contact in contacts && contacts'.Keys == contacts.Keys
    requires forall c :: c in contacts ==>
               && contacts'[c].count == contacts[c].count + CountOf(Landed(EventMoves(orders, e), e.writes), c)
               && contacts'[c].amount == contacts[c].amount + AmountOf(Landed(EventMoves(orders, e), e.writes), c)
    ensures DebtsGrow(orders, contacts, e, orders[e.order := Saved(Lookup(orders, e.order), e)], contacts')
  {
    var after := Saved(Lookup(orders, e.order), e);
    var moves := EventMoves(orders, e);
    forall c: nat
      ensures CountDebt(orders[e.order := after], contacts', c)
              == CountDebt(orders, contacts, c) + CountOf(Lost(moves, e.writes), c)
      ensures AmountDebt(orders[e.order := after], contacts', c)
              == AmountDebt(orders, contacts, c) + AmountOf(Lost(moves, e.writes), c)
    {
      TotalsMove(orders, e.order, after, c);
      MovesAddUp(Lookup(orders, e.order), after, c);
      LandedAndLost(moves, e.writes, c);
      if c !in contacts { NoMovesOf(orders, contacts, e, c); }
    }
  }

  /** A contact without a row is no buyer, before or after. */
  lemma NoMovesOf(orders: map<nat, Order>, contacts: map<nat, Metrics>, e: Event, c: nat)
    requires Known(orders, contacts) && e.contact in contacts && c !in contacts
    ensures CountOf(Landed(EventMoves(orders, e), e.writes), c) == 0 && AmountOf(Landed(EventMoves(orders, e), e.writes), c) == 0
  {
    var landed := Landed(EventMoves(orders, e), e.writes);
    assert forall i :: 0 <= i < |landed| ==> landed[i].contact in contacts;
    OthersUnmoved(landed, c);
  }

  lemma {:induction false} OthersUnmoved(moves: seq<Move>, c: nat)
    requires forall i :: 0 <= i < |moves| ==> moves[i].contact != c
    ensures CountOf(moves, c) == 0 && AmountOf(moves, c) == 0
  {
    if moves != [] { OthersUnmoved(moves[1..], c); }
  }

  // ---------------------------------------------------------------------------
  // Histories
  // ---------------------------------------------------------------------------

  function Replay(orders: map<nat, Order>, events: seq<Event>): map<nat, Order> {
    if events == [] then orders
    else
      var before := Replay(orders, events[..|events| - 1]);
      var e := events[|events| - 1];
      before[e.order := Saved(Lookup(before, e.order), e)]
  }

  /** What the events lost of a contact's counters. */
  function CountLost(orders: map<nat, Order>, events: seq<Event>, c: nat): int {
    if events == [] then 0
    else
      var init, e := events[..|events| - 1], events[|events| - 1];
      CountLost(orders, init, c) + CountOf(Lost(EventMoves(Replay(orders, init), e), e.writes), c)
  }

  function AmountLost(orders: map<nat, Order>, events: seq<Event>, c: nat): int {
    if events == [] then 0
    else
      var init, e := events[..|events| - 1], events[|events| - 1];
      AmountLost(orders, init, c) + AmountOf(Lost(EventMoves(Replay(orders, init), e), e.writes), c)
  }

  /** The order date a history leaves on a contact. */
  function LastMarked(was: Option<int>, events: seq<Event>, c: nat): Option<int> {
    if events == [] then was else Marked(LastMarked(was, events[..|events| - 1], c), events[|events| - 1], c)
  }

  /**
   * Main result: counters that were exact are exact after any history if and only if,
   * contact by contact, the updates it lost cancel out.
   */
  lemma ExactIffNothingLost(orders: map<nat, Order>, contacts: map<nat, Metrics>, events: seq<Event>,
                            orders': map<nat, Order>, contacts': map<nat, Metrics>)
    requires Known(orders, contacts) && Exact(orders, contacts)
    requires forall c: nat ::
               && CountDebt(orders', contacts', c) == CountDebt(orders, contacts, c) + CountLost(orders, events, c)
               && AmountDebt(orders', contacts', c) == AmountDebt(orders, contacts, c) + AmountLost(orders, events, c)
    ensures Exact(orders', contacts') <==> LossesCancel(orders, events, contacts'.Keys)
  {
    forall c | c in contacts'
      ensures CountDebt(orders', contacts', c) == CountLost(orders, events, c)
      ensures AmountDebt(orders', contacts', c) == AmountLost(orders, events, c)
    {
      if c !in contacts { assert CountedOrders(orders, c) == {}; }
    }
  }

  ghost predicate LossesCancel(orders: map<nat, Order>, events: seq<Event>, contacts: set<nat>) {
    forall c :: c in contacts ==> CountLost(orders, events, c) == 0 && AmountLost(orders, events, c) == 0
  }

  /** No event is cut short: all the updates it calls for land. */
  lemma {:induction false} NoCutLosesNothing(orders: map<nat, Order>, events: seq<Event>, c: nat)
    requires forall i :: 0 <= i < |events| ==> |EventMoves(Replay(orders, events[..i]), events[i])| <= events[i].writes
    ensures CountLost(orders, events, c) == 0 && AmountLost(orders, events, c) == 0
    decreases |events|
  {
    if events != [] {
      var n := |events| - 1;
      var init := events[..n];
      forall i | 0 <= i < n ensures |EventMoves(Replay(orders, init[..i]), init[i])| <= init[i].writes {
        assert init[..i] == events[..i];
      }
      NoCutLosesNothing(orders, init, c);
      assert |EventMoves(Replay(orders, init), events[n])| <= events[n].writes;
    }
  }

  /** Handling the same event again does not make up for what was lost: it calls for no update. */
  lemma RetryMovesNothing(orders: map<nat, Order>, e: Event)
    ensures EventMoves(orders[e.order := Saved(Lookup(orders, e.order), e)], e) == []
  {
  }

  // ---------------------------------------------------------------------------
  // What a history leaves, by the kinds of its events
  // ---------------------------------------------------------------------------

  /** The order was sent an event of this kind. */
  ghost predicate Got(events: seq<Event>, k: nat, kind: Kind) {
    exists i :: 0 <= i < |events| && events[i].order == k && events[i].kind == kind
  }

  /** Event `i` is the last of the order. */
  ghost predicate LastOf(events: seq<Event>, k: nat, i: nat) {
    i < |events| && events[i].order == k && forall j :: i < j < |events| ==> events[j].order != k
  }

  ghost predicate HasEvent(events: seq<Event>, k: nat) {
    exists i :: 0 <= i < |events| && events[i].order == k
  }

  lemma GotOneMore(events: seq<Event>, e: Event, k: nat, kind: Kind)
    ensures Got(events + [e], k, kind) <==> Got(events, k, kind) || (e.order == k && e.kind == kind)
    ensures HasEvent(events + [e], k) <==> HasEvent(events, k) || e.order == k
  {
    var all := events + [e];
    assert all[|events|] == e;
    assert forall i :: 0 <= i < |events| ==> all[i] == events[i];
    if Got(events, k, kind) {
      var i :| 0 <= i < |events| && events[i].order == k && events[i].kind == kind;
      assert all[i].order == k && all[i].kind == kind;
    }
    if HasEvent(events, k) {
      var i :| 0 <= i < |events| && events[i].order == k;
      assert all[i].order == k;
    }
  }

  /** The status of an order: as far as it was, or as its shipped, paid and backfill events say. */
  ghost predicate StatusByKinds(orders: map<nat, Order>, events: seq<Event>, k: nat, st: Status) {
    && (st == Shipped <==> Was(orders, k, Shipped) || Got(events, k, Ship))
    && (st == Paid <==>
          && !Was(orders, k, Shipped) && !Got(events, k, Ship)
          && (Was(orders, k, Paid) || Got(events, k, Pay) || Got(events, k, Backfill)))
  }

  predicate Was(orders: map<nat, Order>, k: nat, st: Status) { k in orders && orders[k].status == st }

  /** What an order has come to: the status its events say, and all else as its last event has it. */
  ghost predicate TellsOf(orders: map<nat, Order>, events: seq<Event>, k: nat, o: Order) {
    && StatusByKinds(orders, events, k, o.status)
    && (!HasEvent(events, k) ==> k in orders && o == orders[k])
    && forall i: nat :: LastOf(events, k, i) ==> o.contact == Some(events[i].contact) && o.value == events[i].value && o.time == events[i].time
  }

  /** One order after one more event. */
  lemma TellsOneMore(orders: map<nat, Order>, events: seq<Event>, before: map<nat, Order>, e: Event, k: nat)
    requires k in before <==> k in orders || HasEvent(events, k)
    requires k in before ==> TellsOf(orders, events, k, before[k])
    ensures var after := before[e.order := Saved(Lookup(before, e.order), e)];
      && (k in after <==> k in orders || HasEvent(events + [e], k))
      && (k in after ==> TellsOf(orders, events + [e], k, after[k]))
  {
    var all := events + [e];
    GotOneMore(events, e, k, Ship);
    GotOneMore(events, e, k, Pay);
    GotOneMore(events, e, k, Backfill);
    assert all[|events|] == e;
    forall i: nat | LastOf(all, k, i) && e.order != k ensures LastOf(events, k, i) {
      assert forall j :: 0 <= j < |events| ==> all[j] == events[j];
    }
    if k !in before { NoneGot(events, k); }
  }

  lemma NoneGot(events: seq<Event>, k: nat)
    requires !HasEvent(events, k)
    ensures forall kind :: !Got(events, k, kind)
  {
  }

  /**
   * Main result: whatever the history, an order is shipped exactly when it was or a shipped
   * event of it came, paid exactly when neither holds and it was or was paid or backfilled,
   * and pending otherwise; its buyer, value and date are those of its last event.
   */
  lemma {:induction false} HistoryTells(orders: map<nat, Order>, events: seq<Event>, k: nat)
    ensures k in Replay(orders, events) <==> k in orders || HasEvent(events, k)
    ensures k in Replay(orders, events) ==> TellsOf(orders, events, k, Replay(orders, events)[k])
    decreases |events|
  {
    if events != [] {
      var init, e := events[..|events| - 1], events[|events| - 1];
      HistoryTells(orders, init, k);
      TellsOneMore(orders, init, Replay(orders, init), e, k);
      assert init + [e] == events;
    }
  }

  /** From empty tables. */
  lemma StatusFromKinds(events: seq<Event>, k: nat)
    ensures k in Replay(map[], events) <==> HasEvent(events, k)
    ensures k in Replay(map[], events) ==> var o := Replay(map[], events)[k];
      && (o.status == Shipped <==> Got(events, k, Ship))
      && (o.status == Paid <==> !Got(events, k, Ship) && (Got(events, k, Pay) || Got(events, k, Backfill)))
      && (o.status == Pending <==> forall i :: 0 <= i < |events| && events[i].order == k ==> events[i].kind == Create)
      && forall i: nat :: LastOf(events, k, i) ==>
           o.contact == Some(events[i].contact) && o.value == events[i].value && o.time == events[i].time
  {
    HistoryTells(map[], events, k);
    if k in Replay(map[], events) && !Got(events, k, Ship) && !Got(events, k, Pay) && !Got(events, k, Backfill) {
      forall i | 0 <= i < |events| && events[i].order == k ensures events[i].kind == Create {
        assert Got(events, k, events[i].kind);
      }
    }
  }

  /** The orders a contact's counters summarise: paid, shipped or backfilled ones whose last event names it. */
  lemma CountedByKinds(events: seq<Event>, k: nat, c: nat)
    ensures k in CountedOrders(Replay(map[], events), c) <==>
              && (Got(events, k, Pay) || Got(events, k, Ship) || Got(events, k, Backfill))
              && exists i: nat :: LastOf(events, k, i) && events[i].contact == c
  {
    StatusFromKinds(events, k);
    if HasEvent(events, k) { var i := LastExists(events, k); }
  }

  lemma {:induction false} LastExists(events: seq<Event>, k: nat) returns (i: nat)
    requires HasEvent(events, k)
    ensures LastOf(events, k, i)
  {
    var n := |events| - 1;
    if events[n].order == k {
      i := n;
    } else {
      var j :| 0 <= j < |events| && events[j].order == k;
      assert events[..n][j].order == k;
      i := LastExists(events[..n], k);
      assert forall j :: 0 <= j < n ==> events[..n][j] == events[j];
    }
  }

  /** `s` is the furthest status any event of the order calls for. */
  ghost predicate FurthestOf(events: seq<Event>, k: nat, s: Status) {
    && (exists i :: 0 <= i < |events| && events[i].order == k && Target(events[i].kind) == s)
    && (forall i :: 0 <= i < |events| && events[i].order == k ==> Rank(Target(events[i].kind)) <= Rank(s))
  }

  /** The status of an order is the furthest any of its events called for. */
  lemma {:induction false} StatusIsFurthest(events: seq<Event>, k: nat)
    ensures k in Replay(map[], events) <==> exists i :: 0 <= i < |events| && events[i].order == k
    ensures k in Replay(map[], events) ==> FurthestOf(events, k, Replay(map[], events)[k].status)
    decreases |events|
  {
    if events != [] {
      var n := |events| - 1;
      var init := events[..n];
      StatusIsFurthest(init, k);
      assert forall i :: 0 <= i < n ==> init[i] == events[i];
      if k in Replay(map[], init) {
        var i :| 0 <= i < |init| && init[i].order == k && Target(init[i].kind) == Replay(map[], init)[k].status;
        assert events[i].order == k;
      }
    }
  }

  /** Which orders were sent which kinds of events, whatever else the events said. */
  function Calls(events: seq<Event>): set<(nat, Kind)> { set e | e in events :: (e.order, e.kind) }

  /** Main result: neither the order of events nor their repetition changes any final status. */
  lemma StatusesConverge(a: seq<Event>, b: seq<Event>, k: nat)
    requires Calls(a) == Calls(b)
    ensures k in Replay(map[], a) <==> k in Replay(map[], b)
    ensures k in Replay(map[], a) ==> Replay(map[], a)[k].status == Replay(map[], b)[k].status
  {
    StatusIsFurthest(a, k);
    StatusIsFurthest(b, k);
    SameFurthest(a, b, k);
    SameFurthest(b, a, k);
  }

  lemma SameFurthest(a: seq<Event>, b: seq<Event>, k: nat)
    requires Calls(a) <= Calls(b)
    ensures (exists i :: 0 <= i < |a| && a[i].order == k) ==> exists i :: 0 <= i < |b| && b[i].order == k
    ensures forall s, t :: FurthestOf(a, k, s) && FurthestOf(b, k, t) ==> Rank(s) <= Rank(t)
  {
    forall i | 0 <= i < |a| ensures exists j :: 0 <= j < |b| && b[j].order == a[i].order && b[j].kind == a[i].kind {
      assert (a[i].order, a[i].kind) in Calls(a);
      var e :| e in b && (e.order, e.kind) == (a[i].order, a[i].kind);
    }
  }

  /** Statuses never go back along a history. */
  lemma {:induction false} StatusNeverFalls(orders: map<nat, Order>, events: seq<Event>, k: nat)
    requires k in orders
    ensures k in Replay(orders, events) && Rank(Replay(orders, events)[k].status) >= Rank(orders[k].status)
    decreases |events|
  {
    if events != [] { StatusNeverFalls(orders, events[..|events| - 1], k); }
  }

  // ---------------------------------------------------------------------------
  // The purchase record
  // ---------------------------------------------------------------------------

  /** The first paid transition, of an order one of our mails brought in. */
  predicate IsFirstPaid(before: Option<Order>, e: Event) {
    e.kind.Pay? && (before.None? || before.value.status == Pending) && e.attributed
  }

  /** Attempts to record the purchase of order `k`. */
  function Purchases(orders: map<nat, Order>, events: seq<Event>, k: nat): nat {
    if events == [] then 0
    else
      var before := Replay(orders, events[..|events| - 1]);
      var e := events[|events| - 1];
      Purchases(orders, events[..|events| - 1], k) + (if e.order == k && IsFirstPaid(Lookup(before, k), e) then 1 else 0)
  }

  /** An attributed paid webhook of the order came before every other event that counts as paid. */
  ghost predicate PaidCameFirst(orders: map<nat, Order>, events: seq<Event>, k: nat) {
    && (k in orders ==> orders[k].status == Pending)
    && exists i :: 0 <= i < |events| && events[i].order == k && events[i].kind.Pay? && events[i].attributed
         && forall j :: 0 <= j < i && events[j].order == k ==> events[j].kind.Create?
  }

  lemma {:induction false} PendingMeansOnlyCreated(orders: map<nat, Order>, events: seq<Event>, k: nat)
    ensures (k in Replay(orders, events) ==> Replay(orders, events)[k].status == Pending)
            <==> (k in orders ==> orders[k].status == Pending) && forall j :: 0 <= j < |events| && events[j].order == k ==> events[j].kind.Create?
    decreases |events|
  {
    if events != [] {
      var n := |events| - 1;
      PendingMeansOnlyCreated(orders, events[..n], k);
      assert forall j :: 0 <= j < n ==> events[..n][j] == events[j];
    }
  }

  /** The last event of a history is the one that records, or an earlier one is. */
  lemma LastOrEarlier(orders: map<nat, Order>, events: seq<Event>, k: nat)
    requires events != []
    ensures var n := |events| - 1;
      PaidCameFirst(orders, events, k) <==>
        || PaidCameFirst(orders, events[..n], k)
        || ((k in orders ==> orders[k].status == Pending) && events[n].order == k && events[n].kind.Pay? && events[n].attributed
            && forall j :: 0 <= j < n && events[j].order == k ==> events[j].kind.Create?)
  {
    var n := |events| - 1;
    var init := events[..n];
    assert forall j :: 0 <= j < n ==> init[j] == events[j];
    if PaidCameFirst(orders, init, k) {
      var i :| 0 <= i < |init| && init[i].order == k && init[i].kind.Pay? && init[i].attributed
               && forall j :: 0 <= j < i && init[j].order == k ==> init[j].kind.Create?;
      assert events[i] == init[i];
    }
    if PaidCameFirst(orders, events, k) {
      var i :| 0 <= i < |events| && events[i].order == k && events[i].kind.Pay? && events[i].attributed
               && forall j :: 0 <= j < i && events[j].order == k ==> events[j].kind.Create?;
      if i < n { assert init[i] == events[i]; }
    }
  }

  /**
   * The purchase of an order is attempted at most once, and exactly when an attributed paid
   * webhook is the first of its events to count: an order shipped or backfilled first, or
   * first paid without attribution, never records one.
   */
  lemma {:induction false} PurchaseOnce(orders: map<nat, Order>, events: seq<Event>, k: nat)
    ensures Purchases(orders, events, k) == if PaidCameFirst(orders, events, k) then 1 else 0
    decreases |events|
  {
    if events != [] {
      var init := events[..|events| - 1];
      PurchaseOnce(orders, init, k);
      PendingMeansOnlyCreated(orders, init, k);
      LastOrEarlier(orders, events, k);
      assert forall j :: 0 <= j < |init| ==> init[j] == events[j];
      if PaidCameFirst(orders, init, k) { SomePaid(orders, init, k); }
    }
  }

  /** Where a paid webhook came first not all events are creations. */
  lemma SomePaid(orders: map<nat, Order>, events: seq<Event>, k: nat)
    requires PaidCameFirst(orders, events, k)
    ensures exists j :: 0 <= j < |events| && events[j].order == k && !events[j].kind.Create?
  {
  }
}
