/**
 * Segment definitions: what a rule means for a contact, and the compiler that splits a rule
 * list into SQL predicates on the contact row and constraints answered by other stores.
 * SQL predicates are three-valued: a contact without the attribute is selected neither by
 * `field = v` nor by its negation.
 */
module SegmentRules {
  import opened Common

  const DAY_MS := 86_400_000

  datatype Field = Country | State | City | Language | Gender
  datatype Metric = OrderCount | OrderAmount
  datatype Comparison = AtLeast | AtMost | Exactly
  datatype MailKind = Open | Click
  datatype TagOp = HasAny | HasAll | NotHasAny

  datatype Contact = Contact(
    tenant: nat, attributes: map<Field, string>, subscription: nat, lists: set<nat>, tags: set<nat>,
    createdAt: int, lastOrderedAt: Option<int>, orderCount: int, orderAmount: int)

  datatype MailEvent = MailEvent(
    tenant: nat, contact: Option<nat>, recipient: Option<nat>, kind: MailKind, campaign: nat, time: int, bot: bool)
  datatype SiteEvent = SiteEvent(tenant: nat, contact: nat, kind: nat, campaign: Option<nat>, time: int, bot: bool)
  datatype Order = Order(tenant: nat, contact: Option<nat>, counted: bool, time: int)
  datatype Link = Link(tenant: nat, contact: nat)

  /** The stores a segment reads; `hot` and `cold` map campaign recipients to contacts. */
  datatype Store = Store(
    contacts: map<nat, Contact>, mail: seq<MailEvent>, site: seq<SiteEvent>, orders: seq<Order>,
    hot: map<nat, Link>, cold: map<nat, Link>)

  datatype Rule =
    | AttributeIs(field: Field, negated: bool, value: string)
    | AttributeIn(field: Field, negated: bool, values: set<string>)
    | Subscription(status: nat)
    | Lists(negated: bool, lists: set<nat>)
    | Tags(op: TagOp, tags: seq<nat>)
    | CreatedLastDays(days: nat)
    | CreatedBetween(from: Option<int>, to: Option<int>)
    | Mail(has: bool, kind: MailKind, campaign: Option<nat>, lastDays: nat)
    | Ordered(has: bool, lastDays: nat, from: Option<int>, to: Option<int>)
    | OrderMetric(metric: Metric, comparison: Comparison, amount: int)
    | Site(has: bool, site: nat, lastDays: nat, minCount: Option<nat>, campaign: Option<nat>)

  // ---------------------------------------------------------------------------
  // What a rule means
  // ---------------------------------------------------------------------------

  /** Recipient `r` was a message to contact `c`, by the live table or the archive. */
  predicate Resolves(db: Store, tenant: nat, r: nat, c: nat) {
    || (r in db.hot && db.hot[r] == Link(tenant, c))
    || (r in db.cold && db.cold[r] == Link(tenant, c))
  }

  /**
   * The contact opened or clicked, itself and not a bot, since then and, if a campaign is
   * asked for, in that one: named by the event, or through its recipient.
   */
  predicate DidMail(db: Store, tenant: nat, c: nat, kind: MailKind, campaign: Option<nat>, since: int) {
    exists k :: 0 <= k < |db.mail| && Reports(db.mail[k], tenant, kind, campaign, since)
                && (db.mail[k].contact == Some(c)
                    || (db.mail[k].recipient.Some? && Resolves(db, tenant, db.mail[k].recipient.value, c)))
  }

  predicate Reports(e: MailEvent, tenant: nat, kind: MailKind, campaign: Option<nat>, since: int) {
    !e.bot && e.tenant == tenant && e.kind == kind && since <= e.time && (campaign == None || campaign == Some(e.campaign))
  }

  /** The contact's visits of a kind since then, by place in the store; bots do not visit. */
  function VisitsOf(site: seq<SiteEvent>, tenant: nat, c: nat, kind: nat, campaign: Option<nat>, since: int): set<nat> {
    set k: nat | k < |site| && !site[k].bot && site[k].tenant == tenant && site[k].contact == c && site[k].kind == kind
                 && since <= site[k].time && (campaign == None || campaign == site[k].campaign)
  }

  /** The contact has a paid or shipped order in the window, its ends included. */
  predicate BoughtWithin(db: Store, tenant: nat, c: nat, from: int, to: int) {
    exists k :: 0 <= k < |db.orders| && db.orders[k].tenant == tenant && db.orders[k].contact == Some(c)
                && db.orders[k].counted && from <= db.orders[k].time <= to
  }

  /** The contact meets the rule. */
  predicate Satisfies(db: Store, now: int, r: Rule, c: nat)
    requires c in db.contacts
  {
    var x := db.contacts[c];
    match r
    case AttributeIs(f, negated, v) => f in x.attributes && (negated <==> x.attributes[f] != v)
    case AttributeIn(f, negated, vs) => f in x.attributes && (negated <==> x.attributes[f] !in vs)
    case Subscription(status) => x.subscription == status
    case Lists(negated, lists) => negated <==> x.lists * lists == {}
    case Tags(op, tags) =>
      match op {
        case HasAny => exists t :: t in tags && t in x.tags
        case HasAll => forall t :: t in tags ==> t in x.tags
        case NotHasAny => forall t :: t in tags ==> t !in x.tags
      }
    case CreatedLastDays(days) => now - x.createdAt <= days * 86_400_000
    case CreatedBetween(from, to) =>
      (from.Some? ==> from.value <= x.createdAt) && (to.Some? ==> x.createdAt <= to.value)
    case Mail(has, kind, campaign, days) => has <==> DidMail(db, x.tenant, c, kind, campaign, now - days * 86_400_000)
    case Ordered(has, days, from, to) =>
      if from.Some? && to.Some? then has <==> BoughtWithin(db, x.tenant, c, from.value, to.value)
      else has <==> x.lastOrderedAt.Some? && (days > 0 ==> now - x.lastOrderedAt.value <= days * 86_400_000)
    case OrderMetric(metric, comparison, value) =>
      var n := match metric case OrderCount => x.orderCount case OrderAmount => x.orderAmount;
      (n < value ==> comparison.AtMost?) && (n > value ==> comparison.AtLeast?)
    case Site(has, kind, days, minCount, campaign) =>
      var n := |VisitsOf(db.site, x.tenant, c, kind, campaign, now - days * 86_400_000)|;
      has <==> n > 0 && (minCount.Some? ==> n >= minCount.value)
  }

  predicate SatisfiesAll(db: Store, now: int, rules: seq<Rule>, c: nat)
    requires c in db.contacts
  {
    forall k :: 0 <= k < |rules| ==> Satisfies(db, now, rules[k], c)
  }

  /** The segment: the tenant's contacts that meet every rule. */
  function Segment(db: Store, tenant: nat, now: int, rules: seq<Rule>): set<nat> {
    set c | c in db.contacts && db.contacts[c].tenant == tenant && SatisfiesAll(db, now, rules, c)
  }

  // ---------------------------------------------------------------------------
  // SQL predicates
  // ---------------------------------------------------------------------------

  function Since(now: int, days: nat): int { now - days * DAY_MS }

  predicate Compares(x: int, comparison: Comparison, value: int) {
    match comparison
    case AtLeast => x >= value
    case AtMost => x <= value
    case Exactly => x == value
  }

  datatype Truth = True | False | Unknown

  function Known(b: bool): Truth { if b then True else False }

  datatype Where =
    | FieldEq(field: Field, value: string)
    | FieldIn(field: Field, values: set<string>)
    | SubscriptionIs(status: nat)
    | InLists(lists: set<nat>)
    | TaggedIn(tags: set<nat>)
    | CreatedIn(from: Option<int>, to: Option<int>)
    | OrderedFrom(since: int)
    | OrderedBefore(since: int)
    | OrderedIsNull
    | MetricIs(metric: Metric, comparison: Comparison, amount: int)
    | Not(arg: Where)
    | Or(left: Where, right: Where)

  function Eval(w: Where, x: Contact): Truth {
    match w
    case FieldEq(f, v) => if f in x.attributes then Known(x.attributes[f] == v) else Unknown
    case FieldIn(f, vs) => if f in x.attributes then Known(x.attributes[f] in vs) else Unknown
    case SubscriptionIs(status) => Known(x.subscription == status)
    case InLists(lists) => Known(x.lists * lists != {})
    case TaggedIn(tags) => Known(x.tags * tags != {})
    case CreatedIn(from, to) => Known((from.Some? ==> x.createdAt >= from.value) && (to.Some? ==> x.createdAt <= to.value))
    case OrderedFrom(since) => if x.lastOrderedAt.Some? then Known(x.lastOrderedAt.value >= since) else Unknown
    case OrderedBefore(since) => if x.lastOrderedAt.Some? then Known(x.lastOrderedAt.value < since) else Unknown
    case OrderedIsNull => Known(x.lastOrderedAt.None?)
    case MetricIs(metric, comparison, value) =>
      Known(Compares(if metric.OrderCount? then x.orderCount else x.orderAmount, comparison, value))
    case Not(arg) => (match Eval(arg, x) case True => False case False => True case Unknown => Unknown)
    case Or(left, right) =>
      if Eval(left, x).True? || Eval(right, x).True? then True
      else if Eval(left, x).False? && Eval(right, x).False? then False
      else Unknown
  }

  lemma NotMeans(w: Where)
    ensures forall x :: Eval(Not(w), x).True? <==> Eval(w, x).False?
  {
  }

  lemma OrMeans(l: Where, r: Where)
    ensures forall x :: Eval(Or(l, r), x).True? <==> Eval(l, x).True? || Eval(r, x).True?
  {
  }

  /** A row passes an AND list when every clause is true of it. */
  predicate Passes(clauses: seq<Where>, x: Contact) { forall w :: w in clauses ==> Eval(w, x).True? }

  // ---------------------------------------------------------------------------
  // Compiler
  // ---------------------------------------------------------------------------

  datatype Constraint =
    | MailConstraint(has: bool, kind: MailKind, campaign: Option<nat>, since: int)
    | OrderConstraint(has: bool, from: int, to: int)
    | SiteConstraint(has: bool, site: nat, since: int, minCount: nat, campaign: Option<nat>)

  datatype Compiled = Compiled(
    clauses: seq<Where>, mail: seq<Constraint>, orders: seq<Constraint>, site: seq<Constraint>)

  predicate MailMatches(e: MailEvent, tenant: nat, kind: MailKind, campaign: Option<nat>, since: int) {
    e.tenant == tenant && e.kind == kind && e.time >= since && !e.bot && (campaign.Some? ==> e.campaign == campaign.value)
  }

  predicate VisitMatches(e: SiteEvent, tenant: nat, c: nat, kind: nat, campaign: Option<nat>, since: int) {
    e.tenant == tenant && e.contact == c && e.kind == kind && e.time >= since && !e.bot && (campaign.Some? ==> e.campaign == campaign)
  }

  /** COUNT of a contact's group. */
  function Visits(site: seq<SiteEvent>, tenant: nat, c: nat, kind: nat, campaign: Option<nat>, since: int): nat {
    if site == [] then 0
    else Visits(site[..|site| - 1], tenant, c, kind, campaign, since)
         + (if VisitMatches(site[|site| - 1], tenant, c, kind, campaign, since) then 1 else 0)
  }

  lemma {:induction false} VisitsCount(site: seq<SiteEvent>, tenant: nat, c: nat, kind: nat, campaign: Option<nat>, since: int)
    ensures Visits(site, tenant, c, kind, campaign, since) == |VisitsOf(site, tenant, c, kind, campaign, since)|
  {
    if site != [] {
      var n := |site| - 1;
      VisitsCount(site[..n], tenant, c, kind, campaign, since);
      assert VisitsOf(site, tenant, c, kind, campaign, since)
          == VisitsOf(site[..n], tenant, c, kind, campaign, since)
             + (if VisitMatches(site[n], tenant, c, kind, campaign, since) then {n} else {});
    }
  }

  /** Visits are grouped by contact, so a group has at least one. */
  function Threshold(minCount: nat): nat { if minCount == 0 then 1 else minCount }

  /** Contacts that did what the constraint asks about. */
  predicate Did(db: Store, tenant: nat, k: Constraint, c: nat) {
    match k
    case MailConstraint(_, kind, campaign, since) => DidMail(db, tenant, c, kind, campaign, since)
    case OrderConstraint(_, from, to) => BoughtWithin(db, tenant, c, from, to)
    case SiteConstraint(_, kind, since, minCount, campaign) => Visits(db.site, tenant, c, kind, campaign, since) >= Threshold(minCount)
  }

  predicate Meets(db: Store, tenant: nat, ks: seq<Constraint>, c: nat) {
    forall k :: k in ks ==> (k.has <==> Did(db, tenant, k, c))
  }

  /** The compiled form accepts the contact. */
  predicate Accepts(db: Store, tenant: nat, p: Compiled, c: nat)
    requires c in db.contacts
  {
    Passes(p.clauses, db.contacts[c]) && Meets(db, tenant, p.mail, c) && Meets(db, tenant, p.orders, c) && Meets(db, tenant, p.site, c)
  }

  lemma MeetsOneMore(ks: seq<Constraint>, k: Constraint)
    ensures forall db: Store, tenant: nat, c :: Meets(db, tenant, ks + [k], c) <==>
              Meets(db, tenant, ks, c) && (k.has <==> Did(db, tenant, k, c))
  {
  }

  function TagSet(tags: seq<nat>): set<nat> { set t | t in tags }

  lemma SharesTag(tags: seq<nat>, own: set<nat>)
    ensures own * TagSet(tags) != {} <==> exists t :: t in tags && t in own
  {
    if t :| t in tags && t in own { assert t in own * TagSet(tags); }
  }

  lemma TagClauseMeans(tags: seq<nat>)
    ensures forall x :: Eval(TaggedIn(TagSet(tags)), x) == Known(exists t :: t in tags && t in x.tags)
  {
    forall x ensures Eval(TaggedIn(TagSet(tags)), x) == Known(exists t :: t in tags && t in x.tags) {
      SharesTag(tags, x.tags);
    }
  }

  lemma OneTagMeans(tag: nat)
    ensures forall x :: Eval(TaggedIn({tag}), x).True? <==> tag in x.tags
  {
    forall x ensures Eval(TaggedIn({tag}), x).True? <==> tag in x.tags {
      if tag in x.tags { assert tag in x.tags * {tag}; }
    }
  }

  /** `q` accepts what `p` accepts and the rule allows. */
  ghost predicate Narrows(p: Compiled, r: Rule, now: int, q: Compiled) {
    forall db: Store, c :: c in db.contacts ==>
      (Accepts(db, db.contacts[c].tenant, q, c) <==>
       Accepts(db, db.contacts[c].tenant, p, c) && Satisfies(db, now, r, c))
  }

  method CompileRule(r: Rule, now: int, p: Compiled) returns (q: Compiled)
    ensures Narrows(p, r, now, q)
  {
    if r.Mail? || r.Site? {
      q := CompileActivity(r, now, p);
    } else if r.Tags? {
      q := CompileTags(r.op, r.tags, p, now);
    } else if r.Ordered? {
      q := CompileOrdered(r.has, r.lastDays, r.from, r.to, now, p);
    } else {
      var w := ClauseOf(r, now);
      q := AddClause(p, w);
    }
  }

  /** Rules on the contact row alone. */
  method ClauseOf(r: Rule, now: int) returns (w: Where)
    requires !r.Mail? && !r.Site? && !r.Tags? && !r.Ordered?
    ensures forall db: Store, c :: c in db.contacts ==> (Eval(w, db.contacts[c]).True? <==> Satisfies(db, now, r, c))
  {
    match r {
      case AttributeIs(f, negated, v) =>
        NotMeans(FieldEq(f, v));
        w := if negated then Not(FieldEq(f, v)) else FieldEq(f, v);
      case AttributeIn(f, negated, vs) =>
        NotMeans(FieldIn(f, vs));
        w := if negated then Not(FieldIn(f, vs)) else FieldIn(f, vs);
      case Subscription(status) => w := SubscriptionIs(status);
      case Lists(negated, lists) =>
        NotMeans(InLists(lists));
        w := if negated then Not(InLists(lists)) else InLists(lists);
      case CreatedLastDays(days) => w := CreatedIn(Some(Since(now, days)), None);
      case CreatedBetween(from, to) => w := CreatedIn(from, to);
      case OrderMetric(metric, comparison, amount) => w := MetricIs(metric, comparison, amount);
    }
  }

  lemma SiteMeans(r: Rule, now: int)
    requires r.Site?
    ensures forall db: Store, c :: c in db.contacts ==>
              (Satisfies(db, now, r, c) <==>
               (r.has <==> Visits(db.site, db.contacts[c].tenant, c, r.site, r.campaign, Since(now, r.lastDays))
                           >= Threshold(if r.minCount.Some? then r.minCount.value else 1)))
  {
    forall db: Store, c | c in db.contacts {
      VisitsCount(db.site, db.contacts[c].tenant, c, r.site, r.campaign, Since(now, r.lastDays));
    }
  }

  /** Opens, clicks and storefront behaviour live in another store. */
  method CompileActivity(r: Rule, now: int, p: Compiled) returns (q: Compiled)
    requires r.Mail? || r.Site?
    ensures Narrows(p, r, now, q)
  {
    match r {
      case Mail(has, kind, campaign, days) =>
        var k := MailConstraint(has, kind, campaign, Since(now, days));
        MeetsOneMore(p.mail, k);
        q := p.(mail := p.mail + [k]);
      case Site(has, kind, days, minCount, campaign) =>
        var k := SiteConstraint(has, kind, Since(now, days), if minCount.Some? then minCount.value else 1, campaign);
        MeetsOneMore(p.site, k);
        SiteMeans(r, now);
        q := p.(site := p.site + [k]);
    }
  }

  method AddClause(p: Compiled, w: Where) returns (q: Compiled)
    ensures q == p.(clauses := p.clauses + [w])
    ensures forall x :: Passes(q.clauses, x) <==> Passes(p.clauses, x) && Eval(w, x).True?
  {
    q := p.(clauses := p.clauses + [w]);
    assert forall x :: Passes(q.clauses, x) ==> Eval(w, x).True? by { assert w in q.clauses; }
  }

  /** hasAll ANDs one "some tag is t" for each tag. */
  method CompileTags(op: TagOp, tags: seq<nat>, p: Compiled, ghost now: int) returns (q: Compiled)
    ensures Narrows(p, Tags(op, tags), now, q)
  {
    TagClauseMeans(tags);
    NotMeans(TaggedIn(TagSet(tags)));
    match op {
      case HasAny => q := AddClause(p, TaggedIn(TagSet(tags)));
      case NotHasAny => q := AddClause(p, Not(TaggedIn(TagSet(tags))));
      case HasAll => q := CompileEveryTag(tags, p, now);
    }
  }

  /** One clause per tag. */
  method CompileEveryTag(tags: seq<nat>, p: Compiled, ghost now: int) returns (q: Compiled)
    ensures Narrows(p, Tags(HasAll, tags), now, q)
  {
    q := p;
    for i := 0 to |tags|
      invariant q.mail == p.mail && q.orders == p.orders && q.site == p.site
      invariant forall x :: Passes(q.clauses, x) <==> Passes(p.clauses, x) && forall t :: t in tags[..i] ==> t in x.tags
    {
      OneTagMeans(tags[i]);
      q := AddClause(q, TaggedIn({tags[i]}));
      assert tags[..i + 1] == tags[..i] + [tags[i]];
    }
    assert tags[..|tags|] == tags;
  }

  method CompileOrdered(has: bool, days: nat, from: Option<int>, to: Option<int>, now: int, p: Compiled) returns (q: Compiled)
    ensures Narrows(p, Ordered(has, days, from, to), now, q)
  {
    if from.Some? && to.Some? {
      q := CompileOrderWindow(has, days, from.value, to.value, now, p);
    } else {
      var w := OrderClause(has, days, from, to, now);
      q := AddClause(p, w);
    }
  }

  /** A fixed window is looked up among the orders. */
  method CompileOrderWindow(has: bool, days: nat, from: int, to: int, ghost now: int, p: Compiled) returns (q: Compiled)
    ensures Narrows(p, Ordered(has, days, Some(from), Some(to)), now, q)
  {
    var k := OrderConstraint(has, from, to);
    MeetsOneMore(p.orders, k);
    q := p.(orders := p.orders + [k]);
  }

  /** Anything else reads the column of the latest paid order. */
  method OrderClause(has: bool, days: nat, from: Option<int>, to: Option<int>, now: int) returns (w: Where)
    requires from.None? || to.None?
    ensures forall db: Store, c :: c in db.contacts ==>
              (Eval(w, db.contacts[c]).True? <==> Satisfies(db, now, Ordered(has, days, from, to), c))
  {
    NotMeans(OrderedIsNull);
    OrMeans(OrderedIsNull, OrderedBefore(Since(now, days)));
    if has {
      w := if days > 0 then OrderedFrom(Since(now, days)) else Not(OrderedIsNull);
    } else {
      w := if days > 0 then Or(OrderedIsNull, OrderedBefore(Since(now, days))) else OrderedIsNull;
    }
  }

  /** The compiler keeps the meaning of every rule list, on every store. */
  method CompileSegment(rules: seq<Rule>, now: int) returns (p: Compiled)
    ensures forall db: Store, c :: c in db.contacts ==>
              (Accepts(db, db.contacts[c].tenant, p, c) <==> SatisfiesAll(db, now, rules, c))
  {
    p := Compiled([], [], [], []);
    for i := 0 to |rules|
      invariant forall db: Store, c :: c in db.contacts ==>
                  (Accepts(db, db.contacts[c].tenant, p, c) <==> SatisfiesAll(db, now, rules[..i], c))
    {
      p := CompileRule(rules[i], now, p);
      assert rules[..i + 1] == rules[..i] + [rules[i]];
    }
    assert rules[..|rules|] == rules;
  }

  // ---------------------------------------------------------------------------
  // The order column
  // ---------------------------------------------------------------------------

  /** The column holds the time of the contact's latest counted order. */
  predicate ColumnFaithful(db: Store, c: nat)
    requires c in db.contacts
  {
    var x := db.contacts[c];
    && (forall k :: 0 <= k < |db.orders| && db.orders[k].tenant == x.tenant && db.orders[k].contact == Some(c) && db.orders[k].counted
          ==> x.lastOrderedAt.Some? && db.orders[k].time <= x.lastOrderedAt.value)
    && (x.lastOrderedAt.Some? ==> BoughtWithin(db, x.tenant, c, x.lastOrderedAt.value, x.lastOrderedAt.value))
  }

  /** Then a look-back rule says exactly "has a counted order since". */
  lemma LookBackMeansOrders(db: Store, now: int, has: bool, days: nat, c: nat)
    requires c in db.contacts && ColumnFaithful(db, c) && days > 0
    ensures Satisfies(db, now, Ordered(has, days, None, None), c) <==>
            (has <==> exists to :: BoughtWithin(db, db.contacts[c].tenant, c, Since(now, days), to))
  {
    var x := db.contacts[c];
    if x.lastOrderedAt.Some? && x.lastOrderedAt.value >= Since(now, days) {
      assert BoughtWithin(db, x.tenant, c, Since(now, days), x.lastOrderedAt.value);
    }
  }
}
