/**
 * Abandoned-order recalls: a created order schedules one delayed job per round; when the
 * job runs it looks at the order and, if that is still pending, creates a send row. Looking
 * and creating are separate database calls. What keeps recalls apart is the text of the
 * deduplication key, unique per automation in the outbox.
 */
module Recall {
  import opened Common
  import opened Orders

  // ---------------------------------------------------------------------------
  // Keys
  // ---------------------------------------------------------------------------

  function Decimal(n: nat): string {
    if n < 10 then ["0123456789"[n]] else Decimal(n / 10) + ["0123456789"[n % 10]]
  }

  /** The unique key of one round of one order. */
  function DedupKey(order: string, round: nat): string { "abandoned:order:" + order + ":r" + Decimal(round) }

  lemma {:induction false} DecimalDigits(n: nat)
    ensures forall i :: 0 <= i < |Decimal(n)| ==> '0' <= Decimal(n)[i] <= '9'
    ensures if n < 10 then |Decimal(n)| == 1 else |Decimal(n)| >= 2
  {
    if n >= 10 { DecimalDigits(n / 10); }
  }

  lemma DigitOf(a: nat, b: nat)
    requires a < 10 && b < 10 && "0123456789"[a] == "0123456789"[b]
    ensures a == b
  {
  }

  lemma {:induction false} DecimalInjective(a: nat, b: nat)
    requires Decimal(a) == Decimal(b)
    ensures a == b
    decreases a
  {
    DecimalDigits(a);
    DecimalDigits(b);
    var s, t := Decimal(a), Decimal(b);
    assert s[|s| - 1] == t[|t| - 1];
    DigitOf(a % 10, b % 10);
    if a >= 10 && b >= 10 {
      assert s[..|s| - 1] == Decimal(a / 10) && t[..|t| - 1] == Decimal(b / 10);
      DecimalInjective(a / 10, b / 10);
    }
  }

  /** Digits after the last `r` are the round, what precedes them the order. */
  lemma TailsAgree(p: string, d: string, q: string, f: string)
    requires p + "r" + d == q + "r" + f
    requires forall i :: 0 <= i < |d| ==> '0' <= d[i] <= '9'
    requires forall i :: 0 <= i < |f| ==> '0' <= f[i] <= '9'
    ensures p == q && d == f
  {
    var s := p + "r" + d;
    assert s[|p|] == 'r' && s[|q|] == 'r';
    assert forall i :: |p| < i < |s| ==> s[i] == d[i - |p| - 1];
    assert forall i :: |q| < i < |s| ==> s[i] == f[i - |q| - 1];
    assert s[..|p|] == p && s[..|q|] == q;
    assert s[|p| + 1..] == d && s[|q| + 1..] == f;
  }

  /** Different orders or rounds never share a key. */
  lemma KeysAreDistinct(order: string, round: nat, order': string, round': nat)
    requires DedupKey(order, round) == DedupKey(order', round')
    ensures order == order' && round == round'
  {
    DecimalDigits(round);
    DecimalDigits(round');
    var head := "abandoned:order:";
    var p, q := head + order + ":", head + order' + ":";
    assert DedupKey(order, round) == p + "r" + Decimal(round);
    assert DedupKey(order', round') == q + "r" + Decimal(round');
    TailsAgree(p, Decimal(round), q, Decimal(round'));
    assert p[|head|..|p| - 1] == order && q[|head|..|q| - 1] == order';
    DecimalInjective(round, round');
  }

  // ---------------------------------------------------------------------------
  // The outbox
  // ---------------------------------------------------------------------------

  datatype SendStatus = Waiting | InQueue | Sent | Failed | Skipped

  datatype SendRow = SendRow(automation: nat, key: string, status: SendStatus, channel: Option<nat>)

  ghost predicate UniqueKeys(rows: seq<SendRow>) {
    forall i, j :: 0 <= i < j < |rows| ==> rows[i].automation != rows[j].automation || rows[i].key != rows[j].key
  }

  predicate KeyTaken(rows: seq<SendRow>, automation: nat, key: string) {
    exists i :: 0 <= i < |rows| && rows[i].automation == automation && rows[i].key == key
  }

  /** ShopAutomationSend.create: refused when the automation already has the key. */
  function Created(rows: seq<SendRow>, automation: nat, key: string): seq<SendRow> {
    if KeyTaken(rows, automation, key) then rows else rows + [SendRow(automation, key, Waiting, None)]
  }

  /**
   * The outbox after create, route, publish and mark: `route` is the channel the sender
   * resolves to, `meanwhile` what a fast worker made of the row between publishing and mark.
   */
  function Enqueued(rows: seq<SendRow>, automation: nat, key: string, route: Option<nat>, meanwhile: Option<SendStatus>): seq<SendRow> {
    if KeyTaken(rows, automation, key) then rows
    else
      rows + [SendRow(automation, key,
                if route.None? then Failed
                else if meanwhile.Some? && meanwhile.value != Waiting then meanwhile.value else InQueue, route)]
  }

  class Outbox {
    var rows: seq<SendRow>
    var jobs: set<nat>

    constructor ()
      ensures rows == [] && jobs == {} && UniqueKeys(rows)
    {
      rows, jobs := [], {};
    }

    /** Create, route, publish, mark queued. */
    method EnqueueTransactional(automation: nat, key: string, route: Option<nat>, meanwhile: Option<SendStatus>)
      returns (id: Option<nat>)
      requires UniqueKeys(rows)
      modifies this
      ensures UniqueKeys(rows)
      ensures rows == Enqueued(old(rows), automation, key, route, meanwhile)
      ensures id == if KeyTaken(old(rows), automation, key) || route.None? then None else Some(|old(rows)|)
      ensures jobs == if id.Some? then old(jobs) + {id.value} else old(jobs)
      ensures KeyTaken(old(rows), automation, key) ==> rows == old(rows)
      ensures !KeyTaken(old(rows), automation, key) ==>
                && |rows| == |old(rows)| + 1 && rows[..|old(rows)|] == old(rows)
                && rows[|old(rows)|].automation == automation && rows[|old(rows)|].key == key
                && rows[|old(rows)|].channel == route
      ensures !KeyTaken(old(rows), automation, key) && route.None? ==> rows[|old(rows)|].status == Failed
      ensures !KeyTaken(old(rows), automation, key) && route.Some? ==>
                rows[|old(rows)|].status == if meanwhile in {None, Some(Waiting)} then InQueue else meanwhile.value
    {
      if KeyTaken(rows, automation, key) { return None; }
      var n := |rows|;
      rows := rows + [SendRow(automation, key, Waiting, None)];
      if route.None? {
        rows := rows[n := rows[n].(status := Failed)];
        return None;
      }
      rows := rows[n := rows[n].(channel := route)];
      jobs := jobs + {n};
      if meanwhile.Some? { rows := rows[n := rows[n].(status := meanwhile.value)]; }
      if rows[n].status == Waiting { rows := rows[n := rows[n].(status := InQueue)]; }
      id := Some(n);
    }
  }

  // ---------------------------------------------------------------------------
  // Orders, delayed jobs and the outbox, step by step
  // ---------------------------------------------------------------------------

  /** One round of one order; an automation belongs to one shop, whose orders it recalls. */
  datatype Recall = Recall(automation: nat, order: string, round: nat)

  function Key(x: Recall): string { DedupKey(x.order, x.round) }

  datatype Phase = Delayed | Looked

  datatype World = World(statuses: map<(nat, string), Status>, jobs: map<Recall, Phase>, rows: seq<SendRow>)

  /**
   * `ready`: the automation is still enabled and has content for the round. Insert is the
   * create call of a recall; Checkout is the one of the same automation's mail about an
   * abandoned checkout. Change is anything that later happens to a row: routing, publishing,
   * sending.
   */
  datatype Step =
    | Webhook(automation: nat, order: string, kind: Kind, rounds: set<nat>)
    | Look(recall: Recall, ready: bool)
    | Insert(recall: Recall)
    | Checkout(automation: nat, checkout: string)
    | Change(row: nat, status: SendStatus, channel: Option<nat>)
    | Restart(recall: Recall)

  predicate IsPending(w: World, automation: nat, order: string) {
    (automation, order) in w.statuses && w.statuses[(automation, order)] == Pending
  }

  predicate Enabled(w: World, step: Step) {
    match step
    case Webhook(_, _, _, _) => true
    case Look(x, _) => x in w.jobs && w.jobs[x] == Delayed
    case Insert(x) => x in w.jobs && w.jobs[x] == Looked
    case Checkout(_, _) => true
    case Change(i, _, _) => i < |w.rows|
    case Restart(x) => x in w.jobs
  }

  /** A job id the queue still knows is ignored. */
  function Schedule(jobs: map<Recall, Phase>, automation: nat, order: string, rounds: set<nat>): map<Recall, Phase> {
    (map r | r in rounds :: Recall(automation, order, r) := Delayed) + jobs
  }

  function CheckoutKey(checkout: string): string { "abandoned:" + checkout }

  function Apply(w: World, step: Step): World
    requires Enabled(w, step)
  {
    match step
    case Webhook(a, order, kind, rounds) =>
      var before := if (a, order) in w.statuses then w.statuses[(a, order)] else Target(kind);
      w.(statuses := w.statuses[(a, order) := Further(before, Target(kind))],
         jobs := if kind.Create? then Schedule(w.jobs, a, order, rounds) else w.jobs)
    case Look(x, ready) =>
      if ready && IsPending(w, x.automation, x.order) then w.(jobs := w.jobs[x := Looked]) else w.(jobs := w.jobs - {x})
    case Insert(x) => w.(jobs := w.jobs - {x}, rows := Created(w.rows, x.automation, Key(x)))
    case Checkout(a, checkout) => w.(rows := Created(w.rows, a, CheckoutKey(checkout)))
    case Change(i, status, channel) => w.(rows := w.rows[i := w.rows[i].(status := status, channel := channel)])
    case Restart(x) => w.(jobs := w.jobs[x := Delayed])
  }

  predicate Runs(w: World, steps: seq<Step>)
    decreases |steps|
  {
    steps == [] || (Enabled(w, steps[0]) && Runs(Apply(w, steps[0]), steps[1..]))
  }

  function Exec(w: World, steps: seq<Step>): World
    requires Runs(w, steps)
    decreases |steps|
  {
    if steps == [] then w else Exec(Apply(w, steps[0]), steps[1..])
  }

  /** The method's whole effect on the outbox, as steps: the create call and one later change. */
  lemma EnqueueIsARun(w: World, x: Recall, route: Option<nat>, meanwhile: Option<SendStatus>) returns (steps: seq<Step>)
    requires Enabled(w, Insert(x))
    ensures Runs(w, steps) && Exec(w, steps).rows == Enqueued(w.rows, x.automation, Key(x), route, meanwhile)
  {
    var w' := Apply(w, Insert(x));
    if KeyTaken(w.rows, x.automation, Key(x)) {
      steps := [Insert(x)];
      assert Exec(w', []) == w';
    } else {
      var n := |w.rows|;
      var end := Enqueued(w.rows, x.automation, Key(x), route, meanwhile)[n];
      steps := [Insert(x), Change(n, end.status, end.channel)];
      assert steps[1..] == [steps[1]] && [steps[1]][1..] == [];
      var w'' := Apply(w', steps[1]);
      assert Runs(w'', []) && Exec(w'', []) == w'';
      assert w''.rows == w.rows + [end];
    }
    assert Runs(w', steps[1..]);
  }

  // ---------------------------------------------------------------------------
  // One recall each
  // ---------------------------------------------------------------------------

  lemma CreatedKeepsKeys(rows: seq<SendRow>, automation: nat, key: string, automation': nat, key': string)
    requires UniqueKeys(rows)
    ensures UniqueKeys(Created(rows, automation, key))
    ensures KeyTaken(Created(rows, automation, key), automation', key')
            <==> KeyTaken(rows, automation', key') || (automation' == automation && key' == key)
  {
    var rows' := Created(rows, automation, key);
    if rows' != rows {
      assert rows'[|rows|].automation == automation && rows'[|rows|].key == key;
      forall i | 0 <= i < |rows| ensures rows'[i] == rows[i] {}
    }
  }

  lemma ChangeKeepsKeys(rows: seq<SendRow>, i: nat, status: SendStatus, channel: Option<nat>, automation: nat, key: string)
    requires i < |rows|
    ensures var rows' := rows[i := rows[i].(status := status, channel := channel)];
      && (UniqueKeys(rows) ==> UniqueKeys(rows'))
      && (KeyTaken(rows', automation, key) <==> KeyTaken(rows, automation, key))
  {
    var rows' := rows[i := rows[i].(status := status, channel := channel)];
    assert forall j :: 0 <= j < |rows| ==> rows'[j].automation == rows[j].automation && rows'[j].key == rows[j].key;
  }

  /** The checkout id whose mail would share the recall's key. */
  function Lookalike(x: Recall): string { "order:" + x.order + ":r" + Decimal(x.round) }

  /** A checkout mail has a recall's key exactly when its checkout id is that lookalike. */
  lemma CheckoutClashIff(x: Recall, checkout: string)
    ensures CheckoutKey(checkout) == Key(x) <==> checkout == Lookalike(x)
  {
    assert Key(x) == "abandoned:" + Lookalike(x);
    if CheckoutKey(checkout) == Key(x) {
      assert checkout == CheckoutKey(checkout)[|"abandoned:"|..] == Key(x)[|"abandoned:"|..] == Lookalike(x);
    }
  }

  /** The step asks for a row under the recall's key. */
  predicate Asks(step: Step, x: Recall) {
    step == Insert(x) || step == Checkout(x.automation, Lookalike(x))
  }

  /** A step takes the key of a recall exactly when it asks for it: no other recall shares it. */
  lemma StepTakes(w: World, step: Step, x: Recall)
    requires UniqueKeys(w.rows) && Enabled(w, step)
    ensures UniqueKeys(Apply(w, step).rows)
    ensures KeyTaken(Apply(w, step).rows, x.automation, Key(x)) <==> KeyTaken(w.rows, x.automation, Key(x)) || Asks(step, x)
  {
    match step
    case Insert(y) =>
      CreatedKeepsKeys(w.rows, y.automation, Key(y), x.automation, Key(x));
      if Key(y) == Key(x) { KeysAreDistinct(y.order, y.round, x.order, x.round); }
    case Checkout(a, checkout) =>
      CreatedKeepsKeys(w.rows, a, CheckoutKey(checkout), x.automation, Key(x));
      CheckoutClashIff(x, checkout);
    case Change(i, status, channel) => ChangeKeepsKeys(w.rows, i, status, channel, x.automation, Key(x));
    case _ =>
  }

  ghost predicate Asked(steps: seq<Step>, x: Recall) { exists k :: 0 <= k < |steps| && Asks(steps[k], x) }

  lemma AskedSplit(steps: seq<Step>, x: Recall)
    requires steps != []
    ensures Asked(steps, x) <==> Asks(steps[0], x) || Asked(steps[1..], x)
  {
    if Asked(steps[1..], x) {
      var k :| 0 <= k < |steps[1..]| && Asks(steps[1..][k], x);
      assert Asks(steps[k + 1], x);
    }
    if Asked(steps, x) && !Asks(steps[0], x) {
      var k :| 0 <= k < |steps| && Asks(steps[k], x);
      assert Asks(steps[1..][k - 1], x);
    }
  }

  lemma {:induction false} KeyTakenIff(w: World, steps: seq<Step>, x: Recall)
    requires UniqueKeys(w.rows) && Runs(w, steps)
    ensures UniqueKeys(Exec(w, steps).rows)
    ensures KeyTaken(Exec(w, steps).rows, x.automation, Key(x)) <==> KeyTaken(w.rows, x.automation, Key(x)) || Asked(steps, x)
    decreases |steps|
  {
    if steps != [] {
      StepTakes(w, steps[0], x);
      AskedSplit(steps, x);
      KeyTakenIff(Apply(w, steps[0]), steps[1..], x);
    }
  }

  /** The rows of a recall. */
  function RowsFor(rows: seq<SendRow>, x: Recall): set<nat> {
    set i: nat | i < |rows| && rows[i].automation == x.automation && rows[i].key == Key(x)
  }

  lemma OneRowAtMost(rows: seq<SendRow>, x: Recall)
    requires UniqueKeys(rows)
    ensures |RowsFor(rows, x)| == if KeyTaken(rows, x.automation, Key(x)) then 1 else 0
  {
    if KeyTaken(rows, x.automation, Key(x)) {
      var i: nat :| i < |rows| && rows[i].automation == x.automation && rows[i].key == Key(x);
      assert RowsFor(rows, x) == {i};
    } else {
      assert RowsFor(rows, x) == {};
    }
  }

  /**
   * Main result: over any run from an empty outbox an automation holds exactly one row for a
   * round of an order that was asked for and none for any other, whatever other recalls were
   * created, retried or raced; and no row serves two recalls. The only other claim to a key
   * is a checkout whose id spells out an order and a round.
   */
  lemma OneRecallEach(w: World, steps: seq<Step>, x: Recall, y: Recall)
    requires w.rows == [] && Runs(w, steps)
    ensures |RowsFor(Exec(w, steps).rows, x)| == if Asked(steps, x) then 1 else 0
    ensures x != y ==> RowsFor(Exec(w, steps).rows, x) !! RowsFor(Exec(w, steps).rows, y)
  {
    KeyTakenIff(w, steps, x);
    OneRowAtMost(Exec(w, steps).rows, x);
    if Key(x) == Key(y) { KeysAreDistinct(x.order, x.round, y.order, y.round); }
  }

  // ---------------------------------------------------------------------------
  // Every recall was due
  // ---------------------------------------------------------------------------

  /** A creation webhook of the order asked for the round. */
  predicate Schedules(step: Step, x: Recall) {
    step.Webhook? && step.kind.Create? && step.automation == x.automation && step.order == x.order && x.round in step.rounds
  }

  /** Before step `n` a creation webhook of the order asked for the round. */
  ghost predicate ScheduledBefore(steps: seq<Step>, n: nat, x: Recall) {
    exists i :: 0 <= i < n && i < |steps| && Schedules(steps[i], x)
  }

  /** Before step `n` a job looked while the automation was ready and found the order pending. */
  ghost predicate LookedBefore(w: World, steps: seq<Step>, n: nat, x: Recall)
    requires Runs(w, steps)
  {
    exists j :: 0 <= j < n && j < |steps| && LooksPending(w, steps, j, x) && ScheduledBefore(steps, j, x)
  }

  ghost predicate LooksPending(w: World, steps: seq<Step>, j: nat, x: Recall)
    requires Runs(w, steps) && j < |steps|
  {
    PrefixRuns(w, steps, j);
    steps[j] == Look(x, true)
    && (x.automation, x.order) in Exec(w, steps[..j]).statuses && Exec(w, steps[..j]).statuses[(x.automation, x.order)] == Pending
  }

  lemma {:induction false} PrefixRuns(w: World, steps: seq<Step>, n: nat)
    requires Runs(w, steps) && n <= |steps|
    ensures Runs(w, steps[..n])
    decreases n
  {
    if n > 0 {
      PrefixRuns(Apply(w, steps[0]), steps[1..], n - 1);
      assert steps[..n][1..] == steps[1..][..n - 1];
    }
  }

  lemma {:induction false} OneStepMore(w: World, steps: seq<Step>, n: nat)
    requires Runs(w, steps) && n < |steps|
    ensures Runs(w, steps[..n]) && Runs(w, steps[..n + 1]) && Enabled(Exec(w, steps[..n]), steps[n])
    ensures Exec(w, steps[..n + 1]) == Apply(Exec(w, steps[..n]), steps[n])
    decreases n
  {
    PrefixRuns(w, steps, n);
    PrefixRuns(w, steps, n + 1);
    if n == 0 {
      assert steps[..1][1..] == [];
    } else {
      OneStepMore(Apply(w, steps[0]), steps[1..], n - 1);
      assert steps[..n][1..] == steps[1..][..n - 1];
      assert steps[..n + 1][1..] == steps[1..][..n];
    }
  }

  /** A job in the queue was asked for; one that looked found the order pending. */
  lemma {:induction false} JobsWereDue(w: World, steps: seq<Step>, n: nat, x: Recall)
    requires w.jobs == map[] && Runs(w, steps) && n <= |steps|
    ensures Runs(w, steps[..n])
    ensures x in Exec(w, steps[..n]).jobs ==> ScheduledBefore(steps, n, x)
    ensures x in Exec(w, steps[..n]).jobs && Exec(w, steps[..n]).jobs[x] == Looked ==> LookedBefore(w, steps, n, x)
    decreases n
  {
    PrefixRuns(w, steps, n);
    if n > 0 {
      JobsWereDue(w, steps, n - 1, x);
      OneStepMore(w, steps, n - 1);
      JobStep(Exec(w, steps[..n - 1]), steps[n - 1], x);
    }
  }

  lemma JobStep(w: World, step: Step, x: Recall)
    requires Enabled(w, step)
    ensures x in Apply(w, step).jobs ==> x in w.jobs || Schedules(step, x)
    ensures x in Apply(w, step).jobs && Apply(w, step).jobs[x] == Looked ==>
              x in w.jobs && (w.jobs[x] == Looked || (step == Look(x, true) && IsPending(w, x.automation, x.order)))
    ensures step.Webhook? && x in w.jobs ==> x in Apply(w, step).jobs && Apply(w, step).jobs[x] == w.jobs[x]
    ensures Schedules(step, x) && x !in w.jobs ==> x in Apply(w, step).jobs && Apply(w, step).jobs[x] == Delayed
  {
  }

  /**
   * Main result: over any run, whoever creates a recall's row was asked for by a creation
   * webhook of that order and that round, and later found the automation ready and the order
   * still pending.
   */
  lemma EveryRecallWasDue(w: World, steps: seq<Step>, n: nat, x: Recall)
    requires w.jobs == map[] && Runs(w, steps) && n < |steps| && steps[n] == Insert(x)
    ensures LookedBefore(w, steps, n, x)
  {
    OneStepMore(w, steps, n);
    JobsWereDue(w, steps, n, x);
  }

  // ---------------------------------------------------------------------------
  // Recalls of orders that have left pending
  // ---------------------------------------------------------------------------

  /** The order has left pending. */
  predicate Left(w: World, automation: nat, order: string) {
    (automation, order) in w.statuses && w.statuses[(automation, order)] != Pending
  }

  /** A recall of this order creates its row with this step. */
  predicate Recalls(w: World, step: Step, automation: nat, order: string) {
    && step.Insert? && step.recall.automation == automation && step.recall.order == order
    && !KeyTaken(w.rows, automation, Key(step.recall))
  }

  predicate RecallsAlong(w: World, steps: seq<Step>, automation: nat, order: string)
    requires Runs(w, steps)
    decreases |steps|
  {
    steps != [] && (Recalls(w, steps[0], automation, order) || RecallsAlong(Apply(w, steps[0]), steps[1..], automation, order))
  }

  /** A recall of the order has looked and may still create its row. */
  ghost predicate InBetween(w: World, automation: nat, order: string) {
    exists x :: x in w.jobs && w.jobs[x] == Looked && Recalls(w, Insert(x), automation, order)
  }

  /** Whatever happens next, no recall of the order creates a row. */
  ghost predicate NoMoreRecalls(w: World, automation: nat, order: string) {
    forall steps :: Runs(w, steps) ==> !RecallsAlong(w, steps, automation, order)
  }

  lemma CreatedOnlyAdds(rows: seq<SendRow>, automation: nat, key: string, automation': nat, key': string)
    requires KeyTaken(rows, automation', key')
    ensures KeyTaken(Created(rows, automation, key), automation', key')
  {
    var i :| 0 <= i < |rows| && rows[i].automation == automation' && rows[i].key == key';
    assert Created(rows, automation, key)[i] == rows[i];
  }

  lemma TakenStaysTaken(w: World, step: Step, automation: nat, key: string)
    requires Enabled(w, step) && KeyTaken(w.rows, automation, key)
    ensures KeyTaken(Apply(w, step).rows, automation, key)
  {
    match step
    case Insert(y) => CreatedOnlyAdds(w.rows, y.automation, Key(y), automation, key);
    case Checkout(a, checkout) => CreatedOnlyAdds(w.rows, a, CheckoutKey(checkout), automation, key);
    case Change(i, status, channel) => ChangeKeepsKeys(w.rows, i, status, channel, automation, key);
    case _ =>
  }

  lemma LeavingLasts(w: World, step: Step, automation: nat, order: string)
    requires Left(w, automation, order) && !InBetween(w, automation, order) && Enabled(w, step)
    ensures var w' := Apply(w, step); Left(w', automation, order) && !InBetween(w', automation, order)
  {
    var w' := Apply(w, step);
    if InBetween(w', automation, order) {
      var x :| x in w'.jobs && w'.jobs[x] == Looked && Recalls(w', Insert(x), automation, order);
      assert x in w.jobs && w.jobs[x] == Looked;
      assert !Recalls(w, Insert(x), automation, order);
      TakenStaysTaken(w, step, automation, Key(x));
    }
  }

  lemma {:induction false} QuietAfterLeaving(w: World, steps: seq<Step>, automation: nat, order: string)
    requires Left(w, automation, order) && !InBetween(w, automation, order) && Runs(w, steps)
    ensures !RecallsAlong(w, steps, automation, order)
    decreases |steps|
  {
    if steps != [] {
      if Recalls(w, steps[0], automation, order) {
        assert InBetween(w, automation, order);
      }
      LeavingLasts(w, steps[0], automation, order);
      QuietAfterLeaving(Apply(w, steps[0]), steps[1..], automation, order);
    }
  }

  /**
   * Main result: once an order has left pending no recall of it is ever created, if and only
   * if none had already looked at it and was about to create its row.
   */
  lemma RecallsStopIff(w: World, automation: nat, order: string)
    requires Left(w, automation, order)
    ensures NoMoreRecalls(w, automation, order) <==> !InBetween(w, automation, order)
  {
    if InBetween(w, automation, order) {
      var x :| x in w.jobs && w.jobs[x] == Looked && Recalls(w, Insert(x), automation, order);
      var steps := [Insert(x)];
      assert Runs(Apply(w, steps[0]), steps[1..]);
      assert RecallsAlong(w, steps, automation, order);
    } else {
      forall steps | Runs(w, steps) ensures !RecallsAlong(w, steps, automation, order) {
        QuietAfterLeaving(w, steps, automation, order);
      }
    }
  }

  /**
   * It does happen: created, looked at, paid, and only then recalled. The order has left
   * pending before the last step, which creates the row.
   */
  lemma PaidOrderRecalled() returns (w: World, steps: seq<Step>)
    ensures Runs(World(map[], map[], []), steps) && Exec(World(map[], map[], []), steps) == w
    ensures Left(w, 0, "1") && InBetween(w, 0, "1") && !NoMoreRecalls(w, 0, "1")
  {
    var x := Recall(0, "1", 1);
    var w0 := World(map[], map[], []);
    steps := [Webhook(0, "1", Create, {1}), Look(x, true), Webhook(0, "1", Pay, {})];
    var w1 := Apply(w0, steps[0]);
    assert x in w1.jobs;
    var w2 := Apply(w1, steps[1]);
    w := Apply(w2, steps[2]);
    assert steps[1..] == [steps[1], steps[2]] && steps[1..][1..] == [steps[2]] && [steps[2]][1..] == [];
    assert Runs(w, []) && Exec(w, []) == w;
    assert Runs(w2, [steps[2]]) && Exec(w2, [steps[2]]) == w;
    assert Runs(w1, [steps[1], steps[2]]) && Exec(w1, [steps[1], steps[2]]) == w;
    assert Recalls(w, Insert(x), 0, "1");
    RecallsStopIff(w, 0, "1");
  }
}
