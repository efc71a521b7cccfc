/** Choosing another sender for a queued recipient whose sender now blocks the address. */
module Reroute {
  import opened Common
  import opened RecipientBlock

  /** Where a sender domain routes to, and the sending rules that apply to it. */
  datatype Routing = Routing(channel: Option<nat>, rules: seq<Rule>)

  datatype Decision = Keep | MoveTo(index: nat) | SkipRow

  /** Lower-cased domain of an address; empty when it has none. */
  function Domain(address: string): string { Lower(AfterAt(address)) }

  function RoutingOf(routes: map<string, Routing>, domain: string): Routing {
    if domain in routes then routes[domain] else Routing(None, [])
  }

  predicate Blocks(email: string, routes: map<string, Routing>, sender: string) {
    Domain(sender) != "" && IsBlocked(email, RoutingOf(routes, Domain(sender)).rules)
  }

  predicate Usable(email: string, routes: map<string, Routing>, sender: string) {
    Domain(sender) != "" && RoutingOf(routes, Domain(sender)).channel.Some? && !Blocks(email, routes, sender)
  }

  /** The sender's place in the roster, ignoring case; the head when it is not there. */
  function CurrentIndex(roster: seq<string>, sender: string): (k: nat)
    requires roster != []
    ensures k < |roster|
    ensures (exists j :: 0 <= j < |roster| && Lower(roster[j]) == Lower(sender)) ==> Lower(roster[k]) == Lower(sender)
    ensures (forall j :: 0 <= j < |roster| ==> Lower(roster[j]) != Lower(sender)) ==> k == 0
    ensures forall j :: 0 <= j < k ==> Lower(roster[j]) != Lower(sender)
  {
    FirstIndex(roster, Lower(sender), 0)
  }

  function FirstIndex(roster: seq<string>, address: string, from: nat): (k: nat)
    requires from <= |roster| && roster != []
    requires forall j :: 0 <= j < from ==> Lower(roster[j]) != address
    ensures k < |roster|
    ensures (exists j :: 0 <= j < |roster| && Lower(roster[j]) == address) ==> Lower(roster[k]) == address
    ensures (forall j :: 0 <= j < |roster| ==> Lower(roster[j]) != address) ==> k == 0
    ensures forall j :: 0 <= j < k ==> Lower(roster[j]) != address
    decreases |roster| - from
  {
    if from == |roster| then 0
    else if Lower(roster[from]) == address then from
    else FirstIndex(roster, address, from + 1)
  }

  function Turn(current: nat, offset: nat, n: nat): (k: nat)
    requires n > 0
    ensures k < n
  {
    (current + offset) % n
  }

  /** Offsets 1..n visit every place. */
  lemma EveryPlaceHasATurn(current: nat, n: nat, k: nat) returns (offset: nat)
    requires current < n && k < n
    ensures 1 <= offset <= n && Turn(current, offset, n) == k
    ensures offset == if k > current then k - current else k + n - current
  {
    offset := if k > current then k - current else k + n - current;
  }

  /** Going on from the place after `at`, and round past the last one, `k` comes before `to`; from a place to itself all others do. */
  predicate OnTheWay(at: nat, to: nat, k: int) {
    if at < to then at < k < to else at < k || k < to
  }

  /** The sender has a domain that routes to a channel and whose rules let the address through. */
  predicate MayTake(email: string, routes: map<string, Routing>, sender: string) {
    && Lower(AfterAt(sender)) != "" && Lower(AfterAt(sender)) in routes
    && routes[Lower(AfterAt(sender))].channel.Some? && !IsBlocked(email, routes[Lower(AfterAt(sender))].rules)
  }

  lemma OffsetsOnTheWay(at: nat, offset: nat, n: nat, k: nat) returns (o: nat)
    requires at < n && 1 <= offset <= n && k < n && OnTheWay(at, Turn(at, offset, n), k)
    ensures 1 <= o < offset && Turn(at, o, n) == k
  {
    o := EveryPlaceHasATurn(at, n, k);
    DivModUnique(at + offset, n, if at + offset < n then 0 else 1, if at + offset < n then at + offset else at + offset - n);
  }

  /** `index` is `offset` places after the current sender, and nobody in between is usable. */
  ghost predicate FirstUsable(email: string, current: string, roster: seq<string>, routes: map<string, Routing>,
                              offset: nat, index: nat)
    requires roster != []
  {
    && 1 <= offset <= |roster|
    && index == Turn(CurrentIndex(roster, current), offset, |roster|)
    && forall o :: 1 <= o < offset ==> !Usable(email, routes, roster[Turn(CurrentIndex(roster, current), o, |roster|)])
  }

  /**
   * The reroute search. The row keeps its sender exactly when that sender does not block
   * it; otherwise it moves to the first usable sender after the current one in roster
   * order, cyclically, and is skipped exactly when no sender is usable.
   */
  method FindSender(email: string, current: string, roster: seq<string>, routes: map<string, Routing>)
    returns (d: Decision)
    requires roster != []
    ensures d.Keep? <==> !Blocks(email, routes, current)
    ensures d.MoveTo? ==> d.index < |roster| && Usable(email, routes, roster[d.index])
    ensures d.MoveTo? ==> exists offset :: FirstUsable(email, current, roster, routes, offset, d.index)
    ensures d.SkipRow? <==> Blocks(email, routes, current) && forall k :: 0 <= k < |roster| ==> !Usable(email, routes, roster[k])
    ensures !d.Keep? <==> Lower(AfterAt(current)) != "" && Lower(AfterAt(current)) in routes
                          && IsBlocked(email, routes[Lower(AfterAt(current))].rules)
    ensures d.MoveTo? ==>
              && MayTake(email, routes, roster[d.index])
              && forall k :: 0 <= k < |roster| && OnTheWay(CurrentIndex(roster, current), d.index, k) ==> !MayTake(email, routes, roster[k])
    ensures d.SkipRow? ==> forall k :: 0 <= k < |roster| ==> !MayTake(email, routes, roster[k])
  {
    assert forall sender :: Usable(email, routes, sender) <==> MayTake(email, routes, sender);
    var domain := Domain(current);
    if domain == "" { return Keep; }
    if !IsBlocked(email, RoutingOf(routes, domain).rules) { return Keep; }
    var at := CurrentIndex(roster, current);
    var offset := 1;
    while offset <= |roster|
      invariant 1 <= offset <= |roster| + 1
      invariant forall o :: 1 <= o < offset ==> !Usable(email, routes, roster[Turn(at, o, |roster|)])
    {
      var index := Turn(at, offset, |roster|);
      var candidate := Domain(roster[index]);
      if candidate != "" && RoutingOf(routes, candidate).channel.Some?
         && !IsBlocked(email, RoutingOf(routes, candidate).rules) {
        assert Usable(email, routes, roster[index]) && FirstUsable(email, current, roster, routes, offset, index);
        forall k | 0 <= k < |roster| && OnTheWay(at, index, k) ensures !Usable(email, routes, roster[k]) {
          var o := OffsetsOnTheWay(at, offset, |roster|, k);
        }
        return MoveTo(index);
      }
      offset := offset + 1;
    }
    forall k | 0 <= k < |roster| ensures !Usable(email, routes, roster[k]) {
      var o := EveryPlaceHasATurn(at, |roster|, k);
    }
    d := SkipRow;
  }

  /** After a move the same rules never move the row again. */
  method RerouteOnce(email: string, current: string, roster: seq<string>, routes: map<string, Routing>)
    returns (first: Decision, second: Decision)
    requires roster != []
    ensures first.MoveTo? ==> second.Keep?
  {
    first := FindSender(email, current, roster, routes);
    second := first;
    if first.MoveTo? { second := FindSender(email, roster[first.index], roster, routes); }
  }
}
