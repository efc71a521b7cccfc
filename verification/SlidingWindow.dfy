/**
 * The sliding-window rate limiter of an email channel: a sorted set of send times that is
 * pruned on every operation and expires a day after the last write. The class below is
 * proved to answer as if it kept the whole history for ever.
 */
module SlidingWindow {
  import opened Common

  const SECOND_MS := 1_000
  const MINUTE_MS := 60_000
  const HOUR_MS := 3_600_000
  const DAY_MS := 86_400_000

  datatype Quota = Quota(rpsLimit: int, rpmLimit: int, rphLimit: int, rpdLimit: int)

  // ---------------------------------------------------------------------------
  // Reference: the unpruned history of send times, in the order they were recorded.
  // ---------------------------------------------------------------------------

  /** Entries of the history strictly later than `t`. */
  function CountAfter(h: seq<int>, t: int): nat {
    if h == [] then 0
    else CountAfter(h[..|h| - 1], t) + (if h[|h| - 1] > t then 1 else 0)
  }

  /** Entries of the history in the half-open interval (a, b]. */
  function CountWithin(h: seq<int>, a: int, b: int): nat {
    if h == [] then 0
    else CountWithin(h[..|h| - 1], a, b) + (if a < h[|h| - 1] <= b then 1 else 0)
  }

  function Room(limit: int, used: int): int { Max(0, limit - used) }

  /** What the four windows still allow at time `now`, judged by the full history. */
  function Available(h: seq<int>, now: int, q: Quota): int {
    Min(Min(Room(q.rpsLimit, CountAfter(h, now - SECOND_MS)),
            Room(q.rpmLimit, CountAfter(h, now - MINUTE_MS))),
        Min(Room(q.rphLimit, CountAfter(h, now - HOUR_MS)),
            Room(q.rpdLimit, CountAfter(h, now - DAY_MS))))
  }

  /** (window, limit) is one of the four tiers of q. */
  predicate Tier(q: Quota, window: int, limit: int) {
    || (window == SECOND_MS && limit == q.rpsLimit)
    || (window == MINUTE_MS && limit == q.rpmLimit)
    || (window == HOUR_MS && limit == q.rphLimit)
    || (window == DAY_MS && limit == q.rpdLimit)
  }

  function Repeat(t: int, n: nat): (r: seq<int>)
    ensures |r| == n && forall i :: 0 <= i < n ==> r[i] == t
  {
    seq(n, _ => t)
  }

  lemma {:induction false} CountAfterRepeat(h: seq<int>, now: int, n: nat, t: int)
    ensures CountAfter(h + Repeat(now, n), t) == CountAfter(h, t) + (if now > t then n else 0)
  {
    var r := h + Repeat(now, n);
    if n == 0 {
      assert r == h;
    } else {
      CountAfterRepeat(h, now, n - 1, t);
      assert r[..|r| - 1] == h + Repeat(now, n - 1);
    }
  }

  lemma {:induction false} CountWithinRepeat(h: seq<int>, now: int, n: nat, a: int, b: int)
    ensures CountWithin(h + Repeat(now, n), a, b) == CountWithin(h, a, b) + (if a < now <= b then n else 0)
  {
    var r := h + Repeat(now, n);
    if n == 0 {
      assert r == h;
    } else {
      CountWithinRepeat(h, now, n - 1, a, b);
      assert r[..|r| - 1] == h + Repeat(now, n - 1);
    }
  }

  lemma {:induction false} CountMonotone(h: seq<int>, a: int, t: int, b: int)
    requires t <= a
    ensures CountWithin(h, a, b) <= CountAfter(h, t)
  {
    if h != [] { CountMonotone(h[..|h| - 1], a, t, b); }
  }

  // ---------------------------------------------------------------------------
  // Consequence: a log in which every batch was admitted never exceeds any window.
  // ---------------------------------------------------------------------------

  datatype Batch = Batch(time: int, count: nat)

  function Log(batches: seq<Batch>): seq<int> {
    if batches == [] then []
    else
      var last := batches[|batches| - 1];
      Log(batches[..|batches| - 1]) + Repeat(last.time, last.count)
  }

  /** Every batch was recorded right after an availability answer that covered it. */
  ghost predicate Admitted(batches: seq<Batch>, q: Quota) {
    batches == [] ||
    var before := batches[..|batches| - 1];
    var last := batches[|batches| - 1];
    && Admitted(before, q)
    && (before == [] || before[|before| - 1].time <= last.time)
    && last.count <= Available(Log(before), last.time, q)
  }

  lemma TierBoundsAvailable(h: seq<int>, now: int, q: Quota, window: int, limit: int)
    requires Tier(q, window, limit)
    ensures 0 <= Available(h, now, q) <= Room(limit, CountAfter(h, now - window))
  {
  }

  /** Nothing recorded lies in the future. */
  predicate UpToNow(h: seq<int>, now: int) { forall k :: 0 <= k < |h| ==> h[k] <= now }

  lemma {:induction false} AfterIsWithin(h: seq<int>, a: int, now: int)
    requires UpToNow(h, now)
    ensures CountAfter(h, a) == CountWithin(h, a, now)
  {
    if h != [] { AfterIsWithin(h[..|h| - 1], a, now); }
  }

  lemma FitsIff(h: seq<int>, now: int, window: int, limit: int, n: nat)
    requires UpToNow(h, now) && n > 0 && window > 0
    ensures n <= Room(limit, CountAfter(h, now - window)) <==> CountWithin(h + Repeat(now, n), now - window, now) <= limit
  {
    AfterIsWithin(h, now - window, now);
    CountWithinRepeat(h, now, n, now - window, now);
  }

  /**
   * The allowance is exact: `n` sends may start now if and only if the last second, minute,
   * hour and day, these sends included, then hold no more than their limits.
   */
  lemma AdmissionIsExact(h: seq<int>, now: int, q: Quota, n: nat)
    requires UpToNow(h, now) && n > 0
    ensures n <= Available(h, now, q) <==>
            var g := h + Repeat(now, n);
            && CountWithin(g, now - 1_000, now) <= q.rpsLimit
            && CountWithin(g, now - 60_000, now) <= q.rpmLimit
            && CountWithin(g, now - 3_600_000, now) <= q.rphLimit
            && CountWithin(g, now - 86_400_000, now) <= q.rpdLimit
  {
    FitsIff(h, now, SECOND_MS, q.rpsLimit, n);
    FitsIff(h, now, MINUTE_MS, q.rpmLimit, n);
    FitsIff(h, now, HOUR_MS, q.rphLimit, n);
    FitsIff(h, now, DAY_MS, q.rpdLimit, n);
  }

  lemma {:induction false} NoRollingWindowExceeded(batches: seq<Batch>, q: Quota, window: int, limit: int, a: int)
    requires Admitted(batches, q) && Tier(q, window, limit)
    ensures CountWithin(Log(batches), a, a + window) <= Max(0, limit)
  {
    if batches != [] {
      var before := batches[..|batches| - 1];
      var last := batches[|batches| - 1];
      NoRollingWindowExceeded(before, q, window, limit, a);
      CountWithinRepeat(Log(before), last.time, last.count, a, a + window);
      assert Log(batches) == Log(before) + Repeat(last.time, last.count);
      if a < last.time <= a + window {
        TierBoundsAvailable(Log(before), last.time, q, window, limit);
        CountMonotone(Log(before), a, last.time - window, a + window);
      }
    }
  }

  // ---------------------------------------------------------------------------
  // The sorted set and the two scripts.
  // ---------------------------------------------------------------------------

  datatype Member = Member(base: nat, call: nat, index: nat)
  type ZSet = map<Member, int>

  /** A Redis key: the sorted set and the time after which Redis drops it. */
  datatype Key = Key(zset: ZSet, expireAt: int)

  function Later(z: ZSet, t: int): set<Member> {
    set m | m in z && z[m] > t
  }

  /** ZREMRANGEBYSCORE key -inf (bound */
  function Pruned(z: ZSet, bound: int): ZSet {
    map m | m in z && z[m] >= bound :: z[m]
  }

  lemma PruningKeepsCounts(z: ZSet, bound: int, t: int)
    requires t >= bound
    ensures Later(Pruned(z, bound), t) == Later(z, t)
  {
  }

  /** A stored set and a history answer every "later than t" query from `from` on alike. */
  ghost predicate SameCounts(z: ZSet, h: seq<int>, from: int) {
    forall t :: t >= from ==> |Later(z, t)| == CountAfter(h, t)
  }

  function StoredIn(keys: map<nat, Key>, channel: nat): ZSet {
    if channel in keys then keys[channel].zset else map[]
  }

  function HistoryIn(history: map<nat, seq<int>>, channel: nat): seq<int> {
    if channel in history then history[channel] else []
  }

  class Redis {
    var keys: map<nat, Key>
    ghost var clock: int
    ghost var history: map<nat, seq<int>>

    ghost function History(channel: nat): seq<int>
      reads this
    {
      HistoryIn(history, channel)
    }

    ghost function Stored(channel: nat): ZSet
      reads this
    {
      StoredIn(keys, channel)
    }

    /** The stored set agrees with the history on every window that can still be asked for. */
    ghost predicate Agrees(channel: nat)
      reads this
    {
      SameCounts(Stored(channel), History(channel), clock - DAY_MS)
    }

    ghost predicate Valid()
      reads this
    {
      && (forall channel :: Agrees(channel))
      && (forall channel, m :: channel in keys && m in keys[channel].zset ==>
            keys[channel].zset[m] <= clock && keys[channel].zset[m] + DAY_MS <= keys[channel].expireAt)
    }

    constructor (now: int)
      ensures Valid() && keys == map[] && history == map[] && clock == now
    {
      keys := map[];
      history := map[];
      clock := now;
    }

    /** The set a command sees at `now`: a key past its expiry has been dropped. */
    function Visible(channel: nat, now: int): ZSet
      reads this
    {
      if channel in keys && now <= keys[channel].expireAt then keys[channel].zset else map[]
    }

    lemma VisibleAgrees(channel: nat, now: int, t: int)
      requires Valid() && now >= clock && t >= now - DAY_MS
      ensures |Later(Pruned(Visible(channel, now), now - DAY_MS), t)| == CountAfter(History(channel), t)
    {
      PruningKeepsCounts(Visible(channel, now), now - DAY_MS, t);
      assert Agrees(channel);
      if channel in keys && now > keys[channel].expireAt {
        assert Later(Stored(channel), t) == {};
        assert Later(Visible(channel, now), t) == {};
      }
    }

    /** AVAIL_LUA: prune, count the four windows, return the tightest remainder. */
    method QuotaAvail(channel: nat, now: int, q: Quota) returns (mn: int)
      requires Valid() && now >= clock
      modifies this
      ensures Valid() && clock == now && history == old(history)
      ensures mn == Available(History(channel), now, q)
      ensures forall c, m :: c in keys && m in keys[c].zset ==> c in old(keys) && m in old(keys[c].zset)
    {
      var z := Pruned(Visible(channel, now), now - DAY_MS);
      var sCount := |Later(z, now - SECOND_MS)|;
      var mCount := |Later(z, now - MINUTE_MS)|;
      var hCount := |Later(z, now - HOUR_MS)|;
      var dCount := |Later(z, now - DAY_MS)|;
      VisibleAgrees(channel, now, now - SECOND_MS);
      VisibleAgrees(channel, now, now - MINUTE_MS);
      VisibleAgrees(channel, now, now - HOUR_MS);
      VisibleAgrees(channel, now, now - DAY_MS);

      var s, m, h, d := q.rpsLimit - sCount, q.rpmLimit - mCount, q.rphLimit - hCount, q.rpdLimit - dCount;
      if s < 0 { s := 0; }
      if m < 0 { m := 0; }
      if h < 0 { h := 0; }
      if d < 0 { d := 0; }
      mn := s;
      if m < mn { mn := m; }
      if h < mn { mn := h; }
      if d < mn { mn := d; }

      Store(channel, now, z);
    }

    /** Write back what is left of the key; Redis removes a key whose set became empty. */
    method Store(channel: nat, now: int, z: ZSet)
      requires Valid() && now >= clock && z == Pruned(Visible(channel, now), now - DAY_MS)
      modifies this
      ensures Valid() && clock == now && history == old(history)
      ensures Stored(channel) == z
      ensures forall c :: c != channel ==> (c in keys <==> c in old(keys)) && (c in keys ==> keys[c] == old(keys)[c])
    {
      assert SameCounts(z, History(channel), now - DAY_MS) by {
        forall t | t >= now - DAY_MS
          ensures |Later(z, t)| == CountAfter(History(channel), t)
        {
          VisibleAgrees(channel, now, t);
        }
      }
      ghost var before := keys;
      forall c ensures SameCounts(StoredIn(before, c), HistoryIn(history, c), now - DAY_MS) {
        assert Agrees(c);
      }
      if z == map[] {
        keys := keys - {channel};
      } else {
        keys := keys[channel := Key(z, keys[channel].expireAt)];
      }
      clock := now;
      forall c ensures Agrees(c) {
        assert SameCounts(StoredIn(before, c), HistoryIn(history, c), clock - DAY_MS);
        assert c != channel ==> StoredIn(keys, c) == StoredIn(before, c);
        assert StoredIn(keys, channel) == z;
      }
    }

    /** CONSUME_LUA: prune, add `count` entries at `now`, renew the expiry. */
    method QuotaConsume(channel: nat, now: int, count: nat, base: nat, call: nat)
      requires Valid() && now >= clock
      requires forall m :: m in Stored(channel) ==> !(m.base == base && m.call == call)
      modifies this
      ensures Valid() && clock == now
      ensures history == old(history)[channel := old(History(channel)) + Repeat(now, count)]
      ensures forall c, m :: c in keys && m in keys[c].zset ==>
                (m.base == base && m.call == call) || (c in old(keys) && m in old(keys[c].zset))
    {
      ghost var h := History(channel);
      var pruned := Pruned(Visible(channel, now), now - DAY_MS);
      Store(channel, now, pruned);
      assert Agrees(channel);
      var z := AddEntries(pruned, h, now, count, base, call);
      Append(channel, now, count, z);
    }

    /** PEXPIRE on a key that exists; the history grows by the entries just added. */
    method Append(channel: nat, now: int, count: nat, z: ZSet)
      requires Valid() && now == clock
      requires SameCounts(z, History(channel) + Repeat(now, count), now - DAY_MS)
      requires forall m :: m in z ==> z[m] <= now
      requires z == map[] ==> Stored(channel) == map[]
      modifies this
      ensures Valid() && clock == now
      ensures history == old(history)[channel := old(History(channel)) + Repeat(now, count)]
      ensures Stored(channel) == z
      ensures forall c :: c != channel ==> (c in keys <==> c in old(keys)) && (c in keys ==> keys[c] == old(keys)[c])
    {
      ghost var before := keys;
      ghost var past := history;
      forall c ensures SameCounts(StoredIn(before, c), HistoryIn(past, c), now - DAY_MS) {
        assert Agrees(c);
      }
      if z != map[] {
        keys := keys[channel := Key(z, now + DAY_MS)];
      }
      history := history[channel := History(channel) + Repeat(now, count)];
      forall c ensures Agrees(c) {
        assert SameCounts(StoredIn(before, c), HistoryIn(past, c), clock - DAY_MS);
        assert StoredIn(keys, channel) == z;
      }
    }
  }

  lemma AddingOne(z: ZSet, h: seq<int>, now: int, n: nat, entry: Member)
    requires SameCounts(z, h + Repeat(now, n), now - DAY_MS) && entry !in z
    ensures SameCounts(z[entry := now], h + Repeat(now, n + 1), now - DAY_MS)
  {
    var z', h' := z[entry := now], h + Repeat(now, n + 1);
    forall t | t >= now - DAY_MS
      ensures |Later(z', t)| == CountAfter(h', t)
    {
      CountAfterRepeat(h, now, n, t);
      CountAfterRepeat(h, now, n + 1, t);
      assert |Later(z, t)| == CountAfter(h + Repeat(now, n), t);
      assert Later(z', t) == Later(z, t) + (if now > t then {entry} else {});
    }
  }

  /** The ZADD loop: `count` members no earlier call has used, all scored `now`. */
  method AddEntries(pruned: ZSet, ghost h: seq<int>, now: int, count: nat, base: nat, call: nat) returns (z: ZSet)
    requires SameCounts(pruned, h, now - DAY_MS)
    requires forall m :: m in pruned ==> !(m.base == base && m.call == call)
    ensures SameCounts(z, h + Repeat(now, count), now - DAY_MS)
    ensures forall m :: m in z <==> m in pruned || (m.base == base && m.call == call && 1 <= m.index <= count)
    ensures forall m :: m in z ==> z[m] == if m in pruned then pruned[m] else now
  {
    z := pruned;
    var i := 1;
    assert h + Repeat(now, 0) == h;
    while i <= count
      invariant 1 <= i <= count + 1
      invariant forall m :: m in z <==> m in pruned || (m.base == base && m.call == call && 1 <= m.index < i)
      invariant forall m :: m in z ==> z[m] == if m in pruned then pruned[m] else now
      invariant SameCounts(z, h + Repeat(now, i - 1), now - DAY_MS)
    {
      var entry := Member(base, call, i);
      AddingOne(z, h, now, i - 1, entry);
      z := z[entry := now];
      i := i + 1;
    }
  }

  /** One worker process: it names its entries by a process-wide base and a running counter. */
  class QuotaManager {
    const redis: Redis
    const nonceBase: nat
    var nonceCounter: nat

    ghost predicate Valid()
      reads this, redis
    {
      && redis.Valid()
      && (forall c, m :: c in redis.keys && m in redis.keys[c].zset && m.base == nonceBase ==> m.call <= nonceCounter)
    }

    constructor (redis: Redis, nonceBase: nat)
      requires redis.Valid()
      requires forall c, m :: c in redis.keys && m in redis.keys[c].zset ==> m.base != nonceBase
      ensures Valid() && this.redis == redis && this.nonceBase == nonceBase
    {
      this.redis := redis;
      this.nonceBase := nonceBase;
      nonceCounter := 0;
    }

    method GetAvailable(channel: nat, q: Quota, now: int) returns (available: int)
      requires Valid() && now >= redis.clock
      modifies redis
      ensures Valid() && redis.clock == now && redis.history == old(redis.history)
      ensures available == Available(redis.History(channel), now, q)
    {
      available := redis.QuotaAvail(channel, now, q);
    }

    method Consume(channel: nat, count: nat, now: int)
      requires Valid() && now >= redis.clock
      modifies this, redis
      ensures Valid() && redis.clock == now
      ensures redis.history == old(redis.history)[channel := old(redis.History(channel)) + Repeat(now, count)]
      ensures forall c, m :: c in redis.keys && m in redis.keys[c].zset && m.base != nonceBase ==>
                c in old(redis.keys) && m in old(redis.keys[c].zset)
    {
      nonceCounter := nonceCounter + 1;
      redis.QuotaConsume(channel, now, count, nonceBase, nonceCounter);
    }
  }
}
