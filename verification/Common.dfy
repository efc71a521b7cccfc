/** Small shared vocabulary: options, ordered enumerations of finite id sets and counting. */
module Common {

  datatype Option<+T> = None | Some(value: T)

  function Min(a: int, b: int): int { if a < b then a else b }

  function Max(a: int, b: int): int { if a < b then b else a }

  /** One operation less until the limit, if there is one. */
  function OneLess(left: Option<nat>): (r: Option<nat>)
    requires left != Some(0)
    ensures r.None? <==> left.None?
  {
    match left
    case None => None
    case Some(n) =>
      var m: nat := n - 1;
      Some(m)
  }

  /** Strictly increasing, hence duplicate-free. */
  predicate Ascending(s: seq<nat>) {
    forall i, j :: 0 <= i < j < |s| ==> s[i] < s[j]
  }

  lemma AscendingAppend(s: seq<nat>, x: nat)
    requires Ascending(s) && forall y :: y in s ==> y < x
    ensures Ascending(s + [x])
  {
    forall i, j | 0 <= i < j < |s + [x]| ensures (s + [x])[i] < (s + [x])[j] {
      if j == |s| { assert s[i] in s; }
    }
  }

  ghost predicate IsLeast(m: nat, ids: set<nat>) {
    m in ids && forall x :: x in ids ==> m <= x
  }

  lemma LeastExists(ids: set<nat>)
    requires ids != {}
    ensures exists m :: IsLeast(m, ids)
    decreases |ids|
  {
    var y :| y in ids;
    if ids == {y} {
      assert IsLeast(y, ids);
    } else {
      var rest := ids - {y};
      LeastExists(rest);
      var m: nat :| IsLeast(m, rest);
      var least: nat := if m < y then m else y;
      assert IsLeast(least, ids) by {
        forall x | x in ids ensures least <= x {
          if x != y { assert x in rest; }
        }
      }
    }
  }

  function Least(ids: set<nat>): (m: nat)
    requires ids != {}
    ensures m in ids && forall x :: x in ids ==> m <= x
  {
    LeastExists(ids);
    assert exists m :: m in ids && forall x :: x in ids ==> m <= x by {
      var m: nat :| IsLeast(m, ids);
      assert m in ids && forall x :: x in ids ==> m <= x;
    }
    var m :| m in ids && forall x :: x in ids ==> m <= x;
    m
  }

  /** The rows of a table restricted to `ids`, in primary-key order. */
  function Sorted(ids: set<nat>): (r: seq<nat>)
    ensures |r| == |ids|
    ensures forall x :: x in r <==> x in ids
    decreases |ids|
  {
    if ids == {} then [] else
      var m := Least(ids);
      [m] + Sorted(ids - {m})
  }

  lemma {:induction false} SortedAscends(ids: set<nat>)
    ensures Ascending(Sorted(ids))
    decreases |ids|
  {
    if ids != {} {
      var m := Least(ids);
      var rest := Sorted(ids - {m});
      SortedAscends(ids - {m});
      forall i, j | 0 <= i < j < |[m] + rest|
        ensures ([m] + rest)[i] < ([m] + rest)[j]
      {
        if i == 0 { assert rest[j - 1] in rest; }
      }
    }
  }

  lemma HasMember<T>(s: seq<T>)
    requires s != []
    ensures exists x :: x in s
  {
    assert s[0] in s;
  }

  lemma {:induction false} AscendingIsDetermined(a: seq<nat>, b: seq<nat>)
    requires Ascending(a) && Ascending(b)
    requires forall x :: x in a <==> x in b
    ensures a == b
  {
    if a == [] {
      if b != [] { HasMember(b); }
    } else {
      assert a[0] in b;
      assert b[0] in a;
      assert a[0] == b[0];
      forall x ensures x in a[1..] <==> x in b[1..] {
        if x in a[1..] { assert x in a && x != a[0]; }
        if x in b[1..] { assert x in b && x != b[0]; }
      }
      AscendingIsDetermined(a[1..], b[1..]);
      assert a == [a[0]] + a[1..] && b == [b[0]] + b[1..];
    }
  }

  lemma SubsetSize<T>(a: set<T>, b: set<T>)
    requires a <= b
    ensures |a| <= |b|
  {
    assert b == a + (b - a);
  }

  // ---------------------------------------------------------------------------
  // Sums over finite id sets
  // ---------------------------------------------------------------------------

  function Sum(ids: set<nat>, f: nat -> nat): nat
    decreases |ids|
  {
    if ids == {} then 0
    else
      var m := Least(ids);
      f(m) + Sum(ids - {m}, f)
  }

  lemma {:induction false} SumMonotone(ids: set<nat>, f: nat -> nat, g: nat -> nat)
    requires forall i :: i in ids ==> f(i) <= g(i)
    ensures Sum(ids, f) <= Sum(ids, g)
    decreases |ids|
  {
    if ids != {} { SumMonotone(ids - {Least(ids)}, f, g); }
  }

  lemma {:induction false} SumStrict(ids: set<nat>, f: nat -> nat, g: nat -> nat, x: nat)
    requires x in ids && f(x) < g(x)
    requires forall i :: i in ids ==> f(i) <= g(i)
    ensures Sum(ids, f) < Sum(ids, g)
    decreases |ids|
  {
    var m := Least(ids);
    if m == x { SumMonotone(ids - {m}, f, g); } else { SumStrict(ids - {m}, f, g, x); }
  }

  lemma {:induction false} SumBounded(ids: set<nat>, f: nat -> nat, bound: nat)
    requires forall i :: i in ids ==> f(i) <= bound
    ensures Sum(ids, f) <= bound * |ids|
    decreases |ids|
  {
    if ids != {} {
      var m := Least(ids);
      SumBounded(ids - {m}, f, bound);
      assert |ids - {m}| == |ids| - 1;
      assert bound * |ids| == bound * (|ids| - 1) + bound;
    }
  }

  // ---------------------------------------------------------------------------
  // Remainders
  // ---------------------------------------------------------------------------

  lemma SmallMultipleIsZero(d: int, n: nat)
    requires d * n < n && -(d * n) < n
    ensures d == 0
  {
  }

  /** Quotient and remainder are determined by x == q * n + r with r below n. */
  lemma DivModUnique(x: int, n: nat, q: int, r: nat)
    requires n > 0 && r < n && x == q * n + r
    ensures x / n == q && x % n == r
  {
    var q', r' := x / n, x % n;
    assert x == q' * n + r';
    assert (q - q') * n == q * n - q' * n == r' - r;
    SmallMultipleIsZero(q - q', n);
  }

  /** Only the remainder of the first summand matters. */
  lemma ModShift(p: nat, o: nat, n: nat)
    requires n > 0
    ensures (p + o) % n == (p % n + o) % n
  {
    var r := p % n + o;
    assert p == (p / n) * n + p % n;
    assert r == (r / n) * n + r % n;
    assert p + o == (p / n + r / n) * n + r % n by {
      assert (p / n + r / n) * n == (p / n) * n + (r / n) * n;
    }
    DivModUnique(p + o, n, p / n + r / n, r % n);
  }

  lemma ModOnce(k: nat, n: nat)
    requires k < n
    ensures (k + n) % n == k && k % n == k
  {
  }

  // ---------------------------------------------------------------------------
  // Batches
  // ---------------------------------------------------------------------------

  function Flatten<T>(batches: seq<seq<T>>): seq<T> {
    if batches == [] then [] else Flatten(batches[..|batches| - 1]) + batches[|batches| - 1]
  }

  lemma FlattenAppend<T>(batches: seq<seq<T>>, b: seq<T>)
    ensures Flatten(batches + [b]) == Flatten(batches) + b
  {
  }

  lemma {:induction false} FlattenPrefix<T>(batches: seq<seq<T>>, n: nat)
    requires n <= |batches|
    ensures Flatten(batches[..n]) <= Flatten(batches)
    decreases |batches|
  {
    if n < |batches| {
      FlattenPrefix(batches[..|batches| - 1], n);
      assert batches[..|batches| - 1][..n] == batches[..n];
    } else {
      assert batches[..n] == batches;
    }
  }

  lemma FlattenNext<T>(batches: seq<seq<T>>, i: nat)
    requires i < |batches|
    ensures Flatten(batches[..i + 1]) == Flatten(batches[..i]) + batches[i]
  {
    assert batches[..i + 1][..i] == batches[..i];
  }

  lemma FlattenStep<T>(batches: seq<seq<T>>, i: nat)
    requires i < |batches|
    ensures Flatten(batches[..i + 1]) == Flatten(batches[..i]) + batches[i]
    ensures Flatten(batches[..i]) + batches[i] <= Flatten(batches)
  {
    FlattenNext(batches, i);
    FlattenPrefix(batches, i + 1);
  }
}
