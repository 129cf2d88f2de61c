/** Sorting by name, as `sort.Slice` with `Name <` does: some sorted permutation,
    with no promise about the order of equal names. */
module Ordering {

  /** Go's string order. */
  predicate Before(a: string, b: string) {
    b != [] && (a == [] || a[0] < b[0] || (a[0] == b[0] && Before(a[1..], b[1..])))
  }

  lemma {:induction false} BeforeIsTotal(a: string, b: string)
    ensures a == b || Before(a, b) || Before(b, a)
    ensures !(Before(a, b) && Before(b, a)) && !Before(a, a)
  {
    if a != [] {
      BeforeIsTotal(a[1..], a[1..]);
    }
    if a != [] && b != [] && a[0] == b[0] {
      BeforeIsTotal(a[1..], b[1..]);
      assert a == [a[0]] + a[1..] && b == [b[0]] + b[1..];
    }
  }

  lemma {:induction false} BeforeIsTransitive(a: string, b: string, c: string)
    requires Before(a, b) && Before(b, c)
    ensures Before(a, c)
  {
    if a != [] && a[0] == b[0] == c[0] {
      BeforeIsTransitive(a[1..], b[1..], c[1..]);
    }
  }

  /** At position `k`, the first where they differ, `a` ends or has the smaller character. */
  predicate DiffersAt(a: string, b: string, k: nat) {
    k <= |a| && k < |b| && a[..k] == b[..k] && (k == |a| || a[k] < b[k])
  }

  /** The order is alphabetical: a proper prefix, or the smaller character at the first difference. */
  lemma {:induction false} BeforeIsAlphabetical(a: string, b: string)
    ensures Before(a, b) <==> exists k: nat :: DiffersAt(a, b, k)
  {
    if a != [] && b != [] && a[0] == b[0] {
      BeforeIsAlphabetical(a[1..], b[1..]);
      if k: nat :| DiffersAt(a[1..], b[1..], k) {
        assert a[..k + 1] == [a[0]] + a[1..][..k] && b[..k + 1] == [b[0]] + b[1..][..k];
        assert DiffersAt(a, b, k + 1);
      }
      if k: nat :| DiffersAt(a, b, k) {
        assert k > 0;
        assert a[1..][..k - 1] == a[..k][1..] && b[1..][..k - 1] == b[..k][1..];
        assert DiffersAt(a[1..], b[1..], k - 1);
      }
    } else if a != [] && b != [] {
      assert a[0] < b[0] ==> DiffersAt(a, b, 0);
      if k: nat :| DiffersAt(a, b, k) {
        assert k > 0 ==> a[..k][0] == b[..k][0];
      }
    } else if b != [] {
      assert DiffersAt(a, b, 0);
    }
  }

  ghost predicate SortedByName<T>(xs: seq<T>, name: T -> string) {
    forall i, j :: 0 <= i < j < |xs| ==> !Before(name(xs[j]), name(xs[i]))
  }

  /** Puts `x` at position `at` of a sorted list. */
  lemma InsertKeepsOrder<T>(xs: seq<T>, x: T, at: nat, name: T -> string)
    requires at <= |xs| && SortedByName(xs, name)
    requires at == 0 || !Before(name(x), name(xs[at - 1]))
    requires forall i :: at <= i < |xs| ==> Before(name(x), name(xs[i]))
    ensures SortedByName(xs[..at] + [x] + xs[at..], name)
  {
    var ys := xs[..at] + [x] + xs[at..];
    forall i, j | 0 <= i < j < |ys|
      ensures !Before(name(ys[j]), name(ys[i]))
    {
      if j == at {
        BeforeIsTotal(name(xs[at - 1]), name(xs[i]));
        if Before(name(x), name(xs[i])) {
          if name(xs[i]) != name(xs[at - 1]) {
            BeforeIsTransitive(name(x), name(xs[i]), name(xs[at - 1]));
          }
        }
      } else if i == at {
        BeforeIsTotal(name(x), name(ys[j]));
      }
    }
  }

  /** Inserts one element after those that do not come after it. */
  method InsertByName<T>(xs: seq<T>, x: T, name: T -> string) returns (r: seq<T>)
    requires SortedByName(xs, name)
    ensures multiset(r) == multiset(xs) + multiset{x}
    ensures SortedByName(r, name)
  {
    var at := |xs|;
    while at > 0 && Before(name(x), name(xs[at - 1]))
      invariant 0 <= at <= |xs|
      invariant forall i :: at <= i < |xs| ==> Before(name(x), name(xs[i]))
    {
      at := at - 1;
    }
    InsertKeepsOrder(xs, x, at, name);
    assert xs == xs[..at] + xs[at..];
    r := xs[..at] + [x] + xs[at..];
  }

  method SortByName<T>(xs: seq<T>, name: T -> string) returns (sorted: seq<T>)
    ensures multiset(sorted) == multiset(xs)
    ensures SortedByName(sorted, name)
  {
    sorted := [];
    for n := 0 to |xs|
      invariant multiset(sorted) == multiset(xs[..n])
      invariant SortedByName(sorted, name)
    {
      assert xs[..n + 1] == xs[..n] + [xs[n]];
      sorted := InsertByName(sorted, xs[n], name);
    }
    assert xs[..|xs|] == xs;
  }
}
