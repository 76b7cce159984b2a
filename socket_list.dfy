/**
 The list of live sockets kept by `AppConnectorService`, and the
 `filter(x => x !== socket)` that removes one of them when it closes.
 */
module SocketList {

  /** No element occurs twice. */
  ghost predicate Distinct<T>(xs: seq<T>)
  {
    forall i, j | 0 <= i < j < |xs| :: xs[i] != xs[j]
  }

  /** `xs.filter(y => y !== x)`: every occurrence of `x` dropped, order kept. */
  function Without<T(==)>(xs: seq<T>, x: T): (r: seq<T>)
    ensures |r| <= |xs|
    ensures x !in r
    ensures forall y | y in r :: y in xs
    ensures forall y | y in xs && y != x :: y in r
  {
    if xs == [] then []
    else (if xs[0] == x then [] else [xs[0]]) + Without(xs[1..], x)
  }

  /** Filtering distributes over concatenation: relative order is preserved. */
  lemma {:induction false} WithoutAppend<T>(a: seq<T>, b: seq<T>, x: T)
    ensures Without(a + b, x) == Without(a, x) + Without(b, x)
  {
    if a == [] {
      assert a + b == b;
    } else {
      assert (a + b)[1..] == a[1..] + b;
      WithoutAppend(a[1..], b, x);
    }
  }

  /** Removing an element that is not there changes nothing. */
  lemma {:induction false} WithoutAbsent<T>(xs: seq<T>, x: T)
    requires x !in xs
    ensures Without(xs, x) == xs
  {
    if xs != [] {
      assert xs == [xs[0]] + xs[1..];
      WithoutAbsent(xs[1..], x);
    }
  }

  /** The removal is idempotent. */
  lemma WithoutIdempotent<T>(xs: seq<T>, x: T)
    ensures Without(Without(xs, x), x) == Without(xs, x)
  {
    WithoutAbsent(Without(xs, x), x);
  }

  /** Removals of two sockets give the same list in either order. */
  lemma {:induction false} WithoutCommutes<T>(xs: seq<T>, x: T, y: T)
    ensures Without(Without(xs, x), y) == Without(Without(xs, y), x)
  {
    if xs != [] {
      var h := if xs[0] == x then [] else [xs[0]];
      var k := if xs[0] == y then [] else [xs[0]];
      WithoutAppend(h, Without(xs[1..], x), y);
      WithoutAppend(k, Without(xs[1..], y), x);
      WithoutCommutes(xs[1..], x, y);
    }
  }

  /** In a list without duplicates, removing the element at `i` leaves exactly the others, in order. */
  lemma {:induction false} WithoutAt<T>(xs: seq<T>, i: nat)
    requires Distinct(xs) && i < |xs|
    ensures Without(xs, xs[i]) == xs[..i] + xs[i + 1..]
  {
    var x := xs[i];
    assert xs == xs[..i] + [x] + xs[i + 1..];
    assert x !in xs[..i] by {
      forall j | 0 <= j < i ensures xs[..i][j] != x { assert xs[j] != xs[i]; }
    }
    var rest := xs[i + 1..];
    assert x !in rest by {
      forall j | 0 <= j < |rest| ensures rest[j] != x { assert xs[i + 1 + j] != xs[i]; }
    }
    WithoutAppend(xs[..i] + [x], xs[i + 1..], x);
    WithoutAppend(xs[..i], [x], x);
    WithoutAbsent(xs[..i], x);
    WithoutAbsent(xs[i + 1..], x);
  }

  /** Removal keeps a list free of duplicates. */
  lemma {:induction false} WithoutDistinct<T>(xs: seq<T>, x: T)
    requires Distinct(xs)
    ensures Distinct(Without(xs, x))
  {
    if xs != [] {
      assert Distinct(xs[1..]) by {
        forall i, j | 0 <= i < j < |xs[1..]| ensures xs[1..][i] != xs[1..][j] {
          assert xs[i + 1] != xs[j + 1];
        }
      }
      WithoutDistinct(xs[1..], x);
      var r := Without(xs[1..], x);
      assert xs[0] !in xs[1..] by {
        forall k | 0 <= k < |xs| - 1 ensures xs[1..][k] != xs[0] { assert xs[k + 1] != xs[0]; }
      }
      var h := if xs[0] == x then [] else [xs[0]];
      forall i, j | 0 <= i < j < |h + r| ensures (h + r)[i] != (h + r)[j] {
        if h != [] && i == 0 {
          assert (h + r)[j] == r[j - 1];
        } else {
          assert (h + r)[i] == r[i - |h|] && (h + r)[j] == r[j - |h|];
        }
      }
    }
  }

  /**
   Registering a fresh socket and removing it when it closes gives back the
   list it started from; all other sockets keep their place.
   */
  lemma RegisterThenRemove<T>(xs: seq<T>, x: T)
    requires x !in xs
    ensures Without(xs + [x], x) == xs
  {
    WithoutAppend(xs, [x], x);
    WithoutAbsent(xs, x);
  }
}
