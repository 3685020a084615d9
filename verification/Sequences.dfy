/**
 Facts about lists of names. The API server and the proxy keep ordered lists and
 remove elements from them while other parts of the system still refer to them.
 */
module Sequences {

  datatype Option<+T> = None | Some(value: T)

  ghost predicate NoDup<T>(xs: seq<T>) {
    forall i, j | 0 <= i < j < |xs| :: xs[i] != xs[j]
  }

  lemma NoDupAdd<T>(xs: seq<T>, x: T)
    requires NoDup(xs) && x !in xs
    ensures NoDup(xs + [x]) && NoDup([x] + xs)
  {
  }

  /** The list without the first occurrence of `x`; the list itself when there is none. */
  function RemoveFirst<T(==)>(xs: seq<T>, x: T): (r: seq<T>)
    ensures x !in xs ==> r == xs
  {
    if xs == [] then []
    else if xs[0] == x then xs[1..]
    else [xs[0]] + RemoveFirst(xs[1..], x)
  }

  /** The elements of `xs` outside `gone`, in order. */
  function Without<T(==)>(xs: seq<T>, gone: set<T>): (r: seq<T>)
    ensures forall x | x in r :: x in xs && x !in gone
    ensures forall x | x in xs && x !in gone :: x in r
    ensures |r| <= |xs|
  {
    if xs == [] then []
    else if xs[0] in gone then Without(xs[1..], gone)
    else [xs[0]] + Without(xs[1..], gone)
  }

  lemma {:induction false} WithoutAppend<T>(xs: seq<T>, ys: seq<T>, gone: set<T>)
    ensures Without(xs + ys, gone) == Without(xs, gone) + Without(ys, gone)
  {
    if xs == [] {
      assert xs + ys == ys;
    } else {
      assert (xs + ys)[1..] == xs[1..] + ys;
      WithoutAppend(xs[1..], ys, gone);
    }
  }

  /** Removing in two rounds is removing the union. */
  lemma {:induction false} WithoutTwice<T>(xs: seq<T>, a: set<T>, b: set<T>)
    ensures Without(Without(xs, a), b) == Without(xs, a + b)
  {
    if xs == [] {
    } else {
      WithoutTwice(xs[1..], a, b);
      if xs[0] !in a {
        assert Without(xs, a)[1..] == Without(xs[1..], a);
      }
    }
  }

  lemma {:induction false} WithoutNothing<T>(xs: seq<T>, gone: set<T>)
    requires forall x | x in gone :: x !in xs
    ensures Without(xs, gone) == xs
  {
    if xs == [] {
    } else {
      assert xs[0] in xs;
      assert forall x | x in xs[1..] :: x in xs;
      WithoutNothing(xs[1..], gone);
    }
  }

  lemma {:induction false} WithoutNoDup<T>(xs: seq<T>, gone: set<T>)
    requires NoDup(xs)
    ensures NoDup(Without(xs, gone))
  {
    if xs == [] {
    } else {
      assert NoDup(xs[1..]);
      WithoutNoDup(xs[1..], gone);
      assert xs[0] !in xs[1..];
    }
  }

  /** In a list without repetitions, removing the first occurrence removes the element. */
  lemma {:induction false} RemoveFirstIsWithout<T>(xs: seq<T>, x: T)
    requires NoDup(xs)
    ensures RemoveFirst(xs, x) == Without(xs, {x})
  {
    if xs == [] {
    } else if xs[0] == x {
      assert x !in xs[1..];
      WithoutNothing(xs[1..], {x});
    } else {
      assert NoDup(xs[1..]);
      RemoveFirstIsWithout(xs[1..], x);
    }
  }

  /** Two ways to drop `b`: filters agree when they agree on the members of the list. */
  lemma {:induction false} WithoutSame<T>(xs: seq<T>, a: set<T>, b: set<T>)
    requires forall x | x in xs :: x in a <==> x in b
    ensures Without(xs, a) == Without(xs, b)
  {
    if xs == [] {
    } else {
      assert xs[0] in xs;
      assert forall x | x in xs[1..] :: x in xs;
      WithoutSame(xs[1..], a, b);
    }
  }

  lemma InsertedTwo<T>(before: seq<T>, x: T, y: T, after: seq<T>)
    ensures var r, k := before + [x, y] + after, |before|;
      |r| == k + 2 + |after| && r[k] == x && r[k + 1] == y && r[..k] == before && r[k + 2..] == after
  {
  }

  lemma SplitLast<T>(a: seq<T>, b: seq<T>)
    requires b != []
    ensures var m := |b| - 1;
      b == b[..m] + [b[m]] && a + b == (a + b[..m]) + [b[m]]
  {
  }
}
