/** Sequences used as ordered containers of distinct items: the operations the
    socket module performs on its vector and its two deques. */
module Lists {

  ghost predicate NoDup<T>(xs: seq<T>) {
    forall i, j :: 0 <= i < j < |xs| ==> xs[i] != xs[j]
  }

  function Elems<T>(xs: seq<T>): set<T> {
    set x | x in xs
  }

  /** Erases the first occurrence of x, if any. */
  function Without<T(==)>(xs: seq<T>, x: T): (r: seq<T>)
    ensures x !in xs ==> r == xs
    ensures x in xs ==> |r| == |xs| - 1
    ensures forall y :: y in r ==> y in xs
  {
    if xs == [] then []
    else if xs[0] == x then xs[1..]
    else [xs[0]] + Without(xs[1..], x)
  }

  /** The items of xs that belong to s, in their order. */
  function Keep<T(==,!new)>(xs: seq<T>, s: set<T>): (r: seq<T>)
    ensures forall y :: y in r <==> y in xs && y in s
    ensures |r| <= |xs|
  {
    if xs == [] then []
    else if xs[0] in s then [xs[0]] + Keep(xs[1..], s)
    else Keep(xs[1..], s)
  }

  lemma {:induction false} KeepAll<T(!new)>(xs: seq<T>, s: set<T>)
    requires forall x :: x in xs ==> x in s
    ensures Keep(xs, s) == xs
  {
    if xs != [] {
      KeepAll(xs[1..], s);
    }
  }

  lemma {:induction false} KeepNone<T(!new)>(xs: seq<T>, s: set<T>)
    requires forall x :: x in xs ==> x !in s
    ensures Keep(xs, s) == []
  {
    if xs != [] {
      KeepNone(xs[1..], s);
    }
  }

  lemma {:induction false} KeepConcat<T(!new)>(xs: seq<T>, ys: seq<T>, s: set<T>)
    ensures Keep(xs + ys, s) == Keep(xs, s) + Keep(ys, s)
  {
    if xs == [] {
      assert xs + ys == ys;
    } else {
      assert (xs + ys)[1..] == xs[1..] + ys;
      KeepConcat(xs[1..], ys, s);
    }
  }

  /** Filtering twice keeps what both filters keep. */
  lemma {:induction false} KeepTwice<T(!new)>(xs: seq<T>, a: set<T>, b: set<T>, both: set<T>)
    requires forall x :: x in xs ==> (x in both <==> x in a && x in b)
    ensures Keep(Keep(xs, a), b) == Keep(xs, both)
  {
    if xs != [] {
      KeepTwice(xs[1..], a, b, both);
      if xs[0] in a {
        assert Keep(xs, a)[1..] == Keep(xs[1..], a);
      }
    }
  }

  lemma {:induction false} KeepAgree<T(!new)>(xs: seq<T>, a: set<T>, b: set<T>)
    requires forall x :: x in xs ==> (x in a <==> x in b)
    ensures Keep(xs, a) == Keep(xs, b)
  {
    if xs != [] {
      KeepAgree(xs[1..], a, b);
    }
  }

  lemma {:induction false} KeepNoDup<T(!new)>(xs: seq<T>, s: set<T>)
    requires NoDup(xs)
    ensures NoDup(Keep(xs, s))
  {
    if xs != [] {
      KeepNoDup(xs[1..], s);
    }
  }

  /** On a duplicate-free list, erasing the first match erases every match. */
  lemma {:induction false} WithoutIsKeep<T(!new)>(xs: seq<T>, x: T)
    requires NoDup(xs)
    ensures Without(xs, x) == Keep(xs, Elems(xs) - {x})
    ensures NoDup(Without(xs, x))
    ensures x !in Without(xs, x)
    ensures forall y :: y in xs && y != x ==> y in Without(xs, x)
  {
    KeepNoDup(xs, Elems(xs) - {x});
    if xs != [] {
      WithoutIsKeep(xs[1..], x);
      if xs[0] == x {
        KeepAll(xs[1..], Elems(xs) - {x});
      } else {
        KeepAgree(xs[1..], Elems(xs[1..]) - {x}, Elems(xs) - {x});
      }
    }
  }

  lemma {:induction false} NoDupCardinality<T>(xs: seq<T>)
    requires NoDup(xs)
    ensures |Elems(xs)| == |xs|
  {
    if xs != [] {
      NoDupCardinality(xs[1..]);
      assert Elems(xs) == {xs[0]} + Elems(xs[1..]);
    }
  }

  /** Filtering meets the first member of s first. */
  lemma {:induction false} KeepFirst<T(!new)>(xs: seq<T>, s: set<T>, j: nat)
    requires NoDup(xs) && j < |xs| && xs[j] in s
    requires forall i :: 0 <= i < j ==> xs[i] !in s
    ensures Keep(xs, s) == [xs[j]] + Keep(Without(xs, xs[j]), s)
  {
    if j > 0 {
      KeepFirst(xs[1..], s, j - 1);
    }
  }

  /** Erasing the first match, found at position i. */
  lemma {:induction false} WithoutAt<T>(xs: seq<T>, i: nat)
    requires i < |xs| && forall j :: 0 <= j < i ==> xs[j] != xs[i]
    ensures Without(xs, xs[i]) == xs[..i] + xs[i + 1..]
  {
    if i > 0 {
      WithoutAt(xs[1..], i - 1);
      assert xs[1..][..i - 1] == xs[1..i] && xs[1..][i..] == xs[i + 1..];
    }
  }

  lemma NoDupConcat<T>(xs: seq<T>, ys: seq<T>)
    requires NoDup(xs) && NoDup(ys) && Elems(xs) !! Elems(ys)
    ensures NoDup(xs + ys)
  {
    var zs := xs + ys;
    forall i, j | 0 <= i < j < |zs| ensures zs[i] != zs[j] {
      if i < |xs| <= j {
        assert zs[i] in Elems(xs) && zs[j] in Elems(ys);
      }
    }
  }
}
