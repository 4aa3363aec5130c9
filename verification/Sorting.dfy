/** Sequences without repetition, and putting them in order. */
module Sorting {

  predicate Distinct<T(==)>(xs: seq<T>) {
    forall i, j | 0 <= i < j < |xs| :: xs[i] != xs[j]
  }

  // Each once, and no more of them than there are of the others.
  lemma {:induction false} NoMoreThan<T>(xs: seq<T>, ys: seq<T>)
    requires Distinct(xs) && forall x | x in xs :: x in ys
    ensures |xs| <= |ys|
  {
    if xs != [] {
      var j := IndexOf(ys, xs[0]);
      var rest := ys[..j] + ys[j + 1..];
      forall x | x in xs[1..] ensures x in rest {
        var i := IndexOf(xs[1..], x);
        assert xs[i + 1] == x && x != xs[0];
        var k := IndexOf(ys, x);
        assert rest[if k < j then k else k - 1] == x;
      }
      NoMoreThan(xs[1..], rest);
    }
  }

  lemma IndexOf<T>(xs: seq<T>, x: T) returns (i: nat)
    requires x in xs
    ensures i < |xs| && xs[i] == x
  {
    i :| 0 <= i < |xs| && xs[i] == x;
  }

  // ----- A stable sort, as the library's is -----

  // An order that may leave some undecided.
  ghost predicate Orders<T(!new)>(before: (T, T) -> bool) {
    && (forall a, b :: !(before(a, b) && before(b, a)))
    && (forall a, b, c :: before(a, c) ==> before(a, b) || before(b, c))
  }

  function Insert<T>(x: T, sorted: seq<T>, before: (T, T) -> bool): seq<T> {
    if sorted == [] || !before(sorted[0], x) then [x] + sorted else [sorted[0]] + Insert(x, sorted[1..], before)
  }

  function Sorted<T>(xs: seq<T>, before: (T, T) -> bool): seq<T> {
    if xs == [] then [] else Insert(xs[0], Sorted(xs[1..], before), before)
  }

  ghost predicate Ordered<T>(xs: seq<T>, before: (T, T) -> bool) {
    forall i, j | 0 <= i < j < |xs| :: !before(xs[j], xs[i])
  }

  lemma HeadFirst<T>(head: T, rest: seq<T>, before: (T, T) -> bool)
    requires Ordered(rest, before) && Distinct(rest) && head !in rest
    requires forall x | x in rest :: !before(x, head)
    ensures Ordered([head] + rest, before) && Distinct([head] + rest)
  {
  }

  lemma {:induction false} InsertKeeps<T(!new)>(x: T, sorted: seq<T>, before: (T, T) -> bool)
    requires Orders(before) && Ordered(sorted, before) && Distinct(sorted) && x !in sorted
    ensures var r := Insert(x, sorted, before);
      && Ordered(r, before) && Distinct(r) && |r| == |sorted| + 1
      && (forall y :: y in r <==> y == x || y in sorted)
  {
    if sorted != [] {
      assert sorted == [sorted[0]] + sorted[1..];
      forall y | y in sorted && !before(sorted[0], x) ensures !before(y, x) {
        var i := IndexOf(sorted, y);
      }
      if before(sorted[0], x) {
        InsertKeeps(x, sorted[1..], before);
        HeadFirst(sorted[0], Insert(x, sorted[1..], before), before);
      } else {
        HeadFirst(x, sorted, before);
      }
    }
  }

  lemma {:induction false} SortedKeeps<T(!new)>(xs: seq<T>, before: (T, T) -> bool)
    requires Orders(before) && Distinct(xs)
    ensures var r := Sorted(xs, before);
      && Ordered(r, before) && Distinct(r) && |r| == |xs|
      && (forall y :: y in r <==> y in xs)
  {
    if xs != [] {
      SortedKeeps(xs[1..], before);
      assert xs == [xs[0]] + xs[1..];
      InsertKeeps(xs[0], Sorted(xs[1..], before), before);
    }
  }

  // ----- Who comes after whom -----

  ghost predicate Follows<T>(xs: seq<T>, x: T, y: T) {
    exists i, j | 0 <= i < j < |xs| :: xs[i] == x && xs[j] == y
  }

  lemma {:induction false} InsertFollows<T>(x: T, sorted: seq<T>, before: (T, T) -> bool, y: T)
    requires y in sorted && !before(y, x)
    ensures Follows(Insert(x, sorted, before), x, y)
  {
    var r := Insert(x, sorted, before);
    if before(sorted[0], x) {
      assert sorted == [sorted[0]] + sorted[1..];
      InsertFollows(x, sorted[1..], before, y);
      Later(sorted[0], Insert(x, sorted[1..], before), x, y);
    } else {
      var j := IndexOf(sorted, y);
      assert r[0] == x && r[j + 1] == y;
    }
  }

  lemma Later<T>(head: T, rest: seq<T>, x: T, y: T)
    requires Follows(rest, x, y)
    ensures Follows([head] + rest, x, y)
  {
    var i, j :| 0 <= i < j < |rest| && rest[i] == x && rest[j] == y;
    assert ([head] + rest)[i + 1] == x && ([head] + rest)[j + 1] == y;
  }

  lemma {:induction false} InsertKeepsOrder<T>(z: T, sorted: seq<T>, before: (T, T) -> bool, x: T, y: T)
    requires Follows(sorted, x, y)
    ensures Follows(Insert(z, sorted, before), x, y)
  {
    if before(sorted[0], z) {
      assert sorted == [sorted[0]] + sorted[1..];
      var rest := sorted[1..];
      var i, j :| 0 <= i < j < |sorted| && sorted[i] == x && sorted[j] == y;
      assert rest[j - 1] == y;
      if i > 0 {
        assert rest[i - 1] == x;
        InsertKeepsOrder(z, rest, before, x, y);
        Later(sorted[0], Insert(z, rest, before), x, y);
      } else {
        InsertHolds(z, rest, before, y);
        var k := IndexOf(Insert(z, rest, before), y);
        assert Insert(z, sorted, before)[0] == x && Insert(z, sorted, before)[k + 1] == y;
      }
    } else {
      Later(z, sorted, x, y);
    }
  }

  lemma {:induction false} InsertHolds<T>(z: T, sorted: seq<T>, before: (T, T) -> bool, y: T)
    requires y in sorted
    ensures y in Insert(z, sorted, before)
  {
    if before(sorted[0], z) {
      assert sorted == [sorted[0]] + sorted[1..];
      if y in sorted[1..] { InsertHolds(z, sorted[1..], before, y); }
    }
  }

  // What is not before another stays behind it, if it was.
  lemma {:induction false} SortIsStable<T(!new)>(xs: seq<T>, before: (T, T) -> bool, i: nat, j: nat)
    requires Orders(before) && Distinct(xs) && i < j < |xs| && !before(xs[j], xs[i])
    ensures Follows(Sorted(xs, before), xs[i], xs[j])
  {
    SortedKeeps(xs[1..], before);
    if i == 0 {
      assert xs[1..][j - 1] == xs[j];
      InsertFollows(xs[0], Sorted(xs[1..], before), before, xs[j]);
    } else {
      SortIsStable(xs[1..], before, i - 1, j - 1);
      InsertKeepsOrder(xs[0], Sorted(xs[1..], before), before, xs[i], xs[j]);
    }
  }
}
