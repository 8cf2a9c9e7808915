/** Ordered listings (ORDER BY, sorted): sequences strictly ascending in a key,
    which are determined by the set of their elements. */
module Ordering {
  import Text

  /** Compared by number first, then by the two texts. */
  datatype Key = Key(rank: real, major: string, minor: string)

  predicate KeyLess(a: Key, b: Key) {
    if a.rank != b.rank then a.rank < b.rank
    else if a.major != b.major then Text.Less(a.major, b.major)
    else Text.Less(a.minor, b.minor)
  }

  lemma KeyOrder(a: Key, b: Key)
    ensures a == b || KeyLess(a, b) || KeyLess(b, a)
    ensures !KeyLess(a, a)
    ensures KeyLess(a, b) ==> !KeyLess(b, a)
  {
    Text.LessTotal(a.major, b.major);
    Text.LessTotal(a.minor, b.minor);
    Text.LessIrreflexive(a.minor);
    if Text.Less(a.major, b.major) { Text.LessAsymmetric(a.major, b.major); }
    if Text.Less(a.minor, b.minor) { Text.LessAsymmetric(a.minor, b.minor); }
  }

  lemma KeyTransitive(a: Key, b: Key, c: Key)
    requires KeyLess(a, b) && KeyLess(b, c)
    ensures KeyLess(a, c)
  {
    if Text.Less(a.major, b.major) && Text.Less(b.major, c.major) {
      Text.LessTransitive(a.major, b.major, c.major);
      Text.LessIrreflexive(a.major);
    }
    if Text.Less(a.minor, b.minor) && Text.Less(b.minor, c.minor) { Text.LessTransitive(a.minor, b.minor, c.minor); }
  }

  predicate Sorted<T>(key: T -> Key, xs: seq<T>) {
    forall i, j | 0 <= i < j < |xs| :: KeyLess(key(xs[i]), key(xs[j]))
  }

  function Insert<T(!new)>(key: T -> Key, x: T, xs: seq<T>): (r: seq<T>)
    ensures forall y :: y in r <==> y == x || y in xs
  {
    if xs == [] then [x]
    else if KeyLess(key(x), key(xs[0])) then [x] + xs
    else [xs[0]] + Insert(key, x, xs[1..])
  }

  lemma {:induction false} InsertSorted<T(!new)>(key: T -> Key, x: T, xs: seq<T>)
    requires Sorted(key, xs) && forall y | y in xs :: key(y) != key(x)
    ensures Sorted(key, Insert(key, x, xs))
  {
    if xs != [] {
      var rest := xs[1..];
      KeyOrder(key(x), key(xs[0]));
      if KeyLess(key(x), key(xs[0])) {
        forall i | 1 <= i < |xs| ensures KeyLess(key(x), key(xs[i])) {
          KeyTransitive(key(x), key(xs[0]), key(xs[i]));
        }
      } else {
        InsertSorted(key, x, rest);
        var tail := Insert(key, x, rest);
        forall i | 0 <= i < |tail| ensures KeyLess(key(xs[0]), key(tail[i])) {
          assert tail[i] in tail;
        }
      }
    }
  }

  /** A strictly sorted sequence is determined by its elements. */
  lemma {:induction false} SortedUnique<T(!new)>(key: T -> Key, xs: seq<T>, ys: seq<T>)
    requires Sorted(key, xs) && Sorted(key, ys)
    requires forall x :: x in xs <==> x in ys
    ensures xs == ys
  {
    assert ys != [] ==> ys[0] in ys;
    if xs != [] {
      assert xs[0] in ys;
      assert ys[0] in xs;
      HeadIsLeast(key, xs, ys[0]);
      HeadIsLeast(key, ys, xs[0]);
      KeyOrder(key(xs[0]), key(ys[0]));
      forall x ensures x in xs[1..] <==> x in ys[1..] {
        TailMembers(key, xs, x);
        TailMembers(key, ys, x);
      }
      SortedUnique(key, xs[1..], ys[1..]);
    }
  }

  lemma HeadIsLeast<T>(key: T -> Key, xs: seq<T>, x: T)
    requires Sorted(key, xs) && x in xs
    ensures x == xs[0] || KeyLess(key(xs[0]), key(x))
  {
  }

  lemma TailMembers<T>(key: T -> Key, xs: seq<T>, x: T)
    requires Sorted(key, xs) && xs != []
    ensures x in xs[1..] <==> x in xs && x != xs[0]
  {
    KeyOrder(key(xs[0]), key(xs[0]));
  }

  ghost predicate DistinctKeys<T>(key: T -> Key, s: set<T>) {
    forall x, y | x in s && y in s && key(x) == key(y) :: x == y
  }

  /** The elements of a set in ascending order. */
  ghost function Ordered<T(!new)>(key: T -> Key, s: set<T>): (xs: seq<T>)
    requires DistinctKeys(key, s)
    ensures Sorted(key, xs) && forall x :: x in xs <==> x in s
  {
    if s == {} then []
    else
      var x :| x in s;
      var rest := Ordered(key, s - {x});
      InsertSorted(key, x, rest);
      Insert(key, x, rest)
  }

  method Sort<T(==,!new)>(key: T -> Key, s: set<T>) returns (xs: seq<T>)
    requires DistinctKeys(key, s)
    ensures xs == Ordered(key, s)
  {
    xs := [];
    var pending := s;
    while pending != {}
      invariant pending <= s
      invariant Sorted(key, xs)
      invariant forall x :: x in xs <==> x in s - pending
    {
      var x :| x in pending;
      InsertSorted(key, x, xs);
      xs := Insert(key, x, xs);
      pending := pending - {x};
    }
    SortedUnique(key, xs, Ordered(key, s));
  }
}
