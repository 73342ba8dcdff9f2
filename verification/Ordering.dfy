/** Sorting with a comparison, and the code-point order of text. */
module Ordering {

  /** Python's `<=` on text: code point by code point, a prefix first. */
  predicate LexLeq(a: string, b: string) {
    a == [] || (b != [] && (a[0] < b[0] || (a[0] == b[0] && LexLeq(a[1..], b[1..]))))
  }

  lemma {:induction false} LexTotal(a: string, b: string)
    ensures LexLeq(a, b) || LexLeq(b, a)
    ensures LexLeq(a, b) && LexLeq(b, a) ==> a == b
  {
    if a != [] && b != [] && a[0] == b[0] {
      LexTotal(a[1..], b[1..]);
      assert a == [a[0]] + a[1..] && b == [b[0]] + b[1..];
    }
  }

  lemma {:induction false} LexTransitive(a: string, b: string, c: string)
    requires LexLeq(a, b) && LexLeq(b, c)
    ensures LexLeq(a, c)
  {
    if a != [] && a[0] == b[0] == c[0] {
      LexTransitive(a[1..], b[1..], c[1..]);
    }
  }

  ghost predicate Total<T(!new)>(leq: (T, T) -> bool) {
    forall x, y :: leq(x, y) || leq(y, x)
  }

  ghost predicate Transitive<T(!new)>(leq: (T, T) -> bool) {
    forall x, y, z :: leq(x, y) && leq(y, z) ==> leq(x, z)
  }

  ghost predicate Sorted<T(!new)>(leq: (T, T) -> bool, s: seq<T>) {
    forall i, j :: 0 <= i < j < |s| ==> leq(s[i], s[j])
  }

  function Insert<T>(leq: (T, T) -> bool, x: T, s: seq<T>): seq<T> {
    if s == [] then [x]
    else if leq(s[0], x) then [s[0]] + Insert(leq, x, s[1..])
    else [x] + s
  }

  /** The stable sort: equal keys keep their order. */
  function Sort<T>(leq: (T, T) -> bool, s: seq<T>): seq<T> {
    if s == [] then [] else Insert(leq, s[|s| - 1], Sort(leq, s[..|s| - 1]))
  }

  lemma {:induction false} InsertPermutes<T>(leq: (T, T) -> bool, x: T, s: seq<T>)
    ensures multiset(Insert(leq, x, s)) == multiset([x]) + multiset(s)
  {
    if s != [] {
      assert s == [s[0]] + s[1..];
      if leq(s[0], x) {
        InsertPermutes(leq, x, s[1..]);
      }
    }
  }

  lemma {:induction false} SortPermutes<T>(leq: (T, T) -> bool, s: seq<T>)
    ensures multiset(Sort(leq, s)) == multiset(s)
  {
    if s != [] {
      var front := s[..|s| - 1];
      SortPermutes(leq, front);
      InsertPermutes(leq, s[|s| - 1], Sort(leq, front));
      assert s == front + [s[|s| - 1]];
    }
  }

  lemma {:induction false} SameMembers<T>(a: seq<T>, b: seq<T>)
    requires multiset(a) == multiset(b)
    ensures forall x :: x in a <==> x in b
    ensures |a| == |b|
  {
    forall x ensures x in a <==> x in b {
      assert x in a <==> x in multiset(a);
      assert x in b <==> x in multiset(b);
    }
    assert |multiset(a)| == |a| && |multiset(b)| == |b|;
  }

  function Mapped<T, U>(f: T -> U, s: seq<T>): seq<U> {
    seq(|s|, k requires 0 <= k < |s| => f(s[k]))
  }

  function Without<T>(s: seq<T>, k: nat): seq<T>
    requires k < |s|
  {
    s[..k] + s[k + 1..]
  }

  lemma {:induction false} TakenOut<T, U>(f: T -> U, s: seq<T>, k: nat)
    requires k < |s|
    ensures multiset(s) == multiset(Without(s, k)) + multiset{s[k]}
    ensures multiset(Mapped(f, s)) == multiset(Mapped(f, Without(s, k))) + multiset{f(s[k])}
  {
    assert s == s[..k] + [s[k]] + s[k + 1..];
    assert Mapped(f, s) == Mapped(f, s[..k]) + [f(s[k])] + Mapped(f, s[k + 1..]);
    assert Mapped(f, Without(s, k)) == Mapped(f, s[..k]) + Mapped(f, s[k + 1..]);
  }

  /** Images of a rearrangement are a rearrangement of the images. */
  lemma {:induction false} MappedPermutes<T, U>(f: T -> U, a: seq<T>, b: seq<T>)
    requires multiset(a) == multiset(b)
    ensures multiset(Mapped(f, a)) == multiset(Mapped(f, b))
    decreases |a|
  {
    SameMembers(a, b);
    if a != [] {
      assert a[0] in a;
      var k :| 0 <= k < |b| && b[k] == a[0];
      TakenOut(f, a, 0);
      TakenOut(f, b, k);
      assert multiset(Without(a, 0)) == multiset(a) - multiset{a[0]};
      assert multiset(Without(b, k)) == multiset(b) - multiset{a[0]};
      MappedPermutes(f, Without(a, 0), Without(b, k));
    }
  }

  lemma {:induction false} SortOne<T>(leq: (T, T) -> bool, x: T)
    ensures Sort(leq, [x]) == [x]
  {
    assert [x][..0] == [];
    assert Sort(leq, []) == [];
  }

  lemma {:induction false} SortTwo<T>(leq: (T, T) -> bool, x: T, y: T)
    requires leq(x, y)
    ensures Sort(leq, [x, y]) == [x, y]
  {
    SortOne(leq, x);
    assert [x, y][..1] == [x];
    assert Insert(leq, y, []) == [y] && [x][1..] == [];
  }

  lemma {:induction false} InsertSkips<T>(leq: (T, T) -> bool, x: T, h: T, t: seq<T>)
    requires leq(h, x)
    ensures Insert(leq, x, [h] + t) == [h] + Insert(leq, x, t)
  {
    assert ([h] + t)[1..] == t;
  }

  lemma {:induction false} InsertStops<T>(leq: (T, T) -> bool, x: T, h: T, t: seq<T>)
    requires !leq(h, x)
    ensures Insert(leq, x, [h] + t) == [x] + ([h] + t)
  {
  }

  lemma {:induction false} InsertSkipsTwo<T>(leq: (T, T) -> bool, x: T, y: T, z: T, t: seq<T>)
    requires leq(y, x) && leq(z, x)
    ensures Insert(leq, x, [y, z] + t) == [y, z] + Insert(leq, x, t)
  {
    assert [y, z] + t == [y] + ([z] + t);
    InsertSkips(leq, x, y, [z] + t);
    InsertSkips(leq, x, z, t);
    assert [y] + ([z] + Insert(leq, x, t)) == [y, z] + Insert(leq, x, t);
  }

  lemma {:induction false} InsertPastHead<T>(
    leq: (T, T) -> bool, x: T, h: T, t: seq<T>, y: T, z: T, v: seq<T>, before: seq<T>, after: seq<T>)
    requires leq(h, x) && Insert(leq, x, t + [y, z] + v) == before + [y, z] + after
    ensures Insert(leq, x, [h] + t + [y, z] + v) == [h] + before + [y, z] + after
  {
    assert [h] + t + [y, z] + v == [h] + (t + [y, z] + v);
    InsertSkips(leq, x, h, t + [y, z] + v);
    assert [h] + (before + [y, z] + after) == [h] + before + [y, z] + after;
  }

  lemma {:induction false} InsertBeforeHead<T>(leq: (T, T) -> bool, x: T, h: T, t: seq<T>, y: T, z: T, v: seq<T>)
    requires !leq(h, x)
    ensures Insert(leq, x, [h] + t + [y, z] + v) == [x] + ([h] + t) + [y, z] + v
  {
    assert [h] + t + [y, z] + v == [h] + (t + [y, z] + v);
    InsertStops(leq, x, h, t + [y, z] + v);
    assert [x] + ([h] + (t + [y, z] + v)) == [x] + ([h] + t) + [y, z] + v;
  }

  lemma {:induction false} InsertAtPair<T>(leq: (T, T) -> bool, x: T, y: T, z: T, v: seq<T>)
    requires leq(y, x) == leq(z, x)
    ensures Insert(leq, x, [y, z] + v) ==
            if leq(y, x) then [y, z] + Insert(leq, x, v) else [x] + [y, z] + v
  {
    if leq(y, x) {
      InsertSkipsTwo(leq, x, y, z, v);
    } else {
      assert [y, z] + v == [y] + ([z] + v);
      InsertStops(leq, x, y, [z] + v);
      assert [x] + ([y] + ([z] + v)) == [x] + [y, z] + v;
    }
  }

  /** Two elements that sort alike stay side by side when a later one is inserted, whichever of them is first. */
  lemma {:induction false} InsertBesidePair<T(!new)>(
    leq: (T, T) -> bool, u: seq<T>, y: T, z: T, v: seq<T>, x: T) returns (before: seq<T>, after: seq<T>)
    requires Total(leq) && Transitive(leq) && leq(y, z) && leq(z, y) && forall t :: t in u ==> !leq(y, t)
    ensures Insert(leq, x, u + [y, z] + v) == before + [y, z] + after
    ensures Insert(leq, x, u + [z, y] + v) == before + [z, y] + after
    ensures forall t :: t in before ==> !leq(y, t)
    decreases |u|
  {
    if u == [] {
      InsertAtPair(leq, x, y, z, v);
      InsertAtPair(leq, x, z, y, v);
      assert u + [y, z] + v == [y, z] + v && u + [z, y] + v == [z, y] + v;
      if leq(y, x) {
        before, after := [], Insert(leq, x, v);
        assert before + [y, z] + after == [y, z] + after && before + [z, y] + after == [z, y] + after;
      } else {
        before, after := [x], v;
      }
    } else {
      var h, t := u[0], u[1..];
      assert u == [h] + t && h in u;
      if leq(h, x) {
        var rest;
        rest, after := InsertBesidePair(leq, t, y, z, v, x);
        InsertPastHead(leq, x, h, t, y, z, v, rest, after);
        InsertPastHead(leq, x, h, t, z, y, v, rest, after);
        before := [h] + rest;
      } else {
        InsertBeforeHead(leq, x, h, t, y, z, v);
        InsertBeforeHead(leq, x, h, t, z, y, v);
        before, after := [x] + ([h] + t), v;
        assert leq(x, h) && !leq(y, h);
      }
    }
  }

  /** Two elements that sort alike and come first stand side by side in the sorted arrangement, in the order given. */
  lemma {:induction false} SwappedPair<T(!new)>(leq: (T, T) -> bool, y: T, z: T, rest: seq<T>)
    returns (u: seq<T>, v: seq<T>)
    requires Total(leq) && Transitive(leq) && leq(y, z) && leq(z, y)
    ensures Sort(leq, [y, z] + rest) == u + [y, z] + v && Sort(leq, [z, y] + rest) == u + [z, y] + v
    ensures forall t :: t in u ==> !leq(y, t)
    decreases |rest|
  {
    if rest == [] {
      u, v := [], [];
      SortTwo(leq, y, z);
      SortTwo(leq, z, y);
      assert [y, z] + rest == [y, z] && [z, y] + rest == [z, y];
    } else {
      var front, last := rest[..|rest| - 1], rest[|rest| - 1];
      u, v := SwappedPair(leq, y, z, front);
      var a, b := [y, z] + rest, [z, y] + rest;
      assert a[..|a| - 1] == [y, z] + front && b[..|b| - 1] == [z, y] + front;
      u, v := InsertBesidePair(leq, u, y, z, v, last);
    }
  }

  lemma {:induction false} InsertSorts<T(!new)>(leq: (T, T) -> bool, x: T, s: seq<T>)
    requires Total(leq) && Transitive(leq) && Sorted(leq, s)
    ensures Sorted(leq, Insert(leq, x, s))
  {
    if s != [] {
      if leq(s[0], x) {
        InsertSorts(leq, x, s[1..]);
        InsertPermutes(leq, x, s[1..]);
        SameMembers(Insert(leq, x, s[1..]), [x] + s[1..]);
        var rest := Insert(leq, x, s[1..]);
        forall j | 0 <= j < |rest| ensures leq(s[0], rest[j]) {
          assert rest[j] in [x] + s[1..];
        }
      } else {
        assert leq(x, s[0]);
      }
    }
  }

  lemma {:induction false} SortSorts<T(!new)>(leq: (T, T) -> bool, s: seq<T>)
    requires Total(leq) && Transitive(leq)
    ensures Sorted(leq, Sort(leq, s))
  {
    if s != [] {
      SortSorts(leq, s[..|s| - 1]);
      InsertSorts(leq, s[|s| - 1], Sort(leq, s[..|s| - 1]));
    }
  }

  lemma {:induction false} SortedHeadsAgree<T(!new)>(leq: (T, T) -> bool, a: seq<T>, b: seq<T>)
    requires a != [] && b != [] && a[0] in b && b[0] in a && Sorted(leq, a) && Sorted(leq, b)
    requires forall x, y :: x in a && y in a && leq(x, y) && leq(y, x) ==> x == y
    ensures a[0] == b[0]
  {
    var i :| 0 <= i < |b| && b[i] == a[0];
    var j :| 0 <= j < |a| && a[j] == b[0];
  }

  lemma {:induction false} SortedTail<T(!new)>(leq: (T, T) -> bool, a: seq<T>)
    requires a != [] && Sorted(leq, a)
    ensures a == [a[0]] + a[1..] && Sorted(leq, a[1..]) && multiset(a[1..]) == multiset(a) - multiset{a[0]}
    ensures forall x :: x in a[1..] ==> x in a
  {
    assert a == [a[0]] + a[1..];
    assert multiset(a) == multiset{a[0]} + multiset(a[1..]);
  }

  /** On elements the order can tell apart, a multiset has one sorted arrangement. */
  lemma {:induction false} SortedArrangementIsUnique<T(!new)>(leq: (T, T) -> bool, a: seq<T>, b: seq<T>)
    requires multiset(a) == multiset(b)
    requires Sorted(leq, a) && Sorted(leq, b)
    requires forall x, y :: x in a && y in a && leq(x, y) && leq(y, x) ==> x == y
    ensures a == b
  {
    SameMembers(a, b);
    if a != [] {
      SortedHeadsAgree(leq, a, b);
      SortedTail(leq, a);
      SortedTail(leq, b);
      SortedArrangementIsUnique(leq, a[1..], b[1..]);
    }
  }

  /** Sorting forgets the order of its input when distinct elements have distinct keys. */
  lemma {:induction false} SortForgetsOrder<T(!new)>(leq: (T, T) -> bool, a: seq<T>, b: seq<T>)
    requires Total(leq) && Transitive(leq) && multiset(a) == multiset(b)
    requires forall x, y :: x in a && y in a && leq(x, y) && leq(y, x) ==> x == y
    ensures Sort(leq, a) == Sort(leq, b)
  {
    SortPermutes(leq, a);
    SortPermutes(leq, b);
    SortSorts(leq, a);
    SortSorts(leq, b);
    SameMembers(Sort(leq, a), a);
    SortedArrangementIsUnique(leq, Sort(leq, a), Sort(leq, b));
  }
}

/** Counting members of small sets. */
module Sets {
  ghost function Pick<T>(xs: set<T>): (x: T)
    requires xs != {}
    ensures x in xs
  {
    var x :| x in xs; x
  }

  lemma {:induction false} SingletonPick<T>(xs: set<T>, x: T)
    requires x in xs && forall y :: y in xs ==> y == x
    ensures |xs| == 1 && Pick(xs) == x
  {
    assert xs == {x};
  }

  lemma {:induction false} TwoMembers<T>(xs: set<T>, x: T, y: T)
    requires x in xs && y in xs && x != y
    ensures |xs| > 1
  {
    assert |{x, y}| <= |xs| by {
      SubsetSize({x, y}, xs);
    }
  }

  lemma {:induction false} SubsetSize<T>(a: set<T>, b: set<T>)
    requires a <= b
    ensures |a| <= |b|
  {
    if a != {} {
      var x :| x in a;
      SubsetSize(a - {x}, b - {x});
    }
  }
}
