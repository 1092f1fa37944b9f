/**
 The stable sort of a sequence, as the library's `sort` promises it: elements that
 rank alike keep the order they came in.
 */
module StableSort {

  ghost predicate TotalPreorder<T(!new)>(le: (T, T) -> bool) {
    && (forall x, y :: le(x, y) || le(y, x))
    && (forall x, y, z :: le(x, y) && le(y, z) ==> le(x, z))
  }

  predicate Alike<T>(le: (T, T) -> bool, x: T, y: T) {
    le(x, y) && le(y, x)
  }

  ghost predicate Ordered<T>(s: seq<T>, le: (T, T) -> bool) {
    forall i, j :: 0 <= i < j < |s| ==> le(s[i], s[j])
  }

  /** x goes before everything that does not rank below it. */
  function Insert<T>(x: T, s: seq<T>, le: (T, T) -> bool): seq<T> {
    if s == [] || le(x, s[0]) then [x] + s else [s[0]] + Insert(x, s[1..], le)
  }

  function Sort<T>(s: seq<T>, le: (T, T) -> bool): seq<T> {
    if s == [] then [] else Insert(s[0], Sort(s[1..], le), le)
  }

  // ------------------------------------------------------------ what it does

  lemma {:induction false} InsertPermutes<T>(x: T, s: seq<T>, le: (T, T) -> bool)
    ensures multiset(Insert(x, s, le)) == multiset(s) + multiset{x}
  {
    if s != [] && !le(x, s[0]) {
      InsertPermutes(x, s[1..], le);
      assert s == [s[0]] + s[1..];
    }
  }

  lemma {:induction false} SortPermutes<T>(s: seq<T>, le: (T, T) -> bool)
    ensures multiset(Sort(s, le)) == multiset(s)
    ensures |Sort(s, le)| == |s|
  {
    if s != [] {
      SortPermutes(s[1..], le);
      InsertPermutes(s[0], Sort(s[1..], le), le);
      assert s == [s[0]] + s[1..];
    }
    assert |multiset(Sort(s, le))| == |Sort(s, le)| && |multiset(s)| == |s|;
  }

  lemma InPermutation<T>(s: seq<T>, t: seq<T>, x: T)
    requires multiset(s) == multiset(t)
    ensures x in s <==> x in t
  {
    assert x in s <==> x in multiset(s);
    assert x in t <==> x in multiset(t);
  }

  lemma {:induction false} InsertOrders<T(!new)>(x: T, s: seq<T>, le: (T, T) -> bool)
    requires TotalPreorder(le) && Ordered(s, le)
    ensures Ordered(Insert(x, s, le), le)
  {
    if s == [] {
    } else if le(x, s[0]) {
      forall i | 0 <= i < |s| ensures le(x, s[i]) {
        assert i > 0 ==> le(s[0], s[i]);
      }
    } else {
      var rest := Insert(x, s[1..], le);
      InsertOrders(x, s[1..], le);
      InsertPermutes(x, s[1..], le);
      forall i | 0 <= i < |rest| ensures le(s[0], rest[i]) {
        assert rest[i] in multiset(rest);
        assert rest[i] in multiset(s[1..]) || rest[i] == x;
        if rest[i] in multiset(s[1..]) {
          var j :| 0 <= j < |s| - 1 && s[1..][j] == rest[i];
          assert s[j + 1] == rest[i];
        }
      }
    }
  }

  lemma {:induction false} SortOrders<T(!new)>(s: seq<T>, le: (T, T) -> bool)
    requires TotalPreorder(le)
    ensures Ordered(Sort(s, le), le)
  {
    if s != [] {
      SortOrders(s[1..], le);
      InsertOrders(s[0], Sort(s[1..], le), le);
    }
  }

  /** What is in order already stays as it is. */
  lemma {:induction false} SortKeepsOrdered<T(!new)>(s: seq<T>, le: (T, T) -> bool)
    requires Ordered(s, le)
    ensures Sort(s, le) == s
  {
    if s != [] {
      SortKeepsOrdered(s[1..], le);
      assert |s| > 1 ==> le(s[0], s[1]);
      assert s == [s[0]] + s[1..];
    }
  }

  // --------------------------------------------------------------- stability

  /** The first element that ranks like x. */
  function FirstLike<T>(s: seq<T>, x: T, le: (T, T) -> bool): (i: nat)
    ensures i <= |s|
    ensures i < |s| ==> Alike(le, s[i], x)
    ensures forall j :: 0 <= j < i ==> !Alike(le, s[j], x)
  {
    if s == [] || Alike(le, s[0], x) then 0 else 1 + FirstLike(s[1..], x, le)
  }

  predicate FirstIs<T(==)>(s: seq<T>, x: T, y: T, le: (T, T) -> bool) {
    var i := FirstLike(s, x, le);
    i < |s| && s[i] == y
  }

  lemma {:induction false} InsertFirst<T(!new)>(w: T, s: seq<T>, x: T, y: T, le: (T, T) -> bool)
    requires TotalPreorder(le) && Ordered(s, le)
    requires if Alike(le, w, x) then w == y else FirstIs(s, x, y, le)
    ensures FirstIs(Insert(w, s, le), x, y, le)
  {
    if s == [] || le(w, s[0]) {
      assert ([w] + s)[1..] == s;
    } else {
      var rest := Insert(w, s[1..], le);
      assert ([s[0]] + rest)[1..] == rest;
      if Alike(le, w, x) {
        assert le(s[0], w) && !Alike(le, s[0], x);
        InsertFirst(w, s[1..], x, y, le);
      } else if !Alike(le, s[0], x) {
        InsertFirst(w, s[1..], x, y, le);
      }
    }
  }

  /** Stability: the first of those that rank alike comes out first. */
  lemma {:induction false} SortKeepsFirst<T(!new)>(s: seq<T>, x: T, y: T, le: (T, T) -> bool)
    requires TotalPreorder(le) && FirstIs(s, x, y, le)
    ensures FirstIs(Sort(s, le), x, y, le)
  {
    if s != [] {
      SortOrders(s[1..], le);
      if !Alike(le, s[0], x) {
        SortKeepsFirst(s[1..], x, y, le);
      }
      InsertFirst(s[0], Sort(s[1..], le), x, y, le);
    }
  }

  // -------------------------------------------------------------- uniqueness

  /** Elements that rank alike are equal. */
  ghost predicate Distinguishes<T(!new)>(s: seq<T>, le: (T, T) -> bool) {
    forall x, y :: x in s && y in s && Alike(le, x, y) ==> x == y
  }

  lemma HeadIsLeast<T(!new)>(s: seq<T>, i: nat, le: (T, T) -> bool)
    requires TotalPreorder(le) && Ordered(s, le) && i < |s|
    ensures le(s[0], s[i])
  {
    if i == 0 {
      assert le(s[0], s[0]);
    }
  }

  lemma HeadsAgree<T(!new)>(s: seq<T>, t: seq<T>, le: (T, T) -> bool)
    requires TotalPreorder(le) && Ordered(s, le) && Ordered(t, le) && Distinguishes(s, le)
    requires multiset(s) == multiset(t) && s != [] && t != []
    ensures s[0] == t[0]
  {
    InPermutation(s, t, s[0]);
    InPermutation(s, t, t[0]);
    var i :| 0 <= i < |t| && t[i] == s[0];
    var j :| 0 <= j < |s| && s[j] == t[0];
    HeadIsLeast(t, i, le);
    HeadIsLeast(s, j, le);
  }

  lemma SameSize<T>(s: seq<T>, t: seq<T>)
    requires multiset(s) == multiset(t)
    ensures |s| == |t|
  {
    assert |multiset(s)| == |s| && |multiset(t)| == |t|;
  }

  lemma Tail<T>(s: seq<T>)
    requires s != []
    ensures multiset(s) == multiset(s[1..]) + multiset{s[0]}
  {
    assert s == [s[0]] + s[1..];
  }

  lemma TailsPermute<T>(s: seq<T>, t: seq<T>)
    requires multiset(s) == multiset(t) && s != [] && t != [] && s[0] == t[0]
    ensures multiset(s[1..]) == multiset(t[1..])
  {
    Tail(s);
    Tail(t);
    Cancel(multiset(s[1..]), multiset(t[1..]), s[0]);
  }

  lemma Cancel<T>(a: multiset<T>, b: multiset<T>, x: T)
    requires a + multiset{x} == b + multiset{x}
    ensures a == b
  {
    assert a == (a + multiset{x}) - multiset{x} && b == (b + multiset{x}) - multiset{x};
  }

  lemma HeadAndTail<T>(s: seq<T>, t: seq<T>)
    requires s != [] && t != [] && s[0] == t[0] && s[1..] == t[1..]
    ensures s == t
  {
    assert s == [s[0]] + s[1..] && t == [t[0]] + t[1..];
  }

  lemma TailOrdered<T(!new)>(s: seq<T>, le: (T, T) -> bool)
    requires s != []
    ensures Ordered(s, le) ==> Ordered(s[1..], le)
    ensures Distinguishes(s, le) ==> Distinguishes(s[1..], le)
  {}

  lemma {:induction false} OrderedIsUnique<T(!new)>(s: seq<T>, t: seq<T>, le: (T, T) -> bool)
    requires TotalPreorder(le) && Ordered(s, le) && Ordered(t, le) && Distinguishes(s, le)
    requires multiset(s) == multiset(t)
    ensures s == t
  {
    hide TotalPreorder, Ordered, Distinguishes;
    SameSize(s, t);
    if s != [] {
      HeadsAgree(s, t, le);
      TailsPermute(s, t);
      TailOrdered(s, le);
      TailOrdered(t, le);
      OrderedIsUnique(s[1..], t[1..], le);
      HeadAndTail(s, t);
    }
  }

  // ----------------------------------------------------------------- mapping

  function Map<S, T>(f: S -> T, s: seq<S>): (r: seq<T>)
    ensures |r| == |s| && forall i :: 0 <= i < |s| ==> r[i] == f(s[i])
  {
    if s == [] then [] else [f(s[0])] + Map(f, s[1..])
  }

  lemma {:induction false} InsertMaps<T>(f: T -> T, x: T, s: seq<T>, le: (T, T) -> bool)
    requires forall y :: y in s ==> (le(f(x), f(y)) <==> le(x, y))
    ensures Insert(f(x), Map(f, s), le) == Map(f, Insert(x, s, le))
  {
    if s != [] && !le(x, s[0]) {
      InsertMaps(f, x, s[1..], le);
      assert ([s[0]] + Insert(x, s[1..], le))[1..] == Insert(x, s[1..], le);
    } else {
      assert ([x] + s)[1..] == s;
    }
  }

  /** Sorting commutes with a change of the elements that does not touch their rank. */
  lemma {:induction false} SortMaps<T(!new)>(f: T -> T, s: seq<T>, le: (T, T) -> bool)
    requires forall x, y :: le(f(x), f(y)) <==> le(x, y)
    ensures Sort(Map(f, s), le) == Map(f, Sort(s, le))
  {
    if s != [] {
      SortMaps(f, s[1..], le);
      assert Map(f, s)[1..] == Map(f, s[1..]);
      InsertMaps(f, s[0], Sort(s[1..], le), le);
    }
  }

  function Without<T>(s: seq<T>, k: nat): seq<T>
    requires k < |s|
  {
    s[..k] + s[k + 1..]
  }

  lemma WithoutOne<T>(s: seq<T>, k: nat)
    requires k < |s|
    ensures multiset(s) == multiset(Without(s, k)) + multiset{s[k]}
  {
    var a, b, c := s[..k], [s[k]], s[k + 1..];
    assert s == a + (b + c);
    assert multiset(s) == multiset(a) + multiset(b + c);
  }

  lemma MapWithout<T>(f: T -> T, s: seq<T>, k: nat)
    requires k < |s|
    ensures Map(f, Without(s, k)) == Without(Map(f, s), k)
  {
    hide Map;
    var u, v := Map(f, Without(s, k)), Without(Map(f, s), k);
    assert |u| == |v|;
    forall i | 0 <= i < |u| ensures u[i] == v[i] {
      assert u[i] == f(Without(s, k)[i]);
      if i < k {
        assert Without(s, k)[i] == s[i] && v[i] == Map(f, s)[i];
      } else {
        assert Without(s, k)[i] == s[i + 1] && v[i] == Map(f, s)[i + 1];
      }
    }
  }

  lemma {:induction false} MapPermutes<T>(f: T -> T, s: seq<T>, t: seq<T>)
    requires multiset(s) == multiset(t)
    ensures multiset(Map(f, s)) == multiset(Map(f, t))
  {
    hide Without;
    SameSize(s, t);
    if s != [] {
      InPermutation(s, t, s[0]);
      var k :| 0 <= k < |t| && t[k] == s[0];
      WithoutOne(t, k);
      Tail(s);
      Cancel(multiset(s[1..]), multiset(Without(t, k)), s[0]);
      MapPermutes(f, s[1..], Without(t, k));
      MapWithout(f, t, k);
      WithoutOne(Map(f, t), k);
      MapTail(f, s);
      Tail(Map(f, s));
    }
  }

  lemma MapTail<T>(f: T -> T, s: seq<T>)
    requires s != []
    ensures Map(f, s)[1..] == Map(f, s[1..])
  {}
}
