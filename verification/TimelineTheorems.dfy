/** What sealing promises, and what the digest of a verified timeline tells. */
module TimelineTheorems {
  import opened Values
  import opened CanonicalJson
  import opened KeyOrder
  import opened StableSort
  import opened Timeline

  // ------------------------------------------------------- the order is total

  lemma RankLeTotal(a: Rank, b: Rank)
    ensures RankLe(a, b) || RankLe(b, a)
  {
    TextLeTotal(a.source, b.source);
    TextLeTotal(a.sourceId, b.sourceId);
    TextLeTotal(a.signal, b.signal);
  }

  lemma RankLeAntisymmetric(a: Rank, b: Rank)
    requires RankLe(a, b) && RankLe(b, a)
    ensures a == b
  {
    if a.time == b.time {
      if a.source != b.source {
        TextLeAntisymmetric(a.source, b.source);
      } else if a.sourceId != b.sourceId {
        TextLeAntisymmetric(a.sourceId, b.sourceId);
      } else {
        TextLeAntisymmetric(a.signal, b.signal);
      }
    }
  }

  lemma RankLeTransitive(a: Rank, b: Rank, c: Rank)
    requires RankLe(a, b) && RankLe(b, c)
    ensures RankLe(a, c)
  {
    if a.time == b.time == c.time {
      if a.source == b.source == c.source {
        if a.sourceId == b.sourceId == c.sourceId {
          TextLeTransitive(a.signal, b.signal, c.signal);
        } else if a.sourceId != b.sourceId && b.sourceId != c.sourceId {
          TextLeTransitive(a.sourceId, b.sourceId, c.sourceId);
          if a.sourceId == c.sourceId { TextLeAntisymmetric(a.sourceId, b.sourceId); }
        }
      } else if a.source != b.source && b.source != c.source {
        TextLeTransitive(a.source, b.source, c.source);
        if a.source == c.source { TextLeAntisymmetric(a.source, b.source); }
      }
    }
  }

  lemma ByRankOrders(host: Host)
    ensures TotalPreorder(ByRank(host))
  {
    hide RankLe, RankOf;
    forall x: Item, y: Item ensures ByRank(host)(x, y) || ByRank(host)(y, x) {
      RankLeTotal(RankOf(host, x), RankOf(host, y));
    }
    forall x: Item, y: Item, z: Item | ByRank(host)(x, y) && ByRank(host)(y, z) ensures ByRank(host)(x, z) {
      RankLeTransitive(RankOf(host, x), RankOf(host, y), RankOf(host, z));
    }
  }

  lemma AlikeMeansSameRank(host: Host, x: Item, y: Item)
    ensures Alike(ByRank(host), x, y) <==> RankOf(host, x) == RankOf(host, y)
  {
    hide RankLe, RankOf;
    if Alike(ByRank(host), x, y) {
      RankLeAntisymmetric(RankOf(host, x), RankOf(host, y));
    } else {
      RankLeTotal(RankOf(host, x), RankOf(host, y));
    }
  }

  // ------------------------------------------------------------ seal verifies

  lemma {:induction false} SealedPrefix(host: Host, items: seq<Item>, n: nat, k: nat)
    requires k <= n <= |items|
    ensures SealUpTo(host, items, n)[..k] == SealUpTo(host, items, k)
  {
    hide SealOne, Last;
    if k < n {
      SealedPrefix(host, items, n - 1, k);
      assert SealUpTo(host, items, n)[..k] == SealUpTo(host, items, n - 1)[..k];
    }
  }

  lemma SealedAt(host: Host, items: seq<Item>, n: nat, i: nat)
    requires i < n <= |items|
    ensures var sealed := SealUpTo(host, items, n);
            sealed[i] == SealOne(host, items[i], i + 1, Last(host, sealed[..i]))
  {
    hide SealOne;
    SealedPrefix(host, items, n, i + 1);
    SealedPrefix(host, items, n, i);
    assert SealUpTo(host, items, n)[i] == SealUpTo(host, items, n)[..i + 1][i];
  }

  lemma SealedOneLinks(host: Host, item: Item, n: int, previous: string)
    ensures var sealed := SealOne(host, item, n, previous);
            && Get(sealed, "sequence") == Int(n)
            && Get(sealed, "previous_sha256") == PreviousOf(previous)
            && Get(sealed, "event_sha256") == Text(DigestOf(host, sealed))
  {
    hide Canonical, Category, ObservedState, SignalType;
    SealingKeepsDigest(host, item, n, previous);
    hide DigestOf;
  }

  lemma LastIsADigest(host: Host, sealed: seq<Item>)
    ensures Sound(host) ==> (Last(host, sealed) == "" <==> sealed == [])
  {
    hide Canonical, Injective;
  }

  /** Whatever is sealed verifies, and the reported digest is the one a report check expects. */
  lemma SealVerifies(host: Host, events: seq<Item>)
    requires Seal(host, events).Some?
    ensures Verified(host, Seal(host, events).value.timeline)
    ensures Sound(host) ==> Seal(host, events).value.digest == TimelineDigest(host, Seal(host, events).value.timeline)
  {
    hide SealOne, Last, ByRank, Canonical, Injective;
    var ordered := Sort(events, ByRank(host));
    var sealed := SealUpTo(host, ordered, |ordered|);
    LastIsADigest(host, sealed);
    hide DigestOf, TimelineDigest;
    forall i | 0 <= i < |sealed| ensures Link(host, sealed, i) {
      SealedAt(host, ordered, |ordered|, i);
      SealedOneLinks(host, ordered[i], i + 1, Last(host, sealed[..i]));
    }
  }

  // ---------------------------------------------------- a sorted permutation

  /** What sealing writes over; everything else in an event it leaves alone. */
  const SEAL_KEYS: set<string> := {"sequence", "category", "observed_state", "previous_sha256", "event_sha256"}

  function Core(item: Item): Item {
    item - SEAL_KEYS
  }

  function Cores(items: seq<Item>): (r: seq<Item>)
    ensures |r| == |items| && forall i :: 0 <= i < |r| ==> r[i] == Core(items[i])
  {
    Map(Core, items)
  }

  lemma SealingKeepsCore(host: Host, item: Item, n: int, previous: string)
    ensures Core(SealOne(host, item, n, previous)) == Core(item)
  {
    hide Canonical, Category, ObservedState, SignalType, DigestOf;
    var sealed := SealOne(host, item, n, previous);
    assert sealed.Keys == item.Keys + SEAL_KEYS;
    assert forall k :: k in item.Keys && k !in SEAL_KEYS ==> sealed[k] == item[k];
  }

  lemma CoreKeepsRank(host: Host, item: Item)
    ensures RankOf(host, Core(item)) == RankOf(host, item) && Stamp(host, Core(item)) == Stamp(host, item)
  {
    assert forall k :: k !in SEAL_KEYS ==> Get(Core(item), k) == Get(item, k);
  }

  /**
   The timeline holds the given events, each exactly as often as it was given and
   changed only in the five keys that sealing writes, in the order of their ranks.
   */
  lemma SealSorts(host: Host, events: seq<Item>)
    requires Seal(host, events).Some?
    ensures var t := Seal(host, events).value.timeline;
            && multiset(Cores(t)) == multiset(Cores(events))
            && Ordered(t, ByRank(host))
  {
    hide SealOne, RankOf, Core;
    var ordered := Sort(events, ByRank(host));
    var t := Seal(host, events).value.timeline;
    SortedCores(host, events);
    ByRankOrders(host);
    SortOrders(events, ByRank(host));
    forall i, j | 0 <= i < j < |t| ensures ByRank(host)(t[i], t[j]) {
      CoreKeepsRank(host, t[i]);
      CoreKeepsRank(host, t[j]);
      CoreKeepsRank(host, ordered[i]);
      CoreKeepsRank(host, ordered[j]);
      assert Cores(t)[i] == Cores(ordered)[i] && Cores(t)[j] == Cores(ordered)[j];
    }
    SortPermutes(events, ByRank(host));
    MapPermutes(Core, ordered, events);
  }

  /** Sealing does not change the cores of what the sort puts out. */
  lemma SortedCores(host: Host, events: seq<Item>)
    ensures var ordered := Sort(events, ByRank(host));
            Cores(SealUpTo(host, ordered, |ordered|)) == Cores(ordered)
  {
    hide SealOne, Core;
    var ordered := Sort(events, ByRank(host));
    var sealed := SealUpTo(host, ordered, |ordered|);
    forall i | 0 <= i < |ordered| ensures Cores(sealed)[i] == Cores(ordered)[i] {
      SealedAt(host, ordered, |ordered|, i);
      SealingKeepsCore(host, ordered[i], i + 1, Last(host, sealed[..i]));
    }
  }

  // -------------------------------------------------------------- idempotence

  lemma ReadingCore(item: Item, k: string)
    requires k !in SEAL_KEYS
    ensures Get(Core(item), k) == Get(item, k)
  {}

  lemma SameReading(x: Item, y: Item, k: string)
    requires Core(x) == Core(y) && k !in SEAL_KEYS
    ensures Get(x, k) == Get(y, k) && (k in x <==> k in y)
  {
    ReadingCore(x, k);
    ReadingCore(y, k);
    assert k in Core(x) <==> k in x;
  }

  lemma NumbersCore(host: Host, x: Item, y: Item, n: int, previous: string)
    requires Core(x) == Core(y)
    ensures Numbered(host, x, n, previous) - {"event_sha256"} == Numbered(host, y, n, previous) - {"event_sha256"}
  {
    hide Category, Core, Get, FirstState, Printed;
    var p, q := Numbered(host, x, n, previous), Numbered(host, y, n, previous);
    NumberedReads(host, x, n, previous);
    NumberedReads(host, y, n, previous);
    SameReading(x, y, "signal_type");
    SameReading(x, y, "observation_snapshot");
    SameReading(x, y, "signal_snapshot");
    hide Numbered;
    forall k | k !in SEAL_KEYS ensures (k in p <==> k in q) && (k in p ==> p[k] == q[k]) {
      SameReading(x, y, k);
      NumberedElsewhere(host, x, n, previous, k);
      NumberedElsewhere(host, y, n, previous, k);
      assert k in p ==> Get(x, k) == x[k] && Get(y, k) == y[k] by { InItem(x, k); InItem(y, k); }
    }
  }

  lemma InItem(x: Item, k: string)
    ensures k in x ==> Get(x, k) == x[k]
  {}

  /** What numbering writes, in terms of the event it starts from. */
  lemma NumberedReads(host: Host, x: Item, n: int, previous: string)
    ensures var p := Numbered(host, x, n, previous);
            && p.Keys == x.Keys + (SEAL_KEYS - {"event_sha256"})
            && p["sequence"] == Int(n) && p["previous_sha256"] == PreviousOf(previous)
            && p["category"] == Text(Category(SignalType(host, x))) && p["observed_state"] == ObservedState(x)
  {
    hide Category, FirstState, Printed;
  }

  lemma NumberedElsewhere(host: Host, x: Item, n: int, previous: string, k: string)
    requires k !in SEAL_KEYS
    ensures var p := Numbered(host, x, n, previous); (k in p <==> k in x) && (k in p ==> p[k] == x[k])
  {
    hide Category, ObservedState, SignalType;
  }

  /** Sealing an event depends on its core only. */
  lemma SealsCore(host: Host, x: Item, y: Item, n: int, previous: string)
    requires Core(x) == Core(y)
    ensures SealOne(host, x, n, previous) == SealOne(host, y, n, previous)
  {
    hide Canonical, Numbered, Core;
    NumbersCore(host, x, y, n, previous);
    var p, q := Numbered(host, x, n, previous), Numbered(host, y, n, previous);
    assert DigestOf(host, p) == DigestOf(host, q);
    SameBut(p, q, Text(DigestOf(host, p)));
  }

  lemma SameBut(p: Item, q: Item, j: Json)
    requires p - {"event_sha256"} == q - {"event_sha256"}
    ensures p["event_sha256" := j] == q["event_sha256" := j]
  {
    assert p["event_sha256" := j] == (p - {"event_sha256"})["event_sha256" := j];
    assert q["event_sha256" := j] == (q - {"event_sha256"})["event_sha256" := j];
  }

  lemma {:induction false} SealsCores(host: Host, u: seq<Item>, v: seq<Item>, n: nat)
    requires n <= |u| == |v| && Cores(u) == Cores(v)
    ensures SealUpTo(host, u, n) == SealUpTo(host, v, n)
  {
    hide SealOne, Core, DigestOf, Last;
    if n > 0 {
      SealsCores(host, u, v, n - 1);
      assert Cores(u)[n - 1] == Cores(v)[n - 1];
      SealsCore(host, u[n - 1], v[n - 1], n, Last(host, SealUpTo(host, u, n - 1)));
    }
  }

  /** Sealing a sealed timeline again changes nothing. */
  lemma SealIdempotent(host: Host, events: seq<Item>)
    requires Seal(host, events).Some?
    ensures Seal(host, Seal(host, events).value.timeline) == Seal(host, events)
  {
    hide SealOne, Core, RankOf, Stamp, TimelineDigest, DigestOf;
    var ordered := Sort(events, ByRank(host));
    var t := Seal(host, events).value.timeline;
    SealSorts(host, events);
    SortKeepsOrdered(t, ByRank(host));
    SortedCores(host, events);
    SealsCores(host, t, ordered, |t|);
    SortPermutes(events, ByRank(host));
    forall i | 0 <= i < |t| ensures Stamp(host, t[i]).Some? {
      CoreKeepsRank(host, t[i]);
      CoreKeepsRank(host, ordered[i]);
      assert Cores(t)[i] == Cores(ordered)[i];
      InPermutation(ordered, events, ordered[i]);
    }
  }

  // ------------------------------------------------------- order of the input

  /** Events that rank alike differ at most in what sealing writes over. */
  ghost predicate Unambiguous(host: Host, events: seq<Item>) {
    forall x, y :: x in events && y in events && RankOf(host, x) == RankOf(host, y) ==> Core(x) == Core(y)
  }

  ghost predicate OrderFree(host: Host, events: seq<Item>) {
    forall other :: multiset(other) == multiset(events) ==> Seal(host, other) == Seal(host, events)
  }

  lemma StampedPermutes(host: Host, a: seq<Item>, b: seq<Item>)
    requires multiset(a) == multiset(b) && Stamped(host, a)
    ensures Stamped(host, b)
  {
    hide Stamp;
    forall i | 0 <= i < |b| ensures Stamp(host, b[i]).Some? {
      InPermutation(a, b, b[i]);
      var j :| 0 <= j < |a| && a[j] == b[i];
    }
  }

  lemma CoresSort(host: Host, events: seq<Item>)
    ensures Sort(Cores(events), ByRank(host)) == Cores(Sort(events, ByRank(host)))
  {
    hide Core, RankOf, RankLe;
    forall x, y ensures ByRank(host)(Core(x), Core(y)) <==> ByRank(host)(x, y) {
      CoreKeepsRank(host, x);
      CoreKeepsRank(host, y);
    }
    SortMaps(Core, events, ByRank(host));
  }

  lemma CoresDistinguished(host: Host, events: seq<Item>)
    requires Unambiguous(host, events)
    ensures Distinguishes(Sort(Cores(events), ByRank(host)), ByRank(host))
  {
    hide Core, RankOf, RankLe;
    var sorted := Sort(Cores(events), ByRank(host));
    SortPermutes(Cores(events), ByRank(host));
    forall c, d | c in sorted && d in sorted && Alike(ByRank(host), c, d) ensures c == d {
      InPermutation(sorted, Cores(events), c);
      InPermutation(sorted, Cores(events), d);
      var i :| 0 <= i < |events| && Cores(events)[i] == c;
      var j :| 0 <= j < |events| && Cores(events)[j] == d;
      CoreKeepsRank(host, events[i]);
      CoreKeepsRank(host, events[j]);
      AlikeMeansSameRank(host, c, d);
      assert events[i] in events && events[j] in events;
    }
  }

  lemma UnambiguousSeals(host: Host, a: seq<Item>, b: seq<Item>)
    requires Stamped(host, a) && Unambiguous(host, a) && multiset(a) == multiset(b)
    ensures Seal(host, a) == Seal(host, b)
  {
    hide Stamped, Unambiguous, ByRank, Last, TotalPreorder, Ordered, Distinguishes;
    var le := ByRank(host);
    StampedPermutes(host, a, b);
    CoresDistinguished(host, a);
    ByRankOrders(host);
    SortOrders(Cores(a), le);
    SortOrders(Cores(b), le);
    SortPermutes(Cores(a), le);
    SortPermutes(Cores(b), le);
    MapPermutes(Core, a, b);
    OrderedIsUnique(Sort(Cores(a), le), Sort(Cores(b), le), le);
    CoresSort(host, a);
    CoresSort(host, b);
    var u, v := Sort(a, le), Sort(b, le);
    assert |u| == |Cores(u)| == |Cores(v)| == |v|;
    SealsCores(host, u, v, |u|);
  }

  /** The events with the k-th moved to the front. */
  function Fronted(events: seq<Item>, k: nat): seq<Item>
    requires k < |events|
  {
    [events[k]] + Without(events, k)
  }

  lemma FrontedPermutes(events: seq<Item>, k: nat)
    requires k < |events|
    ensures multiset(Fronted(events, k)) == multiset(events)
  {
    hide Without;
    WithoutOne(events, k);
    Tail(Fronted(events, k));
    assert Fronted(events, k)[1..] == Without(events, k);
  }

  lemma FrontedComesFirst(host: Host, events: seq<Item>, k: nat, x: Item)
    requires k < |events| && RankOf(host, events[k]) == RankOf(host, x)
    ensures FirstIs(Sort(Fronted(events, k), ByRank(host)), x, events[k], ByRank(host))
  {
    hide Without, RankOf, ByRank;
    AlikeMeansSameRank(host, events[k], x);
    ByRankOrders(host);
    assert FirstIs(Fronted(events, k), x, events[k], ByRank(host));
    SortKeepsFirst(Fronted(events, k), x, events[k], ByRank(host));
  }

  /** Two inputs with one sealed form agree on the core and the rank at every place. */
  lemma SealedAlike(host: Host, b: seq<Item>, c: seq<Item>, p: nat)
    requires Stamped(host, b) && Seal(host, b) == Seal(host, c)
    requires p < |Sort(b, ByRank(host))|
    ensures p < |Sort(c, ByRank(host))|
    ensures Core(Sort(b, ByRank(host))[p]) == Core(Sort(c, ByRank(host))[p])
    ensures RankOf(host, Sort(b, ByRank(host))[p]) == RankOf(host, Sort(c, ByRank(host))[p])
  {
    hide Core, RankOf, ByRank, Stamped, Last;
    SortedCores(host, b);
    SortedCores(host, c);
    var u, v := Sort(b, ByRank(host)), Sort(c, ByRank(host));
    assert SealUpTo(host, u, |u|) == SealUpTo(host, v, |v|);
    assert Cores(u)[p] == Cores(v)[p];
    CoreKeepsRank(host, u[p]);
    CoreKeepsRank(host, v[p]);
  }

  lemma AmbiguousDepends(host: Host, events: seq<Item>, i: nat, j: nat)
    requires Stamped(host, events) && i < |events| && j < |events|
    requires RankOf(host, events[i]) == RankOf(host, events[j])
    requires Seal(host, Fronted(events, i)) == Seal(host, Fronted(events, j))
    ensures Core(events[i]) == Core(events[j])
  {
    hide Core, RankOf, ByRank, Stamped, Fronted, Seal;
    var le, x := ByRank(host), events[i];
    var u, v := Sort(Fronted(events, i), le), Sort(Fronted(events, j), le);
    FrontedPermutes(events, i);
    FrontedPermutes(events, j);
    StampedPermutes(host, events, Fronted(events, i));
    StampedPermutes(host, events, Fronted(events, j));
    FrontedComesFirst(host, events, i, x);
    FrontedComesFirst(host, events, j, x);
    var p, q := FirstLike(u, x, le), FirstLike(v, x, le);
    SealedAlike(host, Fronted(events, i), Fronted(events, j), p);
    SealedAlike(host, Fronted(events, j), Fronted(events, i), q);
    AlikeMeansSameRank(host, u[p], x);
    AlikeMeansSameRank(host, v[p], x);
    AlikeMeansSameRank(host, u[q], x);
    AlikeMeansSameRank(host, v[q], x);
    assert p == q;
  }

  /**
   The sealed timeline is the same for every order of the input if and only if no
   two events with the same four-part key differ in anything sealing does not write.
   */
  lemma OrderFreeExactlyWhenUnambiguous(host: Host, events: seq<Item>)
    requires Stamped(host, events)
    ensures OrderFree(host, events) <==> Unambiguous(host, events)
  {
    hide Core, RankOf, Stamped, Fronted, Seal;
    if Unambiguous(host, events) {
      forall other | multiset(other) == multiset(events) ensures Seal(host, other) == Seal(host, events) {
        UnambiguousSeals(host, events, other);
      }
    } else {
      var x, y :| x in events && y in events && RankOf(host, x) == RankOf(host, y) && Core(x) != Core(y);
      var i :| 0 <= i < |events| && events[i] == x;
      var j :| 0 <= j < |events| && events[j] == y;
      FrontedPermutes(events, i);
      FrontedPermutes(events, j);
      if Seal(host, Fronted(events, i)) == Seal(host, Fronted(events, j)) {
        AmbiguousDepends(host, events, i, j);
      }
    }
  }

  // ------------------------------------------- the digest tells the timeline

  lemma DigestTellsTheItem(host: Host, x: Item, y: Item)
    requires Injective(host.digest) && DigestOf(host, x) == DigestOf(host, y)
    requires Get(x, "event_sha256") == Text(DigestOf(host, x)) && Get(y, "event_sha256") == Text(DigestOf(host, y))
    ensures x == y
  {
    hide Canonical;
    var d := "event_sha256";
    CanonicalInjective(x - {d}, y - {d}, false);
    assert x == (x - {d})[d := Get(x, d)] && y == (y - {d})[d := Get(y, d)];
  }

  lemma PrefixVerified(host: Host, t: seq<Item>)
    requires Verified(host, t) && t != []
    ensures Verified(host, t[..|t| - 1])
  {
    hide DigestOf, Last;
    var before := t[..|t| - 1];
    forall i | 0 <= i < |before| ensures Link(host, before, i) {
      assert Link(host, t, i) && before[..i] == t[..i];
    }
  }

  /**
   Two timelines that verify and carry the same digest are equal, event for event:
   no event can be changed, added, dropped or moved without changing the digest.
   */
  lemma {:induction false} DigestTellsTheTimeline(host: Host, a: seq<Item>, b: seq<Item>)
    requires Injective(host.digest) && Verified(host, a) && Verified(host, b)
    requires TimelineDigest(host, a) == TimelineDigest(host, b)
    ensures a == b
  {
    hide Canonical, DigestOf;
    NonemptyDigest(host, a);
    NonemptyDigest(host, b);
    if a != [] {
      var m, n := |a| - 1, |b| - 1;
      assert Link(host, a, m) && Link(host, b, n);
      DigestTellsTheItem(host, a[m], b[n]);
      assert m == n;
      PrefixVerified(host, a);
      PrefixVerified(host, b);
      assert PreviousOf(Last(host, a[..m])) == PreviousOf(Last(host, b[..n]));
      DigestTellsTheTimeline(host, a[..m], b[..n]);
      assert a == a[..m] + [a[m]] && b == b[..n] + [b[n]];
    }
  }

  /** The digest of the empty timeline is that of no other. */
  lemma NonemptyDigest(host: Host, t: seq<Item>)
    requires Injective(host.digest)
    ensures TimelineDigest(host, t) == host.digest("") <==> t == []
  {
    hide Canonical;
    if t != [] {
      var last := t[|t| - 1] - {"event_sha256"};
      CanonicalInjective(last, last, false);
    }
  }
}
