// Result types and small sequence lemmas shared by the other modules.
module Values {
  datatype Option<+T> = None | Some(value: T)

  datatype Result<+T, +E> = Ok(value: T) | Err(error: E)

  /** SHA-256 stands for any collision-free digest of a text. */
  ghost predicate Injective<A(!new), B>(h: A -> B) {
    forall x, y :: h(x) == h(y) ==> x == y
  }

  /** A number above every one in the set: the name of a newcomer. */
  lemma {:induction false} Above(keys: set<nat>) returns (bound: nat)
    ensures forall k :: k in keys ==> k < bound
  {
    if keys == {} {
      bound := 0;
    } else {
      var k :| k in keys;
      var rest := Above(keys - {k});
      bound := if rest > k then rest else k + 1;
      assert forall j :: j in keys && j != k ==> j in keys - {k};
    }
  }

  function Total(ns: seq<int>): int {
    if ns == [] then 0 else ns[0] + Total(ns[1..])
  }

  lemma {:induction false} TotalSnoc(ns: seq<int>, n: int)
    ensures Total(ns + [n]) == Total(ns) + n
  {
    if ns != [] {
      TotalSnoc(ns[1..], n);
      assert (ns + [n])[1..] == ns[1..] + [n];
    } else {
      assert (ns + [n])[1..] == [];
    }
  }
}
