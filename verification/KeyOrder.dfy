/**
 The order of texts by character code, and the fields of a dictionary in that order
 of their keys: this is what `sort_keys` writes.
 */
module KeyOrder {
  import opened CanonicalJson

  predicate TextLe(a: string, b: string) {
    a == [] || (b != [] && (a[0] < b[0] || (a[0] == b[0] && TextLe(a[1..], b[1..]))))
  }

  lemma {:induction false} TextLeTotal(a: string, b: string)
    ensures TextLe(a, b) || TextLe(b, a)
  {
    if a != [] && b != [] && a[0] == b[0] {
      TextLeTotal(a[1..], b[1..]);
    }
  }

  lemma {:induction false} TextLeAntisymmetric(a: string, b: string)
    requires TextLe(a, b) && TextLe(b, a)
    ensures a == b
  {
    if a != [] {
      TextLeAntisymmetric(a[1..], b[1..]);
      assert a == [a[0]] + a[1..] && b == [b[0]] + b[1..];
    }
  }

  lemma {:induction false} TextLeTransitive(a: string, b: string, c: string)
    requires TextLe(a, b) && TextLe(b, c)
    ensures TextLe(a, c)
  {
    if a != [] && a[0] == b[0] == c[0] {
      TextLeTransitive(a[1..], b[1..], c[1..]);
    }
  }

  predicate IsLeast(k: string, keys: set<string>) {
    k in keys && forall j :: j in keys ==> TextLe(k, j)
  }

  lemma {:induction false} LeastExists(keys: set<string>)
    requires keys != {}
    ensures exists k :: IsLeast(k, keys)
    decreases |keys|
  {
    var some :| some in keys;
    TextLeTotal(some, some);
    if keys == {some} {
      assert IsLeast(some, keys);
    } else {
      LeastExists(keys - {some});
      var k :| IsLeast(k, keys - {some});
      TextLeTotal(some, k);
      if TextLe(k, some) {
        assert IsLeast(k, keys);
      } else {
        forall j | j in keys ensures TextLe(some, j) {
          if j != some {
            TextLeTransitive(some, k, j);
          }
        }
        assert IsLeast(some, keys);
      }
    }
  }

  lemma LeastIsUnique(keys: set<string>)
    ensures forall j, k :: IsLeast(j, keys) && IsLeast(k, keys) ==> j == k
  {
    forall j, k | IsLeast(j, keys) && IsLeast(k, keys) ensures j == k {
      TextLeAntisymmetric(j, k);
    }
  }

  function Least(keys: set<string>): (k: string)
    requires keys != {}
    ensures IsLeast(k, keys)
  {
    LeastExists(keys);
    LeastIsUnique(keys);
    var k :| k in keys && IsLeast(k, keys);
    k
  }

  /** The fields of a dictionary, in key order. */
  function FieldsOf(m: map<string, Json>): seq<Field>
    decreases |m|
  {
    if m == map[] then []
    else
      var k := Least(m.Keys);
      assert |m - {k}| < |m| by { assert (m - {k}).Keys == m.Keys - {k}; }
      [Field(k, m[k])] + FieldsOf(m - {k})
  }

  lemma {:induction false} FieldsTellTheMap(m: map<string, Json>, n: map<string, Json>)
    requires FieldsOf(m) == FieldsOf(n)
    ensures m == n
    decreases |m|
  {
    if m != map[] && n != map[] {
      var k := Least(m.Keys);
      assert FieldsOf(m)[0] == FieldsOf(n)[0];
      assert FieldsOf(m)[1..] == FieldsOf(m - {k}) && FieldsOf(n)[1..] == FieldsOf(n - {k});
      assert (m - {k}).Keys == m.Keys - {k};
      FieldsTellTheMap(m - {k}, n - {k});
      assert m == (m - {k})[k := m[k]] && n == (n - {k})[k := n[k]];
    }
  }

  /** The canonical text of a dictionary tells the dictionary. */
  function Canonical(m: map<string, Json>, asciiOnly: bool): string {
    Encode(Object(FieldsOf(m)), asciiOnly)
  }

  lemma CanonicalInjective(m: map<string, Json>, n: map<string, Json>, asciiOnly: bool)
    ensures Canonical(m, asciiOnly) == Canonical(n, asciiOnly) <==> m == n
    ensures Canonical(m, asciiOnly) != ""
  {
    hide Encode, FieldsOf;
    HeadTellsKind(Object(FieldsOf(m)), asciiOnly);
    if Canonical(m, asciiOnly) == Canonical(n, asciiOnly) {
      EncodeInjective(Object(FieldsOf(m)), Object(FieldsOf(n)), asciiOnly);
      FieldsTellTheMap(m, n);
    }
  }
}
