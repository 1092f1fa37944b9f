/**
 The canonical JSON text that the fingerprints and digests are taken of: compact
 separators, no spaces, object keys in one fixed order, string escaping as in
 section 7 of RFC 8259. The main result is that the text determines the value,
 so that an injective digest of the text determines it too.
 */
module CanonicalJson {

  /** Object fields are kept in key order; floating-point numbers are not modelled. */
  datatype Json =
    | Null
    | Bool(b: bool)
    | Int(n: int)
    | Text(s: string)
    | Array(items: seq<Json>)
    | Object(fields: seq<Field>)

  datatype Field = Field(key: string, value: Json)

  // ---------------------------------------------------------------- escaping

  function HexDigit(d: nat): char
    requires d < 16
  {
    if d < 10 then '0' + d as char else 'a' + (d - 10) as char
  }

  function Hex4(n: nat): string
    requires n < 0x10000
  {
    [HexDigit(n / 0x1000), HexDigit(n / 0x100 % 16), HexDigit(n / 0x10 % 16), HexDigit(n % 16)]
  }

  function Unicode4(n: nat): string
    requires n < 0x10000
  {
    ['\\', 'u'] + Hex4(n)
  }

  /** `asciiOnly` is Python's ensure_ascii: fingerprints set it, commands do not. */
  function Escape(c: char, asciiOnly: bool): string {
    if c == '\"' then ['\\', '\"']
    else if c == '\\' then ['\\', '\\']
    else if c == '\n' then ['\\', 'n']
    else if c == '\r' then ['\\', 'r']
    else if c == '\t' then ['\\', 't']
    else if c as int == 0x0C then ['\\', 'f']
    else if c as int == 0x08 then ['\\', 'b']
    else if c as int < 0x20 then Unicode4(c as int)
    else if !asciiOnly || c as int < 0x7F then [c]
    else if c as int < 0x10000 then Unicode4(c as int)
    else
      var v := c as int - 0x10000;
      Unicode4(0xD800 + v / 0x400) + Unicode4(0xDC00 + v % 0x400)
  }

  function EscapeAll(s: string, asciiOnly: bool): string {
    if s == [] then [] else Escape(s[0], asciiOnly) + EscapeAll(s[1..], asciiOnly)
  }

  function Quote(s: string, asciiOnly: bool): string {
    ['\"'] + EscapeAll(s, asciiOnly) + ['\"']
  }

  // ----------------------------------------------------------------- numbers

  function Digits(n: nat): string {
    if n < 10 then ['0' + n as char] else Digits(n / 10) + ['0' + (n % 10) as char]
  }

  function Number(n: int): string {
    if n < 0 then ['-'] + Digits(-n) else Digits(n)
  }

  // -------------------------------------------------------------- serializer

  function Encode(j: Json, asciiOnly: bool): string
    decreases j, 0
  {
    match j
    case Null => "null"
    case Bool(b) => if b then "true" else "false"
    case Int(n) => Number(n)
    case Text(s) => Quote(s, asciiOnly)
    case Array(items) => ['['] + EncodeItems(items, asciiOnly)
    case Object(fields) => ['{'] + EncodeFields(fields, asciiOnly)
  }

  /** The items of an array, each followed by a comma or, after the last, by the bracket. */
  function EncodeItems(items: seq<Json>, asciiOnly: bool): string
    decreases items, 1
  {
    if items == [] then [']']
    else
      Encode(items[0], asciiOnly)
      + (if |items| == 1 then [']'] else [','] + EncodeItems(items[1..], asciiOnly))
  }

  function EncodeFields(fields: seq<Field>, asciiOnly: bool): string
    decreases fields, 1
  {
    if fields == [] then ['}']
    else
      Quote(fields[0].key, asciiOnly) + [':'] + Encode(fields[0].value, asciiOnly)
      + (if |fields| == 1 then ['}'] else [','] + EncodeFields(fields[1..], asciiOnly))
  }

  // ------------------------------------------------- unique decodability

  /** What may follow a value: a number must not be continued by another digit. */
  predicate Stops(rest: string) {
    rest == [] || !IsDigit(rest[0])
  }

  predicate IsDigit(c: char) {
    '0' <= c <= '9'
  }

  lemma Split(a: string, x: string, b: string, y: string)
    requires a + x == b + y && |a| == |b|
    ensures a == b && x == y
  {
    assert a == (a + x)[..|a|] && b == (b + y)[..|b|];
    assert x == (a + x)[|a|..] && y == (b + y)[|b|..];
  }

  lemma SameHead(a: string, x: string, b: string, y: string)
    requires a + x == b + y && a != [] && b != []
    ensures a[0] == b[0]
  {
    assert (a + x)[0] == a[0] && (b + y)[0] == b[0];
  }

  lemma Hex4Value(n: nat)
    ensures n == 0x1000 * (n / 0x1000) + 0x100 * (n / 0x100 % 16) + 0x10 * (n / 0x10 % 16) + n % 16
  {
    assert n / 0x10 / 16 == n / 0x100;
    assert n / 0x100 / 16 == n / 0x1000;
  }

  lemma Hex4Injective(m: nat, n: nat)
    requires m < 0x10000 && n < 0x10000 && Hex4(m) == Hex4(n)
    ensures m == n
  {
    var a, b := Hex4(m), Hex4(n);
    assert a[0] == b[0] && a[1] == b[1] && a[2] == b[2] && a[3] == b[3];
    DigitInjective(m / 0x1000, n / 0x1000);
    DigitInjective(m / 0x100 % 16, n / 0x100 % 16);
    DigitInjective(m / 0x10 % 16, n / 0x10 % 16);
    DigitInjective(m % 16, n % 16);
    Hex4Value(m);
    Hex4Value(n);
  }

  lemma DigitInjective(d: nat, e: nat)
    requires d < 16 && e < 16
    ensures HexDigit(d) == HexDigit(e) ==> d == e
  {}

  /** Escapes form a prefix code, also with the surrogate pairs of the ASCII-only form. */
  lemma EscapePrefixFree(c: char, x: string, d: char, y: string, asciiOnly: bool)
    requires Escape(c, asciiOnly) + x == Escape(d, asciiOnly) + y
    ensures c == d && x == y
  {
    var e, f := Escape(c, asciiOnly), Escape(d, asciiOnly);
    SameHead(e, x, f, y);
    if |e| == |f| {
      Split(e, x, f, y);
      EscapeInjective(c, d, asciiOnly);
    } else {
      assert e[0] == '\\' && |e| >= 2 && |f| >= 2;
      assert (e + x)[1] == e[1] && (f + y)[1] == f[1];
      assert e[1] == f[1] == 'u';
      SurrogatePrefix(c, x, d, y, asciiOnly);
    }
  }

  lemma EscapeInjective(c: char, d: char, asciiOnly: bool)
    requires Escape(c, asciiOnly) == Escape(d, asciiOnly)
    ensures c == d
  {
    var e := Escape(c, asciiOnly);
    if |e| == 1 {
      assert e == [c] == [d];
    } else if |e| == 6 {
      UnicodeInjective(c as int, d as int);
    } else if |e| == 12 {
      var v, w := c as int - 0x10000, d as int - 0x10000;
      PairInjective(v, w);
    } else {
      assert e[1] == Escape(d, asciiOnly)[1];
    }
  }

  lemma UnicodeInjective(m: nat, n: nat)
    requires m < 0x10000 && n < 0x10000 && Unicode4(m) == Unicode4(n)
    ensures m == n
  {
    Split(['\\', 'u'], Hex4(m), ['\\', 'u'], Hex4(n));
    Hex4Injective(m, n);
  }

  lemma PairInjective(v: nat, w: nat)
    requires v < 0x100000 && w < 0x100000
    requires Unicode4(0xD800 + v / 0x400) + Unicode4(0xDC00 + v % 0x400)
          == Unicode4(0xD800 + w / 0x400) + Unicode4(0xDC00 + w % 0x400)
    ensures v == w
  {
    Split(Unicode4(0xD800 + v / 0x400), Unicode4(0xDC00 + v % 0x400),
          Unicode4(0xD800 + w / 0x400), Unicode4(0xDC00 + w % 0x400));
    UnicodeInjective(0xD800 + v / 0x400, 0xD800 + w / 0x400);
    UnicodeInjective(0xDC00 + v % 0x400, 0xDC00 + w % 0x400);
  }

  lemma LongEscape(c: char, asciiOnly: bool)
    requires |Escape(c, asciiOnly)| >= 6
    ensures var e := Escape(c, asciiOnly);
            if c as int < 0x10000 then |e| == 6 && e[2..6] == Hex4(c as int)
            else |e| == 12 && e[2..6] == Hex4(0xD800 + (c as int - 0x10000) / 0x400)
  {
    if c as int < 0x10000 {
      assert Escape(c, asciiOnly) == Unicode4(c as int);
    }
  }

  lemma SameMiddle(e: string, x: string, f: string, y: string)
    requires e + x == f + y && |e| >= 6 && |f| >= 6
    ensures e[2..6] == f[2..6]
  {
    assert (e + x)[2..6] == e[2..6] && (f + y)[2..6] == f[2..6];
  }

  /** A character below U+10000 is never a surrogate, so its code cannot start a pair. */
  lemma SurrogatePrefix(c: char, x: string, d: char, y: string, asciiOnly: bool)
    requires Escape(c, asciiOnly) + x == Escape(d, asciiOnly) + y
    requires |Escape(c, asciiOnly)| >= 6 && |Escape(d, asciiOnly)| >= 6
    ensures |Escape(c, asciiOnly)| == |Escape(d, asciiOnly)|
  {
    LongEscape(c, asciiOnly);
    LongEscape(d, asciiOnly);
    hide Escape, Hex4;
    SameMiddle(Escape(c, asciiOnly), x, Escape(d, asciiOnly), y);
    if c as int < 0x10000 <= d as int {
      Hex4Injective(c as int, 0xD800 + (d as int - 0x10000) / 0x400);
      assert false;
    } else if d as int < 0x10000 <= c as int {
      Hex4Injective(d as int, 0xD800 + (c as int - 0x10000) / 0x400);
      assert false;
    }
  }

  lemma QuoteStartsNoEscape(c: char, u: string, x: string, asciiOnly: bool)
    ensures Escape(c, asciiOnly) + u != ['\"'] + x
  {
    if Escape(c, asciiOnly) + u == ['\"'] + x {
      SameHead(Escape(c, asciiOnly), u, ['\"'], x);
      assert false;
    }
  }

  lemma EscapeAllStep(s: string, rest: string, asciiOnly: bool)
    requires s != []
    ensures EscapeAll(s, asciiOnly) + rest == Escape(s[0], asciiOnly) + (EscapeAll(s[1..], asciiOnly) + rest)
  {
    Associate(Escape(s[0], asciiOnly), EscapeAll(s[1..], asciiOnly), rest);
  }

  lemma Associate(a: string, b: string, c: string)
    ensures (a + b) + c == a + (b + c)
  {}

  /** A closing quote cannot be taken for the start of an escaped character. */
  lemma {:induction false} EscapeAllUnique(s: string, x: string, t: string, y: string, asciiOnly: bool)
    requires EscapeAll(s, asciiOnly) + (['\"'] + x) == EscapeAll(t, asciiOnly) + (['\"'] + y)
    ensures s == t && x == y
  {
    var q, r := ['\"'] + x, ['\"'] + y;
    if s == [] && t == [] {
      assert [] + q == q && [] + r == r;
      Split(['\"'], x, ['\"'], y);
    } else if s == [] {
      assert [] + q == q;
      EscapeAllStep(t, r, asciiOnly);
      QuoteStartsNoEscape(t[0], EscapeAll(t[1..], asciiOnly) + r, x, asciiOnly);
    } else if t == [] {
      assert [] + r == r;
      EscapeAllStep(s, q, asciiOnly);
      QuoteStartsNoEscape(s[0], EscapeAll(s[1..], asciiOnly) + q, y, asciiOnly);
    } else {
      EscapeAllStep(s, q, asciiOnly);
      EscapeAllStep(t, r, asciiOnly);
      EscapePrefixFree(s[0], EscapeAll(s[1..], asciiOnly) + q, t[0], EscapeAll(t[1..], asciiOnly) + r, asciiOnly);
      EscapeAllUnique(s[1..], x, t[1..], y, asciiOnly);
      assert s == [s[0]] + s[1..] && t == [t[0]] + t[1..];
    }
  }

  lemma QuoteUnique(s: string, x: string, t: string, y: string, asciiOnly: bool)
    requires Quote(s, asciiOnly) + x == Quote(t, asciiOnly) + y
    ensures s == t && x == y
  {
    var a, b := EscapeAll(s, asciiOnly), EscapeAll(t, asciiOnly);
    assert Quote(s, asciiOnly) + x == ['\"'] + (a + (['\"'] + x));
    assert Quote(t, asciiOnly) + y == ['\"'] + (b + (['\"'] + y));
    Split(['\"'], a + (['\"'] + x), ['\"'], b + (['\"'] + y));
    EscapeAllUnique(s, x, t, y, asciiOnly);
  }

  // ----------------------------------------------------------------- numbers

  lemma DigitsAreDigits(n: nat)
    ensures Digits(n) != [] && forall i :: 0 <= i < |Digits(n)| ==> IsDigit(Digits(n)[i])
    ensures |Digits(n)| == 1 <==> n < 10
  {}

  lemma {:induction false} DigitsInjective(m: nat, n: nat)
    requires Digits(m) == Digits(n)
    ensures m == n
  {
    DigitsAreDigits(m);
    DigitsAreDigits(n);
    if m < 10 {
      assert Digits(m)[0] == Digits(n)[0];
    } else {
      var a, b := Digits(m / 10), Digits(n / 10);
      assert Digits(m) == a + ['0' + (m % 10) as char] && Digits(n) == b + ['0' + (n % 10) as char];
      Split(a, ['0' + (m % 10) as char], b, ['0' + (n % 10) as char]);
      DigitsInjective(m / 10, n / 10);
    }
  }

  lemma DigitRunEnds(a: string, x: string, b: string, y: string)
    requires a + x == b + y && Stops(x)
    requires forall i :: 0 <= i < |b| ==> IsDigit(b[i])
    ensures |a| >= |b|
  {
    assert x != [] ==> (a + x)[|a|] == x[0];
  }

  lemma DigitsUnique(m: nat, x: string, n: nat, y: string)
    requires Stops(x) && Stops(y) && Digits(m) + x == Digits(n) + y
    ensures m == n && x == y
  {
    DigitsAreDigits(m);
    DigitsAreDigits(n);
    DigitRunEnds(Digits(m), x, Digits(n), y);
    DigitRunEnds(Digits(n), y, Digits(m), x);
    Split(Digits(m), x, Digits(n), y);
    DigitsInjective(m, n);
  }

  lemma NumberHead(n: int)
    ensures Number(n) != [] && (Number(n)[0] == '-' <==> n < 0)
    ensures n >= 0 ==> IsDigit(Number(n)[0])
  {
    DigitsAreDigits(if n < 0 then -n else n);
  }

  lemma NumberUnique(m: int, x: string, n: int, y: string)
    requires Stops(x) && Stops(y) && Number(m) + x == Number(n) + y
    ensures m == n && x == y
  {
    NumberHead(m);
    NumberHead(n);
    SameHead(Number(m), x, Number(n), y);
    if m < 0 {
      Associate(['-'], Digits(-m), x);
      Associate(['-'], Digits(-n), y);
      Split(['-'], Digits(-m) + x, ['-'], Digits(-n) + y);
      DigitsUnique(-m, x, -n, y);
    } else {
      DigitsUnique(m, x, n, y);
    }
  }

  // ------------------------------------------------------------------ values

  /** The first character of a value's text tells its kind; a digit or a minus starts a number. */
  function Kind(c: char): nat {
    if c == 'n' then 0
    else if c == 't' then 1
    else if c == 'f' then 2
    else if c == '\"' then 3
    else if c == '[' then 4
    else if c == '{' then 5
    else 6
  }

  function KindOf(j: Json): nat {
    match j
    case Null => 0
    case Bool(b) => if b then 1 else 2
    case Text(_) => 3
    case Array(_) => 4
    case Object(_) => 5
    case Int(_) => 6
  }

  lemma HeadTellsKind(j: Json, asciiOnly: bool)
    ensures Encode(j, asciiOnly) != [] && Kind(Encode(j, asciiOnly)[0]) == KindOf(j)
    ensures Encode(j, asciiOnly)[0] != ']'
  {
    if j.Int? {
      NumberHead(j.n);
    }
  }

  lemma SameKind(j: Json, x: string, k: Json, y: string, asciiOnly: bool)
    requires Encode(j, asciiOnly) + x == Encode(k, asciiOnly) + y
    ensures KindOf(j) == KindOf(k)
  {
    HeadTellsKind(j, asciiOnly);
    HeadTellsKind(k, asciiOnly);
    SameHead(Encode(j, asciiOnly), x, Encode(k, asciiOnly), y);
  }

  /** Drops the opening bracket of two equal texts. */
  lemma Unbracket(open: char, a: string, x: string, b: string, y: string)
    requires ([open] + a) + x == ([open] + b) + y
    ensures a + x == b + y
  {
    Associate([open], a, x);
    Associate([open], b, y);
    Split([open], a + x, [open], b + y);
  }

  /**
   The text of a value, wherever it stands in a larger text, determines the value
   and where it ends.
   */
  lemma {:induction false} EncodeUnique(j: Json, x: string, k: Json, y: string, asciiOnly: bool)
    requires Stops(x) && Stops(y)
    requires Encode(j, asciiOnly) + x == Encode(k, asciiOnly) + y
    ensures j == k && x == y
    decreases j, 0
  {
    SameKind(j, x, k, y, asciiOnly);
    match j
    case Null => Split("null", x, "null", y);
    case Bool(b) => Split(Encode(j, asciiOnly), x, Encode(j, asciiOnly), y);
    case Int(n) => NumberUnique(n, x, k.n, y);
    case Text(s) => QuoteUnique(s, x, k.s, y, asciiOnly);
    case Array(items) =>
      Unbracket('[', EncodeItems(items, asciiOnly), x, EncodeItems(k.items, asciiOnly), y);
      ItemsUnique(items, x, k.items, y, asciiOnly);
    case Object(fields) =>
      Unbracket('{', EncodeFields(fields, asciiOnly), x, EncodeFields(k.fields, asciiOnly), y);
      FieldsUnique(fields, x, k.fields, y, asciiOnly);
  }

  /** What follows one item: the bracket, or a comma and the remaining items. */
  function AfterItem(items: seq<Json>, asciiOnly: bool): (r: string)
    requires items != []
    ensures r != [] && Stops(r)
    ensures |items| == 1 <==> r[0] == ']'
  {
    if |items| == 1 then [']'] else [','] + EncodeItems(items[1..], asciiOnly)
  }

  lemma ItemsStep(u: seq<Json>, x: string, asciiOnly: bool)
    requires u != []
    ensures EncodeItems(u, asciiOnly) + x == Encode(u[0], asciiOnly) + (AfterItem(u, asciiOnly) + x)
    ensures EncodeItems(u, asciiOnly) != [] && EncodeItems(u, asciiOnly)[0] != ']'
  {
    HeadTellsKind(u[0], asciiOnly);
    Associate(Encode(u[0], asciiOnly), AfterItem(u, asciiOnly), x);
  }

  lemma {:induction false} ItemsUnique(u: seq<Json>, x: string, v: seq<Json>, y: string, asciiOnly: bool)
    requires EncodeItems(u, asciiOnly) + x == EncodeItems(v, asciiOnly) + y
    ensures u == v && x == y
    decreases u, 1
  {
    if u == [] && v == [] {
      Split([']'], x, [']'], y);
    } else if u == [] || v == [] {
      if u != [] { ItemsStep(u, x, asciiOnly); }
      if v != [] { ItemsStep(v, y, asciiOnly); }
      SameHead(EncodeItems(u, asciiOnly), x, EncodeItems(v, asciiOnly), y);
      assert false;
    } else {
      hide Encode, EncodeItems;
      var p, q := AfterItem(u, asciiOnly), AfterItem(v, asciiOnly);
      ItemsStep(u, x, asciiOnly);
      ItemsStep(v, y, asciiOnly);
      EncodeUnique(u[0], p + x, v[0], q + y, asciiOnly);
      SameHead(p, x, q, y);
      if |u| == 1 {
        Split(p, x, q, y);
      } else {
        Unbracket(',', EncodeItems(u[1..], asciiOnly), x, EncodeItems(v[1..], asciiOnly), y);
        ItemsUnique(u[1..], x, v[1..], y, asciiOnly);
      }
      assert u == [u[0]] + u[1..] && v == [v[0]] + v[1..];
    }
  }

  function AfterField(fields: seq<Field>, asciiOnly: bool): (r: string)
    requires fields != []
    ensures r != [] && Stops(r)
    ensures |fields| == 1 <==> r[0] == '}'
  {
    if |fields| == 1 then ['}'] else [','] + EncodeFields(fields[1..], asciiOnly)
  }

  /** The part of an object's text after the first key and its colon. */
  function FirstValueOn(u: seq<Field>, x: string, asciiOnly: bool): string
    requires u != []
  {
    Encode(u[0].value, asciiOnly) + (AfterField(u, asciiOnly) + x)
  }

  lemma FieldsStep(u: seq<Field>, x: string, asciiOnly: bool)
    requires u != []
    ensures EncodeFields(u, asciiOnly) + x == Quote(u[0].key, asciiOnly) + ([':'] + FirstValueOn(u, x, asciiOnly))
    ensures EncodeFields(u, asciiOnly) != [] && EncodeFields(u, asciiOnly)[0] != '}'
  {
    var k, v, r := Quote(u[0].key, asciiOnly), Encode(u[0].value, asciiOnly), AfterField(u, asciiOnly);
    assert EncodeFields(u, asciiOnly) == k + [':'] + v + r;
    Regroup(k, [':'], v, r, x);
  }

  lemma Regroup(a: string, b: string, c: string, d: string, e: string)
    ensures (a + b + c + d) + e == a + (b + (c + (d + e)))
  {}

  lemma {:induction false} FieldsUnique(u: seq<Field>, x: string, v: seq<Field>, y: string, asciiOnly: bool)
    requires EncodeFields(u, asciiOnly) + x == EncodeFields(v, asciiOnly) + y
    ensures u == v && x == y
    decreases u, 1
  {
    if u == [] && v == [] {
      Split(['}'], x, ['}'], y);
    } else if u == [] || v == [] {
      if u != [] { FieldsStep(u, x, asciiOnly); }
      if v != [] { FieldsStep(v, y, asciiOnly); }
      SameHead(EncodeFields(u, asciiOnly), x, EncodeFields(v, asciiOnly), y);
      assert false;
    } else {
      hide Encode, EncodeFields, Quote;
      var p, q := AfterField(u, asciiOnly), AfterField(v, asciiOnly);
      FieldsStep(u, x, asciiOnly);
      FieldsStep(v, y, asciiOnly);
      QuoteUnique(u[0].key, [':'] + FirstValueOn(u, x, asciiOnly), v[0].key, [':'] + FirstValueOn(v, y, asciiOnly), asciiOnly);
      Split([':'], FirstValueOn(u, x, asciiOnly), [':'], FirstValueOn(v, y, asciiOnly));
      EncodeUnique(u[0].value, p + x, v[0].value, q + y, asciiOnly);
      SameHead(p, x, q, y);
      if |u| == 1 {
        Split(p, x, q, y);
      } else {
        Unbracket(',', EncodeFields(u[1..], asciiOnly), x, EncodeFields(v[1..], asciiOnly), y);
        FieldsUnique(u[1..], x, v[1..], y, asciiOnly);
      }
      assert u == [u[0]] + u[1..] && v == [v[0]] + v[1..];
    }
  }

  /** Equal texts come only from equal values. */
  lemma EncodeInjective(j: Json, k: Json, asciiOnly: bool)
    requires Encode(j, asciiOnly) == Encode(k, asciiOnly)
    ensures j == k
  {
    assert Encode(j, asciiOnly) + [] == Encode(j, asciiOnly) && Encode(k, asciiOnly) + [] == Encode(k, asciiOnly);
    EncodeUnique(j, [], k, [], asciiOnly);
  }

  /** An object closes itself: nothing written after it can make another object of the text. */
  lemma ObjectUnique(u: seq<Field>, x: string, v: seq<Field>, y: string, asciiOnly: bool)
    requires Encode(Object(u), asciiOnly) + x == Encode(Object(v), asciiOnly) + y
    ensures u == v && x == y
  {
    Unbracket('{', EncodeFields(u, asciiOnly), x, EncodeFields(v, asciiOnly), y);
    FieldsUnique(u, x, v, y, asciiOnly);
  }

  // ---------------------------------------------------------------- commands

  function Texts(words: seq<string>): (r: seq<Json>)
    ensures |r| == |words| && forall i :: 0 <= i < |r| ==> r[i] == Text(words[i])
  {
    seq(|words|, i requires 0 <= i < |words| => Text(words[i]))
  }

  /** The command text of an argument vector: its compact JSON array, not restricted to ASCII. */
  function Command(argv: seq<string>): string {
    Encode(Array(Texts(argv)), false)
  }

  /** Comparing two command texts compares the argument vectors word for word. */
  lemma CommandInjective(u: seq<string>, v: seq<string>)
    ensures Command(u) == Command(v) <==> u == v
  {
    if Command(u) == Command(v) {
      EncodeInjective(Array(Texts(u)), Array(Texts(v)), false);
      forall i | 0 <= i < |u| ensures u[i] == v[i] {
        assert Texts(u)[i] == Texts(v)[i];
      }
    }
  }
}
