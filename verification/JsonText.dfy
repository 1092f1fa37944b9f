/** How canonical JSON looks, character by character. */
module JsonText {
  import opened Values
  import opened CanonicalJson

  // ------------------------------------------------------------------- objects

  /** The members of an object, in this order. */
  function Members(members: seq<(string, string)>): string {
    if members == [] then ['}']
    else
      ['\"'] + members[0].0 + ['\"', ':'] + members[0].1
      + (if |members| == 1 then ['}'] else [','] + Members(members[1..]))
  }

  /** A name of small letters and underscores needs no escape. */
  predicate Plain(s: string) {
    forall k :: 0 <= k < |s| ==> 'a' <= s[k] <= 'z' || s[k] == '_'
  }

  predicate PlainOrDigit(s: string) {
    forall k :: 0 <= k < |s| ==> 'a' <= s[k] <= 'z' || 'A' <= s[k] <= 'Z' || s[k] == '_' || '0' <= s[k] <= '9'
  }

  lemma {:induction false} PlainEscape(s: string, asciiOnly: bool)
    requires PlainOrDigit(s)
    ensures EscapeAll(s, asciiOnly) == s
  {
    if s != [] {
      PlainEscape(s[1..], asciiOnly);
      assert s == [s[0]] + s[1..];
    }
  }

  lemma {:induction false} MembersRead(fields: seq<Field>, members: seq<(string, string)>, asciiOnly: bool)
    requires |fields| == |members|
    requires forall i :: 0 <= i < |fields| ==>
      && (Plain(fields[i].key) || PlainOrDigit(fields[i].key))
      && members[i].0 == fields[i].key && members[i].1 == Encode(fields[i].value, asciiOnly)
    ensures EncodeFields(fields, asciiOnly) == Members(members)
  {
    if fields != [] {
      PlainEscape(fields[0].key, asciiOnly);
      MembersRead(fields[1..], members[1..], asciiOnly);
      hide Encode, Plain, PlainOrDigit;
    }
  }

  // -------------------------------------------------------------------- arrays

  function Joined(texts: seq<string>): string {
    if texts == [] then [] else if |texts| == 1 then texts[0] else texts[0] + [','] + Joined(texts[1..])
  }

  lemma {:induction false} ItemsRead(items: seq<Json>, texts: seq<string>, asciiOnly: bool)
    requires |items| == |texts| && forall i :: 0 <= i < |items| ==> texts[i] == Encode(items[i], asciiOnly)
    ensures EncodeItems(items, asciiOnly) == Joined(texts) + [']']
  {
    hide Encode;
    if |items| > 1 {
      ItemsRead(items[1..], texts[1..], asciiOnly);
      assert texts[0] + ([','] + (Joined(texts[1..]) + [']'])) == (texts[0] + [','] + Joined(texts[1..])) + [']'];
    } else if |items| == 1 {
      assert EncodeItems(items, asciiOnly) == texts[0] + [']'];
    }
  }

  /** The text of an argument vector: its words in quotes, with a comma between any two. */
  lemma CommandText(argv: seq<string>, quoted: seq<string>)
    requires |quoted| == |argv| && forall i :: 0 <= i < |argv| ==> quoted[i] == Quote(argv[i], false)
    ensures Command(argv) == ['['] + Joined(quoted) + [']']
  {
    hide Quote, Joined, EncodeItems;
    forall i | 0 <= i < |argv| ensures quoted[i] == Encode(Texts(argv)[i], false) {}
    ItemsRead(Texts(argv), quoted, false);
    assert Command(argv) == ['['] + (Joined(quoted) + [']']);
  }

  // ------------------------------------------------------------------- scalars

  lemma Scalars(asciiOnly: bool)
    ensures Encode(Null, asciiOnly) == "null"
    ensures Encode(Bool(true), asciiOnly) == "true" && Encode(Bool(false), asciiOnly) == "false"
    ensures Encode(Array([]), asciiOnly) == "[]" && Encode(Object([]), asciiOnly) == "{}"
    ensures Number(0) == "0" && Number(-7) == "-7" && Number(1905) == "1905"
  {}

  /** The decimal digits of a number, most significant first, without leading zeros. */
  function Value(digits: string): nat {
    if digits == [] then 0
    else
      10 * Value(digits[..|digits| - 1])
      + (var d := digits[|digits| - 1]; if '0' <= d <= '9' then d as int - '0' as int else 0)
  }

  lemma {:induction false} DigitsHaveTheValue(n: nat)
    ensures Value(Digits(n)) == n
    ensures forall k :: 0 <= k < |Digits(n)| ==> '0' <= Digits(n)[k] <= '9'
    ensures Digits(n) != "" && (n > 0 ==> Digits(n)[0] != '0')
  {
    if n >= 10 {
      DigitsHaveTheValue(n / 10);
      assert Digits(n)[..|Digits(n)| - 1] == Digits(n / 10);
    } else {
      assert Digits(n)[..0] == [];
      assert Value([]) == 0;
    }
  }

  /** Integers are written in decimal, with a sign where they are negative. */
  lemma NumbersAreDecimal(n: int)
    ensures n >= 0 ==> Value(Number(n)) == n
    ensures n < 0 ==> Number(n)[0] == '-' && Value(Number(n)[1..]) == -n
  {
    DigitsHaveTheValue(if n < 0 then -n else n);
    if n < 0 {
      assert Number(n)[1..] == Digits(-n);
    }
  }

  // ------------------------------------------------------------------- escapes

  /** The escapes that have a letter of their own, and those that every control character has. */
  lemma ControlEscapes(asciiOnly: bool)
    ensures Escape('\"', asciiOnly) == ['\\', '\"'] && Escape('\\', asciiOnly) == ['\\', '\\']
    ensures Escape('\n', asciiOnly) == ['\\', 'n'] && Escape('\r', asciiOnly) == ['\\', 'r'] && Escape('\t', asciiOnly) == ['\\', 't']
    ensures Escape(0x0C as char, asciiOnly) == ['\\', 'f'] && Escape(0x08 as char, asciiOnly) == ['\\', 'b']
    ensures Escape(0x00 as char, asciiOnly) == ['\\', 'u', '0', '0', '0', '0']
    ensures Escape(0x1F as char, asciiOnly) == ['\\', 'u', '0', '0', '1', 'f']
    ensures Escape(' ', asciiOnly) == [' '] && Escape('~', asciiOnly) == ['~'] && Escape('/', asciiOnly) == ['/']
  {}

  /** Beyond ASCII: as it is, or as one or two groups of four hexadecimal digits. */
  lemma WideEscapes()
    ensures forall c: char :: c as int >= 0x7F ==> Escape(c, false) == [c]
    ensures Escape(0x7F as char, true) == ['\\', 'u', '0', '0', '7', 'f']
    ensures Escape(0xE9 as char, true) == ['\\', 'u', '0', '0', 'e', '9']
    ensures Escape(0xFFFD as char, true) == ['\\', 'u', 'f', 'f', 'f', 'd']
    ensures Escape(0x1F600 as char, true) == ['\\', 'u', 'd', '8', '3', 'd', '\\', 'u', 'd', 'e', '0', '0']
    ensures Escape(0x10000 as char, true) == ['\\', 'u', 'd', '8', '0', '0', '\\', 'u', 'd', 'c', '0', '0']
  {}
}
