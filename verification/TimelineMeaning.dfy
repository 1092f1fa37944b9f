/**
 What a sealed timeline says to a reader, in the reader's own terms: the clock runs
 forward, ties are broken by text, and each event is filed under what its signal and
 its snapshots say.
 */
module TimelineMeaning {
  import opened Values
  import opened CanonicalJson
  import opened KeyOrder
  import opened StableSort
  import opened Timeline
  import opened TimelineTheorems
  import JournalDisk

  // ------------------------------------------------------------ the text order

  /** a is equal to b, a part of its beginning, or smaller where they first differ. */
  ghost predicate NotAfter(a: string, b: string) {
    || (|a| <= |b| && a == b[..|a|])
    || exists k :: 0 <= k < |a| && k < |b| && a[..k] == b[..k] && a[k] < b[k]
  }

  lemma {:induction false} TextOrder(a: string, b: string)
    ensures TextLe(a, b) <==> NotAfter(a, b)
  {
    if a != [] && b != [] && a[0] == b[0] {
      var c, d := a[1..], b[1..];
      TextOrder(c, d);
      if NotAfter(c, d) {
        LongerNotAfter(a, b);
      }
      if NotAfter(a, b) {
        ShorterNotAfter(a, b);
      }
    } else if a != [] && b != [] {
      FirstCharacters(a, b);
    }
  }

  lemma FirstCharacters(a: string, b: string)
    requires a != [] && b != [] && a[0] != b[0]
    ensures NotAfter(a, b) <==> a[0] < b[0]
  {
    assert |a| <= |b| ==> b[..|a|][0] == b[0];
    if a[0] < b[0] {
      assert a[..0] == b[..0];
    }
    forall k | 0 < k < |a| && k < |b| ensures a[..k] != b[..k] {
      assert a[..k][0] != b[..k][0];
    }
  }

  lemma LongerNotAfter(a: string, b: string)
    requires a != [] && b != [] && a[0] == b[0] && NotAfter(a[1..], b[1..])
    ensures NotAfter(a, b)
  {
    var c, d := a[1..], b[1..];
    if |c| <= |d| && c == d[..|c|] {
      assert a == [a[0]] + c && b[..|a|] == [b[0]] + d[..|c|];
    } else {
      var k :| 0 <= k < |c| && k < |d| && c[..k] == d[..k] && c[k] < d[k];
      assert a[..k + 1] == [a[0]] + c[..k] && b[..k + 1] == [b[0]] + d[..k];
    }
  }

  lemma ShorterNotAfter(a: string, b: string)
    requires a != [] && b != [] && a[0] == b[0] && NotAfter(a, b)
    ensures NotAfter(a[1..], b[1..])
  {
    var c, d := a[1..], b[1..];
    if |a| <= |b| && a == b[..|a|] {
      assert c == b[..|a|][1..] == d[..|c|];
    } else {
      var k :| 0 <= k < |a| && k < |b| && a[..k] == b[..k] && a[k] < b[k];
      assert k > 0;
      assert c[..k - 1] == a[..k][1..] == b[..k][1..] == d[..k - 1];
      assert c[k - 1] == a[k] && d[k - 1] == b[k];
    }
  }

  // ------------------------------------------------------------ the event order

  /** The text an event is ordered by under a key: its own, or none where it has none. */
  function TextUnder(host: Host, item: Item, key: string): string {
    if key !in item then ""
    else
      match item[key]
      case Text(s) => s
      case Null => ""
      case Bool(b) => if b then host.show(Bool(true)) else ""
      case Int(n) => if n != 0 then host.show(Int(n)) else ""
      case Array(items) => if items != [] then host.show(Array(items)) else ""
      case Object(fields) => if fields != [] then host.show(Object(fields)) else ""
  }

  lemma PrintsTextUnder(host: Host, item: Item, key: string)
    ensures Printed(host, Get(item, key), "") == TextUnder(host, item, key)
  {}

  lemma ComparesUnder(host: Host, x: Item, y: Item, key: string)
    ensures Printed(host, Get(x, key), "") == TextUnder(host, x, key)
    ensures Printed(host, Get(y, key), "") == TextUnder(host, y, key)
    ensures TextLe(TextUnder(host, x, key), TextUnder(host, y, key)) <==>
            NotAfter(TextUnder(host, x, key), TextUnder(host, y, key))
  {
    PrintsTextUnder(host, x, key);
    PrintsTextUnder(host, y, key);
    TextOrder(TextUnder(host, x, key), TextUnder(host, y, key));
  }

  /**
   In a sealed timeline every event has a time that can be read, and no event stands
   after one that is later. Events of one time are in the order of their sources,
   then of their source ids, then of their signals.
   */
  lemma SealedInTime(host: Host, events: seq<Item>, i: nat, j: nat)
    requires Seal(host, events).Some? && i < j < |Seal(host, events).value.timeline|
    ensures var t := Seal(host, events).value.timeline;
            && "timestamp" in t[i] && "timestamp" in t[j]
            && host.clock(t[i]["timestamp"]).Some? && host.clock(t[j]["timestamp"]).Some?
            && var (m, n) := (host.clock(t[i]["timestamp"]).value, host.clock(t[j]["timestamp"]).value);
               && m <= n
               && (m == n ==>
                     var (u, v) := (t[i], t[j]);
                     && NotAfter(TextUnder(host, u, "source"), TextUnder(host, v, "source"))
                     && (TextUnder(host, u, "source") == TextUnder(host, v, "source") ==>
                           && NotAfter(TextUnder(host, u, "source_id"), TextUnder(host, v, "source_id"))
                           && (TextUnder(host, u, "source_id") == TextUnder(host, v, "source_id") ==>
                                 NotAfter(TextUnder(host, u, "signal_type"), TextUnder(host, v, "signal_type")))))
  {
    hide Seal, TextLe, NotAfter, Printed, Get, TextUnder;
    var t := Seal(host, events).value.timeline;
    SealSorts(host, events);
    SealIsStamped(host, events, i);
    SealIsStamped(host, events, j);
    assert RankLe(RankOf(host, t[i]), RankOf(host, t[j])) by { assert ByRank(host)(t[i], t[j]); }
    ComparesUnder(host, t[i], t[j], "source");
    ComparesUnder(host, t[i], t[j], "source_id");
    ComparesUnder(host, t[i], t[j], "signal_type");
    Itself(TextUnder(host, t[i], "source"));
    Itself(TextUnder(host, t[i], "source_id"));
  }

  lemma Itself(a: string)
    ensures NotAfter(a, a)
  {
    assert a == a[..|a|];
  }

  lemma SealIsStamped(host: Host, events: seq<Item>, i: nat)
    requires Seal(host, events).Some? && i < |Seal(host, events).value.timeline|
    ensures Stamp(host, Seal(host, events).value.timeline[i]).Some?
  {
    hide SealOne, Core, RankOf, Stamp, TimelineDigest, DigestOf;
    var ordered := Sort(events, ByRank(host));
    var t := Seal(host, events).value.timeline;
    SortedCores(host, events);
    SortPermutes(events, ByRank(host));
    CoreKeepsRank(host, t[i]);
    CoreKeepsRank(host, ordered[i]);
    assert Cores(t)[i] == Cores(ordered)[i];
    InPermutation(ordered, events, ordered[i]);
  }

  // ---------------------------------------------------------------- upper case

  /** u is s with a to z made A to Z. */
  ghost predicate UpperCaseOf(s: string, u: string) {
    |u| == |s| && forall k :: 0 <= k < |s| ==>
      if 'a' <= s[k] <= 'z' then u[k] as int - 'A' as int == s[k] as int - 'a' as int else u[k] == s[k]
  }

  lemma UppersAre(s: string, u: string)
    ensures UpperCaseOf(s, u) <==> u == Map(Upper, s)
  {
    var v := Map(Upper, s);
    forall k | 0 <= k < |s|
      ensures if 'a' <= s[k] <= 'z' then v[k] as int - 'A' as int == s[k] as int - 'a' as int else v[k] == s[k]
    {
      assert v[k] == Upper(s[k]);
    }
    if UpperCaseOf(s, u) {
      forall k | 0 <= k < |s| ensures u[k] == v[k] {}
    }
  }

  // ------------------------------------------------------------------ categories

  ghost predicate HasAt(text: string, token: string, k: int) {
    0 <= k <= |text| - |token| && text[k..k + |token|] == token
  }

  /** The token occurs in the text. */
  ghost predicate Has(text: string, token: string) {
    exists k :: HasAt(text, token, k)
  }

  lemma HasAtFirst(text: string, token: string)
    ensures HasAt(text, token, 0) ==> token <= text
  {
    if HasAt(text, token, 0) {
      assert text[0..0 + |token|] == text[..|token|];
    }
  }

  lemma HasInTail(text: string, token: string, k: nat)
    requires text != []
    ensures HasAt(text[1..], token, k) <==> HasAt(text, token, k + 1)
  {
    if k + |token| < |text| {
      assert text[1..][k..k + |token|] == text[k + 1..k + 1 + |token|];
    }
  }

  lemma {:induction false} ContainsHas(token: string, text: string)
    ensures Contains(token, text) <==> Has(text, token)
  {
    if token <= text {
      assert text[0..0 + |token|] == token;
      assert HasAt(text, token, 0);
    } else if text != [] {
      ContainsHas(token, text[1..]);
      HasAtFirst(text, token);
      forall k: nat ensures HasAt(text[1..], token, k) <==> HasAt(text, token, k + 1) {
        HasInTail(text, token, k);
      }
      if Has(text[1..], token) {
        var k :| HasAt(text[1..], token, k);
        assert HasAt(text, token, k + 1);
      }
      if Has(text, token) {
        var k :| HasAt(text, token, k);
        assert HasAt(text[1..], token, k - 1);
      }
    }
  }

  ghost predicate AboutCommander(s: string) {
    Has(s, "COMMANDER") || Has(s, "HANDOFF") || Has(s, "ESCALAT")
  }

  ghost predicate AboutDetection(s: string) {
    s == "ANOMALY" || s == "CONTRACT_VIOLATION" || s == "OBSERVATION" || Has(s, "DETECT")
  }

  ghost predicate AboutDiagnosis(s: string) {
    Has(s, "DIAG") || Has(s, "INVESTIG") || Has(s, "HYPOTHESIS") || Has(s, "UNDERSTAND")
  }

  ghost predicate AboutVerification(s: string) {
    Has(s, "VERIFY") || Has(s, "VERIFICATION") || Has(s, "RECOVERY")
  }

  ghost predicate AboutRemediation(s: string) {
    Has(s, "REMEDIAT") || Has(s, "EXECUTION") || Has(s, "ACTION")
  }

  /** The first of these that a signal is about decides where its event is filed. */
  ghost predicate FiledUnder(s: string, category: string) {
    if AboutCommander(s) then category == "commander"
    else if AboutDetection(s) then category == "detection"
    else if AboutDiagnosis(s) then category == "diagnostic"
    else if AboutVerification(s) then category == "verification"
    else if AboutRemediation(s) then category == "remediation"
    else category == "other"
  }

  lemma CategoriesFile(s: string)
    ensures FiledUnder(s, Category(s))
  {
    hide Contains, Has;
    forall token ensures Contains(token, s) <==> Has(s, token) {
      ContainsHas(token, s);
    }
  }

  /** The signal as it is filed: its text, or UNKNOWN, without blanks at the ends, in upper case. */
  ghost predicate Signal(host: Host, item: Item, s: string) {
    var text := TextUnder(host, item, "signal_type");
    UpperCaseOf(JournalDisk.Strip(if text == "" then "UNKNOWN" else text), s)
  }

  lemma SignalTypeIs(host: Host, item: Item)
    requires forall j :: host.show(j) != ""
    ensures Signal(host, item, SignalType(host, item))
  {
    var text := TextUnder(host, item, "signal_type");
    assert Printed(host, Get(item, "signal_type"), "UNKNOWN") == if text == "" then "UNKNOWN" else text;
    hide JournalDisk.Strip, TextUnder, Printed;
    var raw := JournalDisk.Strip(if text == "" then "UNKNOWN" else text);
    UppersAre(raw, Map(Upper, raw));
  }

  // ------------------------------------------------------------- observed state

  function FieldOf(item: Item, snapshot: string, key: string): Json {
    if snapshot in item && item[snapshot].Object? then FieldValue(item[snapshot].fields, key) else Null
  }

  /** Where a state may stand, the observation before the signal. */
  function States(item: Item): seq<Json> {
    [ FieldOf(item, "observation_snapshot", "activity_state"), FieldOf(item, "observation_snapshot", "observed_state"),
      FieldOf(item, "observation_snapshot", "current_state"), FieldOf(item, "observation_snapshot", "state"),
      FieldOf(item, "signal_snapshot", "activity_state"), FieldOf(item, "signal_snapshot", "observed_state"),
      FieldOf(item, "signal_snapshot", "current_state"), FieldOf(item, "signal_snapshot", "state") ]
  }

  /** The first state that is there and not empty, or null. */
  function FirstFilled(states: seq<Json>): Json {
    if states == [] then Null
    else if states[0] != Null && states[0] != Text("") then states[0]
    else FirstFilled(states[1..])
  }

  function Reported(fields: seq<Field>): seq<Json> {
    [FieldValue(fields, "activity_state"), FieldValue(fields, "observed_state"), FieldValue(fields, "current_state"),
     FieldValue(fields, "state")]
  }

  lemma FirstStateIs(fields: seq<Field>)
    ensures FirstState(fields, STATE_KEYS).None? ==> FirstFilled(Reported(fields)) == Null
    ensures FirstState(fields, STATE_KEYS).Some? ==>
      FirstState(fields, STATE_KEYS).value == FirstFilled(Reported(fields)) != Null
  {
    FirstOfKeys(fields, STATE_KEYS);
    hide FieldValue, FirstFilled, FirstState;
    var k1, k2, k3 := STATE_KEYS[1..], STATE_KEYS[2..], STATE_KEYS[3..];
    assert STATE_KEYS[1..][1..] == k2 && k2[1..] == k3 && k3[1..] == [];
    assert ValuesOf(fields, k3) == [FieldValue(fields, "state")];
    assert ValuesOf(fields, k2) == [FieldValue(fields, "current_state"), FieldValue(fields, "state")];
    assert ValuesOf(fields, STATE_KEYS) == Reported(fields);
  }

  function ValuesOf(fields: seq<Field>, keys: seq<string>): seq<Json> {
    if keys == [] then [] else [FieldValue(fields, keys[0])] + ValuesOf(fields, keys[1..])
  }

  lemma {:induction false} FirstOfKeys(fields: seq<Field>, keys: seq<string>)
    ensures FirstState(fields, keys).None? ==> FirstFilled(ValuesOf(fields, keys)) == Null
    ensures FirstState(fields, keys).Some? ==>
      FirstState(fields, keys).value == FirstFilled(ValuesOf(fields, keys)) != Null
  {
    hide FieldValue;
    if keys != [] {
      FirstOfKeys(fields, keys[1..]);
      assert ValuesOf(fields, keys)[1..] == ValuesOf(fields, keys[1..]);
    }
  }

  lemma {:induction false} FilledInTwo(a: seq<Json>, b: seq<Json>)
    ensures FirstFilled(a + b) == if FirstFilled(a) != Null then FirstFilled(a) else FirstFilled(b)
  {
    if a == [] {
      assert a + b == b;
    } else {
      FilledInTwo(a[1..], b);
      assert (a + b)[1..] == a[1..] + b;
    }
  }

  lemma ObservedIsFirst(item: Item)
    ensures ObservedState(item) == FirstFilled(States(item))
  {
    hide FieldValue, FirstState, FirstFilled;
    var all := States(item);
    var seen, told := all[..4], all[4..];
    assert all == seen + told;
    FilledInTwo(seen, told);
    NothingFilled();
    if "observation_snapshot" in item && item["observation_snapshot"].Object? {
      FirstStateIs(item["observation_snapshot"].fields);
      assert seen == Reported(item["observation_snapshot"].fields);
    } else {
      assert seen == [Null, Null, Null, Null];
    }
    if "signal_snapshot" in item && item["signal_snapshot"].Object? {
      FirstStateIs(item["signal_snapshot"].fields);
      assert told == Reported(item["signal_snapshot"].fields);
    } else {
      assert told == [Null, Null, Null, Null];
    }
  }

  lemma NothingFilled()
    ensures FirstFilled([Null, Null, Null, Null]) == Null
  {}

  /**
   Every event of a sealed timeline is filed under what its signal is about and carries
   the first state that its snapshots report.
   */
  lemma SealedEventsAreFiled(host: Host, events: seq<Item>, i: nat)
    requires forall j :: host.show(j) != ""
    requires Seal(host, events).Some? && i < |Seal(host, events).value.timeline|
    ensures var item := Seal(host, events).value.timeline[i];
            && "category" in item && "observed_state" in item && "sequence" in item && item["sequence"] == Int(i + 1)
            && item["observed_state"] == FirstFilled(States(item))
            && exists s, category :: Signal(host, item, s) && FiledUnder(s, category) && item["category"] == Text(category)
  {
    var ordered := Sort(events, ByRank(host));
    var t := Seal(host, events).value.timeline;
    SealedAt(host, ordered, |ordered|, i);
    var raw, previous := ordered[i], Last(host, t[..i]);
    hide Seal, ByRank, Category, ObservedState, SignalType, DigestOf, Last, FiledUnder, Signal, FirstFilled, States;
    var item := t[i];
    assert item == SealOne(host, raw, i + 1, previous);
    NumberedReads(host, raw, i + 1, previous);
    SealingKeepsReading(host, raw, i + 1, previous);
    ObservedIsFirst(item);
    SignalTypeIs(host, item);
    CategoriesFile(SignalType(host, item));
  }

  /** What sealing writes does not change what it was written from. */
  lemma SealingKeepsReading(host: Host, raw: Item, n: int, previous: string)
    ensures var item := SealOne(host, raw, n, previous);
            && SignalType(host, item) == SignalType(host, raw) && ObservedState(item) == ObservedState(raw)
            && "category" in item && item["category"] == Text(Category(SignalType(host, raw)))
            && "observed_state" in item && item["observed_state"] == ObservedState(raw)
            && "sequence" in item && item["sequence"] == Int(n)
  {
    hide Category, DigestOf, FirstState, Printed, JournalDisk.Strip, Map;
    var item := SealOne(host, raw, n, previous);
    SealingKeepsCore(host, raw, n, previous);
    SameReading(item, raw, "signal_type");
    SameReading(item, raw, "observation_snapshot");
    SameReading(item, raw, "signal_snapshot");
    NumberedReads(host, raw, n, previous);
  }
}
