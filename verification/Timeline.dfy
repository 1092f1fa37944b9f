/**
 The evidence timeline of an incident: events in a fixed order, numbered, each
 carrying the digest of the one before. An event is a dictionary of JSON values.
 */
module Timeline {
  import opened Values
  import opened CanonicalJson
  import opened KeyOrder
  import opened StableSort
  import JournalDisk

  type Item = map<string, Json>

  /**
   The parts of the host the timeline depends on: the digest, the reader of ISO
   timestamps (None where it raises), and how a value that is no text prints.
   */
  datatype Host = Host(digest: string -> string, clock: Json -> Option<int>, show: Json -> string)

  // ------------------------------------------------------------ reading events

  function Get(item: Item, key: string): Json {
    if key in item then item[key] else Null
  }

  /** `value or default` takes the default on these. */
  predicate Falsy(j: Json) {
    j == Null || j == Bool(false) || j == Int(0) || j == Text("") || j == Array([]) || j == Object([])
  }

  function Printed(host: Host, j: Json, default: string): string {
    if Falsy(j) then default else if j.Text? then j.s else host.show(j)
  }

  function Upper(c: char): char {
    if 'a' <= c <= 'z' then (c as int - 32) as char else c
  }

  function SignalType(host: Host, item: Item): string {
    Map(Upper, JournalDisk.Strip(Printed(host, Get(item, "signal_type"), "UNKNOWN")))
  }

  predicate Contains(token: string, s: string) {
    token <= s || (s != [] && Contains(token, s[1..]))
  }

  function Category(signal: string): string {
    if Contains("COMMANDER", signal) || Contains("HANDOFF", signal) || Contains("ESCALAT", signal) then "commander"
    else if signal == "ANOMALY" || signal == "CONTRACT_VIOLATION" || signal == "OBSERVATION" || Contains("DETECT", signal)
      then "detection"
    else if Contains("DIAG", signal) || Contains("INVESTIG", signal) || Contains("HYPOTHESIS", signal)
            || Contains("UNDERSTAND", signal) then "diagnostic"
    else if Contains("VERIFY", signal) || Contains("VERIFICATION", signal) || Contains("RECOVERY", signal)
      then "verification"
    else if Contains("REMEDIAT", signal) || Contains("EXECUTION", signal) || Contains("ACTION", signal)
      then "remediation"
    else "other"
  }

  function FieldValue(fields: seq<Field>, key: string): Json {
    if fields == [] then Null
    else if fields[0].key == key then fields[0].value
    else FieldValue(fields[1..], key)
  }

  function FirstState(fields: seq<Field>, keys: seq<string>): Option<Json> {
    if keys == [] then None
    else
      var value := FieldValue(fields, keys[0]);
      if value != Null && value != Text("") then Some(value) else FirstState(fields, keys[1..])
  }

  const STATE_KEYS: seq<string> := ["activity_state", "observed_state", "current_state", "state"]

  /** The state an event reports: in its observation, else in its signal. */
  function ObservedState(item: Item): Json {
    var observation, signal := Get(item, "observation_snapshot"), Get(item, "signal_snapshot");
    var seen := if observation.Object? then FirstState(observation.fields, STATE_KEYS) else None;
    if seen.Some? then seen.value
    else
      var told := if signal.Object? then FirstState(signal.fields, STATE_KEYS) else None;
      if told.Some? then told.value else Null
  }

  // ------------------------------------------------------------------ ordering

  datatype Rank = Rank(time: int, source: string, sourceId: string, signal: string)

  function Stamp(host: Host, item: Item): Option<int> {
    if "timestamp" in item then host.clock(item["timestamp"]) else None
  }

  function RankOf(host: Host, item: Item): Rank {
    Rank(if Stamp(host, item).Some? then Stamp(host, item).value else 0,
         Printed(host, Get(item, "source"), ""),
         Printed(host, Get(item, "source_id"), ""),
         Printed(host, Get(item, "signal_type"), ""))
  }

  predicate RankLe(a: Rank, b: Rank) {
    if a.time != b.time then a.time < b.time
    else if a.source != b.source then TextLe(a.source, b.source)
    else if a.sourceId != b.sourceId then TextLe(a.sourceId, b.sourceId)
    else TextLe(a.signal, b.signal)
  }

  function ByRank(host: Host): (Item, Item) -> bool {
    (x: Item, y: Item) => RankLe(RankOf(host, x), RankOf(host, y))
  }

  // ------------------------------------------------------------------- sealing

  function PreviousOf(previous: string): Json {
    if previous == "" then Null else Text(previous)
  }

  /** The digest of an event covers everything in it but the digest itself. */
  function DigestOf(host: Host, item: Item): string {
    host.digest(Canonical(item - {"event_sha256"}, false))
  }

  function Numbered(host: Host, item: Item, sequence: int, previous: string): Item {
    var numbered := item["sequence" := Int(sequence)];
    var sorted := numbered["category" := Text(Category(SignalType(host, numbered)))];
    var observed := sorted["observed_state" := ObservedState(sorted)];
    observed["previous_sha256" := PreviousOf(previous)]
  }

  function SealOne(host: Host, item: Item, sequence: int, previous: string): Item {
    var numbered := Numbered(host, item, sequence, previous);
    numbered["event_sha256" := Text(DigestOf(host, numbered))]
  }

  function Last(host: Host, sealed: seq<Item>): string {
    if sealed == [] then "" else DigestOf(host, sealed[|sealed| - 1])
  }

  function SealUpTo(host: Host, items: seq<Item>, n: nat): (sealed: seq<Item>)
    requires n <= |items|
    ensures |sealed| == n
  {
    if n == 0 then [] else
      var before := SealUpTo(host, items, n - 1);
      before + [SealOne(host, items[n - 1], n, Last(host, before))]
  }

  predicate Stamped(host: Host, events: seq<Item>) {
    forall i :: 0 <= i < |events| ==> Stamp(host, events[i]).Some?
  }

  datatype Sealed = Sealed(timeline: seq<Item>, digest: string)

  /** None where reading a timestamp raises. */
  function Seal(host: Host, events: seq<Item>): Option<Sealed> {
    if !Stamped(host, events) then None
    else
      var sealed := SealUpTo(host, Sort(events, ByRank(host)), |Sort(events, ByRank(host))|);
      Some(Sealed(sealed, if Last(host, sealed) == "" then host.digest("") else Last(host, sealed)))
  }

  /** The digest that a report check expects for the whole timeline. */
  function TimelineDigest(host: Host, timeline: seq<Item>): string {
    if timeline == [] then host.digest("") else Last(host, timeline)
  }

  /** SHA-256: free of collisions, and its digests are never empty. */
  ghost predicate Sound(host: Host) {
    Injective(host.digest) && forall text :: host.digest(text) != ""
  }

  /** `_seal_timeline`: sort, then number, categorize and chain one event after the other. */
  method SealTimeline(host: Host, events: seq<Item>) returns (r: Option<Sealed>)
    ensures r == Seal(host, events)
  {
    if !Stamped(host, events) {
      return None;
    }
    var ordered := Sort(events, ByRank(host));
    var previous, sealed := "", [];
    for n := 0 to |ordered|
      invariant sealed == SealUpTo(host, ordered, n)
      invariant previous == Last(host, sealed)
    {
      var item := Numbered(host, ordered[n], n + 1, previous);
      var digest := DigestOf(host, item);
      ghost var before := sealed;
      item := item["event_sha256" := Text(digest)];
      SealingKeepsDigest(host, ordered[n], n + 1, previous);
      sealed := sealed + [item];
      previous := digest;
    }
    return Some(Sealed(sealed, if previous == "" then host.digest("") else previous));
  }

  lemma SealingKeepsDigest(host: Host, item: Item, sequence: int, previous: string)
    ensures var numbered := Numbered(host, item, sequence, previous);
            && SealOne(host, item, sequence, previous) - {"event_sha256"} == numbered - {"event_sha256"}
            && DigestOf(host, SealOne(host, item, sequence, previous)) == DigestOf(host, numbered)
  {
    hide Canonical, Category, ObservedState, SignalType;
    var numbered, sealed := Numbered(host, item, sequence, previous), SealOne(host, item, sequence, previous);
    assert sealed - {"event_sha256"} == numbered - {"event_sha256"};
  }

  // ----------------------------------------------------------------- verifying

  /** A number equal to n; Python's True is equal to 1. */
  predicate EqualsNumber(j: Json, n: int) {
    j == Int(n) || (j == Bool(true) && n == 1)
  }

  predicate Link(host: Host, timeline: seq<Item>, i: nat)
    requires i < |timeline|
  {
    && EqualsNumber(Get(timeline[i], "sequence"), i + 1)
    && Get(timeline[i], "previous_sha256") == PreviousOf(Last(host, timeline[..i]))
    && Get(timeline[i], "event_sha256") == Text(DigestOf(host, timeline[i]))
  }

  predicate Verified(host: Host, timeline: seq<Item>) {
    forall i :: 0 <= i < |timeline| ==> Link(host, timeline, i)
  }

  /** `verify_timeline_integrity`. */
  method VerifyTimeline(host: Host, timeline: seq<Item>) returns (ok: bool)
    ensures ok <==> Verified(host, timeline)
  {
    var previous := "";
    for n := 0 to |timeline|
      invariant previous == Last(host, timeline[..n])
      invariant forall i :: 0 <= i < n ==> Link(host, timeline, i)
    {
      var item := timeline[n];
      if !EqualsNumber(Get(item, "sequence"), n + 1) || Get(item, "previous_sha256") != PreviousOf(previous) {
        assert !Link(host, timeline, n);
        return false;
      }
      var actual := DigestOf(host, item);
      if Get(item, "event_sha256") != Text(actual) {
        assert !Link(host, timeline, n);
        return false;
      }
      previous := actual;
    }
    return true;
  }
}
