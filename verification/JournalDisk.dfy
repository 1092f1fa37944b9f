/**
 The durable execution-identity journal: what is on disk, and the pure decisions
 that its operations take. The interleaving model and the journal class both use
 these definitions.
 */
module JournalDisk {
  import opened Values
  import CanonicalJson

  // ----------------------------------------------------------------- records

  datatype Status = Claimed | Running | Succeeded | Failed | Unknown

  predicate Terminal(s: Status) {
    s.Succeeded? || s.Failed? || s.Unknown?
  }

  function Rank(s: Status): nat {
    match s
    case Claimed => 0
    case Running => 1
    case _ => 2
  }

  /** What the executor hands back. */
  datatype Output = Output(
    command: string, stdout: string, stderr: string, exitCode: int, startedAt: int, finishedAt: int)

  /** The copy of an output kept in a record. */
  datatype Execution = Execution(
    command: string, stdout: string, stderr: string, exitCode: int, startedAt: int, finishedAt: int, success: bool)

  function Keep(o: Output): Execution {
    Execution(o.command, o.stdout, o.stderr, o.exitCode, o.startedAt, o.finishedAt, o.exitCode == 0)
  }

  function Rebuild(e: Option<Execution>): Option<Output> {
    match e
    case None => None
    case Some(x) => Some(Output(x.command, x.stdout, x.stderr, x.exitCode, x.startedAt, x.finishedAt))
  }

  datatype Record = Record(
    executionId: string,
    status: Status,
    incidentId: string,
    componentId: string,
    action: string,
    command: string,
    createdAt: int,
    updatedAt: int,
    execution: Option<Execution>,
    unknownReason: Option<string>)

  predicate SameIdentity(a: Record, b: Record) {
    && a.executionId == b.executionId
    && a.incidentId == b.incidentId
    && a.componentId == b.componentId
    && a.action == b.action
    && a.command == b.command
    && a.createdAt == b.createdAt
  }

  // ---------------------------------------------------------------- requests

  /** A remediation bound to one run; the fingerprints are those of module Fingerprints. */
  datatype Effect = Effect(
    runId: string,
    incidentId: string,
    componentId: string,
    action: string,
    argv: seq<string>,
    executionId: string,
    permitId: string,
    targetFingerprint: string,
    fingerprint: string,
    liveEligible: bool)

  datatype Authorization = Authorization(
    allow: bool,
    reason: string,
    incidentId: string,
    componentId: string,
    action: string,
    runId: string,
    executionId: string,
    permitId: string,
    targetFingerprint: string,
    effectFingerprint: string,
    fingerprint: string)

  datatype Decision = Decision(allow: bool, componentId: string, action: string)

  datatype Permit = Permit(
    runId: string,
    permitId: string,
    executionId: string,
    incidentId: string,
    componentId: string,
    action: string,
    targetFingerprint: string,
    effectFingerprint: string,
    authorizationFingerprint: string)

  /** A call of `execute` (Plain) or of `execute_bound` (Bound). */
  datatype Request =
    | Plain(executionId: string, incidentId: string, componentId: string, action: string, command: string, decision: Decision)
    | Bound(effect: Effect, authorization: Authorization, decision: Decision)

  predicate Blank(c: char) {
    c == ' ' || '\t' <= c <= '\r' || 0x1C <= c as int <= 0x1F
  }

  function StripLeft(s: string): string {
    if s != [] && Blank(s[0]) then StripLeft(s[1..]) else s
  }

  function StripRight(s: string): string {
    if s != [] && Blank(s[|s| - 1]) then StripRight(s[..|s| - 1]) else s
  }

  function Strip(s: string): string {
    StripRight(StripLeft(s))
  }

  predicate IdCharacter(c: char) {
    'A' <= c <= 'Z' || 'a' <= c <= 'z' || '0' <= c <= '9' || c == '.' || c == '_' || c == ':' || c == '-'
  }

  /** The name of the record directory for an execution id, or None when the id is refused. */
  function ValidateId(raw: string): Option<string> {
    var id := Strip(raw);
    if id == "" || id == "." || id == ".." then None
    else if exists i :: 0 <= i < |id| && !IdCharacter(id[i]) then None
    else Some(id)
  }

  function RunKey(e: Effect): string {
    Strip(e.runId)
  }

  function RawId(r: Request): string {
    if r.Bound? then r.effect.executionId else r.executionId
  }

  function IdOf(r: Request): string {
    match ValidateId(RawId(r))
    case Some(id) => id
    case None => ""
  }

  function CommandOf(r: Request): string {
    if r.Bound? then CanonicalJson.Command(r.effect.argv) else r.command
  }

  function IncidentOf(r: Request): string {
    if r.Bound? then r.effect.incidentId else r.incidentId
  }

  function ComponentOf(r: Request): string {
    if r.Bound? then r.effect.componentId else r.componentId
  }

  function ActionOf(r: Request): string {
    if r.Bound? then r.effect.action else r.action
  }

  predicate Matches(a: Authorization, e: Effect) {
    && a.incidentId == e.incidentId
    && a.componentId == e.componentId
    && a.action == e.action
    && a.runId == RunKey(e)
    && a.executionId == e.executionId
    && a.permitId == e.permitId
    && a.targetFingerprint == e.targetFingerprint
    && a.effectFingerprint == e.fingerprint
  }

  /** The checks made before anything is written. */
  predicate Admitted(r: Request) {
    match r
    case Plain(_, _, _, _, _, decision) => decision.allow
    case Bound(e, a, decision) =>
      && RunKey(e) != ""
      && a.allow
      && Matches(a, e)
      && decision.allow
      && decision.componentId == e.componentId
      && decision.action == e.action
      && e.liveEligible
  }

  predicate ClaimOk(r: Request) {
    && ValidateId(RawId(r)).Some?
    && IncidentOf(r) != ""
    && ComponentOf(r) != ""
    && Strip(ActionOf(r)) != ""
    && Strip(CommandOf(r)) != ""
  }

  function PermitOf(e: Effect, a: Authorization): Permit {
    Permit(RunKey(e), e.permitId, e.executionId, e.incidentId, e.componentId, e.action,
           e.targetFingerprint, e.fingerprint, a.fingerprint)
  }

  function FreshRecord(r: Request, now: int): Record {
    Record(IdOf(r), Claimed, IncidentOf(r), ComponentOf(r), ActionOf(r), CommandOf(r), now, now, None, None)
  }

  /** `_validate_bound_record`; unbound replays are not compared with the request at all. */
  predicate Validates(record: Record, r: Request) {
    r.Bound? ==>
      && record.executionId == r.effect.executionId
      && record.incidentId == r.effect.incidentId
      && record.componentId == r.effect.componentId
      && record.action == r.effect.action
      && record.command == CommandOf(r)
  }

  // -------------------------------------------------------------- transition

  datatype Move = Refused | Kept(record: Record) | Write(next: Record)

  function Updated(current: Record, status: Status, execution: Option<Execution>, reason: Option<string>, now: int): Record {
    current.(status := status, updatedAt := now, unknownReason := reason,
             execution := if execution.Some? then execution else current.execution)
  }

  /** The decision `transition` takes on the record it has loaded. */
  function Transition(current: Record, status: Status, execution: Option<Execution>, reason: Option<string>, now: int): Move {
    if Terminal(current.status) then
      if current.status != status then Refused else Kept(current)
    else if status.Claimed? then Refused
    else Write(Updated(current, status, execution, reason, now))
  }

  /** The reasons recorded with UNKNOWN. */
  const INTERRUPTED := "Sentinel restarted while remediation execution outcome was indeterminate."
  const ARGV_BROKEN := "Bound executor result did not preserve the authorized argv binding."
  const RAISED := "Execution raised before a reliable terminal outcome was recorded."

  // -------------------------------------------------------------------- disk

  /** `staging` holds the private directories that a claim builds before its rename. */
  datatype Disk = Disk(permits: map<string, Permit>, records: map<string, Record>, staging: map<nat, Record>)

  /** The permits live in a directory of the same root, under this name. */
  const PERMIT_DIRECTORY := "_live_run_permits"

  /** The rename fails on a non-empty directory: a published identity, or the one that holds the permits. */
  predicate NameTaken(d: Disk, id: string) {
    id in d.records || (id == PERMIT_DIRECTORY && d.permits != map[])
  }

  ghost predicate RecordEvolves(a: Record, b: Record) {
    && SameIdentity(a, b)
    && Rank(a.status) <= Rank(b.status)
    && (Terminal(a.status) ==> a == b)
  }

  ghost predicate KeepsPermits(d: Disk, e: Disk) {
    forall k :: k in d.permits ==> k in e.permits && e.permits[k] == d.permits[k]
  }

  ghost predicate KeepsIdentities(d: Disk, e: Disk) {
    forall k :: k in d.records ==> k in e.records && SameIdentity(d.records[k], e.records[k])
  }

  /** Ranks never fall, terminal records and permits never change, identities are constant. */
  ghost predicate Evolves(d: Disk, e: Disk) {
    && KeepsPermits(d, e)
    && forall k :: k in d.records ==> k in e.records && RecordEvolves(d.records[k], e.records[k])
  }

  lemma EvolvesTransitive(d: Disk, e: Disk, f: Disk)
    requires Evolves(d, e) && Evolves(e, f)
    ensures Evolves(d, f)
  {}

  /** A record survives the trip through the journal: what is rebuilt is what was kept. */
  lemma RebuildKeep(o: Output)
    ensures Rebuild(Some(Keep(o))) == Some(o)
    ensures Keep(o).success <==> o.exitCode == 0
  {}
}
