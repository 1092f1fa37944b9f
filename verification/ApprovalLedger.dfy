/**
 The two single-use ledgers of the approval chain: approvals that were issued and
 activations that were consumed. Each is a directory with one file per key, named
 by the digest of the key. A caller first reads the whole directory, one file at a
 time, and refuses to go on past a file that is not a complete record; then it
 creates its own file, empty, which only one caller can; then it fills it. It may
 crash between any two of these, and inside the last one.
 */
module ApprovalLedger {
  import opened Values
  import opened CanonicalJson
  import JournalDisk

  // ----------------------------------------------------------------- records

  datatype Binding = Binding(
    runId: string, incidentId: string, componentId: string, resourceKind: string, action: string,
    executionId: string, permitId: string,
    targetFingerprint: string, scopeFingerprint: string, effectFingerprint: string)

  datatype Entry =
    | Grant(approvalId: string, activationId: string, issuedAt: int, expiresAt: int, effect: Binding)
    | Consumption(
        activationId: string, approvalId: string, incidentId: string, componentId: string, executionId: string,
        effectFingerprint: string, grantFingerprint: string, consumedAt: int)

  datatype Kind = Approvals | Activations

  predicate IdOk(id: string) {
    && 1 <= |id| <= 128
    && IdStart(id[0])
    && forall i :: 0 <= i < |id| ==> IdStart(id[i]) || id[i] == '_' || id[i] == '-'
  }

  predicate IdStart(c: char) {
    'A' <= c <= 'Z' || 'a' <= c <= 'z' || '0' <= c <= '9'
  }

  predicate TextOk(t: string) {
    t != "" && !JournalDisk.Blank(t[0]) && !JournalDisk.Blank(t[|t| - 1]) && forall i :: 0 <= i < |t| ==> t[i] as int != 0
  }

  predicate FingerprintOk(t: string) {
    |t| == 64 && forall i :: 0 <= i < 64 ==> '0' <= t[i] <= '9' || 'a' <= t[i] <= 'f'
  }

  predicate BindingOk(b: Binding) {
    && TextOk(b.runId) && TextOk(b.incidentId) && TextOk(b.componentId) && TextOk(b.resourceKind) && TextOk(b.action)
    && TextOk(b.executionId) && TextOk(b.permitId)
    && FingerprintOk(b.targetFingerprint) && FingerprintOk(b.scopeFingerprint) && FingerprintOk(b.effectFingerprint)
  }

  /** What both the writer and every reader demand of a record. */
  predicate Valid(e: Entry) {
    && IdOk(e.activationId)
    && match e
       case Grant(approval, _, issued, expires, effect) => IdOk(approval) && 0 <= issued < expires && BindingOk(effect)
       case Consumption(_, approval, incident, component, execution, effect, grant, at) =>
         && TextOk(approval) && TextOk(incident) && TextOk(component) && TextOk(execution) && TextOk(effect)
         && FingerprintOk(grant) && 0 <= at
  }

  function BindingFields(b: Binding): seq<Field> {
    [ Field("action", Text(b.action)), Field("component_id", Text(b.componentId)),
      Field("effect_fingerprint", Text(b.effectFingerprint)), Field("execution_id", Text(b.executionId)),
      Field("incident_id", Text(b.incidentId)), Field("permit_id", Text(b.permitId)),
      Field("resource_kind", Text(b.resourceKind)), Field("run_id", Text(b.runId)),
      Field("scope_fingerprint", Text(b.scopeFingerprint)), Field("target_fingerprint", Text(b.targetFingerprint)) ]
  }

  function Fields(e: Entry): seq<Field> {
    match e
    case Grant(approval, activation, issued, expires, effect) =>
      [ Field("activation_id", Text(activation)), Field("approval_id", Text(approval)),
        Field("effect", Object(BindingFields(effect))), Field("expires_at", Int(expires)),
        Field("issued_at", Int(issued)), Field("schema_version", Int(1)) ]
    case Consumption(activation, approval, incident, component, execution, effect, grant, at) =>
      [ Field("activation_id", Text(activation)), Field("approval_id", Text(approval)),
        Field("component_id", Text(component)), Field("consumed_at", Int(at)),
        Field("effect_fingerprint", Text(effect)), Field("execution_id", Text(execution)),
        Field("grant_fingerprint", Text(grant)), Field("incident_id", Text(incident)) ]
  }

  /** The text of a complete file. */
  function Body(e: Entry): string {
    Encode(Object(Fields(e)), true)
  }

  function Key(e: Entry): string {
    if e.Grant? then e.approvalId else e.activationId
  }

  function NameOf(h: string -> string, e: Entry): string {
    h(Key(e)) + ".json"
  }

  /** The file is the complete, canonical record e under its own name. */
  predicate Reads(h: string -> string, kind: Kind, name: string, content: string, e: Entry) {
    e.Grant? == kind.Approvals? && Valid(e) && content == Body(e) && name == NameOf(h, e)
  }

  ghost predicate Complete(h: string -> string, kind: Kind, name: string, content: string) {
    exists e :: Reads(h, kind, name, content, e)
  }

  lemma BindingFieldsInjective(b: Binding, c: Binding)
    requires BindingFields(b) == BindingFields(c)
    ensures b == c
  {
    var u, v := BindingFields(b), BindingFields(c);
    assert forall i :: 0 <= i < 10 ==> u[i].value == v[i].value;
    assert u[0].value == v[0].value && u[1].value == v[1].value && u[2].value == v[2].value && u[3].value == v[3].value;
    assert u[4].value == v[4].value && u[5].value == v[5].value && u[6].value == v[6].value && u[7].value == v[7].value;
    assert u[8].value == v[8].value && u[9].value == v[9].value;
  }

  lemma FieldsInjective(e: Entry, f: Entry)
    requires Fields(e) == Fields(f)
    ensures e == f
  {
    hide BindingFields;
    var u, v := Fields(e), Fields(f);
    assert |u| == |v|;
    assert u[0].value == v[0].value && u[1].value == v[1].value && u[2].value == v[2].value && u[3].value == v[3].value;
    assert u[4].value == v[4].value;
    if e.Grant? {
      BindingFieldsInjective(e.effect, f.effect);
    } else {
      assert u[5].value == v[5].value && u[6].value == v[6].value && u[7].value == v[7].value;
    }
  }

  /** Nothing less than the whole text of a record is the text of any record. */
  lemma PartOfABodyIsNoBody(e: Entry, n: nat, f: Entry)
    requires n <= |Body(e)|
    ensures Body(e)[..n] == Body(f) <==> n == |Body(e)| && e == f
  {
    hide Encode, Fields;
    var whole := Body(e);
    assert whole[..n] + whole[n..] == whole == whole + [];
    if whole[..n] == Body(f) {
      ObjectUnique(Fields(f), whole[n..], Fields(e), [], true);
      FieldsInjective(e, f);
    }
  }

  // ----------------------------------------------------------------- machine

  datatype Job = List | Add(entry: Entry)

  datatype Phase =
    | Arrived(scans: nat)                                            // take a listing of the directory
    | Reading(unread: set<string>, found: set<Entry>, scans: nat)    // read the files that were listed
    | Reserving                                                      // create the file, empty
    | Filling                                                        // fill it
    | Written                                                        // return
    | Added
    | Listed(found: set<Entry>)
    | Refused
    | Crashed

  datatype Caller = Caller(job: Job, phase: Phase)

  /** `reservedBy` is history. */
  datatype Store = Store(kind: Kind, files: map<string, string>, callers: map<nat, Caller>, reservedBy: map<string, nat>)

  datatype Step =
    | Arrive(c: nat, job: Job)
    | TakeListing(c: nat)
    | ReadFile(c: nat, name: string)
    | EndScan(c: nat)
    | Reserve(c: nat)
    | Fill(c: nat, upTo: nat)
    | Return(c: nat)
    | Crash(c: nat)

  function Init(kind: Kind): Store {
    Store(kind, map[], map[], map[])
  }

  function Goto(s: Store, c: nat, phase: Phase): Store
    requires c in s.callers
  {
    s.(callers := s.callers[c := s.callers[c].(phase := phase)])
  }

  predicate Ended(p: Phase) {
    p.Added? || p.Listed? || p.Refused? || p.Crashed?
  }

  /** Consumption reads the directory twice, issuance once. */
  function Scans(kind: Kind, job: Job): nat {
    if job.Add? && kind.Activations? then 2 else 1
  }

  predicate At(s: Store, c: nat, allowed: Phase -> bool) {
    c in s.callers && allowed(s.callers[c].phase)
  }

  predicate Adds(s: Store, c: nat) {
    c in s.callers && s.callers[c].job.Add?
  }

  ghost predicate Enabled(h: string -> string, s: Store, step: Step) {
    match step
    case Arrive(c, job) =>
      c !in s.callers && (job.Add? ==> Valid(job.entry) && job.entry.Grant? == s.kind.Approvals?)
    case TakeListing(c) => At(s, c, (p: Phase) => p.Arrived?)
    case ReadFile(c, name) => At(s, c, (p: Phase) => p.Reading? && name in p.unread) && name in s.files
    case EndScan(c) => At(s, c, (p: Phase) => p.Reading? && p.unread == {})
    case Reserve(c) => At(s, c, (p: Phase) => p.Reserving?) && Adds(s, c)
    case Fill(c, upTo) =>
      && At(s, c, (p: Phase) => p.Filling?) && Adds(s, c)
      && NameOf(h, s.callers[c].job.entry) in s.files
      && |s.files[NameOf(h, s.callers[c].job.entry)]| < upTo <= |Body(s.callers[c].job.entry)|
      // an approval is written aside and replaces its reservation whole
      && (s.kind.Approvals? ==> upTo == |Body(s.callers[c].job.entry)|)
    case Return(c) => At(s, c, (p: Phase) => p.Written?)
    case Crash(c) => At(s, c, (p: Phase) => !Ended(p))
  }

  ghost function DoRead(h: string -> string, s: Store, c: nat, name: string): Store
    requires c in s.callers && s.callers[c].phase.Reading? && name in s.files
  {
    var p := s.callers[c].phase;
    if !Complete(h, s.kind, name, s.files[name]) then Goto(s, c, Refused)
    else
      var e :| Reads(h, s.kind, name, s.files[name], e);
      Goto(s, c, p.(unread := p.unread - {name}, found := p.found + {e}))
  }

  ghost function DoEndScan(s: Store, c: nat): Store
    requires c in s.callers && s.callers[c].phase.Reading?
  {
    var q := s.callers[c];
    if q.job.List? then Goto(s, c, Listed(q.phase.found))
    else if q.phase.scans < 2 then Goto(s, c, Reserving)
    else if exists e :: e in q.phase.found && e.activationId == q.job.entry.activationId then Goto(s, c, Refused)
    else Goto(s, c, Arrived(1))
  }

  function DoReserve(h: string -> string, s: Store, c: nat): Store
    requires Adds(s, c)
  {
    var name := NameOf(h, s.callers[c].job.entry);
    if name in s.files then Goto(s, c, Refused)
    else Goto(s, c, Filling).(files := s.files[name := ""], reservedBy := s.reservedBy[name := c])
  }

  function DoFill(h: string -> string, s: Store, c: nat, upTo: nat): Store
    requires Adds(s, c) && upTo <= |Body(s.callers[c].job.entry)|
  {
    var e := s.callers[c].job.entry;
    Goto(s, c, if upTo == |Body(e)| then Written else Filling).(files := s.files[NameOf(h, e) := Body(e)[..upTo]])
  }

  ghost function Do(h: string -> string, s: Store, step: Step): Store
    requires Enabled(h, s, step)
  {
    match step
    case Arrive(c, job) => s.(callers := s.callers[c := Caller(job, Arrived(Scans(s.kind, job)))])
    case TakeListing(c) => Goto(s, c, Reading(s.files.Keys, {}, s.callers[c].phase.scans))
    case ReadFile(c, name) => DoRead(h, s, c, name)
    case EndScan(c) => DoEndScan(s, c)
    case Reserve(c) => DoReserve(h, s, c)
    case Fill(c, upTo) => DoFill(h, s, c, upTo)
    case Return(c) => Goto(s, c, Added)
    case Crash(c) => Goto(s, c, Crashed)
  }

  ghost predicate Runs(h: string -> string, s: Store, steps: seq<Step>)
    decreases |steps|
  {
    steps == [] || (Enabled(h, s, steps[0]) && Runs(h, Do(h, s, steps[0]), steps[1..]))
  }

  ghost function After(h: string -> string, s: Store, steps: seq<Step>): Store
    requires Runs(h, s, steps)
    decreases |steps|
  {
    if steps == [] then s else After(h, Do(h, s, steps[0]), steps[1..])
  }
}
