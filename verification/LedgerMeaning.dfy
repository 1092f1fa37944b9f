/**
 What stands in the files of the approval chain and under its fingerprints, and which
 records may stand there.
 */
module LedgerMeaning {
  import opened Values
  import opened CanonicalJson
  import opened JsonText
  import L = ApprovalLedger
  import F = Fingerprints
  import AC = ApprovalChain
  import JD = JournalDisk

  // ------------------------------------------------------------- which records

  /** One to 128 letters, digits, underscores and hyphens, the first a letter or digit. */
  ghost predicate Identifier(id: string) {
    && 1 <= |id| <= 128 && id[0] != '_' && id[0] != '-'
    && forall k :: 0 <= k < |id| ==>
         'a' <= id[k] <= 'z' || 'A' <= id[k] <= 'Z' || '0' <= id[k] <= '9' || id[k] == '_' || id[k] == '-'
  }

  /** Not empty, no blank at either end, no NUL. */
  ghost predicate Proper(t: string) {
    t != "" && JD.Strip(t) == t && (0 as char) !in t
  }

  ghost predicate Hex64(t: string) {
    |t| == 64 && forall c :: c in t ==> c in "0123456789abcdef"
  }

  ghost predicate ProperBinding(b: L.Binding) {
    && Proper(b.runId) && Proper(b.incidentId) && Proper(b.componentId) && Proper(b.resourceKind) && Proper(b.action)
    && Proper(b.executionId) && Proper(b.permitId)
    && Hex64(b.targetFingerprint) && Hex64(b.scopeFingerprint) && Hex64(b.effectFingerprint)
  }

  ghost predicate ProperEntry(e: L.Entry) {
    match e
    case Grant(approval, activation, issued, expires, effect) =>
      Identifier(approval) && Identifier(activation) && issued >= 0 && expires > issued && ProperBinding(effect)
    case Consumption(activation, approval, incident, component, execution, effect, grant, at) =>
      && Identifier(activation) && Proper(approval) && Proper(incident) && Proper(component) && Proper(execution)
      && Proper(effect) && Hex64(grant) && at >= 0
  }

  lemma {:induction false} LeftKeeps(t: string)
    ensures JD.StripLeft(t) == t <==> t == "" || !JD.Blank(t[0])
    ensures |JD.StripLeft(t)| <= |t| && (|JD.StripLeft(t)| == |t| ==> JD.StripLeft(t) == t)
  {
    if t != [] && JD.Blank(t[0]) {
      LeftKeeps(t[1..]);
    }
  }

  lemma {:induction false} RightKeeps(t: string)
    ensures JD.StripRight(t) == t <==> t == "" || !JD.Blank(t[|t| - 1])
    ensures |JD.StripRight(t)| <= |t|
  {
    if t != [] && JD.Blank(t[|t| - 1]) {
      RightKeeps(t[..|t| - 1]);
    }
  }

  lemma TextsAreProper(t: string)
    ensures L.TextOk(t) <==> Proper(t)
  {
    LeftKeeps(t);
    RightKeeps(t);
    RightKeeps(JD.StripLeft(t));
    hide JD.Blank, JD.StripLeft, JD.StripRight;
    assert (0 as char) in t <==> exists i :: 0 <= i < |t| && t[i] as int == 0 by {
      if i :| 0 <= i < |t| && t[i] as int == 0 {
        assert t[i] == 0 as char;
      }
    }
  }

  lemma HexCharacter(c: char)
    ensures '0' <= c <= '9' || 'a' <= c <= 'f' <==> c in "0123456789abcdef"
  {
    var s := "0123456789abcdef";
    assert forall k :: 0 <= k < 10 ==> s[k] as int == 48 + k;
    assert forall k :: 10 <= k < 16 ==> s[k] as int == 87 + k;
    if '0' <= c <= '9' {
      assert s[c as int - 48] == c;
    } else if 'a' <= c <= 'f' {
      assert s[c as int - 87] == c;
    }
  }

  lemma FingerprintsAreHex(t: string)
    ensures L.FingerprintOk(t) <==> Hex64(t)
  {
    forall c: char ensures '0' <= c <= '9' || 'a' <= c <= 'f' <==> c in "0123456789abcdef" {
      HexCharacter(c);
    }
    if L.FingerprintOk(t) {
      forall c | c in t ensures '0' <= c <= '9' || 'a' <= c <= 'f' {
        var i :| 0 <= i < |t| && t[i] == c;
      }
    }
    if Hex64(t) {
      forall i | 0 <= i < 64 ensures '0' <= t[i] <= '9' || 'a' <= t[i] <= 'f' {
        assert t[i] in t;
      }
    }
  }

  lemma BindingsAreProper(b: L.Binding)
    ensures L.BindingOk(b) <==> ProperBinding(b)
  {
    hide L.TextOk, Proper, L.FingerprintOk, Hex64;
    forall t ensures L.TextOk(t) <==> Proper(t) { TextsAreProper(t); }
    forall t ensures L.FingerprintOk(t) <==> Hex64(t) { FingerprintsAreHex(t); }
  }

  /** A record may be written, and is believed when it is read, exactly if it is proper. */
  lemma ValidMeansProper(e: L.Entry)
    ensures L.Valid(e) <==> ProperEntry(e)
  {
    hide L.TextOk, Proper, L.FingerprintOk, Hex64, L.BindingOk, ProperBinding;
    forall t ensures L.TextOk(t) <==> Proper(t) { TextsAreProper(t); }
    forall t ensures L.FingerprintOk(t) <==> Hex64(t) { FingerprintsAreHex(t); }
    if e.Grant? {
      BindingsAreProper(e.effect);
    }
  }

  // -------------------------------------------------------------------- texts

  lemma NamesArePlain()
    ensures Plain("action") && Plain("component_id") && Plain("effect_fingerprint") && Plain("execution_id")
    ensures Plain("incident_id") && Plain("permit_id") && Plain("resource_kind") && Plain("run_id")
    ensures Plain("scope_fingerprint") && Plain("target_fingerprint")
  {}

  lemma MoreNamesArePlain()
    ensures Plain("activation_id") && Plain("approval_id") && Plain("effect") && Plain("expires_at")
    ensures Plain("issued_at") && Plain("schema_version") && Plain("consumed_at") && Plain("grant_fingerprint")
    ensures Plain("argv") && Plain("target") && Plain("decision") && Plain("reason")
  {}

  lemma TargetNamesArePlain()
    ensures Plain("pane_id") && Plain("run_id") && Plain("server_generation") && Plain("server_socket")
    ensures Plain("session_id") && Plain("session_name") && Plain("window_id")
  {}

  function Word(s: string): string {
    Quote(s, true)
  }

  function BindingText(b: L.Binding): string {
    ['{'] + Members([
      ("action", Word(b.action)), ("component_id", Word(b.componentId)), ("effect_fingerprint", Word(b.effectFingerprint)),
      ("execution_id", Word(b.executionId)), ("incident_id", Word(b.incidentId)), ("permit_id", Word(b.permitId)),
      ("resource_kind", Word(b.resourceKind)), ("run_id", Word(b.runId)),
      ("scope_fingerprint", Word(b.scopeFingerprint)), ("target_fingerprint", Word(b.targetFingerprint)) ])
  }

  function IssuanceMembers(e: L.Entry): seq<(string, string)>
    requires e.Grant?
  {
    [ ("activation_id", Word(e.activationId)), ("approval_id", Word(e.approvalId)), ("effect", BindingText(e.effect)),
      ("expires_at", Number(e.expiresAt)), ("issued_at", Number(e.issuedAt)), ("schema_version", Number(1)) ]
  }

  function ConsumptionMembers(e: L.Entry): seq<(string, string)>
    requires e.Consumption?
  {
    [ ("activation_id", Word(e.activationId)), ("approval_id", Word(e.approvalId)), ("component_id", Word(e.componentId)),
      ("consumed_at", Number(e.consumedAt)), ("effect_fingerprint", Word(e.effectFingerprint)),
      ("execution_id", Word(e.executionId)), ("grant_fingerprint", Word(e.grantFingerprint)),
      ("incident_id", Word(e.incidentId)) ]
  }

  /** The content of a complete file. */
  function EntryText(e: L.Entry): string {
    ['{'] + Members(if e.Grant? then IssuanceMembers(e) else ConsumptionMembers(e))
  }

  lemma BindingReads(b: L.Binding)
    ensures Encode(Object(L.BindingFields(b)), true) == BindingText(b)
  {
    NamesArePlain();
    hide Plain, PlainOrDigit, Quote, EncodeFields, Members;
    MembersRead(L.BindingFields(b), [
      ("action", Word(b.action)), ("component_id", Word(b.componentId)), ("effect_fingerprint", Word(b.effectFingerprint)),
      ("execution_id", Word(b.executionId)), ("incident_id", Word(b.incidentId)), ("permit_id", Word(b.permitId)),
      ("resource_kind", Word(b.resourceKind)), ("run_id", Word(b.runId)),
      ("scope_fingerprint", Word(b.scopeFingerprint)), ("target_fingerprint", Word(b.targetFingerprint)) ], true);
  }

  lemma ObjectReads(fields: seq<Field>)
    ensures Encode(Object(fields), true) == ['{'] + EncodeFields(fields, true)
  {}

  lemma IssuanceNames(e: L.Entry)
    requires e.Grant?
    ensures var f, m := L.Fields(e), IssuanceMembers(e);
            |f| == |m| == 6 && forall i :: 0 <= i < 6 ==> Plain(f[i].key) && m[i].0 == f[i].key
  {
    NamesArePlain();
    MoreNamesArePlain();
    hide Plain, BindingText, L.BindingFields;
  }

  lemma TextReads(s: string)
    ensures Encode(Text(s), true) == Word(s)
  {}

  lemma NumberReads(n: int)
    ensures Encode(Int(n), true) == Number(n)
  {}

  lemma IssuanceTexts(e: L.Entry)
    requires e.Grant?
    ensures var f, m := L.Fields(e), IssuanceMembers(e);
            |f| == |m| == 6 && forall i :: 0 <= i < 6 ==> m[i].1 == Encode(f[i].value, true)
  {
    hide Encode, Word, Number, BindingText, L.BindingFields;
    BindingReads(e.effect);
    TextReads(e.activationId);
    TextReads(e.approvalId);
    NumberReads(e.expiresAt);
    NumberReads(e.issuedAt);
    NumberReads(1);
  }

  lemma GrantReads(e: L.Entry)
    requires e.Grant?
    ensures L.Body(e) == EntryText(e)
  {
    IssuanceNames(e);
    IssuanceTexts(e);
    ObjectReads(L.Fields(e));
    hide Plain, PlainOrDigit, Encode, EncodeFields, Members, L.Fields, IssuanceMembers;
    MembersRead(L.Fields(e), IssuanceMembers(e), true);
  }

  lemma ConsumptionReads(e: L.Entry)
    requires e.Consumption?
    ensures L.Body(e) == EntryText(e)
  {
    NamesArePlain();
    MoreNamesArePlain();
    hide Plain, PlainOrDigit, Quote, EncodeFields, Members, Number;
    MembersRead(L.Fields(e), ConsumptionMembers(e), true);
  }

  /** A file is a complete record exactly if it is this text, of a proper record, under the digest of its key. */
  lemma FilesRead(h: string -> string, kind: L.Kind, name: string, content: string, e: L.Entry)
    ensures L.Reads(h, kind, name, content, e) <==>
      && ProperEntry(e) && content == EntryText(e)
      && match kind
         case Approvals => e.Grant? && name == h(e.approvalId) + ".json"
         case Activations => e.Consumption? && name == h(e.activationId) + ".json"
  {
    ValidMeansProper(e);
    if e.Grant? { GrantReads(e); } else { ConsumptionReads(e); }
    hide L.Body, EntryText, L.Valid, ProperEntry;
  }

  // -------------------------------------------------------------- fingerprints

  function Words(argv: seq<string>): (r: seq<string>)
    ensures |r| == |argv| && forall i :: 0 <= i < |r| ==> r[i] == Word(argv[i])
  {
    seq(|argv|, i requires 0 <= i < |argv| => Word(argv[i]))
  }

  lemma WordsRead(argv: seq<string>)
    ensures Encode(Array(Texts(argv)), true) == ['['] + (Joined(Words(argv)) + [']'])
  {
    hide Quote, EncodeItems, Joined;
    forall i | 0 <= i < |argv| ensures Words(argv)[i] == Encode(Texts(argv)[i], true) {}
    ItemsRead(Texts(argv), Words(argv), true);
  }

  function TargetMembers(t: F.TmuxTarget): seq<(string, string)> {
    [ ("pane_id", Word(t.paneId)), ("run_id", Word(t.runId)),
      ("server_generation", if t.serverGeneration.Some? then Word(t.serverGeneration.value) else "null"),
      ("server_socket", Word(t.serverSocket)), ("session_id", Word(t.sessionId)), ("session_name", Word(t.sessionName)),
      ("window_id", Word(t.windowId)) ]
  }

  function EffectMembers(e: F.BoundEffect): seq<(string, string)> {
    var words := ['['] + (Joined(Words(e.argv)) + [']']);
    match e
    case Tmux(incident, component, action, argv, target, execution, permit) =>
      [ ("action", Word(action)), ("argv", words), ("component_id", Word(component)), ("execution_id", Word(execution)),
        ("incident_id", Word(incident)), ("permit_id", Word(permit)), ("target", ['{'] + Members(TargetMembers(target))) ]
    case Generic(run, incident, component, kind, target, scope, action, argv, execution, permit) =>
      [ ("action", Word(action)), ("argv", words), ("component_id", Word(component)), ("execution_id", Word(execution)),
        ("incident_id", Word(incident)), ("permit_id", Word(permit)), ("resource_kind", Word(kind)), ("run_id", Word(run)),
        ("scope_fingerprint", Word(scope)), ("target_fingerprint", Word(target)) ]
  }

  lemma TargetReads(t: F.TmuxTarget)
    ensures Encode(Object(F.TargetFields(t)), true) == ['{'] + Members(TargetMembers(t))
  {
    TargetNamesArePlain();
    hide Plain, PlainOrDigit, Quote, EncodeFields, Members;
    MembersRead(F.TargetFields(t), TargetMembers(t), true);
  }

  /** The fingerprint of an effect is the digest of this text, and nothing else goes into it. */
  lemma EffectReads(h: string -> string, e: F.BoundEffect)
    ensures F.View(h, e).fingerprint == h(['{'] + Members(EffectMembers(e)))
  {
    if e.Tmux? {
      TmuxReads(e);
    } else {
      GenericReads(e);
    }
    ObjectReads(F.EffectFields(e));
    hide F.EffectFields, EffectMembers, Members, JD.Strip, Encode, EncodeFields;
  }

  lemma TmuxReads(e: F.BoundEffect)
    requires e.Tmux?
    ensures EncodeFields(F.EffectFields(e), true) == Members(EffectMembers(e))
  {
    NamesArePlain();
    MoreNamesArePlain();
    TmuxTexts(e);
    hide Plain, PlainOrDigit, Encode, EncodeFields, Members, Joined, Words, F.TargetFields, TargetMembers, Texts, Word;
    MembersRead(F.EffectFields(e), EffectMembers(e), true);
  }

  lemma TmuxTexts(e: F.BoundEffect)
    requires e.Tmux?
    ensures var f, m := F.EffectFields(e), EffectMembers(e);
            |f| == |m| == 7 && forall i :: 0 <= i < 7 ==> m[i].1 == Encode(f[i].value, true)
  {
    hide Encode, Word, Members, Joined, Words, F.TargetFields, TargetMembers, Texts;
    WordsRead(e.argv);
    TargetReads(e.target);
    TextReads(e.action);
    TextReads(e.componentId);
    TextReads(e.executionId);
    TextReads(e.incidentId);
    TextReads(e.permitId);
  }

  lemma GenericReads(e: F.BoundEffect)
    requires e.Generic?
    ensures EncodeFields(F.EffectFields(e), true) == Members(EffectMembers(e))
  {
    NamesArePlain();
    MoreNamesArePlain();
    WordsRead(e.argv);
    hide Plain, PlainOrDigit, Quote, EncodeFields, EncodeItems, Members, Joined, Words, Texts;
    MembersRead(F.EffectFields(e), EffectMembers(e), true);
  }

  function AuthorizationMembers(a: JD.Authorization): seq<(string, string)> {
    [ ("action", Word(a.action)), ("component_id", Word(a.componentId)),
      ("decision", if a.allow then "\"ALLOW\"" else "\"DENY\""), ("effect_fingerprint", Word(a.effectFingerprint)),
      ("execution_id", Word(a.executionId)), ("incident_id", Word(a.incidentId)), ("permit_id", Word(a.permitId)),
      ("reason", Word(a.reason)), ("run_id", Word(a.runId)), ("target_fingerprint", Word(a.targetFingerprint)) ]
  }

  lemma AllowReads()
    ensures Quote("ALLOW", true) == "\"ALLOW\""
  {
    assert PlainOrDigit("ALLOW");
    PlainEscape("ALLOW", true);
    hide EscapeAll, PlainOrDigit;
  }

  lemma DenyReads()
    ensures Quote("DENY", true) == "\"DENY\""
  {
    assert PlainOrDigit("DENY");
    PlainEscape("DENY", true);
    hide EscapeAll, PlainOrDigit;
  }

  /** An authorization carries the effect's names without blanks around them, and the digest of its own text. */
  lemma AuthorizationReads(h: string -> string, e: F.BoundEffect, allow: bool, reason: string)
    ensures var a := F.Mint(h, e, allow, reason);
            && a.allow == allow && a.reason == JD.Strip(reason)
            && a.incidentId == JD.Strip(e.incidentId) && a.componentId == JD.Strip(e.componentId)
            && a.action == JD.Strip(e.action) && a.executionId == JD.Strip(e.executionId)
            && a.permitId == JD.Strip(e.permitId)
            && a.effectFingerprint == F.View(h, e).fingerprint && a.targetFingerprint == F.View(h, e).targetFingerprint
            && a.fingerprint == h(['{'] + Members(AuthorizationMembers(a)))
  {
    NamesArePlain();
    MoreNamesArePlain();
    AllowReads();
    DenyReads();
    hide Plain, PlainOrDigit, Quote, EncodeFields, Members, F.EffectFields, F.TargetFingerprint, JD.Strip;
    var a := F.Mint(h, e, allow, reason);
    MembersRead(F.AuthorizationFields(a), AuthorizationMembers(a), true);
  }

  function GrantMembers(a: AC.Activation): seq<(string, string)> {
    [ ("activation_id", Word(a.activationId)), ("approval_id", Word(a.approvalId)), ("component_id", Word(a.componentId)),
      ("effect_fingerprint", Word(a.effectFingerprint)), ("execution_id", Word(a.executionId)),
      ("expires_at", Number(a.expiresAt)), ("incident_id", Word(a.incidentId)), ("issued_at", Number(a.issuedAt)) ]
  }

  lemma ActivationReads(h: string -> string, a: AC.Activation)
    ensures F.Digest(h, AC.ActivationFields(a)) == h(['{'] + Members(GrantMembers(a)))
  {
    NamesArePlain();
    MoreNamesArePlain();
    hide Plain, PlainOrDigit, Quote, EncodeFields, Members, Number;
    MembersRead(AC.ActivationFields(a), GrantMembers(a), true);
  }

  /**
   A context speaks for an effect at a time exactly if grant, consumption and effect
   agree, the consumption is one of this very grant, and everything happened in order and
   within its limits.
   */
  lemma SpeaksExactly(h: string -> string, x: AC.Context, e: F.BoundEffect, t: int)
    ensures AC.Speaks(h, x, e, t) <==>
      && e == x.prepared.effect && e.Generic? && x.consumption.Consumption?
      && x.consumption.activationId == x.grant.activationId && x.consumption.approvalId == x.grant.approvalId
      && x.consumption.incidentId == x.grant.incidentId == e.incidentId
      && x.consumption.componentId == x.grant.componentId == e.componentId
      && x.consumption.executionId == x.grant.executionId == e.executionId
      && x.consumption.effectFingerprint == x.grant.effectFingerprint == F.View(h, e).fingerprint
      && x.consumption.grantFingerprint == h(['{'] + Members(GrantMembers(x.grant)))
      && x.grant.issuedAt <= x.consumption.consumedAt <= x.boundAt <= t < x.grant.expiresAt
      && x.prepared.observedAt <= x.boundAt && t <= x.prepared.evidenceExpires
      && t - x.prepared.observedAt <= x.prepared.maxAge
      && x.prepared.validatedAt <= x.prepared.preparedAt <= x.boundAt
  {
    ActivationReads(h, x.grant);
    hide F.Digest, F.EffectFields, AC.ActivationFields, Members, GrantMembers, F.TargetFingerprint, JD.Strip;
  }
}
