/**
 Effects, permits and authorizations are compared through digests of their canonical
 JSON. With a collision-free digest, equal fingerprints mean equal fields, and the
 authorization that the policy mints for one effect fits that effect only.
 */
module Fingerprints {
  import opened Values
  import opened CanonicalJson
  import opened JournalDisk

  datatype TmuxTarget = TmuxTarget(
    runId: string, serverSocket: string, serverGeneration: Option<string>,
    sessionId: string, sessionName: string, windowId: string, paneId: string)

  /** The two effect types. A generic target is known here only through its own fingerprint. */
  datatype BoundEffect =
    | Tmux(incidentId: string, componentId: string, action: string, argv: seq<string>, target: TmuxTarget,
           executionId: string, permitId: string)
    | Generic(runId: string, incidentId: string, componentId: string, resourceKind: string, targetFingerprint: string,
              scopeFingerprint: string, action: string, argv: seq<string>, executionId: string, permitId: string)

  function Digest(h: string -> string, fields: seq<Field>): string {
    h(Encode(Object(fields), true))
  }

  function Optional(s: Option<string>): Json {
    if s.None? then Null else Text(s.value)
  }

  function TargetFields(t: TmuxTarget): seq<Field> {
    [ Field("pane_id", Text(t.paneId)), Field("run_id", Text(t.runId)),
      Field("server_generation", Optional(t.serverGeneration)), Field("server_socket", Text(t.serverSocket)),
      Field("session_id", Text(t.sessionId)), Field("session_name", Text(t.sessionName)),
      Field("window_id", Text(t.windowId)) ]
  }

  function EffectFields(e: BoundEffect): seq<Field> {
    match e
    case Tmux(incident, component, action, argv, target, execution, permit) =>
      [ Field("action", Text(action)), Field("argv", Array(Texts(argv))), Field("component_id", Text(component)),
        Field("execution_id", Text(execution)), Field("incident_id", Text(incident)),
        Field("permit_id", Text(permit)), Field("target", Object(TargetFields(target))) ]
    case Generic(run, incident, component, kind, target, scope, action, argv, execution, permit) =>
      [ Field("action", Text(action)), Field("argv", Array(Texts(argv))), Field("component_id", Text(component)),
        Field("execution_id", Text(execution)), Field("incident_id", Text(incident)),
        Field("permit_id", Text(permit)), Field("resource_kind", Text(kind)), Field("run_id", Text(run)),
        Field("scope_fingerprint", Text(scope)), Field("target_fingerprint", Text(target)) ]
  }

  function AuthorizationFields(a: Authorization): seq<Field> {
    [ Field("action", Text(a.action)), Field("component_id", Text(a.componentId)),
      Field("decision", Text(if a.allow then "ALLOW" else "DENY")),
      Field("effect_fingerprint", Text(a.effectFingerprint)), Field("execution_id", Text(a.executionId)),
      Field("incident_id", Text(a.incidentId)), Field("permit_id", Text(a.permitId)), Field("reason", Text(a.reason)),
      Field("run_id", Text(a.runId)), Field("target_fingerprint", Text(a.targetFingerprint)) ]
  }

  function TargetFingerprint(h: string -> string, e: BoundEffect): string {
    match e
    case Tmux(_, _, _, _, target, _, _) => Digest(h, TargetFields(target))
    case Generic(_, _, _, _, target, _, _, _, _, _) => target
  }

  function RunOf(e: BoundEffect): string {
    if e.Tmux? then e.target.runId else e.runId
  }

  /** A target without a server generation is never acted on. */
  function LiveEligible(e: BoundEffect): bool {
    e.Generic? || e.target.serverGeneration.Some?
  }

  /** The effect as the journal sees it. */
  function View(h: string -> string, e: BoundEffect): Effect {
    Effect(RunOf(e), e.incidentId, e.componentId, e.action, e.argv, e.executionId, e.permitId,
           Strip(TargetFingerprint(h, e)), Digest(h, EffectFields(e)), LiveEligible(e))
  }

  /** The policy's answer on an effect; its constructor strips every text. */
  function Mint(h: string -> string, e: BoundEffect, allow: bool, reason: string): Authorization {
    var a := Authorization(
      allow, Strip(reason), Strip(e.incidentId), Strip(e.componentId), Strip(e.action), Strip(Strip(RunOf(e))),
      Strip(e.executionId), Strip(e.permitId), Strip(TargetFingerprint(h, e)), Digest(h, EffectFields(e)), "");
    a.(fingerprint := Digest(h, AuthorizationFields(a)))
  }

  // ------------------------------------------------------------ injectivity

  lemma DigestInjective(h: string -> string, u: seq<Field>, v: seq<Field>)
    requires Injective(h) && Digest(h, u) == Digest(h, v)
    ensures u == v
  {
    hide Encode;
    EncodeInjective(Object(u), Object(v), true);
  }

  lemma SameTexts(u: seq<string>, v: seq<string>)
    requires Texts(u) == Texts(v)
    ensures u == v
  {
    forall i | 0 <= i < |u| ensures u[i] == v[i] {
      assert Texts(u)[i] == Texts(v)[i];
    }
  }

  lemma SameTarget(t: TmuxTarget, w: TmuxTarget)
    requires TargetFields(t) == TargetFields(w)
    ensures t == w
  {
    var u, v := TargetFields(t), TargetFields(w);
    assert u[0].value == v[0].value && u[1].value == v[1].value && u[2].value == v[2].value;
    assert u[3].value == v[3].value && u[4].value == v[4].value && u[5].value == v[5].value && u[6].value == v[6].value;
  }

  lemma SameEffect(d: BoundEffect, e: BoundEffect)
    requires EffectFields(d) == EffectFields(e)
    ensures d == e
  {
    hide TargetFields, Texts;
    var u, v := EffectFields(d), EffectFields(e);
    assert |u| == |v|;
    assert u[0].value == v[0].value && u[1].value == v[1].value && u[2].value == v[2].value;
    assert u[3].value == v[3].value && u[4].value == v[4].value && u[5].value == v[5].value && u[6].value == v[6].value;
    SameTexts(d.argv, e.argv);
    if d.Tmux? {
      SameTarget(d.target, e.target);
    } else {
      assert u[7].value == v[7].value && u[8].value == v[8].value && u[9].value == v[9].value;
    }
  }

  /** Equal effect fingerprints mean equal effects, across both effect types. */
  lemma EffectFingerprintTells(h: string -> string, d: BoundEffect, e: BoundEffect)
    requires Injective(h)
    ensures Digest(h, EffectFields(d)) == Digest(h, EffectFields(e)) <==> d == e
  {
    hide EffectFields, Digest;
    if Digest(h, EffectFields(d)) == Digest(h, EffectFields(e)) {
      DigestInjective(h, EffectFields(d), EffectFields(e));
      SameEffect(d, e);
    }
  }

  /** Equal authorization fingerprints mean equal decisions on equal effects. */
  lemma AuthorizationFingerprintTells(h: string -> string, a: Authorization, b: Authorization)
    requires Injective(h)
    requires a.fingerprint == Digest(h, AuthorizationFields(a)) && b.fingerprint == Digest(h, AuthorizationFields(b))
    ensures a.fingerprint == b.fingerprint <==> a == b
  {
    hide Digest;
    if a.fingerprint == b.fingerprint {
      var u, v := AuthorizationFields(a), AuthorizationFields(b);
      DigestInjective(h, u, v);
      assert u[0].value == v[0].value && u[1].value == v[1].value && u[2].value == v[2].value && u[3].value == v[3].value;
      assert u[4].value == v[4].value && u[5].value == v[5].value && u[6].value == v[6].value && u[7].value == v[7].value;
      assert u[8].value == v[8].value && u[9].value == v[9].value;
    }
  }

  // --------------------------------------------------------------- stripping

  lemma {:induction false} StripLeftStops(s: string)
    ensures StripLeft(s) == "" || !Blank(StripLeft(s)[0])
  {
    if s != [] && Blank(s[0]) {
      StripLeftStops(s[1..]);
    }
  }

  lemma {:induction false} StripRightStops(s: string)
    requires s == "" || !Blank(s[0])
    ensures var t := StripRight(s); t == "" || (!Blank(t[0]) && !Blank(t[|t| - 1]))
  {
    if s != [] && Blank(s[|s| - 1]) {
      StripRightStops(s[..|s| - 1]);
    }
  }

  /** Stripping twice is stripping once. */
  lemma StripTwice(s: string)
    ensures Strip(Strip(s)) == Strip(s)
  {
    StripLeftStops(s);
    StripRightStops(StripLeft(s));
  }

  /** No blanks around the names that an authorization is compared by. */
  predicate Trimmed(e: BoundEffect) {
    && Strip(e.incidentId) == e.incidentId && Strip(e.componentId) == e.componentId && Strip(e.action) == e.action
    && Strip(e.executionId) == e.executionId && Strip(e.permitId) == e.permitId
  }

  /**
   An authorization minted for one effect is accepted for another if and only if
   they are the same effect and its names carry no blanks around them: a generic
   effect may, and is then refused even with its own authorization.
   */
  lemma AuthorizationFitsOneEffect(h: string -> string, d: BoundEffect, e: BoundEffect, allow: bool, reason: string)
    requires Injective(h)
    ensures Matches(Mint(h, d, allow, reason), View(h, e)) <==> d == e && Trimmed(e)
  {
    hide EffectFields, Digest, TargetFingerprint, Strip, AuthorizationFields;
    EffectFingerprintTells(h, d, e);
    StripTwice(RunOf(e));
  }

  const PADDED := Generic("run", " i", "c", "service", "target", "scope", "restart", ["restart"], "x", "p")

  /** Such an effect: the leading blank of its incident makes it refused with its own authorization. */
  lemma PaddedEffectIsRefused(h: string -> string)
    ensures !Matches(Mint(h, PADDED, true, "exact_bound_effect_authorized"), View(h, PADDED))
  {
    assert Strip(" i") == "i";
  }
}
