/**
 From a Commander approval to an external effect: approvals are issued, activations
 are consumed, contexts are built from what the two ledgers hold, the policy admits
 an effect on the strength of a context, and the effect goes through the execution
 journal. All of it runs interleaved, with crashes, beside any other remediation.
 */
module ApprovalChain {
  import opened Values
  import CanonicalJson
  import JD = JournalDisk
  import E = EffectProtocol
  import L = ApprovalLedger
  import F = Fingerprints
  import BoundPolicy

  /** What issuing an approval hands out. */
  datatype Activation = Activation(
    activationId: string, approvalId: string, incidentId: string, componentId: string, executionId: string,
    effectFingerprint: string, issuedAt: int, expiresAt: int)

  /** An effect prepared from trusted evidence, with the times between which the evidence is fresh. */
  datatype Prepared = Prepared(
    effect: F.BoundEffect, observedAt: int, evidenceExpires: int, maxAge: int, validatedAt: int, preparedAt: int)

  datatype Context = Context(grant: Activation, consumption: L.Entry, prepared: Prepared, boundAt: int)

  function ActivationFields(a: Activation): seq<CanonicalJson.Field> {
    [ CanonicalJson.Field("activation_id", CanonicalJson.Text(a.activationId)),
      CanonicalJson.Field("approval_id", CanonicalJson.Text(a.approvalId)),
      CanonicalJson.Field("component_id", CanonicalJson.Text(a.componentId)),
      CanonicalJson.Field("effect_fingerprint", CanonicalJson.Text(a.effectFingerprint)),
      CanonicalJson.Field("execution_id", CanonicalJson.Text(a.executionId)),
      CanonicalJson.Field("expires_at", CanonicalJson.Int(a.expiresAt)),
      CanonicalJson.Field("incident_id", CanonicalJson.Text(a.incidentId)),
      CanonicalJson.Field("issued_at", CanonicalJson.Int(a.issuedAt)) ]
  }

  function BindingOf(h: string -> string, e: F.BoundEffect): L.Binding
    requires e.Generic?
  {
    L.Binding(e.runId, e.incidentId, e.componentId, e.resourceKind, e.action, e.executionId, e.permitId,
              e.targetFingerprint, e.scopeFingerprint, F.Digest(h, F.EffectFields(e)))
  }

  predicate Active(a: Activation, now: int) {
    a.issuedAt <= now < a.expiresAt
  }

  predicate Fresh(p: Prepared, now: int) {
    p.observedAt <= now <= p.evidenceExpires && now - p.observedAt <= p.maxAge
  }

  /** The issuance record that a context must find. */
  function Issued(h: string -> string, x: Context): L.Entry
    requires x.prepared.effect.Generic?
  {
    L.Grant(x.grant.approvalId, x.grant.activationId, x.grant.issuedAt, x.grant.expiresAt, BindingOf(h, x.prepared.effect))
  }

  /** Continuity from the grant through the consumption to the prepared effect, and the time windows. */
  predicate Continuous(h: string -> string, x: Context): (r: bool)
    ensures r ==> x.prepared.effect.Generic? && x.consumption.Consumption?
  {
    && x.prepared.effect.Generic? && x.consumption.Consumption?
    && Active(x.grant, x.boundAt)
    && x.grant.issuedAt <= x.consumption.consumedAt < x.grant.expiresAt && x.consumption.consumedAt <= x.boundAt
    && x.consumption.activationId == x.grant.activationId
    && x.consumption.approvalId == x.grant.approvalId
    && x.consumption.incidentId == x.grant.incidentId == x.prepared.effect.incidentId
    && x.consumption.componentId == x.grant.componentId == x.prepared.effect.componentId
    && x.consumption.executionId == x.grant.executionId == x.prepared.effect.executionId
    && x.consumption.effectFingerprint == x.grant.effectFingerprint == F.Digest(h, F.EffectFields(x.prepared.effect))
    && x.consumption.grantFingerprint == F.Digest(h, ActivationFields(x.grant))
    && Fresh(x.prepared, x.boundAt)
  }

  /** The context speaks for this effect at this time. */
  predicate Speaks(h: string -> string, x: Context, effect: F.BoundEffect, now: int) {
    && Continuous(h, x)
    && x.boundAt <= now && Active(x.grant, now) && Fresh(x.prepared, now)
    && effect == x.prepared.effect
    && x.prepared.validatedAt <= x.prepared.preparedAt <= x.boundAt
  }

  /** The context on whose strength a caller was admitted, when, and what the policy held and was told then. */
  datatype Approval = Approval(
    context: Context, askedAt: int, policy: BoundPolicy.Policy, assessment: BoundPolicy.Assessment)

  /** `approvedBy` is history. */
  datatype Chain = Chain(
    approvals: L.Store, activations: L.Store, contexts: map<nat, Context>, journal: E.State, approvedBy: map<nat, Approval>)

  datatype Step =
    | Issue(issuing: L.Step)
    | Consume(consuming: L.Step)
    | Build(k: nat, issuedReader: nat, consumedReader: nat, context: Context)
    | Ask(k: nat, c: nat, policy: BoundPolicy.Policy, assessment: BoundPolicy.Assessment, now: int)
    | Journal(step: E.Step)   // any step of the journal, requests of other origin included

  function Init(): Chain {
    Chain(L.Init(L.Approvals), L.Init(L.Activations), map[], E.Init(), map[])
  }

  /** What a caller that has read a whole ledger found there. */
  predicate WasListed(s: L.Store, reader: nat, e: L.Entry) {
    reader in s.callers && s.callers[reader].phase.Listed? && e in s.callers[reader].phase.found
  }

  /** The policy's answer when it is shown context k. */
  function Answer(h: string -> string, s: Chain, step: Step): BoundPolicy.Verdict
    requires step.Ask? && step.k in s.contexts
  {
    var x := s.contexts[step.k];
    BoundPolicy.EvaluateProduction(step.policy, x.prepared.effect, step.assessment, Speaks(h, x, x.prepared.effect, step.now))
  }

  ghost predicate Enabled(h: string -> string, s: Chain, step: Step) {
    match step
    case Issue(t) => L.Enabled(h, s.approvals, t)
    case Consume(t) => L.Enabled(h, s.activations, t)
    case Build(k, issuedReader, consumedReader, x) =>
      && k !in s.contexts
      && Speaks(h, x, x.prepared.effect, x.boundAt)
      && WasListed(s.approvals, issuedReader, Issued(h, x))
      && WasListed(s.activations, consumedReader, x.consumption)
    case Ask(k, c, _, assessment, _) =>
      // the approval counts only where the target is not eligible without it
      && k in s.contexts && c !in s.journal.callers && !assessment.autonomousEligible
      && Answer(h, s, step).allow
    case Journal(t) => E.Enabled(s.journal, t)
  }

  ghost function Do(h: string -> string, s: Chain, step: Step): Chain
    requires Enabled(h, s, step)
  {
    match step
    case Issue(t) => s.(approvals := L.Do(h, s.approvals, t))
    case Consume(t) => s.(activations := L.Do(h, s.activations, t))
    case Build(k, _, _, x) => s.(contexts := s.contexts[k := x])
    case Ask(k, c, policy, assessment, now) =>
      s.(journal := E.Do(s.journal, E.Arrive(c, BoundPolicy.RequestOf(h, s.contexts[k].prepared.effect, Answer(h, s, step)))),
         approvedBy := s.approvedBy[c := Approval(s.contexts[k], now, policy, assessment)])
    case Journal(t) => s.(journal := E.Do(s.journal, t))
  }

  ghost predicate Runs(h: string -> string, s: Chain, steps: seq<Step>)
    decreases |steps|
  {
    steps == [] || (Enabled(h, s, steps[0]) && Runs(h, Do(h, s, steps[0]), steps[1..]))
  }

  ghost function After(h: string -> string, s: Chain, steps: seq<Step>): Chain
    requires Runs(h, s, steps)
    decreases |steps|
  {
    if steps == [] then s else After(h, Do(h, s, steps[0]), steps[1..])
  }
}

/** One approval, one activation: at most one external effect. */
module ApprovalChainTheorems {
  import opened Values
  import JD = JournalDisk
  import E = EffectProtocol
  import EffectInvariant
  import EffectSteps
  import EffectTheorems
  import L = ApprovalLedger
  import P = ApprovalLedgerProofs
  import F = Fingerprints
  import opened ApprovalChain

  ghost predicate Recorded(h: string -> string, s: L.Store, e: L.Entry) {
    L.NameOf(h, e) in s.files && L.Reads(h, s.kind, L.NameOf(h, e), s.files[L.NameOf(h, e)], e)
  }

  /** Both records that the context rests on are complete on disk. */
  ghost predicate Backed(h: string -> string, s: Chain, x: Context) {
    Continuous(h, x) && Recorded(h, s.approvals, Issued(h, x)) && Recorded(h, s.activations, x.consumption)
  }

  ghost predicate ApprovedOk(h: string -> string, s: Chain, c: nat)
    requires c in s.approvedBy
  {
    var x := s.approvedBy[c].context;
    && Backed(h, s, x)
    && Speaks(h, x, x.prepared.effect, s.approvedBy[c].askedAt)
    && !s.approvedBy[c].assessment.autonomousEligible
    && BoundPolicy.EvaluateProduction(s.approvedBy[c].policy, x.prepared.effect, s.approvedBy[c].assessment, true).allow
    && c in s.journal.callers
    && s.journal.callers[c].request.Bound?
    && s.journal.callers[c].request.effect == F.View(h, x.prepared.effect)
    && s.journal.callers[c].request.authorization.allow
    && s.journal.callers[c].request.decision
       == JD.Decision(true, JD.Strip(x.prepared.effect.componentId), JD.Strip(x.prepared.effect.action))
  }

  ghost predicate Inv(h: string -> string, s: Chain) {
    && P.Inv(h, s.approvals) && P.Inv(h, s.activations) && EffectInvariant.Inv(s.journal)
    && (forall k :: k in s.contexts ==> Backed(h, s, s.contexts[k]))
    && (forall c :: c in s.approvedBy ==> ApprovedOk(h, s, c))
  }

  lemma RecordedStays(h: string -> string, s: L.Store, t: L.Store, e: L.Entry)
    requires P.Grows(h, s, t) && Recorded(h, s, e)
    ensures Recorded(h, t, e)
  {
    hide L.Body, L.Valid;
    assert L.Complete(h, s.kind, L.NameOf(h, e), s.files[L.NameOf(h, e)]);
  }

  lemma ListedIsRecorded(h: string -> string, s: L.Store, reader: nat, e: L.Entry)
    requires P.Inv(h, s) && WasListed(s, reader, e)
    ensures Recorded(h, s, e)
  {
    hide L.Body, L.Valid, P.FileOk;
    assert P.CallerOk(h, s, reader);
  }

  lemma LedgersKeep(h: string -> string, s: Chain, t: Chain)
    requires Inv(h, s) && t.contexts == s.contexts && t.approvedBy == s.approvedBy && t.journal == s.journal
    requires P.Inv(h, t.approvals) && P.Grows(h, s.approvals, t.approvals)
    requires P.Inv(h, t.activations) && P.Grows(h, s.activations, t.activations)
    ensures Inv(h, t)
  {
    hide P.Inv, P.Grows, EffectInvariant.Inv, Recorded, Continuous, F.View;
    forall x | Backed(h, s, x) ensures Backed(h, t, x) {
      RecordedStays(h, s.approvals, t.approvals, Issued(h, x));
      RecordedStays(h, s.activations, t.activations, x.consumption);
    }
    forall c | c in t.approvedBy ensures ApprovedOk(h, t, c) {
      assert ApprovedOk(h, s, c);
    }
  }

  lemma SameStore(h: string -> string, s: L.Store)
    ensures P.Grows(h, s, s)
  {}

  lemma JournalKeeps(h: string -> string, s: Chain, step: E.Step)
    requires Inv(h, s) && E.Enabled(s.journal, step)
    ensures var t := s.(journal := E.Do(s.journal, step)); Inv(h, t)
  {
    hide P.Inv, EffectInvariant.Inv, Recorded, Continuous, F.View, E.Do, E.Enabled;
    EffectSteps.StepKeeps(s.journal, step);
    EffectTheorems.StepKeepsHistory(s.journal, step);
    var t := s.(journal := E.Do(s.journal, step));
    forall c | c in t.approvedBy ensures ApprovedOk(h, t, c) {
      assert ApprovedOk(h, s, c);
      assert Backed(h, s, s.approvedBy[c].context);
    }
    forall k | k in t.contexts ensures Backed(h, t, t.contexts[k]) {
      assert Backed(h, s, s.contexts[k]);
    }
  }

  lemma AskKeeps(h: string -> string, s: Chain, step: Step)
    requires Inv(h, s) && Enabled(h, s, step) && step.Ask?
    ensures Inv(h, Do(h, s, step))
  {
    hide P.Inv, EffectInvariant.Inv, Recorded, Speaks, Continuous, F.View, F.Mint, ApprovedOk, Answer;
    var arrive := E.Arrive(step.c, BoundPolicy.RequestOf(h, s.contexts[step.k].prepared.effect, Answer(h, s, step)));
    JournalKeeps(h, s, arrive);
    var u, t := s.(journal := E.Do(s.journal, arrive)), Do(h, s, step);
    assert t == u.(approvedBy := s.approvedBy[step.c := Approval(s.contexts[step.k], step.now, step.policy, step.assessment)]);
    forall k | k in t.contexts ensures Backed(h, t, t.contexts[k]) {
      assert Backed(h, s, s.contexts[k]);
    }
    forall c | c in t.approvedBy ensures ApprovedOk(h, t, c) {
      ApprovedAfterAsk(h, s, step, c);
    }
  }

  lemma RequestIsAllowed(h: string -> string, e: F.BoundEffect, v: BoundPolicy.Verdict)
    ensures var r := BoundPolicy.RequestOf(h, e, v);
            && r.Bound? && r.effect == F.View(h, e) && r.authorization.allow == v.allow
            && r.decision == JD.Decision(v.allow, JD.Strip(e.componentId), JD.Strip(e.action))
  {
    hide F.View, F.Digest, F.TargetFingerprint, F.EffectFields, JD.Strip;
  }

  lemma ApprovedAfterAsk(h: string -> string, s: Chain, step: Step, c: nat)
    requires Enabled(h, s, step) && step.Ask? && c in Do(h, s, step).approvedBy
    requires Backed(h, s, s.contexts[step.k])
    requires c in s.approvedBy ==> ApprovedOk(h, s, c)
    ensures ApprovedOk(h, Do(h, s, step), c)
  {
    if c == step.c {
      NewlyApproved(h, s, step);
    } else {
      hide Recorded, Speaks, Continuous, F.View, F.Mint, BoundPolicy.EvaluateProduction, BoundPolicy.RequestOf, JD.Strip, Answer;
    }
  }

  lemma NewlyApproved(h: string -> string, s: Chain, step: Step)
    requires Enabled(h, s, step) && step.Ask? && Backed(h, s, s.contexts[step.k])
    ensures ApprovedOk(h, Do(h, s, step), step.c)
  {
    RequestIsAllowed(h, s.contexts[step.k].prepared.effect, Answer(h, s, step));
    AnswerNeedsTheContext(h, s, step);
    hide Recorded, Speaks, Continuous, F.View, F.Mint, BoundPolicy.EvaluateProduction, BoundPolicy.RequestOf, JD.Strip, Answer;
  }

  /** Where the target is not eligible by itself, an allowing answer rests on a context that speaks. */
  lemma AnswerNeedsTheContext(h: string -> string, s: Chain, step: Step)
    requires Enabled(h, s, step) && step.Ask?
    ensures var x := s.contexts[step.k];
            && Speaks(h, x, x.prepared.effect, step.now)
            && BoundPolicy.EvaluateProduction(step.policy, x.prepared.effect, step.assessment, true).allow
  {
    hide Speaks, Continuous, BoundPolicy.EvaluateBound;
  }

  lemma BuildKeeps(h: string -> string, s: Chain, step: Step)
    requires Inv(h, s) && Enabled(h, s, step) && step.Build?
    ensures Inv(h, Do(h, s, step))
  {
    hide P.Inv, EffectInvariant.Inv, Recorded, WasListed, F.View;
    var t, x := Do(h, s, step), step.context;
    ListedIsRecorded(h, s.approvals, step.issuedReader, Issued(h, x));
    ListedIsRecorded(h, s.activations, step.consumedReader, x.consumption);
    assert Backed(h, s, x);
    hide Continuous, Speaks;
    forall k | k in t.contexts ensures Backed(h, t, t.contexts[k]) {
      assert k in s.contexts ==> Backed(h, s, s.contexts[k]);
    }
    forall c | c in t.approvedBy ensures ApprovedOk(h, t, c) {
      assert ApprovedOk(h, s, c) && Backed(h, s, s.approvedBy[c].context);
    }
  }

  lemma StepKeeps(h: string -> string, s: Chain, step: Step)
    requires Inv(h, s) && Enabled(h, s, step)
    ensures Inv(h, Do(h, s, step))
  {
    hide Inv, P.Inv, P.Grows, EffectInvariant.Inv, L.Do, L.Enabled, E.Do, E.Enabled, Speaks, Continuous;
    match step
    case Issue(t) =>
      assert P.Inv(h, s.approvals) && P.Inv(h, s.activations) by { Parts(h, s); }
      P.StepKeeps(h, s.approvals, t);
      SameStore(h, s.activations);
      LedgersKeep(h, s, Do(h, s, step));
    case Consume(t) =>
      assert P.Inv(h, s.approvals) && P.Inv(h, s.activations) by { Parts(h, s); }
      P.StepKeeps(h, s.activations, t);
      SameStore(h, s.approvals);
      LedgersKeep(h, s, Do(h, s, step));
    case Build(_, _, _, _) => BuildKeeps(h, s, step);
    case Ask(_, _, _, _, _) => AskKeeps(h, s, step);
    case Journal(t) => JournalKeeps(h, s, t);
  }

  lemma Parts(h: string -> string, s: Chain)
    requires Inv(h, s)
    ensures P.Inv(h, s.approvals) && P.Inv(h, s.activations) && EffectInvariant.Inv(s.journal)
    ensures forall c :: c in s.approvedBy ==> ApprovedOk(h, s, c)
  {
    hide P.Inv, EffectInvariant.Inv, ApprovedOk, Backed;
  }

  lemma {:induction false} RunsKeep(h: string -> string, s: Chain, steps: seq<Step>)
    requires Inv(h, s) && Runs(h, s, steps)
    ensures Inv(h, After(h, s, steps))
    decreases |steps|
  {
    hide Inv, Enabled, Do;
    if steps != [] {
      StepKeeps(h, s, steps[0]);
      RunsKeep(h, Do(h, s, steps[0]), steps[1..]);
    }
  }

  lemma InitHolds(h: string -> string)
    ensures Inv(h, Init())
  {
    P.InitHolds(h, L.Approvals);
    P.InitHolds(h, L.Activations);
    EffectSteps.InitHolds();
  }

  // ------------------------------------------------------------- one effect

  /** Two backed contexts with the same approval, or the same activation, carry the same effect binding. */
  lemma ContextsAgree(h: string -> string, s: Chain, x: Context, y: Context)
    requires Backed(h, s, x) && Backed(h, s, y)
    requires x.grant.approvalId == y.grant.approvalId || x.grant.activationId == y.grant.activationId
    ensures x.grant.approvalId == y.grant.approvalId && x.grant.activationId == y.grant.activationId
    ensures BindingOf(h, x.prepared.effect) == BindingOf(h, y.prepared.effect)
    ensures x.consumption == y.consumption
  {
    hide L.Body, L.Valid, L.NameOf, F.Digest, F.EffectFields, ActivationFields;
    if x.grant.activationId == y.grant.activationId {
      P.OneRecordPerKey(h, s.activations, x.consumption, y.consumption);
    }
    P.OneRecordPerKey(h, s.approvals, Issued(h, x), Issued(h, y));
    P.OneRecordPerKey(h, s.activations, x.consumption, y.consumption);
  }

  /** The call stems from a Commander approval. */
  ghost predicate ApprovedCall(s: Chain, i: nat) {
    i < |s.journal.log| && s.journal.log[i].Called? && s.journal.log[i].c in s.approvedBy
  }

  /**
   Over every interleaving of issuing, consuming, building contexts, asking the
   policy and executing, with crashes anywhere: no two external calls stem from
   one approval, and no two from one activation.
   */
  lemma OneApprovalOneEffect(h: string -> string, steps: seq<Step>, i: nat, j: nat)
    requires Runs(h, Init(), steps) && i < j
    requires ApprovedCall(After(h, Init(), steps), i) && ApprovedCall(After(h, Init(), steps), j)
    ensures var s := After(h, Init(), steps);
            var x, y := s.approvedBy[s.journal.log[i].c].context.grant, s.approvedBy[s.journal.log[j].c].context.grant;
            x.approvalId != y.approvalId && x.activationId != y.activationId
  {
    hide Inv, P.Inv, EffectInvariant.Inv, Enabled, Do, Recorded, Continuous, JD.IdOf, JD.RunKey, F.Digest, F.EffectFields,
         F.TargetFingerprint;
    InitHolds(h);
    RunsKeep(h, Init(), steps);
    var s := After(h, Init(), steps);
    Parts(h, s);
    EffectTheorems.CallsAreDistinct(s.journal, i, j);
    var c, d := s.journal.log[i].c, s.journal.log[j].c;
    assert ApprovedOk(h, s, c) && ApprovedOk(h, s, d);
    var x, y := s.approvedBy[c].context, s.approvedBy[d].context;
    if x.grant.approvalId == y.grant.approvalId || x.grant.activationId == y.grant.activationId {
      ContextsAgree(h, s, x, y);
      SameRun(h, x.prepared.effect, y.prepared.effect);
    }
  }

  lemma SameRun(h: string -> string, d: F.BoundEffect, e: F.BoundEffect)
    requires d.Generic? && e.Generic? && BindingOf(h, d) == BindingOf(h, e)
    ensures JD.RunKey(F.View(h, d)) == JD.RunKey(F.View(h, e))
  {
    hide F.Digest, F.EffectFields, JD.Strip;
  }

  /**
   At every moment of every run, an external call that stems from an approval has
   its issuance record and its consumption record complete on disk, and both name
   the very effect whose call it is; the activation was consumed before the policy
   was asked, and the approval was in force then.
   */
  lemma ApprovedCallIsRecorded(h: string -> string, steps: seq<Step>, i: nat)
    requires Runs(h, Init(), steps) && ApprovedCall(After(h, Init(), steps), i)
    ensures var s := After(h, Init(), steps);
            var approval, r := s.approvedBy[s.journal.log[i].c], s.journal.log[i].request;
            var x := approval.context;
            && Backed(h, s, x)
            && r.Bound? && r.effect == F.View(h, x.prepared.effect)
            && Issued(h, x).effect.effectFingerprint == r.effect.fingerprint == x.consumption.effectFingerprint
            && Issued(h, x).issuedAt <= x.consumption.consumedAt <= x.boundAt <= approval.askedAt < Issued(h, x).expiresAt
  {
    hide Inv, P.Inv, EffectInvariant.Inv, Enabled, Do, Recorded, F.Digest, F.EffectFields, F.TargetFingerprint;
    InitHolds(h);
    RunsKeep(h, Init(), steps);
    var s := After(h, Init(), steps);
    Parts(h, s);
    CallKeepsRequest(s.journal, i);
    assert ApprovedOk(h, s, s.journal.log[i].c);
  }

  /**
   The policy that was asked had exactly this effect configured for its run, with
   its action among the allowed ones, on a known, unprotected target that has a
   verification and to which no other restriction applied.
   */
  lemma ApprovedCallWasConfigured(h: string -> string, steps: seq<Step>, i: nat)
    requires Runs(h, Init(), steps) && ApprovedCall(After(h, Init(), steps), i)
    ensures var s := After(h, Init(), steps);
            var approval := s.approvedBy[s.journal.log[i].c];
            var e, policy, a := approval.context.prepared.effect, approval.policy, approval.assessment;
            && e.Generic? && e.action in policy.allowed
            && JD.Strip(e.runId) in policy.bound && policy.bound[JD.Strip(e.runId)] == e
            && a.commanderRequired && a.targetKnown && !a.protectedTarget && a.cooldownSatisfied
            && a.retryBudgetAvailable && a.blastRadiusAvailable && a.hasVerification
  {
    hide Inv, P.Inv, EffectInvariant.Inv, Enabled, Do, Recorded, F.Digest, F.EffectFields, F.TargetFingerprint, F.View, JD.Strip;
    InitHolds(h);
    RunsKeep(h, Init(), steps);
    var s := After(h, Init(), steps);
    Parts(h, s);
    assert ApprovedOk(h, s, s.journal.log[i].c);
  }

  /** The complete approval record is one for this effect, in all of its texts. */
  ghost predicate GrantNames(g: L.Entry, e: F.BoundEffect) {
    && g.Grant? && e.Generic?
    && g.effect.runId == e.runId && g.effect.incidentId == e.incidentId && g.effect.componentId == e.componentId
    && g.effect.resourceKind == e.resourceKind && g.effect.action == e.action && g.effect.executionId == e.executionId
    && g.effect.permitId == e.permitId && g.effect.targetFingerprint == e.targetFingerprint
    && g.effect.scopeFingerprint == e.scopeFingerprint
  }

  /** The request that is carried out is this effect, allowed by authorization and decision. */
  ghost predicate RequestNames(r: JD.Request, e: F.BoundEffect) {
    && r.Bound? && e.Generic?
    && r.effect.runId == e.runId && r.effect.incidentId == e.incidentId && r.effect.componentId == e.componentId
    && r.effect.action == e.action && r.effect.argv == e.argv && r.effect.executionId == e.executionId
    && r.effect.permitId == e.permitId && r.authorization.allow && r.decision.allow
    && r.decision.componentId == JD.Strip(e.componentId) && r.decision.action == JD.Strip(e.action)
  }

  /** At that time the evidence was fresh and the plan prepared, in every one of the limits. */
  ghost predicate Timely(p: Prepared, t: int) {
    p.observedAt <= t <= p.evidenceExpires && t - p.observedAt <= p.maxAge && p.validatedAt <= p.preparedAt <= t
  }

  /**
   From the Commander's approval to the call, everything names the same effect: the
   approval, the consumption, the request that was carried out and the decision it was
   carried out on; and when the policy was asked the evidence was fresh.
   */
  lemma ApprovedCallNamesOneEffect(h: string -> string, steps: seq<Step>, i: nat)
    requires Runs(h, Init(), steps) && ApprovedCall(After(h, Init(), steps), i)
    ensures var s := After(h, Init(), steps);
            var x, t := s.approvedBy[s.journal.log[i].c].context, s.approvedBy[s.journal.log[i].c].askedAt;
            var e, u := x.prepared.effect, x.consumption;
            && RequestNames(s.journal.log[i].request, e) && Timely(x.prepared, t)
            && u.Consumption? && Recorded(h, s.activations, u)
            && u.incidentId == e.incidentId && u.componentId == e.componentId && u.executionId == e.executionId
            && exists g: L.Entry :: Recorded(h, s.approvals, g) && GrantNames(g, e)
                 && g.approvalId == u.approvalId && g.activationId == u.activationId
                 && g.issuedAt <= u.consumedAt <= t < g.expiresAt
  {
    hide Inv, Enabled, Do, Recorded, ActivationFields, F.Digest, F.EffectFields, F.TargetFingerprint, JD.Strip,
         BoundPolicy.EvaluateProduction, RequestNames;
    InitHolds(h);
    RunsKeep(h, Init(), steps);
    var s := After(h, Init(), steps);
    Parts(h, s);
    CallKeepsRequest(s.journal, i);
    hide EffectInvariant.Inv, P.Inv, After, Runs;
    assert ApprovedOk(h, s, s.journal.log[i].c);
    var x := s.approvedBy[s.journal.log[i].c].context;
    CallsForIt(h, s, s.journal.log[i].c);
    assert Recorded(h, s.approvals, Issued(h, x)) && GrantNames(Issued(h, x), x.prepared.effect);
  }

  lemma CallsForIt(h: string -> string, s: Chain, c: nat)
    requires c in s.approvedBy && ApprovedOk(h, s, c)
    ensures RequestNames(s.journal.callers[c].request, s.approvedBy[c].context.prepared.effect)
  {
    hide Recorded, Speaks, F.Digest, F.EffectFields, F.TargetFingerprint, JD.Strip, BoundPolicy.EvaluateProduction;
  }

  lemma CallKeepsRequest(s: E.State, i: nat)
    requires EffectInvariant.Inv(s) && i < |s.log| && s.log[i].Called?
    ensures s.log[i].c in s.callers && s.callers[s.log[i].c].request == s.log[i].request
  {
    hide EffectInvariant.RecordsOk, EffectInvariant.SweepsOk, EffectInvariant.CallersOk, EffectInvariant.VerdictsFinal;
    assert EffectInvariant.CallOk(s, i);
  }
}
