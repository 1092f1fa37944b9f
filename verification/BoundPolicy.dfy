/**
 The policy on bound effects. It answers on exact effects only, and on production
 targets a Commander context can lift one restriction but never a denial.
 */
module BoundPolicy {
  import opened JournalDisk
  import F = Fingerprints

  /** What one policy object holds: the allowed actions, and one effect per run. */
  datatype Policy = Policy(allowed: set<string>, bound: map<string, F.BoundEffect>)

  datatype Verdict = Verdict(allow: bool, reason: string)

  /** What the target policy reports; SystemdProductionTargetPolicy is not part of this model. */
  datatype Assessment = Assessment(
    autonomousEligible: bool, commanderRequired: bool, targetKnown: bool, protectedTarget: bool,
    cooldownSatisfied: bool, retryBudgetAvailable: bool, blastRadiusAvailable: bool, hasVerification: bool, reason: string)

  function RunOf(e: F.BoundEffect): string {
    Strip(F.RunOf(e))
  }

  function EvaluateBound(p: Policy, e: F.BoundEffect): Verdict {
    if e.action !in p.allowed then Verdict(false, "canonical_policy_denied")
    else if !F.LiveEligible(e) then Verdict(false, "target_identity_not_live_eligible")
    else if RunOf(e) !in p.bound then Verdict(false, "bound_run_not_configured")
    else if p.bound[RunOf(e)] != e then Verdict(false, "bound_effect_mismatch")
    else Verdict(true, "exact_bound_effect_authorized")
  }

  /** Every restriction but autonomy is met, and the context speaks for the effect. */
  predicate CommanderLifts(s: Assessment, contextSpeaks: bool) {
    && s.commanderRequired && s.targetKnown && !s.protectedTarget && s.cooldownSatisfied
    && s.retryBudgetAvailable && s.blastRadiusAvailable && s.hasVerification && contextSpeaks
  }

  function EvaluateProduction(p: Policy, e: F.BoundEffect, s: Assessment, contextSpeaks: bool): Verdict {
    var base := EvaluateBound(p, e);
    if !base.allow || s.autonomousEligible || CommanderLifts(s, contextSpeaks) then base
    else Verdict(false, "production_target_safety_denied:" + s.reason)
  }

  /** The exact effect that is configured for its run, and, where the target is not eligible by itself, every other restriction met. */
  lemma ProductionAllows(p: Policy, e: F.BoundEffect, s: Assessment, contextSpeaks: bool)
    ensures EvaluateProduction(p, e, s, contextSpeaks).allow <==>
      && e.action in p.allowed && (e.Tmux? ==> e.target.serverGeneration.Some?)
      && Strip(F.RunOf(e)) in p.bound && p.bound[Strip(F.RunOf(e))] == e
      && (|| s.autonomousEligible
          || (s.commanderRequired && s.targetKnown && !s.protectedTarget && s.cooldownSatisfied && s.retryBudgetAvailable
              && s.blastRadiusAvailable && s.hasVerification && contextSpeaks))
    ensures EvaluateProduction(p, e, s, contextSpeaks).reason ==
      if e.action !in p.allowed then "canonical_policy_denied"
      else if e.Tmux? && e.target.serverGeneration.None? then "target_identity_not_live_eligible"
      else if Strip(F.RunOf(e)) !in p.bound then "bound_run_not_configured"
      else if p.bound[Strip(F.RunOf(e))] != e then "bound_effect_mismatch"
      else if EvaluateProduction(p, e, s, contextSpeaks).allow then "exact_bound_effect_authorized"
      else "production_target_safety_denied:" + s.reason
  {}

  /** The request that the permit adapter builds from an effect and the policy's answer on it. */
  function RequestOf(h: string -> string, e: F.BoundEffect, v: Verdict): Request {
    var a := F.Mint(h, e, v.allow, v.reason);
    Bound(F.View(h, e), a, Decision(a.allow, a.componentId, a.action))
  }
}
