/**
 The temporary activation of one remediation: a lease changes four shared containers
 of a policy and a catalog in place and has to put all of them back, contents and
 object identities, after every exception that `activate` handles. These are the
 subclasses of Exception; an interrupt of another kind skips the rollback.
 */
module ActivationLease {
  import opened Values
  import JD = JournalDisk
  import F = Fingerprints
  import B = BoundPolicy

  type Effect = F.BoundEffect

  /** The key of an effect among the configured ones. */
  function RunKey(e: Effect): string {
    B.RunOf(e)
  }

  /** A mutable set of action names. */
  class ActionSet {
    var elements: set<string>

    constructor (elements: set<string>)
      ensures this.elements == elements
    {
      this.elements := elements;
    }
  }

  predicate HasKey<V>(items: seq<(string, V)>, key: string) {
    exists i :: 0 <= i < |items| && items[i].0 == key
  }

  function IndexOf<V>(items: seq<(string, V)>, key: string): (i: nat)
    requires HasKey(items, key)
    ensures i < |items| && items[i].0 == key && forall j :: 0 <= j < i ==> items[j].0 != key
  {
    if items[0].0 == key then 0 else
      assert HasKey(items[1..], key) by {
        var i :| 0 <= i < |items| && items[i].0 == key;
        assert items[1..][i - 1].0 == key;
      }
      1 + IndexOf(items[1..], key)
  }

  /** A mutable dictionary; iteration follows the order of insertion. */
  class Table<V> {
    var items: seq<(string, V)>

    constructor ()
      ensures items == []
    {
      items := [];
    }

    /** Stores under a key that is not there yet: at the end. */
    method Append(key: string, value: V)
      modifies this
      ensures items == old(items) + [(key, value)]
    {
      items := items + [(key, value)];
    }

    method ReplaceAll(all: seq<(string, V)>)
      modifies this
      ensures items == all
    {
      items := [];
      items := all;
    }
  }

  datatype ActionEntry = ActionEntry(action: string, command: string, rationale: string)

  datatype Failure =
    | AlreadyActive | AlreadyHeld | NotFree | ActionNotAllowed | BoundToOther | EmptyEntry | ActionTaken | TriggerTaken
    | Injected | Interrupted

  // ------------------------------------------------------------------- policy

  class Policy {
    var allowed: ActionSet
    var bound: Table?<Effect>   // null while the attribute does not exist

    constructor (allowed: ActionSet)
      ensures this.allowed == allowed && bound == null
    {
      this.allowed := allowed;
      bound := null;
    }

    /** `configure_bound_effect` on a run that has no effect yet, or the same one. */
    method ConfigureBoundEffect(effect: Effect) returns (error: Option<Failure>)
      modifies this`bound, bound
      ensures effect.action !in allowed.elements ==> error == Some(ActionNotAllowed) && bound == old(bound)
      ensures error == Some(ActionNotAllowed) ==> effect.action !in allowed.elements
      ensures effect.action in allowed.elements ==> bound != null && (if old(bound) == null then fresh(bound) else bound == old(bound))
      ensures old(bound) != null && error == Some(ActionNotAllowed) ==> old(bound).items == old(bound.items)
      ensures effect.action in allowed.elements && old(bound) != null && HasKey(old(bound.items), RunKey(effect)) ==>
        && bound.items == old(bound.items)
        && error == if bound.items[IndexOf(bound.items, RunKey(effect))].1 == effect then None else Some(BoundToOther)
      ensures effect.action in allowed.elements && (old(bound) == null || !HasKey(old(bound.items), RunKey(effect))) ==>
        error.None? && bound.items == (if old(bound) == null then [] else old(bound.items)) + [(RunKey(effect), effect)]
    {
      if effect.action !in allowed.elements {
        return Some(ActionNotAllowed);
      }
      if bound == null {
        bound := new Table();
      }
      var run := RunKey(effect);
      if HasKey(bound.items, run) {
        if bound.items[IndexOf(bound.items, run)].1 != effect {
          return Some(BoundToOther);
        }
        return None;
      }
      bound.Append(run, effect);
      return None;
    }

    /** What the policy holds, as a value: a dictionary lookup finds the entry of the key. */
    function Configured(): B.Policy
      reads this, allowed, bound
    {
      B.Policy(allowed.elements, if bound == null then map[] else AsMap(bound.items))
    }

    /** `evaluate_bound`: the configured effect of the run, exactly. */
    method EvaluateBound(effect: Effect) returns (v: B.Verdict)
      ensures v == B.EvaluateBound(Configured(), effect)
      ensures v.allow <==>
        && effect.action in allowed.elements && (effect.Tmux? ==> effect.target.serverGeneration.Some?)
        && bound != null && HasKey(bound.items, RunKey(effect)) && bound.items[IndexOf(bound.items, RunKey(effect))].1 == effect
    {
      AsMapFinds(if bound == null then [] else bound.items, RunKey(effect));
      if effect.action !in allowed.elements {
        return B.Verdict(false, "canonical_policy_denied");
      }
      if !F.LiveEligible(effect) {
        return B.Verdict(false, "target_identity_not_live_eligible");
      }
      if bound == null || !HasKey(bound.items, RunKey(effect)) {
        return B.Verdict(false, "bound_run_not_configured");
      }
      if bound.items[IndexOf(bound.items, RunKey(effect))].1 != effect {
        return B.Verdict(false, "bound_effect_mismatch");
      }
      return B.Verdict(true, "exact_bound_effect_authorized");
    }
  }

  function AsMap<V>(items: seq<(string, V)>): map<string, V> {
    map key | key in (set i | 0 <= i < |items| :: items[i].0) ::
      if HasKey(items, key) then items[IndexOf(items, key)].1 else items[0].1
  }

  lemma AsMapFinds<V>(items: seq<(string, V)>, key: string)
    ensures key in AsMap(items) <==> HasKey(items, key)
    ensures HasKey(items, key) ==> AsMap(items)[key] == items[IndexOf(items, key)].1
  {}

  /**
   After an effect was configured, it is allowed if its target may be acted on at all,
   and no other effect of the same run is.
   */
  method ConfigureAndAsk(policy: Policy, effect: Effect, other: Effect)
    returns (error: Option<Failure>, verdict: B.Verdict, elsewhere: B.Verdict)
    modifies policy`bound, policy.bound
    ensures error.None? ==> (verdict.allow <==> effect.Tmux? ==> effect.target.serverGeneration.Some?)
    ensures error.None? && RunKey(other) == RunKey(effect) && other != effect ==> !elsewhere.allow
    ensures error.None? ==> effect.action in policy.allowed.elements
  {
    hide JD.Strip;
    error := policy.ConfigureBoundEffect(effect);
    verdict := policy.EvaluateBound(effect);
    elsewhere := policy.EvaluateBound(other);
    if error.None? && (old(policy.bound) == null || !HasKey(old(policy.bound.items), RunKey(effect))) {
      AppendFinds(if old(policy.bound) == null then [] else old(policy.bound.items), RunKey(effect), effect);
    }
  }

  lemma AppendFinds<V>(items: seq<(string, V)>, key: string, value: V)
    requires !HasKey(items, key)
    ensures HasKey(items + [(key, value)], key)
    ensures IndexOf(items + [(key, value)], key) == |items|
  {
    var more := items + [(key, value)];
    assert more[|items|].0 == key;
    assert forall j :: 0 <= j < |items| ==> more[j] == items[j];
  }

  // ------------------------------------------------------------------ catalog

  class Catalog {
    var entries: Table<ActionEntry>
    var triggers: Table<string>

    constructor (entries: Table<ActionEntry>, triggers: Table<string>)
      ensures this.entries == entries && this.triggers == triggers
    {
      this.entries := entries;
      this.triggers := triggers;
    }

    /**
     `register` puts the entry in before it looks at the trigger: it can fail half-way, or
     be left by an exception between the two (`fault`).
     */
    method Register(entry: ActionEntry, trigger: Option<string>, fault: bool) returns (error: Option<Failure>)
      modifies entries, triggers
      ensures error == Some(EmptyEntry) <==>
        entry.action == "" || entry.command == ""
        || (!HasKey(old(entries.items), entry.action) && !fault && trigger == Some(""))
      ensures error == Some(ActionTaken) <==>
        entry.action != "" && entry.command != "" && HasKey(old(entries.items), entry.action)
      ensures error == Some(TriggerTaken) <==>
        && entry.action != "" && entry.command != "" && !HasKey(old(entries.items), entry.action)
        && !fault && trigger.Some? && trigger.value != "" && HasKey(old(triggers.items), trigger.value)
      ensures error == Some(Injected) <==>
        fault && entry.action != "" && entry.command != "" && !HasKey(old(entries.items), entry.action)
      ensures error.Some? ==> error.value in {EmptyEntry, ActionTaken, TriggerTaken, Injected}
      ensures entries.items ==
        if entry.action == "" || entry.command == "" || HasKey(old(entries.items), entry.action) then old(entries.items)
        else old(entries.items) + [(entry.action, entry)]
      ensures triggers.items ==
        if error.Some? || trigger.None? then old(triggers.items)
        else old(triggers.items) + [(trigger.value, entry.action)]
    {
      if entry.action == "" || entry.command == "" {
        return Some(EmptyEntry);
      }
      if HasKey(entries.items, entry.action) {
        return Some(ActionTaken);
      }
      entries.Append(entry.action, entry);
      if fault {
        return Some(Injected);
      }
      if trigger.Some? {
        if trigger.value == "" {
          return Some(EmptyEntry);
        }
        if HasKey(triggers.items, trigger.value) {
          return Some(TriggerTaken);
        }
        triggers.Append(trigger.value, entry.action);
      }
      return None;
    }
  }

  // -------------------------------------------------------------- what is seen

  /** The four containers: which objects they are, and what they hold. */
  datatype View = View(
    allowed: ActionSet, elements: set<string>,
    bound: Table?<Effect>, runs: seq<(string, Effect)>,
    entries: Table<ActionEntry>, actions: seq<(string, ActionEntry)>,
    triggers: Table<string>, mapping: seq<(string, string)>)

  function ViewOf(policy: Policy, catalog: Catalog): View
    reads policy, policy.allowed, policy.bound, catalog, catalog.entries, catalog.triggers
  {
    View(policy.allowed, policy.allowed.elements,
         policy.bound, if policy.bound == null then [] else policy.bound.items,
         catalog.entries, catalog.entries.items,
         catalog.triggers, catalog.triggers.items)
  }

  /** The process-wide set of policy/catalog pairs under lease; `holder` is history. */
  class Registry {
    var pairs: set<(Policy, Catalog)>
    ghost var holder: map<(Policy, Catalog), Lease>

    constructor ()
      ensures pairs == {} && holder == map[]
    {
      pairs, holder := {}, map[];
    }
  }

  datatype Snapshot = Snapshot(
    allowed: set<string>, boundExisted: bool, runs: seq<(string, Effect)>,
    actions: seq<(string, ActionEntry)>, mapping: seq<(string, string)>)

  // -------------------------------------------------------------------- lease

  class Lease {
    const registry: Registry
    const policy: Policy
    const catalog: Catalog
    const effect: Effect
    const entry: ActionEntry
    const trigger: Option<string>

    var active: bool
    var claimed: bool
    var snapshot: Option<Snapshot>
    var allowedRef: ActionSet?
    var boundRef: Table?<Effect>
    var entriesRef: Table?<ActionEntry>
    var triggersRef: Table?<string>

    ghost predicate Valid()
      reads this, registry
    {
      && registry.holder.Keys == registry.pairs
      && (claimed <==> (policy, catalog) in registry.pairs && registry.holder[(policy, catalog)] == this)
      && (active ==> claimed)
      && (active ==> snapshot.Some?)
      && (snapshot.Some? ==> Captured())
    }

    ghost predicate Captured()
      reads this
    {
      && snapshot.Some? && allowedRef != null && entriesRef != null && triggersRef != null
      && (snapshot.value.boundExisted <==> boundRef != null)
      && (boundRef == null ==> snapshot.value.runs == [])
    }

    /** What the lease will put back. */
    ghost function Saved(): View
      reads this
      requires Captured()
    {
      View(allowedRef, snapshot.value.allowed, boundRef, snapshot.value.runs,
           entriesRef, snapshot.value.actions, triggersRef, snapshot.value.mapping)
    }

    constructor (registry: Registry, policy: Policy, catalog: Catalog, effect: Effect, entry: ActionEntry, trigger: Option<string>)
      requires registry.holder.Keys == registry.pairs
      ensures Valid() && !active && snapshot.None?
      ensures this.registry == registry && this.policy == policy && this.catalog == catalog
      ensures this.effect == effect && this.entry == entry && this.trigger == trigger
    {
      this.registry, this.policy, this.catalog := registry, policy, catalog;
      this.effect, this.entry, this.trigger := effect, entry, trigger;
      active, claimed, snapshot := false, false, None;
      allowedRef, boundRef, entriesRef, triggersRef := null, null, null, null;
    }

    /** The effect's action, run, entry and trigger are all still unused. */
    predicate Free(s: Snapshot) {
      && effect.action !in s.allowed
      && !HasKey(s.actions, entry.action)
      && !HasKey(s.runs, RunKey(effect))
      && (trigger.Some? ==> !HasKey(s.mapping, trigger.value))
    }

    method Capture()
      modifies this`snapshot, this`allowedRef, this`boundRef, this`entriesRef, this`triggersRef
      ensures Captured() && Saved() == ViewOf(policy, catalog)
      ensures unchanged(policy) && unchanged(catalog)
    {
      allowedRef, boundRef := policy.allowed, policy.bound;
      entriesRef, triggersRef := catalog.entries, catalog.triggers;
      snapshot := Some(Snapshot(
        policy.allowed.elements, policy.bound != null, if policy.bound == null then [] else policy.bound.items,
        catalog.entries.items, catalog.triggers.items));
    }

    /** Puts the saved objects back in their places and the saved contents into the objects. */
    method Restore()
      requires Captured()
      modifies policy, catalog, allowedRef, boundRef, entriesRef, triggersRef
      ensures ViewOf(policy, catalog) == Saved()
    {
      policy.allowed := allowedRef;
      allowedRef.elements := {};
      allowedRef.elements := snapshot.value.allowed;
      catalog.entries := entriesRef;
      entriesRef.ReplaceAll(snapshot.value.actions);
      catalog.triggers := triggersRef;
      triggersRef.ReplaceAll(snapshot.value.mapping);
      if snapshot.value.boundExisted {
        policy.bound := boundRef;
        boundRef.ReplaceAll(snapshot.value.runs);
      } else {
        policy.bound := null;
      }
    }

    /**
     The protected part of `activate`. `fault` stands for an exception or interrupt out of
     any of the calls it makes: 0 before the first change, 3 inside `register`, between its two
     insertions, 4 after the last, more for none.
     */
    method Apply(fault: nat) returns (error: Option<Failure>)
      requires entry.action == effect.action && (trigger.Some? ==> JD.Strip(trigger.value) != "")
      modifies this`snapshot, this`allowedRef, this`boundRef, this`entriesRef, this`triggersRef
      modifies policy`bound, policy.allowed, policy.bound, catalog.entries, catalog.triggers
      ensures Captured() && Saved() == old(ViewOf(policy, catalog))
      ensures error.None? <==> fault > 4 && FreeIn(old(ViewOf(policy, catalog))) && entry.action != "" && entry.command != ""
      ensures error == Some(Injected) <==>
        fault <= 4 && (fault >= 1 ==> FreeIn(old(ViewOf(policy, catalog)))) && (fault >= 3 ==> entry.action != "" && entry.command != "")
      ensures error == Some(Injected) ==>
        && policy.allowed.elements == old(policy.allowed.elements) + (if fault >= 1 then {effect.action} else {})
        && (fault == 0 ==> ViewOf(policy, catalog) == old(ViewOf(policy, catalog)))
        && (old(policy.bound) != null ==> policy.bound == old(policy.bound))
        && (policy.bound == old(policy.bound) || fresh(policy.bound))
      ensures error.Some? ==> error.value != Interrupted
      ensures error.None? ==> Applied(old(ViewOf(policy, catalog)), ViewOf(policy, catalog))
      ensures error.None? && old(policy.bound) == null ==> fresh(policy.bound)
    {
      Capture();
      if fault == 0 { return Some(Injected); }
      if !Free(snapshot.value) { return Some(NotFree); }
      policy.allowed.elements := policy.allowed.elements + {effect.action};
      if fault == 1 { return Some(Injected); }
      error := policy.ConfigureBoundEffect(effect);
      if error.Some? { return; }
      if fault == 2 { return Some(Injected); }
      error := catalog.Register(entry, trigger, fault == 3);
      if trigger.Some? { StrippedIsNotEmpty(trigger.value); }
      if error.Some? { return; }
      if fault == 4 { return Some(Injected); }
      // the four checks that follow in the source hold by now
      assert effect.action in policy.allowed.elements;
      assert policy.bound.items[|policy.bound.items| - 1].0 == RunKey(effect);
      assert catalog.entries.items[|catalog.entries.items| - 1] == (entry.action, entry);
      assert trigger.Some? ==> catalog.triggers.items[|catalog.triggers.items| - 1] == (trigger.value, entry.action);
    }

    /** Exactly one action, one run, one entry and at most one trigger came in; the rest is as it was. */
    predicate Applied(before: View, now: View) {
      && now.allowed == before.allowed && now.entries == before.entries && now.triggers == before.triggers
      && (before.bound != null ==> now.bound == before.bound) && now.bound != null
      && now.elements == before.elements + {effect.action}
      && now.runs == before.runs + [(RunKey(effect), effect)]
      && now.actions == before.actions + [(entry.action, entry)]
      && now.mapping == before.mapping + if trigger.Some? then [(trigger.value, entry.action)] else []
    }

    /** `activate`; `interrupts` says that the fault is an interrupt, which nothing handles. */
    method Activate(fault: nat, interrupts: bool) returns (error: Option<Failure>)
      requires Valid() && entry.action == effect.action && (trigger.Some? ==> JD.Strip(trigger.value) != "")
      modifies this, registry, policy, catalog, policy.allowed, policy.bound, catalog.entries, catalog.triggers
      ensures Valid()
      ensures error.None? <==>
        && !old(active) && (policy, catalog) !in old(registry.pairs)
        && fault > 4 && entry.action != "" && entry.command != "" && FreeIn(old(ViewOf(policy, catalog)))
      ensures error.None? ==>
        && active && Captured() && Saved() == old(ViewOf(policy, catalog))
        && Applied(old(ViewOf(policy, catalog)), ViewOf(policy, catalog))
        && registry.holder == old(registry.holder)[(policy, catalog) := this]
        && (old(policy.bound) == null ==> fresh(policy.bound))
      ensures error.Some? && error.value != Interrupted ==>
        && ViewOf(policy, catalog) == old(ViewOf(policy, catalog))
        && registry.holder == old(registry.holder) && active == old(active) && claimed == old(claimed)
      // an interrupt leaves the changes made so far, and the pair claimed by a lease that is not active
      ensures error == Some(Interrupted) <==>
        && !old(active) && (policy, catalog) !in old(registry.pairs) && interrupts && fault <= 4
        && (fault >= 1 ==> FreeIn(old(ViewOf(policy, catalog)))) && (fault >= 3 ==> entry.action != "" && entry.command != "")
      ensures error == Some(Interrupted) ==>
        && !active && claimed && registry.holder == old(registry.holder)[(policy, catalog) := this]
        && policy.allowed == old(policy.allowed) && catalog.entries == old(catalog.entries)
        && catalog.triggers == old(catalog.triggers) && (policy.bound == old(policy.bound) || fresh(policy.bound))
        && policy.allowed.elements == old(policy.allowed.elements) + (if fault >= 1 then {effect.action} else {})
      // a lease that fails after claiming its pair keeps its snapshot
      ensures !old(active) && (policy, catalog) !in old(registry.pairs) ==>
        Captured() && Saved() == old(ViewOf(policy, catalog))
      ensures error.Some? && (old(active) || (policy, catalog) in old(registry.pairs)) ==>
        unchanged(this) && error == Some(if old(active) then AlreadyActive else AlreadyHeld)
    {
      hide HasKey, RunKey, JD.Strip, Applied, Free, FreeIn;
      if active {
        return Some(AlreadyActive);
      }
      var ok := Claim();
      if !ok {
        return Some(AlreadyHeld);
      }
      error := Proceed(fault, interrupts);
    }

    /** The rest of `activate`, with the pair claimed. */
    method Proceed(fault: nat, interrupts: bool) returns (error: Option<Failure>)
      requires claimed && !active && registry.holder.Keys == registry.pairs && (policy, catalog) in registry.pairs
      requires entry.action == effect.action && (trigger.Some? ==> JD.Strip(trigger.value) != "")
      modifies this, registry, policy, catalog, policy.allowed, policy.bound, catalog.entries, catalog.triggers
      ensures Captured() && Saved() == old(ViewOf(policy, catalog)) && registry.holder.Keys == registry.pairs
      ensures error.None? <==>
        fault > 4 && entry.action != "" && entry.command != "" && FreeIn(old(ViewOf(policy, catalog)))
      ensures error == Some(Interrupted) <==>
        && interrupts && fault <= 4
        && (fault >= 1 ==> FreeIn(old(ViewOf(policy, catalog)))) && (fault >= 3 ==> entry.action != "" && entry.command != "")
      ensures active == error.None? && claimed == (error.None? || error.value == Interrupted)
      ensures registry.holder == if claimed then old(registry.holder) else old(registry.holder) - {(policy, catalog)}
      ensures error.None? ==> Applied(old(ViewOf(policy, catalog)), ViewOf(policy, catalog))
      ensures error.None? && old(policy.bound) == null ==> fresh(policy.bound)
      ensures error == Some(Interrupted) ==>
        && policy.allowed == old(policy.allowed) && catalog.entries == old(catalog.entries)
        && catalog.triggers == old(catalog.triggers) && (policy.bound == old(policy.bound) || fresh(policy.bound))
        && policy.allowed.elements == old(policy.allowed.elements) + (if fault >= 1 then {effect.action} else {})
      ensures !claimed ==> ViewOf(policy, catalog) == old(ViewOf(policy, catalog))
    {
      hide HasKey, RunKey, JD.Strip, Applied, Free, FreeIn;
      error := Apply(fault);
      if error.None? {
        active := true;
      } else if interrupts && error == Some(Injected) {
        error := Some(Interrupted);
      } else {
        RollBack();
      }
    }

    method Claim() returns (ok: bool)
      requires Valid()
      modifies registry, this`claimed
      ensures ok <==> (policy, catalog) !in old(registry.pairs)
      ensures ok ==>
        && claimed && registry.pairs == registry.holder.Keys
        && registry.holder == old(registry.holder)[(policy, catalog) := this]
      ensures !ok ==> unchanged(registry) && claimed == old(claimed)
    {
      if (policy, catalog) in registry.pairs {
        return false;
      }
      registry.pairs := registry.pairs + {(policy, catalog)};
      registry.holder := registry.holder[(policy, catalog) := this];
      claimed := true;
      return true;
    }

    /** What `activate` does about an exception. */
    method RollBack()
      requires Captured() && claimed && (policy, catalog) in registry.pairs && registry.holder.Keys == registry.pairs
      modifies registry, this`active, this`claimed, policy, catalog, allowedRef, boundRef, entriesRef, triggersRef
      ensures ViewOf(policy, catalog) == old(Saved()) && Captured() && Saved() == old(Saved()) && !active && !claimed
      ensures registry.holder == old(registry.holder) - {(policy, catalog)} && registry.holder.Keys == registry.pairs
    {
      Restore();
      active := false;
      Release();
    }

    predicate FreeIn(v: View) {
      && effect.action !in v.elements && !HasKey(v.actions, entry.action) && !HasKey(v.runs, RunKey(effect))
      && (trigger.Some? ==> !HasKey(v.mapping, trigger.value))
    }

    method Release()
      modifies registry, this`claimed
      requires registry.holder.Keys == registry.pairs
      requires claimed ==> (policy, catalog) in registry.pairs
      ensures !claimed
      ensures registry.pairs == old(registry.pairs) - (if old(claimed) then {(policy, catalog)} else {})
      ensures registry.holder == old(registry.holder) - (if old(claimed) then {(policy, catalog)} else {})
    {
      if claimed {
        registry.pairs := registry.pairs - {(policy, catalog)};
        registry.holder := registry.holder - {(policy, catalog)};
        claimed := false;
      }
    }

    /** `close`: puts back what the snapshot says, if there is one, whoever holds the pair by now. */
    method Close() returns (closed: bool)
      requires Valid()
      modifies this, registry, policy, catalog
      modifies if snapshot.Some? then {allowedRef, boundRef, entriesRef, triggersRef} else {}
      ensures Valid() && !active && snapshot.None?
      ensures closed == old(snapshot).Some?
      ensures unchanged(`allowedRef) && unchanged(`boundRef) && unchanged(`entriesRef) && unchanged(`triggersRef)
      ensures old(snapshot).Some? ==> ViewOf(policy, catalog) == old(Saved())
      ensures old(snapshot).None? ==> unchanged(policy) && unchanged(catalog)
      ensures registry.holder == old(registry.holder) - (if old(claimed) then {(policy, catalog)} else {})
      ensures !claimed
    {
      if !active && snapshot.None? {
        Release();
        return false;
      }
      Restore();
      active := false;
      snapshot := None;
      Release();
      return true;
    }
  }

  lemma StrippedIsNotEmpty(s: string)
    requires JD.Strip(s) != ""
    ensures s != ""
  {}
}
