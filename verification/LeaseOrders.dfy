/**
 Leases that are not nested: any order of activating and closing, by any number of
 leases, and what closing in the wrong order or too late leaves behind.
 */
module LeaseOrders {
  import opened Values
  import JD = JournalDisk
  import opened ActivationLease
  import opened LeaseTheorems

  // ------------------------------------------------------------- any order at all

  ghost predicate AllValid(registry: Registry, leases: seq<Lease>)
    reads registry, leases
  {
    forall l :: l in leases ==> l.registry == registry && l.Valid()
  }

  /** No two of them are active on one pair. */
  ghost predicate Exclusive(leases: seq<Lease>)
    reads leases
  {
    forall l, m :: l in leases && m in leases && l.active && m.active && l.policy == m.policy && l.catalog == m.catalog ==>
      l == m
  }

  lemma ValidIsExclusive(registry: Registry, leases: seq<Lease>)
    requires AllValid(registry, leases)
    ensures Exclusive(leases)
  {
    forall l, m | l in leases && m in leases && l.active && m.active && l.policy == m.policy && l.catalog == m.catalog
      ensures l == m
    {
      assert l.Valid() && m.Valid();
    }
  }

  /** The objects that closing a lease writes to. */
  ghost function Targets(l: Lease): set<object?>
    reads l
  {
    {l.policy, l.catalog, l.allowedRef, l.boundRef, l.entriesRef, l.triggersRef}
  }

  ghost function PolicyPart(policy: Policy): set<object?>
    reads policy
  {
    {policy, policy.allowed, policy.bound}
  }

  ghost function CatalogPart(catalog: Catalog): set<object?>
    reads catalog
  {
    {catalog, catalog.entries, catalog.triggers}
  }

  method OpenOne(registry: Registry, leases: seq<Lease>, i: nat, fault: nat, interrupts: bool) returns (error: Option<Failure>)
    requires AllValid(registry, leases) && i < |leases| && WellFormed(leases[i])
    modifies leases[i], registry, PolicyPart(leases[i].policy), CatalogPart(leases[i].catalog)
    ensures AllValid(registry, leases)
    ensures var l := leases[i];
            && PolicyPart(l.policy) <= old(PolicyPart(l.policy)) + {l.policy.bound}
            && CatalogPart(l.catalog) == old(CatalogPart(l.catalog))
            && (l.policy.bound == old(l.policy.bound) || fresh(l.policy.bound))
            && Targets(l) <= old(Targets(l)) + old(PolicyPart(l.policy)) + old(CatalogPart(l.catalog))
  {
    hide HasKey, RunKey, JD.Strip;
    var l := leases[i];
    ghost var before, holder := registry.pairs, registry.holder;
    assert l in leases;
    error := l.Activate(fault, interrupts);
    forall m | m in leases ensures m.registry == registry && m.Valid() {}
  }

  method ShutOne(registry: Registry, leases: seq<Lease>, i: nat)
    requires AllValid(registry, leases) && i < |leases|
    modifies leases[i], registry, Targets(leases[i])
    ensures AllValid(registry, leases) && leases[i].snapshot.None?
    ensures var l := leases[i];
            && PolicyPart(l.policy) <= old(Targets(l)) + old(PolicyPart(l.policy)) + {null}
            && CatalogPart(l.catalog) <= old(Targets(l)) + old(CatalogPart(l.catalog))
            && Targets(l) <= old(Targets(l))
  {
    var l := leases[i];
    assert l in leases;
    var _ := l.Close();
    forall m | m in leases ensures m.registry == registry && m.Valid() {}
  }

  /**
   One thing a process does: activate a lease, close one, change what its four containers
   hold, put new containers in their places, or those of another lease.
   */
  datatype Use =
    | Open(i: nat, fault: nat, interrupts: bool)
    | Shut(i: nat)
    | Change(i: nat)
    | Replace(i: nat, bound: bool)
    | Share(i: nat, j: nat)

  /** Everything the leases may touch lies in the cover, and nothing of the leases themselves. */
  ghost predicate Within(cover: set<object?>, registry: Registry, leases: seq<Lease>)
    reads leases, set l | l in leases :: l.policy, set l | l in leases :: l.catalog
  {
    && registry !in cover && null in cover
    && forall l :: l in leases ==>
         l !in cover && PolicyPart(l.policy) <= cover && CatalogPart(l.catalog) <= cover && Targets(l) <= cover
  }

  /**
   Any sequence of activations, failing or interrupted anywhere, of closings, early, late or repeated,
   and of changes and replacements of the containers in between, by any number of leases of one process:
   after each of them every lease is valid, and no two are active on one pair.
   */
  method UseInAnyOrder(registry: Registry, leases: seq<Lease>, uses: seq<Use>, ghost all: set<object?>)
    requires AllValid(registry, leases) && Within(all, registry, leases)
    requires forall l :: l in leases ==> WellFormed(l)
    requires forall k :: 0 <= k < |uses| ==> uses[k].i < |leases| && (uses[k].Share? ==> uses[k].j < |leases|)
    modifies registry, leases, all
    ensures AllValid(registry, leases) && Exclusive(leases)
  {
    ghost var cover := all;
    for n := 0 to |uses|
      invariant AllValid(registry, leases) && Exclusive(leases)
      invariant Within(cover, registry, leases)
      invariant forall o :: o in cover && o !in all ==> fresh(o)
    {
      ghost var more := UseOne(registry, leases, uses[n], cover);
      cover := cover + more;
      ValidIsExclusive(registry, leases);
    }
  }

  method UseOne(registry: Registry, leases: seq<Lease>, use: Use, ghost cover: set<object?>) returns (ghost more: set<object?>)
    requires AllValid(registry, leases) && Within(cover, registry, leases)
    requires forall l :: l in leases ==> WellFormed(l)
    requires use.i < |leases| && (use.Share? ==> use.j < |leases|)
    modifies registry, leases, cover
    ensures AllValid(registry, leases) && Within(cover + more, registry, leases)
    ensures forall o :: o in more && o !in cover ==> fresh(o)
  {
    var l := leases[use.i];
    assert l in leases;
    more := {};
    assert cover + {} == cover;
    match use {
      case Open(i, fault, interrupts) =>
        OpenWithin(registry, leases, i, fault, interrupts, cover);
        more := {l.policy.bound};
      case Shut(i) =>
        ShutWithin(registry, leases, i, cover);
      case Change(i) =>
        modify l.policy.allowed, l.policy.bound, l.catalog.entries, l.catalog.triggers;
      case Replace(i, bound) =>
        more := ReplaceWithin(registry, leases, i, bound, cover);
      case Share(i, j) =>
        var m := leases[j];
        assert m in leases && PolicyPart(m.policy) <= cover && CatalogPart(m.catalog) <= cover;
        PlaceWithin(registry, leases, i, m.policy.allowed, m.policy.bound, m.catalog.entries, m.catalog.triggers, cover);
    }
  }

  /** Puts containers of the cover in the places of one lease's policy and catalog. */
  method PlaceWithin(registry: Registry, leases: seq<Lease>, i: nat, allowed: ActionSet, bound: Table?<Effect>,
                     entries: Table<ActionEntry>, triggers: Table<string>, ghost cover: set<object?>)
    requires AllValid(registry, leases) && Within(cover, registry, leases) && i < |leases|
    requires {allowed, bound, entries, triggers} <= cover
    modifies leases[i].policy, leases[i].catalog
    ensures AllValid(registry, leases) && Within(cover, registry, leases)
  {
    var l := leases[i];
    assert l in leases;
    l.policy.allowed, l.policy.bound := allowed, bound;
    l.catalog.entries, l.catalog.triggers := entries, triggers;
    forall m | m in leases
      ensures Targets(m) <= cover && m.Valid() && PolicyPart(m.policy) <= cover && CatalogPart(m.catalog) <= cover
    {
      assert Targets(m) == old(Targets(m));
      if m.policy != l.policy {
        assert PolicyPart(m.policy) == old(PolicyPart(m.policy));
      }
      if m.catalog != l.catalog {
        assert CatalogPart(m.catalog) == old(CatalogPart(m.catalog));
      }
    }
  }

  lemma Widen(cover: set<object?>, more: set<object?>, registry: Registry, leases: seq<Lease>)
    requires Within(cover, registry, leases) && registry !in more && forall l :: l in leases ==> l !in more
    ensures Within(cover + more, registry, leases)
  {}

  method ReplaceWithin(registry: Registry, leases: seq<Lease>, i: nat, bound: bool, ghost cover: set<object?>)
    returns (ghost more: set<object?>)
    requires AllValid(registry, leases) && Within(cover, registry, leases) && i < |leases|
    modifies leases[i].policy, leases[i].catalog
    ensures AllValid(registry, leases) && Within(cover + more, registry, leases)
    ensures forall o :: o in more ==> fresh(o)
  {
    var allowed := new ActionSet({});
    var runs := new Table<Effect>();
    var entries := new Table<ActionEntry>();
    var triggers := new Table<string>();
    more := {allowed, runs, entries, triggers};
    Widen(cover, more, registry, leases);
    hide Within;
    assert null in cover by { NullIsCovered(cover, registry, leases); }
    PlaceWithin(registry, leases, i, allowed, if bound then runs else null, entries, triggers, cover + more);
  }

  lemma NullIsCovered(cover: set<object?>, registry: Registry, leases: seq<Lease>)
    requires Within(cover, registry, leases)
    ensures null in cover
  {}

  method OpenWithin(registry: Registry, leases: seq<Lease>, i: nat, fault: nat, interrupts: bool, ghost cover: set<object?>)
    requires AllValid(registry, leases) && Within(cover, registry, leases) && i < |leases| && WellFormed(leases[i])
    modifies leases[i], registry, cover
    ensures AllValid(registry, leases) && Within(cover + {leases[i].policy.bound}, registry, leases)
    ensures leases[i].policy.bound in cover || fresh(leases[i].policy.bound)
  {
    var l := leases[i];
    assert l in leases;
    var _ := OpenOne(registry, leases, i, fault, interrupts);
    hide AllValid;
    forall m | m in leases
      ensures m !in cover && PolicyPart(m.policy) <= cover + {l.policy.bound} && CatalogPart(m.catalog) <= cover
      ensures Targets(m) <= cover
    {
      if m.policy != l.policy {
        assert PolicyPart(m.policy) == old(PolicyPart(m.policy));
      }
      if m.catalog != l.catalog {
        assert CatalogPart(m.catalog) == old(CatalogPart(m.catalog));
      }
      if m != l {
        assert Targets(m) == old(Targets(m));
      }
    }
  }

  method ShutWithin(registry: Registry, leases: seq<Lease>, i: nat, ghost cover: set<object?>)
    requires AllValid(registry, leases) && Within(cover, registry, leases) && i < |leases|
    modifies leases[i], registry, cover
    ensures AllValid(registry, leases) && Within(cover, registry, leases)
  {
    var l := leases[i];
    assert l in leases;
    ShutOne(registry, leases, i);
    hide AllValid;
    forall m | m in leases
      ensures m !in cover && PolicyPart(m.policy) <= cover && CatalogPart(m.catalog) <= cover && Targets(m) <= cover
    {
      if m.policy != l.policy {
        assert PolicyPart(m.policy) == old(PolicyPart(m.policy));
      }
      if m.catalog != l.catalog {
        assert CatalogPart(m.catalog) == old(CatalogPart(m.catalog));
      }
      if m != l {
        assert Targets(m) == old(Targets(m));
      }
    }
  }

  // -------------------------------------------------- closing in opening order

  predicate CanStart(l: Lease)
    reads l.policy, l.policy.allowed, l.policy.bound, l.catalog, l.catalog.entries, l.catalog.triggers
  {
    WellFormed(l) && l.entry.action != "" && l.entry.command != "" && l.FreeIn(ViewOf(l.policy, l.catalog))
  }

  /** Distinct policies and distinct catalogs have containers of their own. */
  ghost predicate OwnContainers(first: Lease, x: View, second: Lease, y: View) {
    && (first.policy != second.policy ==> x.allowed != y.allowed && (x.bound == null || x.bound != y.bound))
    && (first.catalog != second.catalog ==> x.entries != y.entries && x.triggers != y.triggers)
  }

  /** What the second needs, where they share something, to start after the first. */
  predicate Compatible(first: Lease, second: Lease) {
    && (first.policy == second.policy ==>
          first.effect.action != second.effect.action && RunKey(first.effect) != RunKey(second.effect))
    && (first.catalog == second.catalog ==>
          first.entry.action != second.entry.action
          && (first.trigger.Some? && second.trigger.Some? ==> first.trigger.value != second.trigger.value))
  }

  /** A view in which a missing dictionary holds nothing. */
  predicate Proper(v: View) {
    v.bound == null ==> v.runs == []
  }

  lemma ViewsAreProper(l: Lease)
    ensures Proper(ViewOf(l.policy, l.catalog))
  {}

  lemma AppendedKey<V>(items: seq<(string, V)>, key: string, value: V, other: string)
    requires !HasKey(items, other) && key != other
    ensures !HasKey(items + [(key, value)], other)
  {
    forall i | 0 <= i < |items| + 1 ensures (items + [(key, value)])[i].0 != other {
      assert i < |items| ==> (items + [(key, value)])[i] == items[i];
    }
  }

  /** How the second lease's pair looks once the first is active. */
  ghost predicate Seen(first: Lease, second: Lease, x: View, mid: View) {
    && mid.elements == x.elements + (if first.policy == second.policy then {first.effect.action} else {})
    && mid.runs == x.runs + (if first.policy == second.policy then [(RunKey(first.effect), first.effect)] else [])
    && mid.actions == x.actions + (if first.catalog == second.catalog then [(first.entry.action, first.entry)] else [])
    && mid.mapping == x.mapping
         + (if first.catalog == second.catalog && first.trigger.Some? then [(first.trigger.value, first.entry.action)] else [])
    && mid.allowed == x.allowed && mid.entries == x.entries && mid.triggers == x.triggers
    && (first.policy != second.policy ==> mid.bound == x.bound)
  }

  lemma SecondSees(first: Lease, b: View, v: View, second: Lease, x: View, mid: View)
    requires Agree(first, b, second, x) && Agree(first, v, second, mid) && Touched(first, b, second, x, mid)
    requires first.Applied(b, v) && OwnContainers(first, b, second, x) && Proper(x) && Proper(mid)
    ensures Seen(first, second, x, mid)
  {
    hide RunKey;
  }

  lemma SecondIsFree(first: Lease, second: Lease, x: View, mid: View)
    requires Seen(first, second, x, mid) && Compatible(first, second) && second.FreeIn(x)
    ensures second.FreeIn(mid)
  {
    hide RunKey, HasKey;
    assert x.runs + [] == x.runs && x.actions + [] == x.actions && x.mapping + [] == x.mapping;
    if first.policy == second.policy {
      AppendedKey(x.runs, RunKey(first.effect), first.effect, RunKey(second.effect));
    }
    if first.catalog == second.catalog {
      AppendedKey(x.actions, first.entry.action, first.entry, second.entry.action);
      if first.trigger.Some? && second.trigger.Some? {
        AppendedKey(x.mapping, first.trigger.value, first.entry.action, second.trigger.value);
      }
    }
  }

  /** Two new leases of one process on different pairs, both able to start. */
  ghost predicate Pair(first: Lease, second: Lease)
    reads first, second, first.registry, first.policy, first.catalog, second.policy, second.catalog
    reads first.policy.allowed, first.policy.bound, first.catalog.entries, first.catalog.triggers
    reads second.policy.allowed, second.policy.bound, second.catalog.entries, second.catalog.triggers
  {
    && first.registry == second.registry && first.registry.pairs == {}
    && Unused(first.registry, [first, second])
    && (first.policy != second.policy || first.catalog != second.catalog)
    && CanStart(first) && CanStart(second) && Compatible(first, second)
    && OwnContainers(first, ViewOf(first.policy, first.catalog), second, ViewOf(second.policy, second.catalog))
  }

  method OpenFirst(first: Lease, second: Lease, ghost b: View, ghost x: View)
    requires Pair(first, second) && b == ViewOf(first.policy, first.catalog) && x == ViewOf(second.policy, second.catalog)
    modifies first, first.registry, first.policy, first.catalog, first.policy.allowed, first.policy.bound,
             first.catalog.entries, first.catalog.triggers
    ensures first.Valid() && first.active && first.Captured() && first.Saved() == b
    ensures first.registry.pairs == {(first.policy, first.catalog)} && second.Valid() && !second.active
    ensures CanStart(second) && Seen(first, second, x, ViewOf(second.policy, second.catalog))
    ensures first.policy.bound == b.bound || fresh(first.policy.bound)
    ensures second.policy.bound == x.bound || fresh(second.policy.bound)
  {
    assert first in [first, second] && second in [first, second];
    ViewsAgree(first, second);
    ViewsAreProper(second);
    hide HasKey, RunKey, JD.Strip, Agree, OwnContainers;
    var error := Enter(first, 5, b, [second]);
    ViewsAgree(first, second);
    ViewsAreProper(second);
    assert second in [second];
    SecondSees(first, b, ViewOf(first.policy, first.catalog), second, x, ViewOf(second.policy, second.catalog));
    SecondIsFree(first, second, x, ViewOf(second.policy, second.catalog));
  }

  /** Both active, each with what it found saved. */
  method OpenBoth(first: Lease, second: Lease, ghost b: View, ghost x: View)
    requires Pair(first, second) && b == ViewOf(first.policy, first.catalog) && x == ViewOf(second.policy, second.catalog)
    modifies first, second, first.registry
    modifies PolicyPart(first.policy), CatalogPart(first.catalog), PolicyPart(second.policy), CatalogPart(second.catalog)
    ensures first.Valid() && first.active && first.Captured() && first.Saved() == b
    ensures second.Valid() && second.active && second.Captured() && Seen(first, second, x, second.Saved())
    ensures second.boundRef == null || second.boundRef == x.bound || fresh(second.boundRef)
  {
    assert first in [first, second] && second in [first, second];
    hide HasKey, RunKey, JD.Strip, OwnContainers, Seen, Compatible;
    OpenFirst(first, second, b, x);
    var error := second.Activate(5, false);
  }

  /** What the two closings put back; without anything in common neither disturbs the other. */
  method CloseBoth(first: Lease, second: Lease)
    requires first.Valid() && second.Valid() && first.active && second.active && first != second
    requires first.registry == second.registry && first.Captured() && second.Captured()
    modifies first, second, first.registry, Targets(first), Targets(second)
    ensures !first.active && !second.active
    ensures ViewOf(second.policy, second.catalog) == old(second.Saved())
    ensures old(Targets(first)) * old(Targets(second)) <= {null} ==> ViewOf(first.policy, first.catalog) == old(first.Saved())
  {
    ghost var apart := Targets(first) * Targets(second) <= {null};
    assert apart ==> forall o :: o in Targets(first) && o != null ==> o !in Targets(second) by {
      assert forall o :: o in Targets(first) && o in Targets(second) ==> o in Targets(first) * Targets(second);
    }
    assert {first.policy, first.catalog, first.allowedRef, first.boundRef, first.entriesRef, first.triggersRef} == Targets(first);
    var _ := first.Close();
    var _ := second.Close();
  }

  lemma NothingInCommon(first: Lease, second: Lease, b: View, x: View)
    requires first.Captured() && second.Captured() && first.Saved() == b
    requires first.policy != second.policy && first.catalog != second.catalog && OwnContainers(first, b, second, x)
    requires Seen(first, second, x, second.Saved())
    ensures Targets(first) * Targets(second) <= {null} && second.Saved() == x
  {
    hide RunKey;
    assert x.elements + {} == x.elements && x.runs + [] == x.runs && x.actions + [] == x.actions
        && x.mapping + [] == x.mapping;
  }

  lemma SomethingInCommon(first: Lease, second: Lease, b: View, x: View, saved: View)
    requires first.policy == second.policy || first.catalog == second.catalog
    requires Seen(first, second, x, saved) && Agree(first, b, second, x) && first.FreeIn(b)
    ensures saved != x
  {
    hide RunKey;
    if first.policy == second.policy {
      assert first.effect.action in saved.elements && first.effect.action !in x.elements;
    } else {
      assert |saved.actions| == |x.actions| + 1;
    }
  }

  /**
   Two leases opened in turn and closed in the order they were opened: both pairs are
   back as they were found if and only if the leases share neither policy nor catalog.
   */
  method FirstInFirstOut(first: Lease, second: Lease)
    requires Pair(first, second)
    modifies first, second, first.registry
    modifies PolicyPart(first.policy), CatalogPart(first.catalog), PolicyPart(second.policy), CatalogPart(second.catalog)
    ensures !first.active && !second.active
    ensures
      && ViewOf(first.policy, first.catalog) == old(ViewOf(first.policy, first.catalog))
      && ViewOf(second.policy, second.catalog) == old(ViewOf(second.policy, second.catalog))
      <==> first.policy != second.policy && first.catalog != second.catalog
    // what exactly stays behind
    ensures first.policy == second.policy ==> first.effect.action in first.policy.allowed.elements
    ensures first.catalog == second.catalog ==>
      first.catalog.entries.items == old(first.catalog.entries.items) + [(first.entry.action, first.entry)]
  {
    ghost var b, x := ViewOf(first.policy, first.catalog), ViewOf(second.policy, second.catalog);
    assert first in [first, second] && second in [first, second];
    ViewsAgree(first, second);
    hide HasKey, RunKey, JD.Strip;
    OpenBoth(first, second, b, x);
    if first.policy != second.policy && first.catalog != second.catalog {
      NothingInCommon(first, second, b, x);
    } else {
      SomethingInCommon(first, second, b, x, second.Saved());
    }
    CloseBoth(first, second);
  }

  // ----------------------------------------------------- closing beside another

  /**
   Another lease on the pair is closed while the holder is active. The holder's action
   stays allowed if and only if the other lease kept no snapshot, or one that has the
   action in it. If it has not, the activation in force is disturbed exactly when there
   is a snapshot at all.
   */
  method CloseBeside(holder: Lease, other: Lease)
    requires holder.Valid() && other.Valid() && holder != other && holder.registry == other.registry
    requires holder.policy == other.policy && holder.catalog == other.catalog && holder.active
    requires holder.effect.action in holder.policy.allowed.elements
    modifies other, other.registry, other.policy, other.catalog
    modifies if other.snapshot.Some? then Targets(other) else {}
    ensures holder.Valid() && holder.active && !other.active
    ensures holder.effect.action in holder.policy.allowed.elements <==>
      old(other.snapshot).None? || holder.effect.action in old(other.snapshot).value.allowed
    ensures old(other.snapshot).None? || holder.effect.action !in old(other.snapshot).value.allowed ==>
      (ViewOf(holder.policy, holder.catalog) == old(ViewOf(holder.policy, holder.catalog)) <==> old(other.snapshot).None?)
  {
    var _ := other.Close();
  }

  /**
   Perhaps an activation of `other` that fails, anywhere; then one of `holder` that
   works; then a close of `other`. The activation in force survives the close if and
   only if there was no failed attempt before it.
   */
  method LateClose(holder: Lease, other: Lease, tried: bool, fault: nat)
    requires holder != other && holder.registry == other.registry
    requires holder.policy == other.policy && holder.catalog == other.catalog
    requires Unused(holder.registry, [holder, other]) && (holder.policy, holder.catalog) !in holder.registry.pairs
    requires CanStart(holder) && (fault <= 4 || !CanStart(other))
    modifies holder, other, holder.registry, PolicyPart(holder.policy), CatalogPart(holder.catalog)
    ensures holder.Valid() && holder.active && !other.active
    ensures holder.effect.action in holder.policy.allowed.elements <==> !tried
  {
    assert holder in [holder, other] && other in [holder, other];
    hide HasKey, RunKey, JD.Strip;
    if tried {
      var failed := other.Activate(fault, false);
    }
    var started := holder.Activate(5, false);
    CloseBeside(holder, other);
  }

  // ---------------------------------------------------------------- interrupts

  /**
   An activation left by an interrupt: every later activation of the pair by another
   lease is refused and changes nothing, and what was changed stays changed, until the
   interrupted lease itself is closed. Then all of it is back and the pair is free.
   */
  method InterruptedUntilClosed(first: Lease, second: Lease, fault: nat, later: nat, interrupts: bool)
    returns (refused: Option<Failure>, ghost left: View)
    requires first != second && first.registry == second.registry
    requires first.policy == second.policy && first.catalog == second.catalog
    requires Unused(first.registry, [first, second]) && (first.policy, first.catalog) !in first.registry.pairs
    requires CanStart(first) && fault <= 4
    modifies first, second, first.registry, PolicyPart(first.policy), CatalogPart(first.catalog)
    ensures refused == Some(AlreadyHeld)
    ensures left.elements == old(first.policy.allowed.elements) + (if fault >= 1 then {first.effect.action} else {})
    ensures ViewOf(first.policy, first.catalog) == old(ViewOf(first.policy, first.catalog))
    ensures (first.policy, first.catalog) !in first.registry.pairs && !first.claimed && !second.claimed
  {
    assert first in [first, second] && second in [first, second];
    hide HasKey, RunKey, JD.Strip;
    var interrupted := first.Activate(fault, true);
    refused := second.Activate(later, interrupts);
    left := ViewOf(first.policy, first.catalog);
    var _ := first.Close();
  }
}
