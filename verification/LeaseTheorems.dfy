/** Using leases: what any number of nested ones leave behind. Module LeaseOrders has the other orders. */
module LeaseTheorems {
  import opened Values
  import JD = JournalDisk
  import opened ActivationLease

  ghost function Containers(policy: Policy, catalog: Catalog): set<object>
    reads policy, catalog
  {
    var always: set<object> := {policy, catalog, policy.allowed, catalog.entries, catalog.triggers};
    if policy.bound == null then always else always + {policy.bound}
  }

  /** The policies, the catalogs and their containers, and nothing of the leases themselves. */
  ghost predicate Covers(all: set<object>, registry: Registry, leases: seq<Lease>)
    reads set l | l in leases :: l.policy, set l | l in leases :: l.catalog
  {
    && (forall l :: l in leases ==> Containers(l.policy, l.catalog) <= all && l !in all)
    && registry !in all
  }

  predicate WellFormed(l: Lease) {
    l.entry.action == l.effect.action && (l.trigger.Some? ==> JD.Strip(l.trigger.value) != "")
  }

  /** New leases of one process: valid, distinct and not yet used. */
  ghost predicate Unused(registry: Registry, leases: seq<Lease>)
    reads registry, leases
  {
    && (forall l :: l in leases ==> l.registry == registry && l.Valid() && !l.claimed && l.snapshot.None? && WellFormed(l))
    && forall i, j :: 0 <= i < j < |leases| ==> leases[i] != leases[j]
  }

  // ------------------------------------------------------------------ framing

  /** y is x but for changes in the pair of l, whose view was b. */
  ghost predicate Touched(l: Lease, b: View, m: Lease, x: View, y: View) {
    && (m.policy != l.policy ==> y.allowed == x.allowed && y.bound == x.bound)
    && (m.catalog != l.catalog ==> y.entries == x.entries && y.triggers == x.triggers)
    && (y.allowed == x.allowed != b.allowed ==> y.elements == x.elements)
    && (y.bound == x.bound != b.bound ==> y.runs == x.runs)
    && (y.entries == x.entries != b.entries ==> y.actions == x.actions)
    && (y.triggers == x.triggers != b.triggers ==> y.mapping == x.mapping)
  }

  /** Two views in one state: the same object has the same contents, the same owner the same objects. */
  ghost predicate Agree(l: Lease, x: View, m: Lease, y: View) {
    && (l.policy == m.policy ==> x.allowed == y.allowed && x.bound == y.bound)
    && (l.catalog == m.catalog ==> x.entries == y.entries && x.triggers == y.triggers)
    && (x.allowed == y.allowed ==> x.elements == y.elements)
    && (x.bound == y.bound ==> x.runs == y.runs)
    && (x.entries == y.entries ==> x.actions == y.actions)
    && (x.triggers == y.triggers ==> x.mapping == y.mapping)
  }

  lemma ViewsAgree(l: Lease, m: Lease)
    ensures Agree(l, ViewOf(l.policy, l.catalog), m, ViewOf(m.policy, m.catalog))
  {}

  /** l changed its pair, everybody else put things back, l put its pair back: m sees no difference. */
  lemma BackAgain(l: Lease, b: View, m: Lease, x: View, mid: View, c: View, y: View)
    requires Agree(l, b, m, x) && Touched(l, b, m, x, mid) && Touched(l, b, m, mid, y) && Agree(l, c, m, y) && c == b
    ensures y == x
  {}

  method Enter(l: Lease, fault: nat, ghost b: View, ghost leases: seq<Lease>) returns (error: Option<Failure>)
    requires l.Valid() && WellFormed(l) && b == ViewOf(l.policy, l.catalog)
    modifies l, l.registry, l.policy, l.catalog, l.policy.allowed, l.policy.bound, l.catalog.entries, l.catalog.triggers
    ensures forall m :: m in leases ==> Touched(l, b, m, old(ViewOf(m.policy, m.catalog)), ViewOf(m.policy, m.catalog))
    ensures l.Valid() && (error.Some? ==> !old(l.active) ==> !l.active && l.claimed == old(l.claimed))
    ensures error.None? <==>
      && !old(l.active) && (l.policy, l.catalog) !in old(l.registry.pairs)
      && fault > 4 && l.entry.action != "" && l.entry.command != "" && l.FreeIn(b)
    ensures error.Some? ==> ViewOf(l.policy, l.catalog) == b && l.registry.holder == old(l.registry.holder)
    ensures error.Some? ==> forall m :: m in leases ==> ViewOf(m.policy, m.catalog) == old(ViewOf(m.policy, m.catalog))
    ensures error.None? ==>
      && l.active && l.Captured() && l.Saved() == b && l.Applied(b, ViewOf(l.policy, l.catalog))
      && (l.policy, l.catalog) !in old(l.registry.holder)
      && l.registry.holder == old(l.registry.holder)[(l.policy, l.catalog) := l]
      && (old(l.policy.bound) == null ==> fresh(l.policy.bound))
      && l.policy.bound != null && forall m :: m in leases ==>
           Containers(m.policy, m.catalog) <= old(Containers(m.policy, m.catalog)) + {l.policy.bound}
  {
    hide HasKey, RunKey, JD.Strip;
    error := l.Activate(fault, false);
  }

  method Leave(l: Lease, ghost leases: seq<Lease>)
    requires l.Valid() && l.active
    modifies l, l.registry, l.policy, l.catalog, l.allowedRef, l.boundRef, l.entriesRef, l.triggersRef
    ensures l.Valid() && !l.active && !l.claimed && ViewOf(l.policy, l.catalog) == old(l.Saved())
    ensures forall m :: m in leases ==>
      Touched(l, old(l.Saved()), m, old(ViewOf(m.policy, m.catalog)), ViewOf(m.policy, m.catalog))
    ensures l.registry.holder == old(l.registry.holder) - {(l.policy, l.catalog)}
  {
    var _ := l.Close();
  }

  // ------------------------------------------------------------------ nesting

  /**
   Any number of nested `with` blocks, on pairs that may share a policy, a catalog or
   single containers, around a body that does what it likes to all of these; any of
   the activations may fail, at any point. Afterwards every policy, every catalog and
   every container is as it was, contents and identities, and no new pair is held.
   */
  method Nested(registry: Registry, leases: seq<Lease>, faults: seq<nat>, ghost all: set<object>)
    returns (error: Option<Failure>)
    requires |faults| == |leases| && Unused(registry, leases) && Covers(all, registry, leases)
    requires registry.holder.Keys == registry.pairs
    modifies registry, leases, all
    ensures forall l :: l in leases ==> l.Valid() && !l.active
    ensures registry.holder == old(registry.holder) && registry.pairs == old(registry.pairs)
    ensures forall l :: l in leases ==> ViewOf(l.policy, l.catalog) == old(ViewOf(l.policy, l.catalog))
    decreases |leases|, 0
  {
    if leases == [] {
      modify all;
      return None;
    }
    var l, rest := leases[0], leases[1..];
    ghost var b := ViewOf(l.policy, l.catalog);
    forall m | m in leases ensures Agree(l, b, m, ViewOf(m.policy, m.catalog)) {
      ViewsAgree(l, m);
    }
    hide HasKey, RunKey, JD.Strip;
    FirstCovered(all, registry, leases);
    error := EnterFirst(registry, leases, faults[0], all, b);
    hide Agree, Unused;
    if error.Some? {
      return;
    }
    label Entered:
    StillCovered(all, l.policy.bound, registry, leases);
    error := Inside(registry, l, rest, faults[1..], all + {l.policy.bound}, b);
    hide Touched;
    forall m | m in rest ensures ViewOf(m.policy, m.catalog) == old(ViewOf(m.policy, m.catalog)) {
      ViewsAgree(l, m);
      BackAgain(l, b, m, old(ViewOf(m.policy, m.catalog)), old@Entered(ViewOf(m.policy, m.catalog)),
                ViewOf(l.policy, l.catalog), ViewOf(m.policy, m.catalog));
    }
  }

  /** That l holds its pair does not touch leases that hold none. */
  lemma UnusedAfterEntering(registry: Registry, l: Lease, leases: seq<Lease>)
    requires leases != [] && leases[0] == l && registry.holder.Keys == registry.pairs
    requires (l.policy, l.catalog) in registry.holder && registry.holder[(l.policy, l.catalog)] == l
    requires forall m :: m in leases && m != l ==>
      && m.registry == registry && !m.active && !m.claimed && m.snapshot.None? && WellFormed(m)
      && ((m.policy, m.catalog) in registry.pairs ==> registry.holder[(m.policy, m.catalog)] != m)
    requires forall i, j :: 0 <= i < j < |leases| ==> leases[i] != leases[j]
    ensures Unused(registry, leases[1..]) && l !in leases[1..]
  {
    var rest := leases[1..];
    assert forall m :: m in rest ==> m in leases && m != l;
    assert forall i, j :: 0 <= i < j < |rest| ==> rest[i] == leases[i + 1] && rest[j] == leases[j + 1];
  }

  lemma FirstCovered(all: set<object>, registry: Registry, leases: seq<Lease>)
    requires leases != [] && Covers(all, registry, leases)
    ensures Containers(leases[0].policy, leases[0].catalog) <= all
  {}

  lemma StillCovered(all: set<object>, more: object, registry: Registry, leases: seq<Lease>)
    requires leases != [] && registry !in all + {more}
    requires forall l :: l in leases ==> l !in all + {more} && Containers(l.policy, l.catalog) <= all + {more}
    ensures Covers(all + {more}, registry, leases[1..])
  {}

  /** Enters the outermost block: the others are as unused as before, or everything is as it was. */
  method EnterFirst(registry: Registry, leases: seq<Lease>, fault: nat, ghost all: set<object>, ghost b: View)
    returns (error: Option<Failure>)
    requires leases != [] && Unused(registry, leases) && registry.holder.Keys == registry.pairs
    requires b == ViewOf(leases[0].policy, leases[0].catalog)
    requires Covers(all, registry, leases)
    modifies leases[0], registry, Containers(leases[0].policy, leases[0].catalog)
    ensures error.Some? ==>
      && registry.holder == old(registry.holder) && registry.pairs == old(registry.pairs)
      && (forall l :: l in leases ==> l.Valid() && !l.active)
      && (forall l :: l in leases ==> ViewOf(l.policy, l.catalog) == old(ViewOf(l.policy, l.catalog)))
    ensures error.None? ==>
      var l := leases[0];
      && l.Valid() && l.active && l.Saved() == b && Unused(registry, leases[1..]) && l !in leases[1..]
      && (l.policy, l.catalog) !in old(registry.holder) && registry.holder == old(registry.holder)[(l.policy, l.catalog) := l]
      && l.policy.bound != null && (l.policy.bound == old(l.policy.bound) || fresh(l.policy.bound))
      && l !in all
      && (forall m :: m in leases ==> Containers(m.policy, m.catalog) <= all + {l.policy.bound})
      && forall m :: m in leases ==> Touched(l, b, m, old(ViewOf(m.policy, m.catalog)), ViewOf(m.policy, m.catalog))
  {
    var l := leases[0];
    hide HasKey, RunKey, JD.Strip;
    assert forall m :: m in leases ==> Containers(m.policy, m.catalog) <= all && m !in all;
    error := Enter(l, fault, b, leases);
    if error.None? {
      UnusedAfterEntering(registry, l, leases);
    }
  }

  /** What happens between the activation of l and the end of its block. */
  method Inside(registry: Registry, l: Lease, rest: seq<Lease>, faults: seq<nat>, ghost all: set<object>, ghost b: View)
    returns (error: Option<Failure>)
    requires |faults| == |rest| && Unused(registry, rest) && Covers(all, registry, rest)
    requires l !in rest && l !in all && Containers(l.policy, l.catalog) <= all
    requires l.registry == registry && l.Valid() && l.active && l.Saved() == b
    requires {b.allowed, b.entries, b.triggers} <= all && (b.bound == null || b.bound in all)
    modifies registry, l, rest, all
    ensures l.Valid() && !l.active && forall m :: m in rest ==> m.Valid() && !m.active
    ensures registry.holder == old(registry.holder) - {(l.policy, l.catalog)}
    ensures ViewOf(l.policy, l.catalog) == b
    ensures forall m :: m in rest ==>
      Touched(l, b, m, old(ViewOf(m.policy, m.catalog)), ViewOf(m.policy, m.catalog))
    decreases |rest|, 1
  {
    error := Nested(registry, rest, faults, all);
    Leave(l, rest);
  }
}
