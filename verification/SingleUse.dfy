/**
 A single-use register, the idea behind the remediation journal, the agent ledger
 and the delivery ledger: a key is free, then owned by whoever won it, then done.
 Only the owner performs the effect of the key. The three ledgers differ in what
 they do with a key that is owned and not done when somebody else asks for it.
 */
module SingleUse {
  import opened Values

  datatype Verdict = Success | Failure | Unknown

  datatype Cell = Cell(owner: nat, verdict: Option<Verdict>)

  datatype Perform = Perform(key: string, actor: nat)

  datatype Register = Register(cells: map<string, Cell>, performed: seq<Perform>)

  /** `Overwrite` is what no ledger intends: replacing a verdict that stands. */
  datatype Action =
    | Stutter
    | Acquire(key: string, c: nat)
    | Act(key: string, c: nat)
    | Settle(key: string, c: nat, verdict: Verdict)
    | Force(key: string)
    | Overwrite(key: string, replacement: Option<Verdict>)

  predicate Performed(r: Register, key: string) {
    exists i :: 0 <= i < |r.performed| && r.performed[i].key == key
  }

  predicate Can(r: Register, a: Action) {
    match a
    case Stutter => true
    case Acquire(key, c) => key !in r.cells
    case Act(key, c) => key in r.cells && r.cells[key].owner == c && !Performed(r, key)
    case Settle(key, c, verdict) =>
      && key in r.cells && r.cells[key].owner == c && r.cells[key].verdict.None?
      && (verdict.Success? ==> Performed(r, key))
    case Force(key) => key in r.cells && r.cells[key].verdict.None?
    case Overwrite(key, _) => key in r.cells
  }

  function Next(r: Register, a: Action): Register
    requires Can(r, a)
  {
    match a
    case Stutter => r
    case Acquire(key, c) => r.(cells := r.cells[key := Cell(c, None)])
    case Act(key, c) => r.(performed := r.performed + [Perform(key, c)])
    case Settle(key, c, verdict) => r.(cells := r.cells[key := Cell(c, Some(verdict))])
    case Force(key) => r.(cells := r.cells[key := r.cells[key].(verdict := Some(Unknown))])
    case Overwrite(key, verdict) => r.(cells := r.cells[key := r.cells[key].(verdict := verdict)])
  }

  predicate Follows(r: Register, actions: seq<Action>)
    decreases |actions|
  {
    actions == [] || (Can(r, actions[0]) && Follows(Next(r, actions[0]), actions[1..]))
  }

  function End(r: Register, actions: seq<Action>): Register
    requires Follows(r, actions)
    decreases |actions|
  {
    if actions == [] then r else End(Next(r, actions[0]), actions[1..])
  }

  const EMPTY := Register(map[], [])

  ghost predicate Sound(r: Register) {
    && (forall i :: 0 <= i < |r.performed| ==>
          r.performed[i].key in r.cells && r.cells[r.performed[i].key].owner == r.performed[i].actor)
    && (forall i, j :: 0 <= i < j < |r.performed| ==> r.performed[i].key != r.performed[j].key)
  }

  ghost predicate Earned(r: Register) {
    forall key :: key in r.cells && r.cells[key].verdict == Some(Success) ==> Performed(r, key)
  }

  lemma NextIsSound(r: Register, a: Action)
    requires Sound(r) && Can(r, a)
    ensures Sound(Next(r, a))
  {}

  lemma PerformedStays(r: Register, a: Action, key: string)
    requires Can(r, a) && Performed(r, key)
    ensures Performed(Next(r, a), key)
  {
    var i :| 0 <= i < |r.performed| && r.performed[i].key == key;
    assert Next(r, a).performed[i] == r.performed[i];
  }

  /** Every register reached from the empty one: a key is performed at most once, and only by its owner. */
  lemma {:induction false} RegisterIsSound(r: Register, actions: seq<Action>)
    requires Sound(r) && Follows(r, actions)
    ensures Sound(End(r, actions))
    decreases |actions|
  {
    hide Sound, Can, Next;
    if actions != [] {
      NextIsSound(r, actions[0]);
      RegisterIsSound(Next(r, actions[0]), actions[1..]);
    }
  }

  /** Ownership never changes, and without Overwrite no verdict does. */
  lemma {:induction false} VerdictsStand(r: Register, actions: seq<Action>, key: string)
    requires Follows(r, actions) && key in r.cells
    ensures key in End(r, actions).cells && End(r, actions).cells[key].owner == r.cells[key].owner
    ensures (forall a :: a in actions ==> !a.Overwrite?) && r.cells[key].verdict.Some? ==>
              End(r, actions).cells[key] == r.cells[key]
    decreases |actions|
  {
    if actions != [] {
      VerdictsStand(Next(r, actions[0]), actions[1..], key);
      assert forall a :: a in actions[1..] ==> a in actions;
    }
  }

  lemma NextIsEarned(r: Register, a: Action)
    requires Earned(r) && Can(r, a) && !a.Overwrite?
    ensures Earned(Next(r, a))
  {
    forall key | key in Next(r, a).cells && Next(r, a).cells[key].verdict == Some(Success) ensures Performed(Next(r, a), key) {
      assert Performed(r, key);
      PerformedStays(r, a, key);
    }
  }

  /** Without Overwrite, success means that the effect was performed. */
  lemma {:induction false} SuccessIsEarned(r: Register, actions: seq<Action>)
    requires Earned(r) && Follows(r, actions) && forall a :: a in actions ==> !a.Overwrite?
    ensures Earned(End(r, actions))
    decreases |actions|
  {
    hide Earned, Can, Next;
    if actions != [] {
      assert actions[0] in actions && forall a :: a in actions[1..] ==> a in actions;
      NextIsEarned(r, actions[0]);
      SuccessIsEarned(Next(r, actions[0]), actions[1..]);
    }
  }
}
