/**
 * The ability registry: each ability carries one flag that only Unlock sets, and
 * the registry maps an ability's kind to the first instance registered for it.
 * The registry's observable state is a map from kind to flag; AddSpec, UnlockSpec
 * and UnlockedIn say what each operation does to that map.
 */
module AbilitySystem {

  /** The three concrete ability classes, identified by their runtime type. */
  datatype AbilityKind = DoubleJump | Dash | WallClimb

  /** One ability: the unlocked flag (written only by Unlock) and how often its hook has run. */
  class Ability {
    const kind: AbilityKind
    var isUnlocked: bool
    /** The number of times the OnUnlock hook has run; the hook itself has no other effect. */
    var onUnlockRuns: nat

    /** A fresh ability is locked. */
    constructor (kind: AbilityKind)
      ensures this.kind == kind && !isUnlocked && onUnlockRuns == 0
    {
      this.kind := kind;
      isUnlocked := false;
      onUnlockRuns := 0;
    }

    /** Sets the flag, then runs the hook; the hook runs again on every further call. */
    method Unlock()
      modifies this
      ensures isUnlocked
      ensures onUnlockRuns == old(onUnlockRuns) + 1
    {
      isUnlocked := true;
      OnUnlock();
    }

    method OnUnlock()
      modifies this
      ensures isUnlocked == old(isUnlocked)
      ensures onUnlockRuns == old(onUnlockRuns) + 1
    {
      onUnlockRuns := onUnlockRuns + 1;
    }
  }

  /** What the registry reports: for each registered kind, whether it is unlocked. */
  type Status = map<AbilityKind, bool>

  /** Registering: the first registration of a kind wins, later ones change nothing. */
  function AddSpec(s: Status, k: AbilityKind, unlocked: bool): (r: Status)
    ensures r.Keys == s.Keys + {k}
    ensures forall j :: j in s ==> r[j] == s[j]
    ensures k !in s ==> r[k] == unlocked
  {
    if k in s then s else s[k := unlocked]
  }

  /** Unlocking: only the named kind's flag can change, and only to true; an unregistered
      kind is left unregistered. */
  function UnlockSpec(s: Status, k: AbilityKind): (r: Status)
    ensures r.Keys == s.Keys
    ensures forall j :: j in s ==> r[j] == (s[j] || j == k)
  {
    if k in s then s[k := true] else s
  }

  /** An unregistered kind counts as locked. */
  predicate UnlockedIn(s: Status, k: AbilityKind)
  {
    k in s && s[k]
  }

  /** The registry's operations, for statements about any sequence of them. */
  datatype Op = Add(kind: AbilityKind, unlocked: bool) | Unlock(kind: AbilityKind)

  function Apply(s: Status, ops: seq<Op>): Status
    decreases |ops|
  {
    if ops == [] then s
    else
      var s1 := match ops[0]
        case Add(k, u) => AddSpec(s, k, u)
        case Unlock(k) => UnlockSpec(s, k);
      Apply(s1, ops[1..])
  }

  /** Adding a kind that is already registered changes nothing. */
  lemma AddPresentIsNoOp(s: Status, k: AbilityKind, unlocked: bool)
    requires k in s
    ensures AddSpec(s, k, unlocked) == s
  {
  }

  /** Unlocking an unregistered kind changes nothing, and it stays locked. */
  lemma UnlockAbsentIsNoOp(s: Status, k: AbilityKind)
    requires k !in s
    ensures UnlockSpec(s, k) == s && !UnlockedIn(UnlockSpec(s, k), k)
  {
  }

  /** Registering a kind and then unlocking it makes it report unlocked. */
  lemma AddThenUnlock(s: Status, k: AbilityKind, unlocked: bool)
    ensures UnlockedIn(UnlockSpec(AddSpec(s, k, unlocked), k), k)
  {
  }

  /** Unlocking one kind leaves what every other kind reports unchanged. */
  lemma UnlockLeavesOthers(s: Status, k: AbilityKind, j: AbilityKind)
    requires j != k
    ensures UnlockedIn(UnlockSpec(s, k), j) == UnlockedIn(s, j)
  {
  }

  /** No sequence of operations makes an unlocked kind locked again. */
  lemma {:induction false} UnlockIsPermanent(s: Status, k: AbilityKind, ops: seq<Op>)
    requires UnlockedIn(s, k)
    ensures UnlockedIn(Apply(s, ops), k)
    decreases |ops|
  {
    if ops != [] {
      var s1 := match ops[0]
        case Add(k', u) => AddSpec(s, k', u)
        case Unlock(k') => UnlockSpec(s, k');
      assert UnlockedIn(s1, k);
      UnlockIsPermanent(s1, k, ops[1..]);
    }
  }

  /** A kind that never appears in the operations reports the same thing afterwards. */
  lemma {:induction false} UntouchedKindUnchanged(s: Status, k: AbilityKind, ops: seq<Op>)
    requires forall i :: 0 <= i < |ops| ==> ops[i].kind != k
    ensures UnlockedIn(Apply(s, ops), k) == UnlockedIn(s, k)
    decreases |ops|
  {
    if ops != [] {
      assert ops[0].kind != k;
      var s1 := match ops[0]
        case Add(k', u) => AddSpec(s, k', u)
        case Unlock(k') => UnlockSpec(s, k');
      assert UnlockedIn(s1, k) == UnlockedIn(s, k);
      assert forall i :: 0 <= i < |ops[1..]| ==> ops[1..][i] == ops[i + 1];
      UntouchedKindUnchanged(s1, k, ops[1..]);
    }
  }

  /** The registry object: a dictionary from kind to the first ability registered for it. */
  class Abilities {
    var abilities: map<AbilityKind, Ability>

    /** Each entry holds an ability of its own kind, so distinct entries are distinct objects. */
    ghost predicate Valid()
      reads this, abilities.Values
    {
      forall k :: k in abilities ==> abilities[k].kind == k
    }

    /** The flags of the registered abilities. */
    function Status(): Status
      reads this, abilities.Values
    {
      map k | k in abilities :: abilities[k].isUnlocked
    }

    constructor ()
      ensures Valid() && abilities == map[] && Status() == map[]
    {
      abilities := map[];
    }

    method AddAbility(ability: Ability)
      requires Valid()
      modifies this
      ensures Valid()
      ensures abilities == if ability.kind in old(abilities) then old(abilities)
                           else old(abilities)[ability.kind := ability]
      ensures Status() == AddSpec(old(Status()), ability.kind, ability.isUnlocked)
    {
      var kind := ability.kind;
      if kind !in abilities {
        abilities := abilities[kind := ability];
      }
    }

    method UnlockAbility(kind: AbilityKind)
      requires Valid()
      modifies if kind in abilities then {abilities[kind]} else {}
      ensures Valid() && abilities == old(abilities)
      ensures Status() == UnlockSpec(old(Status()), kind)
    {
      if kind in abilities {
        var ability := abilities[kind];
        ability.Unlock();
      }
    }

    function IsAbilityUnlocked(kind: AbilityKind): (r: bool)
      reads this, abilities.Values
      ensures r == UnlockedIn(Status(), kind)
      ensures kind !in abilities ==> !r
    {
      kind in abilities && abilities[kind].isUnlocked
    }
  }
}
