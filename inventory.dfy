/**
 * The inventory: two dictionaries of counts, one keyed by tool type and one by platform
 * type. Adding to a present key adds to its count; consuming decrements and removes the
 * key once the count is no longer positive, except that the Platformizer tool is never
 * removed. Counts are 32-bit integers with the wrap-around of unchecked arithmetic.
 */
module InventorySystem {

  /** The range of a 32-bit signed integer. */
  newtype int32 = x: int | -0x8000_0000 <= x < 0x8000_0000

  /** Unchecked 32-bit arithmetic: the value congruent to x modulo 2^32 in the signed range. */
  function Wrap(x: int): (r: int32)
    ensures (r as int - x) % 0x1_0000_0000 == 0
    ensures -0x8000_0000 <= x < 0x8000_0000 ==> r as int == x
  {
    var m := x % 0x1_0000_0000;
    if m >= 0x8000_0000 then (m - 0x1_0000_0000) as int32 else m as int32
  }

  /** The tool components a player can carry, identified by their type. */
  datatype ToolKind = Platformizer | Grappler | Jetpack

  datatype PlatformType =
    | BrickGround | BrickWall
    | SteelGround | SteelWall
    | GlassGround | GlassWall
    | WoodGround | WoodWall
    | ConcreteGround | ConcreteWall

  /** A dictionary of counts. */
  type Counts<K> = map<K, int32>

  /** The count of a key, 0 when it is absent. */
  function Quantity<K>(q: Counts<K>, k: K): int32
  {
    if k in q then q[k] else 0
  }

  /** At least one: the key is present with a positive count. */
  predicate Has<K>(q: Counts<K>, k: K)
  {
    k in q && q[k] > 0
  }

  /** Adding n: an absent key gets the count n, a present one has n added (with wrap-around). */
  function AddCount<K>(q: Counts<K>, k: K, n: int32): (r: Counts<K>)
    ensures r.Keys == q.Keys + {k}
    ensures forall j :: j in q && j != k ==> r[j] == q[j]
    ensures k !in q ==> r[k] == n
    ensures k in q ==> (r[k] as int - (q[k] as int + n as int)) % 0x1_0000_0000 == 0
  {
    if k in q then q[k := Wrap(q[k] as int + n as int)] else q[k := n]
  }

  /** Consuming one: decrement (with wrap-around); a count that is no longer positive removes
      the key, or, for a key that is kept, is set back to 1. An absent key changes nothing. */
  function ConsumeCount<K>(q: Counts<K>, k: K, keepAtOne: bool): (r: Counts<K>)
    ensures k !in q ==> r == q
    ensures forall j :: j in q && j != k ==> j in r && r[j] == q[j]
    ensures forall j :: j in r ==> j in q
    ensures k in q && keepAtOne ==> k in r && r[k] >= 1
    ensures k in r ==> r[k] >= 1 || k !in q
    ensures k in q && q[k] > 1 ==> k in r && r[k] as int == q[k] as int - 1
    ensures k in q && -0x8000_0000 < q[k] as int <= 1 ==>
      (k in r <==> keepAtOne) && (keepAtOne ==> r[k] == 1)
    ensures k in q && q[k] as int == -0x8000_0000 ==> r == q[k := 0x7fff_ffff]
  {
    if k !in q then q
    else
      var c := Wrap(q[k] as int - 1);
      if c <= 0 then (if keepAtOne then q[k := 1] else q - {k})
      else q[k := c]
  }

  /** Presence and quantity agree: a key is "had" exactly when its quantity is positive. */
  lemma HasIffPositiveQuantity<K>(q: Counts<K>, k: K)
    ensures Has(q, k) <==> Quantity(q, k) > 0
    ensures k !in q ==> Quantity(q, k) == 0
  {
  }

  /** The operations on the tool dictionary; only the Platformizer is kept at 1. */
  datatype ToolOp = AddTool(kind: ToolKind, quantity: int32) | ConsumeTool(kind: ToolKind)

  function ApplyToolOp(q: Counts<ToolKind>, op: ToolOp): Counts<ToolKind>
  {
    match op
    case AddTool(k, n) => AddCount(q, k, n)
    case ConsumeTool(k) => ConsumeCount(q, k, k == Platformizer)
  }

  function ApplyToolOps(q: Counts<ToolKind>, ops: seq<ToolOp>): Counts<ToolKind>
    decreases |ops|
  {
    if ops == [] then q else ApplyToolOps(ApplyToolOp(q, ops[0]), ops[1..])
  }

  /** Once added, the Platformizer stays in the inventory whatever is added or consumed. */
  lemma {:induction false} PlatformizerNeverRemoved(q: Counts<ToolKind>, ops: seq<ToolOp>)
    requires Platformizer in q
    ensures Platformizer in ApplyToolOps(q, ops)
    decreases |ops|
  {
    if ops != [] {
      assert Platformizer in ApplyToolOp(q, ops[0]);
      PlatformizerNeverRemoved(ApplyToolOp(q, ops[0]), ops[1..]);
    }
  }

  /** Consuming n times. */
  function ConsumeTimes<K>(q: Counts<K>, k: K, keepAtOne: bool, n: nat): Counts<K>
    decreases n
  {
    if n == 0 then q else ConsumeTimes(ConsumeCount(q, k, keepAtOne), k, keepAtOne, n - 1)
  }

  /** With c units of a removable key in stock, consuming n < c times leaves c - n units, and
      consuming c times removes the key; other keys are untouched. */
  lemma {:induction false} ConsumeCountsDown<K>(q: Counts<K>, k: K, n: nat)
    requires k in q && 0 < q[k] && n <= q[k] as int
    ensures var r := ConsumeTimes(q, k, false, n);
      && (n < q[k] as int ==> k in r && r[k] as int == q[k] as int - n)
      && (n == q[k] as int ==> k !in r)
      && (forall j :: j in q && j != k ==> j in r && r[j] == q[j])
      && (forall j :: j in r ==> j in q)
    decreases n
  {
    if n > 0 {
      var q1 := ConsumeCount(q, k, false);
      assert ConsumeTimes(q, k, false, n) == ConsumeTimes(q1, k, false, n - 1);
      if q[k] as int == 1 {
        assert k !in q1;
        assert ConsumeTimes(q1, k, false, 0) == q1;
      } else {
        assert k in q1 && q1[k] as int == q[k] as int - 1;
        ConsumeCountsDown(q1, k, n - 1);
      }
    }
  }

  /** No element occurs twice. */
  predicate Distinct<K(==)>(s: seq<K>)
  {
    forall i, j :: 0 <= i < j < |s| ==> s[i] != s[j]
  }

  /** A dictionary's enumeration order: each key exactly once. */
  ghost predicate Lists<K(!new)>(order: seq<K>, q: Counts<K>)
  {
    Distinct(order) && forall k :: k in order <==> k in q
  }

  /** The sequence without k, the others in their order. */
  function Remove<K(==,!new)>(s: seq<K>, k: K): (r: seq<K>)
    ensures forall x :: x in r <==> x in s && x != k
    ensures Distinct(s) ==> Distinct(r)
    decreases |s|
  {
    if s == [] then []
    else if s[0] == k then Remove(s[1..], k)
    else
      var rest := Remove(s[1..], k);
      assert Distinct(s) ==> Distinct([s[0]] + rest) by {
        if Distinct(s) {
          assert forall j :: 0 <= j < |s[1..]| ==> s[1..][j] == s[j + 1];
          forall i, j | 0 <= i < j < |[s[0]] + rest| ensures ([s[0]] + rest)[i] != ([s[0]] + rest)[j] {
            if i == 0 {
              assert ([s[0]] + rest)[j] == rest[j - 1] && rest[j - 1] in rest;
            }
          }
        }
      }
      [s[0]] + rest
  }

  /** The enumeration order after adding: a new key is enumerated last. */
  function AddOrder<K>(order: seq<K>, q: Counts<K>, k: K): seq<K>
  {
    if k in q then order else order + [k]
  }

  /** The enumeration order after consuming: a removed key leaves it, the others keep their order. */
  function ConsumeOrder<K(==,!new)>(order: seq<K>, q: Counts<K>, k: K, keepAtOne: bool): seq<K>
  {
    if k in q && k !in ConsumeCount(q, k, keepAtOne) then Remove(order, k) else order
  }

  /** Adding keeps the order an enumeration of the dictionary. */
  lemma AddKeepsOrder<K(!new)>(order: seq<K>, q: Counts<K>, k: K, n: int32)
    requires Lists(order, q)
    ensures Lists(AddOrder(order, q, k), AddCount(q, k, n))
  {
  }

  /** Consuming keeps the order an enumeration of the dictionary. */
  lemma ConsumeKeepsOrder<K(!new)>(order: seq<K>, q: Counts<K>, k: K, keepAtOne: bool)
    requires Lists(order, q)
    ensures Lists(ConsumeOrder(order, q, k, keepAtOne), ConsumeCount(q, k, keepAtOne))
  {
  }

  /** GetTools' result: in enumeration order, the tools with a positive count whose component
      is attached. */
  function Stocked(order: seq<ToolKind>, q: Counts<ToolKind>, components: set<ToolKind>)
    : (r: seq<ToolKind>)
    ensures forall k :: k in r <==> k in order && Has(q, k) && k in components
    ensures Distinct(order) ==> Distinct(r)
    decreases |order|
  {
    if order == [] then []
    else
      var init := order[..|order| - 1];
      var k := order[|order| - 1];
      var rest := Stocked(init, q, components);
      assert order == init + [k];
      if Has(q, k) && k in components then rest + [k] else rest
  }

  /** The inventory component: the two dictionaries and the tool components on the player. */
  class Inventory {
    var toolQuantities: Counts<ToolKind>
    var platformQuantities: Counts<PlatformType>
    /** The order in which each dictionary enumerates its keys. */
    var toolOrder: seq<ToolKind>
    var platformOrder: seq<PlatformType>
    /** The tool components attached to the player's game object. */
    var components: set<ToolKind>

    /** Each order enumerates its dictionary's keys exactly once. */
    ghost predicate Valid()
      reads this
    {
      Lists(toolOrder, toolQuantities) && Lists(platformOrder, platformQuantities)
    }

    constructor (components: set<ToolKind>)
      ensures Valid()
      ensures toolQuantities == map[] && platformQuantities == map[]
      ensures toolOrder == [] && platformOrder == []
      ensures this.components == components
    {
      toolQuantities := map[];
      platformQuantities := map[];
      toolOrder := [];
      platformOrder := [];
      this.components := components;
    }

    /** Adding a tool type for the first time also attaches its component if it is missing. */
    method AddTool(kind: ToolKind, quantity: int32)
      requires Valid()
      modifies this
      ensures Valid()
      ensures toolQuantities == AddCount(old(toolQuantities), kind, quantity)
      ensures toolOrder == AddOrder(old(toolOrder), old(toolQuantities), kind)
      ensures platformQuantities == old(platformQuantities) && platformOrder == old(platformOrder)
      ensures components == if kind in old(toolQuantities) then old(components)
                            else old(components) + {kind}
    {
      AddKeepsOrder(toolOrder, toolQuantities, kind, quantity);
      if kind in toolQuantities {
        toolQuantities := toolQuantities[kind := Wrap(toolQuantities[kind] as int + quantity as int)];
      } else {
        toolQuantities := toolQuantities[kind := quantity];
        toolOrder := toolOrder + [kind];
        if kind !in components {
          components := components + {kind};
        }
      }
    }

    function HasTool(kind: ToolKind): (r: bool)
      reads this
      ensures r <==> GetToolQuantity(kind) > 0
    {
      kind in toolQuantities && toolQuantities[kind] > 0
    }

    method ConsumeTool(kind: ToolKind)
      requires Valid()
      modifies this
      ensures Valid()
      ensures toolQuantities == ConsumeCount(old(toolQuantities), kind, kind == Platformizer)
      ensures toolOrder == ConsumeOrder(old(toolOrder), old(toolQuantities), kind, kind == Platformizer)
      ensures platformQuantities == old(platformQuantities) && platformOrder == old(platformOrder)
      ensures components == old(components)
    {
      ConsumeKeepsOrder(toolOrder, toolQuantities, kind, kind == Platformizer);
      if kind in toolQuantities {
        toolQuantities := toolQuantities[kind := Wrap(toolQuantities[kind] as int - 1)];
        if toolQuantities[kind] <= 0 {
          if kind != Platformizer {
            toolQuantities := toolQuantities - {kind};
            toolOrder := Remove(toolOrder, kind);
          } else {
            toolQuantities := toolQuantities[kind := 1];
          }
        }
      }
    }

    method AddPlatform(platformType: PlatformType, quantity: int32)
      requires Valid()
      modifies this
      ensures Valid()
      ensures platformQuantities == AddCount(old(platformQuantities), platformType, quantity)
      ensures platformOrder == AddOrder(old(platformOrder), old(platformQuantities), platformType)
      ensures toolQuantities == old(toolQuantities) && toolOrder == old(toolOrder)
      ensures components == old(components)
    {
      AddKeepsOrder(platformOrder, platformQuantities, platformType, quantity);
      if platformType in platformQuantities {
        platformQuantities := platformQuantities[platformType :=
          Wrap(platformQuantities[platformType] as int + quantity as int)];
      } else {
        platformQuantities := platformQuantities[platformType := quantity];
        platformOrder := platformOrder + [platformType];
      }
    }

    function HasPlatform(platformType: PlatformType): (r: bool)
      reads this
      ensures r <==> GetPlatformQuantity(platformType) > 0
    {
      platformType in platformQuantities && platformQuantities[platformType] > 0
    }

    method ConsumePlatform(platformType: PlatformType)
      requires Valid()
      modifies this
      ensures Valid()
      ensures platformQuantities == ConsumeCount(old(platformQuantities), platformType, false)
      ensures platformOrder == ConsumeOrder(old(platformOrder), old(platformQuantities), platformType, false)
      ensures toolQuantities == old(toolQuantities) && toolOrder == old(toolOrder)
      ensures components == old(components)
    {
      ConsumeKeepsOrder(platformOrder, platformQuantities, platformType, false);
      if platformType in platformQuantities {
        platformQuantities := platformQuantities[platformType :=
          Wrap(platformQuantities[platformType] as int - 1)];
        if platformQuantities[platformType] <= 0 {
          platformQuantities := platformQuantities - {platformType};
          platformOrder := Remove(platformOrder, platformType);
        }
      }
    }

    /** The tools with a positive count whose component is attached, each once, in the
        dictionary's enumeration order. */
    method GetTools() returns (tools: seq<ToolKind>)
      requires Valid()
      ensures tools == Stocked(toolOrder, toolQuantities, components)
      ensures Distinct(tools)
      ensures forall k :: k in tools <==> Has(toolQuantities, k) && k in components
    {
      tools := [];
      var i := 0;
      while i < |toolOrder|
        invariant 0 <= i <= |toolOrder|
        invariant tools == Stocked(toolOrder[..i], toolQuantities, components)
      {
        var kind := toolOrder[i];
        assert toolOrder[..i + 1][..i] == toolOrder[..i];
        if kind in toolQuantities && toolQuantities[kind] > 0 {
          if kind in components {
            tools := tools + [kind];
          }
        }
        i := i + 1;
      }
      assert toolOrder[..i] == toolOrder;
    }

    /** Every platform type present in the dictionary, each once, whatever its count, in the
        dictionary's enumeration order. */
    method GetPlatforms() returns (platforms: seq<PlatformType>)
      requires Valid()
      ensures platforms == platformOrder
      ensures Distinct(platforms)
      ensures forall p :: p in platforms <==> p in platformQuantities
    {
      platforms := platformOrder;
    }

    function GetPlatformQuantity(platformType: PlatformType): (r: int32)
      reads this
      ensures platformType !in platformQuantities ==> r == 0
      ensures r == Quantity(platformQuantities, platformType)
    {
      if platformType in platformQuantities then platformQuantities[platformType] else 0
    }

    function GetToolQuantity(kind: ToolKind): (r: int32)
      reads this
      ensures kind !in toolQuantities ==> r == 0
      ensures r == Quantity(toolQuantities, kind)
    {
      if kind in toolQuantities then toolQuantities[kind] else 0
    }
  }
}
