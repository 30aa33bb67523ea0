/**
 * The tools on the player: the Platformizer, which keeps an index into the platform types
 * in stock and builds the selected one, and the tool controller, which keeps an index into
 * the tools in stock, shows the sprite of the selected tool and forwards use and platform
 * switching to it.
 */
module Tools {
  import opened Wrappers
  import opened InventorySystem

  /** A platform prefab asset. */
  datatype Prefab = Prefab(id: nat)

  /** One inspector entry: a platform type and its prefab, which may be unassigned. */
  datatype PlatformMapping = PlatformMapping(platformType: PlatformType, prefab: Option<Prefab>)

  /** Whether entry i is the first entry for its type that has a prefab assigned. */
  ghost predicate FirstAssigned(mappings: seq<PlatformMapping>, i: int)
  {
    && 0 <= i < |mappings|
    && mappings[i].prefab.Some?
    && forall j :: 0 <= j < i ==>
         !(mappings[j].platformType == mappings[i].platformType && mappings[j].prefab.Some?)
  }

  /** Unity's integer clamp. */
  function Clamp(value: int, min: int, max: int): (r: int)
    ensures min <= max ==> min <= r <= max
    ensures min <= value <= max ==> r == value
    ensures value < min ==> r == min
    ensures min <= max < value ==> r == max
  {
    if value < min then min else if value > max then max else value
  }

  /** The platform index after the list of platforms has been refreshed to n entries:
      -1 for an empty list, otherwise the old index clamped into range. */
  function RefreshedPlatformIndex(index: int, n: nat): (r: int)
    ensures n == 0 <==> r == -1
    ensures n > 0 ==> 0 <= r < n
    ensures 0 <= index < n ==> r == index
    ensures n > 0 && index < 0 ==> r == 0
    ensures n > 0 && index >= n ==> r == n - 1
  {
    if n == 0 then -1 else Clamp(index, 0, n - 1)
  }

  /** The tool index after the list of tools has been refreshed to n entries: an index past
      the end is moved to the last entry (to -1 for an empty list). */
  function RefreshedToolIndex(index: int, n: nat): (r: int)
    ensures r < n
    ensures index < n ==> r == index
    ensures index >= n ==> r == n - 1
    ensures -1 <= index ==> -1 <= r
  {
    if index >= n then n - 1 else index
  }

  /** What a click builds, given the order of the platform types, their counts, the prefab table
      and the index before the refresh: the type at the refreshed index, if it is in stock and has
      a prefab. */
  function Placement(order: seq<PlatformType>, q: Counts<PlatformType>,
                     prefabs: map<PlatformType, Prefab>, index: int): (r: Option<PlatformType>)
    ensures r.Some? ==> r.value in order && Has(q, r.value) && r.value in prefabs
    ensures |order| == 0 ==> r.None?
  {
    if |order| == 0 then None
    else
      var p := order[RefreshedPlatformIndex(index, |order|)];
      if Quantity(q, p) <= 0 || p !in prefabs then None else Some(p)
  }

  /** With the index in range, a click builds the selected type or nothing, and it builds it
      exactly when that type is in stock and has a prefab. */
  lemma PlacementBuildsSelected(order: seq<PlatformType>, q: Counts<PlatformType>,
                                prefabs: map<PlatformType, Prefab>, index: int)
    requires 0 <= index < |order|
    ensures Placement(order, q, prefabs, index).Some? <==> Has(q, order[index]) && order[index] in prefabs
    ensures Placement(order, q, prefabs, index).Some? ==> Placement(order, q, prefabs, index).value == order[index]
  {
  }

  /** When every listed type is in stock and has a prefab, a click always builds. */
  lemma PlacementLive(order: seq<PlatformType>, q: Counts<PlatformType>,
                      prefabs: map<PlatformType, Prefab>, index: int)
    requires |order| > 0
    requires forall p :: p in order ==> Has(q, p) && p in prefabs
    ensures Placement(order, q, prefabs, index).Some?
  {
  }

  /** The platform building tool. */
  class Platformizer {
    const inventory: Inventory
    /** The mappings from the inspector. */
    const mappings: seq<PlatformMapping>
    var currentPlatformIndex: int
    var availablePlatforms: seq<PlatformType>
    var platformPrefabs: map<PlatformType, Prefab>
    /** The platforms instantiated so far, in order. */
    var built: seq<PlatformType>

    /** -1 exactly for an empty list, otherwise a position in the list. */
    ghost predicate Valid()
      reads this
    {
      (|availablePlatforms| == 0 && currentPlatformIndex == -1)
      || (0 <= currentPlatformIndex < |availablePlatforms|)
    }

    /** The list is the inventory's platform types in its enumeration order, so each once. */
    ghost predicate ListsInventory()
      reads this, inventory
    {
      inventory.Valid() && availablePlatforms == inventory.platformOrder
    }

    /** The state after a click, given the state before it: the refreshed list and index, and,
        when a platform was built, its consumption and the refresh that follows. */
    ghost predicate PlacementDone(q0: Counts<PlatformType>, order0: seq<PlatformType>, index0: int,
                                  built0: seq<PlatformType>, placed: Option<PlatformType>)
      reads this, inventory
    {
      var index1 := RefreshedPlatformIndex(index0, |order0|);
      && Valid() && ListsInventory()
      && placed == Placement(order0, q0, platformPrefabs, index0)
      && (placed.None? ==>
            && inventory.platformQuantities == q0 && inventory.platformOrder == order0
            && built == built0 && currentPlatformIndex == index1)
      && (placed.Some? ==>
            && inventory.platformQuantities == ConsumeCount(q0, placed.value, false)
            && inventory.platformOrder == ConsumeOrder(order0, q0, placed.value, false)
            && built == built0 + [placed.value]
            && currentPlatformIndex == RefreshedPlatformIndex(index1, |availablePlatforms|))
    }

    /** The prefab table holds, for each type, the first assigned prefab of the mappings. */
    ghost predicate PrefabsFromMappings()
      reads this
    {
      && (forall p :: p in platformPrefabs <==>
            exists i :: 0 <= i < |mappings| && mappings[i].platformType == p
                        && mappings[i].prefab.Some?)
      && (forall p :: p in platformPrefabs ==>
            exists i :: FirstAssigned(mappings, i)
                        && mappings[i] == PlatformMapping(p, Some(platformPrefabs[p])))
    }

    /** Awake and Start: build the prefab table and the list of platforms in stock. */
    constructor (inventory: Inventory, mappings: seq<PlatformMapping>)
      requires inventory.Valid()
      ensures this.inventory == inventory && this.mappings == mappings
      ensures Valid() && ListsInventory() && PrefabsFromMappings() && built == []
      ensures currentPlatformIndex == if |availablePlatforms| == 0 then -1 else 0
    {
      this.inventory := inventory;
      this.mappings := mappings;
      currentPlatformIndex := 0;
      availablePlatforms := [];
      platformPrefabs := map[];
      built := [];
      new;
      InitializePlatformPrefabs();
      UpdateAvailablePlatforms();
    }

    /** Keep the first assigned prefab of each type; unassigned entries are skipped. */
    method InitializePlatformPrefabs()
      requires platformPrefabs == map[]
      modifies this
      ensures PrefabsFromMappings()
      ensures currentPlatformIndex == old(currentPlatformIndex)
      ensures availablePlatforms == old(availablePlatforms) && built == old(built)
    {
      var n := 0;
      while n < |mappings|
        invariant 0 <= n <= |mappings|
        invariant forall p :: p in platformPrefabs <==>
          exists i :: 0 <= i < n && mappings[i].platformType == p && mappings[i].prefab.Some?
        invariant forall p :: p in platformPrefabs ==>
          exists i :: 0 <= i < n && FirstAssigned(mappings, i)
                      && mappings[i] == PlatformMapping(p, Some(platformPrefabs[p]))
        invariant currentPlatformIndex == old(currentPlatformIndex)
        invariant availablePlatforms == old(availablePlatforms) && built == old(built)
      {
        var mapping := mappings[n];
        if mapping.platformType !in platformPrefabs && mapping.prefab.Some? {
          platformPrefabs := platformPrefabs[mapping.platformType := mapping.prefab.value];
          assert FirstAssigned(mappings, n);
        }
        n := n + 1;
      }
    }

    /** Refresh the list from the inventory and bring the index into range. */
    method UpdateAvailablePlatforms()
      requires inventory.Valid()
      modifies this
      ensures Valid() && ListsInventory()
      ensures currentPlatformIndex ==
                RefreshedPlatformIndex(old(currentPlatformIndex), |availablePlatforms|)
      ensures platformPrefabs == old(platformPrefabs) && built == old(built)
    {
      availablePlatforms := inventory.GetPlatforms();
      if |availablePlatforms| == 0 {
        currentPlatformIndex := -1;
      } else {
        currentPlatformIndex := Clamp(currentPlatformIndex, 0, |availablePlatforms| - 1);
      }
    }

    /** Select the platform at index, after refreshing; an index out of range is ignored. */
    method SwitchPlatform(index: int)
      requires inventory.Valid()
      modifies this
      ensures Valid() && ListsInventory()
      ensures currentPlatformIndex ==
                if 0 <= index < |availablePlatforms| then index
                else RefreshedPlatformIndex(old(currentPlatformIndex), |availablePlatforms|)
      ensures platformPrefabs == old(platformPrefabs) && built == old(built)
    {
      UpdateAvailablePlatforms();
      if |availablePlatforms| == 0 {
        return;
      }
      if 0 <= index < |availablePlatforms| {
        currentPlatformIndex := index;
      }
    }

    /** Placement is driven by the mouse in Update, so using the tool does nothing. */
    method Use()
    {
    }

    /** The frame update's placement input: a click places a platform, and without one nothing
        changes. Unity runs it every frame, whether or not the Platformizer is the selected tool. */
    method Update(mouseDown: bool) returns (placed: Option<PlatformType>)
      requires inventory.Valid()
      modifies this, inventory
      ensures inventory.Valid()
      ensures !mouseDown ==>
                && placed.None? && built == old(built)
                && currentPlatformIndex == old(currentPlatformIndex)
                && availablePlatforms == old(availablePlatforms)
                && inventory.platformQuantities == old(inventory.platformQuantities)
                && inventory.platformOrder == old(inventory.platformOrder)
      ensures mouseDown ==>
                PlacementDone(old(inventory.platformQuantities), old(inventory.platformOrder),
                              old(currentPlatformIndex), old(built), placed)
      ensures inventory.toolQuantities == old(inventory.toolQuantities)
      ensures inventory.toolOrder == old(inventory.toolOrder)
      ensures inventory.components == old(inventory.components)
      ensures platformPrefabs == old(platformPrefabs)
    {
      placed := None;
      if mouseDown {
        placed := PlacePlatform();
      }
    }

    /** Build one platform of the selected type, if any is in stock and it has a prefab, and
        consume one unit of it. */
    method PlacePlatform() returns (placed: Option<PlatformType>)
      requires inventory.Valid()
      modifies this, inventory
      ensures PlacementDone(old(inventory.platformQuantities), old(inventory.platformOrder),
                            old(currentPlatformIndex), old(built), placed)
      ensures inventory.toolQuantities == old(inventory.toolQuantities)
      ensures inventory.toolOrder == old(inventory.toolOrder)
      ensures inventory.components == old(inventory.components)
      ensures platformPrefabs == old(platformPrefabs)
    {
      UpdateAvailablePlatforms();
      if |availablePlatforms| == 0 || currentPlatformIndex < 0 {
        return None;
      }
      var platformType := availablePlatforms[currentPlatformIndex];
      var quantity := inventory.GetPlatformQuantity(platformType);
      if quantity <= 0 {
        UpdateAvailablePlatforms();
        return None;
      }
      if platformType !in platformPrefabs {
        return None;
      }
      built := built + [platformType];
      inventory.ConsumePlatform(platformType);
      UpdateAvailablePlatforms();
      return Some(platformType);
    }
  }

  /** The controller that selects among the tools in stock. */
  class ToolController {
    const inventory: Inventory
    const platformizer: Platformizer
    var currentTool: Option<ToolKind>
    var availableTools: seq<ToolKind>
    var currentToolIndex: int
    /** Whether each tool's sprite is shown. */
    var spriteActive: map<ToolKind, bool>

    /** Every tool has a sprite, the index is at least -1, both tools share the inventory, and
        the inventory's enumeration orders are consistent. */
    ghost predicate Wired()
      reads this, inventory
    {
      && (forall k: ToolKind :: k in spriteActive)
      && -1 <= currentToolIndex
      && platformizer.inventory == inventory
      && inventory.Valid()
    }

    /** Besides, a sprite is shown exactly for the selected tool. */
    ghost predicate Valid()
      reads this, inventory
    {
      && Wired()
      && (forall k :: k in spriteActive ==> (spriteActive[k] <==> currentTool == Some(k)))
    }

    /** Awake: take the inventory and hide every tool sprite. */
    constructor (inventory: Inventory, platformizer: Platformizer)
      requires platformizer.inventory == inventory && inventory.Valid()
      ensures this.inventory == inventory && this.platformizer == platformizer
      ensures Valid() && currentTool == None && availableTools == [] && currentToolIndex == -1
    {
      this.inventory := inventory;
      this.platformizer := platformizer;
      currentTool := None;
      availableTools := [];
      currentToolIndex := -1;
      spriteActive := map[Platformizer := true, Grappler := true, Jetpack := true];
      new;
      forall k: ToolKind
        ensures k in spriteActive
      {
        match k
        case Platformizer =>
        case Grappler =>
        case Jetpack =>
      }
      HideAllSprites();
    }

    /** Start: put a Platformizer into the inventory and select the first tool in stock. */
    method Start()
      requires Valid()
      modifies this, inventory
      ensures Valid()
      ensures inventory.toolQuantities == AddCount(old(inventory.toolQuantities), Platformizer, 1)
      ensures inventory.toolOrder == AddOrder(old(inventory.toolOrder), old(inventory.toolQuantities), Platformizer)
      ensures inventory.platformQuantities == old(inventory.platformQuantities)
      ensures inventory.platformOrder == old(inventory.platformOrder)
      ensures inventory.components ==
                if Platformizer in old(inventory.toolQuantities) then old(inventory.components)
                else old(inventory.components) + {Platformizer}
      ensures availableTools == Stocked(inventory.toolOrder, inventory.toolQuantities, inventory.components)
      ensures forall k :: k in availableTools <==>
                Has(inventory.toolQuantities, k) && k in inventory.components
      ensures currentToolIndex == 0
      ensures currentTool == if |availableTools| > 0 then Some(availableTools[0]) else None
      ensures Platformizer !in old(inventory.toolQuantities) ==>
                && Platformizer in inventory.components && |availableTools| > 0
                && currentToolIndex == 0 && currentTool == Some(availableTools[0])
      ensures old(inventory.toolQuantities) == map[] ==> currentTool == Some(Platformizer)
    {
      inventory.AddTool(Platformizer, 1);
      UpdateAvailableTools();
      if Platformizer !in old(inventory.toolQuantities) {
        assert Platformizer in availableTools;
      }
      if old(inventory.toolQuantities) == map[] {
        assert availableTools[0] in availableTools;
      }
      currentToolIndex := 0;
      SelectTool(currentToolIndex);
    }

    /** Hide every sprite. */
    method HideAllSprites()
      modifies this
      ensures spriteActive.Keys == old(spriteActive).Keys
      ensures forall k :: k in spriteActive ==> !spriteActive[k]
      ensures currentTool == old(currentTool) && availableTools == old(availableTools)
      ensures currentToolIndex == old(currentToolIndex)
    {
      var remaining := spriteActive.Keys;
      while remaining != {}
        invariant remaining <= spriteActive.Keys == old(spriteActive).Keys
        invariant forall k :: k in spriteActive && k !in remaining ==> !spriteActive[k]
        invariant currentTool == old(currentTool) && availableTools == old(availableTools)
        invariant currentToolIndex == old(currentToolIndex)
        decreases remaining
      {
        var k :| k in remaining;
        spriteActive := spriteActive[k := false];
        remaining := remaining - {k};
      }
    }

    /** Whether the selected tool is of the given kind; never while nothing is selected. */
    function IsSelectedTool(kind: ToolKind): (r: bool)
      reads this
      ensures currentTool.None? ==> !r
      ensures Valid() ==> (r <==> spriteActive[kind])
    {
      currentTool.Some? && currentTool.value == kind
    }

    /** Refresh the list from the inventory; an index past the end moves to the last entry. */
    method UpdateAvailableTools()
      requires inventory.Valid()
      modifies this
      ensures availableTools == Stocked(inventory.toolOrder, inventory.toolQuantities, inventory.components)
      ensures forall i, j :: 0 <= i < j < |availableTools| ==> availableTools[i] != availableTools[j]
      ensures forall k :: k in availableTools <==>
                Has(inventory.toolQuantities, k) && k in inventory.components
      ensures currentToolIndex == RefreshedToolIndex(old(currentToolIndex), |availableTools|)
      ensures currentTool == old(currentTool) && spriteActive == old(spriteActive)
    {
      availableTools := inventory.GetTools();
      if currentToolIndex >= |availableTools| {
        currentToolIndex := |availableTools| - 1;
      }
    }

    /** Select the tool at index, or nothing when index is out of range; only its sprite shows. */
    method SelectTool(index: int)
      requires Wired()
      modifies this
      ensures Valid()
      ensures currentTool == if 0 <= index < |availableTools| then Some(availableTools[index]) else None
      ensures availableTools == old(availableTools) && currentToolIndex == old(currentToolIndex)
    {
      HideAllSprites();
      if 0 <= index < |availableTools| {
        currentTool := Some(availableTools[index]);
        spriteActive := spriteActive[availableTools[index] := true];
      } else {
        currentTool := None;
      }
    }

    /** Cycle to the next tool in stock; with at most one tool nothing but the refresh happens. */
    method HandleSwitchTool()
      requires Valid()
      modifies this
      ensures Valid()
      ensures availableTools == Stocked(inventory.toolOrder, inventory.toolQuantities, inventory.components)
      ensures forall k :: k in availableTools <==>
                Has(inventory.toolQuantities, k) && k in inventory.components
      ensures |availableTools| <= 1 ==>
                && currentTool == old(currentTool) && spriteActive == old(spriteActive)
                && currentToolIndex == RefreshedToolIndex(old(currentToolIndex), |availableTools|)
      ensures |availableTools| > 1 ==>
                && currentToolIndex ==
                     (RefreshedToolIndex(old(currentToolIndex), |availableTools|) + 1) % |availableTools|
                && currentTool == Some(availableTools[currentToolIndex])
    {
      UpdateAvailableTools();
      if |availableTools| <= 1 {
        return;
      }
      currentToolIndex := (currentToolIndex + 1) % |availableTools|;
      SelectTool(currentToolIndex);
    }

    /** What using each tool does to the inventory: the jetpack uses itself up, the grappler and
        the Platformizer consume nothing. */
    method UseTool(kind: ToolKind)
      requires inventory.Valid()
      modifies inventory
      ensures inventory.Valid()
      ensures inventory.toolQuantities ==
                if kind == Jetpack then ConsumeCount(old(inventory.toolQuantities), Jetpack, false)
                else old(inventory.toolQuantities)
      ensures inventory.toolOrder ==
                if kind == Jetpack
                then ConsumeOrder(old(inventory.toolOrder), old(inventory.toolQuantities), Jetpack, false)
                else old(inventory.toolOrder)
      ensures inventory.platformQuantities == old(inventory.platformQuantities)
      ensures inventory.platformOrder == old(inventory.platformOrder)
      ensures inventory.components == old(inventory.components)
    {
      match kind
      case Platformizer => platformizer.Use();
      case Grappler =>
      case Jetpack => inventory.ConsumeTool(Jetpack);
    }

    /** Use the selected tool; if that used it up, select the first tool left, or nothing. */
    method HandleUseTool()
      requires Valid()
      modifies this, inventory
      ensures Valid()
      ensures inventory.platformQuantities == old(inventory.platformQuantities)
      ensures inventory.platformOrder == old(inventory.platformOrder)
      ensures inventory.components == old(inventory.components)
      ensures old(currentTool).None? ==>
                && inventory.toolQuantities == old(inventory.toolQuantities)
                && inventory.toolOrder == old(inventory.toolOrder)
                && currentTool.None? && spriteActive == old(spriteActive)
                && availableTools == old(availableTools) && currentToolIndex == old(currentToolIndex)
      ensures old(currentTool).Some? ==>
                var used := old(currentTool).value;
                && inventory.toolQuantities ==
                     (if used == Jetpack then ConsumeCount(old(inventory.toolQuantities), Jetpack, false)
                      else old(inventory.toolQuantities))
                && inventory.toolOrder ==
                     (if used == Jetpack
                      then ConsumeOrder(old(inventory.toolOrder), old(inventory.toolQuantities), Jetpack, false)
                      else old(inventory.toolOrder))
                && availableTools ==
                     Stocked(inventory.toolOrder, inventory.toolQuantities, inventory.components)
                && (forall k :: k in availableTools <==>
                      Has(inventory.toolQuantities, k) && k in inventory.components)
                && (used in availableTools ==>
                      && currentTool == old(currentTool)
                      && currentToolIndex == RefreshedToolIndex(old(currentToolIndex), |availableTools|))
                && (used !in availableTools && |availableTools| > 0 ==>
                      currentToolIndex == 0 && currentTool == Some(availableTools[0]))
                && (used !in availableTools && |availableTools| == 0 ==>
                      currentTool.None? && currentToolIndex == -1)
    {
      if currentTool.Some? {
        var used := currentTool.value;
        UseTool(used);
        UpdateAvailableTools();
        if used !in availableTools {
          spriteActive := spriteActive[used := false];
          if |availableTools| > 0 {
            currentToolIndex := 0;
            SelectTool(currentToolIndex);
          } else {
            currentTool := None;
          }
        }
      }
    }

    /** Platform keys are numbered from 1; they only reach the Platformizer while it is selected. */
    method HandleSwitchPlatform(platformNumber: int)
      requires Valid()
      modifies platformizer
      ensures Valid()
      ensures platformizer.built == old(platformizer.built)
      ensures platformizer.platformPrefabs == old(platformizer.platformPrefabs)
      ensures currentTool != Some(Platformizer) ==>
                && platformizer.currentPlatformIndex == old(platformizer.currentPlatformIndex)
                && platformizer.availablePlatforms == old(platformizer.availablePlatforms)
      ensures currentTool == Some(Platformizer) ==>
                && platformizer.Valid() && platformizer.ListsInventory()
                && platformizer.currentPlatformIndex ==
                     if 0 <= platformNumber - 1 < |platformizer.availablePlatforms|
                     then platformNumber - 1
                     else RefreshedPlatformIndex(old(platformizer.currentPlatformIndex),
                                                 |platformizer.availablePlatforms|)
    {
      if currentTool == Some(Platformizer) {
        platformizer.SwitchPlatform(platformNumber - 1);
      }
    }
  }
}
