# Platform builder: movement, abilities, inventory and tools

This project models the core of a 2D platform-building game in Dafny and proves properties of
that model. The core has four parts:

- The player controller is a state machine driven by a fixed physics tick and by input events:
  move, jump and the climb axis. It handles ground and wall contact, wall sliding and climbing,
  the wall jump, the double jump, fast falling, and a dash triggered by a double tap.
- The ability registry gates three of these moves (DoubleJump, Dash, WallClimb) behind
  abilities that start locked and can only be unlocked.
- The inventory counts tools and platforms in two dictionaries of 32-bit counts.
- The tool controller selects among the tools in stock. The Platformizer tool builds the
  selected platform type and consumes one unit of it.

The model has two layers:

- `Movement` (movement.dfy) models the controller as values. A record `Motion` holds every
  field the controller updates, and there is one function per handler. The properties are
  lemmas, some about one handler and some about whole event sequences (`Run`).
- `Controllers.PlayerController` (player_controller.dfy) is a class with the controller's
  fields. Each method updates them step by step, as the C# does, and its `ensures` says the
  new state is exactly what the matching `Movement` function computes. The lemmas about
  `Movement` therefore hold of the object.

`AbilitySystem` (abilities.dfy), `InventorySystem` (inventory.dfy) and `Tools` (tools.dfy) are
classes over `map`/`seq` fields. The `Status`, `AddCount`/`ConsumeCount` and `Refreshed*Index`
functions specify them, and lemmas are proved about those functions.

The engine is outside the model. These are parameters:

- the ground overlap test and the wall raycast, as two booleans per tick;
- `Time.time`, as `now`;
- `Physics2D.gravity.y` and `Time.fixedDeltaTime`;
- the key presses and the mouse click.

The dash and cooldown coroutines become deadline fields. A `Resume(now)` step does what happens
when the `WaitForSeconds` of either coroutine has elapsed.

A rigid body impulse changes the velocity by impulse / mass. Mass is a tuning field, default 1.

Points where the code does less than one might expect, modelled as the code does it:

- Wall speeds come from the controller's own fields (`wallStickTime`, `wallSlideSpeed`,
  `wallFastSlideSpeed`, `wallClimbSpeed`). There is no per-wall speed profile and no cap on the
  climb speed (`WallVelocityCases`, `StickThenClimbScenario`).
- Disabling the controller does not cancel a running dash or restore gravity: `OnDisable`
  only unsubscribes the input events, so no cancellation is modelled.
- The double jump is not gated on DoubleJump alone: the wall jump sets `canDoubleJump`
  whenever WallClimb is unlocked, whatever the DoubleJump gate says, so with only WallClimb
  unlocked a wall jump is followed by an air jump (`WallJumpGrantsAirJumpWhileLocked`). With
  both locked no air jump is ever granted (`NoAirJumpWhileLocked`).
- Deadlines are not checked on the physics tick: the coroutines resume independently of it,
  so `Resume` is its own event.

Behaviours of the code that the proofs make explicit:

- The dash sets gravity to 0, but the next tick resets a zero gravity scale to 1 unless the
  player is wall sliding (`TickRestoresGravityMidDash`).
- Tap timestamps start at 0 and are reset to 0. A single tap in the first 0.3 s of play
  therefore counts as a double tap (`FirstTapEarlyCountsAsDouble`). An opposite tap resets
  the other direction's timestamp (`RightLeftRightNoDash`).
- The double-tap check uses the facing from before the move turns the player
  (`TapJudgedBeforeTurning`).
- The double jump is the same velocity change as the ground jump.
- `Abilities.IsAbilityUnlocked` reads `IsUnlocked`, which `IAbility` declares, but `Ability`
  only defines `isUnlocked` and does not define `Activate`/`Deactivate`. The model reads the
  flag that `Unlock` sets, which is evidently what is meant.
- Counts are C# `int`: `+=` and `--` wrap around, so decrementing `int.MinValue` gives
  `int.MaxValue` (`ConsumeCount`).
- The Platformizer's `Update` runs every frame whether or not it is the selected tool, so a
  click builds a platform even while another tool is selected (`Tools.Platformizer.Update`).

## Model

| member | source | states |
|---|---|---|
| Movement.Flip | Assets/Scripts/Controllers/PlayerController.cs:367 | turning round negates the facing sign |
| Movement.Spawned | Assets/Scripts/Controllers/PlayerController.cs:31-62 | a fresh player can dash, is neither dashing nor cooling down, has no double jump, no ground or wall contact, and both tap timestamps are 0 |
| Movement.TickDoubleJumpRefill | Assets/Scripts/Controllers/PlayerController.cs:159-171 | after a tick, canDoubleJump is true iff it was true before, or the tick is a landing with DoubleJump unlocked, or the wall ray hit with both WallClimb and DoubleJump unlocked |
| Movement.TickWallNeutralWithoutClimb | Assets/Scripts/Controllers/PlayerController.cs:432-437 | with WallClimb locked, the wall sensor's reading has no effect on canDoubleJump |
| Movement.TickSlidingAndGravity | Assets/Scripts/Controllers/PlayerController.cs:173-201 | after a tick, grounded and touching follow the sensors; sliding holds exactly on a wall in the air; gravity is 0 exactly while sliding; otherwise gravity is the old scale or 1 |
| Movement.TickRestoresGravityMidDash | Assets/Scripts/Controllers/PlayerController.cs:196-201 | a tick off the wall during a dash resets the dash's zero gravity to 1, and the dash keeps running |
| Movement.TickHorizontalVelocity | Assets/Scripts/Controllers/PlayerController.cs:189-194 | after a tick, vx is input x times moveSpeed, except while dashing, when the dash velocity is kept |
| Movement.TickVerticalVelocity | Assets/Scripts/Controllers/PlayerController.cs:173-207 | on a wall in the air, vy is the wall velocity and the contact time is kept only while contact and sliding continue; otherwise vy gets the fast-fall term in the air with the climb axis down, and is unchanged in every other case |
| Movement.WallVelocityCases | Assets/Scripts/Controllers/PlayerController.cs:463-506 | the wall velocity by case: slide speed without WallClimb, 0 inside the stick window, then climb speed, fast slide or slide by the sign of the climb axis, with no cap |
| Movement.StickThenClimbScenario | Assets/Scripts/Controllers/PlayerController.cs:57-60 | with the default tuning and climbing held, the player sticks for 0.4 s after contact and then climbs at 14 |
| Movement.JumpPriority | Assets/Scripts/Controllers/PlayerController.cs:326-345 | a jump press picks exactly one of: ground jump, wall jump (WallClimb unlocked, refills the double jump), air jump (uses it up), or nothing |
| Movement.WallJumpEffect | Assets/Scripts/Controllers/PlayerController.cs:360-372 | a wall jump sets the velocity to the impulse over the mass, away from the wall; it flips the facing, lets go of the wall, sets gravity to 1, refills the double jump and leaves the dash and taps alone |
| Movement.AirJumpsAfterFirstAreNoOps | Assets/Scripts/Controllers/PlayerController.cs:339-344 | in the air with no double jump left and no wall jump possible, any number of jump presses change nothing |
| Movement.ExactlyOneAirJump | Assets/Scripts/Controllers/PlayerController.cs:339-344 | in the air with the double jump available, n+1 presses act as one double jump |
| Movement.WallJumpGrantsAirJumpWhileLocked | Assets/Scripts/Controllers/PlayerController.cs:326-345 | with only WallClimb unlocked, a wall jump refills the air jump and the following press in the air jumps again |
| Movement.NoAirJumpWhileLocked | Assets/Scripts/Controllers/PlayerController.cs:326-345 | with DoubleJump and WallClimb locked, an air jump that is not available never becomes available over any event sequence |
| Movement.AirborneNoRefill | Assets/Scripts/Controllers/PlayerController.cs:163-170 | in the air with no landing and no wall hit in any tick, a used-up air jump stays used up and the player stays airborne and off the wall |
| Movement.AttemptDashGate | Assets/Scripts/Controllers/PlayerController.cs:272-304 | a dash starts iff Dash is unlocked, no dash is running, canDash holds and the dash does not point into the wall being slid on; a refused attempt changes nothing; a started one sets the dash velocity with vy 0, saves the gravity and sets the deadline now + dashDuration |
| Movement.DoubleTapRight | Assets/Scripts/Controllers/PlayerController.cs:241-254 | a right tap within 0.3 s of the last right tap attempts a dash right and resets both timestamps to 0; otherwise it records its time; the left timestamp is reset either way |
| Movement.DoubleTapLeft | Assets/Scripts/Controllers/PlayerController.cs:255-268 | the mirror image for a left tap |
| Movement.ReleaseChangesNoTimestamp | Assets/Scripts/Controllers/PlayerController.cs:214-229 | a move with x = 0 stores the input and changes nothing else |
| Movement.TapJudgedBeforeTurning | Assets/Scripts/Controllers/PlayerController.cs:214-229 | the wall-direction check of a double tap uses the facing from before the move turns the player |
| Movement.RightRightDashes | Assets/Scripts/Controllers/PlayerController.cs:239-254 | two right taps 0.1 s apart start a dash to the right |
| Movement.RightLeftRightNoDash | Assets/Scripts/Controllers/PlayerController.cs:239-268 | right, left, right within 0.3 s starts no dash: the left tap resets the right timestamp |
| Movement.FirstTapEarlyCountsAsDouble | Assets/Scripts/Controllers/PlayerController.cs:41-42 | because tap timestamps start at 0, a single tap in the first 0.3 s of play starts a dash |
| Movement.ResumeTiming | Assets/Scripts/Controllers/PlayerController.cs:307-322 | a dash ends only at or after its deadline; it then restores the saved gravity and starts the cooldown with deadline now + dashCooldown; canDash returns only at or after the cooldown deadline |
| Movement.TickPreservesInv | Assets/Scripts/Controllers/PlayerController.cs:157-211 | a tick keeps exactly one of can-dash / dashing / cooling-down, and keeps sliding only on a wall in the air |
| Movement.MovePreservesInv | Assets/Scripts/Controllers/PlayerController.cs:214-229 | a move event keeps the invariant |
| Movement.StepPreservesInv | Assets/Scripts/Controllers/PlayerController.cs:157-372 | every event keeps the invariant |
| Movement.RunPreservesInv | Assets/Scripts/Controllers/PlayerController.cs:157-372 | any sequence of events keeps the invariant |
| Movement.SpawnedInv | Assets/Scripts/Controllers/PlayerController.cs:31-62 | a fresh player satisfies the invariant |
| Movement.MoveKeepsTimersWhenUnavailable | Assets/Scripts/Controllers/PlayerController.cs:272-292 | while canDash is false, a move event leaves the dash timers alone |
| Movement.StepKeepsDashPending | Assets/Scripts/Controllers/PlayerController.cs:294-322 | a pending dash stays pending under any event except a resumption at or after the cooldown's end |
| Movement.NoDashBeforeCooldownEnds | Assets/Scripts/Controllers/PlayerController.cs:294-322 | after a dash starts at t0, no new dash can start over any event sequence until a resumption at or after t0 + dashDuration + dashCooldown |
| Movement.StartDashIsPending | Assets/Scripts/Controllers/PlayerController.cs:294-307 | a dash that starts at now is pending with its end at now + dashDuration |
| Movement.WallContactNeutralWithoutClimb | Assets/Scripts/Controllers/PlayerController.cs:432-437 | with WallClimb locked, no jumps and no ground contact, any event sequence leaves canDoubleJump unchanged |
| Movement.SustainedContactKeepsContactTime | Assets/Scripts/Controllers/PlayerController.cs:421-428 | while the wall stays in reach in the air and no jump happens, the player keeps sliding and the contact time keeps its first value |
| Controllers.PlayerController.constructor | Assets/Scripts/Controllers/PlayerController.cs:24-67 | field initialisation followed by Start gives the spawned state, with all three abilities registered and locked |
| Controllers.PlayerController.Start | Assets/Scripts/Controllers/PlayerController.cs:134-137 | registers DoubleJump, Dash and WallClimb, all locked |
| Controllers.PlayerController.Update | Assets/Scripts/Controllers/PlayerController.cs:140-155 | each pressed key unlocks its ability; the movement state is untouched |
| Controllers.PlayerController.FixedUpdate | Assets/Scripts/Controllers/PlayerController.cs:157-211 | the tick's new state is Movement.FixedUpdate, and the invariant is kept |
| Controllers.PlayerController.FixedUpdateStages | Assets/Scripts/Controllers/PlayerController.cs:157-207 | running the stages in order gives Movement.FixedUpdate |
| Controllers.PlayerController.ContactStages | Assets/Scripts/Controllers/PlayerController.cs:159-187 | ground sensing, the wall test and wall handling in order |
| Controllers.PlayerController.SampleGround | Assets/Scripts/Controllers/PlayerController.cs:159-171 | the ground stage of the tick |
| Controllers.PlayerController.UpdateWallSlide | Assets/Scripts/Controllers/PlayerController.cs:176-187 | wall handling on a wall in the air, or the end of a slide with gravity 1 |
| Controllers.PlayerController.ApplyHorizontalMovement | Assets/Scripts/Controllers/PlayerController.cs:189-194 | vx follows the input unless dashing |
| Controllers.PlayerController.ResetGravity | Assets/Scripts/Controllers/PlayerController.cs:196-201 | a zero gravity scale is reset to 1 when not sliding |
| Controllers.PlayerController.DetectWall | Assets/Scripts/Controllers/PlayerController.cs:412-449 | the wall ray's outcome on contact, sliding, contact time and the double jump |
| Controllers.PlayerController.HandleWallSlide | Assets/Scripts/Controllers/PlayerController.cs:452-507 | starts sliding if needed, switches gravity off and sets the wall velocity |
| Controllers.PlayerController.HandleFallFast | Assets/Scripts/Controllers/PlayerController.cs:375-378 | adds (multiplier - 1) times gravity times the step to vy |
| Controllers.PlayerController.HandleMove | Assets/Scripts/Controllers/PlayerController.cs:214-229 | stores the input, runs double-tap detection, faces the input, and keeps the invariant |
| Controllers.PlayerController.HandleClimb | Assets/Scripts/Controllers/PlayerController.cs:232-236 | stores the climb axis only |
| Controllers.PlayerController.DetectDoubleTap | Assets/Scripts/Controllers/PlayerController.cs:239-269 | the double-tap bookkeeping of Movement.DetectDoubleTap |
| Controllers.PlayerController.AttemptDash | Assets/Scripts/Controllers/PlayerController.cs:272-292 | starts the dash exactly when Movement.DashAllowed holds |
| Controllers.PlayerController.DashCoroutine | Assets/Scripts/Controllers/PlayerController.cs:294-307 | the dash up to its wait: dashing, no canDash, gravity saved then 0, dash velocity, deadline |
| Controllers.PlayerController.ResumeCoroutines | Assets/Scripts/Controllers/PlayerController.cs:307-322 | the elapsed wait of the dash or of the cooldown resumes as Movement.ResumeCoroutines; the invariant is kept |
| Controllers.PlayerController.DashCooldownCoroutine | Assets/Scripts/Controllers/PlayerController.cs:318-320 | starts the cooldown with deadline now + dashCooldown and changes nothing else |
| Controllers.PlayerController.HandleJump | Assets/Scripts/Controllers/PlayerController.cs:326-345 | the jump priority of Movement.HandleJump; the invariant is kept |
| Controllers.PlayerController.Jump | Assets/Scripts/Controllers/PlayerController.cs:348-351 | vy becomes jumpForce |
| Controllers.PlayerController.DoubleJump | Assets/Scripts/Controllers/PlayerController.cs:354-357 | the same change as the ground jump |
| Controllers.PlayerController.WallJump | Assets/Scripts/Controllers/PlayerController.cs:360-372 | zeroes the velocity, applies the impulse away from the wall, flips, lets go of the wall, gravity 1 |
| Controllers.PlayerController.AddImpulse | Assets/Scripts/Controllers/PlayerController.cs:365 | an impulse adds impulse / mass to the velocity and changes nothing else |
| AbilitySystem.Ability.constructor | Assets/Scripts/Abilities/Ability.cs:6 | a new ability is locked |
| AbilitySystem.Ability.Unlock | Assets/Scripts/Abilities/Ability.cs:8-12 | sets the flag and runs the hook once more |
| AbilitySystem.Ability.OnUnlock | Assets/Scripts/Abilities/Ability.cs:14 | the hook does nothing to the flag |
| AbilitySystem.AddSpec | Assets/Scripts/Abilities/Abilities.cs:11-18 | the first registration of a kind wins; the kind becomes registered and other kinds are kept |
| AbilitySystem.UnlockSpec | Assets/Scripts/Abilities/Abilities.cs:20-27 | only the named kind can change, and only to unlocked; the registered kinds stay the same |
| AbilitySystem.AddPresentIsNoOp | Assets/Scripts/Abilities/Abilities.cs:13-17 | registering an already registered kind changes nothing |
| AbilitySystem.UnlockAbsentIsNoOp | Assets/Scripts/Abilities/Abilities.cs:22-26 | unlocking an unregistered kind changes nothing, and it stays locked |
| AbilitySystem.AddThenUnlock | Assets/Scripts/Abilities/Abilities.cs:11-33 | register then unlock makes the kind report unlocked |
| AbilitySystem.UnlockLeavesOthers | Assets/Scripts/Abilities/Abilities.cs:20-33 | unlocking one kind leaves every other kind's answer unchanged |
| AbilitySystem.UnlockIsPermanent | Assets/Scripts/Abilities/Abilities.cs:11-33 | no sequence of registrations and unlocks locks an unlocked kind again |
| AbilitySystem.UntouchedKindUnchanged | Assets/Scripts/Abilities/Abilities.cs:11-33 | a kind no operation names keeps its answer |
| AbilitySystem.Abilities.constructor | Assets/Scripts/Abilities/Abilities.cs:9 | a new registry is empty |
| AbilitySystem.Abilities.AddAbility | Assets/Scripts/Abilities/Abilities.cs:11-18 | the dictionary gains the ability only if its kind is new; the status follows AddSpec |
| AbilitySystem.Abilities.UnlockAbility | Assets/Scripts/Abilities/Abilities.cs:20-27 | only the registered ability of that kind is modified; the status follows UnlockSpec |
| AbilitySystem.Abilities.IsAbilityUnlocked | Assets/Scripts/Abilities/Abilities.cs:29-33 | unlocked exactly when registered with its flag set; an unregistered kind is locked |
| InventorySystem.Wrap | Assets/Scripts/InventorySystem/Inventory.cs:24 | the 32-bit result is congruent to the exact one modulo 2^32, and equal when in range |
| InventorySystem.AddCount | Assets/Scripts/InventorySystem/Inventory.cs:19-25 | an absent key gets the quantity, a present one has it added with wrap-around, other keys are kept |
| InventorySystem.ConsumeCount | Assets/Scripts/InventorySystem/Inventory.cs:50-72 | an absent key changes nothing; a count above 1 drops by one; a count that reaches 0 or below removes the key, or is set to 1 when kept; MinValue wraps to MaxValue; other keys are kept and no key is added |
| InventorySystem.HasIffPositiveQuantity | Assets/Scripts/InventorySystem/Inventory.cs:41-45 | having a key is the same as a positive quantity, and an absent key has quantity 0 |
| InventorySystem.PlatformizerNeverRemoved | Assets/Scripts/InventorySystem/Inventory.cs:59-68 | once present, the Platformizer stays in the tool dictionary under any sequence of adds and consumes |
| InventorySystem.ConsumeCountsDown | Assets/Scripts/InventorySystem/Inventory.cs:98-109 | consuming n units from a stock of c leaves c - n units, and consuming c units removes the key |
| InventorySystem.Remove | Assets/Scripts/InventorySystem/Inventory.cs:62 | removing a key keeps exactly the other elements, and a sequence without repeats stays without repeats |
| InventorySystem.AddKeepsOrder | Assets/Scripts/InventorySystem/Inventory.cs:19-25 | after adding, the enumeration order (a new key last) still lists every key of the dictionary exactly once |
| InventorySystem.ConsumeKeepsOrder | Assets/Scripts/InventorySystem/Inventory.cs:50-72 | after consuming, the enumeration order (a removed key taken out) still lists every key of the dictionary exactly once |
| InventorySystem.Stocked | Assets/Scripts/InventorySystem/Inventory.cs:114-134 | the tools of the enumeration order with a positive count whose component is attached, exactly those, without repeats when the order has none |
| InventorySystem.Inventory.constructor | Assets/Scripts/InventorySystem/Inventory.cs:11-14 | both dictionaries and both enumeration orders start empty |
| InventorySystem.Inventory.AddTool | Assets/Scripts/InventorySystem/Inventory.cs:19-36 | the tool count follows AddCount and a new tool type is enumerated last; a new tool type also attaches its component; the orders stay consistent |
| InventorySystem.Inventory.HasTool | Assets/Scripts/InventorySystem/Inventory.cs:41-45 | true iff the tool's quantity is positive |
| InventorySystem.Inventory.ConsumeTool | Assets/Scripts/InventorySystem/Inventory.cs:50-72 | the tool count follows ConsumeCount, keeping the Platformizer at 1; a removed type leaves the enumeration order; the orders stay consistent |
| InventorySystem.Inventory.AddPlatform | Assets/Scripts/InventorySystem/Inventory.cs:77-85 | the platform count follows AddCount and a new type is enumerated last; the orders stay consistent |
| InventorySystem.Inventory.HasPlatform | Assets/Scripts/InventorySystem/Inventory.cs:90-93 | true iff the platform's quantity is positive |
| InventorySystem.Inventory.ConsumePlatform | Assets/Scripts/InventorySystem/Inventory.cs:98-109 | the platform count follows ConsumeCount, no key kept; a removed type leaves the enumeration order |
| InventorySystem.Inventory.GetTools | Assets/Scripts/InventorySystem/Inventory.cs:114-134 | walking the dictionary in its enumeration order, the tools with a positive count whose component is attached (Stocked); each exactly once |
| InventorySystem.Inventory.GetPlatforms | Assets/Scripts/InventorySystem/Inventory.cs:139-142 | the platform types in the dictionary's enumeration order, each exactly once, whatever its count |
| InventorySystem.Inventory.GetPlatformQuantity | Assets/Scripts/InventorySystem/Inventory.cs:147-150 | the count, or 0 when absent |
| InventorySystem.Inventory.GetToolQuantity | Assets/Scripts/InventorySystem/Inventory.cs:155-159 | the count, or 0 when absent |
| Tools.Clamp | Assets/Scripts/Tools/Platformizer.cs:78 | the result lies in [min, max], is the value when it is in range, min below it and max above it |
| Tools.RefreshedPlatformIndex | Assets/Scripts/Tools/Platformizer.cs:71-79 | -1 exactly for an empty list; otherwise a valid position that keeps an index already in range, is 0 for a negative index and n - 1 for one past the end |
| Tools.RefreshedToolIndex | Assets/Scripts/Tools/ToolController.cs:134-138 | unchanged when below the list length, count - 1 when at or past it, and never below -1 from -1 or above |
| Tools.Placement | Assets/Scripts/Tools/Platformizer.cs:207-231 | what a click builds: nothing from an empty list; otherwise only a listed type that is in stock and has a prefab |
| Tools.PlacementBuildsSelected | Assets/Scripts/Tools/Platformizer.cs:217-231 | with the index in range, a click builds the selected type exactly when it is in stock and has a prefab, and never another type |
| Tools.PlacementLive | Assets/Scripts/Tools/Platformizer.cs:207-231 | when every listed type is in stock and has a prefab, a click always builds a platform |
| Tools.Platformizer.constructor | Assets/Scripts/Tools/Platformizer.cs:37-44 | the prefab table and the list of platforms in stock are built, and the index is 0 or -1 for an empty list |
| Tools.Platformizer.InitializePlatformPrefabs | Assets/Scripts/Tools/Platformizer.cs:53-63 | the table holds, for each type with some assigned prefab, the first one assigned |
| Tools.Platformizer.UpdateAvailablePlatforms | Assets/Scripts/Tools/Platformizer.cs:65-83 | the list is the inventory's platform types in enumeration order; the index is refreshed |
| Tools.Platformizer.SwitchPlatform | Assets/Scripts/Tools/Platformizer.cs:85-107 | after the refresh, an index in range is selected and any other index is ignored |
| Tools.Platformizer.Update | Assets/Scripts/Tools/Platformizer.cs:47-51 | a click places a platform exactly as PlacePlatform does; without a click nothing changes; tools and prefabs are never touched |
| Tools.Platformizer.PlacePlatform | Assets/Scripts/Tools/Platformizer.cs:207-246 | after refreshing, the platform at the refreshed index is built exactly when it is in stock and has a prefab (Placement); then it is recorded, one unit consumed, the list refreshed and the index clamped to it; otherwise inventory and built are unchanged and the index is the refreshed one |
| Tools.ToolController.constructor | Assets/Scripts/Tools/ToolController.cs:25-36 | nothing is selected and every tool sprite is hidden |
| Tools.ToolController.Start | Assets/Scripts/Tools/ToolController.cs:38-47 | one Platformizer is added (attaching its component when it is new), the list is the tools in stock in enumeration order, the index is 0 and the first tool is selected, or nothing for an empty list; from an empty inventory that is the Platformizer |
| Tools.ToolController.HideAllSprites | Assets/Scripts/Tools/ToolController.cs:92-95 | every sprite is hidden and nothing else changes |
| Tools.ToolController.IsSelectedTool | Assets/Scripts/Tools/ToolController.cs:101-104 | false with nothing selected; otherwise true exactly for the kind whose sprite is shown |
| Tools.ToolController.UpdateAvailableTools | Assets/Scripts/Tools/ToolController.cs:130-139 | the list is what GetTools returns (Stocked); an index past the end moves to the last entry |
| Tools.ToolController.SelectTool | Assets/Scripts/Tools/ToolController.cs:144-175 | selects the tool at the index, or nothing out of range; only its sprite is shown |
| Tools.ToolController.HandleSwitchTool | Assets/Scripts/Tools/ToolController.cs:109-125 | after the refresh to the tools in stock, with at most one tool nothing else changes; otherwise the next tool cyclically is selected |
| Tools.ToolController.UseTool | Assets/Scripts/Tools/Jetpack.cs:41-55 | using the jetpack consumes one and a used-up jetpack leaves the enumeration order; using the grappler or the Platformizer changes nothing |
| Tools.ToolController.HandleUseTool | Assets/Scripts/Tools/ToolController.cs:180-216 | uses the selected tool (a used-up jetpack leaves the enumeration order) and refreshes; if it is still listed it stays selected at the refreshed index; if used up, index 0 and the first tool left are selected, or nothing with index -1; with nothing selected nothing changes |
| Tools.ToolController.HandleSwitchPlatform | Assets/Scripts/Tools/ToolController.cs:221-231 | key n selects platform n-1 (after the refresh) only while the Platformizer is the selected tool; nothing is built and the prefab table is kept |

## Left out

- Screen wrapping (`WrapAround`): it moves the transform's position, which the model does not
  track.
- Positions, the ground and wall sensors' geometry, `_currentWall` and the vertical component
  of the move input: the sensors are boolean parameters, and the y of the input is never read.
- Floating point: velocities and times are reals, with no `float` rounding.
- The physics engine's own integration of gravity and velocity between ticks.
- The input event bus: handlers are called directly and `OnEnable`/`OnDisable` only
  (un)subscribe.
- Cancelling a dash when the controller is disabled: the code has no such step.
- The parameters of `DashAbility` (speed and duration) are stored but never read by the
  controller. The `IAbility` interface and the unlocker pickups are also left out.
- The Platformizer's selection cosmetics: its `OnSelect`/`OnDeselect` show and hide the
  placement preview and the placement radius indicator. Where a platform is built is also left
  out; the model records only its type in `built`.
- The Grappler's and the Jetpack's physics (`ActivateGrappler`, `ActivateJetpack`,
  `ContinuousThrust`, `UpdateTool`). This includes `Grappler.OnDeselect`
  (Assets/Scripts/Tools/Grappler.cs:143-147), which calls `CancelGrapple` (lines 120-134) on
  every deselect, whether or not a grapple is active. It sets the player's gravity scale to the
  value read once in `Grappler.Start` (line 36) and sets the player's velocity to zero, whenever
  `SelectTool` or `HandleSwitchTool` deselects the grappler; this also overrides the zero
  gravity of a running dash. The tool controller's model does not touch the player's body. The effect of each tool's `Use`
  on the inventory is modelled.
- Null references: a missing rigid body, camera, sprite or inventory is not modelled; the
  inventory and the sprites are assumed present.
- Runtime types: tools and abilities are identified by `ToolKind` and `AbilityKind` values
  rather than by their C# types, and the unlock keys are three booleans per frame.
- Dictionary enumeration order after a removal: the inventory's `toolOrder` and
  `platformOrder` fields hold the order in which each dictionary enumerates its keys, with a new
  key last and a removed key taken out. .NET's `Dictionary` does this until a key is removed;
  a key added after a removal may reuse the freed slot and then be enumerated where the removed
  key was. The model always appends it.
- Unlocks during a sequence of events: `Run` takes the unlocked abilities as one `Gates` value
  for the whole sequence. Each handler reads the gates afresh, so a sequence that spans an unlock
  is two runs, one per gate value.
