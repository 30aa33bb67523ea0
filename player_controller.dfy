/**
 * The player controller as an object: its fields are the controller's own fields and the
 * part of the rigid body it drives, and every handler updates them step by step as the
 * controller does. Each method is proved to produce exactly the state the corresponding
 * function of Movement computes, so the properties proved there hold of the object.
 */
module Controllers {
  import opened Movement
  import opened AbilitySystem

  class PlayerController {
    const tuning: Tuning
    /** The controller's own registry, filled in at start. */
    const abilities: Abilities

    // The controller's state, with related fields grouped into records.
    /** The rigid body's velocity and gravity scale. */
    var body: Body
    /** The last horizontal move input and climb axis value. */
    var input: Input
    /** The sign of the horizontal scale, i.e. the facing. */
    var facing: Sign
    /** Grounded, touching a wall, sliding on it, and when the wall contact began. */
    var contact: Contact
    var canDoubleJump: bool
    /** isDashing and canDash, with the suspended coroutines as deadlines: the dash waits until
        dashEndTime and then restores savedGravity; the cooldown (running while coolingDown)
        waits until cooldownEndTime. */
    var dash: DashTimers
    /** The times of the last tap to the left and to the right. */
    var taps: Taps

    /** The fields as a Movement value. */
    function Snapshot(): Motion
      reads this
    {
      Motion(body, input, facing, contact, canDoubleJump, dash, taps)
    }

    /** What the registry currently reports for the three abilities. */
    function Unlocked(): Gates
      reads abilities, abilities.abilities.Values
    {
      Gates(abilities.IsAbilityUnlocked(AbilityKind.DoubleJump),
            abilities.IsAbilityUnlocked(AbilityKind.Dash),
            abilities.IsAbilityUnlocked(AbilityKind.WallClimb))
    }

    ghost predicate Valid()
      reads this, abilities, abilities.abilities.Values
    {
      && ValidTuning(tuning)
      && abilities.Valid()
      && AbilityKind.DoubleJump in abilities.abilities && AbilityKind.Dash in abilities.abilities
      && AbilityKind.WallClimb in abilities.abilities
      && Inv(Snapshot())
    }

    /** Field initialisation followed by start: the three abilities are registered, all locked. */
    constructor (tuning: Tuning, gravityScale: real, facing: Sign)
      requires ValidTuning(tuning)
      ensures Valid() && fresh(abilities)
      ensures Snapshot() == Spawned(gravityScale, facing)
      ensures Unlocked() == Gates(false, false, false)
    {
      this.tuning := tuning;
      var registry := new Abilities();
      abilities := registry;
      body := Body(0.0, 0.0, gravityScale);
      input := Input(0.0, 0.0);
      this.facing := facing;
      contact := Contact(false, false, false, 0.0);
      canDoubleJump := false;
      dash := DashTimers(false, true, false, 0.0, 0.0, 0.0);
      taps := Taps(0.0, 0.0);
      new;
      Start();
      SpawnedInv(gravityScale, facing);
    }

    /** Start: register one locked instance of each ability. */
    method Start()
      requires abilities.Valid() && abilities.abilities == map[]
      modifies abilities
      ensures abilities.Valid()
      ensures abilities.abilities.Keys ==
              {AbilityKind.DoubleJump, AbilityKind.Dash, AbilityKind.WallClimb}
      ensures Unlocked() == Gates(false, false, false)
    {
      var doubleJump := new Ability(AbilityKind.DoubleJump);
      abilities.AddAbility(doubleJump);
      var dash := new Ability(AbilityKind.Dash);
      abilities.AddAbility(dash);
      var wallClimb := new Ability(AbilityKind.WallClimb);
      abilities.AddAbility(wallClimb);
    }

    /** The prototype unlock keys: each pressed key unlocks its ability. */
    method Update(alpha1: bool, alpha2: bool, alpha3: bool)
      requires Valid()
      modifies abilities.abilities.Values
      ensures Valid() && Snapshot() == old(Snapshot())
      ensures Unlocked() == Gates(old(Unlocked()).doubleJump || alpha1, old(Unlocked()).dash || alpha2,
                                  old(Unlocked()).wallClimb || alpha3)
    {
      if alpha1 {
        abilities.UnlockAbility(AbilityKind.DoubleJump);
      }
      if alpha2 {
        abilities.UnlockAbility(AbilityKind.Dash);
      }
      if alpha3 {
        abilities.UnlockAbility(AbilityKind.WallClimb);
      }
    }

    /** One physics step, given the ground overlap test, the wall raycast, the world gravity and
        the fixed step; it keeps the invariant. */
    method FixedUpdate(now: real, groundHit: bool, wallHit: bool, gravityY: real, fixedDt: real)
      requires Valid()
      modifies this
      ensures Valid()
      ensures Snapshot() == Movement.FixedUpdate(old(Snapshot()), tuning, Unlocked(), now, groundHit,
                                                 wallHit, gravityY, fixedDt)
    {
      ghost var s0 := Snapshot();
      ghost var g := Unlocked();
      FixedUpdateStages(g, now, groundHit, wallHit, gravityY, fixedDt);
      assert Unlocked() == g;
      TickPreservesInv(s0, tuning, g, now, groundHit, wallHit, gravityY, fixedDt);
    }

    /** The stages of the physics step, in the order the step runs them. */
    method FixedUpdateStages(ghost g: Gates, now: real, groundHit: bool, wallHit: bool, gravityY: real,
                             fixedDt: real)
      requires g == Unlocked()
      modifies this
      ensures Snapshot() == Movement.FixedUpdate(old(Snapshot()), tuning, g, now, groundHit, wallHit,
                                                 gravityY, fixedDt)
    {
      ContactStages(g, now, groundHit, wallHit);
      ApplyHorizontalMovement();
      ResetGravity();
      if !contact.isGrounded && !contact.isWallSliding && input.climb < 0.0 {
        HandleFallFast(gravityY, fixedDt);
      }
    }

    /** The ground test, the wall test and the wall handling, the stages that consult the
        unlocked abilities. */
    method ContactStages(ghost g: Gates, now: real, groundHit: bool, wallHit: bool)
      requires g == Unlocked()
      modifies this
      ensures Snapshot() == WallStage(Movement.DetectWall(Movement.SampleGround(old(Snapshot()), g,
                                                                                groundHit),
                                                          g, now, wallHit), tuning, g, now)
    {
      SampleGround(groundHit);
      assert Unlocked() == g;
      DetectWall(now, wallHit);
      assert Unlocked() == g;
      UpdateWallSlide(now);
    }

    /** The ground overlap test's outcome; a landing refills the double jump if it is unlocked. */
    method SampleGround(groundHit: bool)
      modifies this
      ensures Snapshot() == Movement.SampleGround(old(Snapshot()), Unlocked(), groundHit)
    {
      var wasGrounded := contact.isGrounded;
      contact := contact.(isGrounded := groundHit);
      if contact.isGrounded && !wasGrounded {
        if abilities.IsAbilityUnlocked(AbilityKind.DoubleJump) {
          canDoubleJump := true;
        }
      }
    }

    /** Wall handling on a wall in the air; otherwise a slide still flagged is stopped. */
    method UpdateWallSlide(now: real)
      modifies this
      ensures Snapshot() == WallStage(old(Snapshot()), tuning, Unlocked(), now)
    {
      if contact.isTouchingWall && !contact.isGrounded {
        HandleWallSlide(now);
      } else if contact.isWallSliding {
        contact := contact.(isWallSliding := false);
        body := body.(gravityScale := 1.0);
      }
    }

    /** The horizontal velocity follows the input unless a dash is running. */
    method ApplyHorizontalMovement()
      modifies this
      ensures Snapshot() == MoveStage(old(Snapshot()), tuning)
    {
      if !dash.isDashing {
        body := body.(vx := input.x * tuning.moveSpeed);
      }
    }

    /** A zero gravity scale is reset when not sliding. */
    method ResetGravity()
      modifies this
      ensures Snapshot() == GravityStage(old(Snapshot()))
    {
      if !contact.isWallSliding && body.gravityScale == 0.0 {
        body := body.(gravityScale := 1.0);
      }
    }

    /** The wall raycast's outcome: a new contact is timed and starts a slide; a hit may refill the
        double jump; no hit ends contact and sliding. */
    method DetectWall(now: real, wallHit: bool)
      modifies this
      ensures Snapshot() == Movement.DetectWall(old(Snapshot()), Unlocked(), now, wallHit)
    {
      if wallHit {
        if !contact.isTouchingWall {
          contact := contact.(wallContactTime := now, isWallSliding := true);
        }
        contact := contact.(isTouchingWall := true);
        if abilities.IsAbilityUnlocked(AbilityKind.WallClimb)
           && abilities.IsAbilityUnlocked(AbilityKind.DoubleJump) {
          canDoubleJump := true;
        }
      } else {
        contact := contact.(isTouchingWall := false, isWallSliding := false);
      }
    }

    /** Stick, slide, climb or fast-slide on the wall, with gravity switched off. */
    method HandleWallSlide(now: real)
      modifies this
      ensures Snapshot() == Movement.HandleWallSlide(old(Snapshot()), tuning, Unlocked(), now)
    {
      if !contact.isWallSliding {
        contact := contact.(isWallSliding := true, wallContactTime := now);
      }
      body := body.(gravityScale := 0.0);
      if !abilities.IsAbilityUnlocked(AbilityKind.WallClimb) {
        body := body.(vy := -tuning.wallSlideSpeed);
      } else {
        var timeSinceWallContact := now - contact.wallContactTime;
        if timeSinceWallContact < tuning.wallStickTime {
          body := body.(vy := 0.0);
        } else {
          var verticalVelocity: real;
          if input.climb > 0.0 {
            verticalVelocity := tuning.wallClimbSpeed;
          } else if input.climb < 0.0 {
            verticalVelocity := -tuning.wallFastSlideSpeed;
          } else {
            verticalVelocity := -tuning.wallSlideSpeed;
          }
          body := body.(vy := verticalVelocity);
        }
      }
    }

    method HandleFallFast(gravityY: real, fixedDt: real)
      modifies this
      ensures Snapshot() == Movement.HandleFallFast(old(Snapshot()), tuning, gravityY, fixedDt)
    {
      var extra := gravityY * (tuning.fallFastMultiplier - 1.0) * fixedDt;
      body := body.(vy := body.vy + extra);
    }

    /** A move event at time now with horizontal input x. */
    method HandleMove(now: real, x: real)
      requires Valid()
      modifies this
      ensures Valid()
      ensures Snapshot() == Movement.HandleMove(old(Snapshot()), tuning, Unlocked(), now, x)
    {
      ghost var s0 := Snapshot();
      input := input.(x := x);
      DetectDoubleTap(now, x);
      if x < 0.0 {
        facing := -1;
      } else if x > 0.0 {
        facing := 1;
      }
      MovePreservesInv(s0, tuning, Unlocked(), now, x);
    }

    method HandleClimb(value: real)
      requires Valid()
      modifies this
      ensures Valid()
      ensures Snapshot() == Movement.HandleClimb(old(Snapshot()), value)
    {
      input := input.(climb := value);
    }

    method DetectDoubleTap(now: real, horizontalInput: real)
      modifies this
      ensures Snapshot() == Movement.DetectDoubleTap(old(Snapshot()), tuning, Unlocked(), now,
                                                     horizontalInput)
    {
      if horizontalInput > 0.0 {
        if now - taps.right < DoubleTapThreshold {
          AttemptDash(now, 1);
          taps := taps.(right := 0.0);
        } else {
          taps := taps.(right := now);
        }
        taps := taps.(left := 0.0);
      } else if horizontalInput < 0.0 {
        if now - taps.left < DoubleTapThreshold {
          AttemptDash(now, -1);
          taps := taps.(left := 0.0);
        } else {
          taps := taps.(left := now);
        }
        taps := taps.(right := 0.0);
      }
    }

    method AttemptDash(now: real, direction: Sign)
      modifies this
      ensures Snapshot() == Movement.AttemptDash(old(Snapshot()), tuning, Unlocked(), now, direction)
    {
      if abilities.IsAbilityUnlocked(AbilityKind.Dash) && !dash.isDashing && dash.canDash {
        var isDashingTowardsWall := contact.isWallSliding &&
          ((direction > 0 && facing > 0) || (direction < 0 && facing < 0));
        if !isDashingTowardsWall {
          DashCoroutine(now, direction);
        }
      }
    }

    /** The dash coroutine up to its wait; the wait's end is recorded as dashEndTime. */
    method DashCoroutine(now: real, direction: Sign)
      modifies this
      ensures Snapshot() == StartDash(old(Snapshot()), tuning, now, direction)
    {
      dash := dash.(isDashing := true, canDash := false);
      var originalGravity := body.gravityScale;
      body := body.(gravityScale := 0.0);
      body := body.(vx := (direction as real) * tuning.dashSpeed * tuning.moveSpeed, vy := 0.0);
      dash := dash.(savedGravity := originalGravity, dashEndTime := now + tuning.dashDuration);
    }

    /** Resumes whichever coroutine's wait has elapsed by time now: the end of the dash restores
        the saved gravity and starts the cooldown; the end of the cooldown re-arms the dash. */
    method ResumeCoroutines(now: real)
      requires Valid()
      modifies this
      ensures Valid()
      ensures Snapshot() == Movement.ResumeCoroutines(old(Snapshot()), tuning, now)
    {
      ghost var s0 := Snapshot();
      if dash.isDashing && now >= dash.dashEndTime {
        body := body.(gravityScale := dash.savedGravity);
        dash := dash.(isDashing := false);
        DashCooldownCoroutine(now);
      } else if dash.coolingDown && now >= dash.cooldownEndTime {
        dash := dash.(coolingDown := false, canDash := true);
      }
      StepPreservesInv(s0, tuning, Unlocked(), Resume(now));
    }

    /** The cooldown coroutine up to its wait. */
    method DashCooldownCoroutine(now: real)
      modifies this
      ensures dash == old(dash).(coolingDown := true, cooldownEndTime := now + tuning.dashCooldown)
      ensures body == old(body) && input == old(input) && facing == old(facing)
      ensures contact == old(contact) && canDoubleJump == old(canDoubleJump) && taps == old(taps)
    {
      dash := dash.(coolingDown := true, cooldownEndTime := now + tuning.dashCooldown);
    }

    method HandleJump()
      requires Valid()
      modifies this
      ensures Valid()
      ensures Snapshot() == Movement.HandleJump(old(Snapshot()), tuning, Unlocked())
    {
      ghost var s0 := Snapshot();
      if contact.isGrounded {
        Jump();
      } else if contact.isWallSliding && abilities.IsAbilityUnlocked(AbilityKind.WallClimb) {
        WallJump();
        canDoubleJump := true;
      } else if canDoubleJump {
        DoubleJump();
        canDoubleJump := false;
      }
      StepPreservesInv(s0, tuning, Unlocked(), JumpPressed);
    }

    method Jump()
      modifies this
      ensures Snapshot() == Movement.Jump(old(Snapshot()), tuning)
    {
      body := body.(vy := tuning.jumpForce);
    }

    /** The same change of velocity as the ground jump. */
    method DoubleJump()
      modifies this
      ensures Snapshot() == Movement.Jump(old(Snapshot()), tuning)
    {
      body := body.(vy := tuning.jumpForce);
    }

    /** Stop, push off the wall with an impulse, turn round, and let go of the wall. */
    method WallJump()
      requires ValidTuning(tuning)
      modifies this
      ensures Snapshot() == Movement.WallJump(old(Snapshot()), tuning)
    {
      var jumpDirection := -(facing as real);
      body := body.(vx := 0.0, vy := 0.0);
      AddImpulse(jumpDirection * tuning.wallJumpHorizontalForce, tuning.wallJumpVerticalForce);
      facing := Flip(facing);
      contact := contact.(isWallSliding := false, isTouchingWall := false);
      body := body.(gravityScale := 1.0);
    }

    /** An impulse changes the velocity by the impulse divided by the mass. */
    method AddImpulse(ix: real, iy: real)
      requires ValidTuning(tuning)
      modifies this
      ensures body == old(body).(vx := old(body).vx + ix / tuning.mass,
                                 vy := old(body).vy + iy / tuning.mass)
      ensures input == old(input) && facing == old(facing) && contact == old(contact)
      ensures canDoubleJump == old(canDoubleJump) && dash == old(dash) && taps == old(taps)
    {
      body := body.(vx := body.vx + ix / tuning.mass, vy := body.vy + iy / tuning.mass);
    }
  }
}
