/**
 * The player's movement state machine as values: one record holding every
 * field the controller updates, one function per handler of the controller,
 * and the properties the handlers promise stated as lemmas.
 *
 * The engine is outside the model: the ground overlap test, the wall raycast,
 * the clock, the world gravity and the fixed time step are parameters, and the
 * two coroutines of the dash are replaced by deadline fields that a resume
 * step checks.
 */
module Movement {

  /** The sign of transform.localScale.x: 1 when facing right, -1 when facing left. */
  type Sign = x: int | x == 1 || x == -1 witness 1

  /** Two taps in the same direction closer together than this start a dash (seconds). */
  const DoubleTapThreshold: real := 0.3

  /** The controller's serialized tuning fields, plus the body's mass. */
  datatype Tuning = Tuning(
    moveSpeed: real,
    jumpForce: real,
    fallFastMultiplier: real,
    dashSpeed: real,
    dashDuration: real,
    dashCooldown: real,
    wallStickTime: real,
    wallSlideSpeed: real,
    wallFastSlideSpeed: real,
    wallClimbSpeed: real,
    wallJumpHorizontalForce: real,
    wallJumpVerticalForce: real,
    mass: real)

  /** The values the controller declares as its field initialisers; a fresh body has mass 1. */
  const DefaultTuning: Tuning :=
    Tuning(10.0, 12.0, 4.0, 4.0, 0.2, 4.0, 0.4, 10.0, 16.0, 14.0, 12.0, 16.0, 1.0)

  /** A rigid body's mass is positive, so an impulse can be turned into a velocity change. */
  predicate ValidTuning(t: Tuning) {
    t.mass > 0.0
  }

  /** Which of the three abilities the registry reports unlocked. */
  datatype Gates = Gates(doubleJump: bool, dash: bool, wallClimb: bool)

  /** The part of the rigid body the controller reads and writes. */
  datatype Body = Body(vx: real, vy: real, gravityScale: real)

  /** The last horizontal move input and the last climb axis value. */
  datatype Input = Input(x: real, climb: real)

  /** Ground and wall contact, and when the current wall contact began. */
  datatype Contact = Contact(isGrounded: bool, isTouchingWall: bool, isWallSliding: bool,
                             wallContactTime: real)

  /**
   * The dash and its two coroutines: isDashing with the deadline dashEndTime and the gravity
   * saved at the start stands for the suspended dash coroutine; coolingDown with the deadline
   * cooldownEndTime stands for the suspended cooldown coroutine.
   */
  datatype DashTimers = DashTimers(isDashing: bool, canDash: bool, coolingDown: bool,
                                   dashEndTime: real, savedGravity: real, cooldownEndTime: real)

  /** The time of the last tap to the left and to the right. */
  datatype Taps = Taps(left: real, right: real)

  /** Everything the controller changes. */
  datatype Motion = Motion(
    body: Body,
    input: Input,
    facing: Sign,
    contact: Contact,
    canDoubleJump: bool,
    dash: DashTimers,
    taps: Taps)

  /** The opposite facing. */
  function Flip(s: Sign): (r: Sign)
    ensures r as int == -(s as int)
  {
    if s == 1 then -1 else 1
  }

  /** The state of a freshly spawned player: every flag false except canDash, every timestamp 0. */
  function Spawned(gravityScale: real, facing: Sign): (m: Motion)
    ensures m.dash.canDash && !m.dash.isDashing && !m.dash.coolingDown && !m.canDoubleJump
    ensures !m.contact.isGrounded && !m.contact.isTouchingWall && !m.contact.isWallSliding
    ensures m.taps == Taps(0.0, 0.0) && m.body.gravityScale == gravityScale
  {
    Motion(Body(0.0, 0.0, gravityScale), Input(0.0, 0.0), facing,
           Contact(false, false, false, 0.0), false,
           DashTimers(false, true, false, 0.0, 0.0, 0.0), Taps(0.0, 0.0))
  }

  // ---------------------------------------------------------------------
  // The physics tick, stage by stage
  // ---------------------------------------------------------------------

  /** Ground sensing: a landing edge refills the double jump when DoubleJump is unlocked. */
  function SampleGround(m: Motion, g: Gates, groundHit: bool): Motion
  {
    var landed := groundHit && !m.contact.isGrounded;
    m.(contact := m.contact.(isGrounded := groundHit),
       canDoubleJump := if landed && g.doubleJump then true else m.canDoubleJump)
  }

  /** The wall raycast: a new contact records its time and starts sliding; a hit refills the double
      jump when WallClimb and DoubleJump are both unlocked; no hit ends contact and sliding. */
  function DetectWall(m: Motion, g: Gates, now: real, wallHit: bool): Motion
  {
    if wallHit then
      var c := m.contact;
      var c1 := if !c.isTouchingWall then c.(wallContactTime := now, isWallSliding := true) else c;
      m.(contact := c1.(isTouchingWall := true),
         canDoubleJump := if g.wallClimb && g.doubleJump then true else m.canDoubleJump)
    else
      m.(contact := m.contact.(isTouchingWall := false, isWallSliding := false))
  }

  /** The vertical velocity wall handling imposes, from the controller's own wall speeds. */
  function WallVelocity(t: Tuning, g: Gates, now: real, contactTime: real, climbInput: real): real
  {
    if !g.wallClimb then -t.wallSlideSpeed
    else if now - contactTime < t.wallStickTime then 0.0
    else if climbInput > 0.0 then t.wallClimbSpeed
    else if climbInput < 0.0 then -t.wallFastSlideSpeed
    else -t.wallSlideSpeed
  }

  /** Wall handling: (re)start sliding, switch gravity off, impose the wall velocity; vx is kept. */
  function HandleWallSlide(m: Motion, t: Tuning, g: Gates, now: real): Motion
  {
    var c := if !m.contact.isWallSliding then m.contact.(isWallSliding := true, wallContactTime := now)
             else m.contact;
    m.(contact := c,
       body := Body(m.body.vx, WallVelocity(t, g, now, c.wallContactTime, m.input.climb), 0.0))
  }

  /** Wall handling on a wall in the air; otherwise a slide still flagged is stopped with gravity 1. */
  function WallStage(m: Motion, t: Tuning, g: Gates, now: real): Motion
  {
    if m.contact.isTouchingWall && !m.contact.isGrounded then HandleWallSlide(m, t, g, now)
    else if m.contact.isWallSliding then
      m.(contact := m.contact.(isWallSliding := false), body := m.body.(gravityScale := 1.0))
    else m
  }

  /** Horizontal movement from the input, skipped while dashing. */
  function MoveStage(m: Motion, t: Tuning): Motion
  {
    if !m.dash.isDashing then m.(body := m.body.(vx := m.input.x * t.moveSpeed)) else m
  }

  /** A zero gravity scale is reset to 1 whenever the player is not sliding. */
  function GravityStage(m: Motion): Motion
  {
    if !m.contact.isWallSliding && m.body.gravityScale == 0.0
    then m.(body := m.body.(gravityScale := 1.0)) else m
  }

  /** Fast fall: add (multiplier - 1) times the world gravity over one fixed step to vy. */
  function HandleFallFast(m: Motion, t: Tuning, gravityY: real, fixedDt: real): Motion
  {
    m.(body := m.body.(vy := m.body.vy + gravityY * (t.fallFastMultiplier - 1.0) * fixedDt))
  }

  /** Fast fall only in the air, off the wall, with the climb axis pushed down. */
  function FallStage(m: Motion, t: Tuning, gravityY: real, fixedDt: real): Motion
  {
    if !m.contact.isGrounded && !m.contact.isWallSliding && m.input.climb < 0.0
    then HandleFallFast(m, t, gravityY, fixedDt) else m
  }

  /** One FixedUpdate, with the two sensor readings and the engine's gravity and step as inputs. */
  function FixedUpdate(m: Motion, t: Tuning, g: Gates, now: real, groundHit: bool, wallHit: bool,
                       gravityY: real, fixedDt: real): Motion
  {
    var m1 := SampleGround(m, g, groundHit);
    var m2 := DetectWall(m1, g, now, wallHit);
    var m3 := WallStage(m2, t, g, now);
    var m4 := MoveStage(m3, t);
    var m5 := GravityStage(m4);
    FallStage(m5, t, gravityY, fixedDt)
  }

  // ---------------------------------------------------------------------
  // Input handlers
  // ---------------------------------------------------------------------

  /** The climb axis is only stored; the tick reads it. */
  function HandleClimb(m: Motion, value: real): Motion
  {
    m.(input := m.input.(climb := value))
  }

  /** A dash is refused while the registry says locked, while dashing, while on cooldown,
      and towards the wall being slid on. */
  predicate DashAllowed(m: Motion, g: Gates, direction: Sign)
  {
    var towardsWall := m.contact.isWallSliding &&
      ((direction > 0 && m.facing > 0) || (direction < 0 && m.facing < 0));
    g.dash && !m.dash.isDashing && m.dash.canDash && !towardsWall
  }

  /** The part of the dash coroutine before its first wait, with the end of the wait as a deadline. */
  function StartDash(m: Motion, t: Tuning, now: real, direction: Sign): Motion
  {
    m.(dash := m.dash.(isDashing := true, canDash := false,
                       savedGravity := m.body.gravityScale,
                       dashEndTime := now + t.dashDuration),
       body := Body((direction as real) * t.dashSpeed * t.moveSpeed, 0.0, 0.0))
  }

  function AttemptDash(m: Motion, t: Tuning, g: Gates, now: real, direction: Sign): Motion
  {
    if DashAllowed(m, g, direction) then StartDash(m, t, now, direction) else m
  }

  /** Double-tap detection to the right: a second tap within the threshold attempts the dash and
      resets the right timestamp to 0, otherwise the tap's time is recorded; the left timestamp
      is reset to 0 either way. */
  function TapRight(m: Motion, t: Tuning, g: Gates, now: real): Motion
  {
    if now - m.taps.right < DoubleTapThreshold then
      var m1 := AttemptDash(m, t, g, now, 1);
      m1.(taps := Taps(0.0, 0.0))
    else
      m.(taps := Taps(0.0, now))
  }

  /** The mirror image of TapRight. */
  function TapLeft(m: Motion, t: Tuning, g: Gates, now: real): Motion
  {
    if now - m.taps.left < DoubleTapThreshold then
      var m1 := AttemptDash(m, t, g, now, -1);
      m1.(taps := Taps(0.0, 0.0))
    else
      m.(taps := Taps(now, 0.0))
  }

  /** Double-tap detection on the horizontal axis; zero input does nothing. */
  function DetectDoubleTap(m: Motion, t: Tuning, g: Gates, now: real, x: real): Motion
  {
    if x > 0.0 then TapRight(m, t, g, now)
    else if x < 0.0 then TapLeft(m, t, g, now)
    else m
  }

  /** A move event: store the input, detect a double tap (with the OLD facing), then face the input. */
  function HandleMove(m: Motion, t: Tuning, g: Gates, now: real, x: real): Motion
  {
    var m1 := DetectDoubleTap(m.(input := m.input.(x := x)), t, g, now, x);
    m1.(facing := if x < 0.0 then -1 else if x > 0.0 then 1 else m1.facing)
  }

  /** What happens when a pending WaitForSeconds of the dash or of its cooldown has elapsed:
      the dash restores the gravity it saved and starts the cooldown; the cooldown re-arms the dash. */
  function ResumeCoroutines(m: Motion, t: Tuning, now: real): Motion
  {
    var d := m.dash;
    if d.isDashing && now >= d.dashEndTime then
      m.(body := m.body.(gravityScale := d.savedGravity),
         dash := d.(isDashing := false, coolingDown := true, cooldownEndTime := now + t.dashCooldown))
    else if d.coolingDown && now >= d.cooldownEndTime then
      m.(dash := d.(coolingDown := false, canDash := true))
    else
      m
  }

  /** The ground jump; the double jump is the same velocity change. */
  function Jump(m: Motion, t: Tuning): Motion
  {
    m.(body := m.body.(vy := t.jumpForce))
  }

  /** Zero the velocity, add the impulse away from the wall, turn round, let go of the wall. */
  function WallJump(m: Motion, t: Tuning): Motion
    requires ValidTuning(t)
  {
    var jumpDirection := -(m.facing as real);
    m.(body := Body(jumpDirection * t.wallJumpHorizontalForce / t.mass,
                    t.wallJumpVerticalForce / t.mass, 1.0),
       facing := Flip(m.facing),
       contact := m.contact.(isWallSliding := false, isTouchingWall := false))
  }

  /** Jump in fixed priority: from the ground, off the wall, in the air, or not at all. */
  function HandleJump(m: Motion, t: Tuning, g: Gates): Motion
    requires ValidTuning(t)
  {
    if m.contact.isGrounded then Jump(m, t)
    else if m.contact.isWallSliding && g.wallClimb then WallJump(m, t).(canDoubleJump := true)
    else if m.canDoubleJump then Jump(m, t).(canDoubleJump := false)
    else m
  }

  // ---------------------------------------------------------------------
  // Event sequences
  // ---------------------------------------------------------------------

  datatype Event =
    | Tick(now: real, groundHit: bool, wallHit: bool, gravityY: real, fixedDt: real)
    | Move(now: real, x: real)
    | JumpPressed
    | Climb(value: real)
    | Resume(now: real)

  function Step(m: Motion, t: Tuning, g: Gates, e: Event): Motion
    requires ValidTuning(t)
  {
    match e
    case Tick(now, groundHit, wallHit, gravityY, fixedDt) =>
      FixedUpdate(m, t, g, now, groundHit, wallHit, gravityY, fixedDt)
    case Move(now, x) => HandleMove(m, t, g, now, x)
    case JumpPressed => HandleJump(m, t, g)
    case Climb(value) => HandleClimb(m, value)
    case Resume(now) => ResumeCoroutines(m, t, now)
  }

  function Run(m: Motion, t: Tuning, g: Gates, es: seq<Event>): Motion
    requires ValidTuning(t)
    decreases |es|
  {
    if es == [] then m else Run(Step(m, t, g, es[0]), t, g, es[1..])
  }

  /** Exactly one of "can dash", "dashing" and "cooling down". */
  ghost predicate DashInv(d: DashTimers)
  {
    && (d.isDashing ==> !d.canDash && !d.coolingDown)
    && (d.coolingDown ==> !d.canDash)
    && (d.canDash || d.isDashing || d.coolingDown)
  }

  /** Sliding only while touching a wall in the air. */
  ghost predicate ContactInv(c: Contact)
  {
    c.isWallSliding ==> c.isTouchingWall && !c.isGrounded
  }

  /** What holds between any two events. */
  ghost predicate Inv(m: Motion)
  {
    DashInv(m.dash) && ContactInv(m.contact)
  }

  // ---------------------------------------------------------------------
  // Properties of one tick
  // ---------------------------------------------------------------------

  /** Double-jump refill: a landing edge refills it iff DoubleJump is unlocked; a wall hit
      refills it iff both WallClimb and DoubleJump are; nothing else in the tick touches it. */
  lemma TickDoubleJumpRefill(m: Motion, t: Tuning, g: Gates, now: real, groundHit: bool, wallHit: bool,
                             gravityY: real, fixedDt: real)
    ensures FixedUpdate(m, t, g, now, groundHit, wallHit, gravityY, fixedDt).canDoubleJump ==
            (m.canDoubleJump
             || (groundHit && !m.contact.isGrounded && g.doubleJump)
             || (wallHit && g.wallClimb && g.doubleJump))
  {
  }

  /** With WallClimb locked, the wall sensor has no say in canDoubleJump. */
  lemma TickWallNeutralWithoutClimb(m: Motion, t: Tuning, g: Gates, now: real, groundHit: bool,
                                    gravityY: real, fixedDt: real)
    requires !g.wallClimb
    ensures FixedUpdate(m, t, g, now, groundHit, true, gravityY, fixedDt).canDoubleJump ==
            FixedUpdate(m, t, g, now, groundHit, false, gravityY, fixedDt).canDoubleJump
  {
  }

  /** After a tick: the flags follow the sensors, sliding is exactly "on a wall in the air",
      gravity is off exactly while sliding, and a non-sliding gravity is the old one or 1. */
  lemma TickSlidingAndGravity(m: Motion, t: Tuning, g: Gates, now: real, groundHit: bool, wallHit: bool,
                              gravityY: real, fixedDt: real)
    ensures var r := FixedUpdate(m, t, g, now, groundHit, wallHit, gravityY, fixedDt);
      && r.contact.isGrounded == groundHit
      && r.contact.isTouchingWall == wallHit
      && r.contact.isWallSliding == (wallHit && !groundHit)
      && (r.contact.isWallSliding ==> r.body.gravityScale == 0.0)
      && (!r.contact.isWallSliding ==> r.body.gravityScale != 0.0)
      && (!r.contact.isWallSliding ==>
            r.body.gravityScale == 1.0 || r.body.gravityScale == m.body.gravityScale)
  {
  }

  /** The tick resets a zero gravity scale to 1 whenever the player is not sliding,
      even while a dash (which switched gravity off) is still running. */
  lemma TickRestoresGravityMidDash(m: Motion, t: Tuning, g: Gates, now: real, groundHit: bool,
                                   gravityY: real, fixedDt: real)
    requires m.dash.isDashing && m.body.gravityScale == 0.0
    ensures var r := FixedUpdate(m, t, g, now, groundHit, false, gravityY, fixedDt);
      r.dash.isDashing && r.body.gravityScale == 1.0
  {
  }

  /** The tick's vx: it follows the input unless dashing, when the dash velocity is kept. */
  lemma TickHorizontalVelocity(m: Motion, t: Tuning, g: Gates, now: real, groundHit: bool, wallHit: bool,
                               gravityY: real, fixedDt: real)
    ensures FixedUpdate(m, t, g, now, groundHit, wallHit, gravityY, fixedDt).body.vx ==
            (if m.dash.isDashing then m.body.vx else m.input.x * t.moveSpeed)
  {
  }

  /** The tick's vy: the wall velocity while sliding (timed from the first tick of the slide),
      the fast-fall term in the air with the climb axis down, and unchanged otherwise. */
  lemma TickVerticalVelocity(m: Motion, t: Tuning, g: Gates, now: real, groundHit: bool, wallHit: bool,
                             gravityY: real, fixedDt: real)
    ensures var r := FixedUpdate(m, t, g, now, groundHit, wallHit, gravityY, fixedDt);
      && (wallHit && !groundHit ==>
            r.contact.wallContactTime ==
              (if m.contact.isTouchingWall && m.contact.isWallSliding
               then m.contact.wallContactTime else now)
            && r.body.vy == WallVelocity(t, g, now, r.contact.wallContactTime, m.input.climb))
      && (!(wallHit && !groundHit) ==>
            r.body.vy == (if !groundHit && m.input.climb < 0.0
                          then m.body.vy + gravityY * (t.fallFastMultiplier - 1.0) * fixedDt
                          else m.body.vy))
  {
  }

  /** The wall velocity by case, as the controller's wall fields give it (no climb cap). */
  lemma WallVelocityCases(t: Tuning, g: Gates, now: real, contactTime: real, climbInput: real)
    ensures var v := WallVelocity(t, g, now, contactTime, climbInput);
      && (!g.wallClimb ==> v == -t.wallSlideSpeed)
      && (g.wallClimb && now - contactTime < t.wallStickTime ==> v == 0.0)
      && (g.wallClimb && now - contactTime >= t.wallStickTime ==>
            v == (if climbInput > 0.0 then t.wallClimbSpeed
                  else if climbInput < 0.0 then -t.wallFastSlideSpeed
                  else -t.wallSlideSpeed))
  {
  }

  /** The touched-wall scenario with the default tuning and climbing held: the player sticks
      for 0.4 s after contact and then climbs at 14, the controller's climb speed. */
  lemma StickThenClimbScenario(contactTime: real, now: real)
    ensures now - contactTime < 0.4 ==>
      WallVelocity(DefaultTuning, Gates(true, true, true), now, contactTime, 1.0) == 0.0
    ensures now - contactTime >= 0.4 ==>
      WallVelocity(DefaultTuning, Gates(true, true, true), now, contactTime, 1.0) == 14.0
  {
  }

  // ---------------------------------------------------------------------
  // Properties of the input handlers
  // ---------------------------------------------------------------------

  /** The fixed jump priority: ground, then wall (only with WallClimb), then air, then nothing. */
  lemma JumpPriority(m: Motion, t: Tuning, g: Gates)
    requires ValidTuning(t)
    ensures var r := HandleJump(m, t, g);
      && (m.contact.isGrounded ==> r == m.(body := m.body.(vy := t.jumpForce)))
      && (!m.contact.isGrounded && m.contact.isWallSliding && g.wallClimb ==>
            r == WallJump(m, t).(canDoubleJump := true))
      && (!m.contact.isGrounded && !(m.contact.isWallSliding && g.wallClimb) && m.canDoubleJump ==>
            r == m.(body := m.body.(vy := t.jumpForce), canDoubleJump := false))
      && (!m.contact.isGrounded && !(m.contact.isWallSliding && g.wallClimb) && !m.canDoubleJump ==>
            r == m)
  {
  }

  /** The wall jump: velocity is exactly the impulse over the mass, facing flips, the wall is let go,
      gravity is 1, and the double jump is refilled. */
  lemma WallJumpEffect(m: Motion, t: Tuning, g: Gates)
    requires ValidTuning(t)
    requires !m.contact.isGrounded && m.contact.isWallSliding && g.wallClimb
    ensures var r := HandleJump(m, t, g);
      && r.body.vx * t.mass == -(m.facing as real) * t.wallJumpHorizontalForce
      && r.body.vy * t.mass == t.wallJumpVerticalForce
      && r.body.gravityScale == 1.0
      && r.facing as int == -(m.facing as int)
      && !r.contact.isWallSliding && !r.contact.isTouchingWall && r.canDoubleJump
      && r.dash == m.dash && r.taps == m.taps && r.input == m.input
  {
  }

  /** Jumps in the air: once canDoubleJump is used up, every further press does nothing. */
  lemma {:induction false} AirJumpsAfterFirstAreNoOps(m: Motion, t: Tuning, g: Gates, n: nat)
    requires ValidTuning(t)
    requires !m.contact.isGrounded && !(m.contact.isWallSliding && g.wallClimb) && !m.canDoubleJump
    ensures Run(m, t, g, seq(n, _ => JumpPressed)) == m
  {
    if n > 0 {
      assert seq(n, _ => JumpPressed)[0] == JumpPressed;
      assert seq(n, _ => JumpPressed)[1..] == seq(n - 1, _ => JumpPressed);
      AirJumpsAfterFirstAreNoOps(m, t, g, n - 1);
    }
  }

  /** Exactly one extra jump succeeds in the air: n + 1 presses act like a single double jump. */
  lemma ExactlyOneAirJump(m: Motion, t: Tuning, g: Gates, n: nat)
    requires ValidTuning(t)
    requires !m.contact.isGrounded && !(m.contact.isWallSliding && g.wallClimb) && m.canDoubleJump
    ensures Run(m, t, g, seq(n + 1, _ => JumpPressed)) ==
            m.(body := m.body.(vy := t.jumpForce), canDoubleJump := false)
  {
    var m1 := m.(body := m.body.(vy := t.jumpForce), canDoubleJump := false);
    assert seq(n + 1, _ => JumpPressed)[0] == JumpPressed;
    assert Step(m, t, g, JumpPressed) == m1;
    assert seq(n + 1, _ => JumpPressed)[1..] == seq(n, _ => JumpPressed);
    AirJumpsAfterFirstAreNoOps(m1, t, g, n);
  }

  /** The wall jump refills the air jump whatever the DoubleJump gate says: with only WallClimb
      unlocked, a wall jump followed by a press in the air jumps a second time. */
  lemma WallJumpGrantsAirJumpWhileLocked(m: Motion, t: Tuning)
    requires ValidTuning(t)
    requires !m.contact.isGrounded && m.contact.isWallSliding && !m.canDoubleJump
    ensures var g := Gates(false, false, true);
      && HandleJump(m, t, g).canDoubleJump
      && HandleJump(HandleJump(m, t, g), t, g).body.vy == t.jumpForce
  {
  }

  /** With DoubleJump and WallClimb both locked, an air jump is never granted. */
  lemma {:induction false} NoAirJumpWhileLocked(m: Motion, t: Tuning, g: Gates, es: seq<Event>)
    requires ValidTuning(t) && !g.doubleJump && !g.wallClimb && !m.canDoubleJump
    ensures !Run(m, t, g, es).canDoubleJump
    decreases |es|
  {
    if es != [] {
      match es[0] {
        case Tick(now, groundHit, wallHit, gravityY, fixedDt) =>
          TickDoubleJumpRefill(m, t, g, now, groundHit, wallHit, gravityY, fixedDt);
        case Move(now, x) =>
        case JumpPressed =>
        case Climb(value) =>
        case Resume(now) =>
      }
      NoAirJumpWhileLocked(Step(m, t, g, es[0]), t, g, es[1..]);
    }
  }

  /** In the air, with no landing and no wall in reach, a used-up air jump stays used up: jump
      presses do nothing and nothing refills it. */
  lemma {:induction false} AirborneNoRefill(m: Motion, t: Tuning, g: Gates, es: seq<Event>)
    requires ValidTuning(t)
    requires !m.canDoubleJump && !m.contact.isWallSliding && !m.contact.isGrounded
    requires forall i :: 0 <= i < |es| ==> es[i].Tick? ==> !es[i].groundHit && !es[i].wallHit
    ensures var r := Run(m, t, g, es);
      !r.canDoubleJump && !r.contact.isWallSliding && !r.contact.isGrounded
    decreases |es|
  {
    if es != [] {
      assert es[0] == es[0 + 0];
      match es[0] {
        case Tick(now, groundHit, wallHit, gravityY, fixedDt) =>
          TickDoubleJumpRefill(m, t, g, now, groundHit, wallHit, gravityY, fixedDt);
        case Move(now, x) =>
        case JumpPressed =>
        case Climb(value) =>
        case Resume(now) =>
      }
      assert forall i :: 0 <= i < |es[1..]| ==> es[1..][i] == es[i + 1];
      AirborneNoRefill(Step(m, t, g, es[0]), t, g, es[1..]);
    }
  }

  /** The dash gate: a dash starts iff it is unlocked, not running, off cooldown, and not towards
      the wall being slid on; a refused attempt changes nothing. */
  lemma AttemptDashGate(m: Motion, t: Tuning, g: Gates, now: real, direction: Sign)
    ensures var r := AttemptDash(m, t, g, now, direction);
      && (DashAllowed(m, g, direction) <==>
            g.dash && !m.dash.isDashing && m.dash.canDash
            && !(m.contact.isWallSliding && direction == m.facing))
      && (!DashAllowed(m, g, direction) ==> r == m)
      && (DashAllowed(m, g, direction) ==>
            && r.dash.isDashing && !r.dash.canDash
            && r.body == Body((direction as real) * t.dashSpeed * t.moveSpeed, 0.0, 0.0)
            && r.dash.savedGravity == m.body.gravityScale
            && r.dash.dashEndTime == now + t.dashDuration
            && r.contact == m.contact && r.taps == m.taps && r.canDoubleJump == m.canDoubleJump)
  {
  }

  /** Double-tap detection by case, for a tap to the right. */
  lemma DoubleTapRight(m: Motion, t: Tuning, g: Gates, now: real, x: real)
    requires x > 0.0
    ensures var r := DetectDoubleTap(m, t, g, now, x);
      && r.taps.left == 0.0
      && (now - m.taps.right < DoubleTapThreshold ==>
            r == AttemptDash(m, t, g, now, 1).(taps := Taps(0.0, 0.0)))
      && (now - m.taps.right >= DoubleTapThreshold ==>
            r == m.(taps := Taps(0.0, now)))
  {
  }

  /** Double-tap detection by case, for a tap to the left: the mirror image. */
  lemma DoubleTapLeft(m: Motion, t: Tuning, g: Gates, now: real, x: real)
    requires x < 0.0
    ensures var r := DetectDoubleTap(m, t, g, now, x);
      && r.taps.right == 0.0
      && (now - m.taps.left < DoubleTapThreshold ==>
            r == AttemptDash(m, t, g, now, -1).(taps := Taps(0.0, 0.0)))
      && (now - m.taps.left >= DoubleTapThreshold ==>
            r == m.(taps := Taps(now, 0.0)))
  {
  }

  /** A released stick (x == 0) changes no timestamp and starts nothing. */
  lemma ReleaseChangesNoTimestamp(m: Motion, t: Tuning, g: Gates, now: real)
    ensures HandleMove(m, t, g, now, 0.0) == m.(input := m.input.(x := 0.0))
  {
  }

  /** The tap check uses the facing from before the move: facing right and sliding on the wall,
      a double tap to the left is judged against the old (right) facing and is allowed. */
  lemma TapJudgedBeforeTurning(m: Motion, t: Tuning, g: Gates, now: real)
    requires g.dash && m.dash.canDash && !m.dash.isDashing && m.contact.isWallSliding && m.facing == 1
    requires now - m.taps.left < DoubleTapThreshold
    ensures var r := HandleMove(m, t, g, now, -1.0);
      r.dash.isDashing && r.facing == -1 && r.body.vx == -t.dashSpeed * t.moveSpeed
  {
  }

  /** Right, then right 0.1 s later (at least the threshold after the previous right tap):
      the second tap attempts the dash to the right. */
  lemma RightRightDashes(m: Motion, t: Tuning, g: Gates, t0: real)
    requires t0 - m.taps.right >= DoubleTapThreshold
    requires DashAllowed(m, g, 1)
    ensures var r := DetectDoubleTap(DetectDoubleTap(m, t, g, t0, 1.0), t, g, t0 + 0.1, 1.0);
      r.dash.isDashing && r.taps.right == 0.0 && r.body.vx == t.dashSpeed * t.moveSpeed
  {
  }

  /** Right, left, right within 0.3 s (from t0 >= 0.3 on): the left tap resets the right timestamp
      to 0, so the final right tap only records its time. */
  lemma RightLeftRightNoDash(m: Motion, t: Tuning, g: Gates, t0: real, d1: real, d2: real)
    requires t0 >= DoubleTapThreshold && 0.0 <= d1 <= d2 < DoubleTapThreshold
    requires t0 - m.taps.right >= DoubleTapThreshold && t0 - m.taps.left >= DoubleTapThreshold
    ensures var r1 := DetectDoubleTap(m, t, g, t0, 1.0);
      var r2 := DetectDoubleTap(r1, t, g, t0 + d1, -1.0);
      var r3 := DetectDoubleTap(r2, t, g, t0 + d2, 1.0);
      r3 == m.(taps := Taps(0.0, t0 + d2))
  {
  }

  /** Because the timestamps start (and are reset) at 0 rather than minus infinity, a single tap
      in the first 0.3 s of play already counts as a double tap. */
  lemma FirstTapEarlyCountsAsDouble(t: Tuning, now: real)
    requires 0.0 <= now < DoubleTapThreshold
    ensures var r := HandleMove(Spawned(1.0, 1), t, Gates(false, true, false), now, 1.0);
      r.dash.isDashing && !r.dash.canDash
  {
  }

  /** A resume step ends the dash only at or after its deadline, and ends the cooldown only at or
      after its own deadline, which is set when the dash ends. */
  lemma ResumeTiming(m: Motion, t: Tuning, now: real)
    requires Inv(m)
    ensures var r := ResumeCoroutines(m, t, now);
      && (m.dash.isDashing && !r.dash.isDashing ==>
            now >= m.dash.dashEndTime && r.dash.coolingDown
            && r.dash.cooldownEndTime == now + t.dashCooldown
            && r.body.gravityScale == m.dash.savedGravity && !r.dash.canDash)
      && (m.dash.isDashing && now < m.dash.dashEndTime ==> r == m)
      && (!m.dash.canDash && r.dash.canDash ==> m.dash.coolingDown && now >= m.dash.cooldownEndTime)
  {
  }

  // ---------------------------------------------------------------------
  // Properties of event sequences
  // ---------------------------------------------------------------------

  lemma TickPreservesInv(m: Motion, t: Tuning, g: Gates, now: real, groundHit: bool, wallHit: bool,
                         gravityY: real, fixedDt: real)
    requires Inv(m)
    ensures Inv(FixedUpdate(m, t, g, now, groundHit, wallHit, gravityY, fixedDt))
  {
  }

  lemma MovePreservesInv(m: Motion, t: Tuning, g: Gates, now: real, x: real)
    requires Inv(m)
    ensures Inv(HandleMove(m, t, g, now, x))
  {
  }

  lemma StepPreservesInv(m: Motion, t: Tuning, g: Gates, e: Event)
    requires ValidTuning(t) && Inv(m)
    ensures Inv(Step(m, t, g, e))
  {
    match e
    case Tick(now, groundHit, wallHit, gravityY, fixedDt) =>
      TickPreservesInv(m, t, g, now, groundHit, wallHit, gravityY, fixedDt);
    case Move(now, x) => MovePreservesInv(m, t, g, now, x);
    case JumpPressed =>
    case Climb(value) =>
    case Resume(now) =>
  }

  /** The invariant holds after any sequence of events from a state that has it. */
  lemma {:induction false} RunPreservesInv(m: Motion, t: Tuning, g: Gates, es: seq<Event>)
    requires ValidTuning(t) && Inv(m)
    ensures Inv(Run(m, t, g, es))
    decreases |es|
  {
    if es != [] {
      StepPreservesInv(m, t, g, es[0]);
      RunPreservesInv(Step(m, t, g, es[0]), t, g, es[1..]);
    }
  }

  lemma SpawnedInv(gravityScale: real, facing: Sign)
    ensures Inv(Spawned(gravityScale, facing))
  {
  }

  /** While a dash that started at t0 is running or cooling down: the dash ends at t0 + dashDuration
      and the cooldown cannot end before t0 + dashDuration + dashCooldown. */
  ghost predicate DashPending(d: DashTimers, t: Tuning, t0: real)
  {
    && !d.canDash
    && (d.isDashing || d.coolingDown)
    && (d.isDashing ==> !d.coolingDown && d.dashEndTime == t0 + t.dashDuration)
    && (d.coolingDown ==> !d.isDashing && d.cooldownEndTime >= t0 + t.dashDuration + t.dashCooldown)
  }

  /** Every resumption of the coroutines happens strictly before the given time. */
  ghost predicate ResumesBefore(es: seq<Event>, bound: real)
  {
    forall i :: 0 <= i < |es| && es[i].Resume? ==> es[i].now < bound
  }

  /** While nothing can dash, a move event leaves the dash timers alone. */
  lemma MoveKeepsTimersWhenUnavailable(m: Motion, t: Tuning, g: Gates, now: real, x: real)
    requires !m.dash.canDash
    ensures HandleMove(m, t, g, now, x).dash == m.dash
  {
  }

  lemma StepKeepsDashPending(m: Motion, t: Tuning, g: Gates, e: Event, t0: real)
    requires ValidTuning(t) && DashPending(m.dash, t, t0)
    requires e.Resume? ==> e.now < t0 + t.dashDuration + t.dashCooldown
    ensures DashPending(Step(m, t, g, e).dash, t, t0)
  {
    match e
    case Tick(now, groundHit, wallHit, gravityY, fixedDt) =>
      var m1 := SampleGround(m, g, groundHit);
      var m2 := DetectWall(m1, g, now, wallHit);
      var m3 := WallStage(m2, t, g, now);
      var m4 := MoveStage(m3, t);
      var m5 := GravityStage(m4);
      assert m5.dash == m.dash;
    case Move(now, x) => MoveKeepsTimersWhenUnavailable(m, t, g, now, x);
    case JumpPressed =>
    case Climb(value) =>
    case Resume(now) =>
  }

  /** Dash timing over any sequence of events: after a dash starts at t0, canDash stays false (so no
      new dash can start) until a resumption at or after t0 + dashDuration + dashCooldown, and the
      dash itself keeps running until a resumption at or after t0 + dashDuration. */
  lemma {:induction false} NoDashBeforeCooldownEnds(m: Motion, t: Tuning, g: Gates, es: seq<Event>,
                                                   t0: real)
    requires ValidTuning(t) && DashPending(m.dash, t, t0)
    requires ResumesBefore(es, t0 + t.dashDuration + t.dashCooldown)
    ensures DashPending(Run(m, t, g, es).dash, t, t0)
    ensures !Run(m, t, g, es).dash.canDash
    decreases |es|
  {
    if es != [] {
      assert es[0] == es[0 + 0];
      StepKeepsDashPending(m, t, g, es[0], t0);
      assert ResumesBefore(es[1..], t0 + t.dashDuration + t.dashCooldown) by {
        forall i | 0 <= i < |es[1..]| && es[1..][i].Resume?
          ensures es[1..][i].now < t0 + t.dashDuration + t.dashCooldown
        {
          assert es[1..][i] == es[i + 1];
        }
      }
      NoDashBeforeCooldownEnds(Step(m, t, g, es[0]), t, g, es[1..], t0);
    }
  }

  /** Starting a dash puts the timers in the pending condition the lemma above starts from. */
  lemma StartDashIsPending(m: Motion, t: Tuning, g: Gates, now: real, direction: Sign)
    requires DashInv(m.dash) && DashAllowed(m, g, direction)
    ensures DashPending(AttemptDash(m, t, g, now, direction).dash, t, now)
  {
  }

  /** No jump and no ground contact in a tick: canDoubleJump never changes with WallClimb locked,
      however often the wall comes into reach and goes again. */
  lemma {:induction false} WallContactNeutralWithoutClimb(m: Motion, t: Tuning, g: Gates, es: seq<Event>)
    requires ValidTuning(t) && !g.wallClimb
    requires forall i :: 0 <= i < |es| ==> !es[i].JumpPressed? && !(es[i].Tick? && es[i].groundHit)
    ensures Run(m, t, g, es).canDoubleJump == m.canDoubleJump
    decreases |es|
  {
    if es != [] {
      assert es[0] == es[0 + 0];
      match es[0] {
        case Tick(now, groundHit, wallHit, gravityY, fixedDt) =>
          TickDoubleJumpRefill(m, t, g, now, groundHit, wallHit, gravityY, fixedDt);
        case Move(now, x) =>
        case JumpPressed =>
        case Climb(value) =>
        case Resume(now) =>
      }
      assert forall i :: 0 <= i < |es[1..]| ==> es[1..][i] == es[i + 1];
      WallContactNeutralWithoutClimb(Step(m, t, g, es[0]), t, g, es[1..]);
    }
  }

  /** While the wall stays in reach in the air and no jump happens, the player keeps sliding and the
      contact time keeps its value, so the stick window is measured from the first contact. */
  lemma {:induction false} SustainedContactKeepsContactTime(m: Motion, t: Tuning, g: Gates,
                                                           es: seq<Event>)
    requires ValidTuning(t)
    requires m.contact.isTouchingWall && m.contact.isWallSliding && !m.contact.isGrounded
    requires forall i :: 0 <= i < |es| ==>
      !es[i].JumpPressed? && (es[i].Tick? ==> es[i].wallHit && !es[i].groundHit)
    ensures var r := Run(m, t, g, es);
      r.contact.isTouchingWall && r.contact.isWallSliding && !r.contact.isGrounded
      && r.contact.wallContactTime == m.contact.wallContactTime
    decreases |es|
  {
    if es != [] {
      assert es[0] == es[0 + 0];
      match es[0] {
        case Tick(now, groundHit, wallHit, gravityY, fixedDt) =>
          TickSlidingAndGravity(m, t, g, now, groundHit, wallHit, gravityY, fixedDt);
          TickVerticalVelocity(m, t, g, now, groundHit, wallHit, gravityY, fixedDt);
        case Move(now, x) =>
        case JumpPressed =>
        case Climb(value) =>
        case Resume(now) =>
      }
      assert forall i :: 0 <= i < |es[1..]| ==> es[1..][i] == es[i + 1];
      SustainedContactKeepsContactTime(Step(m, t, g, es[0]), t, g, es[1..]);
    }
  }
}
