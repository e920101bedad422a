/** The player controller's script-owned state and one function per handler,
    each giving the state after the handler runs. Engine reads (ground overlap,
    wall cast, keys, axis, frame time) arrive as a Frame. */
module PlayerLogic {
  import opened EngineTypes

  /** The cooldown a wall jump must exceed before movement and wall jumps resume. */
  const WallJumpGate: real := 0.2
  /** Gravity scale while clinging to a wall, and otherwise. */
  const WallGravity: real := 0.0
  const NormalGravity: real := 7.0
  const StartHealth: int := 3
  /** Animator thresholds: vertical speed below which the player falls, and
      axis magnitude above which the player runs. */
  const FallThreshold: real := -0.1
  const MoveThreshold: real := 0.01

  /** The serialized tuning fields. */
  datatype Tuning = Tuning(speed: real, jumpForce: real, wallJumpForceX: real, wallJumpForceY: real)

  const DefaultTuning: Tuning := Tuning(6.0, 12.0, 8.0, 12.0)

  /** What one Update reads from the engine. `jumpPressed` is a key-down of
      Space, W or Up; `slidePressed`/`slideReleased` a key-down/up of S or Down;
      `shootPressed` a key-down of K or RightShift. */
  datatype Frame = Frame(
    horizontal: real,
    grounded: bool,
    onWall: bool,
    jumpPressed: bool,
    slidePressed: bool,
    slideReleased: bool,
    shootPressed: bool,
    deltaTime: real)

  /** The script-owned fields, the facing scale and the body's velocity and
      gravity scale. `resetPending` stands for the engine's queued
      Invoke of ResetHurt. */
  datatype State = State(
    health: int,
    isHurt: bool,
    isDead: bool,
    resetPending: bool,
    isSliding: bool,
    isGrounded: bool,
    isOnWall: bool,
    wallJumpCooldown: real,
    localScale: Vec3,
    velocity: Vec2,
    gravityScale: real)

  /** The state of a freshly loaded player: field initialisers and defaults,
      the editor's scale and gravity scale, a body at rest. */
  function Initial(scale: Vec3, gravityScale: real): (s: State)
    ensures s.health == StartHealth && !s.isHurt && !s.isDead && !s.resetPending
    ensures !s.isSliding && s.wallJumpCooldown == 0.0 && s.velocity == Zero2
  {
    State(StartHealth, false, false, false, false, false, false, 0.0, scale, Zero2, gravityScale)
  }

  // ---------------------------------------------------------------- damage

  /** Die: the player is dead and the body stops; nothing else changes. */
  function Dead(s: State): (r: State)
    ensures r.isDead && r.velocity == Zero2
    ensures r.(isDead := s.isDead, velocity := s.velocity) == s
  {
    s.(isDead := true, velocity := Zero2)
  }

  /** TakeDamage: ignored while hurt or dead; otherwise one point of health is
      lost and the player is hurt, and either dies (health at or below 0) or
      has a ResetHurt queued. */
  function Damaged(s: State): (r: State)
    ensures s.isHurt || s.isDead ==> r == s
    ensures !s.isHurt && !s.isDead ==>
      r.health == s.health - 1 && r.isHurt &&
      (r.isDead <==> r.health <= 0) &&
      (r.isDead ==> r.velocity == Zero2 && r.resetPending == s.resetPending) &&
      (!r.isDead ==> r.resetPending && r.velocity == s.velocity) &&
      r.(health := s.health, isHurt := s.isHurt, isDead := s.isDead,
         resetPending := s.resetPending, velocity := s.velocity) == s
  {
    if s.isHurt || s.isDead then s
    else
      var hit := s.(health := s.health - 1, isHurt := true);
      if hit.health <= 0 then Dead(hit) else hit.(resetPending := true)
  }

  /** ResetHurt: the player is no longer hurt; nothing else changes. */
  function HurtReset(s: State): (r: State)
    ensures !r.isHurt
    ensures r.(isHurt := s.isHurt) == s
  {
    s.(isHurt := false)
  }

  /** The engine running a queued ResetHurt: the queue entry is consumed and
      the player recovers; with nothing queued nothing happens. */
  function InvokeFired(s: State): (r: State)
    ensures !s.resetPending ==> r == s
    ensures s.resetPending ==> !r.resetPending && !r.isHurt
    ensures r.(resetPending := s.resetPending, isHurt := s.isHurt) == s
  {
    if s.resetPending then HurtReset(s.(resetPending := false)) else s
  }

  // -------------------------------------------------------------- movement

  /** The facing scale after HandleMovement's facing rule. */
  function Faced(scale: Vec3, horizontal: real): Vec3
  {
    if horizontal > 0.0 then One3
    else if horizontal < 0.0 then Vec3(-1.0, 1.0, 1.0)
    else scale
  }

  /** HandleMovement: while the cooldown is at or below the gate it only
      advances by the frame time; past the gate the axis drives horizontal
      speed, except that on a wall in the air the player clings (no gravity,
      no velocity). The facing follows the sign of the axis. */
  function Moved(t: Tuning, s: State, horizontal: real, deltaTime: real): (r: State)
    ensures s.wallJumpCooldown <= WallJumpGate ==>
      r.wallJumpCooldown == s.wallJumpCooldown + deltaTime &&
      r.velocity == s.velocity && r.gravityScale == s.gravityScale
    ensures s.wallJumpCooldown > WallJumpGate ==>
      r.wallJumpCooldown == s.wallJumpCooldown &&
      if s.isOnWall && !s.isGrounded then r.velocity == Zero2 && r.gravityScale == WallGravity
      else r.velocity == Vec2(horizontal * t.speed, s.velocity.y) && r.gravityScale == NormalGravity
    ensures horizontal > 0.0 ==> r.localScale == One3
    ensures horizontal < 0.0 ==> r.localScale == Vec3(-1.0, 1.0, 1.0)
    ensures horizontal == 0.0 ==> r.localScale == s.localScale
    ensures r.(wallJumpCooldown := s.wallJumpCooldown, velocity := s.velocity,
               gravityScale := s.gravityScale, localScale := s.localScale) == s
  {
    var gated :=
      if s.wallJumpCooldown > WallJumpGate then
        var running := s.(velocity := Vec2(horizontal * t.speed, s.velocity.y));
        if s.isOnWall && !s.isGrounded then running.(gravityScale := WallGravity, velocity := Zero2)
        else running.(gravityScale := NormalGravity)
      else s.(wallJumpCooldown := s.wallJumpCooldown + deltaTime);
    gated.(localScale := Faced(s.localScale, horizontal))
  }

  // --------------------------------------------------------------- jumping

  /** Jump: vertical speed becomes the jump force, horizontal speed is kept,
      nothing else changes. */
  function Jumped(t: Tuning, s: State): (r: State)
    ensures r.velocity.x == s.velocity.x && r.velocity.y == t.jumpForce
    ensures r.(velocity := s.velocity) == s
  {
    s.(velocity := Vec2(s.velocity.x, t.jumpForce))
  }

  /** WallJump: only past the cooldown gate; the player is pushed away from
      the side it faced (Mathf.Sign counts a zero scale as facing right), turns
      round, and the cooldown restarts from 0. */
  function WallJumped(t: Tuning, s: State): (r: State)
    ensures s.wallJumpCooldown <= WallJumpGate ==> r == s
    ensures s.wallJumpCooldown > WallJumpGate ==>
      var away := if s.localScale.x >= 0.0 then -1.0 else 1.0;
      r.localScale == Vec3(away, 1.0, 1.0) &&
      r.velocity == Vec2(away * t.wallJumpForceX, t.wallJumpForceY) &&
      r.wallJumpCooldown == 0.0 &&
      Sign(r.localScale.x) == -Sign(s.localScale.x) &&
      r.(localScale := s.localScale, velocity := s.velocity, wallJumpCooldown := s.wallJumpCooldown) == s
  {
    if s.wallJumpCooldown > WallJumpGate then
      var jumpDirection := -Sign(s.localScale.x);
      s.(velocity := Vec2(jumpDirection * t.wallJumpForceX, t.wallJumpForceY),
         localScale := Vec3(jumpDirection, 1.0, 1.0),
         wallJumpCooldown := 0.0)
    else s
  }

  /** HandleJumping: on a jump key press the ground wins over the wall, a wall
      gives a wall-jump attempt, and in open air nothing happens. */
  function JumpHandled(t: Tuning, s: State, jumpPressed: bool): (r: State)
    ensures !jumpPressed || (!s.isGrounded && !s.isOnWall) ==> r == s
    ensures jumpPressed && s.isGrounded ==>
      r == s.(velocity := Vec2(s.velocity.x, t.jumpForce))
    ensures jumpPressed && !s.isGrounded && s.isOnWall ==> r == WallJumped(t, s)
  {
    if jumpPressed then
      if s.isGrounded then Jumped(t, s)
      else if s.isOnWall then WallJumped(t, s)
      else s
    else s
  }

  // --------------------------------------------------------------- sliding

  /** HandleSliding: a slide key press starts sliding, otherwise a release
      stops it; only the sliding flag changes. */
  function SlideHandled(s: State, slidePressed: bool, slideReleased: bool): (r: State)
    ensures slidePressed ==> r.isSliding
    ensures !slidePressed && slideReleased ==> !r.isSliding
    ensures !slidePressed && !slideReleased ==> r.isSliding == s.isSliding
    ensures r.(isSliding := s.isSliding) == s
  {
    if slidePressed then s.(isSliding := true)
    else if slideReleased then s.(isSliding := false)
    else s
  }

  // ---------------------------------------------------------------- update

  /** The state after the sensing assignments at the top of Update. */
  function Sensed(s: State, f: Frame): State
  {
    s.(isGrounded := f.grounded, isOnWall := f.onWall)
  }

  /** The state just before HandleSliding, which fixes the facing the shot
      takes from. */
  function BeforeSlide(t: Tuning, s: State, f: Frame): State
  {
    JumpHandled(t, Moved(t, Sensed(s, f), f.horizontal, f.deltaTime), f.jumpPressed)
  }

  /** Update: a dead player is left as it is; a live one senses, moves, jumps
      and slides in that order. The damage fields are never touched by it. */
  function Stepped(t: Tuning, s: State, f: Frame): (r: State)
    ensures s.isDead ==> r == s
    ensures !s.isDead ==> r.isGrounded == f.grounded && r.isOnWall == f.onWall
    ensures r.health == s.health && r.isHurt == s.isHurt && r.isDead == s.isDead
            && r.resetPending == s.resetPending
    ensures !s.isDead ==>
      (f.slidePressed ==> r.isSliding) &&
      (!f.slidePressed && f.slideReleased ==> !r.isSliding) &&
      (!f.slidePressed && !f.slideReleased ==> r.isSliding == s.isSliding)
  {
    if s.isDead then s
    else SlideHandled(BeforeSlide(t, s, f), f.slidePressed, f.slideReleased)
  }

  /** Whether this frame's HandleAttacks spawns a bullet: a live player, a
      shoot key press, and both the prefab and the spawn point set. */
  predicate Shoots(s: State, f: Frame, canSpawn: bool)
  {
    !s.isDead && f.shootPressed && canSpawn
  }

  // ------------------------------------------------------------ animations

  /** The animator parameters UpdateAnimations writes. */
  datatype AnimatorParams = AnimatorParams(run: bool, grounded: bool, sliding: bool, verticalVelocity: real, falling: bool)

  /** |axis| above the run threshold. */
  predicate IsMoving(horizontal: real)
  {
    horizontal > MoveThreshold || horizontal < -MoveThreshold
  }

  /** Falling: moving down faster than the threshold while not grounded. */
  predicate IsFalling(s: State)
  {
    s.velocity.y < FallThreshold && !s.isGrounded
  }

  /** UpdateAnimations, as the values it hands the animator. */
  function Animations(s: State, isMoving: bool): (a: AnimatorParams)
    ensures a.falling <==> s.velocity.y < FallThreshold && !s.isGrounded
    ensures a.falling ==> a.verticalVelocity < 0.0 && !a.grounded
    ensures a.grounded == s.isGrounded
    ensures a.grounded ==> !a.falling
    ensures a.run == isMoving && a.sliding == s.isSliding && a.verticalVelocity == s.velocity.y
  {
    AnimatorParams(isMoving, s.isGrounded, s.isSliding, s.velocity.y, IsFalling(s))
  }
}
