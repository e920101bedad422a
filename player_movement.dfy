/** The player controller script as a class: one method per handler, over
    the script's own fields and the body's velocity and gravity scale. Each
    method is specified by the PlayerLogic function for its handler. */
module PlayerController {
  import opened EngineTypes
  import opened PlayerLogic
  import PlayerProperties
  import Projectile

  class PlayerMovement {
    /** speed, jumpForce, wallJumpForceX, wallJumpForceY */
    const tuning: Tuning
    /** bulletPrefab, None when left unset */
    const bulletPrefab: Option<Projectile.Prefab>
    /** bulletSpawnPoint != null */
    const hasSpawnPoint: bool

    var isGrounded: bool
    var isOnWall: bool
    var isSliding: bool
    var isHurt: bool
    var isDead: bool
    var wallJumpCooldown: real
    var health: int
    /** A ResetHurt queued with Invoke and not yet run. */
    var resetPending: bool
    var localScale: Vec3
    /** body.velocity and body.gravityScale */
    var velocity: Vec2
    var gravityScale: real

    /** The fields as a PlayerLogic state. */
    function Snapshot(): State
      reads this
    {
      State(health, isHurt, isDead, resetPending, isSliding, isGrounded, isOnWall,
            wallJumpCooldown, localScale, velocity, gravityScale)
    }

    /** Health within 0..3, and 0 exactly when dead. */
    ghost predicate Valid()
      reads this
    {
      PlayerProperties.HealthInv(Snapshot())
    }

    /** Both references ShootBullet checks are set. */
    predicate CanSpawn()
    {
      bulletPrefab.Some? && hasSpawnPoint
    }

    /** The loaded script: field initialisers, the editor's scale and gravity
        scale, a body at rest. */
    constructor (tuning: Tuning, scale: Vec3, gravityScale: real,
                 bulletPrefab: Option<Projectile.Prefab>, hasSpawnPoint: bool)
      ensures Valid()
      ensures this.tuning == tuning && this.bulletPrefab == bulletPrefab && this.hasSpawnPoint == hasSpawnPoint
      ensures Snapshot() == Initial(scale, gravityScale)
    {
      this.tuning := tuning;
      this.bulletPrefab := bulletPrefab;
      this.hasSpawnPoint := hasSpawnPoint;
      health := StartHealth;
      isGrounded, isOnWall, isSliding, isHurt, isDead, resetPending := false, false, false, false, false, false;
      wallJumpCooldown := 0.0;
      localScale := scale;
      velocity := Zero2;
      this.gravityScale := gravityScale;
    }

    /** Update: nothing for a dead player; otherwise sense, move, jump, slide,
        attack, and hand the animator its parameters. A bullet is spawned on a
        shoot press when both references are set, facing the way the player
        faces once movement and jumping have run. */
    method Update(f: Frame) returns (bullet: Projectile.Bullet?, anim: Option<AnimatorParams>)
      requires Valid()
      modifies this
      ensures Valid()
      ensures Snapshot() == Stepped(tuning, old(Snapshot()), f)
      ensures (bullet != null) == Shoots(old(Snapshot()), f, CanSpawn())
      ensures bullet != null ==>
        fresh(bullet) && bullet.Valid() && bulletPrefab.Some? &&
        bullet.speed == bulletPrefab.value.speed && bullet.lifeTime == bulletPrefab.value.lifeTime &&
        bullet.hasBody == bulletPrefab.value.hasBody &&
        bullet.direction == Projectile.DirectionFor(localScale.x) &&
        bullet.localScale == Vec3(bullet.direction as real, 1.0, 1.0)
      ensures old(isDead) ==> anim == None
      ensures !old(isDead) ==> anim == Some(Animations(Snapshot(), IsMoving(f.horizontal)))
    {
      if isDead {
        return null, None;
      }
      var horizontalInput := f.horizontal;
      var isMoving := IsMoving(horizontalInput);
      isGrounded := f.grounded;
      isOnWall := f.onWall;
      HandleMovement(horizontalInput, f.deltaTime);
      HandleJumping(f.jumpPressed);
      HandleSliding(f.slidePressed, f.slideReleased);
      bullet := HandleAttacks(f.shootPressed);
      anim := Some(Animations(Snapshot(), isMoving));
    }

    method HandleMovement(horizontalInput: real, deltaTime: real)
      modifies this
      ensures Snapshot() == Moved(tuning, old(Snapshot()), horizontalInput, deltaTime)
    {
      if wallJumpCooldown > WallJumpGate {
        velocity := Vec2(horizontalInput * tuning.speed, velocity.y);
        if isOnWall && !isGrounded {
          gravityScale := WallGravity;
          velocity := Zero2;
        } else {
          gravityScale := NormalGravity;
        }
      } else {
        wallJumpCooldown := wallJumpCooldown + deltaTime;
      }

      if horizontalInput > 0.0 {
        localScale := One3;
      } else if horizontalInput < 0.0 {
        localScale := Vec3(-1.0, 1.0, 1.0);
      }
    }

    method HandleJumping(jumpPressed: bool)
      modifies this
      ensures Snapshot() == JumpHandled(tuning, old(Snapshot()), jumpPressed)
    {
      if jumpPressed {
        if isGrounded {
          Jump();
        } else if isOnWall {
          WallJump();
        }
      }
    }

    method Jump()
      modifies this
      ensures Snapshot() == Jumped(tuning, old(Snapshot()))
    {
      velocity := Vec2(velocity.x, tuning.jumpForce);
    }

    method WallJump()
      modifies this
      ensures Snapshot() == WallJumped(tuning, old(Snapshot()))
    {
      if wallJumpCooldown > WallJumpGate {
        var jumpDirection := -Sign(localScale.x);
        velocity := Vec2(jumpDirection * tuning.wallJumpForceX, tuning.wallJumpForceY);
        localScale := Vec3(jumpDirection, 1.0, 1.0);
        wallJumpCooldown := 0.0;
      }
    }

    method HandleSliding(slidePressed: bool, slideReleased: bool)
      modifies this
      ensures Snapshot() == SlideHandled(old(Snapshot()), slidePressed, slideReleased)
    {
      if slidePressed {
        isSliding := true;
      } else if slideReleased {
        isSliding := false;
      }
    }

    /** The gun half of HandleAttacks: a shoot press fires ShootBullet. */
    method HandleAttacks(shootPressed: bool) returns (bullet: Projectile.Bullet?)
      ensures (bullet != null) == (shootPressed && CanSpawn())
      ensures bullet != null ==>
        fresh(bullet) && bullet.Valid() && bulletPrefab.Some? &&
        bullet.speed == bulletPrefab.value.speed && bullet.lifeTime == bulletPrefab.value.lifeTime &&
        bullet.hasBody == bulletPrefab.value.hasBody &&
        bullet.direction == Projectile.DirectionFor(localScale.x) &&
        bullet.localScale == Vec3(bullet.direction as real, 1.0, 1.0)
    {
      bullet := null;
      if shootPressed {
        bullet := ShootBullet();
      }
    }

    /** ShootBullet: nothing without a prefab or a spawn point; otherwise a new
        bullet takes its direction from the player's facing scale. */
    method ShootBullet() returns (bullet: Projectile.Bullet?)
      ensures (bullet != null) == CanSpawn()
      ensures bullet != null ==>
        fresh(bullet) && bullet.Valid() && bulletPrefab.Some? &&
        bullet.speed == bulletPrefab.value.speed && bullet.lifeTime == bulletPrefab.value.lifeTime &&
        bullet.hasBody == bulletPrefab.value.hasBody &&
        bullet.direction == Projectile.DirectionFor(localScale.x) &&
        bullet.localScale == Vec3(bullet.direction as real, 1.0, 1.0)
    {
      if bulletPrefab.None? || !hasSpawnPoint {
        return null;
      }
      bullet := new Projectile.Bullet.Instantiate(bulletPrefab.value);
      bullet.SetDirection(localScale.x);
    }

    method TakeDamage()
      requires Valid()
      modifies this
      ensures Valid()
      ensures Snapshot() == Damaged(old(Snapshot()))
    {
      if isHurt || isDead {
        return;
      }
      health := health - 1;
      isHurt := true;
      if health <= 0 {
        Die();
      } else {
        resetPending := true;
      }
    }

    method ResetHurt()
      requires Valid()
      modifies this
      ensures Valid()
      ensures Snapshot() == HurtReset(old(Snapshot()))
    {
      isHurt := false;
    }

    /** The engine running the ResetHurt queued by TakeDamage's Invoke. */
    method InvokeDue()
      requires Valid()
      modifies this
      ensures Valid()
      ensures Snapshot() == InvokeFired(old(Snapshot()))
    {
      if resetPending {
        resetPending := false;
        ResetHurt();
      }
    }

    method Die()
      modifies this
      ensures Snapshot() == Dead(old(Snapshot()))
    {
      isDead := true;
      velocity := Zero2;
    }
  }

  /** A player with the default tuning and a default bullet prefab, pressing
      left and shoot on its first frame: the bullet it spawns flies left at
      the default bullet speed once the engine starts it. */
  method LeftFacingShot() returns (v: Vec2)
    ensures v == Vec2(-Projectile.DefaultSpeed, 0.0)
  {
    var prefab := Projectile.Prefab(Projectile.DefaultSpeed, Projectile.DefaultLifeTime, true, One3, 1.0, false);
    var player := new PlayerMovement(DefaultTuning, One3, NormalGravity, Some(prefab), true);
    var bullet, _ := player.Update(Frame(-1.0, true, false, false, false, false, true, 0.02));
    bullet.Start();
    v := bullet.velocity;
  }
}
