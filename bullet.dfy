/** The projectile script: a direction of +1 or -1 chosen from the shooter's
    facing, a straight-line launch velocity, and destroy-unless-player hits. */
module Projectile {
  import opened EngineTypes

  /** Tag that other colliders compare against in the trigger callback. */
  const PlayerTag: string := "Player"

  /** Default public field values (speed, lifeTime). */
  const DefaultSpeed: real := 10.0
  const DefaultLifeTime: real := 2.0

  /** What Instantiate copies from the bullet prefab: the public fields, whether
      a Rigidbody2D is attached, and the prefab's scale, gravity scale and
      collision detection mode. */
  datatype Prefab = Prefab(speed: real, lifeTime: real, hasBody: bool, scale: Vec3, gravityScale: real,
                           continuousCollision: bool)

  /** The direction SetDirection picks for a shooter scale: right only for a
      strictly positive scale, left for zero and negative ones. */
  function DirectionFor(playerScaleX: real): (d: int)
    ensures d == 1 || d == -1
    ensures d == 1 <==> playerScaleX > 0.0
    ensures d == -1 <==> playerScaleX <= 0.0
  {
    if playerScaleX > 0.0 then 1 else -1
  }

  class Bullet {
    const speed: real
    const lifeTime: real
    /** GetComponent<Rigidbody2D>() != null */
    const hasBody: bool

    var direction: int
    var localScale: Vec3
    var velocity: Vec2
    var gravityScale: real
    var continuousCollision: bool
    /** Destroy(gameObject) was called from the trigger callback. */
    var destroyed: bool

    /** The direction is always a unit sign. */
    ghost predicate Valid()
      reads this
    {
      direction == 1 || direction == -1
    }

    /** Instantiate(bulletPrefab, ...): public fields come from the prefab and
        the private direction starts at 1 (facing right). */
    constructor Instantiate(p: Prefab)
      ensures Valid()
      ensures speed == p.speed && lifeTime == p.lifeTime && hasBody == p.hasBody
      ensures direction == 1
      ensures localScale == p.scale && velocity == Zero2 && gravityScale == p.gravityScale
      ensures continuousCollision == p.continuousCollision && !destroyed
    {
      speed, lifeTime, hasBody := p.speed, p.lifeTime, p.hasBody;
      direction := 1;
      localScale := p.scale;
      velocity := Zero2;
      gravityScale := p.gravityScale;
      continuousCollision := p.continuousCollision;
      destroyed := false;
    }

    /** SetDirection: the direction becomes the sign picked from the shooter's
        scale and the sprite is flipped to match. */
    method SetDirection(playerScaleX: real)
      modifies this`direction, this`localScale
      ensures Valid()
      ensures direction == DirectionFor(playerScaleX)
      ensures localScale == Vec3(direction as real, 1.0, 1.0)
    {
      direction := if playerScaleX > 0.0 then 1 else -1;
      localScale := Vec3(direction as real, 1.0, 1.0);
    }

    /** Start: with a body, launch horizontally at speed * direction with no
        gravity and continuous collision detection; without one, nothing.
        With a positive speed the bullet flies the way its direction says. */
    method Start()
      modifies this`velocity, this`gravityScale, this`continuousCollision
      ensures hasBody ==> velocity == Vec2(speed * direction as real, 0.0) && gravityScale == 0.0 && continuousCollision
      ensures !hasBody ==> velocity == old(velocity) && gravityScale == old(gravityScale)
                           && continuousCollision == old(continuousCollision)
      ensures Valid() && hasBody && speed > 0.0 ==>
        (velocity.x > 0.0 <==> direction == 1) && (velocity.x < 0.0 <==> direction == -1) && velocity.y == 0.0
    {
      if hasBody {
        velocity := Vec2(speed * direction as real, 0.0);
        gravityScale := 0.0;
        continuousCollision := true;
      }
    }

    /** OnTriggerEnter2D: a hit on the player is ignored, any other hit
        destroys the bullet. */
    method OnTriggerEnter2D(otherTag: string)
      modifies this`destroyed
      ensures otherTag == PlayerTag ==> destroyed == old(destroyed)
      ensures otherTag != PlayerTag ==> destroyed
    {
      if otherTag == PlayerTag {
        return;
      }
      destroyed := true;
    }
  }
}
