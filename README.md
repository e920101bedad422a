# Platformer player controller and projectile, in Dafny

This project models the discrete logic of a 2D platformer's player
controller script (`PlayerMovement`) and of the bullet it fires (`Bullet`).
The engine's physics queries, input, clock and animator are not modelled;
what they hand the scripts each frame is a parameter.

- **Player.** The script-owned fields are health, the hurt, dead, sliding,
  grounded and on-wall flags, the wall-jump cooldown, the facing scale, and
  the body's velocity and gravity scale. They are kept as a `State` datatype
  (`PlayerLogic`), with one function per handler that gives the state after
  that handler. The script itself is the class `PlayerController.PlayerMovement`.
  It has the same fields and one method per handler, and each method's
  postcondition ties its new state to the matching `PlayerLogic` function.
  One `Update` call is a `Frame`. A frame carries the ground-overlap result,
  the wall-cast result, the horizontal axis, the jump, slide and shoot key
  edges, and the frame time.
- **Damage.** `TakeDamage` is a guarded counter. It is blocked while the
  player is hurt or dead. `Die` is a terminal state. The delayed `Invoke` of
  `ResetHurt` is a `resetPending` flag. The engine clears it with the
  `InvokeDue` event, which runs `ResetHurt`.
- **Traces.** `PlayerProperties` runs arbitrary sequences of engine calls
  (`TakeDamage`, `ResetHurt`, the queued invoke coming due, `Update`). It
  proves by induction that health stays in 0..3, is 0 exactly when dead,
  and never rises. It also proves that dead is absorbing, that a hurt player
  is invulnerable until recovery, and that after a wall jump the cooldown
  locks out horizontal movement and wall jumps (facing still follows the axis).
- **Bullet.** `Projectile.Bullet` picks a direction of +1 or -1 from the
  shooter's scale. `Start` launches it horizontally with no gravity, and a
  trigger hit destroys it unless the other collider is the player.
  `ShootBullet` passes the player's facing scale to the new bullet.

Velocities, the cooldown and the frame time are `real`. The scripts assign
them, add them (the cooldown accumulates frame time), scale them by the
tuning values and compare them with thresholds; the model does all of this
exactly.

## Model

| member | source | states |
|---|---|---|
| `EngineTypes.Sign` | Scripts/PlayerMovement.cs:107 | Mathf.Sign as the wall jump uses it: always ±1, and +1 exactly for zero and positive scales |
| `Projectile.DirectionFor` | Scripts/Bullet.cs:38-40 | the chosen direction is always 1 or -1; it is 1 exactly when the shooter's scale is strictly positive, and -1 for zero and negative scales |
| `Projectile.Bullet.Instantiate` | Scripts/Bullet.cs:5-8 | a new bullet starts with direction 1, at rest; its speed, lifetime, body, scale, gravity scale and collision mode come from the prefab |
| `Projectile.Bullet.SetDirection` | Scripts/Bullet.cs:38-44 | afterwards the direction is ±1 as picked from the scale, and the sprite scale is (direction, 1, 1) |
| `Projectile.Bullet.Start` | Scripts/Bullet.cs:10-20 | with a body, the velocity is (speed·direction, 0), gravity scale is 0 and detection is continuous; with a positive speed it points right exactly when the direction is 1 and left exactly when it is -1; without a body nothing changes |
| `Projectile.Bullet.OnTriggerEnter2D` | Scripts/Bullet.cs:26-36 | a hit on a collider tagged "Player" leaves the bullet alone; any other hit destroys it |
| `PlayerLogic.Initial` | Scripts/PlayerMovement.cs:17-23 | a loaded player has 3 health, no flag set, a zero cooldown and a body at rest |
| `PlayerLogic.Dead` | Scripts/PlayerMovement.cs:193-198 | Die sets the dead flag and stops the body, and changes nothing else |
| `PlayerLogic.Damaged` | Scripts/PlayerMovement.cs:174-186 | while hurt or dead it is a complete no-op; otherwise health drops by exactly 1 and the player is hurt; it dies with zero velocity exactly when health reaches 0 or less, and otherwise a ResetHurt is queued; no other field changes |
| `PlayerLogic.HurtReset` | Scripts/PlayerMovement.cs:188-191 | clears the hurt flag and changes nothing else |
| `PlayerLogic.InvokeFired` | Scripts/PlayerMovement.cs:185 | the queued ResetHurt coming due consumes the queue entry and clears hurt; with nothing queued nothing changes |
| `PlayerLogic.Moved` | Scripts/PlayerMovement.cs:55-80 | at or below the 0.2 gate only the cooldown grows, by the frame time, and velocity and gravity are untouched; past the gate horizontal speed becomes axis·speed under gravity 7, except on a wall in the air (gravity 0, zero velocity); facing becomes +1 or -1 with the axis sign and is kept at zero axis |
| `PlayerLogic.Jumped` | Scripts/PlayerMovement.cs:97-101 | vertical speed becomes the jump force; horizontal speed and every other field are kept |
| `PlayerLogic.WallJumped` | Scripts/PlayerMovement.cs:103-112 | fires only past the 0.2 gate: the player turns to the opposite sign, is pushed at (away·forceX, forceY), and the cooldown restarts at 0; otherwise nothing changes |
| `PlayerLogic.JumpHandled` | Scripts/PlayerMovement.cs:82-95 | jump priority on a key press: grounded gives a normal jump, otherwise a wall gives a wall-jump attempt, otherwise nothing; with no press nothing changes |
| `PlayerLogic.SlideHandled` | Scripts/PlayerMovement.cs:114-125 | a slide press sets sliding, otherwise a release clears it, otherwise it is kept; nothing else changes |
| `PlayerLogic.Stepped` | Scripts/PlayerMovement.cs:38-53 | a dead player's frame changes nothing; a live one stores the two sensor results and updates the slide flag; no frame touches health, hurt, dead or the queued reset |
| `PlayerLogic.Animations` | Scripts/PlayerMovement.cs:165-172 | the animator's run flag is the movement threshold test and its grounded flag the sensed one; falling holds exactly when vertical speed is below -0.1 and the player is not grounded, so a grounded player is never falling |
| `PlayerProperties.StepGroundedJump` | Scripts/PlayerMovement.cs:82-101 | ground wins over wall: vertical speed becomes the jump force; horizontal speed, cooldown and facing are what movement left |
| `PlayerProperties.StepWallJump` | Scripts/PlayerMovement.cs:103-112 | in the air on a wall, a press wall-jumps once the cooldown has passed the gate (possibly in this frame), pushing away from the facing movement set; below the gate the body is untouched |
| `PlayerProperties.StepAirJumpIgnored` | Scripts/PlayerMovement.cs:84-95 | in open air a jump press makes no difference to the frame |
| `PlayerProperties.StepCooldownGate` | Scripts/PlayerMovement.cs:57-74 | at or below the gate, a frame without a jump leaves velocity and gravity as they were and adds the frame time to the cooldown |
| `PlayerProperties.StepControl` | Scripts/PlayerMovement.cs:57-70 | past the gate, on a wall in the air the player clings (no velocity, no gravity, not falling); elsewhere the axis sets horizontal speed under gravity 7 |
| `PlayerProperties.StepFacing` | Scripts/PlayerMovement.cs:76-79 | unless a wall jump fires, facing is +1 for a positive axis, -1 for a negative one, and unchanged at zero |
| `PlayerProperties.GroundedNeverFalling` | Scripts/PlayerMovement.cs:171 | after a grounded frame the falling test is false |
| `PlayerProperties.CooldownLocksControl` | Scripts/PlayerMovement.cs:57-74 | over any run of frames with non-negative frame times and no ground jump in which cooldown plus elapsed time stays within the gate, the body's velocity and gravity are untouched and the cooldown grows by exactly the elapsed time |
| `PlayerProperties.InitialIsValid` | Scripts/PlayerMovement.cs:17-23 | the loaded player satisfies the health and recovery invariant |
| `PlayerProperties.ApplyKeepsHealth` | Scripts/PlayerMovement.cs:174-191 | every single engine call keeps health in 0..3, zero exactly when dead, and never raises it |
| `PlayerProperties.RunKeepsHealth` | Scripts/PlayerMovement.cs:176-183 | no sequence of TakeDamage, ResetHurt, invoke and Update calls drives health below 0 or above its start, or raises it |
| `PlayerProperties.HealthNeverIncreases` | Scripts/PlayerMovement.cs:176-178 | health along a trace is non-increasing: a later prefix never has more than an earlier one |
| `PlayerProperties.HealthBoundedFromStart` | Scripts/PlayerMovement.cs:23 | from the loaded player, every trace keeps health within 0..3 |
| `PlayerProperties.ApplyKeepsInv` | Scripts/PlayerMovement.cs:182-191 | every call other than a direct ResetHurt keeps "a reset is queued exactly while a live player is hurt" |
| `PlayerProperties.EngineRunKeepsInv` | Scripts/PlayerMovement.cs:182-191 | along traces where ResetHurt runs only through its invoke, a hurt live player always has its recovery queued |
| `PlayerProperties.DeadIsAbsorbing` | Scripts/PlayerMovement.cs:40 | once dead, no engine-driven trace of damage, invokes and frames changes any field |
| `PlayerProperties.DeadStaysDead` | Scripts/PlayerMovement.cs:176 | even with direct ResetHurt calls, a dead player stays dead with health frozen |
| `PlayerProperties.HurtIsInvulnerable` | Scripts/PlayerMovement.cs:176 | while hurt, damage and frames alone never change health, and the player stays hurt |
| `PlayerProperties.ThirdHitKills` | Scripts/PlayerMovement.cs:174-186 | hit, hit during invulnerability, recover, hit, recover, hit: the player is dead at health 0 with the body stopped |
| `PlayerController.PlayerMovement.constructor` | Scripts/PlayerMovement.cs:17-23 | the loaded script's fields equal the initial state, which satisfies the health invariant |
| `PlayerController.PlayerMovement.Update` | Scripts/PlayerMovement.cs:38-53 | the new fields are the Update step of the old ones; a bullet is spawned exactly on a live shoot press with both references set, with the prefab's speed, lifetime and body and the direction picked from the final facing; the animator gets its parameters only when alive |
| `PlayerController.PlayerMovement.HandleMovement` | Scripts/PlayerMovement.cs:55-80 | the new fields are the movement rule applied to the old ones |
| `PlayerController.PlayerMovement.HandleJumping` | Scripts/PlayerMovement.cs:82-95 | the new fields are the jump-priority rule applied to the old ones |
| `PlayerController.PlayerMovement.Jump` | Scripts/PlayerMovement.cs:97-101 | only vertical velocity changes, to the jump force |
| `PlayerController.PlayerMovement.WallJump` | Scripts/PlayerMovement.cs:103-112 | the new fields are the gated wall jump applied to the old ones |
| `PlayerController.PlayerMovement.HandleSliding` | Scripts/PlayerMovement.cs:114-125 | only the sliding flag changes, by the press/release rule |
| `PlayerController.PlayerMovement.HandleAttacks` | Scripts/PlayerMovement.cs:140-145 | a bullet exists exactly when shoot is pressed and both references are set; it carries the prefab's speed, lifetime and body and the direction picked from the facing |
| `PlayerController.PlayerMovement.ShootBullet` | Scripts/PlayerMovement.cs:152-163 | no bullet without prefab or spawn point; otherwise a fresh bullet with the prefab's speed, lifetime and body and the direction picked from the player's facing scale |
| `PlayerController.LeftFacingShot` | Scripts/PlayerMovement.cs:152-163 | with the default tuning and bullet speed, a first frame pressing left and shoot spawns a bullet that Start launches at (-10, 0) |
| `PlayerController.PlayerMovement.TakeDamage` | Scripts/PlayerMovement.cs:174-186 | the new fields are the guarded damage rule applied to the old ones, and the health invariant is kept |
| `PlayerController.PlayerMovement.ResetHurt` | Scripts/PlayerMovement.cs:188-191 | only the hurt flag changes, to false |
| `PlayerController.PlayerMovement.InvokeDue` | Scripts/PlayerMovement.cs:185 | a queued ResetHurt runs once and leaves no queue entry |
| `PlayerController.PlayerMovement.Die` | Scripts/PlayerMovement.cs:193-198 | the dead flag is set and the body stops |

## Left out

- Physics2D.OverlapCircle and Physics2D.CapsuleCast (the ground and wall sensors): the engine computes them, so their results are fields of `Frame`.
- Input.GetAxisRaw and Input.GetKeyDown/GetKeyUp: the alternative keys for each action are folded into one edge flag per action in `Frame`.
- Time.deltaTime: a field of `Frame`. The wall-jump lockout lemma assumes it is non-negative, as the engine guarantees.
- Rigidbody2D integration between frames (gravity, collisions): velocity changes only when a script assigns it. "Dead is absorbing" is about the script's own state, not about the body still falling.
- IEEE single-precision behaviour: the scripts' floats are modelled as `real`, with the thresholds 0.2, 0.1 and 0.01 taken as exact decimals. Rounding of the products and of the cooldown as it accumulates frame time is not modelled, so the frame on which the cooldown first passes the 0.2 gate can differ from the engine's by rounding.
- The 0.5 s Invoke delay and Destroy(gameObject, lifeTime): a queued ResetHurt is a flag that the engine may clear at any later point of a trace, and destruction is a boolean. The lifetime timer is not modelled.
- Animator SetTrigger calls ("Jump", "Slide", "GunAttack", "Hurt", "Dead"), Debug.Log, and the sword and gun SetActive and collider toggles in HandleAttacks: presentation only, with no effect on the state.
- Instantiate's position and rotation: the spawn point's position is not modelled. A spawned bullet is a fresh `Bullet` object.
- The bulletScript null check in ShootBullet: the prefab is taken to carry the Bullet script.
- Awake's GetComponent wiring and the serialized references used without a null check: the body, animator and collider, `groundCheck`, `sword`, `swordCollider` and `gun` are all taken to be present. If one were unset the engine would throw part-way through Update; for example an unset `gun` throws before ShootBullet, so no bullet is spawned and the animator is not updated. The model does not capture these aborted frames. The bullet's optional body is the `hasBody` flag.
- The bullet's Start is called by the engine on a later frame, so `Update` does not call it.
- Scripts/CameraController.cs is not part of this model: its only logic is the engine's Vector3.SmoothDamp.
