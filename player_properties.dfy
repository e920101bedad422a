/** What whole Update frames and whole traces of engine callbacks do to the
    player: jump precedence within a frame, the wall-jump lockout, health
    bounds and the absorbing dead state. */
module PlayerProperties {
  import opened EngineTypes
  import opened PlayerLogic

  // ------------------------------------------------------- one Update frame

  /** The cooldown once HandleMovement has run in frame f. */
  function CooldownAfterMove(s: State, f: Frame): real
  {
    if s.wallJumpCooldown > WallJumpGate then s.wallJumpCooldown else s.wallJumpCooldown + f.deltaTime
  }

  /** The facing sign once HandleMovement has run in frame f. */
  function FacingAfterMove(s: State, f: Frame): real
  {
    if f.horizontal > 0.0 then 1.0 else if f.horizontal < 0.0 then -1.0 else s.localScale.x
  }

  /** Whether HandleJumping fires a wall jump in frame f. */
  predicate WallJumpFires(s: State, f: Frame)
  {
    f.jumpPressed && !f.grounded && f.onWall && CooldownAfterMove(s, f) > WallJumpGate
  }

  /** On the ground a jump press is a normal jump, even against a wall:
      vertical speed is the jump force, and horizontal speed, cooldown and
      facing are what movement left them. */
  lemma StepGroundedJump(t: Tuning, s: State, f: Frame)
    requires !s.isDead && f.jumpPressed && f.grounded
    ensures var r := Stepped(t, s, f);
      r.velocity.y == t.jumpForce &&
      r.velocity.x == (if s.wallJumpCooldown > WallJumpGate then f.horizontal * t.speed else s.velocity.x) &&
      r.wallJumpCooldown == CooldownAfterMove(s, f) &&
      r.localScale.x == FacingAfterMove(s, f) &&
      r.gravityScale == (if s.wallJumpCooldown > WallJumpGate then NormalGravity else s.gravityScale)
  {
  }

  /** In the air against a wall a jump press is a wall jump past the gate
      (the cooldown may cross it in this very frame), pushing away from the
      facing movement just set; below the gate the body is untouched. */
  lemma StepWallJump(t: Tuning, s: State, f: Frame)
    requires !s.isDead && f.jumpPressed && !f.grounded && f.onWall
    ensures var r := Stepped(t, s, f);
      var c := CooldownAfterMove(s, f);
      (c > WallJumpGate ==>
        var away := if FacingAfterMove(s, f) >= 0.0 then -1.0 else 1.0;
        r.velocity == Vec2(away * t.wallJumpForceX, t.wallJumpForceY) &&
        r.localScale == Vec3(away, 1.0, 1.0) && r.wallJumpCooldown == 0.0) &&
      (c <= WallJumpGate ==>
        r.velocity == s.velocity && r.gravityScale == s.gravityScale && r.wallJumpCooldown == c)
  {
  }

  /** In open air a jump press changes nothing: the frame is the same as one
      without it. */
  lemma StepAirJumpIgnored(t: Tuning, s: State, f: Frame)
    requires !f.grounded && !f.onWall
    ensures Stepped(t, s, f) == Stepped(t, s, f.(jumpPressed := false))
  {
  }

  /** At or below the gate, a frame without a jump press only advances the
      cooldown: velocity and gravity stay as they were. */
  lemma StepCooldownGate(t: Tuning, s: State, f: Frame)
    requires !s.isDead && s.wallJumpCooldown <= WallJumpGate && !f.jumpPressed
    ensures var r := Stepped(t, s, f);
      r.velocity == s.velocity && r.gravityScale == s.gravityScale &&
      r.wallJumpCooldown == s.wallJumpCooldown + f.deltaTime
  {
  }

  /** Past the gate, without a jump press: on a wall in the air the player
      clings (no velocity, no gravity, not falling); elsewhere the axis sets
      horizontal speed under normal gravity. */
  lemma StepControl(t: Tuning, s: State, f: Frame)
    requires !s.isDead && s.wallJumpCooldown > WallJumpGate && !f.jumpPressed
    ensures var r := Stepped(t, s, f);
      (f.onWall && !f.grounded ==>
        r.velocity == Zero2 && r.gravityScale == WallGravity && !IsFalling(r)) &&
      (!(f.onWall && !f.grounded) ==>
        r.velocity == Vec2(f.horizontal * t.speed, s.velocity.y) && r.gravityScale == NormalGravity) &&
      r.wallJumpCooldown == s.wallJumpCooldown
  {
  }

  /** Unless a wall jump fires, facing follows the sign of the axis and is
      kept when the axis is zero. */
  lemma StepFacing(t: Tuning, s: State, f: Frame)
    requires !s.isDead && !WallJumpFires(s, f)
    ensures var r := Stepped(t, s, f);
      (f.horizontal > 0.0 ==> r.localScale == One3) &&
      (f.horizontal < 0.0 ==> r.localScale == Vec3(-1.0, 1.0, 1.0)) &&
      (f.horizontal == 0.0 ==> r.localScale == s.localScale)
  {
  }

  /** A grounded player is never reported as falling after its frame. */
  lemma GroundedNeverFalling(t: Tuning, s: State, f: Frame)
    requires !s.isDead && f.grounded
    ensures !IsFalling(Stepped(t, s, f))
    ensures !Animations(Stepped(t, s, f), IsMoving(f.horizontal)).falling
  {
  }

  // ------------------------------------------------ runs of Update frames

  /** Update called once per frame of fs. */
  function RunFrames(t: Tuning, s: State, fs: seq<Frame>): State
    decreases |fs|
  {
    if fs == [] then s else RunFrames(t, Stepped(t, s, fs[0]), fs[1..])
  }

  /** Total frame time of fs. */
  function TotalTime(fs: seq<Frame>): real
    decreases |fs|
  {
    if fs == [] then 0.0 else fs[0].deltaTime + TotalTime(fs[1..])
  }

  lemma {:induction false} TotalTimeNonNegative(fs: seq<Frame>)
    requires forall i :: 0 <= i < |fs| ==> fs[i].deltaTime >= 0.0
    ensures TotalTime(fs) >= 0.0
    decreases |fs|
  {
    if fs != [] {
      assert forall i :: 0 <= i < |fs[1..]| ==> fs[1..][i].deltaTime >= 0.0 by {
        forall i | 0 <= i < |fs[1..]| ensures fs[1..][i].deltaTime >= 0.0 {
          assert fs[1..][i] == fs[i + 1];
        }
      }
      TotalTimeNonNegative(fs[1..]);
    }
  }

  /** The wall-jump lockout: while the cooldown plus the elapsed frame time
      stays at or below the gate, no axis input, wall or wall-jump press moves
      the body; only a jump from the ground could. The cooldown accumulates
      exactly the elapsed time. */
  lemma {:induction false} CooldownLocksControl(t: Tuning, s: State, fs: seq<Frame>)
    requires !s.isDead
    requires forall i :: 0 <= i < |fs| ==> fs[i].deltaTime >= 0.0 && !(fs[i].jumpPressed && fs[i].grounded)
    requires s.wallJumpCooldown + TotalTime(fs) <= WallJumpGate
    ensures var r := RunFrames(t, s, fs);
      r.velocity == s.velocity && r.gravityScale == s.gravityScale &&
      r.wallJumpCooldown == s.wallJumpCooldown + TotalTime(fs)
    decreases |fs|
  {
    if fs != [] {
      var rest := fs[1..];
      assert forall i :: 0 <= i < |rest| ==> rest[i].deltaTime >= 0.0 && !(rest[i].jumpPressed && rest[i].grounded) by {
        forall i | 0 <= i < |rest|
          ensures rest[i].deltaTime >= 0.0 && !(rest[i].jumpPressed && rest[i].grounded)
        {
          assert rest[i] == fs[i + 1];
        }
      }
      TotalTimeNonNegative(rest);
      var f := fs[0];
      assert s.wallJumpCooldown <= WallJumpGate;
      var s1 := Stepped(t, s, f);
      assert s1.velocity == s.velocity && s1.gravityScale == s.gravityScale
          && s1.wallJumpCooldown == s.wallJumpCooldown + f.deltaTime;
      CooldownLocksControl(t, s1, rest);
    }
  }

  // ----------------------------------------------- traces of engine calls

  /** The calls the engine makes on the script: TakeDamage from an enemy or
      hazard, a direct ResetHurt, the queued Invoke of ResetHurt coming due,
      and one Update frame. */
  datatype Event = TakeDamageCall | ResetHurtCall | InvokeDue | UpdateCall(frame: Frame)

  function Apply(t: Tuning, s: State, e: Event): State
  {
    match e
    case TakeDamageCall => Damaged(s)
    case ResetHurtCall => HurtReset(s)
    case InvokeDue => InvokeFired(s)
    case UpdateCall(f) => Stepped(t, s, f)
  }

  function Run(t: Tuning, s: State, evs: seq<Event>): State
    decreases |evs|
  {
    if evs == [] then s else Run(t, Apply(t, s, evs[0]), evs[1..])
  }

  /** Health stays within 0..3 and is 0 exactly when the player is dead. */
  ghost predicate HealthInv(s: State)
  {
    0 <= s.health <= StartHealth && (s.isDead <==> s.health == 0)
  }

  /** In addition, a ResetHurt is queued exactly while a live player is hurt. */
  ghost predicate Inv(s: State)
  {
    HealthInv(s) && (s.resetPending <==> s.isHurt && !s.isDead)
  }

  /** Traces in which ResetHurt only runs through the queued Invoke, as in the
      script, where it is private. */
  ghost predicate EngineDriven(evs: seq<Event>)
  {
    forall i :: 0 <= i < |evs| ==> evs[i] != ResetHurtCall
  }

  lemma InitialIsValid(scale: Vec3, gravityScale: real)
    ensures Inv(Initial(scale, gravityScale))
  {
  }

  lemma ApplyKeepsHealth(t: Tuning, s: State, e: Event)
    requires HealthInv(s)
    ensures HealthInv(Apply(t, s, e)) && Apply(t, s, e).health <= s.health
  {
  }

  /** No sequence of calls drives health out of 0..3 or raises it. */
  lemma {:induction false} RunKeepsHealth(t: Tuning, s: State, evs: seq<Event>)
    requires HealthInv(s)
    ensures HealthInv(Run(t, s, evs)) && Run(t, s, evs).health <= s.health
    decreases |evs|
  {
    if evs != [] {
      ApplyKeepsHealth(t, s, evs[0]);
      RunKeepsHealth(t, Apply(t, s, evs[0]), evs[1..]);
    }
  }

  lemma {:induction false} RunAppend(t: Tuning, s: State, a: seq<Event>, b: seq<Event>)
    ensures Run(t, s, a + b) == Run(t, Run(t, s, a), b)
    decreases |a|
  {
    if a != [] {
      assert (a + b)[0] == a[0];
      assert (a + b)[1..] == a[1..] + b;
      RunAppend(t, Apply(t, s, a[0]), a[1..], b);
    } else {
      assert a + b == b;
    }
  }

  /** Health never increases along a trace: a later prefix never has more
      health than an earlier one. */
  lemma HealthNeverIncreases(t: Tuning, s: State, evs: seq<Event>, i: nat, j: nat)
    requires HealthInv(s)
    requires i <= j <= |evs|
    ensures Run(t, s, evs[..j]).health <= Run(t, s, evs[..i]).health
  {
    assert evs[..j] == evs[..i] + evs[i..j];
    RunAppend(t, s, evs[..i], evs[i..j]);
    RunKeepsHealth(t, s, evs[..i]);
    RunKeepsHealth(t, Run(t, s, evs[..i]), evs[i..j]);
  }

  /** From a freshly loaded player, health stays within 0..3 whatever happens. */
  lemma HealthBoundedFromStart(t: Tuning, scale: Vec3, gravityScale: real, evs: seq<Event>)
    ensures 0 <= Run(t, Initial(scale, gravityScale), evs).health <= StartHealth
  {
    RunKeepsHealth(t, Initial(scale, gravityScale), evs);
  }

  lemma ApplyKeepsInv(t: Tuning, s: State, e: Event)
    requires Inv(s) && e != ResetHurtCall
    ensures Inv(Apply(t, s, e))
  {
  }

  lemma EngineDrivenTail(evs: seq<Event>)
    requires evs != [] && EngineDriven(evs)
    ensures evs[0] != ResetHurtCall && EngineDriven(evs[1..])
  {
    forall i | 0 <= i < |evs[1..]| ensures evs[1..][i] != ResetHurtCall {
      assert evs[1..][i] == evs[i + 1];
    }
  }

  /** Along engine-driven traces a hurt live player always has its recovery
      queued, and a dead or unhurt one never does. */
  lemma {:induction false} EngineRunKeepsInv(t: Tuning, s: State, evs: seq<Event>)
    requires Inv(s) && EngineDriven(evs)
    ensures Inv(Run(t, s, evs))
    decreases |evs|
  {
    if evs != [] {
      EngineDrivenTail(evs);
      ApplyKeepsInv(t, s, evs[0]);
      EngineRunKeepsInv(t, Apply(t, s, evs[0]), evs[1..]);
    }
  }

  /** Dead is absorbing: once dead, no engine-driven trace changes any field. */
  lemma {:induction false} DeadIsAbsorbing(t: Tuning, s: State, evs: seq<Event>)
    requires Inv(s) && s.isDead && EngineDriven(evs)
    ensures Run(t, s, evs) == s
    decreases |evs|
  {
    if evs != [] {
      EngineDrivenTail(evs);
      assert Apply(t, s, evs[0]) == s;
      DeadIsAbsorbing(t, s, evs[1..]);
    }
  }

  /** Even with direct ResetHurt calls, a dead player stays dead with its
      health frozen. */
  lemma {:induction false} DeadStaysDead(t: Tuning, s: State, evs: seq<Event>)
    requires s.isDead
    ensures Run(t, s, evs).isDead && Run(t, s, evs).health == s.health
    decreases |evs|
  {
    if evs != [] {
      DeadStaysDead(t, Apply(t, s, evs[0]), evs[1..]);
    }
  }

  /** The invulnerability window: while hurt, damage and frames alone never
      change health and the player stays hurt. */
  lemma {:induction false} HurtIsInvulnerable(t: Tuning, s: State, evs: seq<Event>)
    requires s.isHurt
    requires forall i :: 0 <= i < |evs| ==> evs[i].TakeDamageCall? || evs[i].UpdateCall?
    ensures Run(t, s, evs).health == s.health && Run(t, s, evs).isHurt
    decreases |evs|
  {
    if evs != [] {
      assert evs[0].TakeDamageCall? || evs[0].UpdateCall?;
      var rest := evs[1..];
      assert forall i :: 0 <= i < |rest| ==> rest[i].TakeDamageCall? || rest[i].UpdateCall? by {
        forall i | 0 <= i < |rest| ensures rest[i].TakeDamageCall? || rest[i].UpdateCall? {
          assert rest[i] == evs[i + 1];
        }
      }
      HurtIsInvulnerable(t, Apply(t, s, evs[0]), rest);
    }
  }

  /** Three effective hits kill: a hit landing during the invulnerability
      window is ignored, and the third counted one leaves health 0 and the
      body stopped. */
  lemma ThirdHitKills(t: Tuning, scale: Vec3, gravityScale: real)
    ensures var r := Run(t, Initial(scale, gravityScale),
      [TakeDamageCall, TakeDamageCall, InvokeDue, TakeDamageCall, InvokeDue, TakeDamageCall]);
      r.isDead && r.health == 0 && r.velocity == Zero2 && !r.resetPending
  {
  }
}
