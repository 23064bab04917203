// The player's per-frame rule: running, speed, direction, jump, stamina drain
// or regeneration and fear decay, applied to the shared store.

module PlayerComponent {
  import opened GameContext

  /** The input flags read at the start of a frame. */
  datatype Controls = Controls(forward: bool, back: bool, left: bool, right: bool, jump: bool, run: bool)

  datatype Option<T> = None | Some(value: T)

  /** A velocity command handed to the physics engine. `Move` sets the horizontal
      velocity to the unit vector along (signX, 0, signZ) scaled by `speed` (the
      zero vector when both signs are 0) and the vertical component to `vy`;
      `Impulse` sets all three components as given. */
  datatype VelocityCommand =
    | Move(signX: int, signZ: int, speed: real, vy: real)
    | Impulse(vx: real, vy: real, vz: real)

  const RunSpeed: real := 8.0
  const WalkSpeed: real := 5.0
  const JumpSpeed: real := 8.0
  const GroundedThreshold: real := 0.05
  const DrainRate: real := 20.0
  const RegenRate: real := 10.0

  function Key(pressed: bool): int { if pressed then 1 else 0 }

  /** Net sideways input: positive to the right. */
  function DirectionX(c: Controls): int { Key(c.right) - Key(c.left) }

  /** Net front-back input: positive backwards. */
  function DirectionZ(c: Controls): int { Key(c.back) - Key(c.forward) }

  predicate Moving(c: Controls) { DirectionX(c) != 0 || DirectionZ(c) != 0 }

  predicate EffectiveRunning(c: Controls, stamina: real) { c.run && stamina > 0.0 }

  function Speed(running: bool): real { if running then RunSpeed else WalkSpeed }

  function AbsReal(x: real): real { if x < 0.0 then -x else x }

  predicate Jumps(c: Controls, velocity: Vec3)
  {
    c.jump && AbsReal(velocity.y) < GroundedThreshold
  }

  /** The value passed to updateStamina this frame, if any. */
  function StaminaTarget(running: bool, stamina: real, delta: real): Option<real>
  {
    if running then Some(stamina - delta * DrainRate)
    else if stamina < MaxStamina then Some(stamina + delta * RegenRate)
    else None
  }

  /** The updateStamina call of a frame, if any. */
  function StaminaOps(running: bool, stamina: real, delta: real): seq<Op>
  {
    match StaminaTarget(running, stamina, delta)
    case Some(v) => [UpdateStaminaOp(v)]
    case None => []
  }

  /** The decreaseFear call of a frame, if any. */
  function FearOps(c: Controls): seq<Op>
  {
    if Moving(c) then [DecreaseFearOp] else []
  }

  /** The store calls one frame makes, in source order. */
  function FrameOps(c: Controls, stamina: real, delta: real): seq<Op>
  {
    var running := EffectiveRunning(c, stamina);
    [SetRunningOp(running)] + StaminaOps(running, stamina, delta) + FearOps(c)
  }

  /** The velocity commands one frame issues, in order; `observed` is the last
      velocity the physics engine reported and `running` the effective running flag. */
  function FrameCommands(c: Controls, running: bool, observed: Vec3): seq<VelocityCommand>
  {
    var move := Move(DirectionX(c), DirectionZ(c), Speed(running), observed.y);
    if Jumps(c, observed) then [move, Impulse(observed.x, JumpSpeed, observed.z)] else [move]
  }

  // ---------------------------------------------------------------------------
  // What a frame does to the store.

  lemma SeqAssoc<T>(a: seq<T>, b: seq<T>, c: seq<T>, d: seq<T>)
    ensures a + b + c + d == a + (b + c + d)
  {
  }

  lemma FrameState(s: GameState, c: Controls, delta: real)
    ensures var r := Run(s, FrameOps(c, s.stamina, delta));
      && r.isRunning == (c.run && s.stamina > 0.0)
      && r.fearLevel == (if Moving(c) then MaxInt(s.fearLevel - 1, 0) else s.fearLevel)
      && (StaminaTarget(r.isRunning, s.stamina, delta).None? ==> r.stamina == s.stamina)
      && (StaminaTarget(r.isRunning, s.stamina, delta).Some? ==>
            r.stamina == WithStamina(s, StaminaTarget(r.isRunning, s.stamina, delta).value).stamina)
      && r == s.(isRunning := r.isRunning, stamina := r.stamina, fearLevel := r.fearLevel)
  {
    var running := EffectiveRunning(c, s.stamina);
    var first: seq<Op> := [SetRunningOp(running)];
    var stOps := StaminaOps(running, s.stamina, delta);
    var fearOps := FearOps(c);
    RunConcat(s, first + stOps, fearOps);
    RunConcat(s, first, stOps);
    assert first[..0] == [];
    var s1 := Run(s, first);
    assert s1 == WithRunning(s, running);
    var s2 := Run(s1, stOps);
    if stOps != [] {
      assert stOps[..0] == [];
      assert s2 == WithStamina(s1, stOps[0].value);
    }
    if fearOps != [] {
      assert fearOps[..0] == [];
      assert Run(s2, fearOps) == FearLowered(s2);
    }
  }

  /** With no stamina left the player is never running. */
  lemma ExhaustedNeverRuns(s: GameState, c: Controls, delta: real, observed: Vec3)
    requires s.stamina == 0.0
    ensures !Run(s, FrameOps(c, s.stamina, delta)).isRunning
    ensures FrameCommands(c, EffectiveRunning(c, s.stamina), observed)[0].speed == WalkSpeed
  {
    FrameState(s, c, delta);
  }

  /** Stamina after a frame stays in [0, 100]; running drains it strictly when time
      passes, resting never lowers it, and at exactly 100 resting makes no
      updateStamina call. */
  lemma FrameStamina(s: GameState, c: Controls, delta: real)
    requires Inv(s)
    ensures var ops := FrameOps(c, s.stamina, delta); var r := Run(s, ops);
      && 0.0 <= r.stamina <= MaxStamina
      && (r.isRunning && delta > 0.0 ==> r.stamina < s.stamina)
      && (!r.isRunning && delta >= 0.0 ==> r.stamina >= s.stamina)
      && (!r.isRunning && s.stamina == MaxStamina ==>
            r.stamina == MaxStamina && !exists i :: 0 <= i < |ops| && ops[i].UpdateStaminaOp?)
  {
    FrameState(s, c, delta);
    var ops := FrameOps(c, s.stamina, delta);
    if !EffectiveRunning(c, s.stamina) && s.stamina == MaxStamina {
      assert ops == [SetRunningOp(false)] + (if Moving(c) then [DecreaseFearOp] else []);
    }
  }

  /** The fear decay happens exactly on frames with a nonzero direction. */
  lemma FrameFear(s: GameState, c: Controls, delta: real)
    ensures var ops := FrameOps(c, s.stamina, delta);
      (DecreaseFearOp in ops <==> Moving(c))
      && (Moving(c) <==> !(c.left == c.right && c.back == c.forward))
  {
    var ops := FrameOps(c, s.stamina, delta);
    if DecreaseFearOp in ops {
      var i :| 0 <= i < |ops| && ops[i] == DecreaseFearOp;
      assert i == |ops| - 1;
    }
  }

  /** setRunning comes first and receives the effective running flag; at most one
      updateStamina follows; decreaseFear, when called, comes last. */
  lemma FrameCallOrder(c: Controls, stamina: real, delta: real)
    ensures var ops := FrameOps(c, stamina, delta);
      && 1 <= |ops| <= 3
      && ops[0] == SetRunningOp(c.run && stamina > 0.0)
      && (forall i :: 0 < i < |ops| ==> ops[i] == DecreaseFearOp || ops[i].UpdateStaminaOp?)
      && (forall i :: 1 < i < |ops| ==> ops[i] == DecreaseFearOp)
      && (forall i :: 0 <= i < |ops| - 1 ==> ops[i] != DecreaseFearOp)
  {
  }

  /** A frame keeps the store's invariant. */
  lemma FramePreservesInv(s: GameState, c: Controls, delta: real)
    requires Inv(s)
    ensures Inv(Run(s, FrameOps(c, s.stamina, delta)))
  {
    RunPreservesInv(s, FrameOps(c, s.stamina, delta));
  }

  // ---------------------------------------------------------------------------
  // What a frame commands the physics engine.

  lemma FrameMovement(c: Controls, running: bool, observed: Vec3)
    ensures var m := FrameCommands(c, running, observed)[0];
      && m.Move?
      && m.vy == observed.y
      && m.speed == (if running then RunSpeed else WalkSpeed)
      && (m.signX > 0 <==> c.right && !c.left) && (m.signX < 0 <==> c.left && !c.right)
      && (m.signZ > 0 <==> c.back && !c.forward) && (m.signZ < 0 <==> c.forward && !c.back)
      && -1 <= m.signX <= 1 && -1 <= m.signZ <= 1
      && (m.signX == 0 && m.signZ == 0 <==> !Moving(c))
  {
  }

  /** A jump is commanded only when the jump flag is set and the player is nearly
      still vertically; it uses the last observed horizontal velocity, not the
      direction just commanded. */
  lemma FrameJump(c: Controls, running: bool, observed: Vec3)
    ensures var cmds := FrameCommands(c, running, observed);
      && (|cmds| == 2 <==> c.jump && -GroundedThreshold < observed.y < GroundedThreshold)
      && (|cmds| == 1 || |cmds| == 2)
      && (|cmds| == 2 ==> cmds[1] == Impulse(observed.x, JumpSpeed, observed.z))
  {
  }

  // ---------------------------------------------------------------------------
  // The component: the last reported velocity and position, and the frame hook.

  class Player {
    /** Last velocity reported by the physics engine. */
    var velocity: Vec3
    /** Last position reported by the physics engine. */
    var position: Vec3

    constructor ()
      ensures velocity == Vec3(0.0, 0.0, 0.0) && position == Vec3(0.0, 1.0, 0.0)
    {
      velocity := Vec3(0.0, 0.0, 0.0);
      position := Vec3(0.0, 1.0, 0.0);
    }

    /** The velocity subscription. */
    method OnVelocity(v: Vec3)
      modifies this`velocity
      ensures velocity == v
    {
      velocity := v;
    }

    /** The position subscription: remember the position and report it to the store. */
    method OnPosition(p: Vec3, store: GameStore)
      requires store.Valid()
      modifies this`position, store
      ensures position == p
      ensures store.Valid() && store.trace == old(store.trace) + [UpdatePlayerPositionOp(p)]
      ensures store.state == WithPlayerPosition(old(store.state), p)
    {
      position := p;
      store.UpdatePlayerPosition(p);
    }

    /** The velocity commands of a frame, given its effective running flag. */
    method Steer(c: Controls, running: bool) returns (commands: seq<VelocityCommand>)
      ensures commands == FrameCommands(c, running, velocity)
    {
      var speed := if running then RunSpeed else WalkSpeed;
      var dx := Key(c.right) - Key(c.left);
      var dz := Key(c.back) - Key(c.forward);
      commands := [Move(dx, dz, speed, velocity.y)];
      if c.jump && AbsReal(velocity.y) < GroundedThreshold {
        commands := commands + [Impulse(velocity.x, JumpSpeed, velocity.z)];
      }
    }

    /** One frame: the store calls of FrameOps in order, returning the velocity
        commands of FrameCommands. */
    method Frame(c: Controls, delta: real, store: GameStore) returns (commands: seq<VelocityCommand>)
      requires store.Valid()
      modifies store
      ensures store.Valid()
      ensures store.trace == old(store.trace) + FrameOps(c, old(store.state).stamina, delta)
      ensures store.state == Run(old(store.state), FrameOps(c, old(store.state).stamina, delta))
      ensures commands == FrameCommands(c, EffectiveRunning(c, old(store.state).stamina), velocity)
    {
      ghost var t0 := store.trace;
      var stamina := store.state.stamina;
      var running := c.run && stamina > 0.0;
      ghost var staminaOps := StaminaOps(running, stamina, delta);
      ghost var fearOps := FearOps(c);
      ghost var ops := FrameOps(c, stamina, delta);
      SeqAssoc(t0, [SetRunningOp(running)], staminaOps, fearOps);

      store.SetRunning(running);
      ghost var t1 := store.trace;

      commands := Steer(c, running);
      FrameMovement(c, running, velocity);

      if running {
        store.UpdateStamina(stamina - delta * DrainRate);
      } else if stamina < MaxStamina {
        store.UpdateStamina(stamina + delta * RegenRate);
      }
      ghost var t2 := store.trace;
      assert t2 == t1 + staminaOps;

      if commands[0].signX != 0 || commands[0].signZ != 0 {
        store.DecreaseFear();
      }
      assert store.trace == t2 + fearOps;
      RunConcat(Initial(), t0, ops);
    }
  }
}
