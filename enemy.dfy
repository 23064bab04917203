// An enemy's per-frame rule: chase and frighten the player inside the detection
// radius, capture inside the capture radius, patrol otherwise.

module EnemyComponent {
  import opened GameContext

  const DetectionRadius: real := 8.0
  const CaptureRadius: real := 1.5
  const BaseChaseSpeed: real := 2.0
  const ChaseSpeedPerDifficulty: real := 0.5
  const PatrolSpeed: real := 1.0

  /** The square of the distance between the two positions in the ground plane;
      the heights are ignored. */
  function PlanarDistSq(player: Vec3, enemy: Vec3): real
  {
    (player.x - enemy.x) * (player.x - enemy.x) + (player.z - enemy.z) * (player.z - enemy.z)
  }

  /** The planar distance is below the detection radius. */
  predicate Detects(player: Vec3, enemy: Vec3)
  {
    PlanarDistSq(player, enemy) < DetectionRadius * DetectionRadius
  }

  /** The planar distance is below the capture radius. */
  predicate Catches(player: Vec3, enemy: Vec3)
  {
    PlanarDistSq(player, enemy) < CaptureRadius * CaptureRadius
  }

  /** Comparing a distance with a radius is the same as comparing their squares,
      so the model needs no square root. */
  lemma SquaredComparison(d: real, x: real, radius: real)
    requires 0.0 <= d && d * d == x && 0.0 < radius
    ensures d < radius <==> x < radius * radius
  {
    var dd, dr, rr := d * d, d * radius, radius * radius;
    if d < radius {
      assert dd <= dr;
      assert dr < rr;
    } else {
      assert rr <= dr;
      assert dr <= dd;
    }
  }

  /** The chase speed an enemy fixes when it is created. */
  function ChaseSpeed(difficulty: real): (speed: real)
    ensures StartDifficulty <= difficulty <= MaxDifficulty ==> 2.5 <= speed <= 4.5
  {
    BaseChaseSpeed + difficulty * ChaseSpeedPerDifficulty
  }

  lemma ChaseSpeedMonotone(d1: real, d2: real)
    requires d1 < d2
    ensures ChaseSpeed(d1) < ChaseSpeed(d2)
  {
  }

  /** A velocity command handed to the physics engine. `Chase` is the unit vector
      along (towardX, 0, towardZ) (zero when both are 0) scaled by `speed`, with
      vertical component `vy`; `Patrol` is (sin(phaseX) * speed, vy,
      cos(phaseZ) * speed), the trigonometry being left to the engine. */
  datatype EnemyVelocity =
    | Chase(towardX: real, towardZ: real, speed: real, vy: real)
    | Patrol(phaseX: real, phaseZ: real, speed: real, vy: real)

  /** The store calls one enemy frame makes, in source order. */
  function EnemyOps(player: Vec3, enemy: Vec3): seq<Op>
  {
    if Detects(player, enemy) then
      [IncreaseFearOp] + (if Catches(player, enemy) then [GetCapuredOp] else [])
    else []
  }

  /** The velocity command of one enemy frame at clock time `time`. */
  function EnemyCommand(player: Vec3, enemy: Vec3, spawn: Vec3, speed: real, time: real): EnemyVelocity
  {
    if Detects(player, enemy) then Chase(player.x - enemy.x, player.z - enemy.z, speed, 0.0)
    else Patrol(time + spawn.x, time + spawn.z, PatrolSpeed, 0.0)
  }

  // ---------------------------------------------------------------------------
  // Properties of the rule.

  /** Only the ground-plane coordinates matter. */
  lemma HeightIgnored(player: Vec3, enemy: Vec3, spawn: Vec3, speed: real, time: real, py: real, ey: real)
    ensures EnemyOps(player.(y := py), enemy.(y := ey)) == EnemyOps(player, enemy)
    ensures EnemyCommand(player.(y := py), enemy.(y := ey), spawn, speed, time)
            == EnemyCommand(player, enemy, spawn, speed, time)
  {
    assert PlanarDistSq(player.(y := py), enemy.(y := ey)) == PlanarDistSq(player, enemy);
  }

  /** Capture is nested inside detection: a capturing frame raises fear first,
      then captures; a detecting frame raises fear exactly once; a frame outside
      the detection radius calls neither. */
  lemma EnemyCalls(player: Vec3, enemy: Vec3)
    ensures var ops := EnemyOps(player, enemy);
      && (Catches(player, enemy) ==> Detects(player, enemy) && ops == [IncreaseFearOp, GetCapuredOp])
      && (Detects(player, enemy) && !Catches(player, enemy) ==> ops == [IncreaseFearOp])
      && (!Detects(player, enemy) ==> ops == [])
      && (IncreaseFearOp in ops <==> Detects(player, enemy))
      && (GetCapuredOp in ops <==> Catches(player, enemy))
  {
  }

  /** What one enemy frame does to the store. */
  lemma {:induction false} EnemyFrameState(s: GameState, enemy: Vec3)
    ensures var r := Run(s, EnemyOps(s.playerPosition, enemy));
      && (Catches(s.playerPosition, enemy) ==>
            r == Captured(FearRaised(s)) && r.fearLevel == 0 && r.stamina == MaxStamina && r.wearingDiapers)
      && (Detects(s.playerPosition, enemy) && !Catches(s.playerPosition, enemy) ==> r == FearRaised(s))
      && (!Detects(s.playerPosition, enemy) ==> r == s)
  {
    var ops := EnemyOps(s.playerPosition, enemy);
    if Catches(s.playerPosition, enemy) {
      assert ops == [IncreaseFearOp, GetCapuredOp];
      assert ops[..1] == [IncreaseFearOp] && ops[..1][..0] == [];
      assert Run(s, ops[..1]) == FearRaised(s);
    } else if Detects(s.playerPosition, enemy) {
      assert ops == [IncreaseFearOp];
      assert ops[..0] == [];
    }
  }

  /** The commanded velocity: chase toward the player at the enemy's speed inside
      the detection radius, patrol around the spawn point otherwise; never vertical. */
  lemma EnemyVelocityRule(player: Vec3, enemy: Vec3, spawn: Vec3, speed: real, time: real)
    ensures var v := EnemyCommand(player, enemy, spawn, speed, time);
      && v.vy == 0.0
      && (v.Chase? <==> Detects(player, enemy))
      && (v.Chase? ==> v.towardX == player.x - enemy.x && v.towardZ == player.z - enemy.z && v.speed == speed)
      && (v.Patrol? ==> v.phaseX == time + spawn.x && v.phaseZ == time + spawn.z && v.speed == PatrolSpeed)
  {
  }

  /** Both comparisons are strict: distance exactly 8 patrols, exactly 1.5 does not capture. */
  lemma StrictRadii(y1: real, y2: real)
    ensures !Detects(Vec3(0.0, y1, 0.0), Vec3(8.0, y2, 0.0))
    ensures Detects(Vec3(0.0, y1, 0.0), Vec3(1.5, y2, 0.0))
    ensures !Catches(Vec3(0.0, y1, 0.0), Vec3(1.5, y2, 0.0))
  {
  }

  /** Player at (0, 1, 0): an enemy at (0, 1, 7) frightens, one at (0, 1, 1.4) captures. */
  lemma ThresholdScenario()
    ensures EnemyOps(Vec3(0.0, 1.0, 0.0), Vec3(0.0, 1.0, 7.0)) == [IncreaseFearOp]
    ensures EnemyOps(Vec3(0.0, 1.0, 0.0), Vec3(0.0, 1.0, 1.4)) == [IncreaseFearOp, GetCapuredOp]
  {
  }

  // ---------------------------------------------------------------------------
  // The component.

  class Enemy {
    /** Where the enemy was placed; the patrol phases are offset by it. */
    const spawn: Vec3
    /** The chase speed, fixed from the difficulty at creation. */
    const speed: real
    /** Last position reported by the physics engine. */
    var position: Vec3
    var chasing: bool

    constructor (initialPosition: Vec3, store: GameStore)
      ensures spawn == initialPosition && position == initialPosition && !chasing
      ensures speed == ChaseSpeed(store.state.difficulty)
    {
      spawn := initialPosition;
      speed := BaseChaseSpeed + store.state.difficulty * ChaseSpeedPerDifficulty;
      position := initialPosition;
      chasing := false;
    }

    /** The position subscription. */
    method OnPosition(p: Vec3)
      modifies this`position
      ensures position == p
    {
      position := p;
    }

    /** One frame at clock time `time`: the store calls of EnemyOps in order, the
        chasing flag, and the velocity command of EnemyCommand. */
    method Frame(time: real, store: GameStore) returns (command: EnemyVelocity)
      requires store.Valid()
      modifies this`chasing, store
      ensures store.Valid()
      ensures chasing == Detects(old(store.state).playerPosition, position)
      ensures store.trace == old(store.trace) + EnemyOps(old(store.state).playerPosition, position)
      ensures store.state == Run(old(store.state), EnemyOps(old(store.state).playerPosition, position))
      ensures command == EnemyCommand(old(store.state).playerPosition, position, spawn, speed, time)
    {
      ghost var t0 := store.trace;
      var player := store.state.playerPosition;
      var enemy := position;
      ghost var ops := EnemyOps(player, enemy);
      ghost var expected := EnemyCommand(player, enemy, spawn, speed, time);
      var distSq := PlanarDistSq(player, enemy);
      if distSq < DetectionRadius * DetectionRadius {
        chasing := true;
        store.IncreaseFear();
        command := Chase(player.x - enemy.x, player.z - enemy.z, speed, 0.0);
        assert command == expected;
        if distSq < CaptureRadius * CaptureRadius {
          store.GetCapured();
          assert ops == [IncreaseFearOp, GetCapuredOp];
          assert store.trace == t0 + ops;
        } else {
          assert store.trace == t0 + ops;
        }
      } else {
        chasing := false;
        command := Patrol(time + spawn.x, time + spawn.z, PatrolSpeed, 0.0);
        assert command == expected;
        assert store.trace == t0 + ops;
      }
      RunConcat(Initial(), t0, ops);
    }
  }

  /** An enemy keeps the speed it was created with when the game is restarted. */
  method ChaseSpeedFixedAtCreation() returns (before: real, after: real)
    ensures before == 2.5 && after == 2.5
  {
    var store := new GameStore();
    var enemy := new Enemy(Vec3(10.0, 1.0, 5.0), store);
    before := enemy.speed;
    store.RestartGame();
    assert store.state.difficulty == 1.5;
    after := enemy.speed;
  }

  /** An enemy 1.4 units from the player captures it in one frame. */
  method CaptureScenario() returns (final: GameState)
    ensures final.wearingDiapers && final.fearLevel == 0 && final.stamina == MaxStamina
  {
    var store := new GameStore();
    store.UpdatePlayerPosition(Vec3(0.0, 1.0, 0.0));
    var enemy := new Enemy(Vec3(0.0, 1.0, 1.4), store);
    var command := enemy.Frame(0.0, store);
    ThresholdScenario();
    final := store.state;
  }
}
