// The shared game-state store: one GameState record, eight named transitions,
// and the provider object that holds the current record.

module GameContext {

  /** A position or velocity triple; the source's numbers are modelled as exact reals. */
  datatype Vec3 = Vec3(x: real, y: real, z: real)

  /** The single record describing the session. */
  datatype GameState = GameState(
    gameStarted: bool,
    score: int,
    lives: int,
    wearingDiapers: bool,
    timesSurvived: int,
    difficulty: real,
    playerPosition: Vec3,
    isRunning: bool,
    stamina: real,
    fearLevel: int)

  const StartDifficulty: real := 1.0
  const DifficultyStep: real := 0.5
  const MaxDifficulty: real := 5.0
  const FearStep: int := 5
  const FearDecay: int := 1
  const MaxFear: int := 100
  const MaxStamina: real := 100.0

  /** The state the provider starts with; restarting goes back to it except for three fields. */
  function Initial(): GameState
  {
    GameState(
      gameStarted := false,
      score := 0,
      lives := 3,
      wearingDiapers := false,
      timesSurvived := 0,
      difficulty := StartDifficulty,
      playerPosition := Vec3(0.0, 1.0, 0.0),
      isRunning := false,
      stamina := MaxStamina,
      fearLevel := 0)
  }

  function MinReal(a: real, b: real): real { if a <= b then a else b }
  function MaxReal(a: real, b: real): real { if a >= b then a else b }
  function MinInt(a: int, b: int): int { if a <= b then a else b }
  function MaxInt(a: int, b: int): int { if a >= b then a else b }

  // ---------------------------------------------------------------------------
  // The eight transitions, each a record-to-record function.

  /** startGame: the session becomes active. */
  function Started(s: GameState): (r: GameState)
    ensures r.gameStarted
    ensures r == s.(gameStarted := r.gameStarted)
  {
    s.(gameStarted := true)
  }

  /** restartGame: back to the initial record, keeping the diaper status and the
      survival count, and raising the difficulty by one step up to the cap. */
  function Restarted(s: GameState): (r: GameState)
    ensures r == Initial().(wearingDiapers := r.wearingDiapers, timesSurvived := r.timesSurvived, difficulty := r.difficulty)
    ensures r.wearingDiapers == s.wearingDiapers && r.timesSurvived == s.timesSurvived
  {
    Initial().(
      wearingDiapers := s.wearingDiapers,
      timesSurvived := s.timesSurvived,
      difficulty := MinReal(s.difficulty + DifficultyStep, MaxDifficulty))
  }

  /** updatePlayerPosition: any triple is accepted as it is. */
  function WithPlayerPosition(s: GameState, p: Vec3): (r: GameState)
    ensures r.playerPosition == p
    ensures r == s.(playerPosition := r.playerPosition)
  {
    s.(playerPosition := p)
  }

  /** increaseFear: fear rises by 5, saturating at 100. */
  function FearRaised(s: GameState): (r: GameState)
    ensures r.fearLevel <= MaxFear
    ensures r == s.(fearLevel := r.fearLevel)
  {
    s.(fearLevel := MinInt(s.fearLevel + FearStep, MaxFear))
  }

  /** decreaseFear: fear falls by 1, saturating at 0. */
  function FearLowered(s: GameState): (r: GameState)
    ensures 0 <= r.fearLevel
    ensures r == s.(fearLevel := r.fearLevel)
  {
    s.(fearLevel := MaxInt(s.fearLevel - FearDecay, 0))
  }

  /** getCapured (the source's spelling): diapers on, fear cleared, stamina refilled. */
  function Captured(s: GameState): (r: GameState)
    ensures r.wearingDiapers && r.fearLevel == 0 && r.stamina == MaxStamina
    ensures r == s.(wearingDiapers := r.wearingDiapers, fearLevel := r.fearLevel, stamina := r.stamina)
  {
    s.(wearingDiapers := true, fearLevel := 0, stamina := MaxStamina)
  }

  /** updateStamina: the caller's candidate value, clamped to [0, 100]. */
  function WithStamina(s: GameState, value: real): (r: GameState)
    ensures 0.0 <= r.stamina <= MaxStamina
    ensures r == s.(stamina := r.stamina)
  {
    s.(stamina := MaxReal(0.0, MinReal(MaxStamina, value)))
  }

  /** setRunning: any flag is accepted as it is. */
  function WithRunning(s: GameState, running: bool): (r: GameState)
    ensures r.isRunning == running
    ensures r == s.(isRunning := r.isRunning)
  {
    s.(isRunning := running)
  }

  // ---------------------------------------------------------------------------
  // Transitions as data, so that sequences of store calls can be reasoned about.

  datatype Op =
    | StartGameOp
    | RestartGameOp
    | UpdatePlayerPositionOp(position: Vec3)
    | IncreaseFearOp
    | DecreaseFearOp
    | GetCapuredOp
    | UpdateStaminaOp(value: real)
    | SetRunningOp(running: bool)

  function Apply(s: GameState, op: Op): GameState
  {
    match op
    case StartGameOp => Started(s)
    case RestartGameOp => Restarted(s)
    case UpdatePlayerPositionOp(p) => WithPlayerPosition(s, p)
    case IncreaseFearOp => FearRaised(s)
    case DecreaseFearOp => FearLowered(s)
    case GetCapuredOp => Captured(s)
    case UpdateStaminaOp(v) => WithStamina(s, v)
    case SetRunningOp(b) => WithRunning(s, b)
  }

  /** The state after applying `ops` in order, starting from `s`. */
  function Run(s: GameState, ops: seq<Op>): GameState
    decreases |ops|
  {
    if ops == [] then s else Apply(Run(s, ops[..|ops| - 1]), ops[|ops| - 1])
  }

  function Repeat(op: Op, n: nat): (ops: seq<Op>)
  {
    if n == 0 then [] else Repeat(op, n - 1) + [op]
  }

  lemma {:induction false} RunConcat(s: GameState, a: seq<Op>, b: seq<Op>)
    ensures Run(s, a + b) == Run(Run(s, a), b)
    decreases |b|
  {
    if b == [] {
      assert a + b == a;
    } else {
      var b' := b[..|b| - 1];
      assert (a + b)[..|a + b| - 1] == a + b';
      assert (a + b)[|a + b| - 1] == b[|b| - 1];
      RunConcat(s, a, b');
    }
  }

  // ---------------------------------------------------------------------------
  // The invariant every reachable state keeps.

  /** Fear and stamina within [0, 100], difficulty within [1, 5], and the three
      counters that no transition changes still at their initial values. */
  predicate Inv(s: GameState)
  {
    && 0 <= s.fearLevel <= MaxFear
    && 0.0 <= s.stamina <= MaxStamina
    && StartDifficulty <= s.difficulty <= MaxDifficulty
    && s.score == 0 && s.lives == 3 && s.timesSurvived == 0
  }

  lemma InitialInv()
    ensures Inv(Initial())
    ensures !Initial().gameStarted && !Initial().wearingDiapers && !Initial().isRunning
    ensures Initial().playerPosition == Vec3(0.0, 1.0, 0.0)
    ensures Initial().fearLevel == 0 && Initial().stamina == MaxStamina && Initial().difficulty == StartDifficulty
  {
  }

  lemma ApplyPreservesInv(s: GameState, op: Op)
    requires Inv(s)
    ensures Inv(Apply(s, op))
  {
  }

  lemma {:induction false} RunPreservesInv(s: GameState, ops: seq<Op>)
    requires Inv(s)
    ensures Inv(Run(s, ops))
    decreases |ops|
  {
    if ops != [] {
      RunPreservesInv(s, ops[..|ops| - 1]);
      ApplyPreservesInv(Run(s, ops[..|ops| - 1]), ops[|ops| - 1]);
    }
  }

  /** Every state reachable from the initial one keeps the invariant. */
  lemma ReachableInv(ops: seq<Op>)
    ensures Inv(Run(Initial(), ops))
  {
    RunPreservesInv(Initial(), ops);
  }

  /** One transition never lowers the difficulty (while it is within its cap)
      and never takes the diapers off. */
  lemma ApplyMonotone(s: GameState, op: Op)
    requires s.difficulty <= MaxDifficulty
    ensures s.difficulty <= Apply(s, op).difficulty <= MaxDifficulty
    ensures s.wearingDiapers ==> Apply(s, op).wearingDiapers
  {
  }

  lemma {:induction false} RunMonotone(s: GameState, ops: seq<Op>)
    requires s.difficulty <= MaxDifficulty
    ensures s.difficulty <= Run(s, ops).difficulty <= MaxDifficulty
    ensures s.wearingDiapers ==> Run(s, ops).wearingDiapers
    decreases |ops|
  {
    if ops != [] {
      RunMonotone(s, ops[..|ops| - 1]);
      ApplyMonotone(Run(s, ops[..|ops| - 1]), ops[|ops| - 1]);
    }
  }

  // ---------------------------------------------------------------------------
  // Properties of the single transitions.

  lemma StartIdempotent(s: GameState)
    ensures Started(Started(s)) == Started(s)
  {
  }

  lemma RestartFields(s: GameState)
    ensures !Restarted(s).gameStarted && !Restarted(s).isRunning
    ensures Restarted(s).score == 0 && Restarted(s).lives == 3
    ensures Restarted(s).stamina == MaxStamina && Restarted(s).fearLevel == 0
    ensures Restarted(s).playerPosition == Initial().playerPosition
    ensures s.difficulty <= MaxDifficulty - DifficultyStep ==> Restarted(s).difficulty == s.difficulty + DifficultyStep
    ensures s.difficulty >= MaxDifficulty - DifficultyStep ==> Restarted(s).difficulty == MaxDifficulty
  {
  }

  /** Difficulty 4.8 restarts to 5, not 5.3. */
  lemma RestartCapsDifficulty()
    ensures Restarted(Initial().(difficulty := 4.8)).difficulty == 5.0
  {
  }

  /** After n restarts from the start of the session the difficulty is min(1 + n/2, 5). */
  lemma {:induction false} RestartsFromInitial(n: nat)
    ensures Run(Initial(), Repeat(RestartGameOp, n)).difficulty
            == MinReal(StartDifficulty + (n as real) * DifficultyStep, MaxDifficulty)
  {
    if n > 0 {
      RestartsFromInitial(n - 1);
      var ops := Repeat(RestartGameOp, n);
      assert ops[..|ops| - 1] == Repeat(RestartGameOp, n - 1);
    }
  }

  lemma FearStaysInRange(s: GameState)
    requires 0 <= s.fearLevel <= MaxFear
    ensures 0 <= FearRaised(s).fearLevel <= MaxFear
    ensures 0 <= FearLowered(s).fearLevel <= MaxFear
    ensures s.fearLevel < MaxFear ==> s.fearLevel < FearRaised(s).fearLevel
    ensures s.fearLevel <= MaxFear - FearStep ==> FearRaised(s).fearLevel == s.fearLevel + FearStep
    ensures s.fearLevel >= MaxFear - FearStep ==> FearRaised(s).fearLevel == MaxFear
    ensures s.fearLevel > 0 ==> FearLowered(s).fearLevel == s.fearLevel - FearDecay
  {
  }

  /** increaseFear at 100 and decreaseFear at 0 change nothing. */
  lemma FearSaturates(s: GameState)
    ensures s.fearLevel == MaxFear ==> FearRaised(s) == s
    ensures s.fearLevel == 0 ==> FearLowered(s) == s
  {
  }

  lemma StaminaClamp(s: GameState, value: real)
    ensures 0.0 <= value <= MaxStamina ==> WithStamina(s, value).stamina == value
    ensures value < 0.0 ==> WithStamina(s, value).stamina == 0.0
    ensures value > MaxStamina ==> WithStamina(s, value).stamina == MaxStamina
    ensures WithStamina(WithStamina(s, value), value) == WithStamina(s, value)
  {
  }

  lemma CaptureIdempotent(s: GameState)
    ensures Captured(Captured(s)) == Captured(s)
  {
  }

  /** Fear raised just before a capture leaves no trace: the capture clears it. */
  lemma CaptureAbsorbsFear(s: GameState)
    ensures Captured(FearRaised(s)) == Captured(s)
  {
  }

  // ---------------------------------------------------------------------------
  // The provider: the one mutable record, overwritten by each operation.

  class GameStore {
    var state: GameState
    /** The transitions applied so far, in order. */
    ghost var trace: seq<Op>

    /** The current record is the one the recorded transitions produce from the
        initial record; in particular it keeps Inv. */
    ghost predicate Valid()
      reads this
    {
      state == Run(Initial(), trace) && Inv(state)
    }

    constructor ()
      ensures Valid() && state == Initial() && trace == []
    {
      state := Initial();
      trace := [];
    }

    /** Shared step of every operation: apply `op` and record it. */
    method Perform(op: Op)
      requires Valid()
      modifies this
      ensures Valid()
      ensures state == Apply(old(state), op) && trace == old(trace) + [op]
      ensures old(state).difficulty <= state.difficulty
      ensures old(state).wearingDiapers ==> state.wearingDiapers
    {
      assert (trace + [op])[..|trace + [op]| - 1] == trace;
      ApplyPreservesInv(state, op);
      state := Apply(state, op);
      trace := trace + [op];
    }

    method StartGame()
      requires Valid()
      modifies this
      ensures Valid() && trace == old(trace) + [StartGameOp]
      ensures state == Started(old(state))
    {
      Perform(StartGameOp);
    }

    method RestartGame()
      requires Valid()
      modifies this
      ensures Valid() && trace == old(trace) + [RestartGameOp]
      ensures state == Restarted(old(state))
      ensures old(state).difficulty <= state.difficulty
    {
      Perform(RestartGameOp);
    }

    method UpdatePlayerPosition(position: Vec3)
      requires Valid()
      modifies this
      ensures Valid() && trace == old(trace) + [UpdatePlayerPositionOp(position)]
      ensures state == WithPlayerPosition(old(state), position)
    {
      Perform(UpdatePlayerPositionOp(position));
    }

    method IncreaseFear()
      requires Valid()
      modifies this
      ensures Valid() && trace == old(trace) + [IncreaseFearOp]
      ensures state == FearRaised(old(state))
    {
      Perform(IncreaseFearOp);
    }

    method DecreaseFear()
      requires Valid()
      modifies this
      ensures Valid() && trace == old(trace) + [DecreaseFearOp]
      ensures state == FearLowered(old(state))
    {
      Perform(DecreaseFearOp);
    }

    method GetCapured()
      requires Valid()
      modifies this
      ensures Valid() && trace == old(trace) + [GetCapuredOp]
      ensures state == Captured(old(state))
    {
      Perform(GetCapuredOp);
    }

    method UpdateStamina(value: real)
      requires Valid()
      modifies this
      ensures Valid() && trace == old(trace) + [UpdateStaminaOp(value)]
      ensures state == WithStamina(old(state), value)
    {
      Perform(UpdateStaminaOp(value));
    }

    method SetRunning(running: bool)
      requires Valid()
      modifies this
      ensures Valid() && trace == old(trace) + [SetRunningOp(running)]
      ensures state == WithRunning(old(state), running)
    {
      Perform(SetRunningOp(running));
    }
  }
}
