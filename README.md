# Game-state store and frame rules of a 3D chase game

This project models the logic that drives a small browser chase game. The rest of the game is rendering and physics wiring. Three parts are modelled:

- **The game-state store** (`GameContext`, in `game_context.dfy`). One `GameState` record holds ten fields: started flag, score, lives, diaper status, survival count, difficulty, player position, running flag, stamina and fear. It starts from a fixed initial record and changes only through eight named transitions. Each transition is a pure function. The class `GameStore` holds the current record and has one method per transition. A ghost `trace` records every transition applied so far, and `Valid()` says the current record is what that trace produces from the initial record. Because of this, every property proved about reachable states holds for the store object.
- **The player frame rule** (`PlayerComponent`, in `player.dfy`). Once per frame it decides:
  - whether the player is effectively running;
  - the speed and the sign of the horizontal direction;
  - whether to jump;
  - whether to drain or regenerate stamina;
  - whether fear decays.

  It then calls the store in source order and returns the velocity commands it hands to the physics engine.
- **The enemy frame rule** (`EnemyComponent`, in `enemy.dfy`). It compares the planar distance to the player with the detection radius 8 and the capture radius 1.5:
  - inside the detection radius it chases, raises fear, and captures inside the capture radius;
  - outside it, it patrols.

  An `Enemy` object fixes its chase speed `2 + 0.5 * difficulty` when it is created.

Each frame rule is given two ways:
- as a function listing the store calls it makes (`FrameOps`, `EnemyOps`, values of the `Op` datatype);
- as a method on the component class that makes those calls on a `GameStore` and is proved equal to that list.

`Run(s, ops)` applies a list of calls to a state. The lemmas about `Run` then carry the store invariant and "the difficulty never falls, diapers never come off" through any mix of frames and user actions.

Numbers are modelled as exact reals (fear as an integer). The code also multiplies, squares and takes a square root; the model abstracts away the floating-point rounding of these operations. Distances are compared squared, against 64 and 2.25, and `SquaredComparison` proves this gives the same answer as comparing the square root.

Three points of the code's behaviour that the model keeps:
- `restartGame` copies the survival count (src/contexts/GameContext.tsx:54) and no operation increments it, so the model proves it stays 0.
- The player's position reaches the store through the position subscription (src/components/Player.tsx:26-29), not through the frame callback. The model has `Player.OnPosition` for it.
- Stamina drain and regeneration are scaled by the frame time `delta`, as in src/components/Player.tsx:62-66.

## Model

| member | source | states |
|---|---|---|
| GameContext.InitialInv | src/contexts/GameContext.tsx:30-41 | the initial record has fear 0, stamina 100, difficulty 1, score 0, lives 3, survival count 0, is not started, not running, not in diapers, and the player is at (0, 1, 0) |
| GameContext.Started | src/contexts/GameContext.tsx:46-48 | startGame sets the started flag and keeps every other field |
| GameContext.StartIdempotent | src/contexts/GameContext.tsx:46-48 | starting twice gives the same record as starting once |
| GameContext.Restarted | src/contexts/GameContext.tsx:50-57 | restartGame gives the initial record except diaper status, survival count and difficulty; diaper status and survival count are copied from the previous record |
| GameContext.RestartFields | src/contexts/GameContext.tsx:50-57 | after a restart the game is not started or running, score 0, lives 3, stamina 100, fear 0, player at the initial position; difficulty rises by exactly 0.5 from at most 4.5 and becomes 5 from 4.5 or more |
| GameContext.RestartCapsDifficulty | src/contexts/GameContext.tsx:55 | difficulty 4.8 restarts to 5, not 5.3 |
| GameContext.RestartsFromInitial | src/contexts/GameContext.tsx:50-57 | after n restarts from the initial record the difficulty is min(1 + n/2, 5) |
| GameContext.WithPlayerPosition | src/contexts/GameContext.tsx:59-61 | updatePlayerPosition stores the given triple and changes no other field |
| GameContext.FearRaised | src/contexts/GameContext.tsx:63-68 | increaseFear never takes fear above 100 and changes no other field |
| GameContext.FearLowered | src/contexts/GameContext.tsx:70-75 | decreaseFear never takes fear below 0 and changes no other field |
| GameContext.FearStaysInRange | src/contexts/GameContext.tsx:63-75 | from fear in [0, 100] both fear operations stay in [0, 100]; below 100 increaseFear strictly raises fear, by exactly 5 from at most 95 and to 100 from 95 or more; above 0 decreaseFear lowers it by exactly 1 |
| GameContext.FearSaturates | src/contexts/GameContext.tsx:63-75 | increaseFear at 100 and decreaseFear at 0 leave the record unchanged |
| GameContext.Captured | src/contexts/GameContext.tsx:77-84 | getCapured sets diapers on, fear 0 and stamina 100 and changes no other field |
| GameContext.CaptureIdempotent | src/contexts/GameContext.tsx:77-84 | capturing twice gives the same record as capturing once |
| GameContext.CaptureAbsorbsFear | src/contexts/GameContext.tsx:63-84 | raising fear just before a capture leaves no trace in the captured record |
| GameContext.WithStamina | src/contexts/GameContext.tsx:86-91 | updateStamina always stores a value in [0, 100] and changes no other field |
| GameContext.StaminaClamp | src/contexts/GameContext.tsx:86-91 | the stored stamina is the given value when it is in [0, 100], 0 below that and 100 above; repeating the same call changes nothing more |
| GameContext.WithRunning | src/contexts/GameContext.tsx:93-95 | setRunning stores the given flag and changes no other field |
| GameContext.ApplyPreservesInv | src/contexts/GameContext.tsx:46-95 | each of the eight transitions keeps fear and stamina in [0, 100], difficulty in [1, 5], and score, lives and survival count at 0, 3 and 0 |
| GameContext.RunPreservesInv | src/contexts/GameContext.tsx:46-95 | any sequence of transitions keeps that invariant |
| GameContext.ReachableInv | src/contexts/GameContext.tsx:30-95 | every record reachable from the initial one satisfies the invariant |
| GameContext.ApplyMonotone | src/contexts/GameContext.tsx:46-95 | no transition lowers the difficulty or takes it past 5, and none takes the diapers off |
| GameContext.RunMonotone | src/contexts/GameContext.tsx:46-95 | across any sequence of transitions the difficulty never falls and, once on, the diapers stay on |
| GameContext.GameStore.constructor | src/contexts/GameContext.tsx:44 | the provider starts from the initial record with an empty history |
| GameContext.GameStore.Perform | src/contexts/GameContext.tsx:44 | applying one transition replaces the record with its result, appends it to the history, keeps the store valid, and never lowers the difficulty or removes the diapers |
| GameContext.GameStore.StartGame | src/contexts/GameContext.tsx:46-48 | the store's record becomes the started record |
| GameContext.GameStore.RestartGame | src/contexts/GameContext.tsx:50-57 | the store's record becomes the restarted record, with difficulty not lower than before |
| GameContext.GameStore.UpdatePlayerPosition | src/contexts/GameContext.tsx:59-61 | the store's record takes the new player position |
| GameContext.GameStore.IncreaseFear | src/contexts/GameContext.tsx:63-68 | the store's record takes the raised fear |
| GameContext.GameStore.DecreaseFear | src/contexts/GameContext.tsx:70-75 | the store's record takes the lowered fear |
| GameContext.GameStore.GetCapured | src/contexts/GameContext.tsx:77-84 | the store's record becomes the captured record |
| GameContext.GameStore.UpdateStamina | src/contexts/GameContext.tsx:86-91 | the store's record takes the clamped stamina |
| GameContext.GameStore.SetRunning | src/contexts/GameContext.tsx:93-95 | the store's record takes the running flag |
| PlayerComponent.FrameState | src/components/Player.tsx:37-71 | after a player frame the running flag is `run && stamina > 0`; fear is lowered by 1 (not below 0) exactly on moving frames; stamina is the clamped drain or regeneration value, or unchanged when no update is made; no other field changes |
| PlayerComponent.FrameCallOrder | src/components/Player.tsx:37-71 | a frame calls setRunning first with the effective running flag, then at most one updateStamina, and decreaseFear only last |
| PlayerComponent.ExhaustedNeverRuns | src/components/Player.tsx:40-44 | with stamina 0 the player is not running after the frame and moves at walking speed 5 |
| PlayerComponent.FrameStamina | src/components/Player.tsx:62-66 | from a valid record stamina stays in [0, 100]; running with positive delta strictly lowers it; resting with non-negative delta never lowers it; resting at exactly 100 makes no updateStamina call |
| PlayerComponent.FrameFear | src/components/Player.tsx:47-71 | decreaseFear is called exactly when the direction is nonzero, which is exactly when left differs from right or back differs from forward |
| PlayerComponent.FramePreservesInv | src/components/Player.tsx:37-71 | a player frame keeps the store invariant |
| PlayerComponent.FrameMovement | src/components/Player.tsx:44-54 | the movement command keeps the observed vertical velocity, has speed 8 when running and 5 otherwise, its x sign is positive exactly for right without left and negative exactly for left without right, its z sign likewise for back and forward, and it is zero exactly when the player is not moving |
| PlayerComponent.FrameJump | src/components/Player.tsx:57-59 | a second command is issued exactly when jump is pressed and the vertical velocity is strictly between -0.05 and 0.05; it is (observed vx, 8, observed vz) |
| PlayerComponent.Player.constructor | src/components/Player.tsx:20-21 | the observed velocity starts at (0, 0, 0) and the position at (0, 1, 0) |
| PlayerComponent.Player.OnVelocity | src/components/Player.tsx:25 | the velocity subscription stores the reported velocity |
| PlayerComponent.Player.OnPosition | src/components/Player.tsx:26-29 | the position subscription stores the reported position and passes it to updatePlayerPosition |
| PlayerComponent.Player.Steer | src/components/Player.tsx:44-59 | the commands built from the flags and the observed velocity are the frame's commands |
| PlayerComponent.Player.Frame | src/components/Player.tsx:37-71 | the frame makes exactly the store calls of the rule, in source order, keeps the store valid, and returns the frame's velocity commands |
| EnemyComponent.SquaredComparison | src/components/Enemy.tsx:39-45 | for a non-negative distance d with d*d = x, d is below a positive radius exactly when x is below the radius squared |
| EnemyComponent.HeightIgnored | src/components/Enemy.tsx:39-42 | the store calls and the velocity command do not depend on the heights of player or enemy |
| EnemyComponent.EnemyCalls | src/components/Enemy.tsx:45-69 | a capture implies detection, and a capturing frame calls increaseFear then getCapured; a frame that detects without capturing calls increaseFear once; a frame outside the detection radius calls neither |
| EnemyComponent.EnemyFrameState | src/components/Enemy.tsx:45-69 | after a capturing frame the record is the capture of the raised-fear record, with fear 0, stamina 100 and diapers on; a detecting frame only raises fear; a patrolling frame changes nothing |
| EnemyComponent.EnemyVelocityRule | src/components/Enemy.tsx:50-79 | the commanded vertical velocity is 0; chasing happens exactly on detection, toward the player's planar offset at the enemy's speed; patrol uses phases clock time plus spawn x and spawn z, at speed 1 |
| EnemyComponent.StrictRadii | src/components/Enemy.tsx:45-64 | distance exactly 8 does not detect; distance exactly 1.5 detects but does not capture |
| EnemyComponent.ThresholdScenario | src/components/Enemy.tsx:45-64 | with the player at (0, 1, 0), an enemy at (0, 1, 7) only raises fear and one at (0, 1, 1.4) also captures |
| EnemyComponent.ChaseSpeed | src/components/Enemy.tsx:26 | with difficulty in [1, 5] the chase speed lies in [2.5, 4.5] |
| EnemyComponent.ChaseSpeedMonotone | src/components/Enemy.tsx:26 | a higher difficulty gives a strictly higher chase speed |
| EnemyComponent.Enemy.constructor | src/components/Enemy.tsx:14-26 | a new enemy starts at its spawn point, not chasing, with chase speed fixed from the store's current difficulty |
| EnemyComponent.Enemy.OnPosition | src/components/Enemy.tsx:29-32 | the position subscription stores the reported position |
| EnemyComponent.Enemy.Frame | src/components/Enemy.tsx:34-81 | the frame sets chasing exactly on detection, makes exactly the rule's store calls in order, keeps the store valid, and returns the rule's velocity command |
| EnemyComponent.ChaseSpeedFixedAtCreation | src/components/Enemy.tsx:26 | an enemy created at difficulty 1 keeps chase speed 2.5 after the game restarts to difficulty 1.5 |
| EnemyComponent.CaptureScenario | src/components/Enemy.tsx:63-64 | an enemy 1.4 units from the player at the start of a session leaves the record with diapers on, fear 0 and stamina 100 after one frame |

## Left out

- React scheduling is not modelled. In the source, `setGameState` batches updates, and each frame callback reads the `gameState` snapshot of the last render. The model applies every store call at once, in source order, the same way for the player's stamina read and the enemy's player-position read.
- Vector magnitudes are abstracted. `Vector3.normalize` and the scaled magnitudes are not computed: the player's movement command keeps the direction signs and the speed, and the enemy's chase command keeps the planar offset and the speed.
- The patrol velocity is abstracted. Its `sin`/`cos` values are floating-point trigonometry, so the patrol command records only their arguments and the patrol speed.
- Square roots are not computed. The model compares squared distances; `SquaredComparison` links that to comparing the root.
- JavaScript doubles are modelled as exact reals.
- The camera follow (`lerp`, `lookAt`, src/components/Player.tsx:74-83) is floating-point presentation and is left out.
- The physics engine is a foreign library. Velocity commands are returned values; its position and velocity reports are the `OnPosition` and `OnVelocity` methods.
- The capture notification (`toast.error`) is display I/O and is left out.
- The clock's elapsed time is a parameter of `Enemy.Frame`.
- The `useGame` guard that throws outside a provider (src/contexts/GameContext.tsx:116-121) is a framework concern; the model always has a store object.
- Mobile touch controls, the environment geometry, the start screen, the HUD and the scene composition are input plumbing and presentation, and are not part of this model. The order in which the player and the two enemies run within one frame belongs to the scene wiring. Since every store call keeps the invariant, any order does too (`RunPreservesInv`).
- The `isChasing` flag only drives rendering (glow, labels, light). It is modelled as the `chasing` field, without the rendering.
- No component in the repository calls `restartGame`. It is modelled as the store offers it.
