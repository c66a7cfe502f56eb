# Race core of a split-screen charge-and-release racer, in Dafny

This project models the sequential game logic of a two-player arcade racing
game built on Unity. Cars move by charging and releasing a "stroke". The game
logic lives in three scripts:

- `Player` (Assets/Scripts/Player.cs) holds one racer's state:
  - the charge bar: a held press fills a bar that pumps up and down, and the
    release turns the charge into acceleration and a cooldown;
  - the steering and drive command issued every physics tick;
  - the checkpoint/lap counters, which write the race result into the race
    object when the last lap closes;
  - the input switch the race uses to lock players out.
- `GameManager` (Assets/Scripts/GameManager.cs) is the race session:
  - the finish order counter;
  - the end-of-race leaderboard, where score = 5·place + strokes and lower is better;
  - the four-phase lifecycle preRace → countdown → inRace → postRace.
- `IceCream` (Assets/IceCream.cs) is a trigger zone. It overrides a player
  body's drag on entry and restores the saved drag on exit.

Each script is a Dafny `class` with the script's fields, updated in place by
methods with `modifies` clauses. Each method states its whole new state: the
fields the game logic keeps change exactly as a pure step function of the old
values says, and the method also states the controller flags it sets and the
impulse it issues. The step functions carry the game's rules in their
`ensures` clauses. Lemmas over sequences of events (frames, inputs, checkpoint
triggers, finishes, zone entries) prove the properties that span several calls.

Files:
- `common.dfy`: `Option` and Unity's `Mathf.Clamp`.
- `player_charge.dfy`: the charge step functions and their invariant over any run of inputs and frames.
- `player_laps.dfy`: the checkpoint step function and lap lemmas.
- `player.dfy`: the `Player` class.
- `race_standings.dfy`: `PlayerFinished` as a step function, and the finish-order lemma.
- `race_leaderboard.dfy`: scores and leaderboard rows.
- `race_phases.dfy`: the lifecycle as a step function over the frame time.
- `game_manager.dfy`: the `GameManager` class.
- `ice_cream.dfy`: the drag zone.

All declarations sit in Dafny's default module. In C#, `Player` and
`GameManager` share the global namespace and refer to each other, so one
module mirrors that.

How the model maps the engine:
- Unity floats are `real`. The thresholds `0.001f` and `0.999f` are the reals
  0.001 and 0.999.
- Frame time is a `dt` parameter. Whether the car is grounded is a parameter of `StartCharging`.
- Both animation curves are uninterpreted functions `real -> real` in the
  player's settings. The charge amount is the curve's output, and the code
  never clamps it. So the model does not claim the charge lies in [0, 1], and
  the cooldown set on release (`chargeCooldown * chargeAmount`) can fall
  outside [0, chargeCooldown] until the next frame clamps it.
- Commands to the car controller are recorded, not simulated:
  - the `canSteer` and `wheelFriction` flags;
  - the `DriveCommand` returned by `FixedUpdate`;
  - the forward impulse returned by `StopCharging`, and by `OnChargeRelease`
    and `SetInputControl` when they release a charge.
- Input callbacks reach the player only while its actions are enabled, and only
  players 1 and 2 have bindings (`OnChargePress`, `OnChargeRelease`, `OnTurning`).
- The coroutines become `GameManager.Tick(dt)`:
  - A wait of d seconds ends on the first frame on which the time spent in the
    phase reaches d.
  - The race phase first waits 1 s, then polls `raceComplete` on each frame.
  - Entering a phase runs that phase's entry action.
- What the scene supplies in the game is passed in as parameters instead:
  - the checkpoint count and `playerCount` and `maxNumPlayers` from
    `DontDestroyScript`, to the `GameManager` constructor;
  - the race itself (`GameManager.Instance`), to the `Player` constructor,
    which keeps it for `PassedCheckpoint` and copies the race's checkpoint
    count as Player.cs:136 does;
  - the players found in the scene, to `GameManager.Start`, which registers
    them as GameManager.cs:55-59 does. There is one race object
    (GameManager.cs:45-46): `PlayersValid` says every registered player was
    created against this very race, and `Player.Valid` says it counts that
    race's checkpoints.

Some behaviour a reader of the game might expect is absent from the code, and the model follows the code:
- `Player.PassedCheckpoint` (Player.cs:264-288) has no "finished" flag and does not call
  `GameManager.PlayerFinished`. On the last checkpoint of the last lap it sets
  `raceComplete` and `winner` itself and leaves the counters as they were.
  Passing that checkpoint again repeats this.
- Player.cs has no stun logic and no steering deadzone (`Steer`, Player.cs:254-257, stores the raw value), and `StopCharging` (Player.cs:176-191) does not count a stroke.
- `winner` is written at Player.cs:275, but GameManager.cs never declares it. The
  model's `GameManager` has a `winner` field.

The leaderboard's two labelling slips are reproduced as written, not corrected:
- On a tie, the row label is the player's place (`playerOrder[0]`), not the player's number (GameManager.cs:163).
- When player 2 leads, player 1's row shows player 2's score (`scores[1]`, GameManager.cs:175).

## Model

| member | source | states |
|---|---|---|
| `Clamp` | Assets/Scripts/Player.cs:205 | Mathf.Clamp: result within [min, max] when min <= max, the value itself when already inside, min below, max above |
| `StartChargingStep` | Assets/Scripts/Player.cs:160-174 | a press during cooldown (> 0.001) or airborne changes nothing; otherwise charging starts upward from an empty bar and zero charge time, cooldown and acceleration kept |
| `StopChargingStep` | Assets/Scripts/Player.cs:176-191 | a release when not charging changes nothing; otherwise charging ends, the acceleration becomes the charge held at release, the cooldown becomes chargeCooldown × that charge, and the bar empties |
| `ReleaseImpulse` | Assets/Scripts/Player.cs:187-188 | with a non-negative release scale, the impulse is at least scale × charge and at most scale × (charge + 999): the bonus is clamped to [0, 999] |
| `ChargingUpdateStep` | Assets/Scripts/Player.cs:203-233 | cooldown ends in [0, chargeCooldown], equals old − dt when that is in range, and never grows from a non-negative value; when not charging only the cooldown changes; when charging the charge time moves by dt/chargeTime up or down, clamped to [0, 1], the charge is the curve at the new time, and the direction turns down exactly when the time passes 0.999 going up and up exactly when it drops below 0.001 going down |
| `AccelerationUpdateStep` | Assets/Scripts/Player.cs:249-252 | acceleration ends in [0, 1], never increases from a non-negative value, falls by exactly dt/accelDecayTime when that stays in range, and is 0 once the decay passes zero |
| `FrameStep` | Assets/Scripts/Player.cs:139-144 | after a frame (decay, then charge update) cooldown is in [0, chargeCooldown] and acceleration in [0, 1]; charging on or off is unchanged |
| `InitialChargeInvariant` | Assets/Scripts/Player.cs:38-45 | the starting field values satisfy the charge invariant |
| `RunChargeKeepsInvariant` | Assets/Scripts/Player.cs:139-252 | for any interleaving of presses, releases and frames with dt >= 0: the charge time stays in [0, 1], a player not charging holds zero charge, and after a frame cooldown is in [0, chargeCooldown] and acceleration in [0, 1] |
| `ReleaseBlocksImmediatePress` | Assets/Scripts/Player.cs:162-185 | a release leaving cooldown above 0.001 makes an immediate press a no-op |
| `PassedCheckpointStep` | Assets/Scripts/Player.cs:264-288 | ignored iff the checkpoint is not last+1; wins iff it is the next one, the last of the lap, on the last lap; otherwise a lap-closing checkpoint moves to lap+1 with last = 0 and any other sets last to the checkpoint; keeps 0 <= last < numCheckpoints and 1 <= lap <= numLaps |
| `RunKeepsOnCourse` | Assets/Scripts/Player.cs:264-288 | for any sequence of checkpoint triggers, a player starting on the course stays there: 0 <= last < numCheckpoints and 1 <= lap <= numLaps |
| `StartsOnCourse` | Assets/Scripts/Player.cs:51-52 | lap 1, checkpoint 0 is on any course with at least one checkpoint and one lap |
| `OutOfOrderTriggersIgnored` | Assets/Scripts/Player.cs:267 | triggers that are never last+1 leave the counters as they are and never win |
| `RestOfLapInOrder` | Assets/Scripts/Player.cs:264-288 | checkpoints k+1..numCheckpoints in order end the lap: next lap at 0 without a win on an earlier lap, a win with the counters at the checkpoint before the last on the last lap |
| `WholeLapInOrder` | Assets/Scripts/Player.cs:264-288 | a whole lap 1..numCheckpoints from checkpoint 0 starts the next lap, or wins on the last lap |
| `Player.constructor` | Assets/Scripts/Player.cs:80-137 | a new player keeps the race it is given and has the initial field values (lap 1, checkpoint 0, not charging, direction up, all amounts and timers 0), satisfies the invariant, has its actions enabled iff it is player 1 or 2, and its checkpoint count is the race's (Player.cs:136) |
| `Player.Update` | Assets/Scripts/Player.cs:139-144 | the charge fields change as one FrameStep; the invariant is kept |
| `Player.FixedUpdate` | Assets/Scripts/Player.cs:146-158 | while charging the car turns on the spot by steering × sensitivity and gets steer 0; otherwise steer goes to Move; the acceleration is passed either way |
| `Player.StartCharging` | Assets/Scripts/Player.cs:160-174 | fields change as StartChargingStep; an accepted press turns off steering and wheel friction, a refused one leaves them |
| `Player.StopCharging` | Assets/Scripts/Player.cs:176-191 | fields change as StopChargingStep and the player ends not charging; a real release restores steering and friction and issues ReleaseImpulse of the charge at release, a no-op issues none |
| `Player.ChargingUpdate` | Assets/Scripts/Player.cs:203-233 | fields change as ChargingUpdateStep; the invariant is kept |
| `Player.AccelerationUpdate` | Assets/Scripts/Player.cs:249-252 | acceleration changes as AccelerationUpdateStep |
| `Player.Steer` | Assets/Scripts/Player.cs:254-257 | the raw axis value becomes the steering input, with no deadzone |
| `Player.PassedCheckpoint` | Assets/Scripts/Player.cs:264-288 | counters change as PassedCheckpointStep; a win sets its own race's raceComplete and winner = this player's number and leaves the counters; otherwise raceComplete and winner are untouched; the on-course invariant is kept |
| `Player.SetInputControl` | Assets/Scripts/Player.cs:291-306 | actions become enabled as asked (`InputSwitched`); disabling while charging releases the charge as StopCharging does: charge fields as StopChargingStep, steering and friction back on, and the ReleaseImpulse of the held charge returned; otherwise no impulse and no charge field, flag, lap counter or steering input changes |
| `Player.OnChargePress` | Assets/Scripts/Player.cs:95 | while the actions are enabled and bound, a press has StartCharging's whole effect (StartChargingStep, and steering and friction off when accepted); otherwise the charge fields and flags stay as they were |
| `Player.OnChargeRelease` | Assets/Scripts/Player.cs:96 | while the actions are enabled and bound, a release has StopCharging's whole effect: StopChargingStep, and for a player that was charging steering and friction back on and the ReleaseImpulse returned; otherwise no impulse and the charge fields and flags stay as they were |
| `Player.OnTurning` | Assets/Scripts/Player.cs:101 | the turning axis reaches Steer only while the actions are enabled and bound |
| `PlayerFinishedStep` | Assets/Scripts/GameManager.cs:184-191 | the finisher's slot gets old playersFinished + 1, the other slot is untouched, the count goes up by one, and raceComplete is afterwards exactly: already set, or a one-player game, or the new count equals maxNumPlayers (never cleared) |
| `FinishAll` | Assets/Scripts/GameManager.cs:184-191 | after a sequence of finishes the count has grown by the number of finishes |
| `FinishOrderIsCallOrder` | Assets/Scripts/GameManager.cs:184-191 | for distinct finishers, the i-th to finish gets place playersFinished + i + 1 (strictly increasing in call order), players not finishing keep their place, and raceComplete holds afterwards iff it held before, someone finished in a one-player game, or the count passed through maxNumPlayers |
| `PlacesFromStart` | Assets/Scripts/GameManager.cs:34-41 | from the initial values, places are 1, 2, … in finishing order |
| `TallyScores` | Assets/Scripts/GameManager.cs:152-157 | score[i] = 5·place[i] + strokes[i] for i < playerCount, 0 for the rest |
| `LeaderboardLines` | Assets/Scripts/GameManager.cs:159-176 | rows 1 and 2; when score[0] < score[1], player 1 first with both true scores; when score[0] > score[1], player 2 first with score[1] shown on both rows; on a tie the rows keep place order labelled by place; the first row never shows more points than the second |
| `LowerScoreListedFirst` | Assets/Scripts/GameManager.cs:159-176 | with unequal scores, the first row labels the player with the lowest score and shows that score |
| `EqualStrokesFirstFinisherLeads` | Assets/Scripts/GameManager.cs:147-191 | in a two-player race with equal strokes, the player who finished first heads the leaderboard under their own number |
| `SummaryFor` | Assets/Scripts/GameManager.cs:122-134 | one player: a stroke summary of player 1's strokes; otherwise the leaderboard whose rows are LeaderboardLines of the places and the TallyScores scores, as ActivateLeaderboard (GameManager.cs:147-176) writes them |
| `PhaseStep` | Assets/Scripts/GameManager.cs:74-145 | the phase advances by at most one step in the order preRace, countdown, inRace, postRace; preRace and countdown end exactly when their waits are over; inRace ends exactly when the 1 s grace is over and raceComplete holds; postRace is never left; a new phase's clock starts at 0 |
| `PhasesOnlyAdvance` | Assets/Scripts/GameManager.cs:74-145 | over any run of frames the phase never goes back, advances at most one phase per frame, and never reaches postRace unless raceComplete is raised |
| `PostRaceIsFinal` | Assets/Scripts/GameManager.cs:122-145 | once in postRace every later frame stays there |
| `GameManager.constructor` | Assets/Scripts/GameManager.cs:22-51 | the given lap and checkpoint counts, no player registered, preRace with a zero clock, race not complete, no finishers, places and strokes [0, 0], no summary, no restart |
| `GameManager.Start` | Assets/Scripts/GameManager.cs:53-64 | the scene's players, all created against this race, are appended to the list; every player's input is switched off as `Player.SetInputControl(false)` says, leaving none charging; the pre-race phase begins with its clock at 0 |
| `GameManager.SetPlayersInputControl` | Assets/Scripts/GameManager.cs:66-72 | every player ends as `Player.SetInputControl(canInput)` leaves it (`InputSwitched`): actions enabled as asked, each active charge released on disabling, with steering and friction back on; lap counters and steering input untouched |
| `GameManager.StartPreRace` | Assets/Scripts/GameManager.cs:74-83 | phase preRace with its clock at 0 |
| `GameManager.StartCountdown` | Assets/Scripts/GameManager.cs:85-99 | phase countdown |
| `GameManager.StartRace` | Assets/Scripts/GameManager.cs:101-120 | phase inRace; every player's actions enabled with charge fields, flags, lap counters and steering input unchanged |
| `GameManager.EndRace` | Assets/Scripts/GameManager.cs:122-145 | the summary is SummaryFor of the places and strokes at race end, the stroke counters are a new [0, 0], the phase is postRace, and every player ends as `Player.SetInputControl(false)` leaves it: input disabled, an active charge released as StopChargingStep with steering and friction back on, lap counters and steering input unchanged |
| `GameManager.ActivateLeaderboard` | Assets/Scripts/GameManager.cs:147-177 | the rows returned are LeaderboardLines of the scores the loop fills in (TallyScores) |
| `GameManager.PlayerFinished` | Assets/Scripts/GameManager.cs:184-191 | finish count, places and raceComplete change as PlayerFinishedStep |
| `GameManager.Tick` | Assets/Scripts/GameManager.cs:74-145 | the phase and its clock change as PhaseStep; entering inRace enables every player as `Player.SetInputControl(true)`; entering postRace stores the summary, resets strokes and switches every player off as `Player.SetInputControl(false)`, leaving none charging; any other frame leaves players, summary and strokes alone; the restart is requested once the post-race wait is over; places, raceComplete, winner, the lap count, the player list and every lap counter are untouched |
| `WinningCheckpointEndsRace` | Assets/Scripts/GameManager.cs:114-119 | for a player registered with the race, a winning checkpoint (Player.cs:272-276) sets the flag the race phase polls, so a frame that ends the grace second enters postRace, with raceComplete set and that player as the winner |
| `SavedDrag` | Assets/IceCream.cs:18 | the saved drag is taken from the body only while it is still negative, and kept otherwise |
| `IceCream.constructor` | Assets/IceCream.cs:7-8 | oldDrag starts at the sentinel -1 |
| `IceCream.OnTriggerEnter` | Assets/IceCream.cs:10-22 | a collider without a Player changes nothing; a player's body has its drag saved only if none is saved yet, and its drag becomes newDrag |
| `IceCream.OnTriggerExit` | Assets/IceCream.cs:24-33 | a player's body gets drag = oldDrag; a collider without a Player changes nothing |
| `EnterThenExitRestoresDrag` | Assets/IceCream.cs:10-33 | on a fresh zone, enter then exit gives a body with drag d >= 0 back d, and d is what the zone saved |
| `SavedDragIsNeverOverwritten` | Assets/IceCream.cs:18 | once a non-negative drag is saved, no sequence of entries and exits changes it |
| `FirstEntryDecidesRestoredDrag` | Assets/IceCream.cs:8-31 | on a fresh zone the first body's drag d >= 0 is the drag every later exit restores, whoever enters later |

## Left out

- Unity UI writes (charge bar fill, lap texts, bar scale, countdown displays, leaderboard and winner texts): display only. The leaderboard and the one-player summary are kept as values.
- Input-system binding, device selection and the horn (Player.cs:86-129, 193-201): platform plumbing. The bindings are reduced to the enabled-and-bound gate of the three callbacks.
- Car controller and rigid body internals (`Move`, `ApplyForwardImpulse`, `StopAllWheels`, `RespawnCar`, `ApplyImpulse`, `ApplyForce`, `isKinematic`): foreign physics. Only the issued values are recorded, and `Respawn`, `ApplyImpulse`, `ApplyForce`, `IsRespawning` and `StopAllWheels` are not modelled at all.
- `AnimationCurve.Evaluate`: uninterpreted functions.
- IEEE single-precision rounding: the arithmetic is exact real arithmetic.
- Camera priority, `RestartScene` and the scene reload (GameManager.cs:80, 142-144, 179-182): engine calls. The reload is a `restartRequested` flag, and the recreated session is not modelled.
- Singleton `Instance` handling and the `FindObjectsOfType`/`GameObject.Find` lookups: replaced by parameters of the constructors and of `GameManager.Start`; each player keeps the race given to its constructor and `PassedCheckpoint` reads the lap count from and writes the result to that race.
- Stroke counting: `playerStrokeCounters` is incremented by a script that is not part of this model. Strokes are read as they are and reset at the end of the race.
- GameManager.Tick: coroutine timing is approximated. The time spent in a phase restarts at 0 on entry, and the leftover of the frame that ended the previous wait is dropped.
- GameManager.ActivateLeaderboard: requires `playerCount <= 2`. With 3 or more players the scoring loop (GameManager.cs:154-156) indexes past the two-entry arrays and throws; the model does not capture that exception.
- GameManager.EndRace: requires `playerCount <= 2`. With 3 or more players the leaderboard throws and the coroutine stops before resetting the strokes, entering postRace and disabling input; the model does not capture that aborted coroutine.
- GameManager.Tick: requires `playerCount <= 2`, for the same reason as GameManager.EndRace, which it runs on entering postRace.
- GameManager.SetPlayersInputControl: the forward impulses issued by the charges it releases are not collected. Each player's new state, including the restored steering and friction, is stated.
- Player.constructor: `canSteer` and `wheelFriction` start true. This assumes the car controller starts with steering and wheel friction on; Player.cs does not set them.
- GameManager.PlayerFinished: requires a player number of 1 or 2. For any other number GameManager.cs:188 throws `IndexOutOfRangeException`, possibly after line 186 has already set `raceComplete`; the model does not capture that partial update.
