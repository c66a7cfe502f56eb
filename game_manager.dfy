// The race session (Assets/Scripts/GameManager.cs): finish order, race
// completion, the end-of-race summary and the four-phase lifecycle. The
// coroutines of the original are replaced by Tick, which advances the
// phase by one frame as PhaseStep in race_phases.dfy says and runs the
// entry action of the phase it enters.
//
// The singleton lookup, the checkpoint search and the DontDestroyScript
// settings are replaced by constructor parameters; the players found in the
// scene are handed to Start, which registers them.

/** What EndRace writes on screen, as values. */
datatype RaceSummary =
  | NoSummary                                   // the race has not ended
  | StrokeSummary(strokes: int)                 // one player: "Race end : N Strokes"
  | Leaderboard(lines: seq<LeaderboardLine>)   // two players: the leaderboard rows

/** The summary EndRace produces from the places and stroke counts at the end of the race. */
function SummaryFor(playerOrder: seq<int>, strokes: seq<int>, playerCount: int): (r: RaceSummary)
  requires |playerOrder| == 2 && |strokes| == 2
  ensures playerCount == 1 ==> r == StrokeSummary(strokes[0])
  ensures playerCount != 1 ==>
    r == Leaderboard(LeaderboardLines(playerOrder, TallyScores(playerOrder, strokes, playerCount))) && |r.lines| == 2
{
  if playerCount == 1 then StrokeSummary(strokes[0])
  else Leaderboard(LeaderboardLines(playerOrder, TallyScores(playerOrder, strokes, playerCount)))
}

class GameManager {
  const numLaps: int
  /** The number of lap checkpoints in the scene. */
  const numCheckpoints: int
  var gameState: GameState
  const durations: PhaseDurations
  var raceComplete: bool
  /** Written by Player.PassedCheckpoint; the original class does not declare it. */
  var winner: int
  const playerOrder: array<int>
  var playerStrokeCounters: array<int>
  var players: seq<Player>
  var playersFinished: int
  /** DontDestroyScript.playerCount and maxNumPlayers. */
  const playerCount: int
  const maxNumPlayers: int

  /** Time spent in the current phase: the coroutines' pending wait. */
  var phaseElapsed: real
  var raceSummary: RaceSummary
  /** RestartScene has been called. */
  var restartRequested: bool

  ghost predicate Valid()
    reads this
  {
    playerOrder.Length == 2 && playerStrokeCounters.Length == 2 && playerOrder != playerStrokeCounters
  }

  /**
    Every registered player is consistent and plays in this race: it reads
    the lap count from, and writes its win to, this very object.
  */
  ghost predicate PlayersValid()
    reads this, players
  {
    forall p | p in players :: p.Valid() && p.race == this
  }

  function Results(): Standings
    reads this, playerOrder
  {
    Standings(playersFinished, playerOrder[..], raceComplete)
  }

  function Phase(): Sequencer
    reads this
  {
    Sequencer(gameState, phaseElapsed)
  }

  /** Awake and the field initialisers; no player is registered yet. */
  constructor (numLaps: int, numCheckpoints: int, durations: PhaseDurations, playerCount: int, maxNumPlayers: int)
    ensures Valid() && PlayersValid() && fresh(playerOrder) && fresh(playerStrokeCounters)
    ensures this.numLaps == numLaps && this.numCheckpoints == numCheckpoints && this.durations == durations
    ensures players == [] && this.playerCount == playerCount && this.maxNumPlayers == maxNumPlayers
    ensures Results() == InitialStandings && playerStrokeCounters[..] == [0, 0]
    ensures Phase() == InitialSequencer && raceSummary == NoSummary && !restartRequested
  {
    this.numLaps := numLaps;
    this.numCheckpoints := numCheckpoints;
    this.durations := durations;
    players := [];
    this.playerCount := playerCount;
    this.maxNumPlayers := maxNumPlayers;
    gameState := PreRace;
    raceComplete := false;
    winner := 0;
    playerOrder := new int[] [0, 0];
    playerStrokeCounters := new int[] [0, 0];
    playersFinished := 0;
    phaseElapsed := 0.0;
    raceSummary := NoSummary;
    restartRequested := false;
  }

  /**
    Start: the players found in the scene are registered, input is switched
    off for every player and the pre-race phase begins. Every player of the
    scene was created against this race, the single GameManager.Instance.
  */
  method Start(allPlayers: seq<Player>)
    requires PlayersValid()
    requires forall p | p in allPlayers :: p.Valid() && p.race == this
    modifies this`players, this`gameState, this`phaseElapsed, players, allPlayers
    ensures players == old(players) + allPlayers
    ensures PlayersValid() && Phase() == InitialSequencer
    ensures forall p | p in players :: p.InputSwitched(false) && !p.isCharging
  {
    players := players + allPlayers;
    SetPlayersInputControl(false);
    StartPreRace();
  }

  /** SetPlayersInputControl: SetInputControl on every player in turn. */
  method SetPlayersInputControl(canInput: bool)
    requires PlayersValid()
    modifies players
    ensures PlayersValid()
    ensures forall p | p in players :: p.InputSwitched(canInput) && (!canInput ==> !p.isCharging)
  {
    var i := 0;
    while i < |players|
      invariant 0 <= i <= |players|
      invariant PlayersValid()
      invariant forall p | p in players[..i] :: p.InputSwitched(canInput) && (!canInput ==> !p.isCharging)
      invariant forall p | p in players && p !in players[..i] :: unchanged(p)
    {
      var p := players[i];
      var _ := p.SetInputControl(canInput);
      assert players[..i + 1] == players[..i] + [p];
      i := i + 1;
    }
    assert players[..i] == players;
  }

  method StartPreRace()
    modifies this`gameState, this`phaseElapsed
    ensures Phase() == InitialSequencer
  {
    gameState := PreRace;
    phaseElapsed := 0.0;
  }

  /** StartCountdown (the countdown displays are not modelled). */
  method StartCountdown()
    modifies this`gameState
    ensures gameState == Countdown
  {
    gameState := Countdown;
  }

  /** StartRace: the race phase begins and every player gets input. */
  method StartRace()
    requires PlayersValid()
    modifies this`gameState, players
    ensures gameState == InRace && PlayersValid()
    ensures forall p | p in players :: p.InputSwitched(true)
  {
    gameState := InRace;
    SetPlayersInputControl(true);
  }

  /**
    EndRace: the summary is computed from the places and strokes, the stroke
    counters start again at zero, the post-race phase begins and every player
    loses input, which also releases any charge in progress.
  */
  method EndRace()
    requires Valid() && PlayersValid() && playerCount <= 2
    modifies this`raceSummary, this`playerStrokeCounters, this`gameState, players
    ensures Valid() && PlayersValid() && fresh(playerStrokeCounters)
    ensures raceSummary == SummaryFor(playerOrder[..], old(playerStrokeCounters[..]), playerCount)
    ensures playerStrokeCounters[..] == [0, 0]
    ensures gameState == PostRace
    ensures forall p | p in players :: p.InputSwitched(false) && !p.isCharging
  {
    if playerCount == 1 {
      raceSummary := StrokeSummary(playerStrokeCounters[0]);
    } else {
      var lines := ActivateLeaderboard();
      raceSummary := Leaderboard(lines);
    }

    playerStrokeCounters := new int[] [0, 0];

    gameState := PostRace;

    SetPlayersInputControl(false);
  }

  /**
    ActivateLeaderboard: scores are filled in for the first playerCount
    players (five per place plus the strokes, 0 for the rest), then the two
    rows are chosen by comparing the two scores.
  */
  method ActivateLeaderboard() returns (lines: seq<LeaderboardLine>)
    requires Valid() && playerCount <= 2
    ensures lines == LeaderboardLines(playerOrder[..], TallyScores(playerOrder[..], playerStrokeCounters[..], playerCount))
  {
    var scores := new int[] [0, 0];
    var i := 0;
    while i < playerCount
      invariant 0 <= i <= 2
      invariant i > 0 ==> i <= playerCount
      invariant forall j | 0 <= j < 2 ::
        scores[j] == if j < i then PlayerScore(playerOrder[j], playerStrokeCounters[j]) else 0
    {
      scores[i] := (PositionModifier * playerOrder[i]) + playerStrokeCounters[i];
      i := i + 1;
    }
    assert scores[..] == TallyScores(playerOrder[..], playerStrokeCounters[..], playerCount);

    if scores[0] == scores[1] {
      lines := [LeaderboardLine(1, playerOrder[0], scores[0]), LeaderboardLine(2, playerOrder[1], scores[1])];
    } else if scores[0] < scores[1] {
      lines := [LeaderboardLine(1, 1, scores[0]), LeaderboardLine(2, 2, scores[1])];
    } else {
      lines := [LeaderboardLine(1, 2, scores[1]), LeaderboardLine(2, 1, scores[1])];
    }
  }

  /**
    PlayerFinished: the player gets the next place and the finish count goes
    up; the race is complete in a one-player game or once every player is in.
  */
  method PlayerFinished(playerNumber: int)
    requires Valid() && 1 <= playerNumber <= 2
    modifies this`raceComplete, this`playersFinished, playerOrder
    ensures Results() == PlayerFinishedStep(old(Results()), playerNumber, playerCount, maxNumPlayers)
  {
    if playerCount == 1 { raceComplete := true; }

    playersFinished := playersFinished + 1;
    playerOrder[playerNumber - 1] := playersFinished;

    if playersFinished == maxNumPlayers { raceComplete := true; }
  }

  /**
    One frame of the lifecycle: the phase moves as PhaseStep says, the entry
    action of a newly entered phase runs, and the end of the post-race wait
    requests the scene restart. Standings and winner are not touched here.
  */
  method Tick(dt: real)
    requires Valid() && PlayersValid() && playerCount <= 2
    modifies this, players
    ensures Valid() && PlayersValid() && players == old(players)
    ensures Phase() == PhaseStep(old(Phase()), dt, old(raceComplete), durations)
    ensures restartRequested == (old(restartRequested) || RestartDue(Phase(), durations))
    ensures Results() == old(Results()) && winner == old(winner)
    ensures old(gameState) == Countdown && gameState == InRace ==>
      forall p | p in players :: p.InputSwitched(true)
    ensures old(gameState) == InRace && gameState == PostRace ==>
      raceSummary == SummaryFor(old(playerOrder[..]), old(playerStrokeCounters[..]), playerCount) &&
      playerStrokeCounters[..] == [0, 0] &&
      forall p | p in players :: p.InputSwitched(false) && !p.isCharging
    ensures !(old(gameState) == InRace && gameState == PostRace) ==>
      raceSummary == old(raceSummary) && playerStrokeCounters == old(playerStrokeCounters)
    ensures !(old(gameState) == Countdown && gameState == InRace) && !(old(gameState) == InRace && gameState == PostRace) ==>
      forall p | p in players :: unchanged(p)
    ensures forall p | p in players :: p.Progress() == old(p.Progress())
  {
    var next := PhaseStep(Phase(), dt, raceComplete, durations);
    if next.gameState != gameState {
      if next.gameState == Countdown {
        StartCountdown();
      } else if next.gameState == InRace {
        StartRace();
      } else if next.gameState == PostRace {
        EndRace();
      }
    }
    phaseElapsed := next.elapsed;
    if RestartDue(Phase(), durations) {
      restartRequested := true;
    }
  }
}

/**
  The hand-off between a player and the race: a registered player's winning
  checkpoint raises the flag the race phase polls, so a frame that ends the
  grace second enters the post-race phase with that player as the winner.
*/
method WinningCheckpointEndsRace(g: GameManager, p: Player, checkpointNum: int, dt: real)
  requires g.Valid() && g.PlayersValid() && g.playerCount <= 2 && p in g.players
  requires g.gameState == InRace && g.phaseElapsed + dt >= RaceStartGrace
  requires PassedCheckpointStep(p.Progress(), checkpointNum, g.numCheckpoints, g.numLaps).RaceWon?
  modifies g, g.players
  ensures g.gameState == PostRace && g.raceComplete && g.winner == p.settings.playerNumber
{
  p.PassedCheckpoint(checkpointNum);
  g.Tick(dt);
}
