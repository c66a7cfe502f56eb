// Finish order bookkeeping of the race (GameManager.PlayerFinished in
// Assets/Scripts/GameManager.cs), as a step function over the values it
// keeps. The `GameManager` class in game_manager.dfy follows this function.

/** The finish counter, the place recorded for each of the two players, and the race-complete flag. */
datatype Standings = Standings(playersFinished: int, playerOrder: seq<int>, raceComplete: bool)

const InitialStandings: Standings := Standings(0, [0, 0], false)

/**
  A player crossing the line gets the next place (one more than the number
  already finished); the other player's place is untouched. The race becomes
  complete at once in a one-player game, or when the count of finishers
  reaches the maximum number of players; it is never cleared.
*/
function PlayerFinishedStep(s: Standings, playerNumber: int, playerCount: int, maxNumPlayers: int): (r: Standings)
  requires |s.playerOrder| == 2 && 1 <= playerNumber <= 2
  ensures |r.playerOrder| == 2
  ensures r.playersFinished == s.playersFinished + 1
  ensures r.playerOrder[playerNumber - 1] == s.playersFinished + 1
  ensures r.playerOrder[2 - playerNumber] == s.playerOrder[2 - playerNumber]
  ensures r.raceComplete <==> s.raceComplete || playerCount == 1 || r.playersFinished == maxNumPlayers
{
  var complete := s.raceComplete || playerCount == 1;
  var finished := s.playersFinished + 1;
  Standings(finished, s.playerOrder[playerNumber - 1 := finished], complete || finished == maxNumPlayers)
}

/** Each entry names one of the two players. */
predicate ArePlayerNumbers(finishers: seq<int>)
{
  forall i | 0 <= i < |finishers| :: 1 <= finishers[i] <= 2
}

/** No player finishes twice. */
predicate NoRepeats(finishers: seq<int>)
{
  forall i, j | 0 <= i < j < |finishers| :: finishers[i] != finishers[j]
}

/** The standings after players finish in the given order. */
function FinishAll(s: Standings, finishers: seq<int>, playerCount: int, maxNumPlayers: int): (r: Standings)
  requires |s.playerOrder| == 2 && ArePlayerNumbers(finishers)
  ensures |r.playerOrder| == 2 && r.playersFinished == s.playersFinished + |finishers|
  decreases |finishers|
{
  if finishers == [] then s
  else FinishAll(PlayerFinishedStep(s, finishers[0], playerCount, maxNumPlayers), finishers[1..], playerCount, maxNumPlayers)
}

/**
  Places are handed out in call order: the i-th player to finish (from 0)
  gets place playersFinished + i + 1, so places strictly increase with call
  order; a player who has not finished keeps the place it had. The race is
  complete afterwards exactly when it was before, or someone finished in a
  one-player game, or the finish count passed through maxNumPlayers.
*/
lemma {:induction false} FinishOrderIsCallOrder(s: Standings, finishers: seq<int>, playerCount: int, maxNumPlayers: int)
  requires |s.playerOrder| == 2 && ArePlayerNumbers(finishers) && NoRepeats(finishers)
  ensures var r := FinishAll(s, finishers, playerCount, maxNumPlayers);
    (forall i | 0 <= i < |finishers| :: r.playerOrder[finishers[i] - 1] == s.playersFinished + i + 1) &&
    (forall k | 1 <= k <= 2 && k !in finishers :: r.playerOrder[k - 1] == s.playerOrder[k - 1]) &&
    (r.raceComplete <==>
      s.raceComplete || (finishers != [] && playerCount == 1) ||
      s.playersFinished < maxNumPlayers <= s.playersFinished + |finishers|)
  decreases |finishers|
{
  if finishers != [] {
    var first := finishers[0];
    var rest := finishers[1..];
    assert finishers == [first] + rest;
    var next := PlayerFinishedStep(s, first, playerCount, maxNumPlayers);
    assert ArePlayerNumbers(rest) by {
      forall i | 0 <= i < |rest| ensures 1 <= rest[i] <= 2 { assert rest[i] == finishers[i + 1]; }
    }
    assert NoRepeats(rest) by {
      forall i, j | 0 <= i < j < |rest| ensures rest[i] != rest[j] {
        assert rest[i] == finishers[i + 1] && rest[j] == finishers[j + 1];
      }
    }
    FinishOrderIsCallOrder(next, rest, playerCount, maxNumPlayers);
    var r := FinishAll(s, finishers, playerCount, maxNumPlayers);
    assert r == FinishAll(next, rest, playerCount, maxNumPlayers);
    assert first !in rest by {
      forall j | 0 <= j < |rest| ensures rest[j] != first { assert rest[j] == finishers[j + 1]; }
    }
    forall i | 0 <= i < |finishers|
      ensures r.playerOrder[finishers[i] - 1] == s.playersFinished + i + 1
    {
      if i > 0 { assert finishers[i] == rest[i - 1]; }
    }
    forall k | 1 <= k <= 2 && k !in finishers
      ensures r.playerOrder[k - 1] == s.playerOrder[k - 1]
    {
      assert k - 1 == 2 - first;
    }
  }
}

/** From the start of a race, the players' places are 1, 2, ... in the order they finish. */
lemma PlacesFromStart(finishers: seq<int>, playerCount: int, maxNumPlayers: int)
  requires ArePlayerNumbers(finishers) && NoRepeats(finishers)
  ensures forall i | 0 <= i < |finishers| ::
    FinishAll(InitialStandings, finishers, playerCount, maxNumPlayers).playerOrder[finishers[i] - 1] == i + 1
{
  FinishOrderIsCallOrder(InitialStandings, finishers, playerCount, maxNumPlayers);
}
