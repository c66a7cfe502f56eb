// The two-player leaderboard shown when a multiplayer race ends
// (GameManager.ActivateLeaderboard in Assets/Scripts/GameManager.cs). The
// lines are kept as values instead of the text written to the UI, and the
// two labelling slips of the original are reproduced as they are.

/** Weight of one place in the score. */
const PositionModifier: int := 5

/** A player's score: five points per place plus one per stroke; lower is better. */
function PlayerScore(place: int, strokes: int): (score: int)
{
  PositionModifier * place + strokes
}

/**
  The scores array: the first playerCount players are scored from their place
  and stroke count, any other entry stays 0.
*/
function TallyScores(playerOrder: seq<int>, strokes: seq<int>, playerCount: int): (scores: seq<int>)
  requires |playerOrder| == 2 && |strokes| == 2
  ensures |scores| == 2
  ensures forall i | 0 <= i < 2 ::
    scores[i] == if i < playerCount then PlayerScore(playerOrder[i], strokes[i]) else 0
{
  [if 0 < playerCount then PlayerScore(playerOrder[0], strokes[0]) else 0,
   if 1 < playerCount then PlayerScore(playerOrder[1], strokes[1]) else 0]
}

/** One leaderboard row: "position) Player label points pts". */
datatype LeaderboardLine = LeaderboardLine(position: int, playerLabel: int, points: int)

/**
  The two rows. A lower score puts that player on the first row; on a tie the
  rows keep place order, but the label printed is the player's place, not the
  player's number; when player 2 leads, player 1's row shows player 2's score.
  In every case the first row never shows more points than the second.
*/
function LeaderboardLines(playerOrder: seq<int>, scores: seq<int>): (lines: seq<LeaderboardLine>)
  requires |playerOrder| == 2 && |scores| == 2
  ensures |lines| == 2 && lines[0].position == 1 && lines[1].position == 2
  ensures lines[0].points <= lines[1].points
  ensures scores[0] < scores[1] ==>
    lines[0] == LeaderboardLine(1, 1, scores[0]) && lines[1] == LeaderboardLine(2, 2, scores[1])
  ensures scores[0] > scores[1] ==>
    lines[0] == LeaderboardLine(1, 2, scores[1]) && lines[1] == LeaderboardLine(2, 1, scores[1])
  ensures scores[0] == scores[1] ==>
    lines[0] == LeaderboardLine(1, playerOrder[0], scores[0]) && lines[1] == LeaderboardLine(2, playerOrder[1], scores[1])
{
  if scores[0] == scores[1] then
    [LeaderboardLine(1, playerOrder[0], scores[0]), LeaderboardLine(2, playerOrder[1], scores[1])]
  else if scores[0] < scores[1] then
    [LeaderboardLine(1, 1, scores[0]), LeaderboardLine(2, 2, scores[1])]
  else
    [LeaderboardLine(1, 2, scores[1]), LeaderboardLine(2, 1, scores[1])]
}

/**
  When the scores differ, the player labelled on the first row is the one
  with the lower score, and that row shows the lower score.
*/
lemma LowerScoreListedFirst(playerOrder: seq<int>, scores: seq<int>)
  requires |playerOrder| == 2 && |scores| == 2 && scores[0] != scores[1]
  ensures var lines := LeaderboardLines(playerOrder, scores);
    var leader := lines[0].playerLabel;
    (leader == 1 || leader == 2) &&
    (forall i | 0 <= i < 2 :: scores[leader - 1] <= scores[i]) &&
    lines[0].points == scores[leader - 1]
{
}

/**
  In a two-player race where both players took the same number of strokes,
  the player who finished first is on the first row, under their own number.
*/
lemma {:induction false} EqualStrokesFirstFinisherLeads(first: int, second: int, strokes: int, maxNumPlayers: int)
  requires {first, second} == {1, 2}
  ensures var order := FinishAll(InitialStandings, [first, second], 2, maxNumPlayers).playerOrder;
    LeaderboardLines(order, TallyScores(order, [strokes, strokes], 2))[0].playerLabel == first
{
  assert ArePlayerNumbers([first, second]) && NoRepeats([first, second]);
  PlacesFromStart([first, second], 2, maxNumPlayers);
}
