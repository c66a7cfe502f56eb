// Checkpoint and lap progress of one racer (Player.PassedCheckpoint in
// Assets/Scripts/Player.cs), as a step function over the two counters it
// keeps. The `Player` class in player.dfy follows this function.

/** A player's lap counter (starts at 1) and the last checkpoint accepted on it (0 = none yet). */
datatype LapProgress = LapProgress(lapNum: int, lastCheckpointPassed: int)

const InitialProgress: LapProgress := LapProgress(1, 0)

/** What passing one checkpoint does. */
datatype CheckpointOutcome =
  | Ignored                          // not the next checkpoint: nothing changes
  | Advanced(progress: LapProgress)  // the counters move on
  | RaceWon                          // the last checkpoint of the last lap: the race is marked complete

/** Where a player on a course of numCheckpoints checkpoints and numLaps laps can be. */
ghost predicate OnCourse(p: LapProgress, numCheckpoints: int, numLaps: int)
{
  0 <= p.lastCheckpointPassed < numCheckpoints && 1 <= p.lapNum <= numLaps
}

/**
  Only the checkpoint after the last accepted one counts. A counted checkpoint
  that closes the lap starts the next lap, or wins on the last lap; any other
  counted checkpoint becomes the last accepted one.
*/
function PassedCheckpointStep(p: LapProgress, checkpointNum: int, numCheckpoints: int, numLaps: int): (o: CheckpointOutcome)
  ensures o.Ignored? <==> checkpointNum != p.lastCheckpointPassed + 1
  ensures o.RaceWon? <==>
    checkpointNum == p.lastCheckpointPassed + 1 && checkpointNum == numCheckpoints && p.lapNum == numLaps
  ensures o.Advanced? && checkpointNum != numCheckpoints ==>
    o.progress == LapProgress(p.lapNum, checkpointNum)
  ensures o.Advanced? && checkpointNum == numCheckpoints ==>
    o.progress == LapProgress(p.lapNum + 1, 0)
  ensures OnCourse(p, numCheckpoints, numLaps) && o.Advanced? ==> OnCourse(o.progress, numCheckpoints, numLaps)
{
  if checkpointNum != p.lastCheckpointPassed + 1 then Ignored
  else if checkpointNum == numCheckpoints then
    if p.lapNum == numLaps then RaceWon
    else Advanced(LapProgress(p.lapNum + 1, 0))
  else Advanced(LapProgress(p.lapNum, checkpointNum))
}

/**
  The counters after a sequence of checkpoint triggers, and whether any of
  them won the race. A winning trigger leaves the counters where they were.
*/
function RunCheckpoints(p: LapProgress, triggers: seq<int>, numCheckpoints: int, numLaps: int): (r: (LapProgress, bool))
  decreases |triggers|
{
  if triggers == [] then (p, false)
  else
    match PassedCheckpointStep(p, triggers[0], numCheckpoints, numLaps)
    case Ignored => RunCheckpoints(p, triggers[1..], numCheckpoints, numLaps)
    case Advanced(q) => RunCheckpoints(q, triggers[1..], numCheckpoints, numLaps)
    case RaceWon =>
      var rest := RunCheckpoints(p, triggers[1..], numCheckpoints, numLaps);
      (rest.0, true)
}

/** The checkpoints first..last in order. */
function Checkpoints(first: int, last: int): (r: seq<int>)
  requires first <= last + 1
  ensures |r| == last - first + 1
  ensures forall i | 0 <= i < |r| :: r[i] == first + i
  decreases last - first + 1
{
  if first > last then [] else [first] + Checkpoints(first + 1, last)
}

/**
  Whatever triggers arrive, a player who starts on the course stays on it:
  the last checkpoint stays below the checkpoint count and the lap within
  1..numLaps.
*/
lemma {:induction false} RunKeepsOnCourse(p: LapProgress, triggers: seq<int>, numCheckpoints: int, numLaps: int)
  requires OnCourse(p, numCheckpoints, numLaps)
  ensures OnCourse(RunCheckpoints(p, triggers, numCheckpoints, numLaps).0, numCheckpoints, numLaps)
  decreases |triggers|
{
  if triggers != [] {
    match PassedCheckpointStep(p, triggers[0], numCheckpoints, numLaps)
    case Ignored => RunKeepsOnCourse(p, triggers[1..], numCheckpoints, numLaps);
    case Advanced(q) => RunKeepsOnCourse(q, triggers[1..], numCheckpoints, numLaps);
    case RaceWon => RunKeepsOnCourse(p, triggers[1..], numCheckpoints, numLaps);
  }
}

/** The starting values are on any course with at least one checkpoint and one lap. */
lemma StartsOnCourse(numCheckpoints: int, numLaps: int)
  requires numCheckpoints >= 1 && numLaps >= 1
  ensures OnCourse(InitialProgress, numCheckpoints, numLaps)
{
}

/** Triggers that are never the expected next checkpoint change nothing and win nothing. */
lemma {:induction false} OutOfOrderTriggersIgnored(p: LapProgress, triggers: seq<int>, numCheckpoints: int, numLaps: int)
  requires forall i | 0 <= i < |triggers| :: triggers[i] != p.lastCheckpointPassed + 1
  ensures RunCheckpoints(p, triggers, numCheckpoints, numLaps) == (p, false)
  decreases |triggers|
{
  if triggers != [] {
    OutOfOrderTriggersIgnored(p, triggers[1..], numCheckpoints, numLaps);
  }
}

/**
  Driving the rest of a lap in order, from checkpoint k+1 to the last one:
  on an earlier lap the player starts the next lap at checkpoint 0 without
  winning; on the last lap the race is won and the counters stay at the
  checkpoint before the last.
*/
lemma {:induction false} RestOfLapInOrder(lap: int, k: int, numCheckpoints: int, numLaps: int)
  requires 0 <= k < numCheckpoints
  ensures lap != numLaps ==>
    RunCheckpoints(LapProgress(lap, k), Checkpoints(k + 1, numCheckpoints), numCheckpoints, numLaps)
      == (LapProgress(lap + 1, 0), false)
  ensures lap == numLaps ==>
    RunCheckpoints(LapProgress(lap, k), Checkpoints(k + 1, numCheckpoints), numCheckpoints, numLaps)
      == (LapProgress(lap, numCheckpoints - 1), true)
  decreases numCheckpoints - k
{
  var triggers := Checkpoints(k + 1, numCheckpoints);
  assert triggers[0] == k + 1;
  if k + 1 == numCheckpoints {
    assert triggers[1..] == [];
  } else {
    assert triggers[1..] == Checkpoints(k + 2, numCheckpoints);
    RestOfLapInOrder(lap, k + 1, numCheckpoints, numLaps);
  }
}

/** A whole lap driven in order from the start line: checkpoints 1..numCheckpoints. */
lemma WholeLapInOrder(lap: int, numCheckpoints: int, numLaps: int)
  requires numCheckpoints >= 1
  ensures lap != numLaps ==>
    RunCheckpoints(LapProgress(lap, 0), Checkpoints(1, numCheckpoints), numCheckpoints, numLaps)
      == (LapProgress(lap + 1, 0), false)
  ensures lap == numLaps ==>
    RunCheckpoints(LapProgress(lap, 0), Checkpoints(1, numCheckpoints), numCheckpoints, numLaps).1
{
  RestOfLapInOrder(lap, 0, numCheckpoints, numLaps);
}
