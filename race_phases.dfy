// The race lifecycle of Assets/Scripts/GameManager.cs. The original chains
// four coroutines (StartPreRace, StartCountdown, StartRace, EndRace) that
// wait on WaitForSeconds and, in the race, poll raceComplete once per frame;
// here the same sequence is an explicit step function advanced by the
// frame time. A wait of d seconds ends on the first frame at which the time
// spent in the phase reaches d.

datatype GameState = PreRace | Countdown | InRace | PostRace

/** The phase lengths set on the GameManager. */
datatype PhaseDurations = PhaseDurations(preRace: real, raceCountdown: real, postRace: real)

/** The fixed wait in StartRace before raceComplete is polled. */
const RaceStartGrace: real := 1.0

/** The position of a phase in the race order. */
function PhaseRank(g: GameState): (n: nat)
  ensures n <= 3
{
  match g
  case PreRace => 0
  case Countdown => 1
  case InRace => 2
  case PostRace => 3
}

/** The current phase and the time spent in it so far. */
datatype Sequencer = Sequencer(gameState: GameState, elapsed: real)

const InitialSequencer: Sequencer := Sequencer(PreRace, 0.0)

/**
  One frame of the lifecycle. Each phase moves only to the next one, and
  only once its wait is over: pre-race and countdown after their durations,
  the race once the grace second is over and the race is complete; the
  post-race phase is never left (the scene is reloaded instead). Entering a
  phase starts its clock at 0.
*/
function PhaseStep(q: Sequencer, dt: real, raceComplete: bool, d: PhaseDurations): (r: Sequencer)
  ensures PhaseRank(q.gameState) <= PhaseRank(r.gameState) <= PhaseRank(q.gameState) + 1
  ensures r.gameState == q.gameState ==> r.elapsed == q.elapsed + dt
  ensures r.gameState != q.gameState ==> r.elapsed == 0.0
  ensures q.gameState == PreRace ==> (r.gameState == Countdown <==> q.elapsed + dt >= d.preRace)
  ensures q.gameState == Countdown ==> (r.gameState == InRace <==> q.elapsed + dt >= d.raceCountdown)
  ensures q.gameState == InRace ==>
    (r.gameState == PostRace <==> raceComplete && q.elapsed + dt >= RaceStartGrace)
  ensures q.gameState == PostRace ==> r.gameState == PostRace
{
  var waited := q.elapsed + dt;
  match q.gameState
  case PreRace =>
    if waited >= d.preRace then Sequencer(Countdown, 0.0) else Sequencer(PreRace, waited)
  case Countdown =>
    if waited >= d.raceCountdown then Sequencer(InRace, 0.0) else Sequencer(Countdown, waited)
  case InRace =>
    if waited >= RaceStartGrace && raceComplete then Sequencer(PostRace, 0.0) else Sequencer(InRace, waited)
  case PostRace =>
    Sequencer(PostRace, waited)
}

/** The post-race wait is over: the scene is to be reloaded. */
predicate RestartDue(q: Sequencer, d: PhaseDurations)
{
  q.gameState == PostRace && q.elapsed >= d.postRace
}

/** One frame as the lifecycle sees it: its length, and the race-complete flag at that time. */
datatype RaceFrame = RaceFrame(dt: real, raceComplete: bool)

/** The sequencer after a run of frames. */
function RunPhases(q: Sequencer, frames: seq<RaceFrame>, d: PhaseDurations): (r: Sequencer)
  decreases |frames|
{
  if frames == [] then q
  else RunPhases(PhaseStep(q, frames[0].dt, frames[0].raceComplete, d), frames[1..], d)
}

/**
  Over any run of frames the phase never goes back, moves at most one phase
  per frame, and a race whose complete flag is never raised never reaches
  the post-race phase.
*/
lemma {:induction false} PhasesOnlyAdvance(q: Sequencer, frames: seq<RaceFrame>, d: PhaseDurations)
  ensures var r := RunPhases(q, frames, d);
    PhaseRank(q.gameState) <= PhaseRank(r.gameState) <= PhaseRank(q.gameState) + |frames|
  ensures q.gameState != PostRace && (forall i | 0 <= i < |frames| :: !frames[i].raceComplete) ==>
    RunPhases(q, frames, d).gameState != PostRace
  decreases |frames|
{
  if frames != [] {
    var next := PhaseStep(q, frames[0].dt, frames[0].raceComplete, d);
    PhasesOnlyAdvance(next, frames[1..], d);
    if q.gameState != PostRace && (forall i | 0 <= i < |frames| :: !frames[i].raceComplete) {
      assert !frames[0].raceComplete;
      assert forall i | 0 <= i < |frames[1..]| :: !frames[1..][i].raceComplete by {
        forall i | 0 <= i < |frames[1..]| ensures !frames[1..][i].raceComplete {
          assert frames[1..][i] == frames[i + 1];
        }
      }
    }
  }
}

/** Once in the post-race phase, every later frame stays there. */
lemma {:induction false} PostRaceIsFinal(q: Sequencer, frames: seq<RaceFrame>, d: PhaseDurations)
  requires q.gameState == PostRace
  ensures RunPhases(q, frames, d).gameState == PostRace
  decreases |frames|
{
  if frames != [] {
    PostRaceIsFinal(PhaseStep(q, frames[0].dt, frames[0].raceComplete, d), frames[1..], d);
  }
}
