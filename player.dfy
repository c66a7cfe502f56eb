// One racer (Assets/Scripts/Player.cs): its charge-and-release propulsion,
// its steering input, its lap counters and its input switch. Every method
// updates the fields in place and is proved to do exactly what the step
// functions in player_charge.dfy and player_laps.dfy say.
//
// Calls into the car controller, the rigid body and the UI are not
// simulated; where a method issues one, its effect is recorded (the flags
// canSteer and wheelFriction, a returned DriveCommand or impulse).

/** What FixedUpdate hands to the car: an optional turn on the spot, then Move(steer, accel). */
datatype DriveCommand = DriveCommand(rotation: Option<real>, steer: real, accel: real)

class Player {
  const settings: PlayerSettings
  /** The race this player takes part in (GameManager.Instance). */
  const race: GameManager
  /** The race's checkpoint count, copied from the race in Start. */
  const numCheckpoints: int

  var chargeAmount: real
  var normalisedTimeCharged: real
  var isCharging: bool
  var chargingUp: bool
  var accelAmount: real
  var steeringInput: real
  var cooldownTimer: real
  var lapNum: int
  var lastCheckpointPassed: int

  /** Whether the input actions are enabled (controls.Enable / controls.Disable). */
  var controlsEnabled: bool
  /** The last value given to carController.CanSteer. */
  var canSteer: bool
  /** The last value given to carController.WheelCollidersFriction. */
  var wheelFriction: bool

  function Charge(): ChargeState
    reads this
  {
    ChargeState(isCharging, chargingUp, chargeAmount, normalisedTimeCharged, cooldownTimer, accelAmount)
  }

  function Progress(): LapProgress
    reads this
  {
    LapProgress(lapNum, lastCheckpointPassed)
  }

  ghost predicate Valid()
    reads this
  {
    ValidSettings(settings) && ChargeInvariant(Charge()) && numCheckpoints == race.numCheckpoints
  }

  /** Only players 1 and 2 have their press, release and turning actions bound. */
  predicate HasBindings()
  {
    settings.playerNumber == 1 || settings.playerNumber == 2
  }

  /**
    Awake and Start: the field initialisers, the bar emptied, the player's own
    action map enabled, and the checkpoint count taken from the race.
  */
  constructor (settings: PlayerSettings, race: GameManager)
    requires ValidSettings(settings)
    ensures Valid()
    ensures this.settings == settings && this.race == race && numCheckpoints == race.numCheckpoints
    ensures Charge() == InitialCharge && Progress() == InitialProgress && steeringInput == 0.0
    ensures controlsEnabled == HasBindings() && canSteer && wheelFriction
  {
    this.settings := settings;
    this.race := race;
    numCheckpoints := race.numCheckpoints;
    chargeAmount := 0.0;
    normalisedTimeCharged := 0.0;
    isCharging := false;
    chargingUp := true;
    accelAmount := 0.0;
    steeringInput := 0.0;
    cooldownTimer := 0.0;
    lapNum := 1;
    lastCheckpointPassed := 0;
    controlsEnabled := settings.playerNumber == 1 || settings.playerNumber == 2;
    canSteer := true;
    wheelFriction := true;
  }

  /** Update: the acceleration decays, then the charge advances (the bar's UI is not modelled). */
  method Update(dt: real)
    requires Valid() && dt >= 0.0
    modifies this`accelAmount, this`cooldownTimer, this`normalisedTimeCharged, this`chargeAmount, this`chargingUp
    ensures Valid()
    ensures Charge() == FrameStep(old(Charge()), settings, dt)
  {
    AccelerationUpdate(dt);
    ChargingUpdate(dt);
  }

  /**
    FixedUpdate: a charging car turns on the spot by the steering input and
    drives with no steering; otherwise the steering goes to the wheels. The
    acceleration is passed on either way.
  */
  method FixedUpdate() returns (cmd: DriveCommand)
    ensures cmd.accel == accelAmount
    ensures isCharging ==>
      cmd.rotation == Some(steeringInput * settings.turningSensitivity) && cmd.steer == 0.0
    ensures !isCharging ==> cmd.rotation == None && cmd.steer == steeringInput
  {
    if isCharging {
      cmd := DriveCommand(Some(steeringInput * settings.turningSensitivity), 0.0, accelAmount);
    } else {
      cmd := DriveCommand(None, steeringInput, accelAmount);
    }
  }

  /**
    StartCharging: refused during cooldown or in the air; otherwise the wheels
    lose steering and friction and an upward charge starts from empty.
  */
  method StartCharging(grounded: bool)
    requires Valid()
    modifies this`isCharging, this`chargingUp, this`chargeAmount, this`normalisedTimeCharged,
      this`canSteer, this`wheelFriction
    ensures Valid()
    ensures Charge() == StartChargingStep(old(Charge()), grounded)
    ensures old(cooldownTimer) <= ChargeEpsilon && grounded ==> !canSteer && !wheelFriction
    ensures old(cooldownTimer) > ChargeEpsilon || !grounded ==>
      canSteer == old(canSteer) && wheelFriction == old(wheelFriction)
  {
    if cooldownTimer > ChargeEpsilon { return; }
    if !grounded { return; }

    wheelFriction := false;
    canSteer := false;
    isCharging := true;
    chargingUp := true;
    chargeAmount := 0.0;
    normalisedTimeCharged := 0.0;
  }

  /**
    StopCharging: nothing when not charging; otherwise steering and friction
    come back, the held charge becomes the acceleration and sets the cooldown,
    a forward impulse is issued, and the bar empties.
  */
  method StopCharging() returns (impulse: Option<real>)
    requires Valid()
    modifies this`isCharging, this`accelAmount, this`cooldownTimer, this`chargeAmount,
      this`canSteer, this`wheelFriction
    ensures Valid() && !isCharging
    ensures Charge() == StopChargingStep(old(Charge()), settings)
    ensures old(isCharging) ==>
      impulse == Some(ReleaseImpulse(old(chargeAmount), old(normalisedTimeCharged), settings)) && canSteer && wheelFriction
    ensures !old(isCharging) ==>
      impulse == None && canSteer == old(canSteer) && wheelFriction == old(wheelFriction)
  {
    if !isCharging { return None; }

    isCharging := false;
    accelAmount := chargeAmount;
    canSteer := true;
    wheelFriction := true;
    cooldownTimer := settings.chargeCooldown * chargeAmount;
    impulse := Some(ReleaseImpulse(chargeAmount, normalisedTimeCharged, settings));
    chargeAmount := 0.0;
  }

  /** ChargingUpdate: one frame of the cooldown and of the charge bar. */
  method ChargingUpdate(dt: real)
    requires Valid() && dt >= 0.0
    modifies this`cooldownTimer, this`normalisedTimeCharged, this`chargeAmount, this`chargingUp
    ensures Valid()
    ensures Charge() == ChargingUpdateStep(old(Charge()), settings, dt)
  {
    cooldownTimer := Clamp(cooldownTimer - dt, 0.0, settings.chargeCooldown);

    if !isCharging { return; }

    var deltaCharge := dt / settings.chargeTime;

    if chargingUp {
      normalisedTimeCharged := Clamp(normalisedTimeCharged + deltaCharge, 0.0, 1.0);
      chargeAmount := settings.chargeUpCurve(normalisedTimeCharged);
      if normalisedTimeCharged > FullChargeThreshold {
        chargingUp := false;
      }
    } else {
      normalisedTimeCharged := Clamp(normalisedTimeCharged - deltaCharge, 0.0, 1.0);
      chargeAmount := settings.chargeUpCurve(normalisedTimeCharged);
      if normalisedTimeCharged < ChargeEpsilon {
        chargingUp := true;
      }
    }
  }

  /** AccelerationUpdate: one frame of the linear decay of the acceleration. */
  method AccelerationUpdate(dt: real)
    requires Valid() && dt >= 0.0
    modifies this`accelAmount
    ensures Valid()
    ensures accelAmount == AccelerationUpdateStep(old(accelAmount), settings, dt)
  {
    accelAmount := Clamp(accelAmount - dt / settings.accelDecayTime, 0.0, 1.0);
  }

  /** Steer: the raw axis value is stored as it is, with no deadzone. */
  method Steer(horInput: real)
    modifies this`steeringInput
    ensures steeringInput == horInput
  {
    steeringInput := horInput;
  }

  /**
    PassedCheckpoint: the checkpoint is counted only if it is the next one.
    Closing the last lap marks the race complete with this player as the
    winner and leaves the counters as they are; closing another lap starts
    the next lap; any other counted checkpoint becomes the last one passed.
  */
  method PassedCheckpoint(checkpointNum: int)
    modifies this`lapNum, this`lastCheckpointPassed, race`raceComplete, race`winner
    ensures var o := PassedCheckpointStep(old(Progress()), checkpointNum, numCheckpoints, race.numLaps);
      (o.Advanced? ==> Progress() == o.progress) &&
      (!o.Advanced? ==> Progress() == old(Progress())) &&
      (o.RaceWon? ==> race.raceComplete && race.winner == settings.playerNumber) &&
      (!o.RaceWon? ==> race.raceComplete == old(race.raceComplete) && race.winner == old(race.winner))
    ensures OnCourse(old(Progress()), numCheckpoints, race.numLaps) ==> OnCourse(Progress(), numCheckpoints, race.numLaps)
  {
    if checkpointNum == lastCheckpointPassed + 1 {
      if checkpointNum == numCheckpoints {
        if lapNum == race.numLaps {
          race.raceComplete := true;
          race.winner := settings.playerNumber;
          return;
        }
        lapNum := lapNum + 1;
        lastCheckpointPassed := 0;
      } else {
        lastCheckpointPassed := checkpointNum;
      }
    }
  }

  /**
    The state SetInputControl(canInput) leaves: the actions are enabled as
    asked; switching them off releases a charge in progress as StopCharging
    does, which gives steering and friction back; nothing else changes.
  */
  twostate predicate InputSwitched(canInput: bool)
    reads this
  {
    controlsEnabled == canInput &&
    (if !canInput && old(isCharging) then
       Charge() == StopChargingStep(old(Charge()), settings) && canSteer && wheelFriction
     else
       Charge() == old(Charge()) && canSteer == old(canSteer) && wheelFriction == old(wheelFriction)) &&
    Progress() == old(Progress()) && steeringInput == old(steeringInput)
  }

  /**
    SetInputControl: switches the input actions on or off; switching them off
    also releases a charge in progress, issuing its forward impulse.
  */
  method SetInputControl(canInput: bool) returns (impulse: Option<real>)
    requires Valid()
    modifies this`controlsEnabled, this`isCharging, this`accelAmount, this`cooldownTimer, this`chargeAmount,
      this`canSteer, this`wheelFriction
    ensures Valid() && InputSwitched(canInput) && (!canInput ==> !isCharging)
    ensures impulse == if !canInput && old(isCharging)
      then Some(ReleaseImpulse(old(chargeAmount), old(normalisedTimeCharged), settings)) else None
  {
    impulse := None;
    if canInput {
      controlsEnabled := true;
    } else {
      controlsEnabled := false;
      if isCharging {
        impulse := StopCharging();
      }
    }
  }

  /** The press action's callback: it reaches StartCharging only while the bound actions are enabled. */
  method OnChargePress(grounded: bool)
    requires Valid()
    modifies this`isCharging, this`chargingUp, this`chargeAmount, this`normalisedTimeCharged,
      this`canSteer, this`wheelFriction
    ensures Valid()
    ensures Charge() == if controlsEnabled && HasBindings() then StartChargingStep(old(Charge()), grounded) else old(Charge())
    ensures controlsEnabled && HasBindings() && old(cooldownTimer) <= ChargeEpsilon && grounded ==>
      !canSteer && !wheelFriction
    ensures !(controlsEnabled && HasBindings() && old(cooldownTimer) <= ChargeEpsilon && grounded) ==>
      canSteer == old(canSteer) && wheelFriction == old(wheelFriction)
  {
    if controlsEnabled && HasBindings() {
      StartCharging(grounded);
    }
  }

  /** The release action's callback: it reaches StopCharging only while the bound actions are enabled. */
  method OnChargeRelease() returns (impulse: Option<real>)
    requires Valid()
    modifies this`isCharging, this`accelAmount, this`cooldownTimer, this`chargeAmount,
      this`canSteer, this`wheelFriction
    ensures Valid()
    ensures Charge() == if controlsEnabled && HasBindings() then StopChargingStep(old(Charge()), settings) else old(Charge())
    ensures impulse == if controlsEnabled && HasBindings() && old(isCharging)
      then Some(ReleaseImpulse(old(chargeAmount), old(normalisedTimeCharged), settings)) else None
    ensures controlsEnabled && HasBindings() && old(isCharging) ==> canSteer && wheelFriction
    ensures !(controlsEnabled && HasBindings() && old(isCharging)) ==>
      canSteer == old(canSteer) && wheelFriction == old(wheelFriction)
  {
    impulse := None;
    if controlsEnabled && HasBindings() {
      impulse := StopCharging();
    }
  }

  /** The turning action's callback: it reaches Steer only while the bound actions are enabled. */
  method OnTurning(value: real)
    modifies this`steeringInput
    ensures steeringInput == if controlsEnabled && HasBindings() then value else old(steeringInput)
  {
    if controlsEnabled && HasBindings() {
      Steer(value);
    }
  }
}
