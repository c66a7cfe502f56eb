// The charge-and-release propulsion of one racer (Assets/Scripts/Player.cs),
// as step functions over a snapshot of the player's charge fields. The
// `Player` class in player.dfy is proved to update its fields exactly as
// these functions say.

/** Inspector settings of a player; the two animation curves are left uninterpreted. */
datatype PlayerSettings = PlayerSettings(
  chargeTime: real,            // seconds to charge from empty to full
  releaseImpulseAmount: real,  // impulse scale applied on release
  accelDecayTime: real,        // seconds for the wind-back acceleration to decay
  chargeCooldown: real,        // cooldown after a full-charge release
  turningSensitivity: real,
  playerNumber: int,
  chargeUpCurve: real -> real,   // AnimationCurve.Evaluate of chargeUpCurve
  bonusChargeCurve: real -> real // AnimationCurve.Evaluate of bonusChargeCurve
)

/** What the arithmetic of the charge logic needs of the settings. */
predicate ValidSettings(s: PlayerSettings)
{
  s.chargeTime > 0.0 && s.accelDecayTime > 0.0 && s.chargeCooldown >= 0.0
}

/** A cooldown above this blocks a new charge; a charge time below it turns the bar back up. */
const ChargeEpsilon: real := 0.001
/** A charge time above this turns the bar down. */
const FullChargeThreshold: real := 0.999
/** Upper clamp of the long-charge bonus. */
const MaxLongChargeBonus: real := 999.0

/** The fields the charge state machine reads and writes. */
datatype ChargeState = ChargeState(
  isCharging: bool,
  chargingUp: bool,
  chargeAmount: real,
  normalisedTimeCharged: real,
  cooldownTimer: real,
  accelAmount: real
)

/** The values a freshly created player starts with. */
const InitialCharge: ChargeState := ChargeState(false, true, 0.0, 0.0, 0.0, 0.0)

/**
  Pressing charge. Ignored while the cooldown is still running or the car is
  in the air; otherwise a fresh charge starts from an empty bar, moving up.
*/
function StartChargingStep(c: ChargeState, grounded: bool): (r: ChargeState)
  ensures c.cooldownTimer > ChargeEpsilon || !grounded ==> r == c
  ensures c.cooldownTimer <= ChargeEpsilon && grounded ==>
    r.isCharging && r.chargingUp && r.chargeAmount == 0.0 && r.normalisedTimeCharged == 0.0 &&
    r.cooldownTimer == c.cooldownTimer && r.accelAmount == c.accelAmount
{
  if c.cooldownTimer > ChargeEpsilon then c
  else if !grounded then c
  else c.(isCharging := true, chargingUp := true, chargeAmount := 0.0, normalisedTimeCharged := 0.0)
}

/**
  Releasing charge. Ignored when not charging; otherwise the charge held at
  release becomes the acceleration, it scales the cooldown, and the bar empties.
*/
function StopChargingStep(c: ChargeState, s: PlayerSettings): (r: ChargeState)
  ensures !c.isCharging ==> r == c
  ensures c.isCharging ==>
    !r.isCharging && r.chargeAmount == 0.0 &&
    r.accelAmount == c.chargeAmount &&
    r.cooldownTimer == s.chargeCooldown * c.chargeAmount &&
    r.chargingUp == c.chargingUp && r.normalisedTimeCharged == c.normalisedTimeCharged
{
  if !c.isCharging then c
  else
    var held := c.chargeAmount;
    c.(isCharging := false, accelAmount := held, cooldownTimer := s.chargeCooldown * held, chargeAmount := 0.0)
}

/**
  The forward impulse issued on a release: the release scale times the charge
  plus a long-charge bonus read off the bonus curve and clamped to [0, 999].
*/
function ReleaseImpulse(chargeAmount: real, normalisedTimeCharged: real, s: PlayerSettings): (r: real)
  ensures s.releaseImpulseAmount >= 0.0 ==>
    s.releaseImpulseAmount * chargeAmount <= r <= s.releaseImpulseAmount * (chargeAmount + MaxLongChargeBonus)
{
  var longChargeBonus := Clamp(s.bonusChargeCurve(normalisedTimeCharged), 0.0, MaxLongChargeBonus);
  var impulse := s.releaseImpulseAmount * (chargeAmount + longChargeBonus);
  ScaledBonusBounds(s.releaseImpulseAmount, chargeAmount, longChargeBonus);
  assert s.releaseImpulseAmount >= 0.0 ==> impulse <= s.releaseImpulseAmount * (chargeAmount + MaxLongChargeBonus);
  impulse
}

/** Scaling a charge plus a bonus in [0, 999] by a non-negative factor. */
lemma ScaledBonusBounds(scale: real, chargeAmount: real, bonus: real)
  requires 0.0 <= bonus <= MaxLongChargeBonus
  ensures scale >= 0.0 ==>
    scale * chargeAmount <= scale * (chargeAmount + bonus) <= scale * (chargeAmount + MaxLongChargeBonus)
{
  if scale >= 0.0 {
    assert scale * (chargeAmount + bonus) == scale * chargeAmount + scale * bonus;
    assert scale * (chargeAmount + MaxLongChargeBonus) - scale * (chargeAmount + bonus)
        == scale * (MaxLongChargeBonus - bonus);
  }
}

/**
  One frame of charging. The cooldown runs down and stays within
  [0, chargeCooldown]. While charging, the charge time moves by dt/chargeTime
  in the current direction within [0, 1], the charge is read off the curve at
  the new time, and the direction turns at the ends of the bar.
*/
function ChargingUpdateStep(c: ChargeState, s: PlayerSettings, dt: real): (r: ChargeState)
  requires ValidSettings(s) && dt >= 0.0
  ensures 0.0 <= r.cooldownTimer <= s.chargeCooldown
  ensures 0.0 <= c.cooldownTimer - dt <= s.chargeCooldown ==> r.cooldownTimer == c.cooldownTimer - dt
  ensures c.cooldownTimer >= 0.0 ==> r.cooldownTimer <= c.cooldownTimer
  ensures !c.isCharging ==> r == c.(cooldownTimer := r.cooldownTimer)
  ensures r.isCharging == c.isCharging && r.accelAmount == c.accelAmount
  ensures c.isCharging ==>
    0.0 <= r.normalisedTimeCharged <= 1.0 && r.chargeAmount == s.chargeUpCurve(r.normalisedTimeCharged)
  ensures c.isCharging && c.chargingUp ==>
    r.normalisedTimeCharged == (if c.normalisedTimeCharged + dt / s.chargeTime > 1.0 then 1.0
                                else if c.normalisedTimeCharged + dt / s.chargeTime < 0.0 then 0.0
                                else c.normalisedTimeCharged + dt / s.chargeTime) &&
    (r.chargingUp <==> r.normalisedTimeCharged <= FullChargeThreshold)
  ensures c.isCharging && !c.chargingUp ==>
    r.normalisedTimeCharged == (if c.normalisedTimeCharged - dt / s.chargeTime < 0.0 then 0.0
                                else if c.normalisedTimeCharged - dt / s.chargeTime > 1.0 then 1.0
                                else c.normalisedTimeCharged - dt / s.chargeTime) &&
    (r.chargingUp <==> r.normalisedTimeCharged < ChargeEpsilon)
{
  var cooled := c.(cooldownTimer := Clamp(c.cooldownTimer - dt, 0.0, s.chargeCooldown));
  if !cooled.isCharging then cooled
  else
    var deltaCharge := dt / s.chargeTime;
    if cooled.chargingUp then
      var t := Clamp(cooled.normalisedTimeCharged + deltaCharge, 0.0, 1.0);
      cooled.(normalisedTimeCharged := t, chargeAmount := s.chargeUpCurve(t),
              chargingUp := !(t > FullChargeThreshold))
    else
      var t := Clamp(cooled.normalisedTimeCharged - deltaCharge, 0.0, 1.0);
      cooled.(normalisedTimeCharged := t, chargeAmount := s.chargeUpCurve(t),
              chargingUp := t < ChargeEpsilon)
}

/**
  One frame of acceleration decay: the acceleration falls linearly, reaching 0
  over accelDecayTime, and is kept within [0, 1]; it never grows unless it was
  negative.
*/
function AccelerationUpdateStep(accel: real, s: PlayerSettings, dt: real): (r: real)
  requires ValidSettings(s) && dt >= 0.0
  ensures 0.0 <= r <= 1.0
  ensures accel >= 0.0 ==> r <= accel
  ensures 0.0 <= accel - dt / s.accelDecayTime <= 1.0 ==> r == accel - dt / s.accelDecayTime
  ensures accel - dt / s.accelDecayTime <= 0.0 ==> r == 0.0
{
  Clamp(accel - dt / s.accelDecayTime, 0.0, 1.0)
}

/** `Update`: the acceleration decays, then the charge advances, in that order. */
function FrameStep(c: ChargeState, s: PlayerSettings, dt: real): (r: ChargeState)
  requires ValidSettings(s) && dt >= 0.0
  ensures 0.0 <= r.cooldownTimer <= s.chargeCooldown && 0.0 <= r.accelAmount <= 1.0
  ensures r.isCharging == c.isCharging
{
  ChargingUpdateStep(c.(accelAmount := AccelerationUpdateStep(c.accelAmount, s, dt)), s, dt)
}

/** An input or a frame, as it reaches one player's charge logic. */
datatype ChargeEvent = Press(grounded: bool) | Release | Frame(dt: real)

predicate NonNegativeFrames(events: seq<ChargeEvent>)
{
  forall i | 0 <= i < |events| :: events[i].Frame? ==> events[i].dt >= 0.0
}

function ApplyChargeEvent(c: ChargeState, s: PlayerSettings, e: ChargeEvent): (r: ChargeState)
  requires ValidSettings(s) && (e.Frame? ==> e.dt >= 0.0)
{
  match e
  case Press(grounded) => StartChargingStep(c, grounded)
  case Release => StopChargingStep(c, s)
  case Frame(dt) => FrameStep(c, s, dt)
}

/** The charge state after a sequence of inputs and frames, in order. */
function RunCharge(c: ChargeState, s: PlayerSettings, events: seq<ChargeEvent>): (r: ChargeState)
  requires ValidSettings(s) && NonNegativeFrames(events)
  decreases |events|
{
  if events == [] then c
  else RunCharge(ApplyChargeEvent(c, s, events[0]), s, events[1..])
}

/**
  What holds of the charge fields at every point: the charge time lies on the
  bar, and a player who is not charging holds no charge.
*/
ghost predicate ChargeInvariant(c: ChargeState)
{
  0.0 <= c.normalisedTimeCharged <= 1.0 && (!c.isCharging ==> c.chargeAmount == 0.0)
}

lemma InitialChargeInvariant()
  ensures ChargeInvariant(InitialCharge)
{
}

/**
  Every input and every frame keeps the charge invariant, and right after a
  frame the cooldown lies in [0, chargeCooldown] and the acceleration in [0, 1],
  however the inputs and frame times are interleaved.
*/
lemma {:induction false} RunChargeKeepsInvariant(c: ChargeState, s: PlayerSettings, events: seq<ChargeEvent>)
  requires ValidSettings(s) && NonNegativeFrames(events) && ChargeInvariant(c)
  ensures ChargeInvariant(RunCharge(c, s, events))
  ensures |events| > 0 && events[|events| - 1].Frame? ==>
    0.0 <= RunCharge(c, s, events).cooldownTimer <= s.chargeCooldown &&
    0.0 <= RunCharge(c, s, events).accelAmount <= 1.0
  decreases |events|
{
  if events != [] {
    var next := ApplyChargeEvent(c, s, events[0]);
    assert ChargeInvariant(next);
    assert NonNegativeFrames(events[1..]) by {
      forall i | 0 <= i < |events[1..]| ensures events[1..][i].Frame? ==> events[1..][i].dt >= 0.0 {
        assert events[1..][i] == events[i + 1];
      }
    }
    RunChargeKeepsInvariant(next, s, events[1..]);
    if |events| > 1 {
      assert events[1..][|events[1..]| - 1] == events[|events| - 1];
    }
  }
}

/**
  A release that leaves more than the epsilon of cooldown makes an immediate
  new press a no-op, grounded or not.
*/
lemma ReleaseBlocksImmediatePress(c: ChargeState, s: PlayerSettings, grounded: bool)
  requires c.isCharging && s.chargeCooldown * c.chargeAmount > ChargeEpsilon
  ensures StartChargingStep(StopChargingStep(c, s), grounded) == StopChargingStep(c, s)
{
}
