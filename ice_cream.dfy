// The ice-cream drag zone (Assets/IceCream.cs): a player's body entering the
// trigger gets the zone's drag, leaving it gets back the drag saved on the
// first entry. The save happens only while the saved value is still the
// negative sentinel it starts with.

/** The part of a Unity Rigidbody the zone touches. */
class Rigidbody {
  var drag: real

  constructor (drag: real)
    ensures this.drag == drag
  {
    this.drag := drag;
  }
}

/**
  The collider that touched the trigger. playerBody is the Rigidbody of its
  Player component, or null when the collider has no Player component.
*/
class Collider {
  const playerBody: Rigidbody?

  constructor (playerBody: Rigidbody?)
    ensures this.playerBody == playerBody
  {
    this.playerBody := playerBody;
  }
}

/** The initial value of oldDrag: no drag saved yet. */
const DragSentinel: real := -1.0

/** The saved drag after a player's body with drag bodyDrag enters: kept once saved, taken while still the sentinel. */
function SavedDrag(oldDrag: real, bodyDrag: real): (r: real)
  ensures oldDrag < 0.0 ==> r == bodyDrag
  ensures oldDrag >= 0.0 ==> r == oldDrag
{
  if oldDrag < 0.0 then bodyDrag else oldDrag
}

class IceCream {
  const newDrag: real
  var oldDrag: real

  /** The field initialisers; newDrag is 2 unless set in the inspector. */
  constructor (newDrag: real)
    ensures this.newDrag == newDrag && oldDrag == DragSentinel
  {
    this.newDrag := newDrag;
    oldDrag := DragSentinel;
  }

  /**
    OnTriggerEnter: a collider without a Player changes nothing; a player's
    body has its drag saved (only if none is saved yet) and set to newDrag.
  */
  method OnTriggerEnter(other: Collider)
    modifies this`oldDrag, other.playerBody
    ensures other.playerBody == null ==> oldDrag == old(oldDrag)
    ensures other.playerBody != null ==>
      oldDrag == SavedDrag(old(oldDrag), old(other.playerBody.drag)) && other.playerBody.drag == newDrag
  {
    var body := other.playerBody;
    if body != null {
      if oldDrag < 0.0 { oldDrag := body.drag; }

      body.drag := newDrag;
    }
  }

  /** OnTriggerExit: a player's body gets the saved drag back; other colliders change nothing. */
  method OnTriggerExit(other: Collider)
    modifies other.playerBody
    ensures other.playerBody != null ==> other.playerBody.drag == oldDrag
  {
    var body := other.playerBody;
    if body != null {
      body.drag := oldDrag;
    }
  }
}

/**
  A first entry then an exit, on a zone with nothing saved yet, gives the
  body back the (non-negative) drag it had when it entered.
*/
method EnterThenExitRestoresDrag(zone: IceCream, other: Collider)
  requires zone.oldDrag == DragSentinel && other.playerBody != null && other.playerBody.drag >= 0.0
  modifies zone, other.playerBody
  ensures other.playerBody.drag == old(other.playerBody.drag) && zone.oldDrag == old(other.playerBody.drag)
{
  zone.OnTriggerEnter(other);
  zone.OnTriggerExit(other);
}

/** A player's body entering (with its drag at that moment) or leaving the zone. */
datatype ZoneEvent = Enter(bodyDrag: real) | Exit

/** The saved drag after a sequence of entries and exits. */
function SavedDragAfter(oldDrag: real, events: seq<ZoneEvent>): (saved: real)
  decreases |events|
{
  if events == [] then oldDrag
  else
    match events[0]
    case Enter(d) => SavedDragAfter(SavedDrag(oldDrag, d), events[1..])
    case Exit => SavedDragAfter(oldDrag, events[1..])
}

/** Once a non-negative drag is saved, no later entry or exit overwrites it. */
lemma {:induction false} SavedDragIsNeverOverwritten(oldDrag: real, events: seq<ZoneEvent>)
  requires oldDrag >= 0.0
  ensures SavedDragAfter(oldDrag, events) == oldDrag
  decreases |events|
{
  if events != [] {
    SavedDragIsNeverOverwritten(oldDrag, events[1..]);
  }
}

/**
  The first body to enter a fresh zone decides the drag every later exit
  restores, whoever enters afterwards: that body's drag d, when d >= 0.
*/
lemma FirstEntryDecidesRestoredDrag(d: real, events: seq<ZoneEvent>)
  requires d >= 0.0
  ensures SavedDragAfter(DragSentinel, [Enter(d)] + events) == d
{
  assert ([Enter(d)] + events)[1..] == events;
  SavedDragIsNeverOverwritten(d, events);
}
