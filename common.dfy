// Small value types shared by the race model.

/** A value that may be absent: an engine command that was not issued, for one. */
datatype Option<T> = None | Some(value: T)

/**
  Unity's `Mathf.Clamp(value, min, max)`: `min` when the value is below it,
  otherwise `max` when the value is above that, otherwise the value itself.
  Floats are modelled as `real`.
*/
function Clamp(value: real, min: real, max: real): (r: real)
  ensures min <= max ==> min <= r <= max
  ensures min <= value <= max ==> r == value
  ensures value < min ==> r == min
  ensures min <= max < value ==> r == max
{
  if value < min then min
  else if value > max then max
  else value
}
