/** The key-value store behind `UserDefaults`, restricted to the numbers the app and the
    widget keep in it. */
module Storage {

  /** Conversion of a stored number to an integer: the fraction is dropped, rounding toward zero. */
  function TruncateTowardZero(x: real): (n: int)
    ensures 0.0 <= x ==> n as real <= x < n as real + 1.0
    ensures x < 0.0 ==> n as real - 1.0 < x <= n as real
  {
    if 0.0 <= x then x.Floor else -((-x).Floor)
  }

  /** One `UserDefaults` suite: the standard store or an app-group suite. */
  class UserDefaults {
    var values: map<string, real>

    constructor (initial: map<string, real>)
      ensures values == initial
    {
      values := initial;
    }

    /** `double(forKey:)`: the stored number, or 0 when nothing is stored under the key. */
    function Double(key: string): real
      reads this
    {
      if key in values then values[key] else 0.0
    }

    /** `integer(forKey:)`: the stored number truncated toward zero, or 0 when nothing is stored. */
    function Integer(key: string): int
      reads this
    {
      if key in values then TruncateTowardZero(values[key]) else 0
    }

    /** `set(_:forKey:)` with a `Double`: stores the number and reads it back unchanged; no other
        key is affected. */
    method SetDouble(value: real, key: string)
      modifies this
      ensures values == old(values)[key := value]
      ensures Double(key) == value
      ensures forall k :: k != key ==> Double(k) == old(Double(k))
    {
      values := values[key := value];
    }
  }
}
