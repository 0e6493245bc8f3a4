/** Logical time: a real number, or positive infinity.

    Comparisons follow FedTime's operators, without their rounding tolerance.
 */
module FederationTime {

  datatype Time = At(t: real) | Infinity
  {
    predicate Le(other: Time) {
      other.Infinity? || (At? && t <= other.t)
    }

    predicate Lt(other: Time) {
      At? && (other.Infinity? || t < other.t)
    }

    function Plus(delta: real): Time {
      if Infinity? then Infinity else At(t + delta)
    }
  }

  const ZERO := At(0.0)

  // The lookahead that stands in for zero while an advance is pending.
  const EPSILON2 := 0.0001

  function Min(a: Time, b: Time): Time {
    if a.Lt(b) then a else b
  }

  type Handle = nat

  datatype Option<+T> = None | Some(value: T)

  function Get<K, V>(m: map<K, V>, k: K): Option<V> {
    if k in m then Some(m[k]) else None
  }
}
