/**
 * The values that flow through a stream: the absence wrapper returned by the
 * single-step and terminal operations, the `Enumerated` pair produced by the
 * enumerate stage, and the universe of element values.
 */
module Elements {

  /** The absence wrapper (`Optional<T>` in the library). */
  datatype Option<+T> = None | Some(value: T)

  /** An element tagged with its position, as produced by `enumerate`. */
  datatype Enumerated<T> = Enumerated(i: nat, v: T)

  /**
   * The values a stream carries. The library is generic in its element type and
   * `map` or `enumerate` change that type from one stage to the next; the model
   * uses one closed universe that holds integers, strings and enumerated pairs.
   */
  datatype Value = Int(n: int) | Text(s: string) | Pair(e: Enumerated<Value>)

  /** `operator ==` on `Enumerated`: both the index and the value must agree. */
  function EnumeratedEquals<T(==)>(lhs: Enumerated<T>, rhs: Enumerated<T>): (r: bool)
    ensures r <==> lhs == rhs
  {
    lhs.i == rhs.i && lhs.v == rhs.v
  }
}
