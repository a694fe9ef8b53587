/** Finite histories, newest entry outermost. */
module Histories {
  datatype History<T> = Empty | Then(before: History<T>, last: T)

  /** The first history, then what happens in the second. */
  function Concat<T>(h: History<T>, more: History<T>): History<T> {
    match more
    case Empty => h
    case Then(before, x) => Then(Concat(h, before), x)
  }
}
