/** What most modules need: options, bytes, and numbers that are not in use. */
module Basics {
  datatype Option<+T> = None | Some(value: T)

  type Byte = x: int | 0 <= x < 256

  /** A number beyond all of these. */
  lemma FreeNumber(used: set<nat>) returns (n: nat)
    ensures forall m :: m in used ==> m < n
  {
    if used == {} {
      n := 0;
    } else {
      var m :| m in used;
      n := FreeNumber(used - {m});
      assert forall x :: x in used ==> x == m || x in used - {m};
      n := if n <= m then m + 1 else n;
    }
  }
}
