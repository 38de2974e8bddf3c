/** Small shared vocabulary: an optional value, integer magnitude and a sequence fact. */
module Common {

  /** A value that may be absent, as JavaScript's `null` slots are. */
  datatype Option<T> = None | Some(value: T)

  /** `Math.abs` on integers. */
  function Abs(x: int): nat {
    if x < 0 then -x else x
  }

  function Max(a: int, b: int): int {
    if a < b then b else a
  }

  /** Concatenation regroups, for the inductive steps that append to a log. */
  lemma AppendAssoc<T>(a: seq<T>, b: seq<T>, c: seq<T>)
    ensures (a + b) + c == a + (b + c)
  {
  }
}
