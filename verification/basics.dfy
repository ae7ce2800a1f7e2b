// What all parts of the model use.
module Basics {

  datatype Option<+T> = None | Some(value: T)

  // A uuid.
  type Id = nat

  predicate NoRepeats<T(==)>(list: seq<T>) {
    forall i, j :: 0 <= i < j < |list| ==> list[i] != list[j]
  }

  // Positions in a sequence, from left to right.
  predicate Rising(at: seq<nat>, length: nat) {
    && (forall j :: 0 <= j < |at| ==> at[j] < length)
    && forall i, j :: 0 <= i < j < |at| ==> at[i] < at[j]
  }

  ghost function SetOf<T>(list: seq<T>): set<T> {
    set r | r in list
  }
}
