/** The "no value" marker used as a payload when an outcome carries no data. */
module NoneValue {

  /** The single canonical marker value; a one-constructor datatype has exactly one value. */
  datatype None = NONE

  /** Every marker is the canonical one, which is what the construction guard enforces. */
  lemma NoneIsSingleton(a: None, b: None)
    ensures a == b && a == NONE
  {
  }
}
