/** The Option datatype used wherever the Java code passes or returns a nullable reference, and one sequence fact. */
module Wrappers {

  /** `None` stands for Java's `null`. */
  datatype Option<+T> = None | Some(value: T)

  /** Regrouping a concatenation of three sequences; used to keep append-heavy proofs small. */
  lemma AppendAssociates<T>(a: seq<T>, b: seq<T>, c: seq<T>)
    ensures a + b + c == a + (b + c)
  {
  }
}
