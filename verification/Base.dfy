/** Types shared by every model of this project. */
module Base {

  datatype Option<+T> = None | Some(value: T)

  /** What one fallible call to another system (a SQL statement, a publish, an
      SMTP send) did and reported. A reported error may hide an effect. */
  datatype Outcome = Ok | ErrNoEffect | ErrAfterEffect {
    predicate TakesEffect() {
      !ErrNoEffect?
    }
  }

  lemma SubsetSize<T>(a: set<T>, b: set<T>)
    requires a <= b
    ensures |b - a| == |b| - |a| && (|a| == |b| ==> a == b)
  {
    assert b == a + (b - a);
  }
}
