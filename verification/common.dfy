/** Small things several components share. */
module Common {

  datatype Option<T> = None | Some(value: T)

  lemma Subset<T>(a: set<T>, b: set<T>)
    requires a <= b
    ensures |a| <= |b|
  {
    assert b == a + (b - a);
  }
}
