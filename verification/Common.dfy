/** Small shared vocabulary: optional values, and the size of a finite set. */
module Common {

  datatype Option<+T> = None | Some(value: T)

  /** A set without one of its elements is one smaller. */
  lemma SizeWithout<T>(s: set<T>, x: T)
    requires x in s
    ensures |s - {x}| == |s| - 1
  {
    assert s == (s - {x}) + {x};
  }
}
