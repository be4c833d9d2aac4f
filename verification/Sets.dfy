/** What the bounded tables need about cardinalities. */
module Sets {

  lemma {:induction false} SubsetSmaller<T>(a: set<T>, b: set<T>)
    requires a <= b
    ensures |a| <= |b|
    decreases b
  {
    if x :| x in a { SubsetSmaller(a - {x}, b - {x}); }
  }
}
