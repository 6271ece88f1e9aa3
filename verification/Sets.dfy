/** Sizes of finite sets. */
module Sets {
  lemma {:induction false} SubsetBound<X>(a: set<X>, b: set<X>)
    requires a <= b
    ensures |a| <= |b|
  {
    if a != {} {
      var x :| x in a;
      SubsetBound(a - {x}, b - {x});
    }
  }
}
