/** Facts about finite sets. */
module Sets {
  lemma {:induction false} SubsetSize<T>(a: set<T>, b: set<T>)
    requires a <= b
    ensures |a| <= |b|
  {
    if a != {} {
      var x :| x in a;
      SubsetSize(a - {x}, b - {x});
    }
  }

  lemma AnyMember<T>(s: set<T>) returns (member: T)
    requires s != {}
    ensures member in s
  {
    member :| member in s;
  }
}
