// Facts about finite sets.
module Sets {

  lemma {:induction false} SubsetSize<T>(a: set<T>, b: set<T>)
    requires a <= b
    ensures |a| <= |b|
    ensures a != b ==> |a| < |b|
  {
    if a != {} {
      var x :| x in a;
      SubsetSize(a - {x}, b - {x});
    }
  }

  // An injective choice of elements of b for the elements of a.
  lemma {:induction false} InjectionSize<S, T>(a: set<S>, b: set<T>, choice: map<S, T>)
    requires a <= choice.Keys
    requires forall x <- a :: choice[x] in b
    requires forall x, y | x in a && y in a && choice[x] == choice[y] :: x == y
    ensures |a| <= |b|
  {
    if a != {} {
      var x :| x in a;
      InjectionSize(a - {x}, b - {choice[x]}, choice);
    }
  }

  ghost function Member<T>(a: set<T>): (x: T)
    requires a != {}
    ensures x in a
  {
    var x :| x in a;
    x
  }
}
