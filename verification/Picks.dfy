module Picks {
  /** Some element of a set that has one. */
  lemma AnyOf(r: set<int>) returns (x: int)
    requires r != {}
    ensures x in r
  {
    if forall p: int :: p !in r {
      assert false;
    }
    x :| x in r;
  }

  /** A set without two different elements lies in a singleton. */
  lemma Only(r: set<int>) returns (x: int)
    requires forall p, q :: p in r && q in r ==> p == q
    ensures forall p :: p in r ==> p == x
  {
    if r == {} { x := 0; } else { x := AnyOf(r); }
  }
}
