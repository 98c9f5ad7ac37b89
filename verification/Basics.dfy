/** What every part of the model shares. */
module Basics {

  datatype Option<+T> = None | Some(value: T)

  predicate IsLeast(s: set<nat>, x: nat) {
    x in s && forall y | y in s :: x <= y
  }

  /** A non-empty set of naturals has a least member. */
  lemma HasLeast(s: set<nat>)
    requires s != {}
    ensures exists x :: IsLeast(s, x)
  {
    var x :| x in s;
    while exists y :: y in s && y < x
      invariant x in s
      decreases x
    {
      var y :| y in s && y < x;
      x := y;
    }
    assert IsLeast(s, x);
  }
}
