/** Sums of a measure over a finite set of fibers. */
module Sums {
  import opened Fibers

  ghost function Sum(xs: set<FiberId>, r: map<FiberId, nat>): nat
    requires xs <= r.Keys
  {
    if xs == {} then 0
    else
      var x :| x in xs;
      r[x] + Sum(xs - {x}, r)
  }

  lemma {:induction false} SumTake(xs: set<FiberId>, r: map<FiberId, nat>, x: FiberId)
    requires xs <= r.Keys && x in xs
    ensures Sum(xs, r) == r[x] + Sum(xs - {x}, r)
  {
    var y :| y in xs && Sum(xs, r) == r[y] + Sum(xs - {y}, r);
    if y != x {
      SumTake(xs - {y}, r, x);
      SumTake(xs - {x}, r, y);
      assert xs - {x} - {y} == xs - {y} - {x};
    }
  }

  lemma {:induction false} SumLe(xs: set<FiberId>, r: map<FiberId, nat>, s: map<FiberId, nat>)
    requires xs <= r.Keys && xs <= s.Keys
    requires forall x | x in xs :: r[x] <= s[x]
    ensures Sum(xs, r) <= Sum(xs, s)
  {
    if xs != {} {
      var x :| x in xs;
      SumTake(xs, r, x);
      SumTake(xs, s, x);
      SumLe(xs - {x}, r, s);
    }
  }

  lemma SumLess(xs: set<FiberId>, r: map<FiberId, nat>, s: map<FiberId, nat>, y: FiberId)
    requires xs <= r.Keys && xs <= s.Keys
    requires forall x | x in xs :: r[x] <= s[x]
    requires y in xs && r[y] < s[y]
    ensures Sum(xs, r) < Sum(xs, s)
  {
    SumTake(xs, r, y);
    SumTake(xs, s, y);
    SumLe(xs - {y}, r, s);
  }

  lemma {:induction false} SumBound(xs: set<FiberId>, r: map<FiberId, nat>)
    requires xs <= r.Keys
    requires forall x | x in xs :: r[x] <= 4
    ensures Sum(xs, r) <= 4 * |xs|
  {
    if xs != {} {
      var x :| x in xs;
      SumTake(xs, r, x);
      SumBound(xs - {x}, r);
    }
  }

  lemma {:induction false} SumRaise(xs: set<FiberId>, r: map<FiberId, nat>, s: map<FiberId, nat>, c: nat)
    requires xs <= r.Keys && xs <= s.Keys
    requires forall x | x in xs :: r[x] <= s[x] + c
    ensures Sum(xs, r) <= Sum(xs, s) + |xs| * c
  {
    if xs != {} {
      var x :| x in xs;
      SumTake(xs, r, x);
      SumTake(xs, s, x);
      SumRaise(xs - {x}, r, s, c);
      assert |xs| * c == (|xs| - 1) * c + c;
    }
  }
}
