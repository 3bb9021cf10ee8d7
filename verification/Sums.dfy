/** Sums of a weight over a finite set of keys. */
module Sums {

  ghost function Total<K>(w: map<K, int>, s: set<K>): int
    requires s <= w.Keys
  {
    if s == {} then 0
    else
      var x :| x in s;
      w[x] + Total(w, s - {x})
  }

  lemma {:induction false} TotalTake<K>(w: map<K, int>, s: set<K>, x: K)
    requires s <= w.Keys && x in s
    ensures Total(w, s) == w[x] + Total(w, s - {x})
  {
    var y :| y in s && Total(w, s) == w[y] + Total(w, s - {y});
    if x != y {
      TotalTake(w, s - {y}, x);
      TotalTake(w, s - {x}, y);
      assert s - {y} - {x} == s - {x} - {y};
    }
  }

  lemma TotalAdd<K>(w: map<K, int>, s: set<K>, x: K)
    requires s <= w.Keys && x in w && x !in s
    ensures Total(w, s + {x}) == Total(w, s) + w[x]
  {
    TotalTake(w, s + {x}, x);
    assert s + {x} - {x} == s;
  }

  lemma {:induction false} TotalFrame<K>(w: map<K, int>, v: map<K, int>, s: set<K>)
    requires s <= w.Keys && s <= v.Keys
    requires forall x | x in s :: w[x] == v[x]
    ensures Total(w, s) == Total(v, s)
  {
    if s != {} {
      var x :| x in s;
      TotalTake(w, s, x);
      TotalTake(v, s, x);
      TotalFrame(w, v, s - {x});
    }
  }

  lemma {:induction false} TotalUnion<K>(w: map<K, int>, s: set<K>, t: set<K>)
    requires s <= w.Keys && t <= w.Keys && s !! t
    ensures Total(w, s + t) == Total(w, s) + Total(w, t)
  {
    if t == {} {
      assert s + t == s;
    } else {
      var x :| x in t;
      TotalTake(w, t, x);
      TotalTake(w, s + t, x);
      assert s + t - {x} == s + (t - {x});
      TotalUnion(w, s, t - {x});
    }
  }

  lemma {:induction false} TotalZero<K>(w: map<K, int>, s: set<K>)
    requires s <= w.Keys
    requires forall x | x in s :: w[x] >= 0
    ensures Total(w, s) >= 0
    ensures Total(w, s) == 0 <==> forall x | x in s :: w[x] == 0
  {
    if s != {} {
      var x :| x in s;
      TotalTake(w, s, x);
      TotalZero(w, s - {x});
      assert forall y | y in s :: y == x || y in s - {x};
    }
  }
}
