/** Counting the entries of a finite map that satisfy a condition. */
module Counting {
  import opened PoolTypes

  ghost function Chosen<X>(m: map<Pid, X>, f: X -> bool): set<Pid> {
    set k | k in m && f(m[k])
  }

  ghost function HowMany<X>(m: map<Pid, X>, f: X -> bool): nat { |Chosen(m, f)| }

  /** Replacing or adding one entry changes the count by that entry alone. */
  lemma HowManyUpdated<X>(m: map<Pid, X>, k: Pid, v: X, f: X -> bool)
    ensures HowMany(m[k := v], f) == HowMany(m, f) - B(k in m && f(m[k])) + B(f(v))
  {
    var rest := Chosen(m, f) - {k};
    assert Chosen(m, f) == if k in m && f(m[k]) then rest + {k} else rest;
    assert Chosen(m[k := v], f) == if f(v) then rest + {k} else rest;
  }

  lemma HowManyNone<X>(f: X -> bool)
    ensures HowMany(map[], f) == 0
  {
    assert Chosen(map[], f) == {};
  }

  lemma HowManyZero<X>(m: map<Pid, X>, f: X -> bool, k: Pid)
    requires HowMany(m, f) == 0 && k in m
    ensures !f(m[k])
  {
    assert k in Chosen(m, f) <==> f(m[k]);
  }

  lemma HowManyPositive<X>(m: map<Pid, X>, f: X -> bool, k: Pid)
    requires k in m && f(m[k])
    ensures HowMany(m, f) >= 1
  {
    assert k in Chosen(m, f);
  }

  /** Counts add up when two conditions exclude each other and together make a third. */
  lemma HowManySplit<X>(m: map<Pid, X>, whole: X -> bool, left: X -> bool, right: X -> bool)
    requires forall k :: k in m ==> (whole(m[k]) <==> left(m[k]) || right(m[k])) && !(left(m[k]) && right(m[k]))
    ensures HowMany(m, whole) == HowMany(m, left) + HowMany(m, right)
  {
    assert Chosen(m, whole) == Chosen(m, left) + Chosen(m, right);
    assert Chosen(m, left) !! Chosen(m, right);
  }
}
