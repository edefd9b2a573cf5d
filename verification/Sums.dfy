/** Sums of sizes over a set of keys. */
module Sums {
  function SizeIn(m: map<nat, nat>, o: nat): nat {
    if o in m then m[o] else 0
  }

  ghost function SumOver(s: set<nat>, m: map<nat, nat>): nat
    decreases |s|
  {
    if s == {} then 0 else
      var o :| o in s;
      SizeIn(m, o) + SumOver(s - {o}, m)
  }

  lemma {:induction false} SumRemove(s: set<nat>, m: map<nat, nat>, o: nat)
    requires o in s
    ensures SumOver(s, m) == SizeIn(m, o) + SumOver(s - {o}, m)
    decreases |s|
  {
    var p :| p in s && SumOver(s, m) == SizeIn(m, p) + SumOver(s - {p}, m);
    if p != o {
      SumRemove(s - {p}, m, o);
      SumRemove(s - {o}, m, p);
      assert s - {p} - {o} == s - {o} - {p};
    }
  }

  lemma SumInsert(s: set<nat>, m: map<nat, nat>, o: nat)
    requires o !in s
    ensures SumOver(s + {o}, m) == SizeIn(m, o) + SumOver(s, m)
  {
    SumRemove(s + {o}, m, o);
    assert s + {o} - {o} == s;
  }

  lemma {:induction false} SumSame(s: set<nat>, m: map<nat, nat>, m': map<nat, nat>)
    requires forall o :: o in s ==> SizeIn(m, o) == SizeIn(m', o)
    ensures SumOver(s, m) == SumOver(s, m')
    decreases |s|
  {
    if s != {} {
      var o :| o in s;
      SumRemove(s, m, o);
      SumRemove(s, m', o);
      SumSame(s - {o}, m, m');
    }
  }

  lemma {:induction false} SumUnion(a: set<nat>, b: set<nat>, m: map<nat, nat>)
    requires a !! b
    ensures SumOver(a + b, m) == SumOver(a, m) + SumOver(b, m)
    decreases |b|
  {
    if b == {} {
      assert a + b == a;
    } else {
      var o :| o in b;
      SumUnion(a, b - {o}, m);
      SumInsert(a + (b - {o}), m, o);
      assert a + (b - {o}) + {o} == a + b;
      SumRemove(b, m, o);
    }
  }
}
