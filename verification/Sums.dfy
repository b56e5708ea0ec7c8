/**
 Sums over the values of a finite map. The sum is defined by picking keys in an
 arbitrary order; `SumPick` shows that the order does not matter.
 */
module Sums {

  ghost function Sum<K>(m: map<K, nat>): nat
    decreases m.Keys
  {
    if m == map[] then 0
    else
      var k :| k in m;
      assert (m - {k}).Keys == m.Keys - {k};
      m[k] + Sum(m - {k})
  }

  lemma {:induction false} SumPick<K>(m: map<K, nat>, k: K)
    requires k in m
    ensures Sum(m) == m[k] + Sum(m - {k})
    decreases m.Keys
  {
    var first :| first in m && Sum(m) == m[first] + Sum(m - {first});
    if first != k {
      assert (m - {first}).Keys == m.Keys - {first};
      assert (m - {k}).Keys == m.Keys - {k};
      SumPick(m - {first}, k);
      SumPick(m - {k}, first);
      assert m - {first} - {k} == m - {k} - {first};
    }
  }

  /** Writing one key replaces that key's contribution and no other. */
  lemma SumSet<K>(m: map<K, nat>, k: K, v: nat)
    ensures Sum(m[k := v]) == Sum(m - {k}) + v
    ensures k in m ==> Sum(m) == Sum(m - {k}) + m[k]
    ensures k !in m ==> Sum(m) == Sum(m - {k})
  {
    SumPick(m[k := v], k);
    assert m[k := v] - {k} == m - {k};
    if k in m {
      SumPick(m, k);
    } else {
      assert m - {k} == m;
    }
  }

  function At<K>(m: map<K, nat>, k: K): nat { if k in m then m[k] else 0 }

  lemma SumDrop<K>(m: map<K, nat>, k: K)
    ensures (m - {k}).Keys == m.Keys - {k}
    ensures Sum(m) == At(m, k) + Sum(m - {k})
  {
    if k in m { SumPick(m, k); } else { assert m - {k} == m; }
  }

  /** Sums add up key by key, a missing key counting as zero. */
  lemma {:induction false} SumJoin<K>(a: map<K, nat>, b: map<K, nat>, both: map<K, nat>)
    requires both.Keys == a.Keys + b.Keys
    requires forall k :: k in both ==> both[k] == At(a, k) + At(b, k)
    ensures Sum(both) == Sum(a) + Sum(b)
    decreases both.Keys
  {
    if both == map[] {
      assert a == map[] && b == map[];
    } else {
      var k :| k in both;
      SumDrop(a, k);
      SumDrop(b, k);
      SumDrop(both, k);
      SumJoin(a - {k}, b - {k}, both - {k});
    }
  }

  function Joined<K>(a: map<K, nat>, b: map<K, nat>): map<K, nat> {
    map k | k in a.Keys + b.Keys :: At(a, k) + At(b, k)
  }

  function Joined3<K>(a: map<K, nat>, b: map<K, nat>, c: map<K, nat>): map<K, nat> {
    map k | k in a.Keys + b.Keys + c.Keys :: At(a, k) + At(b, k) + At(c, k)
  }

  lemma {:induction false} SumJoin3<K>(a: map<K, nat>, b: map<K, nat>, c: map<K, nat>)
    ensures Sum(Joined3(a, b, c)) == Sum(a) + Sum(b) + Sum(c)
  {
    SumJoin(a, b, Joined(a, b));
    assert forall k :: At(Joined(a, b), k) == At(a, k) + At(b, k);
    SumJoin(Joined(a, b), c, Joined3(a, b, c));
  }

  /** Two sums on each side are equal when they are key by key. */
  lemma {:induction false} SumsAgree2<K>(a: map<K, nat>, b: map<K, nat>, c: map<K, nat>, d: map<K, nat>)
    requires a.Keys + b.Keys == c.Keys + d.Keys
    requires forall k :: k in a.Keys + b.Keys ==> At(a, k) + At(b, k) == At(c, k) + At(d, k)
    ensures Sum(a) + Sum(b) == Sum(c) + Sum(d)
  {
    assert Joined(a, b) == Joined(c, d);
    SumJoin(a, b, Joined(a, b));
    SumJoin(c, d, Joined(c, d));
  }

  /** Three sums on each side are equal when they are key by key. */
  lemma {:induction false} SumsAgree3<K>(
    a: map<K, nat>, b: map<K, nat>, c: map<K, nat>, d: map<K, nat>, e: map<K, nat>, f: map<K, nat>)
    requires a.Keys + b.Keys + c.Keys == d.Keys + e.Keys + f.Keys
    requires forall k :: k in a.Keys + b.Keys + c.Keys ==>
               At(a, k) + At(b, k) + At(c, k) == At(d, k) + At(e, k) + At(f, k)
    ensures Sum(a) + Sum(b) + Sum(c) == Sum(d) + Sum(e) + Sum(f)
  {
    assert Joined3(a, b, c) == Joined3(d, e, f);
    SumJoin3(a, b, c);
    SumJoin3(d, e, f);
  }

  /** A sum of naturals is zero exactly when every summand is. */
  lemma {:induction false} SumZero<K>(m: map<K, nat>)
    ensures Sum(m) == 0 <==> forall k :: k in m ==> m[k] == 0
    decreases m.Keys
  {
    if m == map[] {
    } else {
      var k :| k in m;
      SumPick(m, k);
      assert (m - {k}).Keys == m.Keys - {k};
      SumZero(m - {k});
      if Sum(m) == 0 {
        forall j | j in m ensures m[j] == 0 {
          if j != k { assert j in m - {k}; }
        }
      } else if m[k] == 0 {
        var j :| j in m - {k} && (m - {k})[j] != 0;
        assert m[j] != 0;
      }
    }
  }

  /** Dropping keys can only make a sum smaller. */
  lemma {:induction false} SumMonotone<K>(part: map<K, nat>, whole: map<K, nat>)
    requires part.Keys <= whole.Keys
    requires forall k :: k in part ==> part[k] <= whole[k]
    ensures Sum(part) <= Sum(whole)
    decreases part.Keys
  {
    if part == map[] {
    } else {
      var k :| k in part;
      SumPick(part, k);
      SumPick(whole, k);
      assert (part - {k}).Keys == part.Keys - {k};
      SumMonotone(part - {k}, whole - {k});
    }
  }

  /** The sum of a sequence. */
  function Plus(s: seq<nat>): nat { if s == [] then 0 else Plus(s[..|s| - 1]) + s[|s| - 1] }

  lemma {:induction false} PlusMore(s: seq<nat>, n: nat)
    ensures Plus(s + [n]) == Plus(s) + n
  {
    assert (s + [n])[..|s|] == s;
  }
}
