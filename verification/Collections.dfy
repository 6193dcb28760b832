/** Facts about finite sets and maps that the solver has to be told. */
module Collections {

  ghost function MaxKey(s: set<nat>): (k: nat)
    requires s != {}
    ensures k in s && forall j :: j in s ==> j <= k
  {
    HasMax(s);
    var k :| k in s && forall j :: j in s ==> j <= k;
    k
  }

  lemma {:induction false} HasMax(s: set<nat>)
    requires s != {}
    ensures exists k :: k in s && forall j :: j in s ==> j <= k
  {
    var x :| x in s;
    if s - {x} != {} {
      HasMax(s - {x});
      var k :| k in s - {x} && forall j :: j in s - {x} ==> j <= k;
      var top := if x > k then x else k;
      forall j | j in s ensures j <= top { assert j == x || j in s - {x}; }
    } else {
      assert s == {x};
    }
  }

  predicate Least(k: nat, s: set<nat>)
  {
    k in s && forall j :: j in s ==> k <= j
  }

  lemma {:induction false} HasLeast(s: set<nat>)
    requires s != {}
    ensures exists k :: Least(k, s)
  {
    var x :| x in s;
    if s - {x} != {} {
      HasLeast(s - {x});
      var k :| Least(k, s - {x});
      var low := if x < k then x else k;
      forall j | j in s ensures low <= j { assert j == x || j in s - {x}; }
      assert Least(low, s);
    } else {
      forall j | j in s ensures x <= j { assert j == x || j in s - {x}; }
      assert Least(x, s);
    }
  }

  lemma Updated<T>(m: map<nat, T>, k: nat, v: T)
    requires k in m
    ensures |m[k := v]| == |m| && m[k := v].Keys == m.Keys
  {
    assert m[k := v].Keys == m.Keys;
    assert |m[k := v].Keys| == |m[k := v]| && |m.Keys| == |m|;
  }

  lemma Inserted<T>(m: map<nat, T>, k: nat, v: T)
    requires k !in m
    ensures |m[k := v]| == |m| + 1 && m[k := v].Keys == m.Keys + {k}
  {
    assert m[k := v].Keys == m.Keys + {k};
    assert |m[k := v].Keys| == |m[k := v]| && |m.Keys| == |m|;
  }

  lemma Removed<T>(m: map<nat, T>, k: nat)
    requires k in m
    ensures |m - {k}| == |m| - 1 && (m - {k}).Keys == m.Keys - {k}
  {
    assert (m - {k}).Keys == m.Keys - {k};
    assert |(m - {k}).Keys| == |m - {k}| && |m.Keys| == |m|;
  }

  lemma UpdatedTwice<T>(m: map<nat, T>, k: nat, v: T, w: T)
    ensures m[k := v][k := w] == m[k := w]
  {
  }

  lemma UpdatedRemoved<T>(m: map<nat, T>, k: nat, v: T)
    ensures m[k := v] - {k} == m - {k}
  {
  }

  lemma SameSize<T, U>(m: map<nat, T>, n: map<nat, U>)
    requires m.Keys == n.Keys
    ensures |m| == |n|
  {
    assert |m| == |m.Keys| && |n| == |n.Keys|;
  }
}
