/** Small pieces shared by every other module: options, ascending lists and sums over finite maps. */
module Prelude {

  datatype Option<+T> = None | Some(value: T)

  ghost predicate Ascends(q: seq<nat>) {
    forall i, j :: 0 <= i < j < |q| ==> q[i] < q[j]
  }

  ghost predicate IsLeast(m: nat, s: set<nat>) {
    m in s && forall x :: x in s ==> m <= x
  }

  lemma {:induction false} LeastExists(s: set<nat>)
    requires s != {}
    ensures exists m :: IsLeast(m, s)
  {
    var y :| y in s;
    var rest := s - {y};
    if rest == {} {
      assert s == {y};
      assert IsLeast(y, s);
    } else {
      LeastExists(rest);
      var m :| IsLeast(m, rest);
      assert forall x :: x in s ==> x == y || x in rest;
      assert IsLeast(if m < y then m else y, s);
    }
  }

  ghost function Least(s: set<nat>): (m: nat)
    requires s != {}
    ensures IsLeast(m, s)
  {
    LeastExists(s);
    var m :| IsLeast(m, s);
    m
  }

  /** The members of a set in increasing order: what ORDER BY id gives. */
  ghost function Ascending(s: set<nat>): (q: seq<nat>)
    ensures Ascends(q) && |q| == |s|
    ensures forall x :: x in q <==> x in s
  {
    if s == {} then []
    else
      var m := Least(s);
      var rest := Ascending(s - {m});
      assert forall i :: 0 <= i < |rest| ==> rest[i] in rest;
      [m] + rest
  }

  lemma TailAscends(q: seq<nat>)
    requires Ascends(q) && q != []
    ensures Ascends(q[1..])
    ensures forall x :: x in q[1..] ==> q[0] < x
    ensures forall x :: x in q <==> x == q[0] || x in q[1..]
  {
    forall x | x in q[1..]
      ensures q[0] < x
    {
      var i :| 0 <= i < |q| - 1 && q[1..][i] == x;
      assert q[i + 1] == x;
    }
    forall i, j | 0 <= i < j < |q[1..]|
      ensures q[1..][i] < q[1..][j]
    {
      assert q[i + 1] < q[j + 1];
    }
    assert q == [q[0]] + q[1..];
  }

  /** The sum of the values of a finite map. */
  ghost function SumMap(m: map<nat, nat>): nat
    decreases m.Keys
  {
    if m == map[] then 0
    else
      var k :| k in m;
      m[k] + SumMap(m - {k})
  }

  /** The sum does not depend on the order in which keys are taken out. */
  lemma {:induction false} SumRemove(m: map<nat, nat>, k: nat)
    requires k in m
    ensures SumMap(m) == m[k] + SumMap(m - {k})
    decreases m.Keys
  {
    var first :| first in m && SumMap(m) == m[first] + SumMap(m - {first});
    if first != k {
      SumRemove(m - {first}, k);
      SumRemove(m - {k}, first);
      assert m - {first} - {k} == m - {k} - {first};
    }
  }

  lemma SumUpdate(m: map<nat, nat>, k: nat, v: nat)
    ensures k in m ==> SumMap(m[k := v]) + m[k] == SumMap(m) + v
    ensures k !in m ==> SumMap(m[k := v]) == SumMap(m) + v
  {
    SumRemove(m[k := v], k);
    if k in m {
      SumRemove(m, k);
      assert m[k := v] - {k} == m - {k};
    } else {
      assert m[k := v] - {k} == m;
    }
  }

  /** One entry after the other. */
  function Fold<S, E>(step: (S, E) -> S, state: S, entries: seq<E>): S {
    if entries == [] then state else step(Fold(step, state, entries[..|entries| - 1]), entries[|entries| - 1])
  }

  lemma {:induction false} FoldGoesOn<S, E>(step: (S, E) -> S, state: S, early: seq<E>, late: seq<E>)
    ensures Fold(step, Fold(step, state, early), late) == Fold(step, state, early + late)
  {
    if late == [] {
      assert early + late == early;
    } else {
      var front, all := late[..|late| - 1], early + late;
      FoldGoesOn(step, state, early, front);
      assert all[..|all| - 1] == early + front && all[|all| - 1] == late[|late| - 1];
    }
  }
}
