/** Taking the run of one part out of the run of a system in which other parts step too. */
module Projection {
  import opened Prelude

  /** Where the part does not step, it does not change. */
  ghost predicate Follows<S, L>(states: seq<S>, picks: seq<Option<L>>) {
    && |states| == |picks| + 1
    && forall i :: 0 <= i < |picks| && picks[i].None? ==> states[i + 1] == states[i]
  }

  /** The labels of the part among the first n steps. */
  function Kept<L>(picks: seq<Option<L>>, n: nat): seq<L>
    requires n <= |picks|
  {
    if n == 0 then []
    else if picks[n - 1].Some? then Kept(picks, n - 1) + [picks[n - 1].value]
    else Kept(picks, n - 1)
  }

  /** The states of the part before and after each of those. */
  function Visited<S, L>(states: seq<S>, picks: seq<Option<L>>, n: nat): seq<S>
    requires n <= |picks| < |states|
  {
    if n == 0 then [states[0]]
    else if picks[n - 1].Some? then Visited(states, picks, n - 1) + [states[n]]
    else Visited(states, picks, n - 1)
  }

  /** Where the part stands after m steps of the whole. */
  function Index<L>(picks: seq<Option<L>>, m: nat): nat
    requires m <= |picks|
  {
    |Kept(picks, m)|
  }

  lemma {:induction false} KeptGrows<L>(picks: seq<Option<L>>, m: nat, n: nat)
    requires m <= n <= |picks|
    ensures Kept(picks, m) <= Kept(picks, n)
    decreases n - m
  {
    if m < n {
      KeptGrows(picks, m, n - 1);
    }
  }

  /** The run of the part passes through every state the part has in the run of the whole, in the same order. */
  lemma {:induction false} VisitedAt<S, L>(states: seq<S>, picks: seq<Option<L>>, m: nat, n: nat)
    requires Follows(states, picks) && m <= n <= |picks|
    ensures |Visited(states, picks, n)| == Index(picks, n) + 1
    ensures Index(picks, m) <= Index(picks, n) && Visited(states, picks, n)[Index(picks, m)] == states[m]
    decreases n
  {
    if n > 0 {
      VisitedAt(states, picks, if m < n then m else n - 1, n - 1);
      KeptGrows(picks, m, n);
    }
  }

  /** Every step of the part is a step of the whole, at the right place. */
  lemma {:induction false} Origin<S, L>(states: seq<S>, picks: seq<Option<L>>, m: nat, n: nat, j: nat) returns (i: nat)
    requires Follows(states, picks) && m <= n <= |picks| && Index(picks, m) <= j < Index(picks, n)
    ensures m <= i < n && Index(picks, i) == j && Index(picks, i + 1) == j + 1
    ensures picks[i] == Some(Kept(picks, n)[j])
    decreases n
  {
    if picks[n - 1].Some? && j == Index(picks, n - 1) {
      i := n - 1;
    } else {
      i := Origin(states, picks, m, n - 1, j);
      KeptGrows(picks, n - 1, n);
    }
  }

  lemma KeptAt<L>(picks: seq<Option<L>>, m: nat, n: nat)
    requires m < n <= |picks| && picks[m].Some?
    ensures Index(picks, m) < Index(picks, n) && Kept(picks, n)[Index(picks, m)] == picks[m].value
  {
    KeptGrows(picks, m + 1, n);
  }

  /** A moment of the part's own run is a moment of the whole. */
  lemma Moment<S, L>(states: seq<S>, picks: seq<Option<L>>, m: nat, n: nat, at: nat) returns (k: nat)
    requires Follows(states, picks) && m <= n <= |picks| && Index(picks, m) < at <= Index(picks, n)
    ensures at < |Visited(states, picks, n)| && m < k <= n && states[k] == Visited(states, picks, n)[at]
  {
    var i := Origin(states, picks, m, n, at - 1);
    k := i + 1;
    VisitedAt(states, picks, k, n);
  }
}
