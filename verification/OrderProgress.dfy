/** Deadlock freedom: the wait-for graph never has a cycle, somebody can always step, and everybody finishes. */
module OrderProgress {
  import opened Prelude
  import opened Models
  import opened Orders
  import opened OrderMachine

  /** c is blocked on something d holds: its reserved key, or the next row to lock. */
  ghost predicate WaitsFor(s: State, c: nat, d: nat) {
    && c in s.calls && d in s.calls && c != d
    && ( || (s.calls[c].phase.AtFlush? && FindOwn(s.world.db, s.calls[c]).None?
             && Reserves(s.calls[d]) && SameKey(s.calls[c], s.calls[d]))
         || (s.calls[c].phase.Locking? && s.calls[c].phase.todo != []
             && s.calls[c].phase.todo[0] in ViewOf(s.calls[d])))
  }

  /** The key reservation ranks below every row, and rows rank by id. */
  ghost function WaitRank(call: Call): nat {
    if call.phase.Locking? && call.phase.todo != [] then
      var next: nat := call.phase.todo[0];
      next + 1
    else 0
  }

  lemma WaitingClimbs(s: State, c: nat, d: nat, e: nat)
    requires Inv(s) && WaitsFor(s, c, d) && WaitsFor(s, d, e)
    ensures WaitRank(s.calls[c]) < WaitRank(s.calls[d])
  {
    assert CallInv(s.world, s.calls[d]);
    assert s.calls[d].phase.Locking?;
    assert s.calls[d].phase.todo[0] in s.calls[d].phase.todo;
  }

  ghost predicate WaitChain(s: State, path: seq<nat>) {
    forall i :: 0 <= i < |path| - 1 ==> WaitsFor(s, path[i], path[i + 1])
  }

  lemma {:induction false} ChainClimbs(s: State, path: seq<nat>, n: nat)
    requires Inv(s) && WaitChain(s, path) && 0 < n < |path| - 1
    requires path[0] in s.calls && path[n] in s.calls
    ensures WaitRank(s.calls[path[0]]) < WaitRank(s.calls[path[n]])
  {
    assert WaitsFor(s, path[n - 1], path[n]);
    WaitingClimbs(s, path[n - 1], path[n], path[n + 1]);
    if n > 1 {
      ChainClimbs(s, path, n - 1);
    }
  }

  /** No chain of waiting calls comes back to where it started. */
  lemma NoWaitCycle(s: State, path: seq<nat>)
    requires Inv(s) && WaitChain(s, path) && |path| >= 2
    ensures path[0] != path[|path| - 1]
  {
    var last := |path| - 1;
    assert WaitsFor(s, path[0], path[1]);
    if path[0] == path[last] {
      if last > 1 {
        assert WaitsFor(s, path[last - 1], path[last]);
        ChainClimbs(s, path, last - 1);
      }
      WaitingClimbs(s, path[last - 1], path[last], path[1]);
      assert false;
    }
  }

  /* ---- somebody can step ---- */

  /** Steps a call takes of its own accord; crashes and new arrivals are not progress. */
  predicate Progress(l: Label) {
    l.Lookup? || l.Flush? || l.StartLocking? || l.LockNext? || l.Place? || l.Commit? || l.Recover?
  }

  ghost function OwnStep(call: Call, c: nat): Label
    requires Active(call)
  {
    match call.phase
    case AtLookup => Lookup(c)
    case AtFlush => Flush(c)
    case AtLock => StartLocking(c)
    case Locking(_, todo, _, _) => if todo == [] then Place(c) else LockNext(c)
    case Placed(_, _) => Commit(c, true)
    case AtRecovery => Recover(c)
  }

  lemma KeyTaken(s: State, c: nat) returns (d: nat)
    requires c in s.calls && s.calls[c].phase.AtFlush? && !Enabled(s, Flush(c))
    ensures WaitsFor(s, c, d) && Active(s.calls[d])
  {
    d :| d in s.calls && d != c && Reserves(s.calls[d]) && SameKey(s.calls[c], s.calls[d]);
  }

  lemma RowTaken(s: State, c: nat) returns (d: nat)
    requires c in s.calls && CallInv(s.world, s.calls[c])
    requires s.calls[c].phase.Locking? && s.calls[c].phase.todo != [] && !Enabled(s, LockNext(c))
    ensures WaitsFor(s, c, d) && Active(s.calls[d])
  {
    var p := s.calls[c].phase.todo[0];
    assert p in s.calls[c].phase.todo && p in s.calls[c].phase.found;
    d :| d in s.calls && d != c && p in ViewOf(s.calls[d]);
  }

  lemma OnlyFlushAndLockBlock(s: State, c: nat)
    requires c in s.calls && Active(s.calls[c]) && !Enabled(s, OwnStep(s.calls[c], c))
    ensures s.calls[c].phase.AtFlush? || (s.calls[c].phase.Locking? && s.calls[c].phase.todo != [])
  {
  }

  /** A call that cannot take its own step is waiting for another one, which has not finished either. */
  lemma BlockedMeansWaiting(s: State, c: nat) returns (d: nat)
    requires Inv(s) && c in s.calls && Active(s.calls[c]) && !Enabled(s, OwnStep(s.calls[c], c))
    ensures WaitsFor(s, c, d) && Active(s.calls[d])
  {
    OnlyFlushAndLockBlock(s, c);
    if s.calls[c].phase.AtFlush? {
      d := KeyTaken(s, c);
    } else {
      d := RowTaken(s, c);
    }
  }

  ghost function Above(s: State, rank: nat): set<nat> {
    set d | d in s.calls && WaitRank(s.calls[d]) > rank
  }

  /** As long as some call is unfinished, some unfinished call can take its own step. */
  lemma {:induction false} SomeoneCanStep(s: State, c: nat) returns (d: nat)
    requires Inv(s) && c in s.calls && Active(s.calls[c])
    ensures d in s.calls && Active(s.calls[d]) && Enabled(s, OwnStep(s.calls[d], d))
    decreases Above(s, WaitRank(s.calls[c]))
  {
    d := c;
    if !Enabled(s, OwnStep(s.calls[c], c)) {
      d := BlockedMeansWaiting(s, c);
      if !Enabled(s, OwnStep(s.calls[d], d)) {
        var after := BlockedMeansWaiting(s, d);
        WaitingClimbs(s, c, d, after);
        assert d in Above(s, WaitRank(s.calls[c])) && d !in Above(s, WaitRank(s.calls[d]));
        d := SomeoneCanStep(s, d);
      }
    }
  }

  lemma SmallerSet(a: set<nat>, b: set<nat>)
    requires a <= b
    ensures |a| <= |b|
  {
    assert b == a + (b - a);
  }

  /* ---- everybody finishes ---- */

  /** An upper bound on the steps a call still takes. */
  ghost function StepsLeft(call: Call): nat {
    match call.phase
    case AtLookup => |call.request.items| + 5
    case AtFlush => |call.request.items| + 4
    case AtLock => |call.request.items| + 3
    case Locking(_, todo, _, _) => |todo| + 2
    case Placed(_, _) => 1
    case AtRecovery => 1
    case _ => 0
  }

  ghost function WorkMap(calls: map<nat, Call>): map<nat, nat> {
    map c | c in calls :: StepsLeft(calls[c])
  }

  ghost function Work(s: State): nat { SumMap(WorkMap(s.calls)) }

  lemma MovingCallChangesWork(calls: map<nat, Call>, c: nat, call: Call)
    requires c in calls
    ensures SumMap(WorkMap(calls[c := call])) + StepsLeft(calls[c]) == SumMap(WorkMap(calls)) + StepsLeft(call)
  {
    SumUpdate(WorkMap(calls), c, StepsLeft(call));
    assert WorkMap(calls[c := call]) == WorkMap(calls)[c := StepsLeft(call)];
  }

  lemma FoundIsSmall(request: Request, db: Db)
    ensures |Products(request.items) * db.products.Keys| <= |request.items|
  {
    ProductsSize(request.items);
    SmallerSet(Products(request.items) * db.products.Keys, Products(request.items));
  }

  lemma LockingShrinks(s: State, c: nat)
    requires Enabled(s, StartLocking(c))
    ensures StepsLeft(s.calls[c].(phase := NextPhase(s, StartLocking(c)))) < StepsLeft(s.calls[c])
  {
    FoundIsSmall(s.calls[c].request, s.world.db);
  }

  lemma PlaceShrinks(s: State, c: nat)
    requires Enabled(s, Place(c))
    ensures StepsLeft(s.calls[c].(phase := NextPhase(s, Place(c)))) < StepsLeft(s.calls[c])
  {
  }

  lemma OwnStepShrinks(s: State, l: Label)
    requires Enabled(s, l) && Progress(l)
    ensures StepsLeft(s.calls[l.c].(phase := NextPhase(s, l))) < StepsLeft(s.calls[l.c])
  {
    match l
    case StartLocking(c) => LockingShrinks(s, c);
    case Place(c) => PlaceShrinks(s, c);
    case _ =>
  }

  lemma StepUsesWork(s: State, l: Label)
    requires Enabled(s, l) && Progress(l)
    ensures Work(Step(s, l)) < Work(s)
  {
    OwnStepShrinks(s, l);
    MovingCallChangesWork(s.calls, l.c, s.calls[l.c].(phase := NextPhase(s, l)));
  }

  lemma CrashUsesWork(s: State, c: nat)
    requires Enabled(s, Crash(c))
    ensures Work(Step(s, Crash(c))) < Work(s)
  {
    MovingCallChangesWork(s.calls, c, s.calls[c].(phase := Crashed));
  }

  /** The call steps between two points of a run. */
  function CallSteps(ls: seq<Label>, m: nat, n: nat): nat
    requires m <= n <= |ls|
  {
    if m == n then 0
    else CallSteps(ls, m, n - 1) + (if Progress(ls[n - 1]) || ls[n - 1].Crash? then 1 else 0)
  }

  /** With no new arrivals the calls of a run take at most Work steps, so they all finish. */
  lemma {:induction false} FinitelyManySteps(ss: seq<State>, ls: seq<Label>, m: nat, n: nat)
    requires IsRun(ss, ls) && m <= n < |ss|
    requires forall i :: m <= i < n ==> !ls[i].Begin?
    ensures CallSteps(ls, m, n) + Work(ss[n]) <= Work(ss[m])
    decreases n - m
  {
    if m < n {
      FinitelyManySteps(ss, ls, m, n - 1);
      if Progress(ls[n - 1]) {
        StepUsesWork(ss[n - 1], ls[n - 1]);
      } else if ls[n - 1].Crash? {
        CrashUsesWork(ss[n - 1], ls[n - 1].c);
      }
    }
  }

  /** Where no call can take a step of its own, every call has finished. */
  lemma QuietMeansFinished(s: State, c: nat)
    requires Inv(s) && c in s.calls && forall l :: Progress(l) ==> !Enabled(s, l)
    ensures !Active(s.calls[c])
  {
    if Active(s.calls[c]) {
      var d := SomeoneCanStep(s, c);
      assert Progress(OwnStep(s.calls[d], d));
    }
  }

  /** Any validated request may begin at any time, under a new call with ids not used before. */
  lemma CallCanBegin(s: State, c: nat, request: Request, stamp: Stamp)
    requires c !in s.calls && Valid(request)
    requires forall i :: 0 <= i < |s.world.db.orders| ==> s.world.db.orders[i].id != stamp.orderId
    requires forall i :: 0 <= i < |s.world.db.outbox| ==> s.world.db.outbox[i].eventId != stamp.eventId
    requires forall d :: d in s.calls ==> s.calls[d].stamp.orderId != stamp.orderId && s.calls[d].stamp.eventId != stamp.eventId
    ensures Enabled(s, Begin(c, request, stamp))
    ensures
      var after := Step(s, Begin(c, request, stamp));
      c in after.calls && Active(after.calls[c]) && after.calls[c].request == request && after.calls[c].stamp == stamp
  {
    assert Unused(s.world.db, stamp);
  }

  /** A step of its own never ends a call without an answer: only crashes and lost acknowledgements do. */
  lemma OwnStepNeverCrashes(s: State, c: nat)
    requires Inv(s) && c in s.calls && Active(s.calls[c]) && Enabled(s, OwnStep(s.calls[c], c))
    ensures
      var after := Step(s, OwnStep(s.calls[c], c)).calls[c];
      Active(after) || after.phase.Returned?
  {
    if s.calls[c].phase.AtRecovery? {
      assert CallInv(s.world, s.calls[c]);
    }
  }

  /** A run may start, and any possible step continues it. */
  lemma RunNext(ss: seq<State>, ls: seq<Label>, l: Label)
    requires IsRun(ss, ls) && Enabled(ss[|ls|], l)
    ensures IsRun([START], []) && IsRun(ss + [Step(ss[|ls|], l)], ls + [l])
  {
    var longer, labels := ss + [Step(ss[|ls|], l)], ls + [l];
    forall i | 0 <= i < |labels|
      ensures Enabled(longer[i], labels[i]) && longer[i + 1] == Step(longer[i], labels[i])
    {
      assert longer[i] == ss[i];
      assert i < |ls| ==> longer[i + 1] == ss[i + 1] && labels[i] == ls[i];
    }
  }
}
