/** The outbox drains: every committed cycle spends retry budget, and poison rows cannot hold others back for long. */
module PublisherDrain {
  import opened Prelude
  import opened Publisher
  import opened PublisherMachine

  /** How many failed settlements a row can still take. */
  ghost function Weight(settings: Settings, row: Row): nat {
    if row.status.Pending? && row.attempts < AttemptLimit(settings) then AttemptLimit(settings) - row.attempts else 0
  }

  ghost function Weights(settings: Settings, rows: map<nat, Row>, bound: nat): map<nat, nat> {
    map id | id in rows && id < bound :: Weight(settings, rows[id])
  }

  /** The retry budget of the pending rows with ids below the bound. */
  ghost function Budget(settings: Settings, rows: map<nat, Row>, bound: nat): nat {
    SumMap(Weights(settings, rows, bound))
  }

  ghost function CountBelow(held: seq<Claim>, bound: nat): nat {
    if held == [] then 0
    else CountBelow(held[..|held| - 1], bound) + (if held[|held| - 1].id < bound then 1 else 0)
  }

  lemma {:induction false} AllBelow(held: seq<Claim>, bound: nat)
    requires forall i :: 0 <= i < |held| ==> held[i].id < bound
    ensures CountBelow(held, bound) == |held|
  {
    if held != [] {
      AllBelow(held[..|held| - 1], bound);
    }
  }

  lemma SettlingSpends(settings: Settings, row: Row, error: Option<string>, now: real, u: real)
    requires row.status.Pending? && row.attempts < AttemptLimit(settings)
    ensures Weight(settings, SettleRow(settings, row, error, now, u)) < Weight(settings, row)
  {
  }

  lemma WriteRow(settings: Settings, rows: map<nat, Row>, id: nat, row: Row, bound: nat)
    requires id in rows
    ensures id >= bound ==> Budget(settings, rows[id := row], bound) == Budget(settings, rows, bound)
    ensures id < bound ==> Budget(settings, rows[id := row], bound) + Weight(settings, rows[id])
                           == Budget(settings, rows, bound) + Weight(settings, row)
  {
    var before, after := Weights(settings, rows, bound), Weights(settings, rows[id := row], bound);
    if id >= bound {
      assert after == before;
    } else {
      assert after == before[id := Weight(settings, row)];
      SumUpdate(before, id, Weight(settings, row));
    }
  }

  ghost predicate HeldFresh(settings: Settings, rows: map<nat, Row>, held: seq<Claim>) {
    && IdsAscend(held)
    && forall i :: 0 <= i < |held| ==>
                     && held[i].id in rows && rows[held[i].id] == held[i].row
                     && held[i].row.status.Pending? && held[i].row.attempts < AttemptLimit(settings)
  }

  /** A settled batch spends at least one unit for each of its rows below the bound. */
  lemma {:induction false} BatchSpends(
    settings: Settings, rows: map<nat, Row>, held: seq<Claim>, now: real,
    errors: seq<Option<string>>, draws: seq<real>, bound: nat)
    requires |errors| == |draws| == |held| && HeldFresh(settings, rows, held)
    ensures Budget(settings, WriteBack(settings, rows, held, now, errors, draws), bound) + CountBelow(held, bound)
         <= Budget(settings, rows, bound)
  {
    if held != [] {
      var n := |held| - 1;
      var front := held[..n];
      assert forall i :: 0 <= i < n ==> front[i] == held[i];
      BatchSpends(settings, rows, front, now, errors[..n], draws[..n], bound);
      var written := WriteBack(settings, rows, front, now, errors[..n], draws[..n]);
      assert forall i :: 0 <= i < n ==> held[i].id < held[n].id;
      assert !Holds(front, held[n].id);
      WriteBackElsewhere(settings, rows, front, now, errors[..n], draws[..n], held[n].id);
      var settled := SettleRow(settings, held[n].row, errors[n], now, draws[n]);
      WriteRow(settings, written, held[n].id, settled, bound);
      SettlingSpends(settings, held[n].row, errors[n], now, draws[n]);
    }
  }

  lemma HeldIsFresh(settings: Settings, s: State, w: nat)
    requires Inv(settings, s) && w in s.workers
    ensures HeldFresh(settings, s.rows, HeldBy(s.workers[w]))
  {
    assert PhaseInv(settings, s.rows, s.handed, s.workers[w]);
    var held := HeldBy(s.workers[w]);
    forall i | 0 <= i < |held|
      ensures held[i].row.attempts < AttemptLimit(settings)
    {
      assert RowInv(settings, s.settled, held[i].id, s.rows[held[i].id]);
    }
  }

  lemma InsertAbove(settings: Settings, rows: map<nat, Row>, id: nat, row: Row, bound: nat)
    requires bound <= id
    ensures Budget(settings, rows[id := row], bound) == Budget(settings, rows, bound)
  {
    assert Weights(settings, rows[id := row], bound) == Weights(settings, rows, bound);
  }

  /** What one step of a run settles among the rows below the bound. */
  ghost function SettledBelow(s: State, l: Label, bound: nat): nat {
    if l.SettleBatch? then CountBelow(HeldBy(PhaseOf(s, l.w)), bound) else 0
  }

  lemma StepSpends(settings: Settings, s: State, l: Label, bound: nat)
    requires Inv(settings, s) && Enabled(settings, s, l) && (l.Insert? ==> bound <= l.id)
    ensures Budget(settings, Step(settings, s, l).rows, bound) + SettledBelow(s, l, bound)
         <= Budget(settings, s.rows, bound)
  {
    if l.SettleBatch? {
      HeldIsFresh(settings, s, l.w);
      BatchSpends(
        settings, s.rows, s.workers[l.w].held, s.workers[l.w].now, l.errors, l.draws, bound);
    } else if l.Insert? {
      InsertAbove(settings, s.rows, l.id, FreshRow(l.message, l.availableAt), bound);
    }
  }

  /** All settlements below the bound between two points of a run, counted with repetition. */
  ghost function TotalSettled(ss: seq<State>, ls: seq<Label>, m: nat, n: nat, bound: nat): nat
    requires m <= n <= |ls| && |ls| < |ss|
  {
    if m == n then 0 else TotalSettled(ss, ls, m, n - 1, bound) + SettledBelow(ss[n - 1], ls[n - 1], bound)
  }

  ghost predicate PaysForSettling(settings: Settings, s: State, l: Label, s': State, bound: nat) {
    Budget(settings, s'.rows, bound) + SettledBelow(s, l, bound) <= Budget(settings, s.rows, bound)
  }

  lemma {:induction false} SettlingsAddUp(settings: Settings, ss: seq<State>, ls: seq<Label>, m: nat, n: nat, bound: nat)
    requires m <= n <= |ls| && |ls| < |ss|
    requires forall i :: m <= i < n ==> PaysForSettling(settings, ss[i], ls[i], ss[i + 1], bound)
    ensures TotalSettled(ss, ls, m, n, bound) + Budget(settings, ss[n].rows, bound) <= Budget(settings, ss[m].rows, bound)
  {
    if m < n {
      SettlingsAddUp(settings, ss, ls, m, n - 1, bound);
      assert PaysForSettling(settings, ss[n - 1], ls[n - 1], ss[n - 1 + 1], bound);
    }
  }

  /** With any number of workers, the rows below an id are settled at most as often as their budget allows unless new ones arrive. */
  lemma OutboxDrains(settings: Settings, ss: seq<State>, ls: seq<Label>, m: nat, n: nat, bound: nat)
    requires IsRun(settings, ss, ls) && m <= n < |ss|
    requires forall i :: m <= i < n && ls[i].Insert? ==> bound <= ls[i].id
    ensures TotalSettled(ss, ls, m, n, bound) + Budget(settings, ss[n].rows, bound) <= Budget(settings, ss[m].rows, bound)
  {
    forall i | m <= i < n
      ensures PaysForSettling(settings, ss[i], ls[i], ss[i + 1], bound)
    {
      RunKeepsInv(settings, ss, ls, i);
      StepSpends(settings, ss[i], ls[i], bound);
    }
    SettlingsAddUp(settings, ss, ls, m, n, bound);
  }

  /** The cycles that settled a batch; a batch is never empty. */
  function CommittedCycles(ls: seq<Label>, m: nat, n: nat): nat
    requires m <= n <= |ls|
  {
    if m == n then 0 else CommittedCycles(ls, m, n - 1) + (if ls[n - 1].SettleBatch? then 1 else 0)
  }

  ghost predicate RowsBelow(rows: map<nat, Row>, bound: nat) {
    forall id :: id in rows ==> id < bound
  }

  lemma StepKeepsIds(settings: Settings, s: State, l: Label)
    requires Inv(settings, s) && Enabled(settings, s, l) && !l.Insert?
    ensures Step(settings, s, l).rows.Keys == s.rows.Keys
  {
    if l.SettleBatch? {
      WriteBackKeys(settings, s.rows, s.workers[l.w].held, s.workers[l.w].now, l.errors, l.draws);
    }
  }

  lemma StepStaysBelow(settings: Settings, ss: seq<State>, ls: seq<Label>, i: nat, bound: nat)
    requires IsRun(settings, ss, ls) && i < |ls| && !ls[i].Insert? && RowsBelow(ss[i].rows, bound)
    ensures RowsBelow(ss[i + 1].rows, bound)
  {
    RunKeepsInv(settings, ss, ls, i);
    StepKeepsIds(settings, ss[i], ls[i]);
    assert ss[i + 1].rows.Keys == ss[i].rows.Keys;
  }

  lemma {:induction false} RowsStayBelow(settings: Settings, ss: seq<State>, ls: seq<Label>, m: nat, n: nat, bound: nat)
    requires IsRun(settings, ss, ls) && m <= n < |ss| && RowsBelow(ss[m].rows, bound)
    requires forall i :: m <= i < n ==> !ls[i].Insert?
    ensures RowsBelow(ss[n].rows, bound)
    decreases n - m
  {
    if m < n {
      StepStaysBelow(settings, ss, ls, m, bound);
      RowsStayBelow(settings, ss, ls, m + 1, n, bound);
    }
  }

  lemma BatchCounts(settings: Settings, s: State, l: Label, bound: nat)
    requires Inv(settings, s) && Enabled(settings, s, l) && RowsBelow(s.rows, bound)
    ensures SettledBelow(s, l, bound) >= if l.SettleBatch? then 1 else 0
  {
    if l.SettleBatch? {
      assert PhaseInv(settings, s.rows, s.handed, s.workers[l.w]);
      AllBelow(s.workers[l.w].held, bound);
    }
  }

  ghost predicate CountsAsSettled(s: State, l: Label, bound: nat) {
    l.SettleBatch? ==> SettledBelow(s, l, bound) >= 1
  }

  lemma {:induction false} CyclesWithinSettled(ss: seq<State>, ls: seq<Label>, m: nat, n: nat, bound: nat)
    requires m <= n <= |ls| && |ls| < |ss|
    requires forall i :: m <= i < n ==> CountsAsSettled(ss[i], ls[i], bound)
    ensures CommittedCycles(ls, m, n) <= TotalSettled(ss, ls, m, n, bound)
  {
    if m < n {
      CyclesWithinSettled(ss, ls, m, n - 1, bound);
      assert CountsAsSettled(ss[n - 1], ls[n - 1], bound);
    }
  }

  /** With no new rows, however long it goes on and however many publishers there are, the cycles that settle anything
      are at most as many as the retry budget of the whole table. */
  lemma FinitelyManyCycles(settings: Settings, ss: seq<State>, ls: seq<Label>, m: nat, n: nat, bound: nat)
    requires IsRun(settings, ss, ls) && m <= n < |ss| && RowsBelow(ss[m].rows, bound)
    requires forall i :: m <= i < n ==> !ls[i].Insert?
    ensures CommittedCycles(ls, m, n) <= Budget(settings, ss[m].rows, bound)
  {
    forall i | m <= i < n
      ensures CountsAsSettled(ss[i], ls[i], bound)
    {
      RowsStayBelow(settings, ss, ls, m, i, bound);
      RunKeepsInv(settings, ss, ls, i);
      BatchCounts(settings, ss[i], ls[i], bound);
    }
    CyclesWithinSettled(ss, ls, m, n, bound);
    OutboxDrains(settings, ss, ls, m, n, bound);
  }

  /* ---- one publisher: no starvation by poison rows ---- */

  /** A step of worker w, or of nobody. */
  ghost predicate Solo(l: Label, w: nat) {
    match l
    case Insert(_, _, _) => true
    case Deliver(_, _) => true
    case _ => l.w == w
  }

  /** While w works alone, an eligible row it has not taken is still ahead of it, or the batch is full of smaller ids. */
  ghost predicate SoloInv(settings: Settings, s: State, w: nat, r: nat) {
    && (forall v :: v in s.workers && v != w ==> s.workers[v].Idle?)
    && r in s.rows
    && match PhaseOf(s, w)
       case Idle => true
       case Scanning(now, todo, held) => Eligible(s.rows[r], now) ==> r in todo || Holds(held, r)
       case Sending(now, held) =>
         Eligible(s.rows[r], now) && !Holds(held, r) ==>
           |held| == settings.batchSize && forall i :: 0 <= i < |held| ==> held[i].id < r
  }

  lemma ScanKeepsSolo(settings: Settings, s: State, w: nat, r: nat)
    requires Inv(settings, s) && SoloInv(settings, s, w, r) && Enabled(settings, s, Scan(w))
    ensures SoloInv(settings, Step(settings, s, Scan(w)), w, r)
  {
    var phase := s.workers[w];
    var id := phase.todo[0];
    TailAscends(phase.todo);
    assert !LockedByOther(s, w, id);
    if id in s.rows {
      HoldsNext(phase.held, Claim(id, s.rows[id]), r);
    }
  }

  lemma SettleKeepsSolo(
    settings: Settings, s: State, w: nat, r: nat, errors: seq<Option<string>>, draws: seq<real>)
    requires Inv(settings, s) && SoloInv(settings, s, w, r) && Enabled(settings, s, SettleBatch(w, errors, draws))
    ensures SoloInv(settings, Step(settings, s, SettleBatch(w, errors, draws)), w, r)
  {
    BatchKeepsMessage(settings, s, w, errors, draws, r);
  }

  lemma BeginKeepsSolo(settings: Settings, s: State, w: nat, r: nat, now: real)
    requires SoloInv(settings, s, w, r) && Enabled(settings, s, BeginCycle(w, now))
    ensures SoloInv(settings, Step(settings, s, BeginCycle(w, now)), w, r)
  {
    assert Eligible(s.rows[r], now) ==> r in EligibleIds(s.rows, now);
  }

  lemma StepKeepsSolo(settings: Settings, s: State, l: Label, w: nat, r: nat)
    requires Inv(settings, s) && SoloInv(settings, s, w, r) && Enabled(settings, s, l) && Solo(l, w)
    ensures SoloInv(settings, Step(settings, s, l), w, r)
  {
    match l
    case Scan(_) => ScanKeepsSolo(settings, s, w, r);
    case Send(_) => assert PhaseInv(settings, s.rows, s.handed, s.workers[w]);
    case SettleBatch(_, errors, draws) => SettleKeepsSolo(settings, s, w, r, errors, draws);
    case BeginCycle(_, now) => BeginKeepsSolo(settings, s, w, r, now);
    case _ =>
  }

  /** A committed cycle that leaves r behind although r was pending and due. */
  ghost predicate PassesOver(s: State, l: Label, r: nat) {
    l.SettleBatch? && r in s.rows && PhaseOf(s, l.w).Sending?
    && s.rows[r].status == Pending && s.rows[r].availableAt <= PhaseOf(s, l.w).now && !Holds(PhaseOf(s, l.w).held, r)
  }

  ghost function TimesPassedOver(ss: seq<State>, ls: seq<Label>, m: nat, n: nat, r: nat): nat
    requires m <= n <= |ls| && |ls| < |ss|
  {
    if m == n then 0
    else TimesPassedOver(ss, ls, m, n - 1, r) + (if PassesOver(ss[n - 1], ls[n - 1], r) then 1 else 0)
  }

  lemma PassSpends(settings: Settings, s: State, l: Label, w: nat, r: nat)
    requires Inv(settings, s) && SoloInv(settings, s, w, r) && Enabled(settings, s, l) && Solo(l, w)
    requires l.Insert? ==> r <= l.id
    ensures Budget(settings, Step(settings, s, l).rows, r) + (if PassesOver(s, l, r) then settings.batchSize else 0)
         <= Budget(settings, s.rows, r)
  {
    StepSpends(settings, s, l, r);
    if PassesOver(s, l, r) {
      AllBelow(s.workers[w].held, r);
    }
  }

  lemma SoloStep(settings: Settings, ss: seq<State>, ls: seq<Label>, i: nat, w: nat, r: nat)
    requires IsRun(settings, ss, ls) && i < |ls| && Solo(ls[i], w) && SoloInv(settings, ss[i], w, r)
    ensures SoloInv(settings, ss[i + 1], w, r)
  {
    RunKeepsInv(settings, ss, ls, i);
    StepKeepsSolo(settings, ss[i], ls[i], w, r);
  }

  lemma {:induction false} SoloThroughout(
    settings: Settings, ss: seq<State>, ls: seq<Label>, m: nat, n: nat, w: nat, r: nat)
    requires IsRun(settings, ss, ls) && m <= n < |ss|
    requires forall i :: m <= i < n ==> Solo(ls[i], w)
    requires SoloInv(settings, ss[m], w, r)
    ensures SoloInv(settings, ss[n], w, r)
    decreases n - m
  {
    if m < n {
      SoloStep(settings, ss, ls, m, w, r);
      SoloThroughout(settings, ss, ls, m + 1, n, w, r);
    }
  }

  lemma RunPassSpends(settings: Settings, ss: seq<State>, ls: seq<Label>, m: nat, n: nat, w: nat, r: nat)
    requires IsRun(settings, ss, ls) && m <= n < |ls|
    requires forall i :: m <= i <= n ==> Solo(ls[i], w) && (ls[i].Insert? ==> r <= ls[i].id)
    requires SoloInv(settings, ss[m], w, r)
    ensures Budget(settings, ss[n + 1].rows, r) + (if PassesOver(ss[n], ls[n], r) then settings.batchSize else 0)
         <= Budget(settings, ss[n].rows, r)
  {
    RunKeepsInv(settings, ss, ls, n);
    SoloThroughout(settings, ss, ls, m, n, w, r);
    PassSpends(settings, ss[n], ls[n], w, r);
  }

  ghost function SpentOnPasses(settings: Settings, ss: seq<State>, ls: seq<Label>, m: nat, n: nat, r: nat): nat
    requires m <= n <= |ls| && |ls| < |ss|
  {
    if m == n then 0
    else
      SpentOnPasses(settings, ss, ls, m, n - 1, r)
      + (if PassesOver(ss[n - 1], ls[n - 1], r) then settings.batchSize else 0)
  }

  lemma {:induction false} SpentIsTimes(
    settings: Settings, ss: seq<State>, ls: seq<Label>, m: nat, n: nat, r: nat)
    requires m <= n <= |ls| && |ls| < |ss|
    ensures SpentOnPasses(settings, ss, ls, m, n, r) == TimesPassedOver(ss, ls, m, n, r) * settings.batchSize
  {
    if m < n {
      SpentIsTimes(settings, ss, ls, m, n - 1, r);
      OneMore(TimesPassedOver(ss, ls, m, n - 1, r), settings.batchSize);
    }
  }

  ghost predicate PaysForPass(settings: Settings, s: State, l: Label, s': State, r: nat) {
    Budget(settings, s'.rows, r) + (if PassesOver(s, l, r) then settings.batchSize else 0) <= Budget(settings, s.rows, r)
  }

  lemma {:induction false} PaymentsAddUp(settings: Settings, ss: seq<State>, ls: seq<Label>, m: nat, n: nat, r: nat)
    requires m <= n <= |ls| && |ls| < |ss|
    requires forall i :: m <= i < n ==> PaysForPass(settings, ss[i], ls[i], ss[i + 1], r)
    ensures SpentOnPasses(settings, ss, ls, m, n, r) + Budget(settings, ss[n].rows, r)
         <= Budget(settings, ss[m].rows, r)
  {
    if m < n {
      PaymentsAddUp(settings, ss, ls, m, n - 1, r);
      assert PaysForPass(settings, ss[n - 1], ls[n - 1], ss[n - 1 + 1], r);
    }
  }

  lemma PassesSpend(settings: Settings, ss: seq<State>, ls: seq<Label>, m: nat, n: nat, w: nat, r: nat)
    requires IsRun(settings, ss, ls) && m <= n < |ss|
    requires forall i :: m <= i < n ==> Solo(ls[i], w) && (ls[i].Insert? ==> r <= ls[i].id)
    requires SoloInv(settings, ss[m], w, r)
    ensures SpentOnPasses(settings, ss, ls, m, n, r) + Budget(settings, ss[n].rows, r)
         <= Budget(settings, ss[m].rows, r)
  {
    forall i | m <= i < n
      ensures PaysForPass(settings, ss[i], ls[i], ss[i + 1], r)
    {
      RunPassSpends(settings, ss, ls, m, i, w, r);
    }
    PaymentsAddUp(settings, ss, ls, m, n, r);
  }

  lemma OneMore(times: nat, size: nat)
    ensures (times + 1) * size == times * size + size
  {
  }

  /** A due row is passed over in at most floor(budget of the smaller pending rows / batch size) committed cycles. */
  lemma NoStarvation(settings: Settings, ss: seq<State>, ls: seq<Label>, m: nat, n: nat, w: nat, r: nat)
    requires IsRun(settings, ss, ls) && m <= n < |ss| && settings.batchSize >= 1
    requires r in ss[m].rows && forall v :: v in ss[m].workers ==> ss[m].workers[v].Idle?
    requires forall i :: m <= i < n ==> Solo(ls[i], w) && (ls[i].Insert? ==> r <= ls[i].id)
    ensures TimesPassedOver(ss, ls, m, n, r) <= Budget(settings, ss[m].rows, r) / settings.batchSize
  {
    PassesSpend(settings, ss, ls, m, n, w, r);
    SpentIsTimes(settings, ss, ls, m, n, r);
    AtMostQuotient(TimesPassedOver(ss, ls, m, n, r), settings.batchSize, Budget(settings, ss[m].rows, r));
  }

  lemma LessByProduct(a: nat, b: nat, k: nat)
    requires a * k < b * k
    ensures a < b
  {
    assert (b - a) * k == b * k - a * k;
  }

  lemma AtMostQuotient(times: nat, size: nat, total: nat)
    requires size >= 1 && times * size <= total
    ensures times <= total / size
  {
    OneMore(total / size, size);
    LessByProduct(times, total / size + 1, size);
  }

  /* ---- what is counted ---- */

  /** In a reachable state the budget of a row is what is left of max(1, max_attempts) while it is pending, else nothing. */
  lemma WeightIs(settings: Settings, s: State, id: nat)
    requires Inv(settings, s) && id in s.rows
    ensures
      var row, limit := s.rows[id], if settings.maxAttempts > 1 then settings.maxAttempts else 1;
      Weight(settings, row) == if row.status == Pending then limit - row.attempts else 0
  {
    assert RowInv(settings, s.settled, id, s.rows[id]);
  }

  /** The budget below a bound is nothing for no rows, and a new row below it adds its weight. */
  lemma BudgetAdds(settings: Settings, rows: map<nat, Row>, id: nat, row: Row, bound: nat)
    requires id !in rows
    ensures Budget(settings, map[], bound) == 0
    ensures Budget(settings, rows[id := row], bound)
         == Budget(settings, rows, bound) + if id < bound then Weight(settings, row) else 0
  {
    assert Weights(settings, map[], bound) == map[];
    var before, after := Weights(settings, rows, bound), Weights(settings, rows[id := row], bound);
    if id < bound {
      assert after == before[id := Weight(settings, row)];
      SumUpdate(before, id, Weight(settings, row));
    } else {
      assert after == before;
    }
  }

  /** Every batch settled is one more cycle, and a pending due row it does not hold has been passed over once more. */
  lemma CountsGrow(settings: Settings, ss: seq<State>, ls: seq<Label>, m: nat, n: nat, r: nat)
    requires m <= n < |ls| < |ss| && Enabled(settings, ss[n], ls[n])
    ensures CommittedCycles(ls, m, n + 1) == CommittedCycles(ls, m, n) + if ls[n].SettleBatch? then 1 else 0
    ensures TimesPassedOver(ss, ls, m, n + 1, r) >= TimesPassedOver(ss, ls, m, n, r)
    ensures ls[n].SettleBatch? && r in ss[n].rows ==>
              var phase := ss[n].workers[ls[n].w];
              ss[n].rows[r].status == Pending && ss[n].rows[r].availableAt <= phase.now && !Holds(phase.held, r) ==>
              TimesPassedOver(ss, ls, m, n + 1, r) == TimesPassedOver(ss, ls, m, n, r) + 1
  {
  }
}
