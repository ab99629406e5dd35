/** The theorems about the parts, for runs of the whole pipeline. */
module PipelineTheorems {
  import opened Prelude
  import opened Orders
  import opened Publisher
  import opened Consumer
  import opened Projection
  import opened Pipeline
  import Drain = PublisherDrain

  /* ---- calls of the API ---- */

  /** The committed database is the sequential specification over the commits of the pipeline's own run, in their order. */
  lemma Serializable(settings: Settings, config: Config, ss: seq<State>, ls: seq<Label>, n: nat)
    requires IsRun(settings, config, ss, ls) && n <= |ls|
    ensures
      var (os, ol) := ApiRun(ss, ls, n);
      && O.IsRun(os, ol)
      && Committed(ss[n]) == Replay(OrderTheorems.CommitOrder(os, ol, |ol|))
      && LegalLog(OrderTheorems.CommitOrder(os, ol, |ol|))
  {
    PartsAreRuns(settings, config, ss, ls, n, n);
    var (os, ol) := ApiRun(ss, ls, n);
    OrderTheorems.Serializable(os, ol, |ol|);
  }

  /** A label of the API in the whole, found in the API's own run. */
  lemma ApiStepAt(settings: Settings, config: Config, ss: seq<State>, ls: seq<Label>, begin: nat, end: nat)
    requires IsRun(settings, config, ss, ls) && begin < end < |ss| && ApiLabel(ls[begin]).Some?
    ensures Index(ApiSteps(ls), begin) < Index(ApiSteps(ls), end) == |ApiRun(ss, ls, end).1|
    ensures ApiRun(ss, ls, end).1[Index(ApiSteps(ls), begin)] == ApiLabel(ls[begin]).value
  {
    KeptAt(ApiSteps(ls), begin, end);
  }

  /** A call that began at one step of the pipeline and has returned by another returned what the specification gives
      on the committed database at some moment between them. */
  lemma Linearizable(settings: Settings, config: Config, ss: seq<State>, ls: seq<Label>, c: nat, begin: nat, end: nat)
    returns (k: nat)
    requires IsRun(settings, config, ss, ls) && begin < end < |ss|
    requires ls[begin].Api? && ls[begin].api.Begin? && ls[begin].api.c == c
    requires c in ss[end].api.calls && ss[end].api.calls[c].phase.Returned?
    ensures begin < k <= end
    ensures Spec(Committed(ss[k]), ls[begin].api.request, ls[begin].api.stamp) == ss[end].api.calls[c].phase.outcome
  {
    PartsAreRuns(settings, config, ss, ls, begin, end);
    ApiStepAt(settings, config, ss, ls, begin, end);
    var a, b := Index(ApiSteps(ls), begin), Index(ApiSteps(ls), end);
    var at := OrderTheorems.Linearizable(ApiRun(ss, ls, end).0, ApiRun(ss, ls, end).1, c, a, b);
    PartsFollow(settings, config, ss, ls);
    k := Moment(ApiStates(ss), ApiSteps(ls), begin, end, at);
  }

  /** A step of the pipeline that rejects a call finds it holding its key, no order under it committed up to then and no
      twin holding it. */
  lemma RejectedOnlyByItself(settings: Settings, config: Config, ss: seq<State>, ls: seq<Label>, i: nat, c: nat)
    requires IsRun(settings, config, ss, ls) && i < |ls|
    requires c in ss[i].api.calls && !ss[i].api.calls[c].phase.Returned?
    requires c in ss[i + 1].api.calls && ss[i + 1].api.calls[c].phase.Returned?
    requires OrderTheorems.Rejection(ss[i + 1].api.calls[c].phase.outcome)
    ensures O.Reserves(ss[i].api.calls[c])
    ensures forall m :: 0 <= m <= i ==> O.FindOwn(Committed(ss[m]), ss[i].api.calls[c]).None?
    ensures forall d :: d in ss[i].api.calls && d != c && O.SameKey(ss[i].api.calls[c], ss[i].api.calls[d])
                        ==> !O.Reserves(ss[i].api.calls[d])
  {
    var (os, ol) := ApiRun(ss, ls, i + 1);
    StepsOfParts(settings, config, ss[i], ls[i]);
    PartsAreRuns(settings, config, ss, ls, i, i + 1);
    PartsFollow(settings, config, ss, ls);
    ApiStepAt(settings, config, ss, ls, i, i + 1);
    var j := Index(ApiSteps(ls), i);
    OrderTheorems.RejectedOnlyByItself(os, ol, j, c);
    forall m | 0 <= m <= i
      ensures O.FindOwn(Committed(ss[m]), ss[i].api.calls[c]).None?
    {
      VisitedAt(ApiStates(ss), ApiSteps(ls), m, i + 1);
      VisitedAt(ApiStates(ss), ApiSteps(ls), m, i);
    }
  }

  /* ---- rows of the outbox ---- */

  /** Over any stretch of a pipeline run a row keeps its message, a settled row never changes, and nothing goes back. */
  lemma RowsMoveForward(settings: Settings, config: Config, ss: seq<State>, ls: seq<Label>, m: nat, n: nat, id: nat)
    requires IsRun(settings, config, ss, ls) && m <= n < |ss| && id in ss[m].outbox.rows
    requires 0.0 <= settings.base && 0.0 <= settings.cap
    ensures id in ss[n].outbox.rows && P.RowMovesForward(ss[m].outbox.rows[id], ss[n].outbox.rows[id])
  {
    PartsAreRuns(settings, config, ss, ls, m, n);
    var (ps, pl) := OutboxRun(ss, ls, n);
    P.RowsMoveForward(settings, ps, pl, Index(OutboxSteps(ss, ls), m), Index(OutboxSteps(ss, ls), n), id);
  }

  /** Steps of the publishers between m and n come from steps of the whole between m and n. */
  lemma OutboxOrigin(settings: Settings, config: Config, ss: seq<State>, ls: seq<Label>, m: nat, n: nat, j: nat)
    returns (i: nat)
    requires IsRun(settings, config, ss, ls) && m <= n < |ss|
    requires Index(OutboxSteps(ss, ls), m) <= j < Index(OutboxSteps(ss, ls), n)
    ensures m <= i < n && OutboxLabel(ss[i], ls[i]) == Some(OutboxRun(ss, ls, n).1[j])
  {
    PartsFollow(settings, config, ss, ls);
    i := Origin(OutboxStates(ss), OutboxSteps(ss, ls), m, n, j);
  }

  /** While no order commits, the cycles that settle anything are at most as many as the retry budget of the table. */
  lemma FinitelyManyCycles(settings: Settings, config: Config, ss: seq<State>, ls: seq<Label>, m: nat, n: nat, bound: nat)
    requires IsRun(settings, config, ss, ls) && m <= n < |ss| && Drain.RowsBelow(ss[m].outbox.rows, bound)
    requires forall i :: m <= i < n ==> !ls[i].CommitOrder?
    ensures
      var a, b := Index(OutboxSteps(ss, ls), m), Index(OutboxSteps(ss, ls), n);
      && a <= b == |OutboxRun(ss, ls, n).1|
      && Drain.CommittedCycles(OutboxRun(ss, ls, n).1, a, b) <= Drain.Budget(settings, ss[m].outbox.rows, bound)
  {
    PartsAreRuns(settings, config, ss, ls, m, n);
    var (ps, pl) := OutboxRun(ss, ls, n);
    var a, b := Index(OutboxSteps(ss, ls), m), Index(OutboxSteps(ss, ls), n);
    forall j | a <= j < b
      ensures !pl[j].Insert?
    {
      var i := OutboxOrigin(settings, config, ss, ls, m, n, j);
      assert Enabled(settings, ss[i], ls[i]);
    }
    Drain.FinitelyManyCycles(settings, ps, pl, a, b, bound);
  }

  /** With one publisher at work in the pipeline a due row is passed over in at most floor(budget of the smaller pending
      rows / batch size) committed cycles. */
  lemma NoStarvation(
    settings: Settings, config: Config, ss: seq<State>, ls: seq<Label>, m: nat, n: nat, w: nat, r: nat)
    requires IsRun(settings, config, ss, ls) && m <= n < |ss| && settings.batchSize >= 1
    requires r in ss[m].outbox.rows && forall v :: v in ss[m].outbox.workers ==> ss[m].outbox.workers[v].Idle?
    requires forall i :: m <= i < n && ls[i].Outbox? ==> Drain.Solo(ls[i].outbox, w)
    requires forall i :: m <= i < n && ls[i].CommitOrder? ==> r <= ls[i].rowId
    ensures
      var a, b := Index(OutboxSteps(ss, ls), m), Index(OutboxSteps(ss, ls), n);
      && a <= b == |OutboxRun(ss, ls, n).1| == |OutboxRun(ss, ls, n).0| - 1
      && Drain.TimesPassedOver(OutboxRun(ss, ls, n).0, OutboxRun(ss, ls, n).1, a, b, r)
         <= Drain.Budget(settings, ss[m].outbox.rows, r) / settings.batchSize
  {
    PartsAreRuns(settings, config, ss, ls, m, n);
    var (ps, pl) := OutboxRun(ss, ls, n);
    var a, b := Index(OutboxSteps(ss, ls), m), Index(OutboxSteps(ss, ls), n);
    forall j | a <= j < b
      ensures Drain.Solo(pl[j], w) && (pl[j].Insert? ==> r <= pl[j].id)
    {
      var i := OutboxOrigin(settings, config, ss, ls, m, n, j);
      assert Enabled(settings, ss[i], ls[i]);
    }
    Drain.NoStarvation(settings, ps, pl, a, b, w, r);
  }

  /* ---- the consumers ---- */

  /** Over any stretch of a pipeline run no record, notification or dead letter changes or disappears. */
  lemma NothingLost(settings: Settings, config: Config, ss: seq<State>, ls: seq<Label>, m: nat, n: nat)
    requires IsRun(settings, config, ss, ls) && m <= n < |ss|
    ensures C.Longer(ss[m].reader.topic, ss[n].reader.topic) && Grows(ss[m].reader.store, ss[n].reader.store)
  {
    PartsAreRuns(settings, config, ss, ls, m, n);
    var (cs, cl) := ReaderRun(ss, ls, n);
    C.NothingLost(config, cs, cl, Index(ReaderSteps(ls), m), Index(ReaderSteps(ls), n));
  }

  /** An order once notified stays notified, with the same notification. */
  lemma NotifiedForGood(settings: Settings, config: Config, ss: seq<State>, ls: seq<Label>, m: nat, n: nat, e: nat)
    requires IsRun(settings, config, ss, ls) && m <= n < |ss|
    requires e in ss[m].reader.store.notifications
    ensures e in ss[n].reader.store.notifications
    ensures ss[n].reader.store.notifications[e] == ss[m].reader.store.notifications[e]
  {
    NothingLost(settings, config, ss, ls, m, n);
  }
}
