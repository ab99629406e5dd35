/**
 * Any number of outbox workers on one table: claim with SKIP LOCKED, send, settle and commit, one small step
 * at a time, with a crash or a roll-back possible between any two of them.
 */
module PublisherMachine {
  import opened Prelude
  import opened Models
  import opened Events
  import opened Backoff
  import opened Publisher

  /** A locked row and the columns the worker read when it locked it. */
  datatype Claim = Claim(id: nat, row: Row)

  datatype Phase =
    | Idle
    | Scanning(now: real, todo: seq<nat>, held: seq<Claim>) // locking the rows of the claim query, in id order
    | Sending(now: real, held: seq<Claim>)                  // sends under way or timed out, not settled

  datatype Settlement = Settlement(id: nat, failed: bool)

  /** The topic: append-only partitions. */
  type Topic = seq<seq<Envelope>>

  /**
   * handed holds every message ever given to the producer: it may reach the topic now, later, more than once or never.
   * settled is a history of committed settlements; no step reads it.
   */
  datatype State = State(
    rows: map<nat, Row>,
    workers: map<nat, Phase>,
    handed: set<OutboxMessage>,
    topic: Topic,
    settled: seq<Settlement>
  )

  datatype Label =
    | Insert(id: nat, message: OutboxMessage, availableAt: real)
    | BeginCycle(w: nat, now: real)
    | Scan(w: nat)
    | Send(w: nat)
    | Deliver(message: OutboxMessage, partition: nat)
    | SettleBatch(w: nat, errors: seq<Option<string>>, draws: seq<real>)
    | Abort(w: nat)

  ghost function PhaseOf(s: State, w: nat): Phase {
    if w in s.workers then s.workers[w] else Idle
  }

  ghost function HeldBy(phase: Phase): seq<Claim> {
    if phase.Idle? then [] else phase.held
  }

  ghost predicate Holds(held: seq<Claim>, id: nat) {
    exists i :: 0 <= i < |held| && held[i].id == id
  }

  ghost predicate LockedByOther(s: State, w: nat, id: nat) {
    exists v :: v in s.workers && v != w && Holds(HeldBy(s.workers[v]), id)
  }

  ghost predicate OnTopic(topic: Topic, envelope: Envelope) {
    exists p, o :: 0 <= p < |topic| && 0 <= o < |topic[p]| && topic[p][o] == envelope
  }

  /** A send only reports success once the broker has the record. */
  ghost predicate Acknowledged(topic: Topic, held: seq<Claim>, errors: seq<Option<string>>)
    requires |errors| == |held|
  {
    forall i :: 0 <= i < |held| && errors[i].None? ==> OnTopic(topic, BuildEnvelope(held[i].row.message))
  }

  ghost predicate Enabled(settings: Settings, s: State, l: Label) {
    match l
    case Insert(id, _, _) => id !in s.rows
    case BeginCycle(w, _) => PhaseOf(s, w).Idle?
    case Scan(w) =>
      var phase := PhaseOf(s, w);
      phase.Scanning? && phase.todo != [] && |phase.held| < settings.batchSize
    case Send(w) =>
      var phase := PhaseOf(s, w);
      phase.Scanning? && (phase.todo == [] || |phase.held| == settings.batchSize)
    case Deliver(message, partition) => message in s.handed && partition < |s.topic|
    case SettleBatch(w, errors, draws) =>
      var phase := PhaseOf(s, w);
      && phase.Sending? && |errors| == |draws| == |phase.held|
      && (forall i :: 0 <= i < |draws| ==> 0.0 <= draws[i] <= 1.0)
      && (forall i :: 0 <= i < |errors| ==> !SettleRaises(settings, phase.held[i].row, errors[i]))
      && Acknowledged(s.topic, phase.held, errors)
    case Abort(w) => !PhaseOf(s, w).Idle?
  }

  ghost function EligibleIds(rows: map<nat, Row>, now: real): set<nat> {
    set id | id in rows && Eligible(rows[id], now)
  }

  /** SKIP LOCKED: a row locked elsewhere is passed over, and the WHERE clause is checked again on the locked version. */
  ghost function AfterScan(s: State, w: nat): Phase
    requires PhaseOf(s, w).Scanning? && PhaseOf(s, w).todo != []
  {
    var phase := PhaseOf(s, w);
    var id := phase.todo[0];
    if id in s.rows && Eligible(s.rows[id], phase.now) && !LockedByOther(s, w, id) then
      Scanning(phase.now, phase.todo[1..], phase.held + [Claim(id, s.rows[id])])
    else Scanning(phase.now, phase.todo[1..], phase.held)
  }

  ghost function MessagesOf(held: seq<Claim>): set<OutboxMessage> {
    set i | 0 <= i < |held| :: held[i].row.message
  }

  /** The rows a settled batch writes, computed from the columns the worker holds. */
  ghost function WriteBack(
    settings: Settings, rows: map<nat, Row>, held: seq<Claim>, now: real,
    errors: seq<Option<string>>, draws: seq<real>): map<nat, Row>
    requires |errors| == |draws| == |held|
  {
    if held == [] then rows
    else
      var n := |held| - 1;
      WriteBack(settings, rows, held[..n], now, errors[..n], draws[..n])
        [held[n].id := SettleRow(settings, held[n].row, errors[n], now, draws[n])]
  }

  ghost function Settlements(held: seq<Claim>, errors: seq<Option<string>>): seq<Settlement>
    requires |errors| == |held|
  {
    seq(|held|, i requires 0 <= i < |held| => Settlement(held[i].id, errors[i].Some?))
  }

  ghost function Step(settings: Settings, s: State, l: Label): State
    requires Enabled(settings, s, l)
  {
    match l
    case Insert(id, message, availableAt) => s.(rows := s.rows[id := FreshRow(message, availableAt)])
    case BeginCycle(w, now) =>
      s.(workers := s.workers[w := Scanning(now, Ascending(EligibleIds(s.rows, now)), [])])
    case Scan(w) => s.(workers := s.workers[w := AfterScan(s, w)])
    case Send(w) =>
      var phase := s.workers[w];
      if phase.held == [] then s.(workers := s.workers[w := Idle])
      else
        s.(workers := s.workers[w := Sending(phase.now, phase.held)], handed := s.handed + MessagesOf(phase.held))
    case Deliver(message, p) => s.(topic := s.topic[p := s.topic[p] + [BuildEnvelope(message)]])
    case SettleBatch(w, errors, draws) =>
      var phase := s.workers[w];
      s.(rows := WriteBack(settings, s.rows, phase.held, phase.now, errors, draws),
         workers := s.workers[w := Idle],
         settled := s.settled + Settlements(phase.held, errors))
    case Abort(w) => s.(workers := s.workers[w := Idle])
  }

  ghost predicate IsStart(s: State) {
    s.rows == map[] && s.workers == map[] && s.handed == {} && s.settled == []
    && forall p :: 0 <= p < |s.topic| ==> s.topic[p] == []
  }

  ghost predicate IsRun(settings: Settings, ss: seq<State>, ls: seq<Label>) {
    && |ss| == |ls| + 1
    && IsStart(ss[0])
    && forall i :: 0 <= i < |ls| ==> Enabled(settings, ss[i], ls[i]) && ss[i + 1] == Step(settings, ss[i], ls[i])
  }

  /* ---- the invariant ---- */

  function Failures(settled: seq<Settlement>, id: nat): nat {
    if settled == [] then 0
    else
      var last := settled[|settled| - 1];
      Failures(settled[..|settled| - 1], id) + (if last.id == id && last.failed then 1 else 0)
  }

  /** attempts counts the committed failed settlements, each status carries exactly its own timestamp, and
      last_error is there exactly while the latest settlement was a failure. */
  ghost predicate RowInv(settings: Settings, settled: seq<Settlement>, id: nat, row: Row) {
    && row.attempts == Failures(settled, id)
    && (row.status.Pending? || row.status.Published? ==> row.attempts < AttemptLimit(settings))
    && (row.status.Failed? ==> row.attempts == AttemptLimit(settings))
    && (row.publishedAt.Some? <==> row.status.Published?)
    && (row.failedAt.Some? <==> row.status.Failed?)
    && (row.lastError.Some? <==> row.attempts > 0 && !row.status.Published?)
  }

  ghost predicate IdsAscend(held: seq<Claim>) {
    forall i, j :: 0 <= i < j < |held| ==> held[i].id < held[j].id
  }

  /** The columns in hand are the committed columns, and the row is still one the query wants. */
  ghost predicate HeldInv(settings: Settings, rows: map<nat, Row>, now: real, held: seq<Claim>) {
    && IdsAscend(held)
    && |held| <= settings.batchSize
    && (forall i :: 0 <= i < |held| ==>
                      held[i].id in rows && rows[held[i].id] == held[i].row && Eligible(held[i].row, now))
  }

  ghost predicate PhaseInv(settings: Settings, rows: map<nat, Row>, handed: set<OutboxMessage>, phase: Phase) {
    match phase
    case Idle => true
    case Scanning(now, todo, held) =>
      && HeldInv(settings, rows, now, held)
      && Ascends(todo)
      && (forall i, id :: 0 <= i < |held| && id in todo ==> held[i].id < id)
    case Sending(now, held) =>
      && HeldInv(settings, rows, now, held)
      && held != []
      && MessagesOf(held) <= handed
  }

  ghost predicate Disjoint(a: Phase, b: Phase) {
    forall id :: !(Holds(HeldBy(a), id) && Holds(HeldBy(b), id))
  }

  ghost predicate MessageOfRow(rows: map<nat, Row>, message: OutboxMessage) {
    exists id :: id in rows && rows[id].message == message
  }

  ghost predicate FromHanded(handed: set<OutboxMessage>, envelope: Envelope) {
    exists message :: message in handed && BuildEnvelope(message) == envelope
  }

  /** Every record on the topic is the envelope of a message that was handed over, and those come from rows. */
  ghost predicate TopicInv(s: State) {
    && (forall message :: message in s.handed ==> MessageOfRow(s.rows, message))
    && (forall p, o :: 0 <= p < |s.topic| && 0 <= o < |s.topic[p]| ==>
                         FromHanded(s.handed, s.topic[p][o]))
  }

  ghost predicate PublishedInv(s: State) {
    forall id :: id in s.rows && s.rows[id].status.Published? ==> OnTopic(s.topic, BuildEnvelope(s.rows[id].message))
  }

  ghost predicate TableInv(settings: Settings, s: State) {
    && (forall id :: id in s.rows ==> RowInv(settings, s.settled, id, s.rows[id]))
    && (forall i :: 0 <= i < |s.settled| ==> s.settled[i].id in s.rows)
  }

  ghost predicate WorkersInv(settings: Settings, s: State) {
    && (forall w :: w in s.workers ==> PhaseInv(settings, s.rows, s.handed, s.workers[w]))
    && (forall v, w :: v in s.workers && w in s.workers && v != w ==> Disjoint(s.workers[v], s.workers[w]))
  }

  ghost predicate Inv(settings: Settings, s: State) {
    TableInv(settings, s) && WorkersInv(settings, s) && TopicInv(s) && PublishedInv(s)
  }

  /* ---- claiming and sending ---- */

  lemma {:induction false} NoFailuresYet(settled: seq<Settlement>, id: nat)
    requires forall i :: 0 <= i < |settled| ==> settled[i].id != id
    ensures Failures(settled, id) == 0
  {
    if settled != [] {
      NoFailuresYet(settled[..|settled| - 1], id);
    }
  }

  lemma MessagesStay(rows: map<nat, Row>, rows': map<nat, Row>, handed: set<OutboxMessage>)
    requires forall id :: id in rows ==> id in rows' && rows'[id].message == rows[id].message
    requires forall message :: message in handed ==> MessageOfRow(rows, message)
    ensures forall message :: message in handed ==> MessageOfRow(rows', message)
  {
    forall message | message in handed
      ensures MessageOfRow(rows', message)
    {
      var id :| id in rows && rows[id].message == message;
      assert id in rows' && rows'[id].message == message;
    }
  }

  lemma InsertKeeps(settings: Settings, s: State, id: nat, message: OutboxMessage, availableAt: real)
    requires Inv(settings, s) && id !in s.rows
    ensures Inv(settings, s.(rows := s.rows[id := FreshRow(message, availableAt)]))
  {
    NoFailuresYet(s.settled, id);
    MessagesStay(s.rows, s.rows[id := FreshRow(message, availableAt)], s.handed);
  }

  lemma MoveWorker(settings: Settings, s: State, w: nat, phase: Phase)
    requires WorkersInv(settings, s) && PhaseInv(settings, s.rows, s.handed, phase)
    requires forall v :: v in s.workers && v != w ==> Disjoint(phase, s.workers[v])
    ensures WorkersInv(settings, s.(workers := s.workers[w := phase]))
  {
  }

  lemma BeginKeeps(settings: Settings, s: State, w: nat, now: real)
    requires Inv(settings, s)
    ensures Inv(settings, s.(workers := s.workers[w := Scanning(now, Ascending(EligibleIds(s.rows, now)), [])]))
  {
    MoveWorker(settings, s, w, Scanning(now, Ascending(EligibleIds(s.rows, now)), []));
  }

  lemma HoldsNext(held: seq<Claim>, claim: Claim, id: nat)
    ensures Holds(held + [claim], id) <==> Holds(held, id) || claim.id == id
  {
    if Holds(held, id) {
      var i :| 0 <= i < |held| && held[i].id == id;
      assert (held + [claim])[i].id == id;
    }
    assert (held + [claim])[|held|].id == claim.id;
  }

  lemma ScannedPhaseHolds(settings: Settings, s: State, w: nat)
    requires WorkersInv(settings, s) && Enabled(settings, s, Scan(w))
    ensures PhaseInv(settings, s.rows, s.handed, AfterScan(s, w))
  {
    var phase := s.workers[w];
    TailAscends(phase.todo);
    assert phase.todo[0] in phase.todo;
    var after := AfterScan(s, w);
    assert IdsAscend(after.held);
    forall i, id | 0 <= i < |after.held| && id in after.todo
      ensures after.held[i].id < id
    {
      assert id in phase.todo && phase.todo[0] < id;
    }
  }

  lemma ScanKeeps(settings: Settings, s: State, w: nat)
    requires Inv(settings, s) && Enabled(settings, s, Scan(w))
    ensures Inv(settings, s.(workers := s.workers[w := AfterScan(s, w)]))
  {
    var phase := s.workers[w];
    ScannedPhaseHolds(settings, s, w);
    forall v | v in s.workers && v != w
      ensures Disjoint(AfterScan(s, w), s.workers[v])
    {
      assert Disjoint(phase, s.workers[v]);
      var id := phase.todo[0];
      if id in s.rows {
        forall other
          ensures Holds(phase.held + [Claim(id, s.rows[id])], other) <==> Holds(phase.held, other) || id == other
        {
          HoldsNext(phase.held, Claim(id, s.rows[id]), other);
        }
      }
    }
    MoveWorker(settings, s, w, AfterScan(s, w));
  }

  lemma GrowHanded(settings: Settings, s: State, handed: set<OutboxMessage>)
    requires WorkersInv(settings, s) && s.handed <= handed
    ensures WorkersInv(settings, s.(handed := handed))
  {
  }

  lemma SendKeeps(settings: Settings, s: State, w: nat)
    requires Inv(settings, s) && Enabled(settings, s, Send(w))
    ensures Inv(settings, Step(settings, s, Send(w)))
  {
    var phase := s.workers[w];
    if phase.held == [] {
      MoveWorker(settings, s, w, Idle);
    } else {
      var handed := s.handed + MessagesOf(phase.held);
      forall message | message in MessagesOf(phase.held)
        ensures MessageOfRow(s.rows, message)
      {
        var i :| 0 <= i < |phase.held| && phase.held[i].row.message == message;
        assert s.rows[phase.held[i].id] == phase.held[i].row;
      }
      GrowHanded(settings, s, handed);
      forall v | v in s.workers && v != w
        ensures Disjoint(Sending(phase.now, phase.held), s.workers[v])
      {
        assert Disjoint(phase, s.workers[v]);
      }
      MoveWorker(settings, s.(handed := handed), w, Sending(phase.now, phase.held));
    }
  }

  lemma DeliveredStays(topic: Topic, p: nat, record: Envelope, envelope: Envelope)
    requires p < |topic|
    ensures OnTopic(topic, envelope) ==> OnTopic(topic[p := topic[p] + [record]], envelope)
  {
    var longer := topic[p := topic[p] + [record]];
    if OnTopic(topic, envelope) {
      var q, o :| 0 <= q < |topic| && 0 <= o < |topic[q]| && topic[q][o] == envelope;
      assert longer[q][o] == envelope;
    }
  }

  lemma DeliverKeeps(settings: Settings, s: State, message: OutboxMessage, p: nat)
    requires Inv(settings, s) && message in s.handed && p < |s.topic|
    ensures Inv(settings, s.(topic := s.topic[p := s.topic[p] + [BuildEnvelope(message)]]))
  {
    var s' := s.(topic := s.topic[p := s.topic[p] + [BuildEnvelope(message)]]);
    forall q, o | 0 <= q < |s'.topic| && 0 <= o < |s'.topic[q]|
      ensures FromHanded(s'.handed, s'.topic[q][o])
    {
      if q != p || o < |s.topic[p]| {
        assert s'.topic[q][o] == s.topic[q][o];
      }
    }
    forall id | id in s.rows && s.rows[id].status.Published?
      ensures OnTopic(s'.topic, BuildEnvelope(s.rows[id].message))
    {
      DeliveredStays(s.topic, p, BuildEnvelope(message), BuildEnvelope(s.rows[id].message));
    }
  }

  /* ---- settling ---- */

  lemma {:induction false} WriteBackElsewhere(
    settings: Settings, rows: map<nat, Row>, held: seq<Claim>, now: real,
    errors: seq<Option<string>>, draws: seq<real>, id: nat)
    requires |errors| == |draws| == |held| && !Holds(held, id)
    ensures
      var written := WriteBack(settings, rows, held, now, errors, draws);
      (id in written <==> id in rows) && (id in rows ==> written[id] == rows[id])
  {
    if held != [] {
      var n := |held| - 1;
      assert held[n].id != id;
      assert forall i :: 0 <= i < n ==> held[..n][i] == held[i];
      WriteBackElsewhere(settings, rows, held[..n], now, errors[..n], draws[..n], id);
    }
  }

  lemma {:induction false} WriteBackAt(
    settings: Settings, rows: map<nat, Row>, held: seq<Claim>, now: real,
    errors: seq<Option<string>>, draws: seq<real>, i: nat)
    requires |errors| == |draws| == |held| && IdsAscend(held) && i < |held|
    ensures
      var written := WriteBack(settings, rows, held, now, errors, draws);
      held[i].id in written && written[held[i].id] == SettleRow(settings, held[i].row, errors[i], now, draws[i])
  {
    var n := |held| - 1;
    if i < n {
      assert held[i].id < held[n].id;
      WriteBackAt(settings, rows, held[..n], now, errors[..n], draws[..n], i);
    }
  }

  lemma {:induction false} FailuresAppend(a: seq<Settlement>, b: seq<Settlement>, id: nat)
    ensures Failures(a + b, id) == Failures(a, id) + Failures(b, id)
  {
    if b == [] {
      assert a + b == a;
    } else {
      var n := |b| - 1;
      assert (a + b)[..|a + b| - 1] == a + b[..n];
      FailuresAppend(a, b[..n], id);
    }
  }

  lemma SettlementsFront(held: seq<Claim>, errors: seq<Option<string>>)
    requires |errors| == |held| && held != []
    ensures
      var n := |held| - 1;
      Settlements(held, errors)[..n] == Settlements(held[..n], errors[..n])
  {
  }

  lemma {:induction false} FailuresElsewhere(held: seq<Claim>, errors: seq<Option<string>>, id: nat)
    requires |errors| == |held| && !Holds(held, id)
    ensures Failures(Settlements(held, errors), id) == 0
  {
    if held != [] {
      var n := |held| - 1;
      assert held[n].id != id;
      assert forall i :: 0 <= i < n ==> held[..n][i] == held[i];
      FailuresElsewhere(held[..n], errors[..n], id);
      SettlementsFront(held, errors);
    }
  }

  lemma {:induction false} FailuresAt(held: seq<Claim>, errors: seq<Option<string>>, i: nat)
    requires |errors| == |held| && IdsAscend(held) && i < |held|
    ensures Failures(Settlements(held, errors), held[i].id) == if errors[i].Some? then 1 else 0
  {
    var n := |held| - 1;
    SettlementsFront(held, errors);
    if i < n {
      assert held[i].id < held[n].id;
      FailuresAt(held[..n], errors[..n], i);
    } else {
      assert forall k :: 0 <= k < n ==> held[..n][k] == held[k] && held[k].id < held[n].id;
      FailuresElsewhere(held[..n], errors[..n], held[n].id);
    }
  }

  lemma SettledRowHolds(
    settings: Settings, settled: seq<Settlement>, more: seq<Settlement>, id: nat, row: Row,
    error: Option<string>, now: real, u: real)
    requires RowInv(settings, settled, id, row) && row.status.Pending?
    requires Failures(settled + more, id) == Failures(settled, id) + (if error.Some? then 1 else 0)
    ensures RowInv(settings, settled + more, id, SettleRow(settings, row, error, now, u))
  {
  }

  /** What a settled batch does to each row of the table. */
  lemma BatchWrites(settings: Settings, s: State, w: nat, errors: seq<Option<string>>, draws: seq<real>, id: nat)
    requires WorkersInv(settings, s) && Enabled(settings, s, SettleBatch(w, errors, draws)) && id in s.rows
    ensures
      var phase, s' := s.workers[w], Step(settings, s, SettleBatch(w, errors, draws));
      && id in s'.rows
      && (if Holds(phase.held, id) then
            exists i :: 0 <= i < |phase.held| && phase.held[i].id == id && s.rows[id] == phase.held[i].row
                        && s'.rows[id] == SettleRow(settings, s.rows[id], errors[i], phase.now, draws[i])
                        && Failures(s'.settled, id) == Failures(s.settled, id) + (if errors[i].Some? then 1 else 0)
          else s'.rows[id] == s.rows[id] && Failures(s'.settled, id) == Failures(s.settled, id))
  {
    var phase := s.workers[w];
    FailuresAppend(s.settled, Settlements(phase.held, errors), id);
    if Holds(phase.held, id) {
      var i :| 0 <= i < |phase.held| && phase.held[i].id == id;
      WriteBackAt(settings, s.rows, phase.held, phase.now, errors, draws, i);
      FailuresAt(phase.held, errors, i);
    } else {
      WriteBackElsewhere(settings, s.rows, phase.held, phase.now, errors, draws, id);
      FailuresElsewhere(phase.held, errors, id);
    }
  }

  lemma {:induction false} WriteBackKeys(
    settings: Settings, rows: map<nat, Row>, held: seq<Claim>, now: real,
    errors: seq<Option<string>>, draws: seq<real>)
    requires |errors| == |draws| == |held|
    requires forall i :: 0 <= i < |held| ==> held[i].id in rows
    ensures WriteBack(settings, rows, held, now, errors, draws).Keys == rows.Keys
  {
    if held != [] {
      var n := |held| - 1;
      WriteBackKeys(settings, rows, held[..n], now, errors[..n], draws[..n]);
    }
  }

  lemma SettleKeepsRow(settings: Settings, s: State, w: nat, errors: seq<Option<string>>, draws: seq<real>, id: nat)
    requires TableInv(settings, s) && WorkersInv(settings, s)
    requires Enabled(settings, s, SettleBatch(w, errors, draws)) && id in s.rows
    ensures
      var s' := Step(settings, s, SettleBatch(w, errors, draws));
      id in s'.rows && RowInv(settings, s'.settled, id, s'.rows[id])
  {
    var phase, s' := s.workers[w], Step(settings, s, SettleBatch(w, errors, draws));
    BatchWrites(settings, s, w, errors, draws, id);
    if Holds(phase.held, id) {
      var i :| 0 <= i < |phase.held| && phase.held[i].id == id && s.rows[id] == phase.held[i].row
               && s'.rows[id] == SettleRow(settings, s.rows[id], errors[i], phase.now, draws[i])
               && Failures(s'.settled, id) == Failures(s.settled, id) + (if errors[i].Some? then 1 else 0);
      SettledRowHolds(
        settings, s.settled, Settlements(phase.held, errors), id, s.rows[id], errors[i], phase.now, draws[i]);
    }
  }

  lemma SettleKeepsTable(settings: Settings, s: State, w: nat, errors: seq<Option<string>>, draws: seq<real>)
    requires TableInv(settings, s) && WorkersInv(settings, s)
    requires Enabled(settings, s, SettleBatch(w, errors, draws))
    ensures TableInv(settings, Step(settings, s, SettleBatch(w, errors, draws)))
  {
    var phase, s' := s.workers[w], Step(settings, s, SettleBatch(w, errors, draws));
    WriteBackKeys(settings, s.rows, phase.held, phase.now, errors, draws);
    assert s'.rows.Keys == s.rows.Keys;
    forall id | id in s'.rows
      ensures RowInv(settings, s'.settled, id, s'.rows[id])
    {
      assert id in s.rows.Keys;
      SettleKeepsRow(settings, s, w, errors, draws, id);
    }
  }

  lemma SettleKeepsWorkers(settings: Settings, s: State, w: nat, errors: seq<Option<string>>, draws: seq<real>)
    requires WorkersInv(settings, s) && Enabled(settings, s, SettleBatch(w, errors, draws))
    ensures WorkersInv(settings, Step(settings, s, SettleBatch(w, errors, draws)))
  {
    var phase, s' := s.workers[w], Step(settings, s, SettleBatch(w, errors, draws));
    forall v | v in s.workers && v != w
      ensures PhaseInv(settings, s'.rows, s'.handed, s.workers[v])
    {
      assert Disjoint(s.workers[v], phase);
      var held := HeldBy(s.workers[v]);
      forall i | 0 <= i < |held|
        ensures held[i].id in s'.rows && s'.rows[held[i].id] == s.rows[held[i].id]
      {
        assert Holds(held, held[i].id);
        BatchWrites(settings, s, w, errors, draws, held[i].id);
      }
    }
  }

  /** A settled batch leaves ids and messages alone, and publishes only rows whose send was acknowledged. */
  lemma BatchKeepsMessage(settings: Settings, s: State, w: nat, errors: seq<Option<string>>, draws: seq<real>, id: nat)
    requires WorkersInv(settings, s) && Enabled(settings, s, SettleBatch(w, errors, draws)) && id in s.rows
    ensures
      var s' := Step(settings, s, SettleBatch(w, errors, draws));
      && id in s'.rows && s'.rows[id].message == s.rows[id].message
      && (s'.rows[id].status.Published? ==> s.rows[id].status.Published? || OnTopic(s.topic, BuildEnvelope(s.rows[id].message)))
  {
    BatchWrites(settings, s, w, errors, draws, id);
  }

  lemma SettleKeepsTopic(settings: Settings, s: State, w: nat, errors: seq<Option<string>>, draws: seq<real>)
    requires Inv(settings, s) && Enabled(settings, s, SettleBatch(w, errors, draws))
    ensures
      var s' := Step(settings, s, SettleBatch(w, errors, draws));
      TopicInv(s') && PublishedInv(s')
  {
    var phase, s' := s.workers[w], Step(settings, s, SettleBatch(w, errors, draws));
    WriteBackKeys(settings, s.rows, phase.held, phase.now, errors, draws);
    forall id | id in s.rows
      ensures id in s'.rows && s'.rows[id].message == s.rows[id].message
      ensures s'.rows[id].status.Published? ==> OnTopic(s'.topic, BuildEnvelope(s'.rows[id].message))
    {
      BatchKeepsMessage(settings, s, w, errors, draws, id);
    }
    MessagesStay(s.rows, s'.rows, s.handed);
  }

  lemma AbortKeeps(settings: Settings, s: State, w: nat)
    requires Inv(settings, s)
    ensures Inv(settings, s.(workers := s.workers[w := Idle]))
  {
    MoveWorker(settings, s, w, Idle);
  }

  lemma StepKeepsInv(settings: Settings, s: State, l: Label)
    requires Inv(settings, s) && Enabled(settings, s, l)
    ensures Inv(settings, Step(settings, s, l))
  {
    match l
    case Insert(id, message, availableAt) => InsertKeeps(settings, s, id, message, availableAt);
    case BeginCycle(w, now) => BeginKeeps(settings, s, w, now);
    case Scan(w) => ScanKeeps(settings, s, w);
    case Send(w) => SendKeeps(settings, s, w);
    case Deliver(message, p) => DeliverKeeps(settings, s, message, p);
    case SettleBatch(w, errors, draws) =>
      SettleKeepsTable(settings, s, w, errors, draws);
      SettleKeepsWorkers(settings, s, w, errors, draws);
      SettleKeepsTopic(settings, s, w, errors, draws);
    case Abort(w) => AbortKeeps(settings, s, w);
  }

  lemma {:induction false} RunKeepsInv(settings: Settings, ss: seq<State>, ls: seq<Label>, n: nat)
    requires IsRun(settings, ss, ls) && n < |ss|
    ensures Inv(settings, ss[n])
  {
    if n > 0 {
      RunKeepsInv(settings, ss, ls, n - 1);
      StepKeepsInv(settings, ss[n - 1], ls[n - 1]);
    }
  }

  /* ---- nobody is stuck ---- */

  /** A committed event is inserted under any free id: pending, with no attempts, due when the database says. */
  lemma InsertWrites(settings: Settings, s: State, id: nat, message: OutboxMessage, availableAt: real)
    requires id !in s.rows
    ensures Enabled(settings, s, Insert(id, message, availableAt))
    ensures Step(settings, s, Insert(id, message, availableAt))
         == s.(rows := s.rows[id := Row(message, Pending, 0, availableAt, None, None, None)])
  {
  }

  ghost function AllTimedOut(n: nat): seq<Option<string>> { seq(n, i => Some("TimeoutError")) }

  ghost function NoJitter(n: nat): seq<real> { seq(n, i => 0.0) }

  /** A worker can always take its next step: claim on, send, or settle its batch, if only as timed out; and whatever was
      handed over may reach any partition. */
  lemma WorkerCanStep(settings: Settings, s: State, w: nat, now: real, p: nat)
    requires Inv(settings, s) && settings.maxAttempts <= 1025
    ensures
      match PhaseOf(s, w)
      case Idle => Enabled(settings, s, BeginCycle(w, now))
      case Scanning(_, _, _) => Enabled(settings, s, Scan(w)) || Enabled(settings, s, Send(w))
      case Sending(_, held) =>
        && Enabled(settings, s, SettleBatch(w, AllTimedOut(|held|), NoJitter(|held|)))
        && (p < |s.topic| ==> forall i :: 0 <= i < |held| ==> Enabled(settings, s, Deliver(held[i].row.message, p)))
  {
    if w in s.workers {
      assert PhaseInv(settings, s.rows, s.handed, s.workers[w]);
      var held := HeldBy(s.workers[w]);
      forall i | 0 <= i < |held| && s.workers[w].Sending?
        ensures held[i].row.message in s.handed
      {
        assert held[i].row.message in MessagesOf(held);
      }
    }
  }

  /* ---- what no step undoes ---- */

  /** A row keeps its message, a settled row never changes again, and available_at never goes back. */
  ghost predicate RowMovesForward(before: Row, after: Row) {
    && after.message == before.message
    && (!before.status.Pending? ==> after == before)
    && before.availableAt <= after.availableAt
    && before.attempts <= after.attempts
  }

  lemma SettledMovesForward(settings: Settings, row: Row, error: Option<string>, now: real, u: real)
    requires Eligible(row, now) && 0.0 <= u <= 1.0 && 0.0 <= settings.base && 0.0 <= settings.cap
    ensures RowMovesForward(row, SettleRow(settings, row, error, now, u))
  {
    JitterWindow(now, row.attempts + 1, settings.base, settings.cap, u);
  }

  lemma StepMovesForward(settings: Settings, s: State, l: Label, id: nat)
    requires Inv(settings, s) && Enabled(settings, s, l) && id in s.rows
    requires 0.0 <= settings.base && 0.0 <= settings.cap
    ensures id in Step(settings, s, l).rows && RowMovesForward(s.rows[id], Step(settings, s, l).rows[id])
  {
    if l.SettleBatch? {
      var phase := s.workers[l.w];
      BatchWrites(settings, s, l.w, l.errors, l.draws, id);
      if Holds(phase.held, id) {
        var i :| 0 <= i < |phase.held| && phase.held[i].id == id && s.rows[id] == phase.held[i].row
                 && Step(settings, s, l).rows[id]
                    == SettleRow(settings, s.rows[id], l.errors[i], phase.now, l.draws[i]);
        SettledMovesForward(settings, s.rows[id], l.errors[i], phase.now, l.draws[i]);
      }
    }
  }

  /** Over any stretch of any run, with worker clocks free to disagree. */
  lemma {:induction false} RowsMoveForward(settings: Settings, ss: seq<State>, ls: seq<Label>, m: nat, n: nat, id: nat)
    requires IsRun(settings, ss, ls) && m <= n < |ss| && id in ss[m].rows
    requires 0.0 <= settings.base && 0.0 <= settings.cap
    ensures id in ss[n].rows && RowMovesForward(ss[m].rows[id], ss[n].rows[id])
    ensures
      var before, after := ss[m].rows[id], ss[n].rows[id];
      && after.message == before.message
      && (before.status != Pending ==> after == before)
      && before.availableAt <= after.availableAt && before.attempts <= after.attempts
    decreases n - m
  {
    if m < n {
      RowsMoveForward(settings, ss, ls, m, n - 1, id);
      RunKeepsInv(settings, ss, ls, n - 1);
      StepMovesForward(settings, ss[n - 1], ls[n - 1], id);
    }
  }

  /** Two workers never hold the same row, and a worker never holds one twice or more than a batch. */
  lemma ClaimsAreExclusive(settings: Settings, s: State, v: nat, w: nat, i: nat, j: nat)
    requires Inv(settings, s) && v in s.workers && w in s.workers
    requires i < |HeldBy(s.workers[v])| && j < |HeldBy(s.workers[w])| && (v, i) != (w, j)
    ensures HeldBy(s.workers[v])[i].id != HeldBy(s.workers[w])[j].id
    ensures |HeldBy(s.workers[v])| <= settings.batchSize
  {
    if v != w {
      assert Disjoint(s.workers[v], s.workers[w]);
      assert Holds(HeldBy(s.workers[v]), HeldBy(s.workers[v])[i].id);
    }
  }

  /* ---- the theorems over runs ---- */

  /** attempts is the number of committed failed settlements, each status has its own timestamp, FAILED means the limit was reached. */
  lemma ExactAccounting(settings: Settings, ss: seq<State>, ls: seq<Label>, n: nat, id: nat)
    requires IsRun(settings, ss, ls) && n < |ss| && id in ss[n].rows
    ensures
      var row, limit := ss[n].rows[id], if settings.maxAttempts > 1 then settings.maxAttempts else 1;
      && row.attempts == Failures(ss[n].settled, id) <= limit
      && (row.status == Pending ==> row.attempts < limit)
      && (row.status == Failed ==> row.attempts == limit)
      && (row.publishedAt.Some? <==> row.status == Published)
      && (row.failedAt.Some? <==> row.status == Failed)
      && (row.lastError.Some? <==> row.attempts > 0 && row.status != Published)
  {
    RunKeepsInv(settings, ss, ls, n);
  }

  /** Whatever subset of the sends a timeout or a crash let through, a PUBLISHED row is on the topic for good. */
  lemma PublishedAtLeastOnce(settings: Settings, ss: seq<State>, ls: seq<Label>, n: nat, id: nat)
    requires IsRun(settings, ss, ls) && n < |ss| && id in ss[n].rows && ss[n].rows[id].status.Published?
    ensures OnTopic(ss[n].topic, BuildEnvelope(ss[n].rows[id].message))
  {
    RunKeepsInv(settings, ss, ls, n);
  }

  /** Nothing is on the topic but the messages of committed rows. */
  lemma OnlyRowsArePublished(settings: Settings, ss: seq<State>, ls: seq<Label>, n: nat, p: nat, o: nat) returns (id: nat)
    requires IsRun(settings, ss, ls) && n < |ss| && p < |ss[n].topic| && o < |ss[n].topic[p]|
    ensures id in ss[n].rows && BuildEnvelope(ss[n].rows[id].message) == ss[n].topic[p][o]
  {
    RunKeepsInv(settings, ss, ls, n);
    assert FromHanded(ss[n].handed, ss[n].topic[p][o]);
    var message :| message in ss[n].handed && BuildEnvelope(message) == ss[n].topic[p][o];
    assert MessageOfRow(ss[n].rows, message);
    id :| id in ss[n].rows && ss[n].rows[id].message == message;
  }

  /* ---- what is on the topic, and FAILED rows ---- */

  ghost predicate DeliveredBefore(ls: seq<Label>, n: nat, envelope: Envelope) {
    exists i :: 0 <= i < n <= |ls| && ls[i].Deliver? && BuildEnvelope(ls[i].message) == envelope
  }

  lemma StepDelivers(settings: Settings, s: State, l: Label, envelope: Envelope)
    requires Enabled(settings, s, l)
    ensures OnTopic(Step(settings, s, l).topic, envelope)
       <==> OnTopic(s.topic, envelope) || (l.Deliver? && BuildEnvelope(l.message) == envelope)
  {
    if l.Deliver? {
      var p, record := l.partition, BuildEnvelope(l.message);
      var longer := s.topic[p := s.topic[p] + [record]];
      DeliveredStays(s.topic, p, record, envelope);
      assert longer[p][|s.topic[p]|] == record;
      if OnTopic(longer, envelope) && record != envelope {
        var q, o :| 0 <= q < |longer| && 0 <= o < |longer[q]| && longer[q][o] == envelope;
        assert s.topic[q][o] == envelope;
      }
    }
  }

  /** An envelope is on the topic exactly when the broker took it in one of the steps so far. */
  lemma {:induction false} OnTopicIffDelivered(settings: Settings, ss: seq<State>, ls: seq<Label>, n: nat, envelope: Envelope)
    requires IsRun(settings, ss, ls) && n < |ss|
    ensures OnTopic(ss[n].topic, envelope) <==> DeliveredBefore(ls, n, envelope)
  {
    if n > 0 {
      OnTopicIffDelivered(settings, ss, ls, n - 1, envelope);
      StepDelivers(settings, ss[n - 1], ls[n - 1], envelope);
      assert DeliveredBefore(ls, n, envelope)
        <==> DeliveredBefore(ls, n - 1, envelope) || (ls[n - 1].Deliver? && BuildEnvelope(ls[n - 1].message) == envelope);
    }
  }

  /** A FAILED row is undelivered exactly when none of its sends ever reached the broker, reported or not. */
  lemma FailedIsUndeliveredIff(settings: Settings, ss: seq<State>, ls: seq<Label>, n: nat, id: nat)
    requires IsRun(settings, ss, ls) && n < |ss| && id in ss[n].rows && ss[n].rows[id].status.Failed?
    ensures !OnTopic(ss[n].topic, BuildEnvelope(ss[n].rows[id].message))
       <==> !DeliveredBefore(ls, n, BuildEnvelope(ss[n].rows[id].message))
  {
    OnTopicIffDelivered(settings, ss, ls, n, BuildEnvelope(ss[n].rows[id].message));
  }

  lemma OneIdAscending(id: nat)
    ensures Ascending({id}) == [id]
  {
    var q := Ascending({id});
    assert q[0] in q;
  }

  lemma WriteBackOne(settings: Settings, rows: map<nat, Row>, claim: Claim, now: real, error: Option<string>, u: real)
    ensures WriteBack(settings, rows, [claim], now, [error], [u])
         == rows[claim.id := SettleRow(settings, claim.row, error, now, u)]
  {
    assert [claim][..0] == [];
  }

  /** Any possible step continues a run. */
  lemma RunNext(settings: Settings, ss: seq<State>, ls: seq<Label>, l: Label)
    requires IsRun(settings, ss, ls) && Enabled(settings, ss[|ls|], l)
    ensures IsRun(settings, ss + [Step(settings, ss[|ls|], l)], ls + [l])
  {
    var longer, labels := ss + [Step(settings, ss[|ls|], l)], ls + [l];
    forall i | 0 <= i < |labels|
      ensures Enabled(settings, longer[i], labels[i]) && longer[i + 1] == Step(settings, longer[i], labels[i])
    {
      assert longer[i] == ss[i];
      assert i < |ls| ==> longer[i + 1] == ss[i + 1] && labels[i] == ls[i];
    }
  }

  /** One row, claimed by worker 0, handed to the producer and not settled yet. */
  ghost function SentState(row: Row, topic: Topic): State {
    State(map[0 := row], map[0 := Sending(0.0, [Claim(0, row)])], {row.message}, topic, [])
  }

  lemma ClaimOne(settings: Settings, message: OutboxMessage) returns (ss: seq<State>, ls: seq<Label>)
    requires settings.batchSize == 1
    ensures IsRun(settings, ss, ls)
    ensures
      var row := FreshRow(message, 0.0);
      ss[|ls|] == State(map[0 := row], map[0 := Scanning(0.0, [], [Claim(0, row)])], {}, [[]], [])
  {
    var row := FreshRow(message, 0.0);
    var s0 := State(map[], map[], {}, [[]], []);
    var s1 := State(map[0 := row], map[], {}, [[]], []);
    var s2 := State(map[0 := row], map[0 := Scanning(0.0, [0], [])], {}, [[]], []);
    RunNext(settings, [s0], [], Insert(0, message, 0.0));
    assert EligibleIds(s1.rows, 0.0) == {0};
    OneIdAscending(0);
    RunNext(settings, [s0, s1], [Insert(0, message, 0.0)], BeginCycle(0, 0.0));
    RunNext(settings, [s0, s1, s2], [Insert(0, message, 0.0), BeginCycle(0, 0.0)], Scan(0));
    var none: seq<Claim> := [];
    assert none + [Claim(0, row)] == [Claim(0, row)];
    assert !LockedByOther(s2, 0, 0);
    assert AfterScan(s2, 0) == Scanning(0.0, [], [Claim(0, row)]);
    ss := [s0, s1, s2] + [Step(settings, s2, Scan(0))];
    ls := [Insert(0, message, 0.0), BeginCycle(0, 0.0)] + [Scan(0)];
  }

  lemma DeliverOne(settings: Settings, message: OutboxMessage) returns (ss: seq<State>, ls: seq<Label>)
    requires settings.batchSize == 1
    ensures IsRun(settings, ss, ls) && ss[|ls|] == SentState(FreshRow(message, 0.0), [[BuildEnvelope(message)]])
  {
    var row := FreshRow(message, 0.0);
    ss, ls := ClaimOne(settings, message);
    RunNext(settings, ss, ls, Send(0));
    var held := [Claim(0, row)];
    assert held[0].row.message in MessagesOf(held);
    assert Step(settings, ss[|ls|], Send(0)) == SentState(row, [[]]);
    ss, ls := ss + [SentState(row, [[]])], ls + [Send(0)];
    RunNext(settings, ss, ls, Deliver(message, 0));
    var none: seq<Envelope> := [];
    assert none + [BuildEnvelope(message)] == [BuildEnvelope(message)];
    assert SentState(row, [[]]).topic[0 := none + [BuildEnvelope(message)]] == [[BuildEnvelope(message)]];
    ss, ls := ss + [SentState(row, [[BuildEnvelope(message)]])], ls + [Deliver(message, 0)];
  }

  /** A row may be FAILED although its record reached the topic: the send timed out after the broker took it. */
  lemma FailedMayBeDelivered(message: OutboxMessage) returns (settings: Settings, ss: seq<State>, ls: seq<Label>)
    ensures IsRun(settings, ss, ls)
    ensures
      var s := ss[|ls|];
      0 in s.rows && s.rows[0].message == message && s.rows[0].status.Failed? && OnTopic(s.topic, BuildEnvelope(message))
  {
    settings := Settings(1, 1, 1.0, 30.0);
    ss, ls := DeliverOne(settings, message);
    var row := FreshRow(message, 0.0);
    var settle := SettleBatch(0, [Some("TimeoutError")], [0.0]);
    RunNext(settings, ss, ls, settle);
    WriteBackOne(settings, map[0 := row], Claim(0, row), 0.0, Some("TimeoutError"), 0.0);
    assert [[BuildEnvelope(message)]][0][0] == BuildEnvelope(message);
    ss, ls := ss + [Step(settings, ss[|ls|], settle)], ls + [settle];
  }
}
