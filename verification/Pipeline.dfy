/**
 * The whole pipeline as one system: API calls, publishers and consumers step in any order. A commit of an order
 * inserts its outbox row, and a delivered send appends to the topic the consumers read.
 */
module Pipeline {
  import opened Prelude
  import opened Texts
  import opened Models
  import opened Events
  import opened Orders
  import opened OrderHistory
  import OrderTheorems
  import opened Projection
  import opened Publisher
  import opened Consumer
  import opened ConsumerLoop
  import opened ConsumerWorker
  import O = OrderMachine
  import P = PublisherMachine
  import C = ConsumerMachine

  datatype State = State(api: O.State, outbox: P.State, reader: C.State)

  datatype Label =
    | Api(api: O.Label)
    | CommitOrder(c: nat, acknowledged: bool, rowId: nat, availableAt: real)
    | Outbox(outbox: P.Label)
    | Deliver(message: OutboxMessage, partition: nat)
    | Reader(reader: C.Label)

  /** What the broker keeps of a send, as far as the consumer looks at it. */
  function RecordOf(envelope: Envelope): Record {
    Record(Some(envelope.key), Some(envelope.value))
  }

  ghost function EventOfCall(s: State, c: nat): OutboxMessage
    requires O.Enabled(s.api, O.Commit(c, true))
  {
    BuildOrderCreatedMessage(s.api.calls[c].phase.order, s.api.calls[c].stamp.eventId)
  }

  ghost predicate Enabled(settings: Settings, s: State, l: Label) {
    match l
    case Api(step) => !step.Commit? && O.Enabled(s.api, step)
    case CommitOrder(c, acknowledged, rowId, _) => O.Enabled(s.api, O.Commit(c, acknowledged)) && rowId !in s.outbox.rows
    case Outbox(step) => !step.Insert? && !step.Deliver? && P.Enabled(settings, s.outbox, step)
    case Deliver(message, partition) =>
      P.Enabled(settings, s.outbox, P.Deliver(message, partition)) && partition < |s.reader.topic|
    case Reader(step) => !step.Append? && C.Enabled(s.reader, step)
  }

  ghost function Step(settings: Settings, config: Config, s: State, l: Label): State
    requires Enabled(settings, s, l)
  {
    match l
    case Api(step) => s.(api := O.Step(s.api, step))
    case CommitOrder(c, acknowledged, rowId, availableAt) =>
      s.(api := O.Step(s.api, O.Commit(c, acknowledged)),
         outbox := P.Step(settings, s.outbox, P.Insert(rowId, EventOfCall(s, c), availableAt)))
    case Outbox(step) => s.(outbox := P.Step(settings, s.outbox, step))
    case Deliver(message, partition) =>
      s.(outbox := P.Step(settings, s.outbox, P.Deliver(message, partition)),
         reader := C.Step(config, s.reader, C.Append(partition, RecordOf(BuildEnvelope(message)))))
    case Reader(step) => s.(reader := C.Step(config, s.reader, step))
  }

  ghost predicate IsStart(s: State) {
    s.api == O.START && P.IsStart(s.outbox) && C.IsStart(s.reader) && |s.outbox.topic| == |s.reader.topic|
  }

  ghost predicate IsRun(settings: Settings, config: Config, ss: seq<State>, ls: seq<Label>) {
    && |ss| == |ls| + 1
    && IsStart(ss[0])
    && forall i :: 0 <= i < |ls| ==> Enabled(settings, ss[i], ls[i]) && ss[i + 1] == Step(settings, config, ss[i], ls[i])
  }

  /* ---- the invariant that joins the three machines ---- */

  ghost predicate SameTopic(sent: P.Topic, read: Topic) {
    && |sent| == |read|
    && forall p :: 0 <= p < |sent| ==> |sent[p]| == |read[p]|
                                       && forall o :: 0 <= o < |sent[p]| ==> read[p][o] == RecordOf(sent[p][o])
  }

  /** The rows the publishers see are exactly the committed events, one row each. */
  ghost predicate RowsMatch(rows: map<nat, Row>, events: seq<OutboxMessage>) {
    && (forall id :: id in rows ==> rows[id].message in events)
    && (forall i :: 0 <= i < |events| ==> P.MessageOfRow(rows, events[i]))
    && (forall a, b :: a in rows && b in rows && a != b ==> rows[a].message.eventId != rows[b].message.eventId)
  }

  ghost predicate Inv(settings: Settings, config: Config, s: State) {
    && O.Inv(s.api)
    && P.Inv(settings, s.outbox)
    && C.Inv(config, s.reader)
    && SameTopic(s.outbox.topic, s.reader.topic)
    && RowsMatch(s.outbox.rows, s.api.world.db.outbox)
  }

  /** A step of the API that commits no order adds no event. */
  lemma NoNewEvent(s: O.State, l: O.Label)
    requires O.Enabled(s, l) && !l.Commit?
    ensures O.Step(s, l).world.db.outbox == s.world.db.outbox
  {
  }

  lemma PlacedStampIsNew(w: O.World, call: O.Call)
    requires O.CallInv(w, call) && call.phase.Placed?
    ensures forall i :: 0 <= i < |w.db.outbox| ==> w.db.outbox[i].eventId != call.stamp.eventId
  {
  }

  lemma CommitAddsEvent(s: State, c: nat, acknowledged: bool)
    requires O.Inv(s.api) && O.Enabled(s.api, O.Commit(c, acknowledged))
    ensures O.Step(s.api, O.Commit(c, acknowledged)).world.db.outbox == s.api.world.db.outbox + [EventOfCall(s, c)]
    ensures forall i :: 0 <= i < |s.api.world.db.outbox| ==> s.api.world.db.outbox[i].eventId != EventOfCall(s, c).eventId
  {
    PlacedStampIsNew(s.api.world, s.api.calls[c]);
    assert EventOfCall(s, c).eventId == s.api.calls[c].stamp.eventId;
  }

  lemma NewRowMatches(rows: map<nat, Row>, events: seq<OutboxMessage>, id: nat, message: OutboxMessage, availableAt: real)
    requires RowsMatch(rows, events) && id !in rows
    requires forall i :: 0 <= i < |events| ==> events[i].eventId != message.eventId
    ensures RowsMatch(rows[id := FreshRow(message, availableAt)], events + [message])
  {
    var after := rows[id := FreshRow(message, availableAt)];
    forall i | 0 <= i < |events + [message]|
      ensures P.MessageOfRow(after, (events + [message])[i])
    {
      if i < |events| {
        var k :| k in rows && rows[k].message == events[i];
        assert k in after && after[k].message == events[i];
      } else {
        assert id in after && after[id].message == message;
      }
    }
  }

  /** Apart from inserts, publishers leave ids and messages alone. */
  lemma RowsKeepMessages(settings: Settings, s: P.State, l: P.Label)
    requires P.Inv(settings, s) && P.Enabled(settings, s, l) && !l.Insert?
    ensures P.Step(settings, s, l).rows.Keys == s.rows.Keys
    ensures forall id :: id in s.rows ==> P.Step(settings, s, l).rows[id].message == s.rows[id].message
  {
    if l.SettleBatch? {
      var phase := s.workers[l.w];
      P.WriteBackKeys(settings, s.rows, phase.held, phase.now, l.errors, l.draws);
      forall id | id in s.rows
        ensures P.Step(settings, s, l).rows[id].message == s.rows[id].message
      {
        P.BatchKeepsMessage(settings, s, l.w, l.errors, l.draws, id);
      }
    }
  }

  lemma SameMessagesMatch(rows: map<nat, Row>, after: map<nat, Row>, events: seq<OutboxMessage>)
    requires RowsMatch(rows, events) && after.Keys == rows.Keys
    requires forall id :: id in rows ==> after[id].message == rows[id].message
    ensures RowsMatch(after, events)
  {
    assert forall id :: id in after <==> id in rows;
    forall i | 0 <= i < |events|
      ensures P.MessageOfRow(after, events[i])
    {
      assert P.MessageOfRow(rows, events[i]);
      var k :| k in rows && rows[k].message == events[i];
      assert k in after && after[k].message == events[i];
    }
  }

  lemma TopicOnlyByDeliver(settings: Settings, s: P.State, l: P.Label)
    requires P.Enabled(settings, s, l) && !l.Deliver?
    ensures P.Step(settings, s, l).topic == s.topic
  {
  }

  lemma TopicOnlyByAppend(config: Config, s: C.State, l: C.Label)
    requires C.Enabled(s, l) && !l.Append?
    ensures C.Step(config, s, l).topic == s.topic
  {
  }

  lemma OutboxKeeps(settings: Settings, config: Config, s: State, l: P.Label)
    requires Inv(settings, config, s) && Enabled(settings, s, Outbox(l))
    ensures Inv(settings, config, s.(outbox := P.Step(settings, s.outbox, l)))
  {
    P.StepKeepsInv(settings, s.outbox, l);
    RowsKeepMessages(settings, s.outbox, l);
    SameMessagesMatch(s.outbox.rows, P.Step(settings, s.outbox, l).rows, s.api.world.db.outbox);
    TopicOnlyByDeliver(settings, s.outbox, l);
  }

  lemma CommitOrderKeeps(settings: Settings, config: Config, s: State, l: Label)
    requires Inv(settings, config, s) && Enabled(settings, s, l) && l.CommitOrder?
    ensures Inv(settings, config, Step(settings, config, s, l))
  {
    O.StepKeepsInv(s.api, O.Commit(l.c, l.acknowledged));
    P.StepKeepsInv(settings, s.outbox, P.Insert(l.rowId, EventOfCall(s, l.c), l.availableAt));
    CommitAddsEvent(s, l.c, l.acknowledged);
    NewRowMatches(s.outbox.rows, s.api.world.db.outbox, l.rowId, EventOfCall(s, l.c), l.availableAt);
  }

  lemma SameTopicGrows(sent: P.Topic, read: Topic, p: nat, envelope: Envelope)
    requires SameTopic(sent, read) && p < |sent|
    ensures SameTopic(sent[p := sent[p] + [envelope]], read[p := read[p] + [RecordOf(envelope)]])
  {
  }

  lemma DeliverKeeps(settings: Settings, config: Config, s: State, message: OutboxMessage, p: nat)
    requires Inv(settings, config, s) && Enabled(settings, s, Deliver(message, p))
    ensures Inv(settings, config, Step(settings, config, s, Deliver(message, p)))
  {
    P.StepKeepsInv(settings, s.outbox, P.Deliver(message, p));
    C.StepKeepsInv(config, s.reader, C.Append(p, RecordOf(BuildEnvelope(message))));
    SameTopicGrows(s.outbox.topic, s.reader.topic, p, BuildEnvelope(message));
  }

  lemma StepKeepsInv(settings: Settings, config: Config, s: State, l: Label)
    requires Inv(settings, config, s) && Enabled(settings, s, l)
    ensures Inv(settings, config, Step(settings, config, s, l))
  {
    match l
    case Api(step) =>
      O.StepKeepsInv(s.api, step);
      NoNewEvent(s.api, step);
    case CommitOrder(_, _, _, _) => CommitOrderKeeps(settings, config, s, l);
    case Outbox(step) => OutboxKeeps(settings, config, s, step);
    case Deliver(message, p) => DeliverKeeps(settings, config, s, message, p);
    case Reader(step) =>
      C.StepKeepsInv(config, s.reader, step);
      TopicOnlyByAppend(config, s.reader, step);
  }

  lemma StartHolds(settings: Settings, config: Config, s: State)
    requires IsStart(s)
    ensures Inv(settings, config, s)
  {
  }

  lemma StepOfRun(settings: Settings, config: Config, ss: seq<State>, ls: seq<Label>, i: nat)
    requires IsRun(settings, config, ss, ls) && i < |ls| && Inv(settings, config, ss[i])
    ensures Inv(settings, config, ss[i + 1])
  {
    StepKeepsInv(settings, config, ss[i], ls[i]);
  }

  lemma {:induction false} RunKeepsInv(settings: Settings, config: Config, ss: seq<State>, ls: seq<Label>, n: nat)
    requires IsRun(settings, config, ss, ls) && n < |ss|
    ensures Inv(settings, config, ss[n])
  {
    if n == 0 {
      StartHolds(settings, config, ss[0]);
    } else {
      RunKeepsInv(settings, config, ss, ls, n - 1);
      StepOfRun(settings, config, ss, ls, n - 1);
    }
  }

  /* ---- each part on its own is a run of its machine, so their theorems hold here ---- */

  /** The step of each machine a label stands for, if it takes one. */
  ghost function ApiLabel(l: Label): Option<O.Label> {
    match l
    case Api(step) => Some(step)
    case CommitOrder(c, acknowledged, _, _) => Some(O.Commit(c, acknowledged))
    case _ => None
  }

  ghost function OutboxLabel(s: State, l: Label): Option<P.Label> {
    match l
    case CommitOrder(c, _, rowId, availableAt) =>
      if O.Enabled(s.api, O.Commit(c, true)) then Some(P.Insert(rowId, EventOfCall(s, c), availableAt)) else None
    case Outbox(step) => Some(step)
    case Deliver(message, p) => Some(P.Deliver(message, p))
    case _ => None
  }

  ghost function ReaderLabel(l: Label): Option<C.Label> {
    match l
    case Deliver(message, p) => Some(C.Append(p, RecordOf(BuildEnvelope(message))))
    case Reader(step) => Some(step)
    case _ => None
  }

  lemma StepsOfParts(settings: Settings, config: Config, s: State, l: Label)
    requires Enabled(settings, s, l)
    ensures
      var s', a, p, r := Step(settings, config, s, l), ApiLabel(l), OutboxLabel(s, l), ReaderLabel(l);
      && (if a.Some? then O.Enabled(s.api, a.value) && s'.api == O.Step(s.api, a.value) else s'.api == s.api)
      && (if p.Some? then P.Enabled(settings, s.outbox, p.value) && s'.outbox == P.Step(settings, s.outbox, p.value)
          else s'.outbox == s.outbox)
      && (if r.Some? then C.Enabled(s.reader, r.value) && s'.reader == C.Step(config, s.reader, r.value)
          else s'.reader == s.reader)
  {
  }

  ghost function ApiStates(ss: seq<State>): seq<O.State> { seq(|ss|, i requires 0 <= i < |ss| => ss[i].api) }

  ghost function ApiSteps(ls: seq<Label>): seq<Option<O.Label>> {
    seq(|ls|, i requires 0 <= i < |ls| => ApiLabel(ls[i]))
  }

  ghost function OutboxStates(ss: seq<State>): seq<P.State> { seq(|ss|, i requires 0 <= i < |ss| => ss[i].outbox) }

  ghost function OutboxSteps(ss: seq<State>, ls: seq<Label>): seq<Option<P.Label>>
    requires |ss| > |ls|
  {
    seq(|ls|, i requires 0 <= i < |ls| => OutboxLabel(ss[i], ls[i]))
  }

  ghost function ReaderStates(ss: seq<State>): seq<C.State> { seq(|ss|, i requires 0 <= i < |ss| => ss[i].reader) }

  ghost function ReaderSteps(ls: seq<Label>): seq<Option<C.Label>> {
    seq(|ls|, i requires 0 <= i < |ls| => ReaderLabel(ls[i]))
  }

  lemma PartsFollow(settings: Settings, config: Config, ss: seq<State>, ls: seq<Label>)
    requires IsRun(settings, config, ss, ls)
    ensures Follows(ApiStates(ss), ApiSteps(ls))
    ensures Follows(OutboxStates(ss), OutboxSteps(ss, ls))
    ensures Follows(ReaderStates(ss), ReaderSteps(ls))
  {
    forall i | 0 <= i < |ls|
      ensures ApiSteps(ls)[i].None? ==> ApiStates(ss)[i + 1] == ApiStates(ss)[i]
      ensures OutboxSteps(ss, ls)[i].None? ==> OutboxStates(ss)[i + 1] == OutboxStates(ss)[i]
      ensures ReaderSteps(ls)[i].None? ==> ReaderStates(ss)[i + 1] == ReaderStates(ss)[i]
    {
      StepsOfParts(settings, config, ss[i], ls[i]);
    }
  }

  /** The API part of the first n steps. */
  ghost function ApiRun(ss: seq<State>, ls: seq<Label>, n: nat): (seq<O.State>, seq<O.Label>)
    requires n <= |ls| < |ss|
  {
    (Visited(ApiStates(ss), ApiSteps(ls), n), Kept(ApiSteps(ls), n))
  }

  ghost function OutboxRun(ss: seq<State>, ls: seq<Label>, n: nat): (seq<P.State>, seq<P.Label>)
    requires n <= |ls| < |ss|
  {
    (Visited(OutboxStates(ss), OutboxSteps(ss, ls), n), Kept(OutboxSteps(ss, ls), n))
  }

  ghost function ReaderRun(ss: seq<State>, ls: seq<Label>, n: nat): (seq<C.State>, seq<C.Label>)
    requires n <= |ls| < |ss|
  {
    (Visited(ReaderStates(ss), ReaderSteps(ls), n), Kept(ReaderSteps(ls), n))
  }

  lemma ApiPart(settings: Settings, config: Config, ss: seq<State>, ls: seq<Label>, n: nat)
    requires IsRun(settings, config, ss, ls) && n <= |ls|
    ensures O.IsRun(ApiRun(ss, ls, n).0, ApiRun(ss, ls, n).1)
  {
    var (os, ol) := ApiRun(ss, ls, n);
    PartsFollow(settings, config, ss, ls);
    VisitedAt(ApiStates(ss), ApiSteps(ls), 0, n);
    forall j | 0 <= j < |ol|
      ensures O.Enabled(os[j], ol[j]) && os[j + 1] == O.Step(os[j], ol[j])
    {
      var i := Origin(ApiStates(ss), ApiSteps(ls), 0, n, j);
      VisitedAt(ApiStates(ss), ApiSteps(ls), i, n);
      VisitedAt(ApiStates(ss), ApiSteps(ls), i + 1, n);
      StepsOfParts(settings, config, ss[i], ls[i]);
    }
  }

  lemma OutboxPart(settings: Settings, config: Config, ss: seq<State>, ls: seq<Label>, n: nat)
    requires IsRun(settings, config, ss, ls) && n <= |ls|
    ensures P.IsRun(settings, OutboxRun(ss, ls, n).0, OutboxRun(ss, ls, n).1)
  {
    var (ps, pl) := OutboxRun(ss, ls, n);
    PartsFollow(settings, config, ss, ls);
    VisitedAt(OutboxStates(ss), OutboxSteps(ss, ls), 0, n);
    forall j | 0 <= j < |pl|
      ensures P.Enabled(settings, ps[j], pl[j]) && ps[j + 1] == P.Step(settings, ps[j], pl[j])
    {
      var i := Origin(OutboxStates(ss), OutboxSteps(ss, ls), 0, n, j);
      VisitedAt(OutboxStates(ss), OutboxSteps(ss, ls), i, n);
      VisitedAt(OutboxStates(ss), OutboxSteps(ss, ls), i + 1, n);
      StepsOfParts(settings, config, ss[i], ls[i]);
    }
  }

  lemma ReaderPart(settings: Settings, config: Config, ss: seq<State>, ls: seq<Label>, n: nat)
    requires IsRun(settings, config, ss, ls) && n <= |ls|
    ensures C.IsRun(config, ReaderRun(ss, ls, n).0, ReaderRun(ss, ls, n).1)
  {
    var (cs, cl) := ReaderRun(ss, ls, n);
    PartsFollow(settings, config, ss, ls);
    VisitedAt(ReaderStates(ss), ReaderSteps(ls), 0, n);
    forall j | 0 <= j < |cl|
      ensures C.Enabled(cs[j], cl[j]) && cs[j + 1] == C.Step(config, cs[j], cl[j])
    {
      var i := Origin(ReaderStates(ss), ReaderSteps(ls), 0, n, j);
      VisitedAt(ReaderStates(ss), ReaderSteps(ls), i, n);
      VisitedAt(ReaderStates(ss), ReaderSteps(ls), i + 1, n);
      StepsOfParts(settings, config, ss[i], ls[i]);
    }
  }

  /** The projections of a run of the whole are runs of the three machines, and pass through the part of every one of
      its states at an index that only grows. */
  lemma PartsAreRuns(settings: Settings, config: Config, ss: seq<State>, ls: seq<Label>, m: nat, n: nat)
    requires IsRun(settings, config, ss, ls) && m <= n <= |ls|
    ensures O.IsRun(ApiRun(ss, ls, n).0, ApiRun(ss, ls, n).1)
    ensures P.IsRun(settings, OutboxRun(ss, ls, n).0, OutboxRun(ss, ls, n).1)
    ensures C.IsRun(config, ReaderRun(ss, ls, n).0, ReaderRun(ss, ls, n).1)
    ensures
      var a, b := Index(ApiSteps(ls), m), Index(ApiSteps(ls), n);
      a <= b == |ApiRun(ss, ls, n).1| && ApiRun(ss, ls, n).0[a] == ss[m].api && ApiRun(ss, ls, n).0[b] == ss[n].api
    ensures
      var a, b := Index(OutboxSteps(ss, ls), m), Index(OutboxSteps(ss, ls), n);
      && a <= b == |OutboxRun(ss, ls, n).1|
      && OutboxRun(ss, ls, n).0[a] == ss[m].outbox && OutboxRun(ss, ls, n).0[b] == ss[n].outbox
    ensures
      var a, b := Index(ReaderSteps(ls), m), Index(ReaderSteps(ls), n);
      && a <= b == |ReaderRun(ss, ls, n).1|
      && ReaderRun(ss, ls, n).0[a] == ss[m].reader && ReaderRun(ss, ls, n).0[b] == ss[n].reader
  {
    PartsFollow(settings, config, ss, ls);
    ApiPart(settings, config, ss, ls, n);
    OutboxPart(settings, config, ss, ls, n);
    ReaderPart(settings, config, ss, ls, n);
    VisitedAt(ApiStates(ss), ApiSteps(ls), m, n);
    VisitedAt(ApiStates(ss), ApiSteps(ls), n, n);
    VisitedAt(OutboxStates(ss), OutboxSteps(ss, ls), m, n);
    VisitedAt(OutboxStates(ss), OutboxSteps(ss, ls), n, n);
    VisitedAt(ReaderStates(ss), ReaderSteps(ls), m, n);
    VisitedAt(ReaderStates(ss), ReaderSteps(ls), n, n);
  }

  /** A run may start with any number of empty partitions, and any possible step continues it. */
  lemma RunStarts(settings: Settings, config: Config, s: State)
    requires IsStart(s)
    ensures IsRun(settings, config, [s], [])
  {
  }

  lemma RunNext(settings: Settings, config: Config, ss: seq<State>, ls: seq<Label>, l: Label)
    requires IsRun(settings, config, ss, ls) && Enabled(settings, ss[|ls|], l)
    ensures IsRun(settings, config, ss + [Step(settings, config, ss[|ls|], l)], ls + [l])
  {
    var longer, labels := ss + [Step(settings, config, ss[|ls|], l)], ls + [l];
    forall i | 0 <= i < |labels|
      ensures Enabled(settings, longer[i], labels[i]) && longer[i + 1] == Step(settings, config, longer[i], labels[i])
    {
      assert longer[i] == ss[i];
      assert i < |ls| ==> longer[i + 1] == ss[i + 1] && labels[i] == ls[i];
    }
  }

  /** The parts step freely inside the whole, but for the two steps that two of them take together. */
  lemma PartsStepFreely(settings: Settings, config: Config, s: State, o: O.Label, p: P.Label, c: C.Label)
    ensures O.Enabled(s.api, o) && !o.Commit? ==> Enabled(settings, s, Api(o))
    ensures P.Enabled(settings, s.outbox, p) && !p.Insert? && !p.Deliver? ==> Enabled(settings, s, Outbox(p))
    ensures C.Enabled(s.reader, c) && !c.Append? ==> Enabled(settings, s, Reader(c))
    ensures forall rowId: nat, at: real :: O.Enabled(s.api, o) && o.Commit? && rowId !in s.outbox.rows ==>
                                             Enabled(settings, s, CommitOrder(o.c, o.acknowledged, rowId, at))
    ensures P.Enabled(settings, s.outbox, p) && p.Deliver? && SameTopic(s.outbox.topic, s.reader.topic) ==>
              Enabled(settings, s, Deliver(p.message, p.partition))
  {
  }

  /* ---- end to end ---- */

  ghost function Committed(s: State): Db { s.api.world.db }

  lemma BooksHold(s: O.State)
    requires O.Inv(s)
    ensures Books(s.world.db)
  {
    OrderTheorems.CurrentIsReplay(s.world);
    HistoryKeepsBooks(s.world.log);
  }

  /** Record (p, o) is the event of the i-th committed order. */
  ghost predicate Announces(s: State, p: nat, o: nat, i: nat) {
    && C.InTopic(s.reader.topic, p, o) && i < |Committed(s).orders| == |Committed(s).outbox|
    && Committed(s).outbox[i] == BuildOrderCreatedMessage(Committed(s).orders[i], Committed(s).outbox[i].eventId)
    && s.reader.topic[p][o] == RecordOf(BuildEnvelope(Committed(s).outbox[i]))
  }

  /** The event of an order, as the consumer reads it. */
  ghost function Announcement(order: Order, eventId: Uuid): Reception {
    Deliverable(eventId, order.id, order.customer, PayloadFields(order))
  }

  /** Nothing reaches the topic but events of committed orders. */
  lemma RecordsAnnounceOrders(settings: Settings, config: Config, s: State, p: nat, o: nat) returns (i: nat)
    requires Inv(settings, config, s) && C.InTopic(s.reader.topic, p, o)
    ensures Announces(s, p, o, i)
  {
    BooksHold(s.api);
    var sent := s.outbox.topic[p][o];
    assert P.FromHanded(s.outbox.handed, sent);
    var message :| message in s.outbox.handed && BuildEnvelope(message) == sent;
    var id :| id in s.outbox.rows && s.outbox.rows[id].message == message;
    assert message in Committed(s).outbox;
    i :| 0 <= i < |Committed(s).outbox| && Committed(s).outbox[i] == message;
  }

  lemma AnnouncedReads(s: State, p: nat, o: nat, i: nat)
    requires Announces(s, p, o, i)
    ensures Receive(s.reader.topic[p][o].value) == Announcement(Committed(s).orders[i], Committed(s).outbox[i].eventId)
  {
    OwnEventIsDeliverable(Committed(s).orders[i], Committed(s).outbox[i].eventId, PayloadFields(Committed(s).orders[i]));
  }

  ghost predicate Notifies(s: State, e: Uuid, n: Notification, i: nat) {
    && i < |Committed(s).orders| == |Committed(s).outbox|
    && e == Committed(s).outbox[i].eventId
    && n == Notification(Committed(s).orders[i].id, Committed(s).orders[i].customer, PayloadFields(Committed(s).orders[i]))
  }

  /** Every notification is about a committed order and says what its event says. */
  lemma NotificationsAreTrue(settings: Settings, attempts: int, s: State, e: Uuid) returns (i: nat)
    requires Inv(settings, DeployedConfig(attempts), s) && e in s.reader.store.notifications
    ensures Notifies(s, e, s.reader.store.notifications[e], i)
    ensures i < |Committed(s).orders| == |Committed(s).outbox| && e == Committed(s).outbox[i].eventId
    ensures
      var order := Committed(s).orders[i];
      && s.reader.store.notifications[e].orderId == order.id && s.reader.store.notifications[e].customerId == order.customer
      &&
      ReadPayload(s.reader.store.notifications[e].payload)
      == Some(PayloadOrder(order.id, order.customer, SumOfLines(order.items), order.createdAt, order.items))
  {
    var config, n := DeployedConfig(attempts), s.reader.store.notifications[e];
    assert C.FromRecord(config, s.reader.topic, e, n);
    var p: nat, o: nat :| C.InTopic(s.reader.topic, p, o)
                          && config.receive(s.reader.topic[p][o].value) == Deliverable(e, n.orderId, n.customerId, n.payload);
    i := RecordsAnnounceOrders(settings, config, s, p, o);
    AnnouncedReads(s, p, o, i);
    BooksHold(s.api);
    assert SoundOrder(Committed(s).orders[i]);
    TotalIsSum(Committed(s).orders[i].items);
    PayloadReadsBack(Committed(s).orders[i]);
  }

  /** An order is notified at most once, however often its event was sent, read or retried. */
  lemma AtMostOneNotification(settings: Settings, attempts: int, s: State, d: Uuid, e: Uuid)
    requires Inv(settings, DeployedConfig(attempts), s)
    requires d in s.reader.store.notifications && e in s.reader.store.notifications
    requires s.reader.store.notifications[d].orderId == s.reader.store.notifications[e].orderId
    ensures d == e
  {
    BooksHold(s.api);
    var i := NotificationsAreTrue(settings, attempts, s, d);
    var j := NotificationsAreTrue(settings, attempts, s, e);
    assert i == j;
  }

  /** The service's own events are dead-lettered only after the last allowed failure, never as unreadable. */
  lemma OnlyExhaustedIsDeadLettered(settings: Settings, attempts: int, s: State, k: nat) returns (i: nat)
    requires Inv(settings, DeployedConfig(attempts), s) && k < |s.reader.store.dlq|
    ensures s.reader.store.dlq[k].cause == Exhaustion(FailureLimit(DeployedConfig(attempts)))
    ensures Announces(s, s.reader.store.dlq[k].partition, s.reader.store.dlq[k].offset, i)
    ensures s.reader.store.dlq[k].value == BuildEnvelope(Committed(s).outbox[i]).value
    ensures ParseUuid(s.reader.store.dlq[k].key) == Some(Committed(s).orders[i].id)
  {
    var letter := s.reader.store.dlq[k];
    assert C.QuotesRecord(DeployedConfig(attempts), s.reader.topic, letter);
    i := RecordsAnnounceOrders(settings, DeployedConfig(attempts), s, letter.partition, letter.offset);
    AnnouncedReads(s, letter.partition, letter.offset, i);
    EnvelopeIsLabelled(Committed(s).outbox[i]);
  }

  /* ---- no silent loss ---- */

  ghost predicate InDlq(store: Store, p: nat, o: nat) {
    exists k :: 0 <= k < |store.dlq| && store.dlq[k].partition == p && store.dlq[k].offset == o
  }

  ghost predicate Notified(s: State, i: nat)
    requires i < |Committed(s).orders| == |Committed(s).outbox|
  {
    var e := Committed(s).outbox[i].eventId;
    && e in s.reader.store.notifications
    && Notifies(s, e, s.reader.store.notifications[e], i)
  }

  ghost predicate SetAside(s: State, i: nat) {
    exists p: nat, o: nat :: Announces(s, p, o, i) && InDlq(s.reader.store, p, o)
  }

  lemma RowOfOrder(settings: Settings, config: Config, s: State, i: nat) returns (id: nat)
    requires Inv(settings, config, s) && i < |Committed(s).orders|
    ensures |Committed(s).orders| == |Committed(s).outbox| && id in s.outbox.rows && s.outbox.rows[id].message == Committed(s).outbox[i]
    ensures forall other :: other in s.outbox.rows && other != id ==> s.outbox.rows[other].message != Committed(s).outbox[i]
  {
    BooksHold(s.api);
    assert P.MessageOfRow(s.outbox.rows, Committed(s).outbox[i]);
    id :| id in s.outbox.rows && s.outbox.rows[id].message == Committed(s).outbox[i];
  }

  lemma PublishedIsAnnounced(settings: Settings, config: Config, s: State, i: nat, id: nat) returns (p: nat, o: nat)
    requires Inv(settings, config, s) && i < |Committed(s).orders| && id in s.outbox.rows
    requires |Committed(s).orders| == |Committed(s).outbox| && s.outbox.rows[id].message == Committed(s).outbox[i]
    requires s.outbox.rows[id].status.Published?
    ensures Announces(s, p, o, i)
  {
    BooksHold(s.api);
    assert P.OnTopic(s.outbox.topic, BuildEnvelope(Committed(s).outbox[i]));
    p, o :| 0 <= p < |s.outbox.topic| && 0 <= o < |s.outbox.topic[p]|
            && s.outbox.topic[p][o] == BuildEnvelope(Committed(s).outbox[i]);
  }

  lemma ReadMeansDealtWith(settings: Settings, attempts: int, s: State, i: nat, p: nat, o: nat)
    requires Inv(settings, DeployedConfig(attempts), s) && Announces(s, p, o, i)
    requires p < |s.reader.committed| && o < s.reader.committed[p]
    ensures Notified(s, i) || InDlq(s.reader.store, p, o)
  {
    var config := DeployedConfig(attempts);
    assert Handled(config, s.reader.store, MessageAt(s.reader.topic, p, o));
    AnnouncedReads(s, p, o, i);
    var e := Committed(s).outbox[i].eventId;
    if !InDlq(s.reader.store, p, o) {
      assert e in s.reader.store.notifications;
      var j := NotificationsAreTrue(settings, attempts, s, e);
      BooksHold(s.api);
      assert j == i;
    }
  }

  /** Every committed order has one outbox row; once that row is settled and the topic is read to its end, the order
      is notified, or a record of its event is in the dead-letter topic, or its row is FAILED after the last attempt. */
  lemma NoSilentLoss(settings: Settings, attempts: int, ss: seq<State>, ls: seq<Label>, n: nat, i: nat) returns (id: nat)
    requires IsRun(settings, DeployedConfig(attempts), ss, ls) && n < |ss| && i < |Committed(ss[n]).orders|
    ensures |Committed(ss[n]).orders| == |Committed(ss[n]).outbox|
    ensures id in ss[n].outbox.rows && ss[n].outbox.rows[id].message == Committed(ss[n]).outbox[i]
    ensures forall other :: other in ss[n].outbox.rows && other != id ==>
                              ss[n].outbox.rows[other].message != Committed(ss[n]).outbox[i]
    ensures
      var s, order, event := ss[n], Committed(ss[n]).orders[i], Committed(ss[n]).outbox[i];
      var row, store := s.outbox.rows[id], s.reader.store;
      row.status != Pending
      && (forall p :: 0 <= p < |s.reader.topic| ==> p < |s.reader.committed| && s.reader.committed[p] == |s.reader.topic[p]|) ==>
        || (event.eventId in store.notifications
            && store.notifications[event.eventId] == Notification(order.id, order.customer, PayloadFields(order)))
        || (exists k, p: nat, o: nat :: 0 <= k < |store.dlq| && store.dlq[k].partition == p && store.dlq[k].offset == o
                                        && C.InTopic(s.reader.topic, p, o)
                                        && s.reader.topic[p][o] == RecordOf(BuildEnvelope(event)))
        || (row.status == Failed && row.attempts == if settings.maxAttempts > 1 then settings.maxAttempts else 1)
  {
    var s := ss[n];
    RunKeepsInv(settings, DeployedConfig(attempts), ss, ls, n);
    id := RowOfOrder(settings, DeployedConfig(attempts), s, i);
    assert P.RowInv(settings, s.outbox.settled, id, s.outbox.rows[id]);
    if s.outbox.rows[id].status.Published?
       && (forall p :: 0 <= p < |s.reader.topic| ==> p < |s.reader.committed| && s.reader.committed[p] == |s.reader.topic[p]|) {
      var p, o := PublishedIsAnnounced(settings, DeployedConfig(attempts), s, i, id);
      ReadMeansDealtWith(settings, attempts, s, i, p, o);
    }
  }
}
