/** The worker around the consumer: poll, process record by record, commit each offset only after its record. */
module ConsumerWorker {
  import opened Consumer
  import opened ConsumerLoop

  /** The partitions as the broker holds them. */
  type Topic = seq<seq<Record>>

  /** What getmany returns for one partition. */
  datatype Group = Group(partition: nat, records: seq<Message>)

  function MessageAt(topic: Topic, p: nat, o: nat): Message
    requires p < |topic| && o < |topic[p]|
  {
    Message(p, o, topic[p][o])
  }

  /** Every record below a committed offset has been dealt with. */
  ghost predicate OffsetSafe(config: Config, topic: Topic, committed: seq<nat>, store: Store) {
    && |committed| == |topic|
    && (forall p :: 0 <= p < |topic| ==> committed[p] <= |topic[p]|)
    && forall p, o :: 0 <= p < |topic| && 0 <= o < committed[p] ==> Handled(config, store, MessageAt(topic, p, o))
  }

  /** A fetch continues exactly where the position of its partition stands. */
  ghost predicate Continues(topic: Topic, position: seq<nat>, group: Group) {
    && |position| == |topic| && group.partition < |topic|
    && position[group.partition] + |group.records| <= |topic[group.partition]|
    && forall i :: 0 <= i < |group.records| ==>
                     group.records[i] == MessageAt(topic, group.partition, position[group.partition] + i)
  }

  ghost function Past(position: seq<nat>, group: Group): seq<nat>
    requires group.partition < |position|
  {
    position[group.partition := position[group.partition] + |group.records|]
  }

  ghost function TailOf(group: Group): Group
    requires group.records != []
  {
    Group(group.partition, group.records[1..])
  }

  lemma TailContinues(topic: Topic, position: seq<nat>, group: Group)
    requires Continues(topic, position, group) && group.records != []
    ensures
      var next := position[group.partition := position[group.partition] + 1];
      && group.records[0] == MessageAt(topic, group.partition, position[group.partition])
      && Continues(topic, next, TailOf(group)) && Past(next, TailOf(group)) == Past(position, group)
  {
    forall i | 0 <= i < |group.records| - 1
      ensures group.records[1..][i] == MessageAt(topic, group.partition, position[group.partition] + 1 + i)
    {
      assert group.records[i + 1] == MessageAt(topic, group.partition, position[group.partition] + (i + 1));
    }
  }

  /** A batch lists its partitions one after the other. */
  ghost predicate ContinuesAll(topic: Topic, position: seq<nat>, groups: seq<Group>)
    decreases |groups|
  {
    groups != [] ==> Continues(topic, position, groups[0]) && ContinuesAll(topic, Past(position, groups[0]), groups[1..])
  }

  ghost function PastAll(topic: Topic, position: seq<nat>, groups: seq<Group>): seq<nat>
    requires ContinuesAll(topic, position, groups)
    decreases |groups|
  {
    if groups == [] then position else PastAll(topic, Past(position, groups[0]), groups[1..])
  }

  /** What the broker answers to a row of polls when each batch has been committed before the next one. */
  ghost predicate Answers(topic: Topic, position: seq<nat>, polls: seq<seq<Group>>)
    decreases |polls|
  {
    polls != [] ==> ContinuesAll(topic, position, polls[0]) && Answers(topic, PastAll(topic, position, polls[0]), polls[1..])
  }

  ghost function PastPolls(topic: Topic, position: seq<nat>, polls: seq<seq<Group>>): seq<nat>
    requires Answers(topic, position, polls)
    decreases |polls|
  {
    if polls == [] then position else PastPolls(topic, PastAll(topic, position, polls[0]), polls[1..])
  }

  lemma SafeForMore(config: Config, topic: Topic, committed: seq<nat>, before: Store, after: Store)
    requires OffsetSafe(config, topic, committed, before) && Grows(before, after)
    ensures OffsetSafe(config, topic, committed, after)
  {
    forall p, o | 0 <= p < |topic| && 0 <= o < committed[p]
      ensures Handled(config, after, MessageAt(topic, p, o))
    {
      HandledStays(config, before, after, MessageAt(topic, p, o));
    }
  }

  lemma SafeOneFurther(config: Config, topic: Topic, committed: seq<nat>, store: Store, p: nat)
    requires OffsetSafe(config, topic, committed, store) && p < |topic| && committed[p] < |topic[p]|
    requires Handled(config, store, MessageAt(topic, p, committed[p]))
    ensures OffsetSafe(config, topic, committed[p := committed[p] + 1], store)
  {
  }

  /* ---- what a worker does, record by record ---- */

  /** Offsets and stores, the tick the worker has reached, and whether it is still going. */
  datatype Progress = Progress(committed: seq<nat>, store: Store, now: nat, goesOn: bool)

  function Moved(committed: seq<nat>, message: Message): seq<nat> {
    if message.partition < |committed| then committed[message.partition := message.offset + 1] else committed
  }

  /** One worker process from its start to its stop event, and everything it will meet. */
  datatype Shift = Shift(config: Config, weather: nat -> Weather, stopAt: nat) {
    function TrialOf(s: Progress, message: Message): Trial {
      Trial(config, message, weather, s.now, stopAt)
    }

    /** The tick of the offset commit of a record begun in s. */
    ghost function CommitTick(s: Progress, message: Message): nat {
      s.now + ExitOf(TrialOf(s, message)).calls + 1
    }

    /** process returned True for the record, and the commit of its offset succeeded. */
    ghost predicate Passes(s: Progress, message: Message) {
      EndingFor(TrialOf(s, message)).ReturnedTrue? && weather(CommitTick(s, message)).Clear?
    }

    /** The offset moves exactly when process returned True and the commit took effect, reported or not. */
    ghost function AfterRecord(s: Progress, message: Message): Progress {
      var trial := TrialOf(s, message);
      var store := AfterExit(trial, s.store, ExitOf(trial));
      if EndingFor(trial).ReturnedTrue? then
        var commit := weather(CommitTick(s, message));
        Progress(
          if commit.Clear? || commit.effective then Moved(s.committed, message) else s.committed, store,
          CommitTick(s, message) + 1, commit.Clear?)
      else Progress(s.committed, store, CommitTick(s, message), false)
    }

    ghost function AfterRecords(s: Progress, messages: seq<Message>): Progress
      decreases |messages|
    {
      if messages == [] || !s.goesOn then s else AfterRecords(AfterRecord(s, messages[0]), messages[1..])
    }

    ghost function AfterBatch(s: Progress, groups: seq<Group>): Progress
      decreases |groups|
    {
      if groups == [] || !s.goesOn then s else AfterBatch(AfterRecords(s, groups[0].records), groups[1..])
    }

    /** The stop event is only looked at between two batches, and inside process. */
    ghost function AfterPolls(s: Progress, polls: seq<seq<Group>>): Progress
      decreases |polls|
    {
      if polls == [] || !s.goesOn || s.now >= stopAt then s else AfterPolls(AfterBatch(s, polls[0]), polls[1..])
    }
  }

  /** The record in hand when a worker ended early, and the state it was begun in. */
  datatype Interruption = Interruption(at: Progress, message: Message)

  /** That record was the last one begun: process did not return True for it, or its offset commit reported an error. */
  ghost predicate Interrupts(shift: Shift, end: Progress, cause: Interruption) {
    && cause.at.goesOn && !shift.Passes(cause.at, cause.message)
    && end == shift.AfterRecord(cause.at, cause.message)
  }

  lemma {:induction false} RecordsInterrupted(shift: Shift, s: Progress, messages: seq<Message>) returns (cause: Interruption)
    requires s.goesOn && !shift.AfterRecords(s, messages).goesOn
    ensures cause.message in messages && Interrupts(shift, shift.AfterRecords(s, messages), cause)
    decreases |messages|
  {
    if shift.AfterRecord(s, messages[0]).goesOn {
      cause := RecordsInterrupted(shift, shift.AfterRecord(s, messages[0]), messages[1..]);
    } else {
      cause := Interruption(s, messages[0]);
    }
  }

  ghost predicate Lists(groups: seq<Group>, message: Message) {
    exists g :: 0 <= g < |groups| && message in groups[g].records
  }

  lemma {:induction false} BatchInterrupted(shift: Shift, s: Progress, groups: seq<Group>) returns (cause: Interruption)
    requires s.goesOn && !shift.AfterBatch(s, groups).goesOn
    ensures Lists(groups, cause.message) && Interrupts(shift, shift.AfterBatch(s, groups), cause)
    decreases |groups|
  {
    var next := shift.AfterRecords(s, groups[0].records);
    if next.goesOn {
      cause := BatchInterrupted(shift, next, groups[1..]);
      var g :| 0 <= g < |groups[1..]| && cause.message in groups[1..][g].records;
      assert groups[g + 1] == groups[1..][g];
    } else {
      cause := RecordsInterrupted(shift, s, groups[0].records);
    }
  }

  /** A worker that ends other than by the stop event ends because of one polled record, and leaves what that record left. */
  lemma {:induction false} WorkerInterrupted(shift: Shift, s: Progress, polls: seq<seq<Group>>) returns (cause: Interruption)
    requires s.goesOn && !shift.AfterPolls(s, polls).goesOn
    ensures exists k :: 0 <= k < |polls| && Lists(polls[k], cause.message)
    ensures Interrupts(shift, shift.AfterPolls(s, polls), cause)
    decreases |polls|
  {
    var next := shift.AfterBatch(s, polls[0]);
    if next.goesOn {
      cause := WorkerInterrupted(shift, next, polls[1..]);
      var k :| 0 <= k < |polls[1..]| && Lists(polls[1..][k], cause.message);
      assert polls[k + 1] == polls[1..][k];
    } else {
      cause := BatchInterrupted(shift, s, polls[0]);
    }
  }

  /** A record that completes and whose offset commit succeeds: the worker goes on, past it. */
  lemma CompletedRecordPasses(shift: Shift, s: Progress, message: Message)
    requires message.partition < |s.committed|
    requires Finishes(Trial(shift.config, message, shift.weather, s.now, shift.stopAt))
    requires shift.weather(shift.CommitTick(s, message)).Clear?
    ensures shift.Passes(s, message) && shift.AfterRecord(s, message).goesOn
    ensures shift.AfterRecord(s, message).committed == s.committed[message.partition := message.offset + 1]
    ensures Handled(shift.config, shift.AfterRecord(s, message).store, message)
  {
    AnswerIff(shift.TrialOf(s, message));
    ExitGrows(shift.TrialOf(s, message), s.store);
  }

  /** The same record while the stop event is set, or given up with a failing send, or overflowing: the worker ends before it. */
  lemma UnansweredRecordEnds(shift: Shift, s: Progress, message: Message)
    requires
      var trial := Trial(shift.config, message, shift.weather, s.now, shift.stopAt);
      && !Finishes(trial)
      && (Exhausts(trial) ==> !shift.weather(s.now + ExitOf(trial).calls).Clear?)
    ensures !shift.AfterRecord(s, message).goesOn && shift.AfterRecord(s, message).committed == s.committed
  {
    AnswerIff(shift.TrialOf(s, message));
  }

  /** In clear weather, with the stop event far enough off, a worker consumes whatever it polls. */
  lemma {:induction false} ClearWeatherGoesOn(config: Config, s: Progress, messages: seq<Message>, stopAt: nat)
    requires s.goesOn && s.now + 3 * |messages| < stopAt
    ensures
      var after := Shift(config, t => Clear, stopAt).AfterRecords(s, messages);
      && after.goesOn && after.now == s.now + 3 * |messages|
      && (forall i :: 0 <= i < |messages| ==> Handled(config, after.store, messages[i]))
      && Grows(s.store, after.store)
    decreases |messages|
  {
    if messages != [] {
      var shift := Shift(config, t => Clear, stopAt);
      var trial := shift.TrialOf(s, messages[0]);
      assert CompletesBy(trial, 0);
      LeavesOnce(trial, ExitOf(trial), Exit(Done, 1));
      AnswerIff(trial);
      ExitGrows(trial, s.store);
      var next := shift.AfterRecord(s, messages[0]);
      ClearWeatherGoesOn(config, next, messages[1..], stopAt);
      var after := shift.AfterRecords(next, messages[1..]);
      GrowsFurther(s.store, next.store, after.store);
      forall i | 0 <= i < |messages|
        ensures Handled(config, after.store, messages[i])
      {
        if i == 0 {
          HandledStays(config, next.store, after.store, messages[0]);
        } else {
          assert messages[i] == messages[1..][i - 1];
        }
      }
    }
  }

  /** With the database down for good a readable record ends the worker on its 1025th failure, unless it is stopped
      before; nothing is stored and no offset moves. */
  lemma DatabaseDownEndsWorker(config: Config, s: Progress, message: Message, stopAt: nat)
    requires config.receive(message.record.value).Deliverable?
    ensures
      var shift := Shift(config, (t: nat) => Fails(true, false), stopAt);
      var after := shift.AfterRecord(s, message);
      && after.committed == s.committed && after.store == s.store && !after.goesOn
      && (EndingFor(shift.TrialOf(s, message)).Raised? <==> s.now + 1025 <= stopAt)
      && (EndingFor(shift.TrialOf(s, message)).ReturnedFalse? <==> s.now + 1025 > stopAt)
  {
    StayingDownRaises(config, s.store, message, s.now, stopAt);
  }

  class Worker {
    const consumer: NotificationConsumer
    var committed: seq<nat>

    constructor (consumer: NotificationConsumer, committed: seq<nat>)
      ensures this.consumer == consumer && this.committed == committed
    {
      this.consumer := consumer;
      this.committed := committed;
    }

    ghost predicate Safe(topic: Topic)
      reads this, consumer
    {
      OffsetSafe(consumer.config, topic, committed, consumer.Contents())
    }

    ghost function ProgressAt(now: nat, goesOn: bool): Progress
      reads this, consumer
    {
      Progress(committed, consumer.Contents(), now, goesOn)
    }

    /** consumer.commit({partition: offset}) */
    method CommitOffset(p: nat, offset: nat, weather: Weather) returns (ok: bool)
      requires p < |committed|
      modifies this`committed
      ensures ok == weather.Clear?
      ensures committed == if weather.Clear? || weather.effective then old(committed)[p := offset] else old(committed)
    {
      if weather.Clear? || weather.effective {
        committed := committed[p := offset];
      }
      return weather.Clear?;
    }

    /** One record: process it, and only when that returned True move the offset past it. */
    method ConsumeRecord(ghost topic: Topic, message: Message, weather: nat -> Weather, clock: nat, stopAt: nat)
      returns (goesOn: bool, now: nat)
      requires Safe(topic)
      requires message.partition < |topic| && message.offset == committed[message.partition] < |topic[message.partition]|
      requires message == MessageAt(topic, message.partition, message.offset)
      modifies this`committed, consumer`notifications, consumer`dlq
      ensures
        var shift := Shift(consumer.config, weather, stopAt);
        && ProgressAt(now, goesOn) == shift.AfterRecord(old(ProgressAt(clock, true)), message)
        && (goesOn <==> shift.Passes(old(ProgressAt(clock, true)), message))
      ensures Safe(topic) && Grows(old(consumer.Contents()), consumer.Contents())
      ensures goesOn ==> committed == old(committed)[message.partition := message.offset + 1]
    {
      var ending, calls, _, _ := consumer.Process(message, weather, clock, stopAt);
      SafeForMore(consumer.config, topic, committed, old(consumer.Contents()), consumer.Contents());
      now := clock + calls + 1;
      if !ending.ReturnedTrue? {
        return false, now;
      }
      SafeOneFurther(consumer.config, topic, committed, consumer.Contents(), message.partition);
      goesOn := CommitOffset(message.partition, message.offset + 1, weather(now));
      now := now + 1;
    }

    /** The next record of a group whose remaining records lead to end. */
    method ConsumeNext(
      ghost topic: Topic, ghost rest: Group, message: Message, weather: nat -> Weather, clock: nat, stopAt: nat,
      ghost end: Progress)
      returns (goesOn: bool, now: nat)
      requires Safe(topic) && Continues(topic, committed, rest) && rest.records != [] && message == rest.records[0]
      requires end == Shift(consumer.config, weather, stopAt).AfterRecords(ProgressAt(clock, true), rest.records)
      modifies this`committed, consumer`notifications, consumer`dlq
      ensures Safe(topic) && Grows(old(consumer.Contents()), consumer.Contents())
      ensures goesOn ==>
                && Continues(topic, committed, TailOf(rest)) && Past(committed, TailOf(rest)) == Past(old(committed), rest)
                && end == Shift(consumer.config, weather, stopAt).AfterRecords(ProgressAt(now, true), TailOf(rest).records)
      ensures !goesOn ==> end == ProgressAt(now, false)
    {
      TailContinues(topic, committed, rest);
      goesOn, now := ConsumeRecord(topic, message, weather, clock, stopAt);
    }

    /** The inner loop over the records of one partition. */
    method ConsumeGroup(ghost topic: Topic, group: Group, weather: nat -> Weather, clock: nat, stopAt: nat)
      returns (goesOn: bool, now: nat)
      requires Safe(topic) && Continues(topic, committed, group)
      modifies this`committed, consumer`notifications, consumer`dlq
      ensures ProgressAt(now, goesOn)
           == Shift(consumer.config, weather, stopAt).AfterRecords(old(ProgressAt(clock, true)), group.records)
      ensures Safe(topic) && Grows(old(consumer.Contents()), consumer.Contents())
      ensures goesOn ==> committed == Past(old(committed), group)
    {
      now, goesOn := clock, true;
      ghost var shift := Shift(consumer.config, weather, stopAt);
      ghost var end := shift.AfterRecords(ProgressAt(clock, true), group.records);
      ghost var rest := group;
      for i := 0 to |group.records|
        invariant rest == Group(group.partition, group.records[i..])
        invariant goesOn && end == shift.AfterRecords(ProgressAt(now, true), rest.records)
        invariant Safe(topic) && Grows(old(consumer.Contents()), consumer.Contents())
        invariant Continues(topic, committed, rest) && Past(committed, rest) == Past(old(committed), group)
      {
        ghost var before := consumer.Contents();
        goesOn, now := ConsumeNext(topic, rest, group.records[i], weather, now, stopAt, end);
        GrowsFurther(old(consumer.Contents()), before, consumer.Contents());
        if !goesOn {
          return;
        }
        rest := TailOf(rest);
      }
    }

    /** One polled batch: partition after partition. */
    method ConsumeBatch(ghost topic: Topic, groups: seq<Group>, weather: nat -> Weather, clock: nat, stopAt: nat)
      returns (goesOn: bool, now: nat)
      requires Safe(topic) && ContinuesAll(topic, committed, groups)
      modifies this`committed, consumer`notifications, consumer`dlq
      ensures ProgressAt(now, goesOn)
           == Shift(consumer.config, weather, stopAt).AfterBatch(old(ProgressAt(clock, true)), groups)
      ensures Safe(topic) && Grows(old(consumer.Contents()), consumer.Contents())
      ensures goesOn ==> committed == PastAll(topic, old(committed), groups)
    {
      now, goesOn := clock, true;
      ghost var shift := Shift(consumer.config, weather, stopAt);
      ghost var end := shift.AfterBatch(ProgressAt(clock, true), groups);
      assert groups[0..] == groups;
      for g := 0 to |groups|
        invariant goesOn && end == shift.AfterBatch(ProgressAt(now, true), groups[g..])
        invariant Safe(topic) && Grows(old(consumer.Contents()), consumer.Contents())
        invariant ContinuesAll(topic, committed, groups[g..])
        invariant PastAll(topic, committed, groups[g..]) == PastAll(topic, old(committed), groups)
      {
        ghost var before := consumer.Contents();
        assert groups[g..][0] == groups[g] && groups[g..][1..] == groups[g + 1..];
        goesOn, now := ConsumeGroup(topic, groups[g], weather, now, stopAt);
        GrowsFurther(old(consumer.Contents()), before, consumer.Contents());
        if !goesOn {
          return;
        }
      }
    }

    /**
     * consume_notifications: poll and consume until the stop event is set, or a record is not finished, or an
     * exception escapes. Whatever ends it, no committed offset is past a record that was not dealt with; and
     * when nothing interrupted it, it polled until the stop event and the offsets are past everything polled.
     */
    method ConsumeNotifications(ghost topic: Topic, polls: seq<seq<Group>>, weather: nat -> Weather, stopAt: nat)
      returns (goesOn: bool, polled: nat, now: nat)
      requires Safe(topic) && Answers(topic, committed, polls)
      modifies this`committed, consumer`notifications, consumer`dlq
      ensures ProgressAt(now, goesOn)
           == Shift(consumer.config, weather, stopAt).AfterPolls(old(ProgressAt(0, true)), polls)
      ensures Safe(topic) && Grows(old(consumer.Contents()), consumer.Contents())
      ensures polled <= |polls|
      ensures goesOn && polled < |polls| ==> now >= stopAt
      ensures goesOn ==> && Answers(topic, committed, polls[polled..])
                         && PastPolls(topic, committed, polls[polled..]) == PastPolls(topic, old(committed), polls)
    {
      now, polled, goesOn := 0, 0, true;
      ghost var shift := Shift(consumer.config, weather, stopAt);
      ghost var end := shift.AfterPolls(ProgressAt(0, true), polls);
      assert polls[0..] == polls;
      while now < stopAt && polled < |polls|
        invariant polled <= |polls|
        invariant goesOn && end == shift.AfterPolls(ProgressAt(now, true), polls[polled..])
        invariant Safe(topic) && Grows(old(consumer.Contents()), consumer.Contents())
        invariant Answers(topic, committed, polls[polled..])
        invariant PastPolls(topic, committed, polls[polled..]) == PastPolls(topic, old(committed), polls)
        decreases |polls| - polled
      {
        ghost var before := consumer.Contents();
        assert polls[polled..][0] == polls[polled] && polls[polled..][1..] == polls[polled + 1..];
        goesOn, now := ConsumeBatch(topic, polls[polled], weather, now, stopAt);
        GrowsFurther(old(consumer.Contents()), before, consumer.Contents());
        polled := polled + 1;
        if !goesOn {
          return;
        }
      }
    }
  }
}
