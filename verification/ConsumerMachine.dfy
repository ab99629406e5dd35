/**
 * Any number of consumer processes in one group: rebalances, crashes and restarts at any point, fetched batches
 * that outlive their assignment, commits and dead-letter sends that may take effect and still report an error.
 */
module ConsumerMachine {
  import opened Prelude
  import opened Texts
  import opened Events
  import opened Backoff
  import opened Consumer
  import opened ConsumerLoop
  import opened ConsumerWorker

  /** A fetched record that has not been committed past. */
  datatype Slot = Slot(partition: nat, offset: nat)

  /** Where a process stands with the first record in hand. */
  datatype Stage =
    | Polling
    | Working(transient: nat, unexpected: nat) // the two counters of process
    | GivingUp(attempts: nat)                  // the last allowed unexpected failure is counted
    | Committing                               // process returned True

  /** A live process; one that stopped, crashed or raised is not in the map. */
  datatype Member = Member(position: map<nat, nat>, hand: seq<Slot>, stage: Stage)

  datatype State = State(topic: Topic, store: Store, committed: seq<nat>, members: map<nat, Member>)

  datatype Label =
    | Append(partition: nat, record: Record)
    | Start(m: nat, partitions: set<nat>)
    | Rebalance(m: nat, partitions: set<nat>)
    | Poll(m: nat, batch: seq<Slot>, ends: map<nat, nat>)
    | Attempt(m: nat, weather: Weather)
    | GiveUp(m: nat, weather: Weather)
    | CommitOffset(m: nat, weather: Weather)
    | Stop(m: nat)

  ghost predicate InTopic(topic: Topic, p: nat, o: nat) { p < |topic| && o < |topic[p]| }

  /** What getmany may return: from each assigned partition the records from the position up to some end, in order. */
  ghost predicate Fetches(topic: Topic, position: map<nat, nat>, batch: seq<Slot>, ends: map<nat, nat>) {
    && ends.Keys == position.Keys
    && (forall p :: p in ends ==> p < |topic| && position[p] <= ends[p] <= |topic[p]|)
    && (forall p, o :: Slot(p, o) in batch <==> p in ends && position[p] <= o < ends[p])
    && (forall i, j :: 0 <= i < j < |batch| && batch[i].partition == batch[j].partition
                       ==> batch[i].offset < batch[j].offset)
  }

  ghost function Head(s: State, m: nat): Message
    requires m in s.members && s.members[m].hand != []
    requires InTopic(s.topic, s.members[m].hand[0].partition, s.members[m].hand[0].offset)
  {
    MessageAt(s.topic, s.members[m].hand[0].partition, s.members[m].hand[0].offset)
  }

  ghost predicate HasHead(s: State, m: nat) {
    && m in s.members && s.members[m].hand != []
    && InTopic(s.topic, s.members[m].hand[0].partition, s.members[m].hand[0].offset)
  }

  ghost predicate Enabled(s: State, l: Label) {
    match l
    case Append(p, _) => p < |s.topic|
    case Start(m, partitions) => m !in s.members && forall p :: p in partitions ==> p < |s.committed|
    case Rebalance(m, partitions) => m in s.members && forall p :: p in partitions ==> p < |s.committed|
    case Poll(m, batch, ends) =>
      m in s.members && s.members[m].stage.Polling? && Fetches(s.topic, s.members[m].position, batch, ends)
    case Attempt(m, _) => HasHead(s, m) && s.members[m].stage.Working?
    case GiveUp(m, _) => HasHead(s, m) && s.members[m].stage.GivingUp?
    case CommitOffset(m, _) => HasHead(s, m) && s.members[m].stage.Committing? && s.members[m].hand[0].partition < |s.committed|
    case Stop(m) => m in s.members
  }

  /** Assigned partitions are read from their committed offsets. */
  ghost function FromCommitted(committed: seq<nat>, partitions: set<nat>): map<nat, nat>
    requires forall p :: p in partitions ==> p < |committed|
  {
    map p | p in partitions :: committed[p]
  }

  ghost function WithHand(member: Member, hand: seq<Slot>): Member {
    member.(hand := hand, stage := if hand == [] then Polling else Working(0, 0))
  }

  /** How one attempt moves the loop of process; None: the backoff computation raised. */
  ghost function NextStage(config: Config, stage: Stage, kind: Kind): Option<Stage>
    requires stage.Working?
  {
    match kind
    case Completes => Some(Committing)
    case FailsTransiently =>
      var transient := stage.transient + 1;
      if CeilingRaises(transient) then None else Some(Working(transient, stage.unexpected))
    case FailsUnexpectedly =>
      var unexpected := stage.unexpected + 1;
      if unexpected >= config.maxAttempts then Some(GivingUp(unexpected))
      else if CeilingRaises(unexpected) then None
      else Some(Working(stage.transient, unexpected))
  }

  ghost function Staged(members: map<nat, Member>, m: nat, stage: Option<Stage>): map<nat, Member>
    requires m in members
  {
    if stage.None? then members - {m} else members[m := members[m].(stage := stage.value)]
  }

  ghost function Step(config: Config, s: State, l: Label): State
    requires Enabled(s, l)
  {
    match l
    case Append(p, record) => s.(topic := s.topic[p := s.topic[p] + [record]])
    case Start(m, partitions) => s.(members := s.members[m := Member(FromCommitted(s.committed, partitions), [], Polling)])
    case Rebalance(m, partitions) =>
      s.(members := s.members[m := s.members[m].(position := FromCommitted(s.committed, partitions))])
    case Poll(m, batch, ends) =>
      s.(members := s.members[m := WithHand(s.members[m].(position := ends), batch)])
    case Attempt(m, weather) =>
      s.(store := AfterHandle(config, s.store, Head(s, m), weather),
         members := Staged(s.members, m, NextStage(config, s.members[m].stage, KindOf(config, Head(s, m), weather))))
    case GiveUp(m, weather) =>
      var letter := Exhaustion(s.members[m].stage.attempts);
      s.(store := if Happens(weather) then Bury(s.store, Head(s, m), letter) else s.store,
         members := Staged(s.members, m, if weather.Clear? then Some(Committing) else None))
    case CommitOffset(m, weather) =>
      var member := s.members[m];
      var head := member.hand[0];
      s.(committed := if Happens(weather) then s.committed[head.partition := head.offset + 1] else s.committed,
         members := if weather.Clear? then s.members[m := WithHand(member, member.hand[1..])] else s.members - {m})
    case Stop(m) => s.(members := s.members - {m})
  }

  ghost predicate IsStart(s: State) {
    && s.store == Store(map[], []) && s.members == map[]
    && |s.committed| == |s.topic|
    && forall p :: 0 <= p < |s.topic| ==> s.topic[p] == [] && s.committed[p] == 0
  }

  ghost predicate IsRun(config: Config, ss: seq<State>, ls: seq<Label>) {
    && |ss| == |ls| + 1
    && IsStart(ss[0])
    && forall i :: 0 <= i < |ls| ==> Enabled(ss[i], ls[i]) && ss[i + 1] == Step(config, ss[i], ls[i])
  }

  /* ---- the invariant ---- */

  ghost predicate HandledAt(config: Config, topic: Topic, store: Store, p: nat, o: nat) {
    InTopic(topic, p, o) && Handled(config, store, MessageAt(topic, p, o))
  }

  ghost predicate Earlier(hand: seq<Slot>, i: nat, slot: Slot)
    requires i <= |hand|
  {
    exists j :: 0 <= j < i && hand[j] == slot
  }

  /** Below a position everything is dealt with or in hand. */
  ghost predicate PositionInv(config: Config, topic: Topic, store: Store, member: Member) {
    && (forall p :: p in member.position ==> p < |topic| && member.position[p] <= |topic[p]|)
    && (forall p, o :: p in member.position && 0 <= o < member.position[p] ==>
                         HandledAt(config, topic, store, p, o) || Slot(p, o) in member.hand)
  }

  /** Before a record in hand everything of its partition is dealt with or in hand in front of it. */
  ghost predicate HandInv(config: Config, topic: Topic, store: Store, hand: seq<Slot>) {
    && (forall i :: 0 <= i < |hand| ==> InTopic(topic, hand[i].partition, hand[i].offset))
    && (forall i, o :: 0 <= i < |hand| && 0 <= o < hand[i].offset ==>
                         HandledAt(config, topic, store, hand[i].partition, o)
                         || Earlier(hand, i, Slot(hand[i].partition, o)))
  }

  ghost predicate StageInv(config: Config, topic: Topic, store: Store, member: Member) {
    && (member.stage.Polling? <==> member.hand == [])
    && match member.stage
       case Polling => true
       case Working(_, unexpected) => unexpected < FailureLimit(config)
       case GivingUp(attempts) =>
         && attempts == FailureLimit(config)
         && InTopic(topic, member.hand[0].partition, member.hand[0].offset)
         && !config.receive(topic[member.hand[0].partition][member.hand[0].offset].value).Unhandled?
       case Committing => HandledAt(config, topic, store, member.hand[0].partition, member.hand[0].offset)
  }

  ghost predicate MemberInv(config: Config, topic: Topic, store: Store, member: Member) {
    && PositionInv(config, topic, store, member)
    && HandInv(config, topic, store, member.hand)
    && StageInv(config, topic, store, member)
  }

  /** A stored notification says what some record says. */
  ghost predicate FromRecord(config: Config, topic: Topic, e: Uuid, n: Notification) {
    exists p: nat, o: nat :: InTopic(topic, p, o)
                   && config.receive(topic[p][o].value) == Deliverable(e, n.orderId, n.customerId, n.payload)
  }

  /** A dead letter quotes a record, and is there because that cannot be read or used up all its attempts. */
  ghost predicate QuotesRecord(config: Config, topic: Topic, letter: DeadLetter) {
    && InTopic(topic, letter.partition, letter.offset)
    && var message := MessageAt(topic, letter.partition, letter.offset);
       && letter == LetterFor(message, letter.cause)
       && match letter.cause
          case Malformation(reason) => config.receive(message.record.value) == Unreadable(reason)
          case Exhaustion(attempts) => attempts == FailureLimit(config) && !config.receive(message.record.value).Unhandled?
  }

  ghost predicate StoreInv(config: Config, topic: Topic, store: Store) {
    && (forall e :: e in store.notifications ==> FromRecord(config, topic, e, store.notifications[e]))
    && (forall i :: 0 <= i < |store.dlq| ==> QuotesRecord(config, topic, store.dlq[i]))
  }

  ghost predicate Inv(config: Config, s: State) {
    && OffsetSafe(config, s.topic, s.committed, s.store)
    && StoreInv(config, s.topic, s.store)
    && forall m :: m in s.members ==> MemberInv(config, s.topic, s.store, s.members[m])
  }

  /* ---- a longer topic and a fuller store ---- */

  ghost predicate Longer(before: Topic, after: Topic) {
    |before| == |after| && forall p :: 0 <= p < |before| ==> before[p] <= after[p]
  }

  lemma HandledAtStays(config: Config, t: Topic, a: Store, t': Topic, b: Store, p: nat, o: nat)
    requires Longer(t, t') && Grows(a, b) && HandledAt(config, t, a, p, o)
    ensures HandledAt(config, t', b, p, o)
  {
    HandledStays(config, a, b, MessageAt(t, p, o));
    assert MessageAt(t', p, o) == MessageAt(t, p, o);
  }

  lemma MemberStays(config: Config, t: Topic, a: Store, t': Topic, b: Store, member: Member)
    requires Longer(t, t') && Grows(a, b) && MemberInv(config, t, a, member)
    ensures MemberInv(config, t', b, member)
  {
    forall p, o | HandledAt(config, t, a, p, o)
      ensures HandledAt(config, t', b, p, o)
    {
      HandledAtStays(config, t, a, t', b, p, o);
    }
  }

  lemma SafeStays(config: Config, t: Topic, a: Store, t': Topic, b: Store, committed: seq<nat>)
    requires Longer(t, t') && Grows(a, b) && OffsetSafe(config, t, committed, a)
    ensures OffsetSafe(config, t', committed, b)
  {
    forall p, o | 0 <= p < |t'| && 0 <= o < committed[p]
      ensures Handled(config, b, MessageAt(t', p, o))
    {
      HandledAtStays(config, t, a, t', b, p, o);
    }
  }

  lemma StoreStays(config: Config, t: Topic, t': Topic, store: Store)
    requires Longer(t, t') && StoreInv(config, t, store)
    ensures StoreInv(config, t', store)
  {
    forall e | e in store.notifications
      ensures FromRecord(config, t', e, store.notifications[e])
    {
      var n := store.notifications[e];
      var p: nat, o: nat :| InTopic(t, p, o) && config.receive(t[p][o].value) == Deliverable(e, n.orderId, n.customerId, n.payload);
      assert InTopic(t', p, o) && t'[p][o] == t[p][o];
    }
    forall i | 0 <= i < |store.dlq|
      ensures QuotesRecord(config, t', store.dlq[i])
    {
      assert QuotesRecord(config, t, store.dlq[i]);
    }
  }

  /* ---- the steps ---- */

  lemma AppendKeeps(config: Config, s: State, p: nat, record: Record)
    requires Inv(config, s) && p < |s.topic|
    ensures Inv(config, Step(config, s, Append(p, record)))
  {
    var after := s.topic[p := s.topic[p] + [record]];
    SafeStays(config, s.topic, s.store, after, s.store, s.committed);
    StoreStays(config, s.topic, after, s.store);
    forall m | m in s.members
      ensures MemberInv(config, after, s.store, s.members[m])
    {
      MemberStays(config, s.topic, s.store, after, s.store, s.members[m]);
    }
  }

  lemma MoveMember(config: Config, s: State, m: nat, member: Member)
    requires Inv(config, s) && MemberInv(config, s.topic, s.store, member)
    ensures Inv(config, s.(members := s.members[m := member]))
  {
  }

  lemma AssignedHolds(config: Config, s: State, member: Member, partitions: set<nat>)
    requires Inv(config, s) && forall p :: p in partitions ==> p < |s.committed|
    requires HandInv(config, s.topic, s.store, member.hand) && StageInv(config, s.topic, s.store, member)
    requires member.position == FromCommitted(s.committed, partitions)
    ensures MemberInv(config, s.topic, s.store, member)
  {
    forall p, o | p in member.position && 0 <= o < member.position[p]
      ensures HandledAt(config, s.topic, s.store, p, o)
    {
      assert o < s.committed[p] <= |s.topic[p]|;
      assert Handled(config, s.store, MessageAt(s.topic, p, o));
    }
  }

  lemma FetchedHolds(config: Config, topic: Topic, store: Store, member: Member, batch: seq<Slot>, ends: map<nat, nat>)
    requires MemberInv(config, topic, store, member) && member.stage.Polling?
    requires Fetches(topic, member.position, batch, ends)
    ensures MemberInv(config, topic, store, WithHand(member.(position := ends), batch))
  {
    forall i | 0 <= i < |batch|
      ensures InTopic(topic, batch[i].partition, batch[i].offset)
    {
      assert Slot(batch[i].partition, batch[i].offset) in batch;
    }
    forall i, o | 0 <= i < |batch| && 0 <= o < batch[i].offset
      ensures HandledAt(config, topic, store, batch[i].partition, o) || Earlier(batch, i, Slot(batch[i].partition, o))
    {
      FetchedInOrder(config, topic, store, member, batch, ends, i, o);
    }
    forall p, o | p in ends && 0 <= o < ends[p]
      ensures HandledAt(config, topic, store, p, o) || Slot(p, o) in batch
    {
      assert o < member.position[p] ==> Slot(p, o) !in member.hand;
    }
  }

  lemma FetchedInOrder(
    config: Config, topic: Topic, store: Store, member: Member, batch: seq<Slot>, ends: map<nat, nat>, i: nat, o: nat)
    requires PositionInv(config, topic, store, member) && member.hand == []
    requires Fetches(topic, member.position, batch, ends) && i < |batch| && o < batch[i].offset
    ensures HandledAt(config, topic, store, batch[i].partition, o) || Earlier(batch, i, Slot(batch[i].partition, o))
  {
    var p := batch[i].partition;
    assert Slot(p, batch[i].offset) in batch;
    if o >= member.position[p] {
      assert Slot(p, o) in batch;
      var j :| 0 <= j < |batch| && batch[j] == Slot(p, o);
      assert j < i;
    } else {
      assert Slot(p, o) !in member.hand;
    }
  }

  /** A change of the store that only adds, and a member that moved on. */
  lemma MoveWithStore(config: Config, s: State, store: Store, m: nat, member: Option<Member>)
    requires Inv(config, s) && Grows(s.store, store) && StoreInv(config, s.topic, store)
    requires member.Some? ==> MemberInv(config, s.topic, store, member.value)
    ensures Inv(config, s.(store := store, members := if member.Some? then s.members[m := member.value] else s.members - {m}))
  {
    SafeStays(config, s.topic, s.store, s.topic, store, s.committed);
    forall k | k in s.members
      ensures MemberInv(config, s.topic, store, s.members[k])
    {
      MemberStays(config, s.topic, s.store, s.topic, store, s.members[k]);
    }
  }

  lemma BuryKeepsStore(config: Config, topic: Topic, store: Store, p: nat, o: nat, cause: DeathCause)
    requires StoreInv(config, topic, store) && InTopic(topic, p, o)
    requires QuotesRecord(config, topic, LetterFor(MessageAt(topic, p, o), cause))
    ensures StoreInv(config, topic, Bury(store, MessageAt(topic, p, o), cause))
  {
  }

  lemma HandleKeepsStore(config: Config, topic: Topic, store: Store, p: nat, o: nat, weather: Weather)
    requires StoreInv(config, topic, store) && InTopic(topic, p, o)
    ensures StoreInv(config, topic, AfterHandle(config, store, MessageAt(topic, p, o), weather))
  {
    var message := MessageAt(topic, p, o);
    match config.receive(message.record.value)
    case Unhandled =>
    case Unreadable(reason) => BuryKeepsStore(config, topic, store, p, o, Malformation(reason));
    case Deliverable(e, orderId, customerId, payload) =>
      assert FromRecord(config, topic, e, Notification(orderId, customerId, payload));
  }

  lemma StagedHolds(config: Config, topic: Topic, store: Store, member: Member, weather: Weather)
    requires MemberInv(config, topic, store, member) && member.stage.Working?
    requires InTopic(topic, member.hand[0].partition, member.hand[0].offset)
    ensures
      var message := MessageAt(topic, member.hand[0].partition, member.hand[0].offset);
      var next := NextStage(config, member.stage, KindOf(config, message, weather));
      next.Some? ==> MemberInv(config, topic, AfterHandle(config, store, message, weather), member.(stage := next.value))
  {
    var message := MessageAt(topic, member.hand[0].partition, member.hand[0].offset);
    HandleGrows(config, store, message, weather);
    MemberStays(config, topic, store, topic, AfterHandle(config, store, message, weather), member);
  }

  lemma AttemptKeeps(config: Config, s: State, m: nat, weather: Weather)
    requires Inv(config, s) && Enabled(s, Attempt(m, weather))
    ensures Inv(config, Step(config, s, Attempt(m, weather)))
  {
    var member, message := s.members[m], Head(s, m);
    HandleGrows(config, s.store, message, weather);
    HandleKeepsStore(config, s.topic, s.store, message.partition, message.offset, weather);
    StagedHolds(config, s.topic, s.store, member, weather);
    var next := NextStage(config, member.stage, KindOf(config, message, weather));
    MoveWithStore(
      config, s, AfterHandle(config, s.store, message, weather), m,
      if next.Some? then Some(member.(stage := next.value)) else None);
  }

  lemma GiveUpKeeps(config: Config, s: State, m: nat, weather: Weather)
    requires Inv(config, s) && Enabled(s, GiveUp(m, weather))
    ensures Inv(config, Step(config, s, GiveUp(m, weather)))
  {
    var member, message := s.members[m], Head(s, m);
    var cause := Exhaustion(member.stage.attempts);
    var store := if Happens(weather) then Bury(s.store, message, cause) else s.store;
    BuryHandles(config, s.store, message, cause);
    BuryKeepsStore(config, s.topic, s.store, message.partition, message.offset, cause);
    MemberStays(config, s.topic, s.store, s.topic, store, member);
    MoveWithStore(config, s, store, m, if weather.Clear? then Some(member.(stage := Committing)) else None);
  }

  lemma CommittedHolds(config: Config, topic: Topic, store: Store, member: Member)
    requires MemberInv(config, topic, store, member) && member.stage.Committing?
    ensures MemberInv(config, topic, store, WithHand(member, member.hand[1..]))
  {
    var rest := member.hand[1..];
    forall i, o | 0 <= i < |rest| && 0 <= o < rest[i].offset
      ensures HandledAt(config, topic, store, rest[i].partition, o) || Earlier(rest, i, Slot(rest[i].partition, o))
    {
      assert rest[i] == member.hand[i + 1];
      if !HandledAt(config, topic, store, rest[i].partition, o) {
        var j :| 0 <= j < i + 1 && member.hand[j] == Slot(rest[i].partition, o);
        assert j > 0 && rest[j - 1] == member.hand[j];
      }
    }
    forall p, o | p in member.position && 0 <= o < member.position[p]
      ensures HandledAt(config, topic, store, p, o) || Slot(p, o) in rest
    {
      if !HandledAt(config, topic, store, p, o) {
        var j :| 0 <= j < |member.hand| && member.hand[j] == Slot(p, o);
        assert j > 0 && rest[j - 1] == member.hand[j];
      }
    }
  }

  lemma OffsetAdvances(config: Config, s: State, m: nat)
    requires Inv(config, s) && HasHead(s, m) && s.members[m].stage.Committing?
    ensures
      var head := s.members[m].hand[0];
      OffsetSafe(config, s.topic, s.committed[head.partition := head.offset + 1], s.store)
  {
    var member := s.members[m];
    var head := member.hand[0];
    forall o | 0 <= o < head.offset + 1
      ensures Handled(config, s.store, MessageAt(s.topic, head.partition, o))
    {
      assert MemberInv(config, s.topic, s.store, member);
      assert o < head.offset ==> !Earlier(member.hand, 0, Slot(head.partition, o));
      assert HandledAt(config, s.topic, s.store, head.partition, o);
    }
  }

  lemma CommitKeeps(config: Config, s: State, m: nat, weather: Weather)
    requires Inv(config, s) && Enabled(s, CommitOffset(m, weather))
    ensures Inv(config, Step(config, s, CommitOffset(m, weather)))
  {
    OffsetAdvances(config, s, m);
    CommittedHolds(config, s.topic, s.store, s.members[m]);
  }

  lemma StepKeepsInv(config: Config, s: State, l: Label)
    requires Inv(config, s) && Enabled(s, l)
    ensures Inv(config, Step(config, s, l))
  {
    match l
    case Append(p, record) => AppendKeeps(config, s, p, record);
    case Start(m, partitions) =>
      var member := Member(FromCommitted(s.committed, partitions), [], Polling);
      AssignedHolds(config, s, member, partitions);
      MoveMember(config, s, m, member);
    case Rebalance(m, partitions) =>
      var member := s.members[m].(position := FromCommitted(s.committed, partitions));
      AssignedHolds(config, s, member, partitions);
      MoveMember(config, s, m, member);
    case Poll(m, batch, ends) =>
      FetchedHolds(config, s.topic, s.store, s.members[m], batch, ends);
      MoveMember(config, s, m, WithHand(s.members[m].(position := ends), batch));
    case Attempt(m, weather) => AttemptKeeps(config, s, m, weather);
    case GiveUp(m, weather) => GiveUpKeeps(config, s, m, weather);
    case CommitOffset(m, weather) => CommitKeeps(config, s, m, weather);
    case Stop(m) =>
  }

  lemma {:induction false} RunKeepsInv(config: Config, ss: seq<State>, ls: seq<Label>, n: nat)
    requires IsRun(config, ss, ls) && n < |ss|
    ensures Inv(config, ss[n])
  {
    if n > 0 {
      RunKeepsInv(config, ss, ls, n - 1);
      StepKeepsInv(config, ss[n - 1], ls[n - 1]);
    }
  }

  /** A run may start with any number of empty partitions, and any possible step continues it. */
  lemma RunStarts(config: Config, s: State)
    requires IsStart(s)
    ensures IsRun(config, [s], [])
  {
  }

  lemma RunNext(config: Config, ss: seq<State>, ls: seq<Label>, l: Label)
    requires IsRun(config, ss, ls) && Enabled(ss[|ls|], l)
    ensures IsRun(config, ss + [Step(config, ss[|ls|], l)], ls + [l])
  {
    var longer, labels := ss + [Step(config, ss[|ls|], l)], ls + [l];
    forall i | 0 <= i < |labels|
      ensures Enabled(longer[i], labels[i]) && longer[i + 1] == Step(config, longer[i], labels[i])
    {
      assert longer[i] == ss[i];
      assert i < |ls| ==> longer[i + 1] == ss[i + 1] && labels[i] == ls[i];
    }
  }

  /* ---- nobody is stuck ---- */

  /** The step a live process takes next, whatever it meets. */
  ghost function OwnStep(member: Member, m: nat, weather: Weather): Label {
    match member.stage
    case Polling => Poll(m, [], member.position)
    case Working(_, _) => Attempt(m, weather)
    case GivingUp(_) => GiveUp(m, weather)
    case Committing => CommitOffset(m, weather)
  }

  /** A live process can always take its next step, in any weather, and anybody can start. */
  lemma MemberCanStep(config: Config, s: State, m: nat, weather: Weather, partitions: set<nat>)
    requires Inv(config, s) && forall p :: p in partitions ==> p < |s.topic|
    ensures m in s.members ==> Enabled(s, OwnStep(s.members[m], m, weather))
    ensures m !in s.members ==> Enabled(s, Start(m, partitions))
  {
    if m in s.members {
      assert MemberInv(config, s.topic, s.store, s.members[m]);
    }
  }

  /** In clear weather an attempt deals with the record in hand, and the commit after it moves the offset past it. */
  lemma ClearWeatherCommits(config: Config, s: State, m: nat)
    requires Inv(config, s) && m in s.members && s.members[m].stage.Working?
    ensures
      var head := s.members[m].hand[0];
      Enabled(s, Attempt(m, Clear))
      && var tried := Step(config, s, Attempt(m, Clear));
         HandledAt(config, tried.topic, tried.store, head.partition, head.offset)
         && Enabled(tried, CommitOffset(m, Clear))
         && var after := Step(config, tried, CommitOffset(m, Clear));
            && after.committed == s.committed[head.partition := head.offset + 1]
            && m in after.members && after.members[m].hand == s.members[m].hand[1..]
  {
    assert MemberInv(config, s.topic, s.store, s.members[m]);
    HandleGrows(config, s.store, Head(s, m), Clear);
  }

  /* ---- the theorems ---- */

  /** Offset safety: below a committed offset every record is in the dead-letter topic, or of a type nobody handles, or its
      event is stored. */
  lemma NothingSkipped(config: Config, ss: seq<State>, ls: seq<Label>, n: nat, p: nat, o: nat)
    requires IsRun(config, ss, ls) && n < |ss| && p < |ss[n].committed| && o < ss[n].committed[p]
    ensures p < |ss[n].topic| && o < |ss[n].topic[p]|
    ensures
      var store, reception := ss[n].store, config.receive(ss[n].topic[p][o].value);
      || (exists i :: 0 <= i < |store.dlq| && store.dlq[i].partition == p && store.dlq[i].offset == o)
      || reception.Unhandled?
      || (reception.Deliverable? && reception.eventId in store.notifications)
  {
    RunKeepsInv(config, ss, ls, n);
    assert Handled(config, ss[n].store, MessageAt(ss[n].topic, p, o));
  }

  lemma StepGrows(config: Config, s: State, l: Label)
    requires Enabled(s, l)
    ensures Longer(s.topic, Step(config, s, l).topic) && Grows(s.store, Step(config, s, l).store)
  {
    match l
    case Attempt(m, weather) => HandleGrows(config, s.store, Head(s, m), weather);
    case GiveUp(m, _) => BuryHandles(config, s.store, Head(s, m), Exhaustion(s.members[m].stage.attempts));
    case _ =>
  }

  /** No step ever changes or removes a record, a notification or a dead letter. */
  lemma {:induction false} NothingLost(config: Config, ss: seq<State>, ls: seq<Label>, m: nat, n: nat)
    requires IsRun(config, ss, ls) && m <= n < |ss|
    ensures Longer(ss[m].topic, ss[n].topic) && Grows(ss[m].store, ss[n].store)
    ensures |ss[m].topic| == |ss[n].topic| && forall p :: 0 <= p < |ss[m].topic| ==> ss[m].topic[p] <= ss[n].topic[p]
    ensures ss[m].store.dlq <= ss[n].store.dlq
    ensures forall e :: e in ss[m].store.notifications ==>
                          e in ss[n].store.notifications && ss[n].store.notifications[e] == ss[m].store.notifications[e]
    decreases n - m
  {
    if m < n {
      NothingLost(config, ss, ls, m, n - 1);
      StepGrows(config, ss[n - 1], ls[n - 1]);
      GrowsFurther(ss[m].store, ss[n - 1].store, ss[n].store);
    }
  }

  /* ---- the machine's attempts are the loop of NotificationConsumer.Retry ---- */

  /** The stage after n attempts that meet weather(clock), weather(clock + 1), ...; None once the loop was left. */
  ghost function StageAfter(trial: Trial, n: nat): Option<Stage> {
    if n == 0 then Some(Working(0, 0))
    else
      var before := StageAfter(trial, n - 1);
      if before.Some? && before.value.Working? then NextStage(trial.config, before.value, trial.KindAt(n - 1)) else None
  }

  ghost predicate StageIs(trial: Trial, n: nat, stage: Option<Stage>) {
    && ((stage.Some? && stage.value.Working?) <==> Survives(trial, n))
    && (stage.Some? && stage.value.Working? ==>
          stage.value == Working(trial.Count(n, FailsTransiently), trial.Count(n, FailsUnexpectedly)))
    && ((stage.Some? && stage.value.GivingUp?) <==> LeavesAt(trial, Exit(Exhausted, n)))
    && (stage.Some? && stage.value.GivingUp? ==> stage.value.attempts == FailureLimit(trial.config))
    && ((stage.Some? && stage.value.Committing?) <==> LeavesAt(trial, Exit(Done, n)))
    && (stage.Some? ==> !stage.value.Polling?)
    && (n > 0 && Survives(trial, n - 1) ==> (stage.None? <==> LeavesAt(trial, Exit(Overflow, n))))
  }

  /**
   * The machine counts as the loop does: it works on exactly while the failures are survived, with the counts of
   * each kind, gives up, commits or goes down by overflow exactly when the loop is left that way.
   */
  lemma {:induction false} StageIsLoop(trial: Trial, n: nat)
    requires trial.clock + n <= trial.stopAt
    ensures StageIs(trial, n, StageAfter(trial, n))
  {
    if n > 0 {
      StageIsLoop(trial, n - 1);
      if Survives(trial, n) {
        SurvivedEarlier(trial, n - 1, n);
      }
    }
  }
}
