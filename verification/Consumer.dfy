/** The notification consumer: one message handled, retried and, when nothing else helps, dead-lettered. */
module Consumer {
  import opened Prelude
  import opened Texts
  import opened Json
  import opened Events

  datatype Record = Record(key: Option<string>, value: Option<string>)

  datatype Message = Message(partition: nat, offset: nat, record: Record)

  datatype Notification = Notification(orderId: Uuid, customerId: Uuid, payload: seq<Field>)

  datatype DeathCause = Malformation(reason: Reason) | Exhaustion(attempts: nat)

  /** A record of the dead-letter topic: the original bytes and where they came from. */
  datatype DeadLetter = DeadLetter(partition: nat, offset: nat, key: string, value: string, cause: DeathCause)

  /** Everything the consumer writes: the notifications table, unique on event_id, and the dead-letter topic. */
  datatype Store = Store(notifications: map<Uuid, Notification>, dlq: seq<DeadLetter>)

  /**
   * What the outside world does to one database commit, dead-letter send or offset commit. A failure may be
   * one the driver reports as transient, and it may be reported although the effect took place.
   */
  datatype Weather = Clear | Fails(transient: bool, effective: bool)

  datatype HandleOutcome = Stored | Duplicate | Skipped | DeadLettered

  datatype HandleResult = Completed(outcome: HandleOutcome) | TransientError | UnexpectedError

  /** The configured limit, and how a message body is read: Events.Receive for the deployed consumer. */
  datatype Config = Config(maxAttempts: int, receive: Option<string> -> Reception)

  function DeployedConfig(maxAttempts: int): Config { Config(maxAttempts, Receive) }

  /* ---- one attempt, as a function ---- */

  function OrEmpty(text: Option<string>): string { if text.Some? then text.value else "" }

  function LetterFor(message: Message, cause: DeathCause): DeadLetter {
    DeadLetter(message.partition, message.offset, OrEmpty(message.record.key), OrEmpty(message.record.value), cause)
  }

  function AddUnlessSeen(notifications: map<Uuid, Notification>, eventId: Uuid, n: Notification): map<Uuid, Notification> {
    if eventId in notifications then notifications else notifications[eventId := n]
  }

  function Bury(store: Store, message: Message, cause: DeathCause): Store {
    store.(dlq := store.dlq + [LetterFor(message, cause)])
  }

  /** The store after one call of handle. */
  function AfterHandle(config: Config, store: Store, message: Message, weather: Weather): Store {
    var happens := weather.Clear? || weather.effective;
    match config.receive(message.record.value)
    case Unhandled => store
    case Unreadable(reason) => if happens then Bury(store, message, Malformation(reason)) else store
    case Deliverable(eventId, orderId, customerId, payload) =>
      if happens then
        store.(notifications := AddUnlessSeen(store.notifications, eventId, Notification(orderId, customerId, payload)))
      else store
  }

  datatype Kind = Completes | FailsTransiently | FailsUnexpectedly

  /** How the call ends does not depend on the store. A failing dead-letter send is never a database error. */
  function KindOf(config: Config, message: Message, weather: Weather): Kind {
    match config.receive(message.record.value)
    case Unhandled => Completes
    case Unreadable(_) => if weather.Clear? then Completes else FailsUnexpectedly
    case Deliverable(_, _, _, _) =>
      if weather.Clear? then Completes else if weather.transient then FailsTransiently else FailsUnexpectedly
  }

  /** A message is dealt with: its notification exists, it is in the dead-letter topic, or nobody handles its type. */
  ghost predicate Handled(config: Config, store: Store, message: Message) {
    || (exists i :: 0 <= i < |store.dlq|
                    && store.dlq[i].partition == message.partition && store.dlq[i].offset == message.offset)
    || (match config.receive(message.record.value)
        case Unhandled => true
        case Unreadable(_) => false
        case Deliverable(eventId, _, _, _) => eventId in store.notifications)
  }

  /** Nothing already written is changed or removed. */
  ghost predicate Grows(before: Store, after: Store) {
    && before.dlq <= after.dlq
    && forall e :: e in before.notifications ==> e in after.notifications && after.notifications[e] == before.notifications[e]
  }

  lemma BuryHandles(config: Config, store: Store, message: Message, cause: DeathCause)
    ensures Handled(config, Bury(store, message, cause), message) && Grows(store, Bury(store, message, cause))
  {
    assert Bury(store, message, cause).dlq[|store.dlq|] == LetterFor(message, cause);
  }

  lemma HandleGrows(config: Config, store: Store, message: Message, weather: Weather)
    ensures Grows(store, AfterHandle(config, store, message, weather))
    ensures KindOf(config, message, weather).Completes? ==> Handled(config, AfterHandle(config, store, message, weather), message)
  {
    var reception := config.receive(message.record.value);
    if reception.Unreadable? {
      BuryHandles(config, store, message, Malformation(reception.reason));
    }
  }

  lemma HandledStays(config: Config, before: Store, after: Store, message: Message)
    requires Grows(before, after) && Handled(config, before, message)
    ensures Handled(config, after, message)
  {
    if i :| 0 <= i < |before.dlq|
            && before.dlq[i].partition == message.partition && before.dlq[i].offset == message.offset {
      assert after.dlq[i] == before.dlq[i];
    }
  }

  lemma GrowsFurther(a: Store, b: Store, c: Store)
    requires Grows(a, b) && Grows(b, c)
    ensures Grows(a, c)
  {
  }
}
