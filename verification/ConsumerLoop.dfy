/** The retry loop of the consumer: what ends it, for every sequence of failures, and the class that runs it. */
module ConsumerLoop {
  import opened Texts
  import opened Backoff
  import opened Consumer

  /* ---- several attempts ---- */

  function AfterAttempts(config: Config, store: Store, message: Message, weather: nat -> Weather, start: nat, n: nat): Store {
    if n == 0 then store
    else AfterHandle(config, AfterAttempts(config, store, message, weather, start, n - 1), message, weather(start + n - 1))
  }

  function CountKind(config: Config, message: Message, weather: nat -> Weather, start: nat, n: nat, kind: Kind): nat {
    if n == 0 then 0
    else
      CountKind(config, message, weather, start, n - 1, kind)
      + (if KindOf(config, message, weather(start + n - 1)) == kind then 1 else 0)
  }

  lemma {:induction false} AttemptsGrow(config: Config, store: Store, message: Message, weather: nat -> Weather, start: nat, n: nat)
    ensures Grows(store, AfterAttempts(config, store, message, weather, start, n))
  {
    if n > 0 {
      AttemptsGrow(config, store, message, weather, start, n - 1);
      HandleGrows(config, AfterAttempts(config, store, message, weather, start, n - 1), message, weather(start + n - 1));
    }
  }

  /** How many unexpected failures a message survives; a limit below one still allows one. */
  function FailureLimit(config: Config): (limit: nat)
    ensures limit >= 1 && limit >= config.maxAttempts && (limit == 1 || limit == config.maxAttempts)
  {
    if config.maxAttempts > 1 then config.maxAttempts else 1
  }

  /* ---- one message in the loop of process ---- */

  /** A message and what it will meet: the attempt made at tick t meets weather(t), the stop event is set from stopAt on. */
  datatype Trial = Trial(config: Config, message: Message, weather: nat -> Weather, clock: nat, stopAt: nat) {
    function KindAt(i: nat): Kind { KindOf(config, message, weather(clock + i)) }

    /** How many of the first n attempts end this way. */
    function Count(n: nat, kind: Kind): nat { CountKind(config, message, weather, clock, n, kind) }
  }

  /** The first failure of a kind whose backoff overflows: 2.0 ** 1024 raises. */
  const OVERFLOW_AT: nat := MAX_FLOAT_EXPONENT + 2

  /** Why the retry loop was left, and after how many calls of handle. */
  datatype Halt = Done | Exhausted | Overflow | StopSet

  datatype Exit = Exit(halt: Halt, calls: nat)

  ghost predicate AllFail(trial: Trial, n: nat) {
    forall i :: 0 <= i < n ==> !trial.KindAt(i).Completes?
  }

  /** The first n attempts all failed and none of the failures was a last one. */
  ghost predicate Survives(trial: Trial, n: nat) {
    && AllFail(trial, n)
    && trial.Count(n, FailsTransiently) < OVERFLOW_AT
    && trial.Count(n, FailsUnexpectedly) < OVERFLOW_AT
    && trial.Count(n, FailsUnexpectedly) < FailureLimit(trial.config)
  }

  /** The loop is left this way after so many calls. */
  ghost predicate LeavesAt(trial: Trial, exit: Exit) {
    var n := exit.calls;
    if exit.halt.StopSet? then
      Survives(trial, n) && trial.clock + n >= trial.stopAt && (n > 0 ==> trial.clock + n == trial.stopAt)
    else
      && n > 0 && Survives(trial, n - 1) && trial.clock + n <= trial.stopAt
      && match exit.halt
         case Done => trial.KindAt(n - 1).Completes?
         case Exhausted => trial.Count(n, FailsUnexpectedly) == FailureLimit(trial.config)
         case Overflow =>
           && trial.Count(n, FailsUnexpectedly) < FailureLimit(trial.config)
           && (trial.Count(n, FailsTransiently) == OVERFLOW_AT || trial.Count(n, FailsUnexpectedly) == OVERFLOW_AT)
  }

  lemma {:induction false} CountsClimb(trial: Trial, m: nat, n: nat, kind: Kind)
    requires m <= n
    ensures trial.Count(m, kind) <= trial.Count(n, kind)
    decreases n - m
  {
    if m < n {
      CountsClimb(trial, m, n - 1, kind);
    }
  }

  lemma SurvivedEarlier(trial: Trial, m: nat, n: nat)
    requires m <= n && Survives(trial, n)
    ensures Survives(trial, m)
  {
    CountsClimb(trial, m, n, FailsTransiently);
    CountsClimb(trial, m, n, FailsUnexpectedly);
  }

  lemma LeftIsOver(trial: Trial, exit: Exit, n: nat)
    requires LeavesAt(trial, exit) && !exit.halt.StopSet? && exit.calls <= n
    ensures !Survives(trial, n)
  {
    if Survives(trial, n) {
      SurvivedEarlier(trial, exit.calls, n);
    }
  }

  /** There is only one way and one moment. */
  lemma LeavesOnce(trial: Trial, a: Exit, b: Exit)
    requires LeavesAt(trial, a) && LeavesAt(trial, b)
    ensures a == b
  {
    if a.calls != b.calls {
      var first, second := if a.calls < b.calls then a else b, if a.calls < b.calls then b else a;
      assert Survives(trial, second.calls - 1) by {
        if second.halt.StopSet? {
          SurvivedEarlier(trial, second.calls - 1, second.calls);
        }
      }
      if !first.halt.StopSet? {
        LeftIsOver(trial, first, second.calls - 1);
      }
    }
  }

  lemma {:induction false} LeavesSomehow(trial: Trial, n: nat) returns (exit: Exit)
    requires Survives(trial, n) && (n > 0 ==> trial.clock + n <= trial.stopAt)
    ensures LeavesAt(trial, exit)
    decreases trial.stopAt - n
  {
    if trial.clock + n >= trial.stopAt {
      exit := Exit(StopSet, n);
    } else if trial.KindAt(n).Completes? {
      exit := Exit(Done, n + 1);
    } else if trial.Count(n + 1, FailsUnexpectedly) == FailureLimit(trial.config) {
      exit := Exit(Exhausted, n + 1);
    } else if trial.Count(n + 1, FailsTransiently) == OVERFLOW_AT || trial.Count(n + 1, FailsUnexpectedly) == OVERFLOW_AT {
      exit := Exit(Overflow, n + 1);
    } else {
      exit := LeavesSomehow(trial, n + 1);
    }
  }

  /** How the loop is left. */
  ghost function ExitOf(trial: Trial): (exit: Exit)
    ensures LeavesAt(trial, exit)
  {
    assert exists exit :: LeavesAt(trial, exit) by {
      var exit := LeavesSomehow(trial, 0);
    }
    var exit :| LeavesAt(trial, exit);
    exit
  }

  /** One more attempt after n survived ones: which branch of the loop it takes. */
  lemma NextAttempt(trial: Trial, n: nat)
    requires Survives(trial, n) && trial.clock + n < trial.stopAt
    ensures
      var kind := trial.KindAt(n);
      var transient := trial.Count(n, FailsTransiently) + (if kind.FailsTransiently? then 1 else 0);
      var unexpected := trial.Count(n, FailsUnexpectedly) + (if kind.FailsUnexpectedly? then 1 else 0);
      && transient == trial.Count(n + 1, FailsTransiently) && unexpected == trial.Count(n + 1, FailsUnexpectedly)
      && (if kind.Completes? then ExitOf(trial) == Exit(Done, n + 1)
          else if kind.FailsTransiently? && CeilingRaises(transient) then ExitOf(trial) == Exit(Overflow, n + 1)
          else if kind.FailsUnexpectedly? && unexpected >= trial.config.maxAttempts then ExitOf(trial) == Exit(Exhausted, n + 1)
          else if kind.FailsUnexpectedly? && CeilingRaises(unexpected) then ExitOf(trial) == Exit(Overflow, n + 1)
          else Survives(trial, n + 1))
  {
    var kind := trial.KindAt(n);
    var transient, unexpected := trial.Count(n + 1, FailsTransiently), trial.Count(n + 1, FailsUnexpectedly);
    if !Survives(trial, n + 1) {
      var halt := if kind.Completes? then Done else if unexpected == FailureLimit(trial.config) then Exhausted else Overflow;
      LeavesOnce(trial, ExitOf(trial), Exit(halt, n + 1));
    }
  }

  lemma StopsHere(trial: Trial, n: nat)
    requires Survives(trial, n) && trial.clock + n >= trial.stopAt && (n > 0 ==> trial.clock + n <= trial.stopAt)
    ensures ExitOf(trial) == Exit(StopSet, n)
  {
    LeavesOnce(trial, ExitOf(trial), Exit(StopSet, n));
  }

  /* ---- exactly when each ending happens, for all inputs ---- */

  /** Before it completes, before the stop event and before the limit of unexpected failures, one kind fails 1025 times. */
  ghost predicate OverflowsBy(trial: Trial, n: nat) {
    && trial.clock + n <= trial.stopAt && AllFail(trial, n)
    && trial.Count(n, FailsUnexpectedly) < FailureLimit(trial.config)
    && (trial.Count(n, FailsTransiently) == OVERFLOW_AT || trial.Count(n, FailsUnexpectedly) == OVERFLOW_AT)
  }

  /** Before it completes and before the stop event, the unexpected failures reach their limit, no kind having overflowed. */
  ghost predicate ExhaustsBy(trial: Trial, n: nat) {
    && trial.clock + n <= trial.stopAt && AllFail(trial, n)
    && trial.Count(n, FailsUnexpectedly) == FailureLimit(trial.config) <= OVERFLOW_AT
    && trial.Count(n, FailsTransiently) < OVERFLOW_AT
  }

  /** The message completes on attempt n + 1, having survived n failures. */
  ghost predicate CompletesBy(trial: Trial, n: nat) {
    trial.clock + n < trial.stopAt && Survives(trial, n) && trial.KindAt(n).Completes?
  }

  ghost predicate Overflows(trial: Trial) { exists n: nat :: OverflowsBy(trial, n) }

  ghost predicate Exhausts(trial: Trial) { exists n: nat :: ExhaustsBy(trial, n) }

  ghost predicate Finishes(trial: Trial) { exists n: nat :: CompletesBy(trial, n) }

  lemma OverflowReached(trial: Trial, n: nat)
    requires OverflowsBy(trial, n)
    ensures ExitOf(trial).halt.Overflow?
  {
    var exit := ExitOf(trial);
    var k := exit.calls;
    if k <= n {
      CountsClimb(trial, k, n, FailsUnexpectedly);
    } else {
      SurvivedEarlier(trial, n, if exit.halt.StopSet? then k else k - 1);
    }
  }

  lemma ExhaustionReached(trial: Trial, n: nat)
    requires ExhaustsBy(trial, n)
    ensures ExitOf(trial).halt.Exhausted?
  {
    var exit := ExitOf(trial);
    var k := exit.calls;
    if k <= n {
      CountsClimb(trial, k, n, FailsTransiently);
      CountsClimb(trial, k, n, FailsUnexpectedly);
    } else {
      SurvivedEarlier(trial, n, if exit.halt.StopSet? then k else k - 1);
    }
  }

  /** The loop is left by an overflow, by exhaustion or by completion exactly when the inputs say so; else by the stop event. */
  lemma ExitIff(trial: Trial)
    ensures ExitOf(trial).halt.Overflow? <==> Overflows(trial)
    ensures ExitOf(trial).halt.Exhausted? <==> Exhausts(trial)
    ensures ExitOf(trial).halt.Done? <==> Finishes(trial)
  {
    var exit := ExitOf(trial);
    match exit.halt {
      case Overflow => assert OverflowsBy(trial, exit.calls);
      case Exhausted => assert ExhaustsBy(trial, exit.calls);
      case Done => assert CompletesBy(trial, exit.calls - 1);
      case StopSet =>
    }
    forall n: nat | OverflowsBy(trial, n)
      ensures exit.halt.Overflow?
    {
      OverflowReached(trial, n);
    }
    forall n: nat | ExhaustsBy(trial, n)
      ensures exit.halt.Exhausted?
    {
      ExhaustionReached(trial, n);
    }
    forall n: nat | CompletesBy(trial, n)
      ensures exit.halt.Done?
    {
      LeavesOnce(trial, exit, Exit(Done, n + 1));
    }
  }

  /* ---- the database is down ---- */

  ghost predicate TransientAt(weather: Weather) { weather.Fails? && weather.transient }

  lemma {:induction false} OutageCounts(trial: Trial, n: nat)
    requires trial.config.receive(trial.message.record.value).Deliverable?
    requires forall t :: trial.clock <= t < trial.clock + n ==> TransientAt(trial.weather(t))
    ensures trial.Count(n, FailsTransiently) == n && trial.Count(n, FailsUnexpectedly) == 0
    ensures AllFail(trial, n)
  {
    if n > 0 {
      OutageCounts(trial, n - 1);
      assert TransientAt(trial.weather(trial.clock + n - 1));
    }
  }

  /**
   * A database that is down for k attempts and then back: the message is retried until it succeeds if and only if
   * k is at most 1024. Otherwise the 1025th failure raises.
   */
  lemma RetriesUntilSuccessfulIff(trial: Trial, k: nat)
    requires trial.config.receive(trial.message.record.value).Deliverable?
    requires forall t :: trial.clock <= t < trial.clock + k ==> TransientAt(trial.weather(t))
    requires trial.weather(trial.clock + k).Clear? && trial.clock + k < trial.stopAt
    ensures ExitOf(trial) == if k <= 1024 then Exit(Done, k + 1) else Exit(Overflow, 1025)
  {
    if k < OVERFLOW_AT {
      OutageCounts(trial, k);
      LeavesOnce(trial, ExitOf(trial), Exit(Done, k + 1));
    } else {
      OutageCounts(trial, OVERFLOW_AT - 1);
      OutageCounts(trial, OVERFLOW_AT);
      LeavesOnce(trial, ExitOf(trial), Exit(Overflow, OVERFLOW_AT));
    }
  }

  /** A database that stays down, for good: the worker raises on failure 1025 unless it is stopped first, with nothing stored. */
  lemma StayingDownRaises(config: Config, store: Store, message: Message, clock: nat, stopAt: nat)
    requires config.receive(message.record.value).Deliverable?
    ensures
      var weather := (t: nat) => Fails(true, false);
      var trial := Trial(config, message, weather, clock, stopAt);
      && ExitOf(trial) == (if clock + 1025 <= stopAt then Exit(Overflow, 1025)
                           else Exit(StopSet, if clock <= stopAt then stopAt - clock else 0))
      && AfterAttempts(config, store, message, weather, clock, ExitOf(trial).calls) == store
  {
    var weather := (t: nat) => Fails(true, false);
    var trial := Trial(config, message, weather, clock, stopAt);
    var exit := if clock + OVERFLOW_AT <= stopAt then Exit(Overflow, OVERFLOW_AT)
                else Exit(StopSet, if clock <= stopAt then stopAt - clock else 0);
    OutageCounts(trial, exit.calls);
    if exit.halt.Overflow? {
      OutageCounts(trial, OVERFLOW_AT - 1);
    }
    LeavesOnce(trial, ExitOf(trial), exit);
    NothingStoredWhileDown(config, store, message, weather, clock, exit.calls);
  }

  lemma {:induction false} NothingStoredWhileDown(
    config: Config, store: Store, message: Message, weather: nat -> Weather, clock: nat, n: nat)
    requires forall t :: weather(t) == Fails(true, false)
    ensures AfterAttempts(config, store, message, weather, clock, n) == store
  {
    if n > 0 {
      NothingStoredWhileDown(config, store, message, weather, clock, n - 1);
    }
  }

  /* ---- stored, dead-lettered or both ---- */

  ghost predicate Happens(weather: Weather) { weather.Clear? || weather.effective }

  /** An event is stored after some attempts exactly when it was before or one of their commits took effect. */
  lemma {:induction false} StoredIff(
    config: Config, store: Store, message: Message, weather: nat -> Weather, start: nat, n: nat)
    requires config.receive(message.record.value).Deliverable?
    ensures
      var e := config.receive(message.record.value).eventId;
      var after := AfterAttempts(config, store, message, weather, start, n);
      && after.dlq == store.dlq
      && (e in after.notifications
          <==> e in store.notifications || exists t :: start <= t < start + n && Happens(weather(t)))
  {
    if n > 0 {
      StoredIff(config, store, message, weather, start, n - 1);
    }
  }

  /** The store once process has been left; after exhaustion the dead letter meets the weather of the next tick. */
  function AfterExit(trial: Trial, store: Store, exit: Exit): Store {
    var attempted := AfterAttempts(trial.config, store, trial.message, trial.weather, trial.clock, exit.calls);
    var last := trial.weather(trial.clock + exit.calls);
    if exit.halt.Exhausted? && (last.Clear? || last.effective) then
      Bury(attempted, trial.message, Exhaustion(FailureLimit(trial.config)))
    else attempted
  }

  /** A readable message is both stored and newly dead-lettered exactly when the attempts run out, the last send takes
      effect, and the event was stored before or some commit took effect although it reported an error. */
  lemma StoredAndDeadLetteredIff(trial: Trial, store: Store)
    requires trial.config.receive(trial.message.record.value).Deliverable?
    ensures
      var e, exit := trial.config.receive(trial.message.record.value).eventId, ExitOf(trial);
      var after := AfterExit(trial, store, exit);
      (e in after.notifications && after.dlq != store.dlq)
      <==> Exhausts(trial)
           && Happens(trial.weather(trial.clock + exit.calls))
           && (e in store.notifications || exists t :: trial.clock <= t < trial.clock + exit.calls && Happens(trial.weather(t)))
  {
    var exit := ExitOf(trial);
    ExitIff(trial);
    StoredIff(trial.config, store, trial.message, trial.weather, trial.clock, exit.calls);
    var attempted := AfterAttempts(trial.config, store, trial.message, trial.weather, trial.clock, exit.calls);
    assert |Bury(attempted, trial.message, Exhaustion(FailureLimit(trial.config))).dlq| == |attempted.dlq| + 1;
  }

  /** It does happen: every commit takes effect, and reports an unexpected error. */
  lemma StoredAndDeadLettered(config: Config, store: Store, message: Message) returns (trial: Trial)
    requires config.receive(message.record.value).Deliverable? && FailureLimit(config) <= OVERFLOW_AT
    ensures trial.config == config && trial.message == message
    ensures
      var after := AfterExit(trial, store, ExitOf(trial));
      config.receive(message.record.value).eventId in after.notifications && after.dlq != store.dlq
  {
    var n := FailureLimit(config);
    trial := Trial(config, message, t => Fails(false, true), 0, n);
    UnexpectedCounts(trial, n);
    assert ExhaustsBy(trial, n);
    ExitIff(trial);
    StoredAndDeadLetteredIff(trial, store);
    assert Happens(trial.weather(trial.clock + 0));
  }

  lemma {:induction false} UnexpectedCounts(trial: Trial, n: nat)
    requires trial.config.receive(trial.message.record.value).Deliverable?
    requires forall t :: trial.weather(t) == Fails(false, true)
    ensures trial.Count(n, FailsUnexpectedly) == n && trial.Count(n, FailsTransiently) == 0
    ensures AllFail(trial, n)
  {
    if n > 0 {
      UnexpectedCounts(trial, n - 1);
    }
  }

  /* ---- what process returns ---- */

  datatype Ending =
    | ReturnedTrue   // completed, or dead-lettered after the last unexpected failure
    | ReturnedFalse  // the stop event was set first
    | Raised         // the final dead-letter send or a backoff computation raised

  function EndingOf(halt: Halt, last: Weather): Ending {
    match halt
    case Done => ReturnedTrue
    case StopSet => ReturnedFalse
    case Overflow => Raised
    case Exhausted => if last.Clear? then ReturnedTrue else Raised
  }

  ghost function EndingFor(trial: Trial): Ending {
    EndingOf(ExitOf(trial).halt, trial.weather(trial.clock + ExitOf(trial).calls))
  }

  /**
   * The answer of process on its inputs: True exactly when the message completes, or is given up and its dead letter
   * is sent; an exception exactly when a backoff overflows or that send fails; False exactly when the stop event
   * comes first.
   */
  lemma AnswerIff(trial: Trial)
    ensures
      var answer, last := EndingFor(trial), trial.weather(trial.clock + ExitOf(trial).calls);
      && (answer == ReturnedTrue <==> Finishes(trial) || (Exhausts(trial) && last.Clear?))
      && (answer == Raised <==> Overflows(trial) || (Exhausts(trial) && !last.Clear?))
      && (answer == ReturnedFalse <==> !Finishes(trial) && !Exhausts(trial) && !Overflows(trial))
  {
    ExitIff(trial);
  }

  /** Whatever ends it, nothing is lost; and a message that process returned True for is dealt with. */
  lemma ExitGrows(trial: Trial, store: Store)
    ensures Grows(store, AfterExit(trial, store, ExitOf(trial)))
    ensures EndingFor(trial).ReturnedTrue? ==>
              Handled(trial.config, AfterExit(trial, store, ExitOf(trial)), trial.message)
  {
    var exit := ExitOf(trial);
    var attempted := AfterAttempts(trial.config, store, trial.message, trial.weather, trial.clock, exit.calls);
    AttemptsGrow(trial.config, store, trial.message, trial.weather, trial.clock, exit.calls);
    if exit.halt.Done? {
      var before := AfterAttempts(trial.config, store, trial.message, trial.weather, trial.clock, exit.calls - 1);
      assert trial.KindAt(exit.calls - 1).Completes?;
      HandleGrows(trial.config, before, trial.message, trial.weather(trial.clock + exit.calls - 1));
    } else if exit.halt.Exhausted? {
      BuryHandles(trial.config, attempted, trial.message, Exhaustion(FailureLimit(trial.config)));
      GrowsFurther(store, attempted, AfterExit(trial, store, exit));
    }
  }

  /** The consumer with the two places it writes to. */
  class NotificationConsumer {
    const config: Config
    var notifications: map<Uuid, Notification>
    var dlq: seq<DeadLetter>

    constructor (config: Config)
      ensures this.config == config && Contents() == Store(map[], [])
    {
      this.config := config;
      notifications := map[];
      dlq := [];
    }

    function Contents(): Store
      reads this
    {
      Store(notifications, dlq)
    }

    /** INSERT ... ON CONFLICT DO NOTHING RETURNING id: did this call store the row? */
    method InsertUnlessSeen(eventId: Uuid, n: Notification) returns (stored: bool)
      modifies this`notifications
      ensures stored <==> eventId !in old(notifications)
      ensures eventId in notifications && (stored ==> notifications[eventId] == n)
      ensures notifications == AddUnlessSeen(old(notifications), eventId, n)
    {
      stored := eventId !in notifications;
      if stored {
        notifications := notifications[eventId := n];
      }
    }

    method SendDeadLetter(message: Message, cause: DeathCause, weather: Weather) returns (ok: bool)
      modifies this`dlq
      ensures ok == weather.Clear?
      ensures Contents() == if weather.Clear? || weather.effective then Bury(old(Contents()), message, cause) else old(Contents())
    {
      if weather.Clear? || weather.effective {
        dlq := dlq + [LetterFor(message, cause)];
      }
      return weather.Clear?;
    }

    method Handle(message: Message, weather: Weather) returns (result: HandleResult)
      modifies this`notifications, this`dlq
      ensures Contents() == AfterHandle(config, old(Contents()), message, weather)
      ensures match KindOf(config, message, weather)
              case Completes => result.Completed?
              case FailsTransiently => result.TransientError?
              case FailsUnexpectedly => result.UnexpectedError?
      ensures
        var happens := weather.Clear? || weather.effective;
        match config.receive(message.record.value)
        case Unhandled => result == Completed(Skipped) && notifications == old(notifications) && dlq == old(dlq)
        case Unreadable(reason) =>
          && result == (if weather.Clear? then Completed(DeadLettered) else UnexpectedError)
          && notifications == old(notifications)
          && dlq == old(dlq) + (if happens then
                                  [DeadLetter(
                                     message.partition, message.offset,
                                     if message.record.key.Some? then message.record.key.value else "",
                                     if message.record.value.Some? then message.record.value.value else "",
                                     Malformation(reason))]
                                else [])
        case Deliverable(e, orderId, customerId, payload) =>
          && result == (if weather.Clear? then Completed(if e in old(notifications) then Duplicate else Stored)
                        else if weather.transient then TransientError else UnexpectedError)
          && notifications == (if happens && e !in old(notifications) then
                                 old(notifications)[e := Notification(orderId, customerId, payload)]
                               else old(notifications))
          && dlq == old(dlq)
    {
      match config.receive(message.record.value) {
        case Unhandled =>
          return Completed(Skipped);
        case Unreadable(reason) =>
          var ok := SendDeadLetter(message, Malformation(reason), weather);
          return if ok then Completed(DeadLettered) else UnexpectedError;
        case Deliverable(eventId, orderId, customerId, payload) =>
          if weather.Fails? {
            if weather.effective {
              var _ := InsertUnlessSeen(eventId, Notification(orderId, customerId, payload));
            }
            return if weather.transient then TransientError else UnexpectedError;
          }
          var stored := InsertUnlessSeen(eventId, Notification(orderId, customerId, payload));
          return Completed(if stored then Stored else Duplicate);
      }
    }

    /** Attempt n of the loop, which started on the store first: which of the three branches runs. */
    method Attempt(message: Message, weather: nat -> Weather, clock: nat, n: nat, ghost first: Store) returns (kind: Kind)
      requires Contents() == AfterAttempts(config, first, message, weather, clock, n)
      modifies this`notifications, this`dlq
      ensures kind == KindOf(config, message, weather(clock + n))
      ensures Contents() == AfterAttempts(config, first, message, weather, clock, n + 1)
    {
      var result := Handle(message, weather(clock + n));
      match result {
        case Completed(_) => return Completes;
        case TransientError => return FailsTransiently;
        case UnexpectedError => return FailsUnexpectedly;
      }
    }

    /** The loop of process up to the point where it leaves, counting the two kinds of failure apart. */
    method Retry(message: Message, weather: nat -> Weather, clock: nat, stopAt: nat)
      returns (halt: Halt, calls: nat, transient: nat, unexpected: nat)
      modifies this`notifications, this`dlq
      ensures Exit(halt, calls) == ExitOf(Trial(config, message, weather, clock, stopAt))
      ensures transient == CountKind(config, message, weather, clock, calls, FailsTransiently)
      ensures unexpected == CountKind(config, message, weather, clock, calls, FailsUnexpectedly)
      ensures calls == transient + unexpected + (if halt.Done? then 1 else 0)
      ensures Contents() == AfterAttempts(config, old(Contents()), message, weather, clock, calls)
    {
      ghost var trial := Trial(config, message, weather, clock, stopAt);
      ghost var start := Contents();
      halt, calls, transient, unexpected := StopSet, 0, 0, 0;
      while clock + calls < stopAt
        invariant transient == trial.Count(calls, FailsTransiently)
        invariant unexpected == trial.Count(calls, FailsUnexpectedly)
        invariant calls == transient + unexpected && halt.StopSet?
        invariant Survives(trial, calls) && (calls > 0 ==> clock + calls <= stopAt)
        invariant Contents() == AfterAttempts(config, start, message, weather, clock, calls)
        decreases stopAt - calls
      {
        NextAttempt(trial, calls);
        var kind := Attempt(message, weather, clock, calls, start);
        calls := calls + 1;
        match kind {
          case FailsTransiently =>
            transient := transient + 1;
            if CeilingRaises(transient) {
              halt := Overflow;
              break;
            }
          case FailsUnexpectedly =>
            unexpected := unexpected + 1;
            if unexpected >= config.maxAttempts {
              halt := Exhausted;
              break;
            }
            if CeilingRaises(unexpected) {
              halt := Overflow;
              break;
            }
          case Completes =>
            halt := Done;
            break;
        }
      }
      if halt.StopSet? {
        StopsHere(trial, calls);
      }
    }

    /**
     * process. How it ends is settled by the inputs (ExitIff): a message is given up exactly on its last allowed
     * unexpected failure, however many transient ones came between; the dead-letter send then meets the next tick.
     */
    method Process(message: Message, weather: nat -> Weather, clock: nat, stopAt: nat)
      returns (ending: Ending, calls: nat, transient: nat, unexpected: nat)
      modifies this`notifications, this`dlq
      ensures
        var trial := Trial(config, message, weather, clock, stopAt);
        var exit := ExitOf(trial);
        && calls == exit.calls && ending == EndingFor(trial)
        && transient == trial.Count(calls, FailsTransiently)
        && unexpected == trial.Count(calls, FailsUnexpectedly)
        && calls == transient + unexpected + (if exit.halt.Done? then 1 else 0)
        && Contents() == AfterExit(trial, old(Contents()), exit)
      ensures
        var trial := Trial(config, message, weather, clock, stopAt);
        && (ending == ReturnedTrue <==> Finishes(trial) || (Exhausts(trial) && weather(clock + calls).Clear?))
        && (ending == Raised <==> Overflows(trial) || (Exhausts(trial) && !weather(clock + calls).Clear?))
      ensures Grows(old(Contents()), Contents())
      ensures ending.ReturnedTrue? ==> Handled(config, Contents(), message)
    {
      var halt: Halt;
      halt, calls, transient, unexpected := Retry(message, weather, clock, stopAt);
      ExitGrows(Trial(config, message, weather, clock, stopAt), old(Contents()));
      AnswerIff(Trial(config, message, weather, clock, stopAt));
      match halt {
        case Done => ending := ReturnedTrue;
        case StopSet => ending := ReturnedFalse;
        case Overflow => ending := Raised;
        case Exhausted =>
          var ok := SendDeadLetter(message, Exhaustion(unexpected), weather(clock + calls));
          ending := if ok then ReturnedTrue else Raised;
      }
    }
  }
}
