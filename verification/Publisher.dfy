/** Outbox rows and how one batch of them is settled after its sends. */
module Publisher {
  import opened Prelude
  import opened Models
  import opened Backoff

  datatype Status = Pending | Published | Failed

  datatype Row = Row(
    message: OutboxMessage,
    status: Status,
    attempts: nat,
    availableAt: real,
    lastError: Option<string>,
    publishedAt: Option<real>,
    failedAt: Option<real>
  )

  datatype Settings = Settings(batchSize: nat, maxAttempts: int, base: real, cap: real)

  function FreshRow(message: OutboxMessage, availableAt: real): Row {
    Row(message, Pending, 0, availableAt, None, None, None)
  }

  /** How many failed settlements a row survives at most; a limit below one still allows one attempt. */
  function AttemptLimit(settings: Settings): (limit: nat)
    ensures limit >= 1 && limit >= settings.maxAttempts && (limit == 1 || limit == settings.maxAttempts)
  {
    if settings.maxAttempts > 1 then settings.maxAttempts else 1
  }

  /** The WHERE clause of claim_batch. */
  predicate Eligible(row: Row, now: real) {
    row.status.Pending? && row.availableAt <= now
  }

  /** What one message becomes: published, given up, or put back for later; u is the jitter draw. */
  function SettleRow(settings: Settings, row: Row, error: Option<string>, now: real, u: real): Row {
    if error.None? then row.(status := Published, publishedAt := Some(now), lastError := None)
    else
      var counted := row.(attempts := row.attempts + 1, lastError := error);
      if counted.attempts >= settings.maxAttempts then counted.(status := Failed, failedAt := Some(now))
      else counted.(availableAt := NextAttemptAt(now, counted.attempts, settings.base, settings.cap, u))
  }

  /** The power of two in the backoff of a rescheduled row overflows. */
  predicate SettleRaises(settings: Settings, row: Row, error: Option<string>) {
    error.Some? && row.attempts + 1 < settings.maxAttempts && CeilingRaises(row.attempts + 1)
  }

  datatype PublishOutcome = PublishOutcome(published: nat, rescheduled: nat, failed: nat) {
    function Claimed(): nat { published + rescheduled + failed }
  }

  function CountStatus(rows: seq<Row>, status: Status): nat {
    if rows == [] then 0
    else CountStatus(rows[..|rows| - 1], status) + (if rows[|rows| - 1].status == status then 1 else 0)
  }

  lemma {:induction false} CountsAddUp(rows: seq<Row>)
    ensures CountStatus(rows, Published) + CountStatus(rows, Pending) + CountStatus(rows, Failed) == |rows|
  {
    if rows != [] {
      CountsAddUp(rows[..|rows| - 1]);
    }
  }

  lemma CountNext(rows: seq<Row>, row: Row, status: Status)
    ensures CountStatus(rows + [row], status) == CountStatus(rows, status) + (if row.status == status then 1 else 0)
  {
    assert (rows + [row])[..|rows|] == rows;
  }

  ghost function Places(rows: seq<Row>, status: Status): set<nat> {
    set i: nat | i < |rows| && rows[i].status == status
  }

  lemma PlacesNext(front: seq<Row>, last: Row, status: Status)
    ensures Places(front + [last], status)
         == if last.status == status then Places(front, status) + {|front|} else Places(front, status)
  {
    var rows := front + [last];
    forall i: nat
      ensures i in Places(rows, status)
         <==> i in Places(front, status) || (i == |front| && last.status == status)
    {
      if i < |front| {
        assert rows[i] == front[i];
      }
    }
  }

  /** A count is the number of places with that status. */
  lemma {:induction false} CountIsSize(rows: seq<Row>, status: Status)
    ensures CountStatus(rows, status) == |Places(rows, status)|
  {
    if rows != [] {
      var front, last := rows[..|rows| - 1], rows[|rows| - 1];
      CountIsSize(front, status);
      PlacesNext(front, last, status);
      assert rows == front + [last];
    }
  }

  /** Which of the three each row becomes. */
  lemma SettledStatusIff(settings: Settings, row: Row, error: Option<string>, now: real, u: real)
    requires row.status.Pending?
    ensures
      var status := SettleRow(settings, row, error, now, u).status;
      && (status.Published? <==> error.None?)
      && (status.Failed? <==> error.Some? && row.attempts + 1 >= settings.maxAttempts)
      && (status.Pending? <==> error.Some? && row.attempts + 1 < settings.maxAttempts)
  {
  }

  /** The three counters agree with the rows settled so far. */
  ghost predicate Tallied(rows: seq<Row>, published: nat, rescheduled: nat, failed: nat) {
    && published == CountStatus(rows, Published)
    && rescheduled == CountStatus(rows, Pending)
    && failed == CountStatus(rows, Failed)
  }

  method CountOne(ghost rows: seq<Row>, ghost row: Row, status: Status, published: nat, rescheduled: nat, failed: nat)
    returns (published': nat, rescheduled': nat, failed': nat)
    requires row.status == status && Tallied(rows, published, rescheduled, failed)
    ensures Tallied(rows + [row], published', rescheduled', failed')
  {
    CountNext(rows, row, Published);
    CountNext(rows, row, Pending);
    CountNext(rows, row, Failed);
    published', rescheduled', failed' := published, rescheduled, failed;
    match status {
      case Published => published' := published + 1;
      case Pending => rescheduled' := rescheduled + 1;
      case Failed => failed' := failed + 1;
    }
  }

  /** A claimed message as the ORM holds it. */
  class MessageRow {
    const id: nat
    const message: OutboxMessage
    var status: Status
    var attempts: nat
    var availableAt: real
    var lastError: Option<string>
    var publishedAt: Option<real>
    var failedAt: Option<real>

    constructor (id: nat, row: Row)
      ensures this.id == id && Columns() == row
    {
      this.id := id;
      message := row.message;
      status := row.status;
      attempts := row.attempts;
      availableAt := row.availableAt;
      lastError := row.lastError;
      publishedAt := row.publishedAt;
      failedAt := row.failedAt;
    }

    function Columns(): Row
      reads this
    {
      Row(message, status, attempts, availableAt, lastError, publishedAt, failedAt)
    }

    /** One iteration of _settle. */
    method SettleOne(settings: Settings, error: Option<string>, now: real, u: real) returns (raised: bool)
      modifies this
      ensures raised == SettleRaises(settings, old(Columns()), error)
      ensures !raised ==> Columns() == SettleRow(settings, old(Columns()), error, now, u)
      ensures raised <==> error.Some? && old(attempts) + 1 < settings.maxAttempts && old(attempts) + 1 >= 1025
      ensures error.None? ==>
                && status == Published && publishedAt == Some(now) && lastError == None
                && attempts == old(attempts) && availableAt == old(availableAt) && failedAt == old(failedAt)
      ensures error.Some? && !raised ==>
                attempts == old(attempts) + 1 && lastError == error && publishedAt == old(publishedAt)
      ensures error.Some? && !raised && old(attempts) + 1 >= settings.maxAttempts ==>
                status == Failed && failedAt == Some(now) && availableAt == old(availableAt)
      ensures error.Some? && !raised && old(attempts) + 1 < settings.maxAttempts ==>
                && status == old(status) && failedAt == old(failedAt)
                && availableAt == now + u * RetryCeiling(old(attempts) + 1, settings.base, settings.cap)
    {
      raised := false;
      if error.None? {
        status := Published;
        publishedAt := Some(now);
        lastError := None;
        return;
      }
      attempts := attempts + 1;
      lastError := error;
      if attempts >= settings.maxAttempts {
        status := Failed;
        failedAt := Some(now);
      } else if CeilingRaises(attempts) {
        raised := true;
      } else {
        availableAt := NextAttemptAt(now, attempts, settings.base, settings.cap, u);
      }
    }
  }

  ghost function ColumnsOf(messages: seq<MessageRow>): (rows: seq<Row>)
    reads messages
    ensures |rows| == |messages| && forall i :: 0 <= i < |messages| ==> rows[i] == messages[i].Columns()
  {
    if messages == [] then []
    else ColumnsOf(messages[..|messages| - 1]) + [messages[|messages| - 1].Columns()]
  }

  /**
   * _settle over a claimed batch. None stands for the exception that rolls the whole cycle back.
   * Only the claimed rows may change.
   */
  method Settle(
    settings: Settings, messages: seq<MessageRow>, errors: seq<Option<string>>, now: real, draws: seq<real>)
    returns (outcome: Option<PublishOutcome>)
    requires |errors| == |messages| == |draws|
    requires forall i, j :: 0 <= i < j < |messages| ==> messages[i] != messages[j]
    requires forall i :: 0 <= i < |messages| ==> messages[i].status.Pending?
    modifies messages
    ensures outcome.None? <==>
            exists i :: 0 <= i < |messages| && SettleRaises(settings, old(messages[i].Columns()), errors[i])
    ensures outcome.Some? ==>
              forall i :: 0 <= i < |messages| ==>
                            messages[i].Columns()
                            == SettleRow(settings, old(messages[i].Columns()), errors[i], now, draws[i])
    ensures outcome.Some? ==>
              && outcome.value.published == CountStatus(ColumnsOf(messages), Published)
              && outcome.value.rescheduled == CountStatus(ColumnsOf(messages), Pending)
              && outcome.value.failed == CountStatus(ColumnsOf(messages), Failed)
              && outcome.value.Claimed() == |messages|
  {
    var published, rescheduled, failed := 0, 0, 0;
    ghost var done: seq<Row> := [];
    for k := 0 to |messages|
      invariant |done| == k
      invariant forall i :: 0 <= i < k ==> done[i] == messages[i].Columns()
      invariant forall i :: 0 <= i < k ==>
                              && !SettleRaises(settings, old(messages[i].Columns()), errors[i])
                              && messages[i].Columns()
                                 == SettleRow(settings, old(messages[i].Columns()), errors[i], now, draws[i])
      invariant forall i :: k <= i < |messages| ==> messages[i].Columns() == old(messages[i].Columns())
      invariant Tallied(done, published, rescheduled, failed)
    {
      var raised := messages[k].SettleOne(settings, errors[k], now, draws[k]);
      if raised {
        return None;
      }
      published, rescheduled, failed :=
        CountOne(done, messages[k].Columns(), messages[k].status, published, rescheduled, failed);
      done := done + [messages[k].Columns()];
    }
    assert done == ColumnsOf(messages);
    CountsAddUp(done);
    return Some(PublishOutcome(published, rescheduled, failed));
  }

  /** A row put back for later asked the backoff for an attempt in 1 .. max_attempts - 1, and is due within its ceiling. */
  lemma RescheduledInWindow(settings: Settings, row: Row, error: Option<string>, now: real, u: real)
    requires row.status.Pending? && error.Some? && SettleRow(settings, row, error, now, u).status.Pending?
    requires 0.0 <= settings.base && 0.0 <= settings.cap && 0.0 <= u <= 1.0
    ensures
      var after := SettleRow(settings, row, error, now, u);
      && 1 <= after.attempts <= settings.maxAttempts - 1
      && now <= after.availableAt <= now + RetryCeiling(after.attempts, settings.base, settings.cap)
  {
    JitterWindow(now, row.attempts + 1, settings.base, settings.cap, u);
  }

  /** The power of two in the backoff can overflow for no row at all exactly when the configured limit is at most 1025. */
  lemma PowerNeverOverflowsIff(settings: Settings)
    ensures (forall row, error :: !SettleRaises(settings, row, error)) <==> settings.maxAttempts <= 1025
  {
    if settings.maxAttempts > 1025 {
      var message := OutboxMessage(0, "", 0, "", 0, Json.Json.Null, "");
      var row := FreshRow(message, 0.0).(attempts := MAX_FLOAT_EXPONENT + 1);
      assert SettleRaises(settings, row, Some(""));
    }
  }
}
