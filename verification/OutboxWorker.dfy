/** One publisher process: the claim query, one publish_pending cycle, and the loop that repeats cycles. */
module OutboxWorker {
  import opened Prelude
  import opened Backoff
  import opened Events
  import opened Publisher
  import opened PublisherMachine

  /* ---- the claim query ---- */

  /** The ids the query may return: due, pending, and not locked by another transaction. */
  ghost function Claimable(rows: map<nat, Row>, locked: set<nat>, now: real): set<nat> {
    set id | id in rows && Eligible(rows[id], now) && id !in locked
  }

  ghost function ClaimsOf(rows: map<nat, Row>, ids: seq<nat>): (claims: seq<Claim>)
    requires forall id :: id in ids ==> id in rows
    ensures |claims| == |ids|
    ensures forall i :: 0 <= i < |ids| ==> claims[i] == Claim(ids[i], rows[ids[i]])
  {
    seq(|ids|, i requires 0 <= i < |ids| => assert ids[i] in ids; Claim(ids[i], rows[ids[i]]))
  }

  function Take(ids: seq<nat>, limit: nat): seq<nat> {
    if |ids| <= limit then ids else ids[..limit]
  }

  /** ORDER BY id LIMIT n FOR UPDATE SKIP LOCKED, with nobody else stepping in between. */
  ghost function ClaimBatch(rows: map<nat, Row>, locked: set<nat>, now: real, limit: nat): (claims: seq<Claim>)
    ensures |claims| <= limit
  {
    var ids := Ascending(Claimable(rows, locked, now));
    assert forall id :: id in Take(ids, limit) ==> id in ids;
    ClaimsOf(rows, Take(ids, limit))
  }

  lemma TakenIffFirst(ids: seq<nat>, claims: seq<Claim>, limit: nat, id: nat)
    requires Ascends(ids) && |claims| == |Take(ids, limit)|
    requires forall i :: 0 <= i < |claims| ==> claims[i].id == ids[i]
    ensures IdsAscend(claims)
    ensures Holds(claims, id) ==> id in ids
    ensures id in ids ==> Holds(claims, id) || (|claims| == limit && forall i :: 0 <= i < |claims| ==> claims[i].id < id)
  {
    if id in ids {
      var k :| 0 <= k < |ids| && ids[k] == id;
      if k < |claims| {
        assert claims[k].id == id;
      }
    }
  }

  /**
   * A claimed row is pending, due and unlocked, no row comes twice, and a row that is all three is left out only for
   * a full batch of smaller ids.
   */
  lemma ClaimTakesTheFirst(rows: map<nat, Row>, locked: set<nat>, now: real, limit: nat, id: nat)
    ensures
      var claims := ClaimBatch(rows, locked, now, limit);
      var due := id in rows && rows[id].status == Pending && rows[id].availableAt <= now && id !in locked;
      && IdsAscend(claims)
      && (Holds(claims, id) ==> due)
      && (due && !Holds(claims, id) ==> |claims| == limit && forall i :: 0 <= i < |claims| ==> claims[i].id < id)
  {
    TakenIffFirst(Ascending(Claimable(rows, locked, now)), ClaimBatch(rows, locked, now, limit), limit, id);
  }

  /** A claim comes back empty exactly when no row is pending, due and unlocked, or the batch size is zero. */
  lemma EmptyClaim(rows: map<nat, Row>, locked: set<nat>, now: real, limit: nat)
    ensures ClaimBatch(rows, locked, now, limit) == []
       <==> limit == 0 || forall id :: id in rows && rows[id].status == Pending && rows[id].availableAt <= now ==> id in locked
  {
    var ids := Claimable(rows, locked, now);
    assert |Ascending(ids)| == |ids|;
    if forall id :: id in rows && rows[id].status == Pending && rows[id].availableAt <= now ==> id in locked {
      assert ids == {};
    } else {
      var id :| id in rows && rows[id].status == Pending && rows[id].availableAt <= now && id !in locked;
      assert id in ids;
    }
  }

  lemma ClaimsAreFresh(rows: map<nat, Row>, locked: set<nat>, now: real, limit: nat)
    ensures
      var claims := ClaimBatch(rows, locked, now, limit);
      && IdsAscend(claims)
      && forall i :: 0 <= i < |claims| ==>
                       && claims[i].id in rows && claims[i].row == rows[claims[i].id] && claims[i].row.status.Pending?
  {
    var claims := ClaimBatch(rows, locked, now, limit);
    ClaimTakesTheFirst(rows, locked, now, limit, 0);
    forall i | 0 <= i < |claims|
      ensures claims[i].id in rows && claims[i].row == rows[claims[i].id] && claims[i].row.status.Pending?
    {
      assert Holds(claims, claims[i].id);
      ClaimTakesTheFirst(rows, locked, now, limit, claims[i].id);
    }
  }

  /* ---- one cycle ---- */

  /** A commit may take effect and still report an error. */
  datatype Moment = AtClaim | AtCommit(effective: bool)

  /** What the outside world does to one cycle. */
  datatype Cycle = Cycle(
    now: real,
    locked: set<nat>,              // rows other transactions hold
    claimed: seq<Claim>,           // what the claim query returns
    timedOut: bool,                // the sends as a whole took too long
    results: seq<Option<string>>,  // else what each send reported
    draws: seq<real>,
    failure: Option<Moment>,       // an exception of the database, if any
    others: map<nat, Row>          // rows other transactions write before the next cycle
  )

  const TIMEOUT := "TimeoutError"

  /** Every row counts as an error once the sends have timed out. */
  function SendErrors(cycle: Cycle): seq<Option<string>>
  {
    if cycle.timedOut then seq(|cycle.claimed|, i => Some(TIMEOUT)) else cycle.results
  }

  ghost predicate Answered(settings: Settings, rows: map<nat, Row>, cycle: Cycle) {
    && cycle.claimed == ClaimBatch(rows, cycle.locked, cycle.now, settings.batchSize)
    && |cycle.results| == |cycle.draws| == |cycle.claimed|
  }

  ghost predicate BatchRaises(settings: Settings, held: seq<Claim>, errors: seq<Option<string>>)
    requires |errors| == |held|
  {
    exists i :: 0 <= i < |held| && SettleRaises(settings, held[i].row, errors[i])
  }

  ghost predicate CycleFails(settings: Settings, cycle: Cycle)
    requires |cycle.results| == |cycle.claimed|
  {
    cycle.failure.Some? || BatchRaises(settings, cycle.claimed, SendErrors(cycle))
  }

  /** An exception that leaves the transaction uncommitted. */
  predicate RolledBack(cycle: Cycle) {
    cycle.failure.Some? && (cycle.failure.value.AtClaim? || !cycle.failure.value.effective)
  }

  /** The transaction of the cycle commits, whatever it reports. */
  ghost predicate TakesEffect(settings: Settings, cycle: Cycle)
    requires |cycle.results| == |cycle.claimed|
  {
    !RolledBack(cycle) && !BatchRaises(settings, cycle.claimed, SendErrors(cycle))
  }

  /** The committed table after a cycle: all of the batch is settled, or none of it. */
  ghost function AfterCycle(settings: Settings, rows: map<nat, Row>, cycle: Cycle): map<nat, Row> {
    if |cycle.results| != |cycle.claimed| || |cycle.draws| != |cycle.claimed| || !TakesEffect(settings, cycle) then rows
    else WriteBack(settings, rows, cycle.claimed, cycle.now, SendErrors(cycle), cycle.draws)
  }

  /** What became of send i, as the settlement sees it: any error once the sends as a whole timed out. */
  function ErrorOf(cycle: Cycle, i: nat): Option<string>
    requires i < |cycle.results|
  {
    if cycle.timedOut then Some("TimeoutError") else cycle.results[i]
  }

  /** A cycle takes effect exactly when no exception rolled it back: neither of the database, unless only the report of
      the commit was lost, nor of the backoff of a failed row on attempt 1025 or later. */
  lemma TakesEffectIff(settings: Settings, cycle: Cycle)
    requires |cycle.results| == |cycle.claimed|
    ensures TakesEffect(settings, cycle)
       <==> && (cycle.failure.None? || (cycle.failure.value.AtCommit? && cycle.failure.value.effective))
            && forall i :: 0 <= i < |cycle.claimed| && ErrorOf(cycle, i).Some? ==>
                             cycle.claimed[i].row.attempts + 1 < 1025
                             || cycle.claimed[i].row.attempts + 1 >= settings.maxAttempts
    ensures CycleFails(settings, cycle) <==> cycle.failure.Some? || !TakesEffect(settings, cycle)
  {
    forall i | 0 <= i < |cycle.claimed|
      ensures SendErrors(cycle)[i] == ErrorOf(cycle, i)
    {
    }
  }

  /** A cycle that takes effect settles each claimed row by its own send, and touches no other. */
  lemma CycleWrites(settings: Settings, rows: map<nat, Row>, cycle: Cycle, id: nat)
    requires Answered(settings, rows, cycle) && TakesEffect(settings, cycle) && id in rows
    ensures id in AfterCycle(settings, rows, cycle)
    ensures forall i :: 0 <= i < |cycle.claimed| && cycle.claimed[i].id == id ==>
                          AfterCycle(settings, rows, cycle)[id]
                          == SettleRow(settings, rows[id], ErrorOf(cycle, i), cycle.now, cycle.draws[i])
    ensures !Holds(cycle.claimed, id) ==> AfterCycle(settings, rows, cycle)[id] == rows[id]
  {
    ClaimsAreFresh(rows, cycle.locked, cycle.now, settings.batchSize);
    forall i | 0 <= i < |cycle.claimed| && cycle.claimed[i].id == id
      ensures id in AfterCycle(settings, rows, cycle)
      ensures AfterCycle(settings, rows, cycle)[id]
           == SettleRow(settings, rows[id], ErrorOf(cycle, i), cycle.now, cycle.draws[i])
    {
      WriteBackAt(settings, rows, cycle.claimed, cycle.now, SendErrors(cycle), cycle.draws, i);
    }
    if !Holds(cycle.claimed, id) {
      WriteBackElsewhere(settings, rows, cycle.claimed, cycle.now, SendErrors(cycle), cycle.draws, id);
    }
  }

  /* ---- the loop around the cycles ---- */

  datatype Pause = Straight | PollInterval | BackoffCap

  /** The worker sleeps for the poll interval exactly when the cycle succeeded and there was nothing it could claim. */
  ghost function PauseAfter(settings: Settings, rows: map<nat, Row>, cycle: Cycle): Pause
    requires Answered(settings, rows, cycle)
  {
    if CycleFails(settings, cycle) then BackoffCap
    else if settings.batchSize == 0 || Claimable(rows, cycle.locked, cycle.now) == {} then PollInterval
    else Straight
  }

  /** One turn of the loop on the committed table; other transactions write before the next. */
  ghost predicate Turn(settings: Settings, before: map<nat, Row>, cycle: Cycle, after: map<nat, Row>) {
    Answered(settings, before, cycle) && after == AfterCycle(settings, before, cycle) + cycle.others
  }

  /** The tables the turns of the loop find one after the other. */
  ghost predicate Course(settings: Settings, tables: seq<map<nat, Row>>, cycles: seq<Cycle>) {
    && |tables| == |cycles| + 1
    && forall k :: 0 <= k < |cycles| ==> Turn(settings, tables[k], cycles[k], tables[k + 1])
  }

  ghost predicate Paused(settings: Settings, before: map<nat, Row>, cycle: Cycle, pause: Pause) {
    Answered(settings, before, cycle) ==> pause == PauseAfter(settings, before, cycle)
  }

  /** What _send hands to the producer: for each row, in order, the envelope of its message. */
  function Envelopes(claims: seq<Claim>): (envelopes: seq<Envelope>)
    ensures |envelopes| == |claims|
    ensures forall i :: 0 <= i < |claims| ==> envelopes[i] == BuildEnvelope(claims[i].row.message)
  {
    seq(|claims|, i requires 0 <= i < |claims| => BuildEnvelope(claims[i].row.message))
  }

  /** The rows the query returned, as objects of the session. */
  method Load(claims: seq<Claim>) returns (messages: seq<MessageRow>)
    ensures |messages| == |claims| && fresh(messages)
    ensures forall i, j :: 0 <= i < j < |messages| ==> messages[i] != messages[j]
    ensures forall i :: 0 <= i < |messages| ==> messages[i].id == claims[i].id && messages[i].Columns() == claims[i].row
  {
    messages := [];
    for k := 0 to |claims|
      invariant |messages| == k && fresh(messages)
      invariant forall i, j :: 0 <= i < j < k ==> messages[i] != messages[j]
      invariant forall i :: 0 <= i < k ==> messages[i].id == claims[i].id && messages[i].Columns() == claims[i].row
    {
      var message := new MessageRow(claims[k].id, claims[k].row);
      messages := messages + [message];
    }
  }

  /** The claimed rows as objects, settled one by one and not yet written back. */
  method SettleClaims(settings: Settings, claims: seq<Claim>, errors: seq<Option<string>>, now: real, draws: seq<real>)
    returns (outcome: Option<PublishOutcome>, messages: seq<MessageRow>)
    requires |errors| == |draws| == |claims| && forall i :: 0 <= i < |claims| ==> claims[i].row.status.Pending?
    ensures outcome.None? <==> BatchRaises(settings, claims, errors)
    ensures outcome.Some? ==> outcome.value.Claimed() == |claims| == |messages|
    ensures outcome.Some? ==>
              forall i :: 0 <= i < |messages| ==>
                            && messages[i].id == claims[i].id
                            && messages[i].Columns() == SettleRow(settings, claims[i].row, errors[i], now, draws[i])
  {
    messages := Load(claims);
    outcome := Settle(settings, messages, errors, now, draws);
  }

  /** The committed outbox table, and everything this process ever gave to its producer. */
  class OutboxPublisher {
    const settings: Settings
    var rows: map<nat, Row>
    var handed: seq<Envelope>

    constructor (settings: Settings, rows: map<nat, Row>)
      ensures this.settings == settings && this.rows == rows && handed == []
    {
      this.settings := settings;
      this.rows := rows;
      handed := [];
    }

    /** Commit: the session writes its changed objects back. */
    method Save(messages: seq<MessageRow>, ghost cycle: Cycle)
      requires |messages| == |cycle.claimed| == |cycle.draws| == |cycle.results|
      requires forall i :: 0 <= i < |messages| ==> messages[i].id == cycle.claimed[i].id
      requires forall i :: 0 <= i < |messages| ==>
                             messages[i].Columns()
                             == SettleRow(settings, cycle.claimed[i].row, SendErrors(cycle)[i], cycle.now, cycle.draws[i])
      modifies this`rows
      ensures rows == WriteBack(settings, old(rows), cycle.claimed, cycle.now, SendErrors(cycle), cycle.draws)
    {
      ghost var held, errors, draws := cycle.claimed, SendErrors(cycle), cycle.draws;
      for k := 0 to |messages|
        invariant rows == WriteBack(settings, old(rows), held[..k], cycle.now, errors[..k], draws[..k])
      {
        assert held[..k + 1][..k] == held[..k] && errors[..k + 1][..k] == errors[..k] && draws[..k + 1][..k] == draws[..k];
        rows := rows[messages[k].id := messages[k].Columns()];
      }
      assert held[..|held|] == held && errors[..|held|] == errors && draws[..|held|] == draws;
    }

    /** The end of the transaction: what it reports, and whether it took effect. */
    method Commit(messages: seq<MessageRow>, cycle: Cycle, settled: PublishOutcome) returns (outcome: Option<PublishOutcome>)
      requires cycle.failure != Some(AtClaim) && |messages| == |cycle.claimed| == |cycle.draws| == |cycle.results|
      requires forall i :: 0 <= i < |messages| ==> messages[i].id == cycle.claimed[i].id
      requires forall i :: 0 <= i < |messages| ==>
                             messages[i].Columns()
                             == SettleRow(settings, cycle.claimed[i].row, SendErrors(cycle)[i], cycle.now, cycle.draws[i])
      modifies this`rows
      ensures outcome == if cycle.failure.Some? then None else Some(settled)
      ensures rows == if RolledBack(cycle) then old(rows)
                      else WriteBack(settings, old(rows), cycle.claimed, cycle.now, SendErrors(cycle), cycle.draws)
    {
      if !RolledBack(cycle) {
        Save(messages, cycle);
      }
      return if cycle.failure.Some? then None else Some(settled);
    }

    /** The cycle from the settlement on. */
    method SettleAndCommit(cycle: Cycle) returns (outcome: Option<PublishOutcome>)
      requires cycle.failure != Some(AtClaim) && |cycle.results| == |cycle.draws| == |cycle.claimed|
      requires forall i :: 0 <= i < |cycle.claimed| ==> cycle.claimed[i].row.status.Pending?
      modifies this`rows
      ensures rows == AfterCycle(settings, old(rows), cycle)
      ensures outcome.None? <==> CycleFails(settings, cycle)
      ensures outcome.Some? ==> outcome.value.Claimed() == |cycle.claimed|
    {
      var messages: seq<MessageRow>;
      outcome, messages := SettleClaims(settings, cycle.claimed, SendErrors(cycle), cycle.now, cycle.draws);
      if outcome.Some? {
        outcome := Commit(messages, cycle, outcome.value);
      }
    }

    /** publish_pending; None: it raised and, unless only the report of the commit was lost, the transaction rolled back. */
    method PublishPending(cycle: Cycle) returns (outcome: Option<PublishOutcome>)
      requires Answered(settings, rows, cycle)
      modifies this`rows, this`handed
      ensures rows == AfterCycle(settings, old(rows), cycle)
      ensures outcome.None? <==> CycleFails(settings, cycle)
      ensures outcome.Some? ==> outcome.value.Claimed() == |cycle.claimed|
      ensures handed == old(handed) + (if cycle.failure == Some(AtClaim) then [] else Envelopes(cycle.claimed))
      ensures cycle.failure != Some(AtClaim) ==>
                && |handed| == |old(handed)| + |cycle.claimed|
                && forall i :: 0 <= i < |cycle.claimed| ==>
                                 handed[|old(handed)| + i] == BuildEnvelope(cycle.claimed[i].row.message)
    {
      if cycle.failure == Some(AtClaim) {
        return None;
      }
      if cycle.claimed == [] {
        return if cycle.failure.Some? then None else Some(PublishOutcome(0, 0, 0));
      }
      ClaimsAreFresh(rows, cycle.locked, cycle.now, settings.batchSize);
      handed := handed + Envelopes(cycle.claimed);
      outcome := SettleAndCommit(cycle);
    }

    /** One turn of the loop. */
    method RunCycle(cycle: Cycle, ghost after: map<nat, Row>) returns (pause: Pause)
      requires Turn(settings, rows, cycle, after)
      modifies this`rows, this`handed
      ensures rows == after
      ensures Paused(settings, old(rows), cycle, pause)
      ensures pause == PollInterval <==>
              && cycle.failure.None? && !BatchRaises(settings, cycle.claimed, SendErrors(cycle))
              && (settings.batchSize == 0
                  || forall id :: id in old(rows) && old(rows)[id].status == Pending && old(rows)[id].availableAt <= cycle.now
                                  ==> id in cycle.locked)
      ensures pause == BackoffCap <==> cycle.failure.Some? || BatchRaises(settings, cycle.claimed, SendErrors(cycle))
    {
      EmptyClaim(rows, cycle.locked, cycle.now, settings.batchSize);
      var outcome := PublishPending(cycle);
      pause := if outcome.None? then BackoffCap else if outcome.value.Claimed() == 0 then PollInterval else Straight;
      rows := rows + cycle.others;
    }

    /** publish_outbox: a failed cycle is waited out and the loop goes on until the stop event, set from cycle stopAt on. */
    method PublishOutbox(cycles: seq<Cycle>, stopAt: nat, ghost tables: seq<map<nat, Row>>) returns (pauses: seq<Pause>)
      requires Course(settings, tables, cycles) && rows == tables[0]
      modifies this`rows, this`handed
      ensures |pauses| == if stopAt < |cycles| then stopAt else |cycles|
      ensures rows == tables[|pauses|]
      ensures forall k :: 0 <= k < |pauses| ==> Paused(settings, tables[k], cycles[k], pauses[k])
    {
      pauses := [];
      var k := 0;
      while k < stopAt && k < |cycles|
        invariant k <= |cycles| && k <= stopAt
        invariant rows == tables[k] && |pauses| == k
        invariant forall i :: 0 <= i < k ==> Paused(settings, tables[i], cycles[i], pauses[i])
      {
        var pause := RunCycle(cycles[k], tables[k + 1]);
        pauses := pauses + [pause];
        k := k + 1;
      }
    }
  }

  /* ---- a row whose backoff overflows holds up everything behind it ---- */

  /** The next failure of this row overflows its backoff. */
  predicate Overflowing(settings: Settings, row: Row) {
    row.attempts + 1 < settings.maxAttempts && CeilingRaises(row.attempts + 1)
  }

  /** Row r is first in line, and its send fails. */
  ghost predicate FailsFirst(settings: Settings, rows: map<nat, Row>, cycle: Cycle, r: nat) {
    && Answered(settings, rows, cycle) && settings.batchSize >= 1
    && r in Claimable(rows, cycle.locked, cycle.now)
    && (forall id :: id in Claimable(rows, cycle.locked, cycle.now) ==> r <= id)
    && (forall i :: 0 <= i < |cycle.claimed| && cycle.claimed[i].id == r ==> SendErrors(cycle)[i].Some?)
  }

  lemma FirstIsClaimed(settings: Settings, rows: map<nat, Row>, cycle: Cycle, r: nat)
    requires FailsFirst(settings, rows, cycle, r)
    ensures Holds(cycle.claimed, r)
  {
    if cycle.claimed != [] {
      var first := cycle.claimed[0].id;
      assert Holds(cycle.claimed, first);
      ClaimTakesTheFirst(rows, cycle.locked, cycle.now, settings.batchSize, first);
      assert first in Claimable(rows, cycle.locked, cycle.now) && r <= first;
    }
    ClaimTakesTheFirst(rows, cycle.locked, cycle.now, settings.batchSize, r);
  }

  /** The whole batch is rolled back, the other rows with it. */
  lemma OverflowRollsBack(settings: Settings, rows: map<nat, Row>, cycle: Cycle, r: nat)
    requires FailsFirst(settings, rows, cycle, r) && Overflowing(settings, rows[r])
    ensures CycleFails(settings, cycle) && AfterCycle(settings, rows, cycle) == rows
  {
    FirstIsClaimed(settings, rows, cycle, r);
    ClaimsAreFresh(rows, cycle.locked, cycle.now, settings.batchSize);
    var i :| 0 <= i < |cycle.claimed| && cycle.claimed[i].id == r;
    assert SettleRaises(settings, cycle.claimed[i].row, SendErrors(cycle)[i]);
  }

  /** As long as it stays first and its send keeps failing, no cycle changes the table again: nothing is settled. */
  lemma {:induction false} StarvedByOverflow(
    settings: Settings, tables: seq<map<nat, Row>>, cycles: seq<Cycle>, r: nat, k: nat)
    requires Course(settings, tables, cycles) && k <= |cycles|
    requires forall i :: 0 <= i < k ==> cycles[i].others == map[] && FailsFirst(settings, tables[i], cycles[i], r)
    requires r in tables[0] && Overflowing(settings, tables[0][r])
    ensures tables[k] == tables[0]
  {
    if k > 0 {
      StarvedByOverflow(settings, tables, cycles, r, k - 1);
      OverflowRollsBack(settings, tables[k - 1], cycles[k - 1], r);
      assert Turn(settings, tables[k - 1], cycles[k - 1], tables[k - 1 + 1]);
      assert tables[0] + map[] == tables[0];
    }
  }

  /* ---- a cycle is what the machine does when nothing interrupts it ---- */

  ghost function LockedIds(s: State, w: nat): set<nat> {
    set id | id in s.rows && LockedByOther(s, w, id)
  }

  /** Scan steps of one worker until its query is done. */
  ghost function Scanned(settings: Settings, s: State, w: nat): State
    decreases if PhaseOf(s, w).Scanning? then |PhaseOf(s, w).todo| else 0
  {
    if Enabled(settings, s, Scan(w)) then Scanned(settings, Step(settings, s, Scan(w)), w) else s
  }

  ghost function Filtered(ids: seq<nat>, keep: set<nat>): seq<nat> {
    if ids == [] then [] else (if ids[0] in keep then [ids[0]] else []) + Filtered(ids[1..], keep)
  }

  lemma {:induction false} FilteredMembers(ids: seq<nat>, keep: set<nat>)
    ensures forall id :: id in Filtered(ids, keep) <==> id in ids && id in keep
  {
    if ids != [] {
      FilteredMembers(ids[1..], keep);
      assert ids == [ids[0]] + ids[1..];
      assert forall id :: id in ids <==> id == ids[0] || id in ids[1..];
    }
  }

  lemma PrependAscends(x: nat, rest: seq<nat>)
    requires Ascends(rest) && forall y :: y in rest ==> x < y
    ensures Ascends([x] + rest)
  {
    forall i, j | 0 <= i < j < |[x] + rest|
      ensures ([x] + rest)[i] < ([x] + rest)[j]
    {
      assert ([x] + rest)[j] == rest[j - 1] && rest[j - 1] in rest;
    }
  }

  lemma {:induction false} FilteredAscends(ids: seq<nat>, keep: set<nat>)
    requires Ascends(ids)
    ensures Ascends(Filtered(ids, keep))
  {
    if ids != [] {
      TailAscends(ids);
      FilteredAscends(ids[1..], keep);
      FilteredMembers(ids[1..], keep);
      if ids[0] in keep {
        PrependAscends(ids[0], Filtered(ids[1..], keep));
        assert Filtered(ids, keep) == [ids[0]] + Filtered(ids[1..], keep);
      } else {
        assert Filtered(ids, keep) == Filtered(ids[1..], keep);
      }
    }
  }

  lemma SameHead(a: seq<nat>, b: seq<nat>)
    requires Ascends(a) && Ascends(b) && a != [] && b != []
    requires forall id :: id in a <==> id in b
    ensures a[0] == b[0]
  {
    assert a[0] in b && b[0] in a;
  }

  lemma {:induction false} SameAscending(a: seq<nat>, b: seq<nat>)
    requires Ascends(a) && Ascends(b) && forall id :: id in a <==> id in b
    ensures a == b
  {
    if a == [] {
      assert forall i :: 0 <= i < |b| ==> b[i] in b;
    } else {
      assert a[0] in b;
      SameHead(a, b);
      TailAscends(a);
      TailAscends(b);
      forall id
        ensures id in a[1..] <==> id in b[1..]
      {
        assert id in a[1..] <==> id in a && id != a[0];
        assert id in b[1..] <==> id in b && id != b[0];
      }
      SameAscending(a[1..], b[1..]);
      assert a == [a[0]] + a[1..] && b == [b[0]] + b[1..];
    }
  }

  lemma SameLocks(s: State, w: nat, phase: Phase)
    ensures LockedIds(s.(workers := s.workers[w := phase]), w) == LockedIds(s, w)
  {
    var next := s.(workers := s.workers[w := phase]);
    forall id
      ensures LockedByOther(next, w, id) <==> LockedByOther(s, w, id)
    {
      assert forall v :: v != w ==> (v in next.workers <==> v in s.workers);
      assert forall v :: v in s.workers && v != w ==> next.workers[v] == s.workers[v];
    }
  }

  /** The claims a scan ends with, step by step. */
  ghost function HeldAfter(rows: map<nat, Row>, keep: set<nat>, todo: seq<nat>, held: seq<Claim>, limit: nat): seq<Claim>
    requires keep <= rows.Keys
  {
    if todo == [] || |held| >= limit then held
    else
      HeldAfter(rows, keep, todo[1..], if todo[0] in keep then held + [Claim(todo[0], rows[todo[0]])] else held, limit)
  }

  ghost function FirstKept(todo: seq<nat>, keep: set<nat>, limit: nat): (ids: seq<nat>)
    ensures forall id :: id in ids ==> id in keep
  {
    if todo == [] || limit == 0 then []
    else if todo[0] in keep then [todo[0]] + FirstKept(todo[1..], keep, limit - 1)
    else FirstKept(todo[1..], keep, limit)
  }

  lemma {:induction false} FirstKeptIsTake(todo: seq<nat>, keep: set<nat>, limit: nat)
    ensures FirstKept(todo, keep, limit) == Take(Filtered(todo, keep), limit)
  {
    if todo != [] && limit > 0 {
      FirstKeptIsTake(todo[1..], keep, if todo[0] in keep then limit - 1 else limit);
    }
  }

  lemma {:induction false} HeldAfterKept(rows: map<nat, Row>, keep: set<nat>, todo: seq<nat>, held: seq<Claim>, limit: nat)
    requires keep <= rows.Keys && |held| <= limit
    ensures HeldAfter(rows, keep, todo, held, limit) == held + ClaimsOf(rows, FirstKept(todo, keep, limit - |held|))
  {
    if todo != [] && |held| < limit {
      HeldAfterKept(
        rows, keep, todo[1..], if todo[0] in keep then held + [Claim(todo[0], rows[todo[0]])] else held, limit);
    }
  }

  lemma {:induction false} ScannedHeld(settings: Settings, s: State, w: nat, keep: set<nat>)
    requires PhaseOf(s, w).Scanning? && |PhaseOf(s, w).held| <= settings.batchSize
    requires keep == Claimable(s.rows, LockedIds(s, w), PhaseOf(s, w).now)
    ensures
      var phase, after := PhaseOf(s, w), Scanned(settings, s, w);
      && Enabled(settings, after, Send(w))
      && after == s.(workers := after.workers)
      && PhaseOf(after, w).now == phase.now
      && PhaseOf(after, w).held == HeldAfter(s.rows, keep, phase.todo, phase.held, settings.batchSize)
    decreases if PhaseOf(s, w).Scanning? then |PhaseOf(s, w).todo| else 0
  {
    if Enabled(settings, s, Scan(w)) {
      SameLocks(s, w, AfterScan(s, w));
      ScannedHeld(settings, Step(settings, s, Scan(w)), w, keep);
    }
  }

  lemma KeptIsClaimBatch(rows: map<nat, Row>, locked: set<nat>, now: real, limit: nat)
    ensures
      var keep := Claimable(rows, locked, now);
      keep <= rows.Keys
      && ClaimsOf(rows, FirstKept(Ascending(EligibleIds(rows, now)), keep, limit)) == ClaimBatch(rows, locked, now, limit)
  {
    var todo, keep := Ascending(EligibleIds(rows, now)), Claimable(rows, locked, now);
    FirstKeptIsTake(todo, keep, limit);
    FilteredAscends(todo, keep);
    FilteredMembers(todo, keep);
    SameAscending(Filtered(todo, keep), Ascending(keep));
  }

  lemma BegunScan(settings: Settings, s: State, w: nat, now: real, todo: seq<nat>, keep: set<nat>)
    requires keep == Claimable(s.rows, LockedIds(s, w), now)
    ensures
      var scanned := Scanned(settings, s.(workers := s.workers[w := Scanning(now, todo, [])]), w);
      && Enabled(settings, scanned, Send(w))
      && scanned == s.(workers := scanned.workers)
      && PhaseOf(scanned, w).now == now
      && PhaseOf(scanned, w).held == ClaimsOf(s.rows, FirstKept(todo, keep, settings.batchSize))
  {
    SameLocks(s, w, Scanning(now, todo, []));
    ScannedHeld(settings, s.(workers := s.workers[w := Scanning(now, todo, [])]), w, keep);
    HeldAfterKept(s.rows, keep, todo, [], settings.batchSize);
  }

  /** Left alone, a scan ends holding exactly what the claim query returns. */
  lemma ScanIsClaimBatch(settings: Settings, s: State, w: nat, now: real)
    requires PhaseOf(s, w).Idle?
    ensures
      var scanned := Scanned(settings, Step(settings, s, BeginCycle(w, now)), w);
      && Enabled(settings, scanned, Send(w))
      && scanned == s.(workers := scanned.workers)
      && PhaseOf(scanned, w).now == now
      && PhaseOf(scanned, w).held == ClaimBatch(s.rows, LockedIds(s, w), now, settings.batchSize)
  {
    KeptIsClaimBatch(s.rows, LockedIds(s, w), now, settings.batchSize);
    BegunScan(
      settings, s, w, now, Ascending(EligibleIds(s.rows, now)), Claimable(s.rows, LockedIds(s, w), now));
  }

  lemma SettledAfterScan(
    settings: Settings, s: State, w: nat, claims: seq<Claim>, now: real, errors: seq<Option<string>>, draws: seq<real>)
    requires Enabled(settings, s, Send(w)) && PhaseOf(s, w).held == claims != [] && PhaseOf(s, w).now == now
    requires |errors| == |draws| == |claims| && forall i :: 0 <= i < |draws| ==> 0.0 <= draws[i] <= 1.0
    requires !BatchRaises(settings, claims, errors) && Acknowledged(s.topic, claims, errors)
    ensures
      var sending := Step(settings, s, Send(w));
      && Enabled(settings, sending, SettleBatch(w, errors, draws))
      && var settled := Step(settings, sending, SettleBatch(w, errors, draws));
         && settled.rows == WriteBack(settings, s.rows, claims, now, errors, draws)
         && settled.settled == s.settled + Settlements(claims, errors)
         && (forall message :: message in sending.handed <==>
               message in s.handed || exists i :: 0 <= i < |claims| && claims[i].row.message == message)
  {
  }

  /** An uninterrupted successful cycle of the machine leaves the table publish_pending leaves. */
  lemma CycleIsMachineRun(settings: Settings, s: State, w: nat, cycle: Cycle)
    requires PhaseOf(s, w).Idle? && cycle.locked == LockedIds(s, w)
    requires Answered(settings, s.rows, cycle) && cycle.claimed != [] && !CycleFails(settings, cycle)
    requires Acknowledged(s.topic, cycle.claimed, SendErrors(cycle))
    requires forall i :: 0 <= i < |cycle.draws| ==> 0.0 <= cycle.draws[i] <= 1.0
    ensures
      var scanned := Scanned(settings, Step(settings, s, BeginCycle(w, cycle.now)), w);
      Enabled(settings, scanned, Send(w))
      && var sending := Step(settings, scanned, Send(w));
         var settle := SettleBatch(w, SendErrors(cycle), cycle.draws);
         && Enabled(settings, sending, settle)
         && (forall message :: message in sending.handed <==>
               message in s.handed || exists i :: 0 <= i < |cycle.claimed| && cycle.claimed[i].row.message == message)
         && Step(settings, sending, settle).rows == AfterCycle(settings, s.rows, cycle)
  {
    ScanIsClaimBatch(settings, s, w, cycle.now);
    var scanned := Scanned(settings, Step(settings, s, BeginCycle(w, cycle.now)), w);
    SettledAfterScan(settings, scanned, w, cycle.claimed, cycle.now, SendErrors(cycle), cycle.draws);
  }
}
