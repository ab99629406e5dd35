/**
 * Any number of create_order calls running at once, one database statement at a time, under READ COMMITTED.
 * A label names one step; a run is a list of states joined by enabled labels.
 */
module OrderMachine {
  import opened Prelude
  import opened Texts
  import opened Models
  import opened Events
  import opened Orders

  /** Where a call is; each phase names the statement it runs next. */
  datatype Phase =
    | AtLookup                                                              // the first _find_replay
    | AtFlush                                                               // the flush that reserves the key
    | AtLock                                                                // key reserved, lock_by_ids not yet run
    | Locking(view: Rows, todo: seq<Uuid>, found: set<Uuid>, snapshot: nat) // row locks being taken
    | Placed(view: Rows, order: Order)                                      // everything written, not yet committed
    | AtRecovery                                                            // unique violation, rolled back
    | Returned(outcome: Outcome, at: nat)                                   // a result or a domain error reached the caller
    | Crashed                                                               // rolled back, or the caller never heard

  /** since and Returned.at count committed transactions: they say when, in commit order. */
  datatype Call = Call(request: Request, stamp: Stamp, since: nat, phase: Phase)

  /** The committed database, with the committed databases so far and the transactions between them; no step reads those. */
  datatype World = World(db: Db, history: seq<Db>, log: seq<Entry>)

  datatype State = State(world: World, calls: map<nat, Call>)

  datatype Label =
    | Begin(c: nat, request: Request, stamp: Stamp)
    | Lookup(c: nat)
    | Flush(c: nat)
    | StartLocking(c: nat)
    | LockNext(c: nat)
    | Place(c: nat)
    | Commit(c: nat, acknowledged: bool)
    | Recover(c: nat)
    | Crash(c: nat)
    | AddProduct(product: Uuid, initial: Product)

  ghost predicate Active(call: Call) { !call.phase.Returned? && !call.phase.Crashed? }

  ghost predicate Reserves(call: Call) { call.phase.AtLock? || call.phase.Locking? || call.phase.Placed? }

  /** The rows a call has locked, as it read them. */
  ghost function ViewOf(call: Call): Rows {
    if call.phase.Locking? || call.phase.Placed? then call.phase.view else map[]
  }

  ghost predicate SameKey(a: Call, b: Call) {
    a.request.customer == b.request.customer && a.request.key == b.request.key
  }

  ghost predicate SameStamp(a: Stamp, b: Stamp) { a.orderId == b.orderId || a.eventId == b.eventId }

  ghost function FindOwn(db: Db, call: Call): Option<Order> {
    Find(db.orders, call.request.customer, call.request.key)
  }

  ghost predicate KeyFree(s: State, c: nat)
    requires c in s.calls
  {
    forall d :: d in s.calls && d != c && Reserves(s.calls[d]) ==> !SameKey(s.calls[c], s.calls[d])
  }

  ghost predicate RowFree(s: State, c: nat, p: Uuid) {
    forall d :: d in s.calls && d != c ==> p !in ViewOf(s.calls[d])
  }

  ghost predicate Enabled(s: State, l: Label) {
    match l
    case Begin(c, request, stamp) =>
      && c !in s.calls && Valid(request) && Unused(s.world.db, stamp)
      && (forall d :: d in s.calls ==> !SameStamp(s.calls[d].stamp, stamp))
    case Lookup(c) => c in s.calls && s.calls[c].phase.AtLookup?
    case Flush(c) => c in s.calls && s.calls[c].phase.AtFlush? && (FindOwn(s.world.db, s.calls[c]).Some? || KeyFree(s, c))
    case StartLocking(c) => c in s.calls && s.calls[c].phase.AtLock?
    case LockNext(c) =>
      && c in s.calls && s.calls[c].phase.Locking? && s.calls[c].phase.todo != []
      && s.calls[c].phase.todo[0] in s.world.db.products && RowFree(s, c, s.calls[c].phase.todo[0])
    case Place(c) => c in s.calls && s.calls[c].phase.Locking? && s.calls[c].phase.todo == []
    case Commit(c, _) => c in s.calls && s.calls[c].phase.Placed?
    case Recover(c) => c in s.calls && s.calls[c].phase.AtRecovery?
    case Crash(c) => c in s.calls && Active(s.calls[c])
    case AddProduct(product, initial) => product !in s.world.db.products && initial.stock >= 0
  }

  /** lock_by_ids fixes the product set at its snapshot; the rows are then locked in ascending id. */
  ghost function FirstLocks(db: Db, request: Request, now: nat): Phase {
    var found := Products(request.items) * db.products.Keys;
    var todo := Ascending(found);
    assert forall i :: 0 <= i < |todo| ==> todo[i] in todo && todo[i] in found;
    Locking(map[], todo, found, now)
  }

  /** What happens once every lock is held: the outcome of _place_order decides. */
  ghost function AfterLocks(call: Call, now: nat): Phase
    requires call.phase.Locking?
  {
    var outcome := Decide(call.request, call.stamp, call.phase.view);
    if outcome.Created? then Placed(call.phase.view, outcome.order)
    else Returned(outcome, if outcome.ProductsNotFound? then call.phase.snapshot else now)
  }

  ghost function NextPhase(s: State, l: Label): Phase
    requires Enabled(s, l) && !l.AddProduct?
  {
    var now := |s.world.log|;
    match l
    case Begin(_, _, _) => AtLookup
    case Lookup(c) =>
      var replay := FindReplay(s.world.db.orders, s.calls[c].request);
      if replay.None? then AtFlush else Returned(replay.value, now)
    case Flush(c) => if FindOwn(s.world.db, s.calls[c]).Some? then AtRecovery else AtLock
    case StartLocking(c) => FirstLocks(s.world.db, s.calls[c].request, now)
    case LockNext(c) =>
      var phase := s.calls[c].phase;
      phase.(view := phase.view[phase.todo[0] := s.world.db.products[phase.todo[0]]], todo := phase.todo[1..])
    case Place(c) => AfterLocks(s.calls[c], now)
    case Commit(c, acknowledged) =>
      if acknowledged then Returned(Created(s.calls[c].phase.order), now) else Crashed
    case Recover(c) =>
      var replay := FindReplay(s.world.db.orders, s.calls[c].request);
      if replay.None? then Crashed else Returned(replay.value, now)
    case Crash(_) => Crashed
  }

  /** A commit publishes the transaction's own writes, computed from the rows it locked. */
  ghost function CommittedDb(db: Db, call: Call): Db
    requires call.phase.Placed?
  {
    Db(db.products + TakeStock(call.phase.view, call.request.items),
       db.orders + [call.phase.order],
       db.outbox + [BuildOrderCreatedMessage(call.phase.order, call.stamp.eventId)])
  }

  ghost function Publish(w: World, db: Db, entry: Entry): World {
    World(db, w.history + [db], w.log + [entry])
  }

  ghost function CommittedWorld(w: World, call: Call): World
    requires call.phase.Placed?
  {
    Publish(w, CommittedDb(w.db, call), Placing(call.request, call.stamp))
  }

  ghost function Step(s: State, l: Label): State
    requires Enabled(s, l)
  {
    match l
    case AddProduct(product, initial) =>
      s.(world := Publish(s.world, s.world.db.(products := s.world.db.products[product := initial]), Stocking(product, initial)))
    case Begin(c, request, stamp) =>
      s.(calls := s.calls[c := Call(request, stamp, |s.world.log|, AtLookup)])
    case Commit(c, _) =>
      State(CommittedWorld(s.world, s.calls[c]), s.calls[c := s.calls[c].(phase := NextPhase(s, l))])
    case _ =>
      s.(calls := s.calls[l.c := s.calls[l.c].(phase := NextPhase(s, l))])
  }

  const START: State := State(World(EMPTY, [EMPTY], []), map[])

  ghost predicate IsRun(ss: seq<State>, ls: seq<Label>) {
    && |ss| == |ls| + 1
    && ss[0] == START
    && forall i :: 0 <= i < |ls| ==> Enabled(ss[i], ls[i]) && ss[i + 1] == Step(ss[i], ls[i])
  }

  /* ---- the invariant ---- */

  ghost predicate Current(db: Db, view: Rows) {
    forall p :: p in view ==> p in db.products && db.products[p] == view[p]
  }

  /** The lock list in hand: what is still to take is ascending and above everything taken. */
  ghost predicate LocksInOrder(view: Rows, todo: seq<Uuid>, found: set<Uuid>) {
    && Ascends(todo)
    && (forall p :: p in todo ==> p in found)
    && (forall p :: p in found ==> p in todo || p in view)
    && view.Keys <= found
    && (forall p, q :: p in view && q in todo ==> p < q)
  }

  ghost predicate PhaseInv(w: World, call: Call) {
    match call.phase
    case AtLookup => true
    case AtFlush => true
    case AtLock => FindOwn(w.db, call).None?
    case Locking(view, todo, found, snapshot) =>
      && FindOwn(w.db, call).None?
      && call.since <= snapshot < |w.history|
      && FindOwn(w.history[snapshot], call).None?
      && found == Products(call.request.items) * w.history[snapshot].products.Keys
      && found <= w.db.products.Keys
      && LocksInOrder(view, todo, found)
      && Current(w.db, view)
    case Placed(view, order) =>
      && FindOwn(w.db, call).None?
      && Current(w.db, view)
      && view.Keys == Products(call.request.items)
      && Decide(call.request, call.stamp, view) == Created(order)
    case AtRecovery => FindOwn(w.db, call).Some?
    case Returned(outcome, at) =>
      && call.since <= at < |w.history|
      && Spec(w.history[at], call.request, call.stamp) == outcome
      && (outcome.Created? ==> at < |w.log| && w.log[at] == Placing(call.request, call.stamp))
    case Crashed => true
  }

  ghost predicate CallInv(w: World, call: Call) {
    && call.since < |w.history|
    && Valid(call.request)
    && (Active(call) ==> Unused(w.db, call.stamp))
    && PhaseInv(w, call)
  }

  /** The history starts empty, every transaction in it was legal, and it ends in the current database. */
  ghost predicate HistoryInv(w: World) {
    && |w.history| == |w.log| + 1
    && w.history[0] == EMPTY
    && w.history[|w.log|] == w.db
    && forall i :: 0 <= i < |w.log| ==> Legal(w.history[i], w.log[i]) && w.history[i + 1] == Apply(w.history[i], w.log[i])
  }

  /** Two calls never share a stamp, a reserved key or a locked row. */
  ghost predicate Apart(a: Call, b: Call) {
    && !SameStamp(a.stamp, b.stamp)
    && !(Reserves(a) && Reserves(b) && SameKey(a, b))
    && ViewOf(a).Keys !! ViewOf(b).Keys
  }

  ghost predicate Inv(s: State) {
    && HistoryInv(s.world)
    && (forall c :: c in s.calls ==> CallInv(s.world, s.calls[c]))
    && (forall c, d :: c in s.calls && d in s.calls && c != d ==> Apart(s.calls[c], s.calls[d]))
  }

  /* ---- steps that commit nothing ---- */

  /** Such a step only has to answer for the call it moves. */
  lemma MoveCall(s: State, c: nat, call: Call)
    requires Inv(s)
    requires CallInv(s.world, call)
    requires forall d :: d in s.calls && d != c ==> Apart(call, s.calls[d])
    ensures Inv(s.(calls := s.calls[c := call]))
  {
  }

  /** A call that takes no new key and no new row stays apart from the others. */
  lemma MoveInPlace(s: State, c: nat, phase: Phase)
    requires Inv(s) && c in s.calls
    requires
      var call := s.calls[c].(phase := phase);
      && CallInv(s.world, call)
      && ViewOf(call).Keys <= ViewOf(s.calls[c]).Keys
      && (Reserves(call) ==> Reserves(s.calls[c]))
    ensures Inv(s.(calls := s.calls[c := s.calls[c].(phase := phase)]))
  {
    var call := s.calls[c].(phase := phase);
    forall d | d in s.calls && d != c
      ensures Apart(call, s.calls[d])
    {
      assert Apart(s.calls[c], s.calls[d]);
    }
    MoveCall(s, c, call);
  }

  lemma StartLockingKeeps(s: State, c: nat)
    requires Inv(s) && Enabled(s, StartLocking(c))
    ensures Inv(Step(s, StartLocking(c)))
  {
    MoveInPlace(s, c, FirstLocks(s.world.db, s.calls[c].request, |s.world.log|));
  }

  lemma LockNextKeeps(s: State, c: nat)
    requires Inv(s) && Enabled(s, LockNext(c))
    ensures Inv(Step(s, LockNext(c)))
  {
    var call := s.calls[c];
    var phase := call.phase;
    var moved := call.(phase := NextPhase(s, LockNext(c)));
    TailAscends(phase.todo);
    forall d | d in s.calls && d != c
      ensures Apart(moved, s.calls[d])
    {
      assert Apart(call, s.calls[d]);
      assert phase.todo[0] !in ViewOf(s.calls[d]);
    }
    MoveCall(s, c, moved);
  }

  lemma {:induction false} SameMissing(items: seq<Item>, a: Rows, b: Rows)
    requires forall i :: 0 <= i < |items| ==> (items[i].product in a <==> items[i].product in b)
    ensures Missing(items, a) == Missing(items, b)
  {
    if items != [] {
      SameMissing(items[..|items| - 1], a, b);
    }
  }

  /** Rows missing from the locked ones were missing from the snapshot that fixed the product set. */
  lemma MissingAtSnapshot(w: World, call: Call)
    requires CallInv(w, call) && call.phase.Locking? && call.phase.todo == []
    requires !Known(call.request.items, call.phase.view)
    ensures Spec(w.history[call.phase.snapshot], call.request, call.stamp)
         == Decide(call.request, call.stamp, call.phase.view)
  {
    var items, view := call.request.items, call.phase.view;
    assert forall i :: 0 <= i < |items| ==> items[i] in items && items[i].product in Products(items);
    assert view.Keys == call.phase.found;
    SameMissing(items, view, w.history[call.phase.snapshot].products);
  }

  /** With every row locked, deciding on the rows in hand is deciding on the current database. */
  lemma CurrentUnderLocks(w: World, call: Call)
    requires CallInv(w, call) && call.phase.Locking? && call.phase.todo == []
    requires Known(call.request.items, call.phase.view)
    ensures Spec(w.db, call.request, call.stamp) == Decide(call.request, call.stamp, call.phase.view)
    ensures call.phase.view.Keys == Products(call.request.items)
  {
    var items, view := call.request.items, call.phase.view;
    assert forall i :: 0 <= i < |items| ==> items[i] in items && items[i].product in Products(items);
    assert view.Keys == call.phase.found;
    DecideIsLocal(call.request, call.stamp, view, w.db.products);
  }

  lemma UnknownIsNotFound(request: Request, stamp: Stamp, rows: Rows)
    ensures Decide(request, stamp, rows).ProductsNotFound? <==> !Known(request.items, rows)
  {
  }

  lemma PlacedHolds(w: World, call: Call, order: Order)
    requires CallInv(w, call) && call.phase.Locking?
    requires call.phase.view.Keys == Products(call.request.items)
    requires Decide(call.request, call.stamp, call.phase.view) == Created(order)
    ensures CallInv(w, call.(phase := Placed(call.phase.view, order)))
  {
  }

  lemma ReturnedHolds(w: World, call: Call, outcome: Outcome, at: nat)
    requires CallInv(w, call) && call.since <= at < |w.history| && !outcome.Created?
    requires Spec(w.history[at], call.request, call.stamp) == outcome
    ensures CallInv(w, call.(phase := Returned(outcome, at)))
  {
  }

  lemma RejectionHolds(w: World, call: Call, outcome: Outcome, at: nat)
    requires HistoryInv(w) && CallInv(w, call) && call.phase.Locking? && call.phase.todo == []
    requires Decide(call.request, call.stamp, call.phase.view) == outcome && !outcome.Created?
    requires at == if outcome.ProductsNotFound? then call.phase.snapshot else |w.log|
    ensures CallInv(w, call.(phase := Returned(outcome, at)))
  {
    UnknownIsNotFound(call.request, call.stamp, call.phase.view);
    if outcome.ProductsNotFound? {
      MissingAtSnapshot(w, call);
    } else {
      CurrentUnderLocks(w, call);
    }
    ReturnedHolds(w, call, outcome, at);
  }

  lemma AcceptanceHolds(w: World, call: Call, order: Order)
    requires CallInv(w, call) && call.phase.Locking? && call.phase.todo == []
    requires Decide(call.request, call.stamp, call.phase.view) == Created(order)
    ensures CallInv(w, call.(phase := Placed(call.phase.view, order)))
  {
    UnknownIsNotFound(call.request, call.stamp, call.phase.view);
    CurrentUnderLocks(w, call);
    PlacedHolds(w, call, order);
  }

  lemma PlaceKeeps(s: State, c: nat)
    requires Inv(s) && Enabled(s, Place(c))
    ensures Inv(Step(s, Place(c)))
  {
    var phase := AfterLocks(s.calls[c], |s.world.log|);
    if phase.Placed? {
      AcceptanceHolds(s.world, s.calls[c], phase.order);
    } else {
      RejectionHolds(s.world, s.calls[c], phase.outcome, phase.at);
    }
    MoveInPlace(s, c, phase);
  }

  lemma ReplayStepKeeps(s: State, l: Label)
    requires Inv(s) && Enabled(s, l) && (l.Lookup? || l.Recover?)
    ensures Inv(Step(s, l))
  {
    MoveInPlace(s, l.c, NextPhase(s, l));
  }

  lemma FlushKeeps(s: State, c: nat)
    requires Inv(s) && Enabled(s, Flush(c))
    ensures Inv(Step(s, Flush(c)))
  {
    MoveCall(s, c, s.calls[c].(phase := NextPhase(s, Flush(c))));
  }

  /* ---- steps that commit ---- */

  /** A transaction published by someone else leaves a call's facts standing. */
  lemma CallSurvives(w: World, call: Call, db: Db, entry: Entry)
    requires HistoryInv(w) && CallInv(w, call)
    requires w.db.products.Keys <= db.products.Keys
    requires Current(w.db, ViewOf(call)) ==> Current(db, ViewOf(call))
    requires Active(call) ==> Unused(db, call.stamp)
    requires FindOwn(w.db, call).Some? ==> FindOwn(db, call).Some?
    requires Reserves(call) && FindOwn(w.db, call).None? ==> FindOwn(db, call).None?
    ensures CallInv(Publish(w, db, entry), call)
  {
    var after := Publish(w, db, entry);
    assert forall i :: 0 <= i < |w.history| ==> after.history[i] == w.history[i];
    assert forall i :: 0 <= i < |w.log| ==> after.log[i] == w.log[i];
  }

  lemma HistoryGrows(w: World, db: Db, entry: Entry)
    requires HistoryInv(w) && Legal(w.db, entry) && db == Apply(w.db, entry)
    ensures HistoryInv(Publish(w, db, entry))
  {
    var after := Publish(w, db, entry);
    forall i | 0 <= i < |after.log|
      ensures Legal(after.history[i], after.log[i]) && after.history[i + 1] == Apply(after.history[i], after.log[i])
    {
      if i < |w.log| {
        assert after.history[i] == w.history[i] && after.history[i + 1] == w.history[i + 1];
      }
    }
  }

  lemma AddProductKeeps(s: State, product: Uuid, initial: Product)
    requires Inv(s) && Enabled(s, AddProduct(product, initial))
    ensures Inv(Step(s, AddProduct(product, initial)))
  {
    var db := s.world.db.(products := s.world.db.products[product := initial]);
    HistoryGrows(s.world, db, Stocking(product, initial));
    forall c | c in s.calls
      ensures CallInv(Publish(s.world, db, Stocking(product, initial)), s.calls[c])
    {
      CallSurvives(s.world, s.calls[c], db, Stocking(product, initial));
    }
  }

  /** Under its locks, the writes of a transaction are the sequential specification run on the current database. */
  lemma PlacedIsExecute(w: World, call: Call)
    requires CallInv(w, call) && call.phase.Placed?
    ensures Spec(w.db, call.request, call.stamp) == Created(call.phase.order)
    ensures CommittedDb(w.db, call) == Execute(w.db, call.request, call.stamp)
  {
    var items, view := call.request.items, call.phase.view;
    assert forall i :: 0 <= i < |items| ==> items[i] in items && items[i].product in Products(items);
    DecideIsLocal(call.request, call.stamp, view, w.db.products);
    TakeStockIsLocal(w.db.products, view, items);
  }

  lemma CommitSparesStamp(db: Db, mine: Call, stamp: Stamp)
    requires mine.phase.Placed? && mine.phase.order.id == mine.stamp.orderId
    requires Unused(db, stamp) && !SameStamp(mine.stamp, stamp)
    ensures Unused(CommittedDb(db, mine), stamp)
  {
    assert BuildOrderCreatedMessage(mine.phase.order, mine.stamp.eventId).eventId == mine.stamp.eventId;
  }

  lemma CommitSparesView(db: Db, mine: Call, view: Rows)
    requires mine.phase.Placed? && Current(db, view) && Current(db, mine.phase.view)
    requires view.Keys !! mine.phase.view.Keys
    ensures Current(CommittedDb(db, mine), view)
    ensures CommittedDb(db, mine).products.Keys == db.products.Keys
  {
    assert forall p :: p in view ==> p in view.Keys && p !in mine.phase.view;
  }

  lemma OtherSurvivesCommit(w: World, mine: Call, other: Call)
    requires HistoryInv(w) && CallInv(w, mine) && mine.phase.Placed? && CallInv(w, other) && Apart(mine, other)
    ensures CallInv(CommittedWorld(w, mine), other)
  {
    var db, order := CommittedDb(w.db, mine), mine.phase.order;
    CreatedOrderOf(mine.request, mine.stamp, mine.phase.view, order);
    FindAppend(w.db.orders, order, other.request.customer, other.request.key);
    if Active(other) {
      CommitSparesStamp(w.db, mine, other.stamp);
    }
    CommitSparesView(w.db, mine, ViewOf(other));
    CallSurvives(w, other, db, Placing(mine.request, mine.stamp));
  }

  lemma CommitterHolds(w: World, call: Call, acknowledged: bool)
    requires HistoryInv(w) && CallInv(w, call) && call.phase.Placed?
    ensures
      var after := if acknowledged then Returned(Created(call.phase.order), |w.log|) else Crashed;
      CallInv(CommittedWorld(w, call), call.(phase := after))
  {
    PlacedIsExecute(w, call);
    var after := CommittedWorld(w, call);
    assert after.history[|w.log|] == w.db && after.log[|w.log|] == Placing(call.request, call.stamp);
  }

  lemma CommitIsLegal(w: World, call: Call)
    requires HistoryInv(w) && CallInv(w, call) && call.phase.Placed?
    ensures HistoryInv(CommittedWorld(w, call))
  {
    PlacedIsExecute(w, call);
    HistoryGrows(w, CommittedDb(w.db, call), Placing(call.request, call.stamp));
  }

  /** Such a step answers for the history, for the call it moves and for the others in the new world. */
  lemma MoveAndPublish(s: State, w: World, c: nat, moved: Call)
    requires Inv(s) && HistoryInv(w) && CallInv(w, moved)
    requires forall d :: d in s.calls && d != c ==> CallInv(w, s.calls[d]) && Apart(moved, s.calls[d])
    ensures Inv(State(w, s.calls[c := moved]))
  {
  }

  lemma CommittedStateHolds(s: State, c: nat, moved: Call)
    requires Inv(s) && c in s.calls && s.calls[c].phase.Placed?
    requires moved.stamp == s.calls[c].stamp && !Active(moved)
    requires CallInv(CommittedWorld(s.world, s.calls[c]), moved)
    ensures Inv(State(CommittedWorld(s.world, s.calls[c]), s.calls[c := moved]))
  {
    var call := s.calls[c];
    CommitIsLegal(s.world, call);
    forall d | d in s.calls && d != c
      ensures CallInv(CommittedWorld(s.world, call), s.calls[d]) && Apart(moved, s.calls[d])
    {
      assert Apart(call, s.calls[d]);
      OtherSurvivesCommit(s.world, call, s.calls[d]);
    }
    MoveAndPublish(s, CommittedWorld(s.world, call), c, moved);
  }

  lemma CommitKeeps(s: State, c: nat, acknowledged: bool)
    requires Inv(s) && Enabled(s, Commit(c, acknowledged))
    ensures Inv(Step(s, Commit(c, acknowledged)))
  {
    CommitterHolds(s.world, s.calls[c], acknowledged);
    CommittedStateHolds(s, c, s.calls[c].(phase := NextPhase(s, Commit(c, acknowledged))));
  }

  /* ---- every step, every run ---- */

  lemma StepKeepsInv(s: State, l: Label)
    requires Inv(s) && Enabled(s, l)
    ensures Inv(Step(s, l))
  {
    match l
    case Begin(c, request, stamp) => MoveCall(s, c, Call(request, stamp, |s.world.log|, AtLookup));
    case Lookup(_) => ReplayStepKeeps(s, l);
    case Flush(c) => FlushKeeps(s, c);
    case StartLocking(c) => StartLockingKeeps(s, c);
    case LockNext(c) => LockNextKeeps(s, c);
    case Place(c) => PlaceKeeps(s, c);
    case Commit(c, acknowledged) => CommitKeeps(s, c, acknowledged);
    case Recover(_) => ReplayStepKeeps(s, l);
    case Crash(c) => MoveInPlace(s, c, Crashed);
    case AddProduct(product, initial) => AddProductKeeps(s, product, initial);
  }

  lemma {:induction false} RunKeepsInv(ss: seq<State>, ls: seq<Label>, n: nat)
    requires IsRun(ss, ls) && n < |ss|
    ensures Inv(ss[n])
  {
    if n > 0 {
      RunKeepsInv(ss, ls, n - 1);
      StepKeepsInv(ss[n - 1], ls[n - 1]);
    }
  }
}
