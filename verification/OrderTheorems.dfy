/** Serializability, idempotency and conservation for every run of the order machine. */
module OrderTheorems {
  import opened Prelude
  import opened Texts
  import opened Models
  import opened Orders
  import opened OrderHistory
  import opened OrderMachine
  import Fingerprint

  /* ---- the history is the sequential specification run over the commits ---- */

  lemma ReplayNext(log: seq<Entry>, n: nat)
    requires n < |log| && LegalLog(log[..n]) && Legal(Replay(log[..n]), log[n])
    ensures LegalLog(log[..n + 1]) && Replay(log[..n + 1]) == Apply(Replay(log[..n]), log[n])
  {
    LegalExtends(log[..n], log[n]);
    assert log[..n + 1] == log[..n] + [log[n]];
  }

  lemma {:induction false} HistoryIsReplay(w: World, n: nat)
    requires HistoryInv(w) && n <= |w.log|
    ensures w.history[n] == Replay(w.log[..n]) && LegalLog(w.log[..n])
  {
    if n > 0 {
      HistoryIsReplay(w, n - 1);
      assert Legal(w.history[n - 1], w.log[n - 1]) && w.history[n - 1 + 1] == Apply(w.history[n - 1], w.log[n - 1]);
      ReplayNext(w.log, n - 1);
    }
  }

  lemma CurrentIsReplay(w: World)
    requires HistoryInv(w)
    ensures w.db == Replay(w.log) && LegalLog(w.log)
  {
    HistoryIsReplay(w, |w.log|);
    assert w.log[..|w.log|] == w.log;
  }

  /** What a step adds to the serial order. */
  ghost function Commits(s: State, l: Label): seq<Entry>
    requires Enabled(s, l)
  {
    match l
    case Commit(c, _) => [Placing(s.calls[c].request, s.calls[c].stamp)]
    case AddProduct(product, initial) => [Stocking(product, initial)]
    case _ => []
  }

  ghost function CommitOrder(ss: seq<State>, ls: seq<Label>, n: nat): seq<Entry>
    requires IsRun(ss, ls) && n <= |ls|
  {
    if n == 0 then [] else CommitOrder(ss, ls, n - 1) + Commits(ss[n - 1], ls[n - 1])
  }

  lemma {:induction false} LogIsCommitOrder(ss: seq<State>, ls: seq<Label>, n: nat)
    requires IsRun(ss, ls) && n <= |ls|
    ensures ss[n].world.log == CommitOrder(ss, ls, n)
  {
    if n > 0 {
      LogIsCommitOrder(ss, ls, n - 1);
    }
  }

  /** In every run the committed database is the specification run, one call at a time, over the commits in their order. */
  lemma Serializable(ss: seq<State>, ls: seq<Label>, n: nat)
    requires IsRun(ss, ls) && n <= |ls|
    ensures ss[n].world.db == Replay(CommitOrder(ss, ls, n))
    ensures LegalLog(CommitOrder(ss, ls, n))
  {
    RunKeepsInv(ss, ls, n);
    LogIsCommitOrder(ss, ls, n);
    CurrentIsReplay(ss[n].world);
  }

  /* ---- every outcome is the specification's at some moment of the call ---- */

  lemma {:induction false} RunExtends(ss: seq<State>, ls: seq<Label>, m: nat, n: nat)
    requires IsRun(ss, ls) && m <= n < |ss|
    ensures ss[m].world.history <= ss[n].world.history
    decreases n - m
  {
    if m < n {
      RunExtends(ss, ls, m, n - 1);
    }
  }

  lemma {:induction false} CallPersists(ss: seq<State>, ls: seq<Label>, c: nat, m: nat, n: nat)
    requires IsRun(ss, ls) && m <= n < |ss| && c in ss[m].calls
    ensures c in ss[n].calls
    ensures ss[n].calls[c].(phase := Crashed) == ss[m].calls[c].(phase := Crashed)
    decreases n - m
  {
    if m < n {
      CallPersists(ss, ls, c, m, n - 1);
    }
  }

  lemma {:induction false} HistoryReaches(ss: seq<State>, ls: seq<Label>, m: nat, n: nat, at: nat) returns (k: nat)
    requires IsRun(ss, ls) && m <= n < |ss|
    requires |ss[m].world.history| <= at + 1 <= |ss[n].world.history|
    ensures m <= k <= n && |ss[k].world.history| == at + 1
    decreases n - m
  {
    if |ss[n].world.history| == at + 1 {
      k := n;
    } else {
      k := HistoryReaches(ss, ls, m, n - 1, at);
    }
  }

  /** A call that began at one step and has returned by another returned what the specification gives on the database as it was at some moment between them. */
  lemma Linearizable(ss: seq<State>, ls: seq<Label>, c: nat, begin: nat, end: nat) returns (k: nat)
    requires IsRun(ss, ls) && begin < end < |ss|
    requires ls[begin].Begin? && ls[begin].c == c
    requires c in ss[end].calls && ss[end].calls[c].phase.Returned?
    ensures begin < k <= end
    ensures Spec(ss[k].world.db, ls[begin].request, ls[begin].stamp) == ss[end].calls[c].phase.outcome
  {
    RunKeepsInv(ss, ls, begin);
    RunKeepsInv(ss, ls, end);
    CallPersists(ss, ls, c, begin + 1, end);
    var at := ss[end].calls[c].phase.at;
    k := HistoryReaches(ss, ls, begin + 1, end, at);
    RunKeepsInv(ss, ls, k);
    RunExtends(ss, ls, k, end);
  }

  /* ---- idempotency ---- */

  ghost predicate ReturnedOrder(call: Call, order: Order) {
    && call.phase.Returned?
    && (call.phase.outcome == Created(order) || call.phase.outcome == Replayed(order))
  }

  lemma CreatedSpec(db: Db, request: Request, stamp: Stamp, order: Order)
    requires Spec(db, request, stamp) == Created(order)
    ensures order.id == stamp.orderId && order.customer == request.customer
    ensures order.key == request.key && order.hash == request.hash
    ensures order in Execute(db, request, stamp).orders
  {
    CreatedOrderOf(request, stamp, db.products, order);
  }

  lemma FoundSince(w: World, n: nat, order: Order)
    requires HistoryInv(w) && n < |w.history| && order in w.history[n].orders
    ensures Find(w.db.orders, order.customer, order.key) == Some(order)
  {
    HistoryIsReplay(w, n);
    CurrentIsReplay(w);
    FoundForGood(w.log, n, order);
  }

  /** Whoever gets an order gets the one committed under its key, with its own request hash. */
  lemma ReturnedOrderIsTheOne(s: State, c: nat, order: Order)
    requires Inv(s) && c in s.calls && ReturnedOrder(s.calls[c], order)
    ensures FindOwn(s.world.db, s.calls[c]) == Some(order) && order.hash == s.calls[c].request.hash
  {
    var call, w := s.calls[c], s.world;
    var at := call.phase.at;
    assert CallInv(w, call);
    if call.phase.outcome.Created? {
      CreatedSpec(w.history[at], call.request, call.stamp, order);
      FoundSince(w, at + 1, order);
    } else {
      assert Spec(w.history[at], call.request, call.stamp) == Replayed(order);
      FoundSince(w, at, order);
    }
  }

  /** All calls with one key that get an order get the same order, so their hashes agree. */
  lemma OneOrderPerKey(s: State, c: nat, d: nat, mine: Order, theirs: Order)
    requires Inv(s) && c in s.calls && d in s.calls && SameKey(s.calls[c], s.calls[d])
    requires ReturnedOrder(s.calls[c], mine) && ReturnedOrder(s.calls[d], theirs)
    ensures mine == theirs && s.calls[c].request.hash == s.calls[d].request.hash
  {
    ReturnedOrderIsTheOne(s, c, mine);
    ReturnedOrderIsTheOne(s, d, theirs);
  }

  /** At most one call per key is told that it created the order. */
  lemma OneCreatorPerKey(s: State, c: nat, d: nat)
    requires Inv(s) && c in s.calls && d in s.calls && SameKey(s.calls[c], s.calls[d])
    requires s.calls[c].phase.Returned? && s.calls[c].phase.outcome.Created?
    requires s.calls[d].phase.Returned? && s.calls[d].phase.outcome.Created?
    ensures c == d
  {
    var mine, theirs := s.calls[c].phase.outcome.order, s.calls[d].phase.outcome.order;
    OneOrderPerKey(s, c, d, mine, theirs);
    CreatedSpec(s.world.history[s.calls[c].phase.at], s.calls[c].request, s.calls[c].stamp, mine);
    CreatedSpec(s.world.history[s.calls[d].phase.at], s.calls[d].request, s.calls[d].stamp, theirs);
    assert SameStamp(s.calls[c].stamp, s.calls[d].stamp);
  }

  /** The conflict error is returned exactly to calls whose key holds an order with another hash. */
  lemma ConflictMeansOtherHash(s: State, c: nat)
    requires Inv(s) && c in s.calls && s.calls[c].phase.Returned?
    ensures s.calls[c].phase.outcome.KeyConflict? ==>
              var found := FindOwn(s.world.db, s.calls[c]);
              found.Some? && found.value.hash != s.calls[c].request.hash
    ensures s.calls[c].phase.outcome.Created? || s.calls[c].phase.outcome.Replayed? ==>
              var found := FindOwn(s.world.db, s.calls[c]);
              found.Some? && found.value.hash == s.calls[c].request.hash
  {
    var call, w := s.calls[c], s.world;
    assert CallInv(w, call);
    if call.phase.outcome.KeyConflict? {
      var earlier := FindOwn(w.history[call.phase.at], call).value;
      FoundSince(w, call.phase.at, earlier);
    } else if call.phase.outcome.Created? || call.phase.outcome.Replayed? {
      ReturnedOrderIsTheOne(s, c, call.phase.outcome.order);
    }
  }

  /** After a unique violation the second lookup always finds the order: the final re-raise never runs. */
  lemma RecoveryAlwaysFinds(s: State, c: nat)
    requires Inv(s) && Enabled(s, Recover(c))
    ensures NextPhase(s, Recover(c)).Returned?
    ensures var outcome := NextPhase(s, Recover(c)).outcome; outcome.Replayed? || outcome.KeyConflict?
  {
    assert CallInv(s.world, s.calls[c]);
  }

  /* ---- a duplicate never sees a false shortage ---- */

  predicate Rejection(outcome: Outcome) {
    outcome.ProductsNotFound? || outcome.InsufficientStock? || outcome.AmountTooLarge?
  }

  lemma {:induction false} KeyStaysFree(ss: seq<State>, ls: seq<Label>, call: Call, m: nat, n: nat)
    requires IsRun(ss, ls) && m <= n < |ss| && FindOwn(ss[n].world.db, call).None?
    ensures FindOwn(ss[m].world.db, call).None?
  {
    RunKeepsInv(ss, ls, m);
    RunKeepsInv(ss, ls, n);
    RunExtends(ss, ls, m, n);
    if FindOwn(ss[m].world.db, call).Some? {
      FoundSince(ss[n].world, |ss[m].world.log|, FindOwn(ss[m].world.db, call).value);
    }
  }

  /** Only placing returns a rejection. */
  lemma RejectionIsPlace(s: State, l: Label, c: nat)
    requires Enabled(s, l) && c in s.calls && !s.calls[c].phase.Returned?
    requires Step(s, l).calls[c].phase.Returned? && Rejection(Step(s, l).calls[c].phase.outcome)
    ensures l == Place(c)
  {
  }

  lemma PlacingHoldsTheKey(s: State, c: nat)
    requires Inv(s) && Enabled(s, Place(c))
    ensures Reserves(s.calls[c]) && FindOwn(s.world.db, s.calls[c]).None?
    ensures forall d :: d in s.calls && d != c && SameKey(s.calls[c], s.calls[d]) ==> !Reserves(s.calls[d])
  {
    assert CallInv(s.world, s.calls[c]);
    forall d | d in s.calls && d != c && SameKey(s.calls[c], s.calls[d])
      ensures !Reserves(s.calls[d])
    {
      assert Apart(s.calls[c], s.calls[d]);
    }
  }

  /** A step that rejects a call finds it holding its key, with no order under that key committed up to then and no twin holding it. */
  lemma RejectedOnlyByItself(ss: seq<State>, ls: seq<Label>, i: nat, c: nat)
    requires IsRun(ss, ls) && i < |ls|
    requires c in ss[i].calls && !ss[i].calls[c].phase.Returned?
    requires ss[i + 1].calls[c].phase.Returned? && Rejection(ss[i + 1].calls[c].phase.outcome)
    ensures Reserves(ss[i].calls[c])
    ensures forall m :: 0 <= m <= i ==> FindOwn(ss[m].world.db, ss[i].calls[c]).None?
    ensures forall d :: d in ss[i].calls && d != c && SameKey(ss[i].calls[c], ss[i].calls[d]) ==> !Reserves(ss[i].calls[d])
  {
    RunKeepsInv(ss, ls, i);
    RejectionIsPlace(ss[i], ls[i], c);
    PlacingHoldsTheKey(ss[i], c);
    forall m | 0 <= m <= i
      ensures FindOwn(ss[m].world.db, ss[i].calls[c]).None?
    {
      KeyStaysFree(ss, ls, ss[i].calls[c], m, i);
    }
  }

  /* ---- a replayed order answers the same request body ---- */

  function BodyOf(lines: seq<OrderItem>): (items: seq<Item>)
    ensures |items| == |lines|
    ensures forall i :: 0 <= i < |lines| ==> items[i] == Item(lines[i].product, lines[i].quantity)
  {
    if lines == [] then []
    else BodyOf(lines[..|lines| - 1]) + [Item(lines[|lines| - 1].product, lines[|lines| - 1].quantity)]
  }

  /** The router hashes the validated body before it calls the service. */
  ghost predicate Hashed(request: Request, digest: string -> string) {
    request.hash == Fingerprint.FingerprintOf(request.customer, request.items, digest)
  }

  lemma {:induction false} OrderOrigin(log: seq<Entry>, order: Order) returns (i: nat)
    requires LegalLog(log) && order in Replay(log).orders
    ensures i < |log| && log[i].Placing? && Valid(log[i].request)
    ensures order.customer == log[i].request.customer && order.hash == log[i].request.hash
    ensures BodyOf(order.items) == log[i].request.items
  {
    var n := |log| - 1;
    assert Legal(Replay(log[..n]), log[n]);
    if order in Replay(log[..n]).orders {
      LegalPrefix(log, n);
      i := OrderOrigin(log[..n], order);
    } else {
      i := n;
      CreatedOrderOf(log[n].request, log[n].stamp, Replay(log[..n]).products, order);
    }
  }

  ghost predicate AllHashed(s: State, digest: string -> string) {
    && (forall c :: c in s.calls ==> Hashed(s.calls[c].request, digest))
    && (forall i :: 0 <= i < |s.world.log| && s.world.log[i].Placing? ==> Hashed(s.world.log[i].request, digest))
  }

  /** A step changes no request and adds at most one, or one entry to the log. */
  lemma StepKeepsRequests(s: State, l: Label)
    requires Enabled(s, l)
    ensures forall c :: c in Step(s, l).calls ==>
                          if c in s.calls then Step(s, l).calls[c].request == s.calls[c].request
                          else l.Begin? && Step(s, l).calls[c].request == l.request
    ensures Step(s, l).world.log == s.world.log + Commits(s, l)
  {
  }

  lemma StepKeepsHashed(s: State, l: Label, digest: string -> string)
    requires AllHashed(s, digest) && Enabled(s, l) && (l.Begin? ==> Hashed(l.request, digest))
    ensures AllHashed(Step(s, l), digest)
  {
    StepKeepsRequests(s, l);
  }

  lemma {:induction false} RunKeepsHashed(ss: seq<State>, ls: seq<Label>, n: nat, digest: string -> string)
    requires IsRun(ss, ls) && n < |ss|
    requires forall i :: 0 <= i < |ls| && ls[i].Begin? ==> Hashed(ls[i].request, digest)
    ensures AllHashed(ss[n], digest)
  {
    if n > 0 {
      RunKeepsHashed(ss, ls, n - 1, digest);
      StepKeepsHashed(ss[n - 1], ls[n - 1], digest);
    }
  }

  /** If every request hash is the fingerprint of its body, a call only ever gets an order for its own customer and items. */
  lemma ReplayAnswersTheSameBody(ss: seq<State>, ls: seq<Label>, n: nat, c: nat, order: Order, digest: string -> string)
    requires IsRun(ss, ls) && n < |ss| && c in ss[n].calls && ReturnedOrder(ss[n].calls[c], order)
    requires Fingerprint.Injective(digest)
    requires forall i :: 0 <= i < |ls| && ls[i].Begin? ==> Hashed(ls[i].request, digest)
    ensures multiset(BodyOf(order.items)) == multiset(ss[n].calls[c].request.items)
  {
    var request := ss[n].calls[c].request;
    RunKeepsInv(ss, ls, n);
    ReturnedOrderIsTheOne(ss[n], c, order);
    CurrentIsReplay(ss[n].world);
    var i := OrderOrigin(ss[n].world.log, order);
    RunKeepsHashed(ss, ls, n, digest);
    var origin := ss[n].world.log[i].request;
    assert CallInv(ss[n].world, ss[n].calls[c]);
    Fingerprint.FingerprintIsCanonical(origin.customer, origin.items, request.customer, request.items, digest);
  }

  /* ---- conservation and the books, in every reachable state ---- */

  /** Stock in hand plus units sold over all committed orders is the stock each product was created with, and never negative. */
  lemma EveryStateBalances(ss: seq<State>, ls: seq<Label>, n: nat, product: Uuid)
    requires IsRun(ss, ls) && n < |ss|
    ensures InStock(ss[n].world.db, product) + UnitsSold(ss[n].world.db.orders, product)
         == Supplied(CommitOrder(ss, ls, n), product)
    ensures InStock(ss[n].world.db, product) >= 0
    ensures Books(ss[n].world.db)
  {
    Serializable(ss, ls, n);
    StockIsConserved(CommitOrder(ss, ls, n), product);
    HistoryKeepsBooks(CommitOrder(ss, ls, n));
  }
}
