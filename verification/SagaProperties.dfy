/** What holds in every reachable world of the saga. */
module SagaProperties {
  import opened Domain
  import opened Pricing
  import opened Transactions
  import opened Events
  import opened Saga
  import Ledger
  import Balances

  lemma {:induction false} ExecInv(e: Engine, t0: Tables, moves: seq<Move>)
    requires e.Valid() && FreshDatabase(t0) && Exec(e, Start(t0), moves).Some?
    ensures Inv(e, t0, Exec(e, Start(t0), moves).value)
  {
    if moves != [] {
      var init := moves[..|moves| - 1];
      ExecInv(e, t0, init);
      NextKeepsInv(e, t0, Exec(e, Start(t0), init).value, moves[|moves| - 1]);
    }
  }

  lemma ReachableInv(e: Engine, t0: Tables, w: World)
    requires e.Valid() && FreshDatabase(t0) && Reachable(e, t0, w)
    ensures Inv(e, t0, w)
  {
    var moves :| Exec(e, Start(t0), moves) == Some(w);
    ExecInv(e, t0, moves);
  }

  lemma ExecSnoc(e: Engine, w: World, moves: seq<Move>, m: Move)
    ensures var before := Exec(e, w, moves);
            Exec(e, w, moves + [m]) ==
              if before.Some? && Enabled(e, before.value, m) then Some(Next(e, before.value, m)) else None
  {
    assert (moves + [m])[..|moves|] == moves;
  }

  lemma ReachNext(e: Engine, t0: Tables, w: World, m: Move)
    requires Reachable(e, t0, w) && Enabled(e, w, m)
    ensures Reachable(e, t0, Next(e, w, m))
  {
    var moves :| Exec(e, Start(t0), moves) == Some(w);
    ExecSnoc(e, Start(t0), moves, m);
  }

  ghost predicate Reaches(e: Engine, w: World, w': World)
  {
    exists moves :: Exec(e, w, moves) == Some(w')
  }

  lemma ReachesItself(e: Engine, w: World)
    ensures Reaches(e, w, w)
  {
    assert Exec(e, w, []) == Some(w);
  }

  lemma ReachesNext(e: Engine, w0: World, w: World, m: Move)
    requires Reaches(e, w0, w) && Enabled(e, w, m)
    ensures Reaches(e, w0, Next(e, w, m))
  {
    var moves :| Exec(e, w0, moves) == Some(w);
    ExecSnoc(e, w0, moves, m);
  }

  lemma {:induction false} ExecJoin(e: Engine, w0: World, first: seq<Move>, later: seq<Move>)
    requires Exec(e, w0, first).Some?
    ensures Exec(e, w0, first + later) == Exec(e, Exec(e, w0, first).value, later)
  {
    if later == [] {
      assert first + later == first;
    } else {
      var init, m := later[..|later| - 1], later[|later| - 1];
      ExecJoin(e, w0, first, init);
      ExecSnoc(e, w0, first + init, m);
      assert first + later == first + init + [m];
    }
  }

  lemma ReachesJoin(e: Engine, w0: World, w1: World, w2: World)
    requires Reaches(e, w0, w1) && Reaches(e, w1, w2)
    ensures Reaches(e, w0, w2)
  {
    var first :| Exec(e, w0, first) == Some(w1);
    var later :| Exec(e, w1, later) == Some(w2);
    ExecJoin(e, w0, first, later);
  }

  lemma ReachableThen(e: Engine, t0: Tables, w: World, w': World)
    requires Reachable(e, t0, w) && Reaches(e, w, w')
    ensures Reachable(e, t0, w')
  {
    var first :| Exec(e, Start(t0), first) == Some(w);
    var later :| Exec(e, w, later) == Some(w');
    ExecJoin(e, Start(t0), first, later);
  }

  // ------------------------------------------------------------ the simple ledger and the balances

  /** With duplicate deliveries, several quotes an order and crashes anywhere, the database is what the
   *  simple ledger makes of the transactions so far. */
  lemma WorldRefinesLedger(e: Engine, t0: Tables, w: World)
    requires e.Valid() && FreshDatabase(t0) && Reachable(e, t0, w)
    ensures Ledger.PostAll(Ledger.View(t0), Ledger.Entries(t0, w.history)) == Some(Ledger.View(w.db))
  {
    ReachableInv(e, t0, w);
    Ledger.RunRefines(t0, w.history);
  }

  /** Balances are the starting ones plus what the orders table says, whatever was delivered how often. */
  lemma WorldBalances(e: Engine, t0: Tables, w: World)
    requires e.Valid() && FreshDatabase(t0) && Reachable(e, t0, w)
    ensures Balances.Balanced(Ledger.View(w.db), Balances.OpeningRun(Balances.OpeningOf(t0), Ledger.Entries(t0, w.history)))
    ensures Seeded(t0) ==> Balances.Balanced(Ledger.View(w.db), Balances.OpeningOf(t0))
  {
    ReachableInv(e, t0, w);
    Balances.OpensBalanced(t0);
    Balances.BalancesOverRun(t0, Balances.OpeningOf(t0), w.history);
    if Seeded(t0) {
      Balances.SeededOpening(t0, Balances.OpeningOf(t0), w.history);
    }
  }

  /** Once the demo seed has completed, two worlds with equal orders tables have equal balances. */
  lemma WorldsAgree(e: Engine, t0: Tables, w: World, w': World)
    requires e.Valid() && FreshDatabase(t0) && Seeded(t0) && Reachable(e, t0, w) && Reachable(e, t0, w')
    requires w.db.orders == w'.db.orders
    ensures Balances.SameBalances(w.db, w'.db)
  {
    WorldBalances(e, t0, w);
    WorldBalances(e, t0, w');
    Balances.BalancesFromOrders(w.db, w'.db, Balances.OpeningOf(t0));
  }

  // ------------------------------------------------------------ events and rows

  /** Every event on any topic names a committed order and tells the truth about it; its symbol is a
   *  fixed point of trim-and-uppercase, as are the symbols of all holdings. */
  lemma EventsAreTrue(e: Engine, t0: Tables, w: World, i: nat)
    requires e.Valid() && FreshDatabase(t0) && Reachable(e, t0, w) && i < |w.log|
    ensures w.log[i].order in w.db.orders && TrueOf(e, w.db.orders[w.log[i].order], w.log[i].payload)
    ensures !w.log[i].payload.OrderRejected? ==>
              w.log[i].payload.symbol == Normalize(w.db.orders[w.log[i].order].symbol) && IsNormal(w.log[i].payload.symbol)
    ensures w.log[i].payload.OrderCreated? || w.log[i].payload.OrderExecuted? ==>
              var row, p := w.db.orders[w.log[i].order], w.log[i].payload;
              p.user == row.user && p.side == row.side && p.quantity == row.quantity
    ensures w.log[i].payload.PriceQuoted? ==>
              var p := w.log[i].payload;
              && p.symbol in e.bases && p.symbol !in e.failing
              && exists bps :: -BAND_BPS <= bps <= BAND_BPS && p.price == Jitter(e.bases[p.symbol], bps)
    ensures w.log[i].payload.OrderRejected? ==>
              var asset, p := Normalize(w.db.orders[w.log[i].order].symbol), w.log[i].payload;
              match p.reason
              case UnknownSymbol => asset !in e.bases && asset !in e.failing && p.detail == NoSuchSymbol(asset)
              case MarketUnavailable => asset in e.failing && p.detail == NoMarket(asset)
              case InsufficientBalance => asset in e.bases && asset !in e.failing && p.detail.ShortOfCash?
              case InsufficientAsset => asset in e.bases && asset !in e.failing && p.detail.ShortOfAsset?
              case InvalidOrder => false
    ensures var row, p := w.db.orders[w.log[i].order], w.log[i].payload;
            && (p.OrderExecuted? ==> row.status.Executed? && row.price == Some(p.price))
            && (p.OrderRejected? && (p.detail.ShortOfCash? || p.detail.ShortOfAsset?) ==>
                  row.status.Rejected? && row.reason == Some(p.detail))
    ensures forall slot <- w.db.holdings :: IsNormal(slot.1)
  {
    ReachableInv(e, t0, w);
    assert TrueIn(e, w.db, w.log[i].order, w.log[i].payload);
    NormalizeIsNormal(w.db.orders[w.log[i].order].symbol);
  }

  /** Every executed order is for a listed symbol that is not failing, and was executed at a positive price
   *  that lies outside the two percent band around its base by half a cent at most. */
  lemma ExecutedNearBase(e: Engine, t0: Tables, w: World, o: OrderId)
    requires e.Valid() && FreshDatabase(t0) && Reachable(e, t0, w)
    requires o in w.db.orders && w.db.orders[o].status.Executed?
    ensures var asset := Normalize(w.db.orders[o].symbol);
            w.db.orders[o].price.Some? && asset in e.bases && asset !in e.failing
    ensures var base, price := e.bases[Normalize(w.db.orders[o].symbol)], w.db.orders[o].price.value;
            && price >= 1
            && 2 * (10_000 * price - base * 10_200) <= 10_000 && 2 * (base * 9_800 - 10_000 * price) <= 10_000
  {
    ReachableInv(e, t0, w);
    assert RowConsistent(w.db.orders[o]);
    QuoteNearBase(e, w.db.orders[o].Asset(), w.db.orders[o].price.value);
  }

  lemma QuoteNearBase(e: Engine, symbol: string, price: int)
    requires e.Valid() && IsQuote(e, symbol, price)
    ensures var base := e.Lookup(symbol).base;
            && price >= 1
            && 2 * (BPS_ONE * price - base * (BPS_ONE + BAND_BPS)) <= BPS_ONE
            && 2 * (base * (BPS_ONE - BAND_BPS) - BPS_ONE * price) <= BPS_ONE
  {
    var base := e.Lookup(symbol).base;
    var bps :| -BAND_BPS <= bps <= BAND_BPS && price == Jitter(base, bps);
    QuotePositiveAndClose(base, bps);
    BandMissedByHalfACent(base, bps);
  }

  /** Every id in the ledger of processed events belongs to an order that is terminal, and a row has a
   *  price exactly when EXECUTED, a reason exactly when REJECTED, and is never PRICED. */
  lemma RowsAndLedger(e: Engine, t0: Tables, w: World)
    requires e.Valid() && FreshDatabase(t0) && Reachable(e, t0, w)
    ensures forall ev <- w.db.processed :: HasMessage(w, ev)
    ensures forall o <- w.db.orders ::
              var row := w.db.orders[o];
              && (row.status == Created || row.status == OrderStatus.Executed || row.status == OrderStatus.Rejected)
              && (row.price.Some? <==> row.status == OrderStatus.Executed) && (row.reason.Some? <==> row.status == OrderStatus.Rejected)
              && (Terminal(w.db, o) <==> row.status == OrderStatus.Executed || row.status == OrderStatus.Rejected)
  {
    ReachableInv(e, t0, w);
  }

  /** Portfolio publishes at most one outcome an order. */
  lemma AtMostOneOutcome(e: Engine, t0: Tables, w: World, i: nat, j: nat)
    requires e.Valid() && FreshDatabase(t0) && Reachable(e, t0, w) && i < |w.log| && j < |w.log|
    requires IsOutcome(w.log[i].payload) && IsOutcome(w.log[j].payload) && w.log[i].order == w.log[j].order
    ensures i == j
  {
    ReachableInv(e, t0, w);
  }

  lemma ExecutionSays(e: Engine, t: Tables, o: OrderId, p: Payload)
    requires TrueIn(e, t, o, p) && p.OrderExecuted?
    ensures t.orders[o].status.Executed? && e.Lookup(t.orders[o].Asset()).Listed?
  {
  }

  lemma RejectionSays(e: Engine, t: Tables, o: OrderId, p: Payload)
    requires TrueIn(e, t, o, p) && p.OrderRejected?
    ensures t.orders[o].status.Rejected? || !e.Lookup(t.orders[o].Asset()).Listed?
  {
  }

  /** With a fixed catalogue and failing set, no order has both an execution and a rejection published,
   *  by whichever service and however often Market answered. */
  lemma NeverBoth(e: Engine, t0: Tables, w: World, i: nat, j: nat)
    requires e.Valid() && FreshDatabase(t0) && Reachable(e, t0, w) && i < |w.log| && j < |w.log|
    requires w.log[i].payload.OrderExecuted? && w.log[j].payload.OrderRejected?
    ensures w.log[i].order != w.log[j].order
  {
    ReachableInv(e, t0, w);
    ExecutionSays(e, w.db, w.log[i].order, w.log[i].payload);
    RejectionSays(e, w.db, w.log[j].order, w.log[j].payload);
  }

  lemma {:induction false} ExecOnward(e: Engine, w: World, moves: seq<Move>)
    requires Exec(e, w, moves).Some?
    ensures Onward(w.db, Exec(e, w, moves).value.db)
  {
    if moves != [] {
      var init, m := moves[..|moves| - 1], moves[|moves| - 1];
      ExecOnward(e, w, init);
      var before := Exec(e, w, init).value;
      if Committed(before, m).Some? {
        ApplyOnward(before.db, Committed(before, m).value);
      }
    }
  }

  /** A published execution agrees field by field with its row, now and for ever after. */
  lemma ExecutionIsForEver(e: Engine, t0: Tables, w: World, i: nat, later: seq<Move>)
    requires e.Valid() && FreshDatabase(t0) && Reachable(e, t0, w) && i < |w.log| && w.log[i].payload.OrderExecuted?
    requires Exec(e, w, later).Some?
    ensures var o, p, t := w.log[i].order, w.log[i].payload, Exec(e, w, later).value.db;
            && o in w.db.orders && o in t.orders && t.orders[o] == w.db.orders[o]
            && t.orders[o].status.Executed? && t.orders[o].price == Some(p.price)
            && t.orders[o].user == p.user && t.orders[o].Asset() == p.symbol
            && t.orders[o].side == p.side && t.orders[o].quantity == p.quantity
  {
    ReachableInv(e, t0, w);
    assert TrueIn(e, w.db, w.log[i].order, w.log[i].payload);
    ExecOnward(e, w, later);
  }

  /** Portfolio consuming its own rejection changes the event ledger at most, never the stored
   *  reason. */
  lemma OwnRejectionIsIdle(e: Engine, t0: Tables, w: World, i: nat)
    requires e.Valid() && FreshDatabase(t0) && Reachable(e, t0, w) && i < |w.log|
    requires w.log[i].payload.OrderRejected? && OwnReason(w.log[i].payload.reason)
    ensures Apply(w.db, Request(w.log[i])) == w.db.(processed := w.db.processed + {w.log[i].event})
    ensures w.log[i].order in w.db.orders && w.db.orders[w.log[i].order].reason == Some(w.log[i].payload.detail)
  {
    ReachableInv(e, t0, w);
    assert TrueIn(e, w.db, w.log[i].order, w.log[i].payload);
    SettledIsIdle(w.db, Request(w.log[i]));
  }

  // ------------------------------------------------------------ live tokens

  /** A message that some service still has to handle or acknowledge. */
  predicate Outstanding(w: World, i: nat)
  {
    Open(w, i) && !w.log[i].payload.OrderExecuted?
  }

  /** The order's POST is still to send, or one of its messages is outstanding. */
  predicate HasToken(w: World, o: OrderId)
  {
    o in w.unsent || exists i :: 0 <= i < |w.log| && Outstanding(w, i) && w.log[i].order == o
  }

  /** No request about a CREATED order has been handled. */
  lemma CreatedUnhandled(w: World, i: nat)
    requires HandledWell(w) && i < |w.log| && ForPortfolio(w.log[i].payload) && IsCreated(w.db, w.log[i].order)
    ensures i !in w.handled
  {
  }

  /** Every CREATED order has a live token, unless its POST died between insert and send or one of its
   *  messages was passed over unhandled. */
  lemma CreatedHasToken(e: Engine, t0: Tables, w: World, o: OrderId)
    requires e.Valid() && FreshDatabase(t0) && Reachable(e, t0, w) && IsCreated(w.db, o)
    ensures HasToken(w, o) || o in w.abandoned
  {
    ReachableInv(e, t0, w);
    assert Accounted(w, o);
    if o !in w.unsent && o !in w.abandoned {
      var i :| 0 <= i < |w.log| && w.log[i].order == o && w.log[i].payload.OrderCreated?;
      if i in w.acked {
        assert WellHandled(w, i);
        var j :| 0 <= j < |w.log| && w.log[j].order == o && IsAnswer(w.log[j].payload);
        CreatedUnhandled(w, j);
        assert Outstanding(w, j);
      } else {
        assert Outstanding(w, i);
      }
    }
  }

  /** Nothing of the order is left to happen. */
  predicate Stranded(w: World, o: OrderId)
  {
    IsCreated(w.db, o) && !HasToken(w, o)
  }

  lemma StrandedStays(e: Engine, t0: Tables, w: World, m: Move, o: OrderId)
    requires Inv(e, t0, w) && Enabled(e, w, m) && Stranded(w, o)
    ensures Stranded(Next(e, w, m), o)
  {
    var w' := Next(e, w, m);
    forall i | 0 <= i < |w'.log| && w'.log[i].order == o
      ensures !Outstanding(w', i)
    {
      if i < |w.log| {
        assert !Outstanding(w, i);
      } else {
        NotPublished(e, w, m, o);
      }
    }
    StrandedRow(e, w, m, o);
  }

  lemma StrandedRow(e: Engine, w: World, m: Move, o: OrderId)
    requires WellFormed(w.db) && Truthful(e, w) && Enabled(e, w, m) && Stranded(w, o)
    ensures IsCreated(Next(e, w, m).db, o) && o !in Next(e, w, m).unsent
  {
    match m
    case PostInserts(id, request) => PlaceEffect(w.db, Place(id, request));
    case Transacts(msg) =>
      assert Outstanding(w, msg);
      assert w.log[msg].order != o;
      OtherOrdersKept(w.db, Request(w.log[msg]), o);
    case Seeds(a) => OtherOrdersKept(w.db, a, o);
    case _ =>
  }

  /** Neither a request for another order nor a seed touches this one. */
  lemma OtherOrdersKept(t: Tables, a: Action, o: OrderId)
    requires o in t.orders && !a.Place? && (IsRequest(a) ==> a.order != o)
    ensures o in Apply(t, a).orders && Apply(t, a).orders[o] == t.orders[o]
  {
    match a
    case SeedUser => SeedUserEffect(t);
    case SeedCash => SeedCashEffect(t);
    case SeedHolding => SeedHoldingEffect(t);
    case _ =>
  }

  lemma NotPublished(e: Engine, w: World, m: Move, o: OrderId)
    requires Truthful(e, w) && Enabled(e, w, m) && Stranded(w, o) && |Next(e, w, m).log| > |w.log|
    ensures Next(e, w, m).log[|w.log|].order != o
  {
    match m
    case MarketReplies(msg, _) => assert Outstanding(w, msg);
    case OutcomeSent(msg) => OutcomeTerminal(e, w.db, w.log[msg].order, w.sending[msg]);
    case _ =>
  }

  lemma {:induction false} StrandedForEver(e: Engine, t0: Tables, w: World, moves: seq<Move>, o: OrderId)
    requires Inv(e, t0, w) && Stranded(w, o) && Exec(e, w, moves).Some?
    ensures Inv(e, t0, Exec(e, w, moves).value) && Stranded(Exec(e, w, moves).value, o)
  {
    if moves != [] {
      var init, m := moves[..|moves| - 1], moves[|moves| - 1];
      StrandedForEver(e, t0, w, init, o);
      NextKeepsInv(e, t0, Exec(e, w, init).value, m);
      StrandedStays(e, t0, Exec(e, w, init).value, m, o);
    }
  }

  // ------------------------------------------------------------ the token is exactly what resolves an order

  ghost predicate CanResolve(e: Engine, w: World, o: OrderId)
  {
    exists moves :: Exec(e, w, moves).Some? && Terminal(Exec(e, w, moves).value.db, o)
  }

  lemma {:induction false} ExecPrepend(e: Engine, w: World, m: Move, moves: seq<Move>)
    requires Enabled(e, w, m)
    ensures Exec(e, w, [m] + moves) == Exec(e, Next(e, w, m), moves)
  {
    if moves == [] {
      ExecSnoc(e, w, [], m);
      assert [] + [m] == [m] + moves;
    } else {
      var init, last := moves[..|moves| - 1], moves[|moves| - 1];
      ExecPrepend(e, w, m, init);
      ExecSnoc(e, w, [m] + init, last);
      assert [m] + moves == [m] + init + [last];
    }
  }

  lemma ResolvesAfter(e: Engine, w: World, m: Move, o: OrderId)
    requires Enabled(e, w, m) && CanResolve(e, Next(e, w, m), o)
    ensures CanResolve(e, w, o)
  {
    var w' := Next(e, w, m);
    var moves :| Exec(e, w', moves).Some? && Terminal(Exec(e, w', moves).value.db, o);
    ExecPrepend(e, w, m, moves);
  }

  lemma ResolvedNow(e: Engine, w: World, o: OrderId)
    requires Terminal(w.db, o)
    ensures CanResolve(e, w, o)
  {
    assert Exec(e, w, []) == Some(w);
  }

  lemma ResolvesByRequest(e: Engine, t0: Tables, w: World, i: nat)
    requires Inv(e, t0, w) && Open(w, i) && ForPortfolio(w.log[i].payload)
    ensures CanResolve(e, w, w.log[i].order)
  {
    RequestSettles(e, w.db, w.log[i]);
    if w.log[i].event in w.db.processed {
      AlreadyTerminal(w, i);
      ResolvedNow(e, w, w.log[i].order);
    } else {
      ResolvedNow(e, Next(e, w, Transacts(i)), w.log[i].order);
      ResolvesAfter(e, w, Transacts(i), w.log[i].order);
    }
  }

  lemma ResolvesByReply(e: Engine, t0: Tables, w: World, i: nat)
    requires Inv(e, t0, w) && Open(w, i) && w.log[i].payload.OrderCreated?
    ensures CanResolve(e, w, w.log[i].order)
  {
    var m := MarketReplies(i, 0);
    NextKeepsInv(e, t0, w, m);
    AckedKept(e, w, m);
    ResolvesByRequest(e, t0, Next(e, w, m), |w.log|);
    ResolvesAfter(e, w, m, w.log[i].order);
  }

  lemma ResolvesByPost(e: Engine, t0: Tables, w: World, o: OrderId)
    requires Inv(e, t0, w) && o in w.unsent
    ensures CanResolve(e, w, o)
  {
    var m := PostSends(o);
    NextKeepsInv(e, t0, w, m);
    ResolvesByReply(e, t0, Next(e, w, m), |w.log|);
    ResolvesAfter(e, w, m, o);
  }

  /** A CREATED order can still be resolved by some run exactly when it has a live token. */
  lemma TokenResolves(e: Engine, t0: Tables, w: World, o: OrderId)
    requires e.Valid() && FreshDatabase(t0) && Reachable(e, t0, w) && IsCreated(w.db, o)
    ensures CanResolve(e, w, o) <==> HasToken(w, o)
  {
    ReachableInv(e, t0, w);
    if o in w.unsent {
      ResolvesByPost(e, t0, w, o);
    } else if HasToken(w, o) {
      var i :| 0 <= i < |w.log| && Outstanding(w, i) && w.log[i].order == o;
      if w.log[i].payload.OrderCreated? {
        ResolvesByReply(e, t0, w, i);
      } else {
        ResolvesByRequest(e, t0, w, i);
      }
    } else {
      NeverResolves(e, t0, w, o);
    }
  }

  lemma NeverResolves(e: Engine, t0: Tables, w: World, o: OrderId)
    requires Inv(e, t0, w) && Stranded(w, o)
    ensures !CanResolve(e, w, o)
  {
    forall moves | Exec(e, w, moves).Some?
      ensures !Terminal(Exec(e, w, moves).value.db, o)
    {
      StrandedForEver(e, t0, w, moves, o);
    }
  }

  /** When nothing is outstanding, every order not given up is terminal. */
  lemma NothingOutstanding(e: Engine, t0: Tables, w: World, o: OrderId)
    requires e.Valid() && FreshDatabase(t0) && Reachable(e, t0, w) && o in w.db.orders
    requires w.unsent == {} && forall i :: 0 <= i < |w.log| ==> !Outstanding(w, i)
    ensures Terminal(w.db, o) || o in w.abandoned
  {
    ReachableInv(e, t0, w);
    assert RowConsistent(w.db.orders[o]);
    if IsCreated(w.db, o) {
      CreatedHasToken(e, t0, w, o);
    }
  }

  // ------------------------------------------------------------ outcomes may be lost

  /** Portfolio has published what came of the order. */
  predicate HasOutcome(w: World, o: OrderId)
  {
    exists i :: 0 <= i < |w.log| && w.log[i].order == o && IsOutcome(w.log[i].payload)
  }

  predicate IsSending(w: World, o: OrderId)
  {
    exists k :: k in w.sending && k < |w.log| && w.log[k].order == o
  }

  predicate Silent(w: World, o: OrderId)
  {
    Terminal(w.db, o) && !HasOutcome(w, o) && !IsSending(w, o)
  }

  ghost predicate CanPublish(e: Engine, w: World, o: OrderId)
  {
    exists moves :: Exec(e, w, moves).Some? && HasOutcome(Exec(e, w, moves).value, o)
  }

  lemma SilentPublish(w: World, w': World, o: OrderId)
    requires !HasOutcome(w, o) && w.log <= w'.log && |w'.log| <= |w.log| + 1
    requires |w'.log| > |w.log| ==> w'.log[|w.log|].order != o || !IsOutcome(w'.log[|w.log|].payload)
    ensures !HasOutcome(w', o)
  {
    forall i | 0 <= i < |w'.log| && w'.log[i].order == o
      ensures !IsOutcome(w'.log[i].payload)
    {
      if i < |w.log| {
        assert w.log[i] == w'.log[i];
      }
    }
  }

  /** What is published next is not an outcome of a silent order. */
  lemma SilentMessage(e: Engine, w: World, m: Move, o: OrderId)
    requires e.Valid() && Truthful(e, w) && Enabled(e, w, m) && Silent(w, o)
    ensures var w' := Next(e, w, m);
            && w.log <= w'.log && |w'.log| <= |w.log| + 1
            && (|w'.log| > |w.log| ==> w'.log[|w.log|].order != o || !IsOutcome(w'.log[|w.log|].payload))
  {
    match m
    case MarketReplies(msg, bps) => AnswerIsTrue(e, w.db.orders[w.log[msg].order], bps);
    case _ =>
  }

  lemma SilentSending(e: Engine, w: World, m: Move, o: OrderId)
    requires WellFormed(w.db) && Truthful(e, w) && Enabled(e, w, m) && Silent(w, o)
    ensures !IsSending(Next(e, w, m), o)
  {
    if m.Transacts? {
      RequestSettles(e, w.db, w.log[m.msg]);
    }
  }

  lemma SilentStays(e: Engine, t0: Tables, w: World, m: Move, o: OrderId)
    requires Inv(e, t0, w) && Enabled(e, w, m) && Silent(w, o)
    ensures Silent(Next(e, w, m), o)
  {
    DatabaseKept(e, t0, w, m);
    SilentMessage(e, w, m, o);
    SilentPublish(w, Next(e, w, m), o);
    SilentSending(e, w, m, o);
  }

  lemma {:induction false} SilentForEver(e: Engine, t0: Tables, w: World, moves: seq<Move>, o: OrderId)
    requires Inv(e, t0, w) && Silent(w, o) && Exec(e, w, moves).Some?
    ensures Inv(e, t0, Exec(e, w, moves).value) && Silent(Exec(e, w, moves).value, o)
  {
    if moves != [] {
      var init, m := moves[..|moves| - 1], moves[|moves| - 1];
      SilentForEver(e, t0, w, init, o);
      NextKeepsInv(e, t0, Exec(e, w, init).value, m);
      SilentStays(e, t0, Exec(e, w, init).value, m, o);
    }
  }

  /** An outcome of a terminal order can be published exactly when it has been, or its handler is still
   *  between commit and send: one dropped there is lost, as redelivery skips the event. */
  lemma OutcomePublishable(e: Engine, t0: Tables, w: World, o: OrderId)
    requires e.Valid() && FreshDatabase(t0) && Reachable(e, t0, w) && Terminal(w.db, o)
    ensures CanPublish(e, w, o) <==> HasOutcome(w, o) || IsSending(w, o)
  {
    ReachableInv(e, t0, w);
    if HasOutcome(w, o) {
      assert Exec(e, w, []) == Some(w);
    } else if IsSending(w, o) {
      SendingPublishes(e, w, o);
    } else {
      forall moves | Exec(e, w, moves).Some?
        ensures !HasOutcome(Exec(e, w, moves).value, o)
      {
        SilentForEver(e, t0, w, moves, o);
      }
    }
  }

  lemma SendingPublishes(e: Engine, w: World, o: OrderId)
    requires Truthful(e, w) && IsSending(w, o)
    ensures CanPublish(e, w, o)
  {
    var k :| k in w.sending && k < |w.log| && w.log[k].order == o;
    var w' := Next(e, w, OutcomeSent(k));
    assert w'.log[|w.log|].order == o && IsOutcome(w'.log[|w.log|].payload);
    ExecSnoc(e, w, [], OutcomeSent(k));
    assert Exec(e, w, [] + [OutcomeSent(k)]) == Some(w');
  }
}
