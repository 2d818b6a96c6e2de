/** Why an order is rejected: the stored reason is the true one, and somebody was told it or was about to
 *  be. */
module Reasons {
  import opened Domain
  import opened Pricing
  import opened Transactions
  import opened Events
  import opened Saga
  import opened SagaProperties

  /** Market could quote the symbol. */
  predicate Quotable(e: Engine, symbol: string)
  {
    symbol in e.bases && symbol !in e.failing
  }

  /** The detail names the real cause, by the catalogue and the failing set or by a balance. */
  predicate TrueCause(e: Engine, row: OrderRow, detail: Detail)
  {
    var asset := Normalize(row.symbol);
    match detail
    case NoSuchSymbol(symbol) => symbol == asset && asset !in e.bases && asset !in e.failing
    case NoMarket(symbol) => symbol == asset && asset in e.failing
    case ShortOfCash(need, have) =>
      && row.side == Buy && Quotable(e, asset) && need > 100 * have
      && exists bps :: -BAND_BPS <= bps <= BAND_BPS && need == Jitter(e.bases[asset], bps) * row.quantity
    case ShortOfAsset(required, symbol, held) =>
      row.side == Sell && Quotable(e, asset) && required == row.quantity && symbol == asset && held < required
  }

  predicate RejectedFor(t: Tables, o: OrderId, detail: Detail)
  {
    o in t.orders && t.orders[o].status.Rejected? && t.orders[o].reason == Some(detail)
  }

  // ------------------------------------------------------------ how a reason comes about

  /** What a transaction of a message rejects its order for. */
  predicate Rejects(t: Tables, m: Envelope, detail: Detail)
    requires ForPortfolio(m.payload)
  {
    if m.payload.OrderRejected? then m.payload.detail == detail
    else var reply := PlanOf(t, Request(m)).reply; reply.Refused? && reply.detail == detail
  }

  /** A transaction newly rejects the order of its message only, and for what it says. */
  lemma NewlyRejected(e: Engine, t: Tables, m: Envelope, o: OrderId, detail: Detail)
    requires WellFormed(t) && ForPortfolio(m.payload) && TrueIn(e, t, m.order, m.payload)
    requires RejectedFor(Apply(t, Request(m)), o, detail) && !RejectedFor(t, o, detail)
    ensures m.order == o && IsCreated(t, o) && m.event !in t.processed && Rejects(t, m, detail)
    ensures SameRequest(t.orders[o], Apply(t, Request(m)).orders[o])
  {
    var a := Request(m);
    ApplyOnward(t, a);
    if m.event in t.processed || !IsCreated(t, m.order) {
      SettledIsIdle(t, a);
    } else if a.Rejection? {
      RejectionRejects(t, a);
    } else if CanFill(t, a) {
      SettleFills(t, a);
    } else {
      SettleRefuses(t, a);
    }
  }

  /** Anything but a message's transaction rejects no order. */
  lemma OnlyRequestsReject(t: Tables, a: Action, o: OrderId, detail: Detail)
    requires !IsRequest(a) && RejectedFor(Apply(t, a), o, detail)
    ensures RejectedFor(t, o, detail)
  {
    match a
    case Place(id, request) => PlaceMeaning(t, id, request);
    case _ =>
      SeedUserEffect(t);
      SeedCashEffect(t);
      SeedHoldingEffect(t);
  }

  lemma RejectedByMove(e: Engine, t0: Tables, w: World, m: Move, o: OrderId, detail: Detail)
    requires Inv(e, t0, w) && Enabled(e, w, m)
    requires RejectedFor(Next(e, w, m).db, o, detail) && !RejectedFor(w.db, o, detail)
    ensures m.Transacts? && w.log[m.msg].order == o && IsCreated(w.db, o) && w.log[m.msg].event !in w.db.processed
    ensures Rejects(w.db, w.log[m.msg], detail) && SameRequest(w.db.orders[o], Next(e, w, m).db.orders[o])
  {
    match m
    case Transacts(msg) =>
      assert TrueIn(e, w.db, w.log[msg].order, w.log[msg].payload);
      NewlyRejected(e, w.db, w.log[msg], o, detail);
    case PostInserts(id, request) => OnlyRequestsReject(w.db, Place(id, request), o, detail);
    case Seeds(a) => OnlyRequestsReject(w.db, a, o, detail);
    case _ =>
  }

  // ------------------------------------------------------------ the true cause

  /** A rejection of an order still CREATED is Market's. */
  lemma MarketsCause(e: Engine, row: OrderRow, p: Payload)
    requires row.status.Created? && p.OrderRejected? && TrueOf(e, row, p)
    ensures TrueCause(e, row, p.detail)
  {
  }

  lemma QuoteRefusedFor(e: Engine, t: Tables, m: Envelope, detail: Detail)
    requires WellFormed(t) && m.payload.PriceQuoted? && TrueIn(e, t, m.order, m.payload)
    requires IsCreated(t, m.order) && m.event !in t.processed && Rejects(t, m, detail)
    ensures TrueCause(e, t.orders[m.order], detail)
  {
    var a, row := Request(m), t.orders[m.order];
    var bps :| -BAND_BPS <= bps <= BAND_BPS && m.payload.price == Jitter(e.Lookup(m.payload.symbol).base, bps);
    if row.side == Buy {
      var spent := BuyMeaning(t, a);
    } else {
      var gained := SellMeaning(t, a);
    }
  }

  ghost predicate AllTrue(e: Engine, t: Tables)
  {
    forall o, detail :: RejectedFor(t, o, detail) ==> TrueCause(e, t.orders[o], detail)
  }

  lemma CauseKept(e: Engine, t0: Tables, w: World, m: Move, o: OrderId, detail: Detail)
    requires Inv(e, t0, w) && Enabled(e, w, m) && RejectedFor(Next(e, w, m).db, o, detail)
    requires RejectedFor(w.db, o, detail) ==> TrueCause(e, w.db.orders[o], detail)
    ensures TrueCause(e, Next(e, w, m).db.orders[o], detail)
  {
    if RejectedFor(w.db, o, detail) {
      DatabaseKept(e, t0, w, m);
    } else {
      RejectedByMove(e, t0, w, m, o, detail);
      var message := w.log[m.msg];
      assert TrueIn(e, w.db, message.order, message.payload);
      if message.payload.OrderRejected? {
        MarketsCause(e, w.db.orders[o], message.payload);
      } else {
        QuoteRefusedFor(e, w.db, message, detail);
      }
    }
  }

  lemma {:induction false} RunAllTrue(e: Engine, t0: Tables, moves: seq<Move>)
    requires e.Valid() && FreshDatabase(t0) && Exec(e, Start(t0), moves).Some?
    ensures AllTrue(e, Exec(e, Start(t0), moves).value.db)
  {
    if moves != [] {
      var init, m := moves[..|moves| - 1], moves[|moves| - 1];
      RunAllTrue(e, t0, init);
      ExecInv(e, t0, init);
      var w := Exec(e, Start(t0), init).value;
      forall o, detail | RejectedFor(Next(e, w, m).db, o, detail)
        ensures TrueCause(e, Next(e, w, m).db.orders[o], detail)
      {
        CauseKept(e, t0, w, m, o, detail);
      }
    }
  }

  /** In every reachable world a REJECTED order's reason is the true one. A missing or failing symbol is the
   *  order's own, and is so by the catalogue and the failing set. A shortage is one of the order's side,
   *  for a symbol that Market quotes: of cash for its quantity at a price Market quotes, or of its
   *  quantity of the asset. */
  lemma ReasonIsTrue(e: Engine, t0: Tables, w: World, o: OrderId)
    requires e.Valid() && FreshDatabase(t0) && Reachable(e, t0, w)
    requires o in w.db.orders && w.db.orders[o].status.Rejected?
    ensures w.db.orders[o].reason.Some?
    ensures var row, asset := w.db.orders[o], Normalize(w.db.orders[o].symbol);
            match row.reason.value
            case NoSuchSymbol(symbol) => symbol == asset && asset !in e.bases && asset !in e.failing
            case NoMarket(symbol) => symbol == asset && asset in e.failing
            case ShortOfCash(need, have) =>
              && row.side == Buy && asset in e.bases && asset !in e.failing && need > 100 * have
              && exists bps :: -BAND_BPS <= bps <= BAND_BPS && need == Jitter(e.bases[asset], bps) * row.quantity
            case ShortOfAsset(required, symbol, held) =>
              && row.side == Sell && asset in e.bases && asset !in e.failing
              && required == row.quantity && symbol == asset && held < required
  {
    ReachableInv(e, t0, w);
    assert RowConsistent(w.db.orders[o]);
    var moves :| Exec(e, Start(t0), moves) == Some(w);
    RunAllTrue(e, t0, moves);
    assert RejectedFor(w.db, o, w.db.orders[o].reason.value);
  }

  // ------------------------------------------------------------ who was told

  predicate Announces(p: Payload, detail: Detail)
  {
    p.OrderRejected? && p.detail == detail
  }

  /** A rejection of the order for this has been published, or is being sent. */
  predicate Announced(w: World, o: OrderId, detail: Detail)
  {
    exists i :: 0 <= i < |w.log| && w.log[i].order == o && Announces(w.log[i].payload, detail)
  }

  predicate OnItsWay(w: World, o: OrderId, detail: Detail)
  {
    exists k :: k in w.sending && k < |w.log| && w.log[k].order == o && Announces(w.sending[k], detail)
  }

  /** The move drops such a rejection between commit and send. */
  predicate Drops(w: World, m: Move, o: OrderId, detail: Detail)
  {
    && m.OutcomeDropped? && m.msg in w.sending && m.msg < |w.log| && w.log[m.msg].order == o
    && Announces(w.sending[m.msg], detail)
  }

  ghost predicate DroppedIn(e: Engine, w: World, moves: seq<Move>, o: OrderId, detail: Detail)
  {
    exists i :: 0 <= i < |moves| && Exec(e, w, moves[..i]).Some? && Drops(Exec(e, w, moves[..i]).value, moves[i], o, detail)
  }

  lemma AnnouncedStays(e: Engine, w: World, m: Move, o: OrderId, detail: Detail)
    requires Enabled(e, w, m) && Announced(w, o, detail)
    ensures Announced(Next(e, w, m), o, detail)
  {
    LogGrows(e, w, m);
    var i :| 0 <= i < |w.log| && w.log[i].order == o && Announces(w.log[i].payload, detail);
    assert Next(e, w, m).log[i] == w.log[i];
  }

  lemma OneGoesOn(e: Engine, w: World, m: Move, k: nat, detail: Detail)
    requires WellFormed(w.db) && Truthful(e, w) && Enabled(e, w, m)
    requires k in w.sending && k < |w.log| && Announces(w.sending[k], detail) && m != OutcomeDropped(k)
    ensures Announced(Next(e, w, m), w.log[k].order, detail) || OnItsWay(Next(e, w, m), w.log[k].order, detail)
  {
    var w' := Next(e, w, m);
    LogGrows(e, w, m);
    if m == OutcomeSent(k) {
      assert w'.log[|w.log|].order == w.log[k].order && Announces(w'.log[|w.log|].payload, detail);
    } else {
      SendingStays(e, w, m, k);
      assert w'.log[k] == w.log[k];
    }
  }

  lemma OnItsWayGoesOn(e: Engine, w: World, m: Move, o: OrderId, detail: Detail)
    requires WellFormed(w.db) && Truthful(e, w) && Enabled(e, w, m) && OnItsWay(w, o, detail)
    ensures var w' := Next(e, w, m); Announced(w', o, detail) || OnItsWay(w', o, detail) || Drops(w, m, o, detail)
  {
    var k :| k in w.sending && k < |w.log| && w.log[k].order == o && Announces(w.sending[k], detail);
    if m != OutcomeDropped(k) {
      OneGoesOn(e, w, m, k, detail);
    }
  }

  /** An outcome being sent stays until it is sent or dropped: its order is terminal, so no transaction
   *  has another. */
  lemma SendingStays(e: Engine, w: World, m: Move, k: nat)
    requires WellFormed(w.db) && Truthful(e, w) && Enabled(e, w, m)
    requires k in w.sending && m != OutcomeSent(k) && m != OutcomeDropped(k)
    ensures k in Next(e, w, m).sending && Next(e, w, m).sending[k] == w.sending[k]
  {
    if m == Transacts(k) {
      OutcomeTerminal(e, w.db, w.log[k].order, w.sending[k]);
      RequestSettles(e, w.db, w.log[k]);
    }
  }

  /** The world a rejecting transaction leaves: a rejection of Market's is in the log, and one of
   *  Portfolio's is to be sent. */
  lemma NewlyOnItsWay(e: Engine, t0: Tables, w: World, m: Move, o: OrderId, detail: Detail)
    requires Inv(e, t0, w) && Enabled(e, w, m) && m.Transacts? && w.log[m.msg].order == o && Rejects(w.db, w.log[m.msg], detail)
    ensures Announced(Next(e, w, m), o, detail) || OnItsWay(Next(e, w, m), o, detail)
  {
    var w' := Next(e, w, m);
    if w.log[m.msg].payload.OrderRejected? {
      assert w'.log[m.msg].order == o && Announces(w'.log[m.msg].payload, detail);
    } else {
      assert m.msg in w'.sending && w'.log[m.msg].order == o && Announces(w'.sending[m.msg], detail);
    }
  }

  lemma TellingKept(e: Engine, t0: Tables, w: World, m: Move, o: OrderId, detail: Detail)
    requires Inv(e, t0, w) && Enabled(e, w, m) && RejectedFor(Next(e, w, m).db, o, detail)
    requires RejectedFor(w.db, o, detail) ==> Announced(w, o, detail) || OnItsWay(w, o, detail)
    ensures var w' := Next(e, w, m); Announced(w', o, detail) || OnItsWay(w', o, detail) || Drops(w, m, o, detail)
  {
    if !RejectedFor(w.db, o, detail) {
      RejectedByMove(e, t0, w, m, o, detail);
      NewlyOnItsWay(e, t0, w, m, o, detail);
    } else if Announced(w, o, detail) {
      AnnouncedStays(e, w, m, o, detail);
    } else {
      OnItsWayGoesOn(e, w, m, o, detail);
    }
  }

  lemma DroppedBefore(e: Engine, w: World, moves: seq<Move>, m: Move, o: OrderId, detail: Detail)
    requires DroppedIn(e, w, moves, o, detail)
    ensures DroppedIn(e, w, moves + [m], o, detail)
  {
    var i :| 0 <= i < |moves| && Exec(e, w, moves[..i]).Some? && Drops(Exec(e, w, moves[..i]).value, moves[i], o, detail);
    assert (moves + [m])[..i] == moves[..i] && (moves + [m])[i] == moves[i];
  }

  lemma DroppedNow(e: Engine, w: World, moves: seq<Move>, m: Move, o: OrderId, detail: Detail)
    requires Exec(e, w, moves).Some? && Drops(Exec(e, w, moves).value, m, o, detail)
    ensures DroppedIn(e, w, moves + [m], o, detail)
  {
    assert (moves + [m])[..|moves|] == moves && (moves + [m])[|moves|] == m;
  }

  lemma {:induction false} RunTells(e: Engine, t0: Tables, moves: seq<Move>, o: OrderId, detail: Detail)
    requires e.Valid() && FreshDatabase(t0) && Exec(e, Start(t0), moves).Some?
    requires RejectedFor(Exec(e, Start(t0), moves).value.db, o, detail)
    ensures var w := Exec(e, Start(t0), moves).value;
            Announced(w, o, detail) || OnItsWay(w, o, detail) || DroppedIn(e, Start(t0), moves, o, detail)
  {
    if moves != [] {
      var init, m := moves[..|moves| - 1], moves[|moves| - 1];
      var w := Exec(e, Start(t0), init).value;
      assert moves == init + [m];
      ExecInv(e, t0, init);
      if RejectedFor(w.db, o, detail) {
        RunTells(e, t0, init, o, detail);
      }
      if RejectedFor(w.db, o, detail) && DroppedIn(e, Start(t0), init, o, detail) {
        DroppedBefore(e, Start(t0), init, m, o, detail);
      } else {
        TellingKept(e, t0, w, m, o, detail);
        if Drops(w, m, o, detail) {
          DroppedNow(e, Start(t0), init, m, o, detail);
        }
      }
    }
  }

  /** Over any run, a REJECTED order's reason is the detail of a rejection of it that has been published, is
   *  being sent, or was dropped between commit and send. */
  lemma ReasonWasTold(e: Engine, t0: Tables, moves: seq<Move>, o: OrderId)
    requires e.Valid() && FreshDatabase(t0) && Exec(e, Start(t0), moves).Some?
    requires var t := Exec(e, Start(t0), moves).value.db; o in t.orders && t.orders[o].status.Rejected?
    ensures var w := Exec(e, Start(t0), moves).value;
            w.db.orders[o].reason.Some? &&
            (|| (exists i :: && 0 <= i < |w.log| && w.log[i].order == o && w.log[i].payload.OrderRejected?
                             && w.log[i].payload.detail == w.db.orders[o].reason.value)
             || (exists k :: && k in w.sending && k < |w.log| && w.log[k].order == o && w.sending[k].OrderRejected?
                             && w.sending[k].detail == w.db.orders[o].reason.value)
             || DroppedIn(e, Start(t0), moves, o, w.db.orders[o].reason.value))
  {
    var w := Exec(e, Start(t0), moves).value;
    ExecInv(e, t0, moves);
    assert RowConsistent(w.db.orders[o]);
    var detail := w.db.orders[o].reason.value;
    RunTells(e, t0, moves, o, detail);
    if Announced(w, o, detail) {
      var i :| 0 <= i < |w.log| && w.log[i].order == o && Announces(w.log[i].payload, detail);
    } else if OnItsWay(w, o, detail) {
      var k :| k in w.sending && k < |w.log| && w.log[k].order == o && Announces(w.sending[k], detail);
    }
  }
}
