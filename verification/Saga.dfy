/** The order saga as a step system: services that react to events of one another, over logs that
 *  deliver any unacknowledged message again and again and in any order.
 *
 *  A transaction of the Portfolio Service is one step here; interleaved statements add nothing, as
 *  module Composition proves. Any unacknowledged message may be delivered at any time, which is
 *  wider than what consumers do, as module Delivery proves. A message is acknowledged once the
 *  committed offset has passed it.
 */
module Saga {
  import opened Domain
  import opened Pricing
  import opened Transactions
  import opened Events

  /** `unsent` orders are inserted and their OrderCreated not yet sent; `sending` holds outcomes that are
   *  committed and not yet published, by the message that caused them. The last three are history:
   *  messages whose handler returned Ok, orders of requests that died unsent or whose messages were
   *  passed over unhandled, and the transactions so far. */
  datatype World = World(
    db: Tables,
    log: seq<Envelope>,
    unsent: set<OrderId>,
    sending: map<nat, Payload>,
    acked: set<nat>,
    nextEvent: EventId,
    handled: set<nat>,
    abandoned: set<OrderId>,
    history: seq<Action>)

  datatype Move =
    | PostInserts(id: OrderId, request: NewOrder)   // POST /orders: check and insert
    | PostSends(id: OrderId)                        //   then send OrderCreated
    | PostDies(id: OrderId)                         //   or die in between
    | MarketReplies(msg: nat, bps: int)             // Market handles an OrderCreated
    | Transacts(msg: nat)                           // Portfolio commits its transaction for a message
    | OutcomeSent(msg: nat)                         //   then publishes the outcome
    | OutcomeDropped(msg: nat)                      //   or dies in between
    | Acks(msg: nat)                                // the committed offset passes a handled message
    | PassesOver(msg: nat)                          //   or one that failed and was overtaken
    | Seeds(seed: Action)                           // one statement of seed_demo

  function Start(t: Tables): World
  {
    World(t, [], {}, map[], {}, 0, {}, {}, [])
  }

  predicate FreshDatabase(t: Tables)
  {
    WellFormed(t) && t.orders == map[] && t.processed == {}
  }

  function CreatedPayload(row: OrderRow): Payload
  {
    OrderCreated(row.user, row.Asset(), row.side, row.quantity)
  }

  /** What Market answers about a symbol. */
  function Answer(e: Engine, symbol: string, bps: int): Payload
  {
    match e.Lookup(symbol)
    case Listed(base) => PriceQuoted(symbol, Jitter(base, bps))
    case Unknown => OrderRejected(UnknownSymbol, NoSuchSymbol(symbol))
    case Unavailable => OrderRejected(MarketUnavailable, NoMarket(symbol))
  }

  /** Market rejects a failing symbol first, listed or not, then quotes a listed one at its base moved by the
   *  draw, within half a cent of it and at least a cent, and rejects any other. */
  lemma AnswerMeaning(e: Engine, symbol: string, bps: int)
    requires e.Valid() && InBand(bps)
    ensures var answer := Answer(e, symbol, bps);
            if symbol in e.failing then answer == OrderRejected(MarketUnavailable, NoMarket(symbol))
            else if symbol in e.bases then
              && answer.PriceQuoted? && answer.symbol == symbol && answer.price >= 1
              && -5_000 <= 10_000 * answer.price - e.bases[symbol] * (10_000 + bps) <= 5_000
            else answer == OrderRejected(UnknownSymbol, NoSuchSymbol(symbol))
  {
    if symbol in e.bases {
      QuotePositiveAndClose(e.bases[symbol], bps);
    }
  }

  /** The transaction a message asks of Portfolio. */
  function Request(m: Envelope): Action
    requires m.payload.PriceQuoted? || m.payload.OrderRejected?
  {
    match m.payload
    case PriceQuoted(_, price) => Quoted(m.order, m.event, price)
    case OrderRejected(_, detail) => Rejection(m.order, m.event, detail)
  }

  /** The outcome to publish for a reply, if any. */
  function OutcomeOf(reply: Reply): Option<Payload>
  {
    match reply
    case Filled(user, asset, side, quantity, price) => Some(OrderExecuted(user, asset, side, quantity, price))
    case Refused(reason, detail) => Some(OrderRejected(reason, detail))
    case _ => None
  }

  predicate ForPortfolio(p: Payload)
  {
    p.PriceQuoted? || p.OrderRejected?
  }

  predicate Open(w: World, msg: nat)
  {
    msg < |w.log| && msg !in w.acked
  }

  predicate Enabled(e: Engine, w: World, m: Move)
  {
    match m
    case PostInserts(id, request) =>
      request.Validate() && request.user in w.db.cash && PlanOf(w.db, Place(id, request)).Commit?
    case PostSends(id) => id in w.unsent && id in w.db.orders
    case PostDies(id) => id in w.unsent
    case MarketReplies(msg, bps) => Open(w, msg) && w.log[msg].payload.OrderCreated? && InBand(bps)
    case Transacts(msg) =>
      Open(w, msg) && ForPortfolio(w.log[msg].payload) && !PlanOf(w.db, Request(w.log[msg])).reply.Failed?
    case OutcomeSent(msg) => msg in w.sending && msg < |w.log|
    case OutcomeDropped(msg) => msg in w.sending
    case Acks(msg) => Open(w, msg) && msg in w.handled
    case PassesOver(msg) => Open(w, msg)
    case Seeds(a) => a.SeedUser? || a.SeedCash? || a.SeedHolding?
  }

  function Publish(w: World, order: OrderId, payload: Payload): World
  {
    w.(log := w.log + [Envelope(w.nextEvent, order, payload)], nextEvent := w.nextEvent + 1)
  }

  function Transact(w: World, a: Action): World
  {
    w.(db := Apply(w.db, a), history := w.history + [a])
  }

  function Next(e: Engine, w: World, m: Move): World
    requires Enabled(e, w, m)
  {
    match m
    case PostInserts(id, request) => Transact(w, Place(id, request)).(unsent := w.unsent + {id})
    case PostSends(id) => Publish(w, id, CreatedPayload(w.db.orders[id])).(unsent := w.unsent - {id})
    case PostDies(id) => w.(unsent := w.unsent - {id}, abandoned := w.abandoned + {id})
    case MarketReplies(msg, bps) =>
      Publish(w, w.log[msg].order, Answer(e, w.log[msg].payload.symbol, bps)).(handled := w.handled + {msg})
    case Transacts(msg) =>
      var a := Request(w.log[msg]);
      var outcome := OutcomeOf(PlanOf(w.db, a).reply);
      if outcome.Some? then Transact(w, a).(sending := w.sending[msg := outcome.value])
      else Transact(w, a).(handled := w.handled + {msg})
    case OutcomeSent(msg) =>
      Publish(w, w.log[msg].order, w.sending[msg]).(sending := w.sending - {msg}, handled := w.handled + {msg})
    case OutcomeDropped(msg) => w.(sending := w.sending - {msg})
    case Acks(msg) => w.(acked := w.acked + {msg})
    case PassesOver(msg) =>
      w.(acked := w.acked + {msg}, abandoned := if msg in w.handled then w.abandoned else w.abandoned + {w.log[msg].order})
    case Seeds(a) => Transact(w, a)
  }

  function Exec(e: Engine, w: World, moves: seq<Move>): Option<World>
  {
    if moves == [] then Some(w)
    else
      var before, m := Exec(e, w, moves[..|moves| - 1]), moves[|moves| - 1];
      if before.Some? && Enabled(e, before.value, m) then Some(Next(e, before.value, m)) else None
  }

  ghost predicate Reachable(e: Engine, t0: Tables, w: World)
  {
    exists moves :: Exec(e, Start(t0), moves) == Some(w)
  }

  // ------------------------------------------------------------ what events say

  /** A rejection that Portfolio itself publishes. */
  predicate OwnReason(r: RejectionReason)
  {
    r.InsufficientBalance? || r.InsufficientAsset?
  }

  /** An outcome published by Portfolio. */
  predicate IsOutcome(p: Payload)
  {
    p.OrderExecuted? || (p.OrderRejected? && OwnReason(p.reason))
  }

  /** An answer of Market. */
  predicate IsAnswer(p: Payload)
  {
    p.PriceQuoted? || (p.OrderRejected? && !OwnReason(p.reason))
  }

  /** A price that Market quotes for a symbol on some draw. */
  predicate IsQuote(e: Engine, symbol: string, price: int)
  {
    e.Lookup(symbol).Listed? && exists bps | -BAND_BPS <= bps <= BAND_BPS :: price == Jitter(e.Lookup(symbol).base, bps)
  }

  /** The event tells the truth about its order's row, and will for ever. */
  predicate TrueOf(e: Engine, row: OrderRow, p: Payload)
  {
    match p
    case OrderCreated(user, symbol, side, quantity) =>
      user == row.user && symbol == row.Asset() && side == row.side && quantity == row.quantity
    case PriceQuoted(symbol, price) => symbol == row.Asset() && price >= 1 && IsQuote(e, symbol, price)
    case OrderExecuted(user, symbol, side, quantity, price) =>
      && user == row.user && symbol == row.Asset() && side == row.side && quantity == row.quantity
      && row.status.Executed? && row.price == Some(price) && IsQuote(e, symbol, price)
    case OrderRejected(UnknownSymbol, detail) => e.Lookup(row.Asset()).Unknown? && detail == NoSuchSymbol(row.Asset())
    case OrderRejected(MarketUnavailable, detail) => e.Lookup(row.Asset()).Unavailable? && detail == NoMarket(row.Asset())
    case OrderRejected(reason, detail) =>
      && row.status.Rejected? && row.reason == Some(detail) && TrueShortage(row, reason, detail)
      && e.Lookup(row.Asset()).Listed?
  }

  predicate TrueIn(e: Engine, t: Tables, o: OrderId, p: Payload)
  {
    o in t.orders && TrueOf(e, t.orders[o], p)
  }

  /** What is true of an order stays true. */
  lemma TruthStays(e: Engine, t: Tables, t': Tables, o: OrderId, p: Payload)
    requires TrueIn(e, t, o, p) && Onward(t, t')
    ensures TrueIn(e, t', o, p)
  {
  }

  predicate Truthful(e: Engine, w: World)
  {
    && (forall i :: 0 <= i < |w.log| ==> TrueIn(e, w.db, w.log[i].order, w.log[i].payload))
    && (forall i <- w.sending ::
          && i < |w.log| && w.log[i].payload.PriceQuoted? && IsOutcome(w.sending[i])
          && TrueIn(e, w.db, w.log[i].order, w.sending[i]))
    && (forall o <- w.unsent :: o in w.db.orders)
  }

  predicate DistinctIds(w: World)
  {
    && (forall i :: 0 <= i < |w.log| ==> w.log[i].event < w.nextEvent)
    && (forall i, j :: 0 <= i < j < |w.log| ==> w.log[i].event != w.log[j].event)
  }

  /** At most one outcome an order, published or about to be. */
  predicate OneOutcome(w: World)
  {
    && (forall i, j :: 0 <= i < j < |w.log| && IsOutcome(w.log[i].payload) && IsOutcome(w.log[j].payload) ==>
          w.log[i].order != w.log[j].order)
    && (forall i, k :: 0 <= i < |w.log| && IsOutcome(w.log[i].payload) && k in w.sending && k < |w.log| ==>
          w.log[i].order != w.log[k].order)
    && (forall k, l :: k in w.sending && l in w.sending && k < |w.log| && l < |w.log| && k != l ==>
          w.log[k].order != w.log[l].order)
  }

  predicate Terminal(t: Tables, o: OrderId)
  {
    o in t.orders && t.orders[o].status.Terminal()
  }

  predicate HasMessage(w: World, event: EventId)
  {
    exists i :: 0 <= i < |w.log| && w.log[i].event == event && Terminal(w.db, w.log[i].order)
  }

  /** Every processed event is a published one whose order is terminal. */
  predicate ProcessedTerminal(w: World)
  {
    forall ev <- w.db.processed :: HasMessage(w, ev)
  }

  predicate Sent(w: World, o: OrderId)
  {
    exists i :: 0 <= i < |w.log| && w.log[i].order == o && w.log[i].payload.OrderCreated?
  }

  predicate Answered(w: World, o: OrderId)
  {
    exists i :: 0 <= i < |w.log| && w.log[i].order == o && IsAnswer(w.log[i].payload)
  }

  /** What a handled message has achieved: an answer to its order, or a terminal order. */
  predicate WellHandled(w: World, i: nat)
  {
    && i < |w.log| && !w.log[i].payload.OrderExecuted?
    && (w.log[i].payload.OrderCreated? ==> Answered(w, w.log[i].order))
    && (ForPortfolio(w.log[i].payload) ==> Terminal(w.db, w.log[i].order))
  }

  /** Every order has been sent, or is about to be, or is given up. */
  predicate Accounted(w: World, o: OrderId)
  {
    o in w.unsent || o in w.abandoned || Sent(w, o)
  }

  predicate HandledWell(w: World)
  {
    && (forall i <- w.handled :: WellHandled(w, i))
    && (forall i <- w.acked :: i < |w.log| && (i in w.handled || w.log[i].order in w.abandoned))
    && (forall o <- w.db.orders :: Accounted(w, o))
  }

  /** Every execution was at a price that Market quotes. */
  predicate PricedByMarket(e: Engine, t: Tables)
  {
    forall o <- t.orders :: t.orders[o].price.Some? ==> IsQuote(e, t.orders[o].Asset(), t.orders[o].price.value)
  }

  predicate Inv(e: Engine, t0: Tables, w: World)
  {
    && e.Valid() && WellFormed(w.db) && PricedByMarket(e, w.db)
    && AdmissibleRun(t0, w.history) && Run(t0, w.history) == w.db
    && Truthful(e, w) && DistinctIds(w) && OneOutcome(w) && ProcessedTerminal(w) && HandledWell(w)
  }

  // ------------------------------------------------------------ the invariant is kept

  lemma RequestSettles(e: Engine, t: Tables, m: Envelope)
    requires WellFormed(t) && ForPortfolio(m.payload) && TrueIn(e, t, m.order, m.payload)
    ensures Admissible(t, Request(m)) && IsRequest(Request(m)) && !PlanOf(t, Request(m)).reply.Failed?
    ensures Terminal(Apply(t, Request(m)), m.order) || m.event in t.processed
    ensures m.event in t.processed ==> OutcomeOf(PlanOf(t, Request(m)).reply).None?
    ensures OutcomeOf(PlanOf(t, Request(m)).reply).Some? ==> IsCreated(t, m.order) && m.payload.PriceQuoted?
    ensures Apply(t, Request(m)).processed == t.processed + {m.event}
  {
    var a := Request(m);
    ApplyKeepsWellFormed(t, a);
    if m.event in t.processed || !IsCreated(t, m.order) {
      SettledIsIdle(t, a);
      assert RowConsistent(t.orders[m.order]);
    } else if a.Rejection? {
      RejectionRejects(t, a);
    } else if CanFill(t, a) {
      SettleFills(t, a);
    } else {
      SettleRefuses(t, a);
    }
  }

  /** An outcome is true of the row its transaction has just written. */
  lemma OutcomeIsTrue(e: Engine, t: Tables, m: Envelope)
    requires WellFormed(t) && m.payload.PriceQuoted? && TrueIn(e, t, m.order, m.payload)
    ensures var outcome := OutcomeOf(PlanOf(t, Request(m)).reply);
            outcome.Some? ==> IsOutcome(outcome.value) && TrueIn(e, Apply(t, Request(m)), m.order, outcome.value)
  {
    var a := Request(m);
    if m.event in t.processed || !IsCreated(t, m.order) {
      SettledIsIdle(t, a);
    } else if CanFill(t, a) {
      SettleFills(t, a);
    } else {
      SettleRefuses(t, a);
    }
  }

  lemma RequestKeepsPrices(e: Engine, t: Tables, m: Envelope)
    requires WellFormed(t) && PricedByMarket(e, t) && ForPortfolio(m.payload) && TrueIn(e, t, m.order, m.payload)
    ensures PricedByMarket(e, Apply(t, Request(m)))
  {
    var a := Request(m);
    if m.event in t.processed || !IsCreated(t, m.order) {
      SettledIsIdle(t, a);
    } else if a.Rejection? {
      RejectionRejects(t, a);
    } else if CanFill(t, a) {
      SettleFills(t, a);
    } else {
      SettleRefuses(t, a);
    }
  }

  lemma PricesKept(e: Engine, w: World, m: Move)
    requires WellFormed(w.db) && PricedByMarket(e, w.db) && Truthful(e, w) && Enabled(e, w, m)
    ensures PricedByMarket(e, Next(e, w, m).db)
  {
    match m
    case Transacts(msg) => RequestKeepsPrices(e, w.db, w.log[msg]);
    case PostInserts(id, request) => PlaceEffect(w.db, Place(id, request));
    case Seeds(a) =>
      SeedUserEffect(w.db);
      SeedCashEffect(w.db);
      SeedHoldingEffect(w.db);
    case _ =>
  }

  /** The transaction a move commits, if any. */
  function Committed(w: World, m: Move): Option<Action>
  {
    match m
    case PostInserts(id, request) => Some(Place(id, request))
    case Transacts(msg) => if msg < |w.log| && ForPortfolio(w.log[msg].payload) then Some(Request(w.log[msg])) else None
    case Seeds(a) => Some(a)
    case _ => None
  }

  /** What a transaction makes of a database and its history. */
  lemma TransactionKept(t0: Tables, t: Tables, history: seq<Action>, a: Action)
    requires WellFormed(t) && Admissible(t, a) && AdmissibleRun(t0, history) && Run(t0, history) == t
    ensures WellFormed(Apply(t, a)) && AdmissibleRun(t0, history + [a]) && Run(t0, history + [a]) == Apply(t, a)
    ensures Onward(t, Apply(t, a))
  {
    ApplyKeepsWellFormed(t, a);
    ApplyOnward(t, a);
    RunSnoc(t0, history, a);
    assert (history + [a])[..|history|] == history;
  }

  lemma CommittedAdmissible(e: Engine, w: World, m: Move)
    requires WellFormed(w.db) && Truthful(e, w) && Enabled(e, w, m) && Committed(w, m).Some?
    ensures Admissible(w.db, Committed(w, m).value)
    ensures Next(e, w, m).db == Apply(w.db, Committed(w, m).value)
    ensures Next(e, w, m).history == w.history + [Committed(w, m).value]
  {
    if m.Transacts? {
      RequestSettles(e, w.db, w.log[m.msg]);
    }
  }

  lemma DatabaseKept(e: Engine, t0: Tables, w: World, m: Move)
    requires Inv(e, t0, w) && Enabled(e, w, m)
    ensures var w' := Next(e, w, m);
            && WellFormed(w'.db) && AdmissibleRun(t0, w'.history) && Run(t0, w'.history) == w'.db
            && Onward(w.db, w'.db)
  {
    if Committed(w, m).Some? {
      CommittedAdmissible(e, w, m);
      TransactionKept(t0, w.db, w.history, Committed(w, m).value);
    }
  }

  lemma AnswerIsTrue(e: Engine, row: OrderRow, bps: int)
    requires e.Valid() && InBand(bps)
    ensures TrueOf(e, row, Answer(e, row.Asset(), bps)) && IsAnswer(Answer(e, row.Asset(), bps))
  {
    var listing := e.Lookup(row.Asset());
    if listing.Listed? {
      QuotePositiveAndClose(listing.base, bps);
    }
  }

  /** What is said stays true when the database moves onward. */
  lemma TruthfulOnward(e: Engine, w: World, t: Tables)
    requires Truthful(e, w) && Onward(w.db, t)
    ensures Truthful(e, w.(db := t))
  {
    forall i | 0 <= i < |w.log|
      ensures TrueIn(e, t, w.log[i].order, w.log[i].payload)
    {
      TruthStays(e, w.db, t, w.log[i].order, w.log[i].payload);
    }
    forall i | i in w.sending
      ensures TrueIn(e, t, w.log[i].order, w.sending[i])
    {
      TruthStays(e, w.db, t, w.log[i].order, w.sending[i]);
    }
  }

  lemma PublishTruthful(e: Engine, w: World, order: OrderId, payload: Payload)
    requires Truthful(e, w) && TrueIn(e, w.db, order, payload)
    ensures Truthful(e, Publish(w, order, payload))
  {
  }

  lemma ReplyTruthful(e: Engine, w: World, m: Move)
    requires e.Valid() && Truthful(e, w) && Enabled(e, w, m) && m.MarketReplies?
    ensures Truthful(e, Next(e, w, m))
  {
    var order := w.log[m.msg].order;
    AnswerIsTrue(e, w.db.orders[order], m.bps);
    PublishTruthful(e, w, order, Answer(e, w.log[m.msg].payload.symbol, m.bps));
  }

  lemma TransactTruthful(e: Engine, w: World, m: Move)
    requires WellFormed(w.db) && Truthful(e, w) && Enabled(e, w, m) && m.Transacts?
    ensures Truthful(e, Next(e, w, m))
  {
    var t, outcome := Apply(w.db, Request(w.log[m.msg])), OutcomeOf(PlanOf(w.db, Request(w.log[m.msg])).reply);
    ApplyOnward(w.db, Request(w.log[m.msg]));
    TruthfulOnward(e, w, t);
    RequestSettles(e, w.db, w.log[m.msg]);
    if outcome.Some? {
      OutcomeIsTrue(e, w.db, w.log[m.msg]);
      SendingTruthful(e, w.(db := t), m.msg, outcome.value);
    }
  }

  lemma SendingTruthful(e: Engine, w: World, msg: nat, outcome: Payload)
    requires Truthful(e, w) && msg < |w.log| && w.log[msg].payload.PriceQuoted?
    requires IsOutcome(outcome) && TrueIn(e, w.db, w.log[msg].order, outcome)
    ensures Truthful(e, w.(sending := w.sending[msg := outcome]))
  {
  }

  lemma InsertTruthful(e: Engine, w: World, m: Move)
    requires Truthful(e, w) && Enabled(e, w, m) && (m.PostInserts? || m.Seeds?)
    ensures Truthful(e, Next(e, w, m))
  {
    var a := if m.PostInserts? then Place(m.id, m.request) else m.seed;
    ApplyOnward(w.db, a);
    TruthfulOnward(e, w, Apply(w.db, a));
    if m.PostInserts? {
      PlaceEffect(w.db, a);
    }
  }

  lemma SendTruthful(e: Engine, w: World, m: Move)
    requires Truthful(e, w) && Enabled(e, w, m) && (m.PostSends? || m.OutcomeSent?)
    ensures Truthful(e, Next(e, w, m))
  {
    if m.PostSends? {
      PublishTruthful(e, w, m.id, CreatedPayload(w.db.orders[m.id]));
    } else {
      PublishTruthful(e, w, w.log[m.msg].order, w.sending[m.msg]);
    }
  }

  lemma TruthKept(e: Engine, w: World, m: Move)
    requires e.Valid() && WellFormed(w.db) && Truthful(e, w) && Enabled(e, w, m)
    ensures Truthful(e, Next(e, w, m))
  {
    match m
    case MarketReplies(_, _) => ReplyTruthful(e, w, m);
    case Transacts(_) => TransactTruthful(e, w, m);
    case PostInserts(_, _) => InsertTruthful(e, w, m);
    case Seeds(_) => InsertTruthful(e, w, m);
    case PostSends(_) => SendTruthful(e, w, m);
    case OutcomeSent(_) => SendTruthful(e, w, m);
    case _ =>
  }

  lemma IdsKept(e: Engine, w: World, m: Move)
    requires DistinctIds(w) && Enabled(e, w, m)
    ensures DistinctIds(Next(e, w, m))
  {
  }

  /** An outcome is only ever about a terminal order. */
  lemma OutcomeTerminal(e: Engine, t: Tables, o: OrderId, p: Payload)
    requires TrueIn(e, t, o, p) && IsOutcome(p)
    ensures Terminal(t, o)
  {
  }

  lemma ReplyKeepsOne(e: Engine, w: World, m: Move)
    requires e.Valid() && Truthful(e, w) && OneOutcome(w) && Enabled(e, w, m) && (m.MarketReplies? || m.PostSends?)
    ensures OneOutcome(Next(e, w, m))
  {
    var order := if m.PostSends? then m.id else w.log[m.msg].order;
    var payload := if m.PostSends? then CreatedPayload(w.db.orders[m.id]) else Answer(e, w.log[m.msg].payload.symbol, m.bps);
    if m.MarketReplies? {
      AnswerIsTrue(e, w.db.orders[order], m.bps);
    }
    OtherKeepsOne(w, order, payload);
    SameKeepsOne(Publish(w, order, payload), Next(e, w, m));
  }

  /** A new outcome is about an order that had none. */
  lemma SendingKeepsOne(w: World, w': World, msg: nat, outcome: Payload)
    requires OneOutcome(w) && msg < |w.log| && w'.log == w.log && w'.sending == w.sending[msg := outcome]
    requires forall i :: 0 <= i < |w.log| && IsOutcome(w.log[i].payload) ==> w.log[i].order != w.log[msg].order
    requires forall k <- w.sending :: k < |w.log| && w.log[k].order != w.log[msg].order
    ensures OneOutcome(w')
  {
  }

  lemma SameKeepsOne(w: World, w': World)
    requires OneOutcome(w) && w'.log == w.log && w'.sending.Keys <= w.sending.Keys
    ensures OneOutcome(w')
  {
  }

  lemma TransactKeepsOne(e: Engine, w: World, m: Move)
    requires WellFormed(w.db) && Truthful(e, w) && OneOutcome(w) && Enabled(e, w, m) && m.Transacts?
    ensures OneOutcome(Next(e, w, m))
  {
    RequestSettles(e, w.db, w.log[m.msg]);
    var outcome := OutcomeOf(PlanOf(w.db, Request(w.log[m.msg])).reply);
    if outcome.Some? {
      NewOutcomeIsOnly(e, w, m.msg);
      SendingKeepsOne(w, Next(e, w, m), m.msg, outcome.value);
    } else {
      SameKeepsOne(w, Next(e, w, m));
    }
  }

  lemma OneOutcomeKept(e: Engine, w: World, m: Move)
    requires e.Valid() && WellFormed(w.db) && Truthful(e, w) && OneOutcome(w) && Enabled(e, w, m)
    ensures OneOutcome(Next(e, w, m))
  {
    match m
    case PostSends(_) => ReplyKeepsOne(e, w, m);
    case MarketReplies(_, _) => ReplyKeepsOne(e, w, m);
    case Transacts(_) => TransactKeepsOne(e, w, m);
    case OutcomeSent(_) => OutcomeKeepsOne(e, w, m);
    case _ => SameKeepsOne(w, Next(e, w, m));
  }

  lemma OutcomeKeepsOne(e: Engine, w: World, m: Move)
    requires Truthful(e, w) && OneOutcome(w) && Enabled(e, w, m) && m.OutcomeSent?
    ensures OneOutcome(Next(e, w, m))
  {
    SentKeepsOne(w, m.msg);
    SameKeepsOne(Publish(w, w.log[m.msg].order, w.sending[m.msg]).(sending := w.sending - {m.msg}), Next(e, w, m));
  }

  /** Publishing something else than an outcome. */
  lemma OtherKeepsOne(w: World, order: OrderId, payload: Payload)
    requires OneOutcome(w) && !IsOutcome(payload)
    requires forall k <- w.sending :: k < |w.log|
    ensures OneOutcome(Publish(w, order, payload))
  {
  }

  /** Publishing an outcome that was about to be. */
  lemma SentKeepsOne(w: World, msg: nat)
    requires OneOutcome(w) && msg in w.sending
    requires forall k <- w.sending :: k < |w.log|
    ensures OneOutcome(Publish(w, w.log[msg].order, w.sending[msg]).(sending := w.sending - {msg}))
  {
  }

  lemma NewOutcomeIsOnly(e: Engine, w: World, msg: nat)
    requires Truthful(e, w) && msg < |w.log| && IsCreated(w.db, w.log[msg].order)
    ensures msg !in w.sending
    ensures forall i :: 0 <= i < |w.log| && IsOutcome(w.log[i].payload) ==> w.log[i].order != w.log[msg].order
    ensures forall k <- w.sending :: w.log[k].order != w.log[msg].order
  {
    forall i | 0 <= i < |w.log| && IsOutcome(w.log[i].payload)
      ensures w.log[i].order != w.log[msg].order
    {
      OutcomeTerminal(e, w.db, w.log[i].order, w.log[i].payload);
    }
    forall k | k in w.sending
      ensures w.log[k].order != w.log[msg].order
    {
      OutcomeTerminal(e, w.db, w.log[k].order, w.sending[k]);
    }
  }

  lemma HasMessageStays(w: World, w': World, event: EventId)
    requires HasMessage(w, event) && w.log <= w'.log && Onward(w.db, w'.db)
    ensures HasMessage(w', event)
  {
    var i :| 0 <= i < |w.log| && w.log[i].event == event && Terminal(w.db, w.log[i].order);
    assert w'.log[i] == w.log[i] && Terminal(w'.db, w'.log[i].order);
  }

  lemma LogGrows(e: Engine, w: World, m: Move)
    requires Enabled(e, w, m)
    ensures w.log <= Next(e, w, m).log
  {
  }

  lemma ProcessedKept(e: Engine, t0: Tables, w: World, m: Move)
    requires Inv(e, t0, w) && Enabled(e, w, m) && Onward(w.db, Next(e, w, m).db)
    ensures ProcessedTerminal(Next(e, w, m))
  {
    var w' := Next(e, w, m);
    LogGrows(e, w, m);
    forall ev | ev in w'.db.processed
      ensures HasMessage(w', ev)
    {
      if ev in w.db.processed {
        HasMessageStays(w, w', ev);
      } else {
        ProcessedByMessage(e, t0, w, m, ev);
      }
    }
  }

  lemma ProcessedByMessage(e: Engine, t0: Tables, w: World, m: Move, ev: EventId)
    requires Inv(e, t0, w) && Enabled(e, w, m)
    requires ev !in w.db.processed && ev in Next(e, w, m).db.processed
    ensures HasMessage(Next(e, w, m), ev)
  {
    match m
    case Transacts(msg) =>
      RequestSettles(e, w.db, w.log[msg]);
      assert Next(e, w, m).log[msg].event == ev;
    case PostInserts(id, request) => OrdersAndEventsKept(w.db, Place(id, request));
    case Seeds(a) => OrdersAndEventsKept(w.db, a);
    case _ =>
  }

  lemma MessagesStay(w: World, w': World, o: OrderId)
    requires w.log <= w'.log
    ensures Sent(w, o) ==> Sent(w', o)
    ensures Answered(w, o) ==> Answered(w', o)
  {
    if Sent(w, o) {
      var i :| 0 <= i < |w.log| && w.log[i].order == o && w.log[i].payload.OrderCreated?;
      assert w'.log[i] == w.log[i];
    }
    if Answered(w, o) {
      var i :| 0 <= i < |w.log| && w.log[i].order == o && IsAnswer(w.log[i].payload);
      assert w'.log[i] == w.log[i];
    }
  }

  /** The message a move has just handled with Ok. */
  lemma JustHandled(e: Engine, t0: Tables, w: World, m: Move, i: nat)
    requires Inv(e, t0, w) && Enabled(e, w, m) && i in Next(e, w, m).handled && i !in w.handled
    ensures WellHandled(Next(e, w, m), i)
  {
    var w' := Next(e, w, m);
    match m
    case MarketReplies(msg, bps) =>
      AnswerIsTrue(e, w.db.orders[w.log[msg].order], bps);
      assert IsAnswer(w'.log[|w.log|].payload);
    case Transacts(msg) =>
      RequestSettles(e, w.db, w.log[msg]);
      if w.log[msg].event in w.db.processed {
        AlreadyTerminal(w, msg);
        ApplyOnward(w.db, Request(w.log[msg]));
      }
    case OutcomeSent(msg) => OutcomeTerminal(e, w.db, w.log[msg].order, w.sending[msg]);
    case _ =>
  }

  /** The order of a processed message is terminal. */
  lemma AlreadyTerminal(w: World, msg: nat)
    requires ProcessedTerminal(w) && DistinctIds(w) && msg < |w.log| && w.log[msg].event in w.db.processed
    ensures Terminal(w.db, w.log[msg].order)
  {
    assert HasMessage(w, w.log[msg].event);
    var i :| 0 <= i < |w.log| && w.log[i].event == w.log[msg].event && Terminal(w.db, w.log[i].order);
    SameId(w, i, msg);
  }

  lemma SameId(w: World, i: nat, j: nat)
    requires DistinctIds(w) && i < |w.log| && j < |w.log| && w.log[i].event == w.log[j].event
    ensures i == j
  {
  }

  lemma HandledStay(w: World, w': World, i: nat)
    requires WellHandled(w, i) && w.log <= w'.log && Onward(w.db, w'.db)
    ensures WellHandled(w', i)
  {
    MessagesStay(w, w', w.log[i].order);
  }

  lemma HandledKept(e: Engine, t0: Tables, w: World, m: Move)
    requires Inv(e, t0, w) && Enabled(e, w, m) && Onward(w.db, Next(e, w, m).db)
    ensures forall i <- Next(e, w, m).handled :: WellHandled(Next(e, w, m), i)
  {
    var w' := Next(e, w, m);
    LogGrows(e, w, m);
    forall i | i in w'.handled
      ensures WellHandled(w', i)
    {
      if i in w.handled {
        assert WellHandled(w, i);
        HandledStay(w, w', i);
      } else {
        JustHandled(e, t0, w, m, i);
      }
    }
  }

  lemma AckedKept(e: Engine, w: World, m: Move)
    requires HandledWell(w) && Enabled(e, w, m)
    ensures var w' := Next(e, w, m);
            forall i <- w'.acked :: i < |w'.log| && (i in w'.handled || w'.log[i].order in w'.abandoned)
  {
  }

  lemma AccountedKept(e: Engine, w: World, m: Move, o: OrderId)
    requires Enabled(e, w, m)
    requires (m.PostInserts? && o == m.id) || Accounted(w, o)
    ensures Accounted(Next(e, w, m), o)
  {
    var w' := Next(e, w, m);
    LogGrows(e, w, m);
    MessagesStay(w, w', o);
    if m.PostSends? && o == m.id {
      assert w'.log[|w.log|].order == o;
    }
  }

  lemma OrdersAccounted(e: Engine, w: World, m: Move)
    requires HandledWell(w) && Enabled(e, w, m)
    ensures forall o <- Next(e, w, m).db.orders :: Accounted(Next(e, w, m), o)
  {
    forall o | o in Next(e, w, m).db.orders
      ensures Accounted(Next(e, w, m), o)
    {
      if Committed(w, m).Some? {
        OrdersAndEventsKept(w.db, Committed(w, m).value);
      }
      AccountedKept(e, w, m, o);
    }
  }

  lemma NextKeepsInv(e: Engine, t0: Tables, w: World, m: Move)
    requires Inv(e, t0, w) && Enabled(e, w, m)
    ensures Inv(e, t0, Next(e, w, m))
  {
    DatabaseKept(e, t0, w, m);
    PricesKept(e, w, m);
    TruthKept(e, w, m);
    IdsKept(e, w, m);
    OneOutcomeKept(e, w, m);
    ProcessedKept(e, t0, w, m);
    HandledKept(e, t0, w, m);
    AckedKept(e, w, m);
    OrdersAccounted(e, w, m);
  }
}
