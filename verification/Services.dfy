/** The handlers of the services as code over a database and a broker. Each is proved to make exactly
 *  the moves of the saga it stands for, so what holds of every reachable world holds of them. */
module Services {
  import opened Money
  import opened Domain
  import opened Pricing
  import opened Transactions
  import opened Events
  import opened Repo
  import opened Saga
  import Audit

  /** The partitions that a sequence of published events fills. */
  ghost function PartitionsOf(published: seq<Envelope>): Logs
  {
    seq(PARTITIONS, p requires 0 <= p < PARTITIONS => Audit.Select(published, Audit.InPartition(p)))
  }

  lemma PublishedNext(published: seq<Envelope>, e: Envelope)
    ensures PartitionsOf(published + [e]) == Appended(PartitionsOf(published), e)
  {
    forall p | 0 <= p < PARTITIONS
      ensures PartitionsOf(published + [e])[p] == Appended(PartitionsOf(published), e)[p]
    {
      Audit.SelectSnoc(published, e, Audit.InPartition(p));
    }
  }

  lemma FreshInPartitions(published: seq<Envelope>, event: EventId)
    requires forall i :: 0 <= i < |published| ==> published[i].event < event
    ensures FreshId(PartitionsOf(published), event)
  {
    var logs := PartitionsOf(published);
    forall p, i | 0 <= p < PARTITIONS && 0 <= i < |logs[p]|
      ensures logs[p][i].event != event
    {
      Audit.SelectMembers(published, Audit.InPartition(p));
      assert logs[p][i] in published;
    }
  }

  /** Appends events to the partition of their key, each under an id not used before. */
  class EventProducer {
    var logs: Logs
    var nextEvent: EventId
    ghost var published: seq<Envelope>

    ghost predicate Valid()
      reads this
    {
      && logs == PartitionsOf(published) && Keyed(logs) && UniqueIds(logs)
      && (forall i :: 0 <= i < |published| ==> published[i].event < nextEvent)
    }

    constructor ()
      ensures Valid() && published == [] && nextEvent == 0
    {
      logs, nextEvent, published := EMPTY_LOGS, 0, [];
    }

    /** `accepted` is the broker's answer. */
    method Send(order: OrderId, payload: Payload, accepted: bool) returns (ok: bool)
      requires Valid()
      modifies this
      ensures Valid() && ok == accepted
      ensures published == if accepted then old(published) + [Envelope(old(nextEvent), order, payload)] else old(published)
      ensures logs == if accepted then Appended(old(logs), Envelope(old(nextEvent), order, payload)) else old(logs)
      ensures nextEvent == if accepted then old(nextEvent) + 1 else old(nextEvent)
    {
      ok := accepted;
      if accepted {
        var e := Envelope(nextEvent, order, payload);
        PublishedNext(published, e);
        FreshInPartitions(published, nextEvent);
        AppendKeepsLogs(logs, e);
        var p := PartitionOf(e);
        logs := logs[p := logs[p] + [e]];
        nextEvent := nextEvent + 1;
        published := published + [e];
      }
    }

    /** The producer has published the log of this world. */
    ghost predicate Shows(w: World)
      reads this
    {
      published == w.log && nextEvent == w.nextEvent
    }
  }

  // ------------------------------------------------------------ the moves a handler makes

  lemma ExecOne(e: Engine, w: World, m: Move)
    requires Enabled(e, w, m)
    ensures Exec(e, w, [m]) == Some(Next(e, w, m))
  {
    assert Exec(e, w, []) == Some(w);
  }

  lemma ExecTwo(e: Engine, w: World, m: Move, m': Move)
    requires Enabled(e, w, m) && Enabled(e, Next(e, w, m), m')
    ensures Exec(e, w, [m, m']) == Some(Next(e, Next(e, w, m), m'))
  {
    ExecOne(e, w, m);
    assert [m, m'][..1] == [m];
  }

  /** A POST: nothing if it is refused, else the insert and the send or a death in between. */
  function PostMoves(t: Tables, id: OrderId, request: NewOrder, accepted: bool): seq<Move>
  {
    if request.Validate() && request.user in t.cash && PlanOf(t, Place(id, request)).Commit?
    then [PostInserts(id, request), if accepted then PostSends(id) else PostDies(id)]
    else []
  }

  /** A message for Portfolio: nothing on a database error, else the transaction and what comes of
   *  its outcome. */
  function HandlingMoves(t: Tables, msg: nat, m: Envelope, accepted: bool): seq<Move>
    requires ForPortfolio(m.payload)
  {
    var reply := PlanOf(t, Request(m)).reply;
    if reply.Failed? then []
    else if OutcomeOf(reply).None? then [Transacts(msg)]
    else [Transacts(msg), if accepted then OutcomeSent(msg) else OutcomeDropped(msg)]
  }

  /** The handler returns Ok: no database error, and the outcome, if there is one, was accepted. */
  predicate HandlerOk(t: Tables, m: Envelope, accepted: bool)
    requires ForPortfolio(m.payload)
  {
    var reply := PlanOf(t, Request(m)).reply;
    !reply.Failed? && (OutcomeOf(reply).Some? ==> accepted)
  }

  /** A world after handling a message. */
  predicate Handled(w: World, msg: nat, m: Envelope, accepted: bool, w': World)
    requires ForPortfolio(m.payload)
  {
    var outcome := OutcomeOf(PlanOf(w.db, Request(m)).reply);
    var published := outcome.Some? && accepted;
    && w'.db == Apply(w.db, Request(m))
    && w'.log == (if published then w.log + [Envelope(w.nextEvent, m.order, outcome.value)] else w.log)
    && w'.nextEvent == (if published then w.nextEvent + 1 else w.nextEvent)
    && w'.handled == (if HandlerOk(w.db, m, accepted) then w.handled + {msg} else w.handled)
  }

  /** What handling a message comes to. */
  lemma HandlingDone(e: Engine, w: World, msg: nat, m: Envelope, accepted: bool)
    requires Open(w, msg) && w.log[msg] == m && ForPortfolio(m.payload)
    ensures var after := Exec(e, w, HandlingMoves(w.db, msg, m, accepted));
            after.Some? && Handled(w, msg, m, accepted, after.value)
  {
    var reply := PlanOf(w.db, Request(m)).reply;
    if reply.Failed? {
      assert Exec(e, w, []) == Some(w);
    } else if OutcomeOf(reply).None? {
      ExecOne(e, w, Transacts(msg));
    } else {
      var second := if accepted then OutcomeSent(msg) else OutcomeDropped(msg);
      ExecTwo(e, w, Transacts(msg), second);
      TwoHandled(e, w, msg, accepted);
    }
  }

  lemma TwoHandled(e: Engine, w: World, msg: nat, accepted: bool)
    requires Open(w, msg) && ForPortfolio(w.log[msg].payload) && OutcomeOf(PlanOf(w.db, Request(w.log[msg])).reply).Some?
    ensures Enabled(e, w, Transacts(msg))
    ensures var w1, m := Next(e, w, Transacts(msg)), if accepted then OutcomeSent(msg) else OutcomeDropped(msg);
            Enabled(e, w1, m) && Handled(w, msg, w.log[msg], accepted, Next(e, w1, m))
  {
  }

  datatype PostReply = Placed(order: OrderId) | Invalid | NoPortfolio | InsertFailed(error: DbError) | SendFailed

  class PortfolioService {
    const db: Database
    const producer: EventProducer

    constructor (db: Database, producer: EventProducer)
      ensures this.db == db && this.producer == producer
    {
      this.db, this.producer := db, producer;
    }

    /** The database and the broker are where this world has them. */
    ghost predicate Shows(w: World)
      reads db, producer
    {
      producer.Valid() && db.Contents() == w.db && producer.Shows(w)
    }

    /** Check, insert, then send. */
    method CreateOrder(id: OrderId, request: NewOrder, accepted: bool, ghost e: Engine, ghost w: World)
      returns (reply: PostReply)
      requires Shows(w)
      modifies db, producer
      ensures var after := Exec(e, w, PostMoves(w.db, id, request, accepted));
              after.Some? && Shows(after.value)
      ensures reply.Invalid? <==> request.symbol == "" || request.quantity <= 0
      ensures reply.NoPortfolio? <==> !reply.Invalid? && request.user !in old(db.cash)
      ensures reply.InsertFailed? <==>
                && !reply.Invalid? && !reply.NoPortfolio?
                && (id in old(db.orders) || request.user !in old(db.users) || 2 * request.quantity < FINE_PER_UNIT)
      ensures reply.Placed? ==> accepted && reply.order == id
      ensures reply.SendFailed? ==> !accepted
      ensures reply.Placed? || reply.SendFailed? ==>
                && id !in old(db.orders) && id in db.orders && db.orders == old(db.orders)[id := db.orders[id]]
                && (var row := db.orders[id];
                    && row.user == request.user && row.symbol == request.symbol && row.side == request.side
                    && 2 * Abs(row.quantity * FINE_PER_UNIT - request.quantity) <= FINE_PER_UNIT
                    && row.status == Created && row.price == None && row.reason == None)
      ensures reply.Placed? ==>
                producer.published == old(producer.published)
                  + [Envelope(old(producer.nextEvent), id,
                              OrderCreated(request.user, Normalize(request.symbol), request.side, db.orders[id].quantity))]
      ensures !reply.Placed? ==> producer.published == old(producer.published)
      ensures !reply.Placed? && !reply.SendFailed? ==> db.orders == old(db.orders)
      ensures db.users == old(db.users) && db.cash == old(db.cash) && db.holdings == old(db.holdings)
      ensures db.processed == old(db.processed)
    {
      if !request.Validate() {
        return Invalid;
      }
      var found := db.PortfolioExists(request.user);
      if !found {
        return NoPortfolio;
      }
      var inserted := db.CreateOrder(id, request);
      if inserted.Failed? {
        return InsertFailed(inserted.error);
      }
      var row := inserted.row;
      PlaceEffect(w.db, Place(id, request));
      var sent := producer.Send(id, OrderCreated(row.user, row.Asset(), row.side, row.quantity), accepted);
      ExecTwo(e, w, PostInserts(id, request), if accepted then PostSends(id) else PostDies(id));
      reply := if sent then Placed(id) else SendFailed;
    }

    /** Settle the order, then publish what came of it; an error leaves the message unacknowledged. */
    method OnPriceQuoted(m: Envelope, accepted: bool, ghost e: Engine, ghost w: World, ghost msg: nat)
      returns (ok: bool)
      requires Shows(w) && Open(w, msg) && w.log[msg] == m && m.payload.PriceQuoted?
      modifies db, producer
      ensures var after := Exec(e, w, HandlingMoves(w.db, msg, m, accepted));
              && after.Some? && Shows(after.value)
              && after.value.handled == if ok then w.handled + {msg} else w.handled
      ensures ok <==> HandlerOk(w.db, m, accepted)
      ensures db.Contents() == Apply(old(db.Contents()), Quoted(m.order, m.event, m.payload.price))
      ensures match PlanOf(old(db.Contents()), Quoted(m.order, m.event, m.payload.price)).reply
              case Filled(user, symbol, side, quantity, price) =>
                && ok == accepted
                && producer.published == old(producer.published) + if accepted then
                     [Envelope(old(producer.nextEvent), m.order, OrderExecuted(user, symbol, side, quantity, price))] else []
              case Refused(reason, detail) =>
                && ok == accepted
                && producer.published == old(producer.published) + if accepted then
                     [Envelope(old(producer.nextEvent), m.order, OrderRejected(reason, detail))] else []
              case Failed(_) => !ok && producer.published == old(producer.published)
              case _ => ok && producer.published == old(producer.published)
    {
      HandlingDone(e, w, msg, m, accepted);
      var reply := db.ApplyPriceQuoted(m.order, m.event, m.payload.price);
      if reply.Failed? {
        return false;
      }
      ok := true;
      match reply {
        case Filled(user, symbol, side, quantity, price) =>
          ok := producer.Send(m.order, OrderExecuted(user, symbol, side, quantity, price), accepted);
        case Refused(reason, detail) =>
          ok := producer.Send(m.order, OrderRejected(reason, detail), accepted);
        case _ =>
      }
    }

    /** Mark a still-open order rejected; publishes nothing. */
    method OnOrderRejected(m: Envelope, accepted: bool, ghost e: Engine, ghost w: World, ghost msg: nat)
      requires Shows(w) && Open(w, msg) && w.log[msg] == m && m.payload.OrderRejected?
      modifies db
      ensures var after := Exec(e, w, HandlingMoves(w.db, msg, m, accepted));
              && after.Some? && Shows(after.value)
              && after.value.handled == w.handled + {msg} && after.value.log == w.log
      ensures db.Contents() == Apply(old(db.Contents()), Rejection(m.order, m.event, m.payload.detail))
    {
      HandlingDone(e, w, msg, m, accepted);
      db.ApplyOrderRejected(m.order, m.event, m.payload.detail);
    }

    /** Route a message by its topic; one of another topic is logged and left alone. */
    method Dispatch(m: Envelope, accepted: bool, ghost e: Engine, ghost w: World, ghost msg: nat) returns (ok: bool)
      requires Shows(w) && Open(w, msg) && w.log[msg] == m
      modifies db, producer
      ensures !ForPortfolio(m.payload) ==>
                ok && Shows(w) && db.Contents() == old(db.Contents()) && producer.published == old(producer.published)
      ensures ForPortfolio(m.payload) ==>
                var after := Exec(e, w, HandlingMoves(w.db, msg, m, accepted));
                && after.Some? && Shows(after.value)
                && after.value.handled == (if ok then w.handled + {msg} else w.handled)
                && (ok <==> HandlerOk(w.db, m, accepted))
      ensures m.payload.OrderRejected? ==>
                && ok && producer.published == old(producer.published)
                && db.Contents() == Apply(old(db.Contents()), Rejection(m.order, m.event, m.payload.detail))
      ensures m.payload.PriceQuoted? ==>
                db.Contents() == Apply(old(db.Contents()), Quoted(m.order, m.event, m.payload.price))
      ensures m.payload.PriceQuoted? ==>
                match PlanOf(old(db.Contents()), Quoted(m.order, m.event, m.payload.price)).reply
                  case Filled(user, symbol, side, quantity, price) =>
                    && ok == accepted
                    && producer.published == old(producer.published) + if accepted then
                         [Envelope(old(producer.nextEvent), m.order, OrderExecuted(user, symbol, side, quantity, price))] else []
                  case Refused(reason, detail) =>
                    && ok == accepted
                    && producer.published == old(producer.published) + if accepted then
                         [Envelope(old(producer.nextEvent), m.order, OrderRejected(reason, detail))] else []
                  case Failed(_) => !ok && producer.published == old(producer.published)
                  case _ => ok && producer.published == old(producer.published)
    {
      match TopicOf(m.payload) {
        case QuotedTopic => ok := OnPriceQuoted(m, accepted, e, w, msg);
        case RejectedTopic =>
          OnOrderRejected(m, accepted, e, w, msg);
          ok := true;
        case _ => ok := true;
      }
    }
  }

  class MarketService {
    const engine: Engine
    const producer: EventProducer

    constructor (engine: Engine, producer: EventProducer)
      ensures this.engine == engine && this.producer == producer
    {
      this.engine, this.producer := engine, producer;
    }

    /** Answer an OrderCreated with one event, whether or not it was answered before; `bps` is the
     *  random draw. */
    method OnOrderCreated(m: Envelope, bps: int, accepted: bool, ghost w: World, ghost msg: nat) returns (ok: bool)
      requires producer.Valid() && producer.Shows(w) && Open(w, msg) && w.log[msg] == m
      requires m.payload.OrderCreated? && InBand(bps)
      modifies producer
      ensures producer.Valid() && ok == accepted
      ensures producer.Shows(if accepted then Next(engine, w, MarketReplies(msg, bps)) else w)
      ensures !accepted ==> producer.published == old(producer.published)
      ensures accepted ==>
                && |producer.published| == |old(producer.published)| + 1
                && producer.published[..|old(producer.published)|] == old(producer.published)
                && (var answer, symbol := producer.published[|old(producer.published)|], m.payload.symbol;
                    && answer.event == old(producer.nextEvent) && answer.order == m.order
                    && (if symbol in engine.failing then answer.payload == OrderRejected(MarketUnavailable, NoMarket(symbol))
                        else if symbol in engine.bases then answer.payload == PriceQuoted(symbol, Jitter(engine.bases[symbol], bps))
                        else answer.payload == OrderRejected(UnknownSymbol, NoSuchSymbol(symbol))))
    {
      var symbol := m.payload.symbol;
      match engine.Lookup(symbol) {
        case Listed(base) =>
          ok := producer.Send(m.order, PriceQuoted(symbol, Jitter(base, bps)), accepted);
        case Unknown =>
          ok := producer.Send(m.order, OrderRejected(UnknownSymbol, NoSuchSymbol(symbol)), accepted);
        case Unavailable =>
          ok := producer.Send(m.order, OrderRejected(MarketUnavailable, NoMarket(symbol)), accepted);
      }
    }
  }
}
