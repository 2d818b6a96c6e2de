/** The consumer loop at work: it receives the message at its position, runs the handler of its topic,
 *  and commits when that returns Ok. Each turn of the loop is a story of the cluster. */
module Consumers {
  import opened Domain
  import opened Pricing
  import opened Transactions
  import opened Events
  import opened Kafka
  import opened Repo
  import opened Saga
  import opened SagaProperties
  import opened Services
  import opened Delivery
  import opened Rest
  import Audit

  // ------------------------------------------------------------ partitions and offsets

  /** The entry of a partition at an offset is the published event of that offset. */
  lemma {:induction false} PartitionEntry(log: seq<Envelope>, p: nat, i: nat)
    requires i < |log| && PartitionOf(log[i]) == p
    ensures |Audit.Select(log, Audit.InPartition(p))| == Length(log, p) && Offset(log, i) < Length(log, p)
    ensures Audit.Select(log, Audit.InPartition(p))[Offset(log, i)] == log[i]
  {
    PartitionLength(log, p);
    OffsetBelowLength(log, i);
    var init := log[..|log| - 1];
    PartitionLength(init, p);
    CountKept(init, log, p, |init|);
    if i < |init| {
      PartitionEntry(init, p, i);
      OffsetsKept(init, log);
    }
  }

  lemma {:induction false} PartitionLength(log: seq<Envelope>, p: nat)
    ensures |Audit.Select(log, Audit.InPartition(p))| == Length(log, p)
  {
    if log != [] {
      var init := log[..|log| - 1];
      PartitionLength(init, p);
      CountKept(init, log, p, |init|);
    }
  }

  // ------------------------------------------------------------ one delivery as a story

  /** Between deliveries no handler is at work. */
  predicate Resting(c: Cluster)
  {
    c.served == {} && c.world.sending == map[]
  }

  /** The moves of the handler that a message's topic calls for. */
  function WorkOf(w: World, msg: nat, m: Envelope, accepted: bool, bps: int): seq<Move>
    requires !m.payload.OrderExecuted?
  {
    if m.payload.OrderCreated? then (if accepted then [MarketReplies(msg, bps)] else [])
    else HandlingMoves(w.db, msg, m, accepted)
  }

  predicate WorkOk(w: World, m: Envelope, accepted: bool)
    requires !m.payload.OrderExecuted?
  {
    if m.payload.OrderCreated? then accepted else HandlerOk(w.db, m, accepted)
  }

  function StoryOf(moves: seq<Move>, msg: nat, ok: bool): seq<Occurrence>
    requires |moves| <= 2
  {
    var done := Returned(msg, ok);
    if moves == [] then [done]
    else if |moves| == 1 then [Service(moves[0]), done]
    else [Service(moves[0]), Service(moves[1]), done]
  }

  lemma GoesOne(e: Engine, c: Cluster, o: Occurrence)
    requires |c.cursors| == PARTITIONS && CanOccur(e, c, o)
    ensures Goes(e, c, [o]) == Some(Occur(e, c, o))
  {
    GoesSnoc(e, c, [], o);
    assert [] + [o] == [o];
  }

  lemma GoesFirst(e: Engine, c: Cluster, o: Occurrence, later: seq<Occurrence>)
    requires |c.cursors| == PARTITIONS && CanOccur(e, c, o)
    ensures Goes(e, c, [o] + later) == Goes(e, Occur(e, c, o), later)
  {
    GoesOne(e, c, o);
    GoesJoin(e, c, [o], later);
  }

  /** What a delivery leaves: the world after the handler's moves, and the cursor past the message. */
  predicate DeliveryDone(e: Engine, c: Cluster, msg: nat, moves: seq<Move>, ok: bool, c': Cluster)
    requires |c.cursors| == PARTITIONS && msg < |c.world.log|
  {
    var p := PartitionOf(c.world.log[msg]);
    && Exec(e, c.world, moves) == Some(c'.world) && Resting(c')
    && c'.cursors == c.cursors[p := Receive(c.cursors[p], ok)]
  }

  lemma NothingDone(e: Engine, c: Cluster, msg: nat)
    requires InStep(c) && Resting(c) && Receiving(c, msg)
    ensures Goes(e, c, StoryOf([], msg, false)).Some?
    ensures DeliveryDone(e, c, msg, [], false, Goes(e, c, StoryOf([], msg, false)).value)
  {
    GoesOne(e, c, Returned(msg, false));
    assert Exec(e, c.world, []) == Some(c.world);
  }

  lemma OneDone(e: Engine, c: Cluster, msg: nat, m: Move)
    requires InStep(c) && Resting(c) && Receiving(c, msg) && CanOccur(e, c, Service(m)) && Served(c.world, m) == {msg}
    requires m.MarketReplies? || m.Transacts?
    ensures Goes(e, c, StoryOf([m], msg, true)).Some?
    ensures DeliveryDone(e, c, msg, [m], true, Goes(e, c, StoryOf([m], msg, true)).value)
  {
    ServiceEnabled(e, c, m);
    ServiceFrame(e, c.world, m);
    var c1 := Occur(e, c, Service(m));
    StillReceiving(c, c1, msg);
    GoesFirst(e, c, Service(m), [Returned(msg, true)]);
    assert [Service(m)] + [Returned(msg, true)] == StoryOf([m], msg, true);
    GoesOne(e, c1, Returned(msg, true));
    ExecOne(e, c.world, m);
  }

  lemma TransactionDone(e: Engine, c: Cluster, msg: nat)
    requires InStep(c) && Resting(c) && Receiving(c, msg) && CanOccur(e, c, Service(Transacts(msg)))
    requires OutcomeOf(PlanOf(c.world.db, Request(c.world.log[msg])).reply).Some?
    ensures Enabled(e, c.world, Transacts(msg))
    ensures var c1 := Occur(e, c, Service(Transacts(msg)));
            && c1.cursors == c.cursors && c1.world == Next(e, c.world, Transacts(msg)) && Receiving(c1, msg)
            && c1.served == {} && c1.world.sending.Keys == {msg}
  {
    ServiceEnabled(e, c, Transacts(msg));
    StillReceiving(c, Occur(e, c, Service(Transacts(msg))), msg);
  }

  lemma SendingDone(e: Engine, c: Cluster, msg: nat, accepted: bool)
    requires |c.cursors| == PARTITIONS && Receiving(c, msg) && c.served == {} && c.world.sending.Keys == {msg}
    ensures var m, p := if accepted then OutcomeSent(msg) else OutcomeDropped(msg), PartitionOf(c.world.log[msg]);
            && CanOccur(e, c, Service(m)) && Enabled(e, c.world, m)
            && (var c' := Occur(e, c, Service(m));
                && |c'.cursors| == PARTITIONS && CanOccur(e, c', Returned(msg, accepted))
                && (var end := Occur(e, c', Returned(msg, accepted));
                    && end.world == Next(e, c.world, m) && Resting(end)
                    && end.cursors == c.cursors[p := Receive(c.cursors[p], accepted)]))
  {
    var m := if accepted then OutcomeSent(msg) else OutcomeDropped(msg);
    StillReceiving(c, Occur(e, c, Service(m)), msg);
    assert c.world.sending - {msg} == map[];
  }

  /** The transaction has an outcome; it is sent or dropped. */
  lemma TwoDone(e: Engine, c: Cluster, msg: nat, accepted: bool)
    requires InStep(c) && Resting(c) && Receiving(c, msg) && CanOccur(e, c, Service(Transacts(msg)))
    requires OutcomeOf(PlanOf(c.world.db, Request(c.world.log[msg])).reply).Some?
    ensures var moves := [Transacts(msg), if accepted then OutcomeSent(msg) else OutcomeDropped(msg)];
            && Goes(e, c, StoryOf(moves, msg, accepted)).Some?
            && DeliveryDone(e, c, msg, moves, accepted, Goes(e, c, StoryOf(moves, msg, accepted)).value)
  {
    var first, second := Transacts(msg), if accepted then OutcomeSent(msg) else OutcomeDropped(msg);
    TransactionDone(e, c, msg);
    var c1 := Occur(e, c, Service(first));
    SendingDone(e, c1, msg, accepted);
    StoryOfTwo(e, c, c1, first, second, msg, accepted);
    ExecTwo(e, c.world, first, second);
  }

  lemma StoryOfTwo(e: Engine, c: Cluster, c1: Cluster, first: Move, second: Move, msg: nat, ok: bool)
    requires |c.cursors| == PARTITIONS == |c1.cursors| && CanOccur(e, c, Service(first)) && c1 == Occur(e, c, Service(first))
    requires CanOccur(e, c1, Service(second)) && |Occur(e, c1, Service(second)).cursors| == PARTITIONS
    requires CanOccur(e, Occur(e, c1, Service(second)), Returned(msg, ok))
    ensures Goes(e, c, StoryOf([first, second], msg, ok)) == Some(Occur(e, Occur(e, c1, Service(second)), Returned(msg, ok)))
  {
    assert StoryOf([first, second], msg, ok) == [Service(first)] + ([Service(second)] + [Returned(msg, ok)]);
    GoesFirst(e, c, Service(first), [Service(second)] + [Returned(msg, ok)]);
    GoesFirst(e, c1, Service(second), [Returned(msg, ok)]);
    GoesOne(e, Occur(e, c1, Service(second)), Returned(msg, ok));
  }

  /** The handler's moves and its return are a story of the cluster. */
  lemma WorkGoes(e: Engine, c: Cluster, msg: nat, accepted: bool, bps: int)
    requires InStep(c) && Resting(c) && Receiving(c, msg) && InBand(bps)
    ensures var m := c.world.log[msg];
            var moves, ok := WorkOf(c.world, msg, m, accepted, bps), WorkOk(c.world, m, accepted);
            && |moves| <= 2 && Goes(e, c, StoryOf(moves, msg, ok)).Some?
            && DeliveryDone(e, c, msg, moves, ok, Goes(e, c, StoryOf(moves, msg, ok)).value)
  {
    var m := c.world.log[msg];
    if m.payload.OrderCreated? {
      if accepted {
        OneDone(e, c, msg, MarketReplies(msg, bps));
      } else {
        NothingDone(e, c, msg);
      }
    } else {
      var reply := PlanOf(c.world.db, Request(m)).reply;
      if reply.Failed? {
        NothingDone(e, c, msg);
      } else if OutcomeOf(reply).None? {
        OneDone(e, c, msg, Transacts(msg));
      } else {
        TwoDone(e, c, msg, accepted);
      }
    }
  }

  // ------------------------------------------------------------ the loop

  /** What the loop's `select!` yields: a message of a partition, with the answers the broker and the
   *  random draw will give, a commit landing or lost in the background, or a receive error. */
  datatype Turn =
    | Message(partition: nat, accepted: bool, bps: int)
    | Landed(partition: nat)
    | Lost(partition: nat)
    | RecvError

  predicate GoodTurn(t: Turn)
  {
    match t
    case Message(p, _, bps) => p < PARTITIONS && InBand(bps)
    case Landed(p) => p < PARTITIONS
    case Lost(p) => p < PARTITIONS
    case RecvError => true
  }

  /** No service subscribes to order-executed but Audit. */
  predicate Subscribed(p: nat)
  {
    p / PARTITIONS_PER_TOPIC != TopicIndex(ExecutedTopic)
  }

  lemma SubscribedMessage(m: Envelope)
    requires Subscribed(PartitionOf(m))
    ensures !m.payload.OrderExecuted?
  {
  }

  lemma ExecutedUnsubscribed(m: Envelope)
    requires !Subscribed(PartitionOf(m))
    ensures m.payload.OrderExecuted?
  {
  }

  /** The consumer of this partition stands at this message. */
  predicate StandsAt(c: Cluster, p: nat, msg: nat)
    requires |c.cursors| == PARTITIONS
  {
    Receiving(c, msg) && PartitionOf(c.world.log[msg]) == p
  }

  /** What a turn makes happen: the whole handling of the message its consumer stands at, or nothing when
   *  there is none. */
  ghost predicate TurnDone(c: Cluster, turn: Turn, story: seq<Occurrence>)
    requires |c.cursors| == PARTITIONS
  {
    match turn
    case Message(p, accepted, bps) =>
      && (forall msg: nat :: StandsAt(c, p, msg) ==>
            var m := c.world.log[msg];
            var moves := WorkOf(c.world, msg, m, accepted, bps);
            |moves| <= 2 && story == StoryOf(moves, msg, WorkOk(c.world, m, accepted)))
      && ((forall msg: nat :: !StandsAt(c, p, msg)) ==> story == [])
    case Landed(p) => story == [Broker(CommitLands(p))]
    case Lost(p) => story == [Broker(CommitLost(p))]
    case RecvError => story == [Broker(ReceiveError)]
  }

  ghost predicate TurnsDone(e: Engine, c: Cluster, turns: seq<Turn>, story: seq<Occurrence>)
  {
    if turns == [] then story == []
    else
      exists early, last ::
        && story == early + last && TurnsDone(e, c, turns[..|turns| - 1], early)
        && Goes(e, c, early).Some? && |Goes(e, c, early).value.cursors| == PARTITIONS
        && TurnDone(Goes(e, c, early).value, turns[|turns| - 1], last)
  }

  lemma NextTurn(e: Engine, c: Cluster, turns: seq<Turn>, i: nat, story: seq<Occurrence>, now: Cluster, more: seq<Occurrence>)
    requires i < |turns| && Goes(e, c, story) == Some(now) && TurnsDone(e, c, turns[..i], story)
    requires |now.cursors| == PARTITIONS && TurnDone(now, turns[i], more)
    ensures Goes(e, c, story + more) == Goes(e, now, more)
    ensures TurnsDone(e, c, turns[..i + 1], story + more)
  {
    GoesJoin(e, c, story, more);
    assert turns[..i + 1][..i] == turns[..i];
  }

  lemma OnlyStand(c: Cluster, p: nat, msg: nat)
    requires |c.cursors| == PARTITIONS && StandsAt(c, p, msg)
    ensures forall other: nat :: StandsAt(c, p, other) ==> other == msg
  {
    forall other: nat | StandsAt(c, p, other)
      ensures other == msg
    {
      ReceivingOne(c, other, msg);
    }
  }

  /** The story of the message that a consumer stands at. */
  lemma DeliveryStory(e: Engine, c: Cluster, p: nat, accepted: bool, bps: int, msg: nat) returns (story: seq<Occurrence>)
    requires InStep(c) && Resting(c) && InBand(bps) && StandsAt(c, p, msg)
    ensures TurnDone(c, Message(p, accepted, bps), story) && Goes(e, c, story).Some?
    ensures var m := c.world.log[msg];
            DeliveryDone(e, c, msg, WorkOf(c.world, msg, m, accepted, bps), WorkOk(c.world, m, accepted), Goes(e, c, story).value)
  {
    WorkGoes(e, c, msg, accepted, bps);
    OnlyStand(c, p, msg);
    story := StoryOf(WorkOf(c.world, msg, c.world.log[msg], accepted, bps), msg, WorkOk(c.world, c.world.log[msg], accepted));
  }

  lemma NoStand(c: Cluster, p: nat)
    requires |c.cursors| == PARTITIONS && p < PARTITIONS
    requires !Subscribed(p) || |Audit.Select(c.world.log, Audit.InPartition(p))| <= c.cursors[p].position
    ensures forall msg: nat :: !StandsAt(c, p, msg)
  {
    PartitionLength(c.world.log, p);
    forall msg: nat | msg < |c.world.log| && PartitionOf(c.world.log[msg]) == p
      ensures !Receiving(c, msg)
    {
      OffsetBelowLength(c.world.log, msg);
      if !Subscribed(p) {
        ExecutedUnsubscribed(c.world.log[msg]);
      }
    }
  }

  // ------------------------------------------------------------ what a turn comes to

  /** A turn leads from one cluster, between deliveries, to another. */
  ghost predicate Turned(e: Engine, c: Cluster, turn: Turn, c': Cluster)
  {
    InStep(c) && Resting(c) && GoodTurn(turn) && exists story :: TurnDone(c, turn, story) && Goes(e, c, story) == Some(c')
  }

  lemma StoryTurns(e: Engine, c: Cluster, turn: Turn, story: seq<Occurrence>)
    requires InStep(c) && Resting(c) && GoodTurn(turn) && TurnDone(c, turn, story) && Goes(e, c, story).Some?
    ensures Turned(e, c, turn, Goes(e, c, story).value)
  {
  }

  /** Each turn so far leads from its stop to the next. */
  ghost predicate Walked(e: Engine, turns: seq<Turn>, stops: seq<Cluster>)
  {
    && 0 < |stops| <= |turns| + 1
    && forall i :: 0 <= i < |stops| - 1 ==> Turned(e, stops[i], turns[i], stops[i + 1])
  }

  lemma WalkOn(e: Engine, turns: seq<Turn>, stops: seq<Cluster>, next: Cluster)
    requires Walked(e, turns, stops) && |stops| <= |turns| && Turned(e, stops[|stops| - 1], turns[|stops| - 1], next)
    ensures Walked(e, turns, stops + [next])
  {
  }

  lemma TurnDelivers(e: Engine, c: Cluster, p: nat, accepted: bool, bps: int, c': Cluster, msg: nat)
    requires |c.cursors| == PARTITIONS && StandsAt(c, p, msg) && Turned(e, c, Message(p, accepted, bps), c')
    ensures var m := c.world.log[msg];
            DeliveryDone(e, c, msg, WorkOf(c.world, msg, m, accepted, bps), WorkOk(c.world, m, accepted), c')
  {
    WorkGoes(e, c, msg, accepted, bps);
  }

  /** The turn of the message at a consumer's position: the cursor of that partition goes past it and the
   *  others stay; its commit is queued exactly when its handler returned Ok. That is, when the answer to
   *  an OrderCreated was accepted; for a quote, when its transaction did not fail and the outcome, if it
   *  had one, was accepted; and for a rejection always. */
  lemma MessageTurn(e: Engine, c: Cluster, p: nat, accepted: bool, bps: int, c': Cluster, msg: nat) returns (ok: bool)
    requires |c.cursors| == PARTITIONS && StandsAt(c, p, msg) && Turned(e, c, Message(p, accepted, bps), c')
    ensures |c'.cursors| == PARTITIONS && forall q :: 0 <= q < PARTITIONS && q != p ==> c'.cursors[q] == c.cursors[q]
    ensures var was, now := c.cursors[p], c'.cursors[p];
            && now.position == was.position + 1 && now.committed == was.committed
            && now.ok == was.ok + (if ok then {was.position} else {})
            && now.pending == was.pending + (if ok then [was.position + 1] else [])
    ensures var m := c.world.log[msg];
            match m.payload
            case OrderCreated(_, _, _, _) => ok == accepted
            case PriceQuoted(_, price) =>
              var reply := PlanOf(c.world.db, Quoted(m.order, m.event, price)).reply;
              ok <==> !reply.Failed? && (reply.Filled? || reply.Refused? ==> accepted)
            case OrderRejected(_, _) => ok
            case OrderExecuted(_, _, _, _, _) => false
  {
    TurnDelivers(e, c, p, accepted, bps, c', msg);
    ok := WorkOk(c.world, c.world.log[msg], accepted);
  }

  /** The turn of an OrderCreated publishes Market's answer when it is accepted, and nothing else. */
  lemma CreatedTurn(e: Engine, c: Cluster, p: nat, accepted: bool, bps: int, c': Cluster, msg: nat)
    requires |c.cursors| == PARTITIONS && StandsAt(c, p, msg) && Turned(e, c, Message(p, accepted, bps), c')
    requires c.world.log[msg].payload.OrderCreated?
    ensures var m, symbol, w, w' := c.world.log[msg], c.world.log[msg].payload.symbol, c.world, c'.world;
            && w'.db == w.db
            && w'.log == w.log + if accepted then
                 [Envelope(w.nextEvent, m.order,
                           if symbol in e.failing then OrderRejected(MarketUnavailable, NoMarket(symbol))
                           else if symbol in e.bases then PriceQuoted(symbol, Jitter(e.bases[symbol], bps))
                           else OrderRejected(UnknownSymbol, NoSuchSymbol(symbol)))] else []
  {
    TurnDelivers(e, c, p, accepted, bps, c', msg);
    ReceivedIsOpen(c, msg);
    if accepted {
      ExecOne(e, c.world, MarketReplies(msg, bps));
    } else {
      assert Exec(e, c.world, []) == Some(c.world);
    }
  }

  /** The turn of a quote settles its order, and publishes the outcome of that when it is accepted. */
  lemma QuotedTurn(e: Engine, c: Cluster, p: nat, accepted: bool, bps: int, c': Cluster, msg: nat)
    requires |c.cursors| == PARTITIONS && StandsAt(c, p, msg) && Turned(e, c, Message(p, accepted, bps), c')
    requires c.world.log[msg].payload.PriceQuoted?
    ensures var m, w, w' := c.world.log[msg], c.world, c'.world;
            && w'.db == Apply(w.db, Quoted(m.order, m.event, m.payload.price))
            && match PlanOf(w.db, Quoted(m.order, m.event, m.payload.price)).reply
               case Filled(user, symbol, side, quantity, price) =>
                 w'.log == w.log + if accepted then
                   [Envelope(w.nextEvent, m.order, OrderExecuted(user, symbol, side, quantity, price))] else []
               case Refused(reason, detail) =>
                 w'.log == w.log + if accepted then [Envelope(w.nextEvent, m.order, OrderRejected(reason, detail))] else []
               case _ => w'.log == w.log
  {
    TurnDelivers(e, c, p, accepted, bps, c', msg);
    ReceivedIsOpen(c, msg);
    HandlingDone(e, c.world, msg, c.world.log[msg], accepted);
  }

  /** The turn of a rejection rejects its order with that detail if it is still CREATED, and publishes
   *  nothing. */
  lemma RejectedTurn(e: Engine, c: Cluster, p: nat, accepted: bool, bps: int, c': Cluster, msg: nat)
    requires |c.cursors| == PARTITIONS && StandsAt(c, p, msg) && Turned(e, c, Message(p, accepted, bps), c')
    requires c.world.log[msg].payload.OrderRejected?
    ensures var m, w, w' := c.world.log[msg], c.world, c'.world;
            w'.log == w.log && w'.db == Apply(w.db, Rejection(m.order, m.event, m.payload.detail))
  {
    TurnDelivers(e, c, p, accepted, bps, c', msg);
    ReceivedIsOpen(c, msg);
    HandlingDone(e, c.world, msg, c.world.log[msg], accepted);
  }

  /** Without a message at the position nothing happens; a commit that lands moves the committed offset to
   *  the oldest one queued, and a lost one is only forgotten. */
  lemma OtherTurn(e: Engine, c: Cluster, turn: Turn, c': Cluster)
    requires |c.cursors| == PARTITIONS && Turned(e, c, turn, c')
    requires turn.Message? ==> forall msg: nat :: !StandsAt(c, turn.partition, msg)
    ensures |c'.cursors| == PARTITIONS && c'.world.db == c.world.db && c'.world.log == c.world.log
    ensures turn.Message? || turn.RecvError? ==> c'.cursors == c.cursors
    ensures turn.Landed? || turn.Lost? ==>
              && (forall q :: 0 <= q < PARTITIONS && q != turn.partition ==> c'.cursors[q] == c.cursors[q])
              && (var was, now := c.cursors[turn.partition], c'.cursors[turn.partition];
                  && now.position == was.position && now.ok == was.ok
                  && now.pending == (if was.pending == [] then [] else was.pending[1..])
                  && now.committed == if turn.Landed? && was.pending != [] then was.pending[0] else was.committed)
  {
    match turn
    case Message(_, _, _) => assert Goes(e, c, []) == Some(c);
    case Landed(p) => GoesOne(e, c, Broker(CommitLands(p)));
    case Lost(p) => GoesOne(e, c, Broker(CommitLost(p)));
    case RecvError => GoesOne(e, c, Broker(ReceiveError));
  }

  class EventConsumer {
    const portfolio: PortfolioService
    const market: MarketService
    const cursors: array<Cursor>

    constructor (portfolio: PortfolioService, market: MarketService)
      requires market.producer == portfolio.producer
      ensures this.portfolio == portfolio && this.market == market && fresh(cursors)
      ensures cursors.Length == PARTITIONS && forall p :: 0 <= p < PARTITIONS ==> cursors[p] == FRESH
    {
      this.portfolio, this.market := portfolio, market;
      cursors := new Cursor[PARTITIONS](_ => FRESH);
    }

    /** Database, broker and cursors are where this cluster has them. */
    ghost predicate Shows(c: Cluster)
      reads cursors, portfolio.db, portfolio.producer
    {
      && market.producer == portfolio.producer && cursors.Length == PARTITIONS && cursors[..] == c.cursors
      && portfolio.Shows(c.world)
    }

    /** Call the handler of the message's topic. */
    method Handle(m: Envelope, accepted: bool, bps: int, ghost w: World, ghost msg: nat) returns (ok: bool)
      requires market.producer == portfolio.producer && portfolio.Shows(w)
      requires Open(w, msg) && w.log[msg] == m && !m.payload.OrderExecuted? && InBand(bps)
      modifies portfolio.db, portfolio.producer
      ensures var after := Exec(market.engine, w, WorkOf(w, msg, m, accepted, bps));
              after.Some? && portfolio.Shows(after.value)
      ensures ok <==> WorkOk(w, m, accepted)
      ensures m.payload.OrderCreated? ==>
                ok == accepted && portfolio.db.Contents() == old(portfolio.db.Contents())
      ensures m.payload.OrderCreated? ==>
                var bases, failing, symbol := market.engine.bases, market.engine.failing, m.payload.symbol;
                portfolio.producer.published == old(portfolio.producer.published) + if accepted then
                  [Envelope(old(portfolio.producer.nextEvent), m.order,
                            if symbol in failing then OrderRejected(MarketUnavailable, NoMarket(symbol))
                            else if symbol in bases then PriceQuoted(symbol, Jitter(bases[symbol], bps))
                            else OrderRejected(UnknownSymbol, NoSuchSymbol(symbol)))] else []
      ensures m.payload.OrderRejected? ==>
                && ok && portfolio.producer.published == old(portfolio.producer.published)
                && portfolio.db.Contents() == Apply(old(portfolio.db.Contents()), Rejection(m.order, m.event, m.payload.detail))
      ensures m.payload.PriceQuoted? ==>
                portfolio.db.Contents() == Apply(old(portfolio.db.Contents()), Quoted(m.order, m.event, m.payload.price))
      ensures m.payload.PriceQuoted? ==>
                match PlanOf(old(portfolio.db.Contents()), Quoted(m.order, m.event, m.payload.price)).reply
                  case Filled(user, symbol, side, quantity, price) =>
                    && ok == accepted
                    && portfolio.producer.published == old(portfolio.producer.published) + if accepted then
                         [Envelope(old(portfolio.producer.nextEvent), m.order, OrderExecuted(user, symbol, side, quantity, price))] else []
                  case Refused(reason, detail) =>
                    && ok == accepted
                    && portfolio.producer.published == old(portfolio.producer.published) + if accepted then
                         [Envelope(old(portfolio.producer.nextEvent), m.order, OrderRejected(reason, detail))] else []
                  case Failed(_) => !ok && portfolio.producer.published == old(portfolio.producer.published)
                  case _ => ok && portfolio.producer.published == old(portfolio.producer.published)
    {
      if m.payload.OrderCreated? {
        ok := market.OnOrderCreated(m, bps, accepted, w, msg);
        if ok {
          ExecOne(market.engine, w, MarketReplies(msg, bps));
        } else {
          assert Exec(market.engine, w, []) == Some(w);
        }
      } else {
        ok := portfolio.Dispatch(m, accepted, market.engine, w, msg);
      }
    }

    /** Receive the next message of a partition, if there is one, handle it, and queue its commit when the
     *  handler returned Ok. */
    method Deliver(p: nat, accepted: bool, bps: int, ghost c: Cluster)
      returns (ghost story: seq<Occurrence>, ghost received: Option<Envelope>, ghost ok: bool)
      requires Shows(c) && InStep(c) && Resting(c) && p < PARTITIONS && InBand(bps)
      modifies cursors, portfolio.db, portfolio.producer
      ensures var end := Goes(market.engine, c, story); end.Some? && Shows(end.value) && Resting(end.value)
      ensures TurnDone(c, Message(p, accepted, bps), story)
      ensures received == if Subscribed(p) && old(cursors[p]).position < |old(portfolio.producer.logs)[p]|
                          then Some(old(portfolio.producer.logs)[p][old(cursors[p]).position]) else None
      ensures received.None? ==>
                && cursors[..] == old(cursors[..]) && portfolio.db.Contents() == old(portfolio.db.Contents())
                && portfolio.producer.published == old(portfolio.producer.published)
      ensures received.Some? ==>
                && cursors[..] == old(cursors[..])[p := cursors[p]]
                && (var was, now := old(cursors[p]), cursors[p];
                    && now.position == was.position + 1 && now.committed == was.committed
                    && now.ok == was.ok + (if ok then {was.position} else {})
                    && now.pending == was.pending + (if ok then [was.position + 1] else []))
      ensures received.Some? && received.value.payload.OrderCreated? ==>
                ok == accepted && portfolio.db.Contents() == old(portfolio.db.Contents())
      ensures received.Some? && received.value.payload.OrderCreated? ==>
                var m, bases, failing := received.value, market.engine.bases, market.engine.failing;
                portfolio.producer.published == old(portfolio.producer.published) + if accepted then
                  [Envelope(old(portfolio.producer.nextEvent), m.order,
                            if m.payload.symbol in failing then OrderRejected(MarketUnavailable, NoMarket(m.payload.symbol))
                            else if m.payload.symbol in bases then PriceQuoted(m.payload.symbol, Jitter(bases[m.payload.symbol], bps))
                            else OrderRejected(UnknownSymbol, NoSuchSymbol(m.payload.symbol)))] else []
      ensures received.Some? && received.value.payload.OrderRejected? ==>
                var m := received.value;
                && ok && portfolio.producer.published == old(portfolio.producer.published)
                && portfolio.db.Contents() == Apply(old(portfolio.db.Contents()), Rejection(m.order, m.event, m.payload.detail))
      ensures received.Some? && received.value.payload.PriceQuoted? ==>
                var m := received.value;
                portfolio.db.Contents() == Apply(old(portfolio.db.Contents()), Quoted(m.order, m.event, m.payload.price))
      ensures received.Some? && received.value.payload.PriceQuoted? ==>
                var m := received.value;
                match PlanOf(old(portfolio.db.Contents()), Quoted(m.order, m.event, m.payload.price)).reply
                  case Filled(user, symbol, side, quantity, price) =>
                    && ok == accepted
                    && portfolio.producer.published == old(portfolio.producer.published) + if accepted then
                         [Envelope(old(portfolio.producer.nextEvent), m.order, OrderExecuted(user, symbol, side, quantity, price))] else []
                  case Refused(reason, detail) =>
                    && ok == accepted
                    && portfolio.producer.published == old(portfolio.producer.published) + if accepted then
                         [Envelope(old(portfolio.producer.nextEvent), m.order, OrderRejected(reason, detail))] else []
                  case Failed(_) => !ok && portfolio.producer.published == old(portfolio.producer.published)
                  case _ => ok && portfolio.producer.published == old(portfolio.producer.published)
    {
      story, received, ok := [], None, false;
      var offset := cursors[p].position;
      if !Subscribed(p) || offset >= |portfolio.producer.logs[p]| {
        NoStand(c, p);
        assert Goes(market.engine, c, []) == Some(c);
        return;
      }
      var m := portfolio.producer.logs[p][offset];
      ghost var msg := Located(c, p, m, offset);
      ReceivedIsOpen(c, msg);
      story := DeliveryStory(market.engine, c, p, accepted, bps, msg);
      var done := Handle(m, accepted, bps, c.world, msg);
      cursors[p] := Receive(cursors[p], done);
      received, ok := Some(m), done;
    }

    /** The published event that a partition holds at its consumer's position. */
    ghost method Located(c: Cluster, p: nat, m: Envelope, offset: nat) returns (msg: nat)
      requires Shows(c) && InStep(c) && p < PARTITIONS && Subscribed(p)
      requires offset == c.cursors[p].position && offset < |portfolio.producer.logs[p]|
      requires m == portfolio.producer.logs[p][offset]
      ensures msg < |c.world.log| && c.world.log[msg] == m && PartitionOf(m) == p && Receiving(c, msg)
    {
      PartitionLength(c.world.log, p);
      msg := MessageAt(c.world.log, p, offset, |c.world.log|);
      PartitionEntry(c.world.log, p, msg);
      SubscribedMessage(c.world.log[msg]);
    }

    /** Consume what comes until the turns end. Everything done on the way is a story of the cluster, and
     *  `stops` are where it stood between the turns. */
    method Run(turns: seq<Turn>, ghost c: Cluster) returns (ghost story: seq<Occurrence>, ghost stops: seq<Cluster>)
      requires Shows(c) && InStep(c) && Resting(c) && forall t <- turns :: GoodTurn(t)
      modifies cursors, portfolio.db, portfolio.producer
      ensures var end := Goes(market.engine, c, story); end.Some? && Shows(end.value) && Resting(end.value)
      ensures TurnsDone(market.engine, c, turns, story)
      ensures |stops| == |turns| + 1 && stops[0] == c && Shows(stops[|turns|])
      ensures forall i :: 0 <= i < |turns| ==> Turned(market.engine, stops[i], turns[i], stops[i + 1])
    {
      story, stops := [], [c];
      ghost var now := c;
      for i := 0 to |turns|
        invariant Goes(market.engine, c, story) == Some(now) && InStep(now)
        invariant Shows(now) && Resting(now)
        invariant TurnsDone(market.engine, c, turns[..i], story)
        invariant |stops| == i + 1 && stops[0] == c && stops[i] == now && Walked(market.engine, turns, stops)
      {
        ghost var more := Take(turns[i], now);
        NextTurn(market.engine, c, turns, i, story, now, more);
        GoesInStep(market.engine, now, more);
        StoryTurns(market.engine, now, turns[i], more);
        WalkOn(market.engine, turns, stops, Goes(market.engine, now, more).value);
        story, now := story + more, Goes(market.engine, now, more).value;
        stops := stops + [now];
      }
      assert turns[..|turns|] == turns;
    }

    /** One turn of the loop. */
    method Take(turn: Turn, ghost c: Cluster) returns (ghost story: seq<Occurrence>)
      requires Shows(c) && InStep(c) && Resting(c) && GoodTurn(turn)
      modifies cursors, portfolio.db, portfolio.producer
      ensures var end := Goes(market.engine, c, story); end.Some? && Shows(end.value) && Resting(end.value)
      ensures TurnDone(c, turn, story)
    {
      match turn {
        case Message(p, accepted, bps) =>
          ghost var received, ok;
          story, received, ok := Deliver(p, accepted, bps, c);
        case Landed(p) =>
          story := [Broker(CommitLands(p))];
          GoesOne(market.engine, c, Broker(CommitLands(p)));
          cursors[p] := Land(cursors[p]);
        case Lost(p) =>
          story := [Broker(CommitLost(p))];
          GoesOne(market.engine, c, Broker(CommitLost(p)));
          cursors[p] := Lose(cursors[p]);
        case RecvError =>
          story := [Broker(ReceiveError)];
          GoesOne(market.engine, c, Broker(ReceiveError));
      }
    }

    /** A new process resumes every partition at its committed offset. */
    method Resume(ghost c: Cluster)
      requires Shows(c) && InStep(c) && Resting(c)
      modifies cursors
      ensures |c.cursors| == PARTITIONS && Shows(Occur(market.engine, c, Restarts(ALL_PARTITIONS)))
      ensures forall p :: 0 <= p < PARTITIONS ==>
                && cursors[p].position == c.cursors[p].committed == cursors[p].committed
                && cursors[p].pending == [] && cursors[p].ok == c.cursors[p].ok
    {
      RestartAll(market.engine, c);
      for p := 0 to cursors.Length
        invariant forall q :: 0 <= q < p ==> cursors[q] == Reopen(c.cursors[q])
        invariant forall q :: p <= q < cursors.Length ==> cursors[q] == c.cursors[q]
        invariant portfolio.Shows(c.world)
      {
        cursors[p] := Reopen(cursors[p]);
      }
    }
  }
}
