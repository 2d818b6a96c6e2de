/** The repository as an object: its tables are fields, and every call updates them in place,
 *  statement by statement. Each call is proved to leave the tables exactly as its plan says. */
module Repo {
  import opened Money
  import opened Domain
  import opened Transactions

  datatype PortfolioView = PortfolioView(user: UserId, cash: nat, holdings: map<string, nat>)

  class Database {
    var users: set<UserId>
    var cash: map<UserId, nat>
    var holdings: map<Slot, nat>
    var orders: map<OrderId, OrderRow>
    var processed: set<EventId>

    constructor (t: Tables)
      ensures Contents() == t
    {
      users, cash, holdings, orders, processed := t.users, t.cash, t.holdings, t.orders, t.processed;
    }

    ghost function Contents(): Tables
      reads this
    {
      Tables(users, cash, holdings, orders, processed)
    }

    /** The event is in the ledger afterwards; the answer says whether it was new. */
    method MarkProcessed(event: EventId) returns (inserted: bool)
      modifies this`processed
      ensures inserted <==> event !in old(processed)
      ensures processed == old(processed) + {event}
    {
      inserted := event !in processed;
      processed := processed + {event};
    }

    method MarkExecuted(order: OrderId, price: int)
      modifies this`orders
      ensures orders == if order in old(orders) then old(orders)[order := old(orders)[order].(status := OrderStatus.Executed, price := Some(price))] else old(orders)
    {
      if order in orders {
        orders := orders[order := orders[order].(status := OrderStatus.Executed, price := Some(price))];
      }
    }

    method MarkRejected(order: OrderId, detail: Detail)
      modifies this`orders
      ensures orders == if order in old(orders) then old(orders)[order := old(orders)[order].(status := OrderStatus.Rejected, reason := Some(detail))] else old(orders)
    {
      if order in orders {
        orders := orders[order := orders[order].(status := OrderStatus.Rejected, reason := Some(detail))];
      }
    }

    /** The BUY branch of a transaction that has marked its event and read a CREATED order. */
    method SettleBuy(order: OrderId, price: int, ghost a: Action) returns (reply: Reply)
      requires IsCreated(Contents(), order) && a.Quoted? && a.order == order && a.price == price && a.event in processed
      modifies this`cash, this`holdings, this`orders
      ensures var plan := PlanBuy(old(Contents()), a);
              && reply == plan.reply
              && (plan.Commit? ==> Contents() == Effect(old(Contents()), plan.writes))
              && (plan.Rollback? <==> reply.Failed?)
    {
      ghost var before := Contents();
      var row := orders[order];
      if row.user !in cash {
        return Failed(MissingPortfolio);
      }
      var slot, balance, value := row.HoldingSlot(), cash[row.user], price * row.quantity;
      if Affordable(balance, price, row.quantity) {
        DebitIsHalfDown(balance, value);
        cash := cash[row.user := Debited(balance, value)];
        holdings := holdings[slot := (if slot in holdings then holdings[slot] else 0) + row.quantity];
        MarkExecuted(order, price);
        reply := Filled(row.user, row.Asset(), row.side, row.quantity, price);
        UnionOne(before.cash, row.user, cash[row.user]);
        EffectOfFill(before, a.event, order, MarkedExecuted(row, price), slot, holdings[slot], map[row.user := cash[row.user]]);
      } else {
        MarkRejected(order, ShortOfCash(value, balance));
        reply := Refused(InsufficientBalance, ShortOfCash(value, balance));
        EffectOfOrder(before, a.event, order, MarkedRejected(row, ShortOfCash(value, balance)));
      }
    }

    /** The SELL branch; on an error it leaves a half-done transaction for the caller to roll back. */
    method SettleSell(order: OrderId, price: int, ghost a: Action) returns (reply: Reply)
      requires IsCreated(Contents(), order) && a.Quoted? && a.order == order && a.price == price && a.event in processed
      modifies this`cash, this`holdings, this`orders
      ensures var plan := PlanSell(old(Contents()), a);
              && reply == plan.reply
              && (plan.Commit? ==> Contents() == Effect(old(Contents()), plan.writes))
              && (plan.Rollback? <==> reply.Failed?)
    {
      ghost var before := Contents();
      var row := orders[order];
      var slot, value := row.HoldingSlot(), price * row.quantity;
      var held := if slot in holdings then holdings[slot] else 0;
      if held >= row.quantity {
        holdings := holdings[slot := held - row.quantity];
        if row.user in cash {
          var balance := Credited(cash[row.user], value);
          if balance < 0 {
            return Failed(CheckViolation);
          }
          cash := cash[row.user := balance];
        }
        MarkExecuted(order, price);
        reply := Filled(row.user, row.Asset(), row.side, row.quantity, price);
        if row.user in cash {
          UnionOne(before.cash, row.user, cash[row.user]);
          EffectOfFill(before, a.event, order, MarkedExecuted(row, price), slot, held - row.quantity, map[row.user := cash[row.user]]);
        } else {
          UnionNone(before.cash);
          EffectOfFill(before, a.event, order, MarkedExecuted(row, price), slot, held - row.quantity, map[]);
        }
      } else {
        MarkRejected(order, ShortOfAsset(row.quantity, row.Asset(), held));
        reply := Refused(InsufficientAsset, ShortOfAsset(row.quantity, row.Asset(), held));
        EffectOfOrder(before, a.event, order, MarkedRejected(row, ShortOfAsset(row.quantity, row.Asset(), held)));
      }
    }

    /** Settle a quoted order in one transaction; an error rolls every statement back. */
    method ApplyPriceQuoted(order: OrderId, event: EventId, price: int) returns (reply: Reply)
      modifies this
      ensures Contents() == Apply(old(Contents()), Quoted(order, event, price))
      ensures reply == PlanOf(old(Contents()), Quoted(order, event, price)).reply
    {
      ghost var before, a := Contents(), Quoted(order, event, price);
      var cash0, holdings0, orders0, processed0 := cash, holdings, orders, processed;
      var isNew := MarkProcessed(event);
      if !isNew {
        processed := processed0;
        return Skipped;
      }
      if order !in orders || !orders[order].status.Created? {
        EffectOfMark(before, event);
        return Skipped;
      }
      ghost var marked := Contents();
      var side := orders[order].side;
      if side.Buy? {
        reply := SettleBuy(order, price, a);
      } else {
        reply := SettleSell(order, price, a);
      }
      MarkThenSettle(before, marked, a);
      if reply.Failed? {
        cash, holdings, orders, processed := cash0, holdings0, orders0, processed0;
      }
    }

    /** Reject a still-open order. */
    method ApplyOrderRejected(order: OrderId, event: EventId, detail: Detail)
      modifies this
      ensures Contents() == Apply(old(Contents()), Rejection(order, event, detail))
    {
      var processed0 := processed;
      var isNew := MarkProcessed(event);
      if !isNew {
        processed := processed0;
        return;
      }
      if order in orders && orders[order].status.Created? {
        EffectOfOrder(old(Contents()), event, order, MarkedRejected(orders[order], detail));
        MarkRejected(order, detail);
      } else {
        EffectOfMark(old(Contents()), event);
      }
    }

    method PortfolioExists(user: UserId) returns (found: bool)
      ensures found <==> user in cash
    {
      found := user in cash;
    }

    /** Insert a CREATED order under a given fresh id. */
    method CreateOrder(id: OrderId, request: NewOrder) returns (reply: Reply)
      modifies this`orders
      ensures Contents() == Apply(old(Contents()), Place(id, request))
      ensures reply == PlanOf(old(Contents()), Place(id, request)).reply
      ensures reply.Inserted? <==> id !in old(orders) && request.user in users && 2 * request.quantity >= FINE_PER_UNIT
      ensures reply.Inserted? ==>
                && reply.row.user == request.user && reply.row.symbol == request.symbol && reply.row.side == request.side
                && 2 * Abs(reply.row.quantity * FINE_PER_UNIT - request.quantity) <= FINE_PER_UNIT
                && reply.row.status == Created && reply.row.price == None && reply.row.reason == None
      ensures orders == if reply.Inserted? then old(orders)[id := reply.row] else old(orders)
      ensures !reply.Inserted? ==> reply.Failed?
    {
      PlaceMeaning(Contents(), id, request);
      var quantity := request.Stored();
      if quantity <= 0 {
        return Failed(CheckViolation);
      }
      if id in orders {
        return Failed(DuplicateKey);
      }
      if request.user !in users {
        return Failed(ForeignKey);
      }
      var row := OrderRow(request.user, request.symbol, request.side, quantity, Created, None, None);
      orders := orders[id := row];
      reply := Inserted(row);
      UnionNone(cash);
      UnionNone(holdings);
      UnionOne(old(orders), id, row);
    }

    method InsertDemoUser()
      modifies this`users
      ensures users == old(users) + {DEMO_USER_ID}
      ensures Contents() == Apply(old(Contents()), SeedUser)
    {
      SeedUserEffect(Contents());
      users := users + {DEMO_USER_ID};
    }

    method InsertDemoCash() returns (reply: Reply)
      modifies this`cash
      ensures Contents() == Apply(old(Contents()), SeedCash)
      ensures reply == if DEMO_USER_ID in users || DEMO_USER_ID in old(cash) then Acknowledged else Failed(ForeignKey)
    {
      SeedCashEffect(Contents());
      reply := Acknowledged;
      if DEMO_USER_ID !in cash {
        if DEMO_USER_ID !in users {
          return Failed(ForeignKey);
        }
        cash := cash[DEMO_USER_ID := DEMO_STARTING_CASH];
      }
    }

    method InsertDemoHolding() returns (reply: Reply)
      modifies this`holdings
      ensures Contents() == Apply(old(Contents()), SeedHolding)
      ensures reply == if DEMO_USER_ID in users || DEMO_SLOT in old(holdings) then Acknowledged else Failed(ForeignKey)
    {
      SeedHoldingEffect(Contents());
      reply := Acknowledged;
      if DEMO_SLOT !in holdings {
        if DEMO_USER_ID !in users {
          return Failed(ForeignKey);
        }
        holdings := holdings[DEMO_SLOT := DEMO_HOLDING_QTY];
      }
    }

    /** Three inserts, each giving way to an existing row: the demo user has 100 000 of cash and one BTC. */
    method SeedDemo() returns (reply: Reply)
      modifies this
      ensures Contents() == Run(old(Contents()), DEMO_SEED)
      ensures users == old(users) + {DEMO_USER_ID}
      ensures cash == if DEMO_USER_ID in old(cash) then old(cash) else old(cash)[DEMO_USER_ID := 100_000 * 10_000_000_000]
      ensures holdings == if (DEMO_USER_ID, "BTC") in old(holdings) then old(holdings)
                          else old(holdings)[(DEMO_USER_ID, "BTC") := 10_000_000_000]
      ensures orders == old(orders) && processed == old(processed)
      ensures reply == Acknowledged
    {
      ghost var before := Contents();
      InsertDemoUser();
      reply := InsertDemoCash();
      reply := InsertDemoHolding();
      SeedRun(before);
      SeedMeaning(before);
    }

    /** The cash and the holdings above zero; nothing without a portfolio row. */
    method GetPortfolio(user: UserId) returns (view: Option<PortfolioView>)
      ensures view.Some? <==> user in cash
      ensures view.Some? ==>
                && view.value.user == user && view.value.cash == cash[user]
                && (forall s: string :: s in view.value.holdings <==> Get(holdings, (user, s), 0) > 0)
                && (forall s <- view.value.holdings :: view.value.holdings[s] == Get(holdings, (user, s), 0))
    {
      if user !in cash {
        return None;
      }
      var held := map slot | slot in holdings && slot.0 == user && holdings[slot] > 0 :: slot.1 := holdings[slot];
      return Some(PortfolioView(user, cash[user], held));
    }
  }

  /** Settling after marking the event is the whole transaction. */
  lemma MarkThenSettle(before: Tables, marked: Tables, a: Action)
    requires a.Quoted? && a.event !in before.processed && IsCreated(before, a.order)
    requires marked == before.(processed := before.processed + {a.event})
    ensures var plan := if before.orders[a.order].side.Buy? then PlanBuy(marked, a) else PlanSell(marked, a);
            && plan == PlanOf(before, a)
            && (plan.Commit? ==> Effect(marked, plan.writes) == Apply(before, a))
            && (plan.Rollback? ==> Apply(before, a) == before)
  {
  }

  lemma SeedMeaning(t: Tables)
    ensures var t', slot := Run(t, DEMO_SEED), (DEMO_USER_ID, "BTC");
            && t'.users == t.users + {DEMO_USER_ID} && t'.orders == t.orders && t'.processed == t.processed
            && t'.cash == (if DEMO_USER_ID in t.cash then t.cash else t.cash[DEMO_USER_ID := 100_000 * 10_000_000_000])
            && t'.holdings == (if slot in t.holdings then t.holdings else t.holdings[slot := 10_000_000_000])
  {
    SeedRun(t);
    SeedUserEffect(t);
    SeedCashEffect(Apply(t, SeedUser));
    SeedHoldingEffect(Apply(Apply(t, SeedUser), SeedCash));
  }

  lemma SeedSeeds(t: Tables)
    ensures Seeded(Run(t, DEMO_SEED))
  {
    SeedRun(t);
    SeedUserEffect(t);
    SeedCashEffect(Apply(t, SeedUser));
    SeedHoldingEffect(Apply(Apply(t, SeedUser), SeedCash));
  }

  lemma SeededSeedIsIdle(t: Tables)
    requires Seeded(t)
    ensures Run(t, DEMO_SEED) == t
  {
    SeedRun(t);
    SeedUserEffect(t);
    assert t.users + {DEMO_USER_ID} == t.users;
    SeedCashEffect(t);
    SeedHoldingEffect(t);
  }

  /** Once `seed_demo` has completed, running it again changes nothing, whatever ran in between. */
  lemma SeedAgainIsIdle(t: Tables, between: seq<Action>)
    ensures var later := Run(Run(t, DEMO_SEED), between);
            Run(later, DEMO_SEED) == later
  {
    var seeded := Run(t, DEMO_SEED);
    SeedSeeds(t);
    RunOnward(seeded, [], between);
    assert [] + between == between;
    SeededSeedIsIdle(Run(seeded, between));
  }
}
