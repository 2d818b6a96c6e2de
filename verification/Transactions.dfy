/** The Portfolio database as a value, and what each of its transactions does when it runs alone.
 *
 *  A transaction is a plan, computed from the rows it reads: the rows it writes and what it returns.
 *  Committing the plan lays its writes over the tables; rolling back leaves them alone.
 */
module Transactions {
  import opened Money
  import opened Domain

  /** Cash and holdings are naturals: the columns carry CHECK (... >= 0). */
  datatype Tables = Tables(
    users: set<UserId>,
    cash: map<UserId, nat>,
    holdings: map<Slot, nat>,
    orders: map<OrderId, OrderRow>,
    processed: set<EventId>)

  datatype Writes = Writes(
    users: set<UserId>,
    cash: map<UserId, nat>,
    holdings: map<Slot, nat>,
    orders: map<OrderId, OrderRow>,
    processed: set<EventId>)

  const NO_WRITES := Writes({}, map[], map[], map[], {})

  datatype DbError = MissingPortfolio | CheckViolation | ForeignKey | DuplicateKey

  /** What a call returns. `Filled`, `Refused` and `Skipped` are the three `ExecOutcome`s. */
  datatype Reply =
    | Filled(user: UserId, asset: string, side: Side, quantity: Quantity, price: int)
    | Refused(reason: RejectionReason, detail: Detail)
    | Skipped
    | Acknowledged
    | Inserted(row: OrderRow)
    | Failed(error: DbError)

  /** The scale of a requested quantity: `Decimal` keeps up to 28 decimals, the column 10. */
  const FINE_PER_UNIT := 1_000_000_000_000_000_000

  /** The body of POST /orders; `quantity` is in units of 10^-28. */
  datatype NewOrder = NewOrder(user: UserId, symbol: string, side: Side, quantity: int) {
    predicate Validate()
    {
      symbol != "" && quantity > 0
    }

    /** The quantity once assigned to its column. */
    function Stored(): int
    {
      RoundHalfAway(quantity, FINE_PER_UNIT)
    }
  }

  datatype Action =
    | Quoted(order: OrderId, event: EventId, price: int)
    | Rejection(order: OrderId, event: EventId, detail: Detail)
    | Place(id: OrderId, request: NewOrder)
    | SeedUser
    | SeedCash
    | SeedHolding

  /** The two transactions that events ask for. */
  predicate IsRequest(a: Action)
  {
    a.Quoted? || a.Rejection?
  }

  const DEMO_USER_ID: UserId := 0x1111_1111_1111_1111_1111_1111_1111_1111
  const DEMO_STARTING_CASH: nat := 1_000_000_000_000_000
  const DEMO_SLOT: Slot := (DEMO_USER_ID, "BTC")
  const DEMO_HOLDING_QTY: nat := 10_000_000_000

  datatype Plan = Commit(writes: Writes, reply: Reply) | Rollback(reply: Reply)

  function Get<K, V>(m: map<K, V>, k: K, absent: V): V
  {
    if k in m then m[k] else absent
  }

  function MarkedExecuted(row: OrderRow, price: int): OrderRow
  {
    row.(status := OrderStatus.Executed, price := Some(price))
  }

  function MarkedRejected(row: OrderRow, detail: Detail): OrderRow
  {
    row.(status := OrderStatus.Rejected, reason := Some(detail))
  }

  function FilledReply(row: OrderRow, price: int): Reply
  {
    Filled(row.user, row.Asset(), row.side, row.quantity, price)
  }

  /** Marking the event and writing the order's row, and nothing else. */
  function OrderWrites(event: EventId, order: OrderId, row: OrderRow): Writes
  {
    NO_WRITES.(orders := map[order := row], processed := {event})
  }

  predicate Affordable(cash: int, price: int, quantity: int)
  {
    VALUE_UNITS_PER_CASH_UNIT * cash >= price * quantity
  }

  /** The BUY branch, once the order row is locked and still CREATED. */
  function PlanBuy(t: Tables, a: Action): Plan
    requires a.Quoted? && a.order in t.orders
  {
    var row := t.orders[a.order];
    if row.user !in t.cash then Rollback(Failed(MissingPortfolio))
    else
      var value, cash := a.price * row.quantity, t.cash[row.user];
      if Affordable(cash, a.price, row.quantity) then
        DebitIsHalfDown(cash, value);
        var w := OrderWrites(a.event, a.order, MarkedExecuted(row, a.price)).(
                   cash := map[row.user := Debited(cash, value)],
                   holdings := map[row.HoldingSlot() := Get(t.holdings, row.HoldingSlot(), 0) + row.quantity]);
        Commit(w, FilledReply(row, a.price))
      else
        var detail := ShortOfCash(value, cash);
        Commit(OrderWrites(a.event, a.order, MarkedRejected(row, detail)), Refused(InsufficientBalance, detail))
  }

  /** The SELL branch. The credit is an unchecked UPDATE: with no portfolio row it touches nothing. */
  function PlanSell(t: Tables, a: Action): Plan
    requires a.Quoted? && a.order in t.orders
  {
    var row := t.orders[a.order];
    var value, held := a.price * row.quantity, Get(t.holdings, row.HoldingSlot(), 0);
    if held >= row.quantity then
      var w := OrderWrites(a.event, a.order, MarkedExecuted(row, a.price)).(
                 holdings := map[row.HoldingSlot() := held - row.quantity]);
      if row.user !in t.cash then Commit(w, FilledReply(row, a.price))
      else
        var cash := Credited(t.cash[row.user], value);
        if cash < 0 then Rollback(Failed(CheckViolation))
        else Commit(w.(cash := map[row.user := cash]), FilledReply(row, a.price))
    else
      var detail := ShortOfAsset(row.quantity, row.Asset(), held);
      Commit(OrderWrites(a.event, a.order, MarkedRejected(row, detail)), Refused(InsufficientAsset, detail))
  }

  predicate IsCreated(t: Tables, o: OrderId)
  {
    o in t.orders && t.orders[o].status.Created?
  }

  function PlanQuoted(t: Tables, a: Action): Plan
    requires a.Quoted?
  {
    if a.event in t.processed then Rollback(Skipped)
    else if !IsCreated(t, a.order) then Commit(NO_WRITES.(processed := {a.event}), Skipped)
    else if t.orders[a.order].side.Buy? then PlanBuy(t, a)
    else PlanSell(t, a)
  }

  function PlanRejection(t: Tables, a: Action): Plan
    requires a.Rejection?
  {
    if a.event in t.processed then Rollback(Acknowledged)
    else if !IsCreated(t, a.order) then Commit(NO_WRITES.(processed := {a.event}), Acknowledged)
    else Commit(OrderWrites(a.event, a.order, MarkedRejected(t.orders[a.order], a.detail)), Acknowledged)
  }

  function NewRow(request: NewOrder): OrderRow
    requires request.Stored() > 0
  {
    OrderRow(request.user, request.symbol, request.side, request.Stored(), Created, None, None)
  }

  function PlanPlace(t: Tables, a: Action): Plan
    requires a.Place?
  {
    if a.request.Stored() <= 0 then Rollback(Failed(CheckViolation))
    else if a.id in t.orders then Rollback(Failed(DuplicateKey))
    else if a.request.user !in t.users then Rollback(Failed(ForeignKey))
    else Commit(NO_WRITES.(orders := map[a.id := NewRow(a.request)]), Inserted(NewRow(a.request)))
  }

  /** Each statement of `seed_demo` is its own INSERT ... ON CONFLICT DO NOTHING. */
  function PlanSeed(t: Tables, a: Action): Plan
    requires a.SeedUser? || a.SeedCash? || a.SeedHolding?
  {
    match a
    case SeedUser => Commit(NO_WRITES.(users := {DEMO_USER_ID}), Acknowledged)
    case SeedCash =>
      if DEMO_USER_ID in t.cash then Commit(NO_WRITES, Acknowledged)
      else if DEMO_USER_ID !in t.users then Rollback(Failed(ForeignKey))
      else Commit(NO_WRITES.(cash := map[DEMO_USER_ID := DEMO_STARTING_CASH]), Acknowledged)
    case SeedHolding =>
      if DEMO_SLOT in t.holdings then Commit(NO_WRITES, Acknowledged)
      else if DEMO_USER_ID !in t.users then Rollback(Failed(ForeignKey))
      else Commit(NO_WRITES.(holdings := map[DEMO_SLOT := DEMO_HOLDING_QTY]), Acknowledged)
  }

  function PlanOf(t: Tables, a: Action): Plan
  {
    match a
    case Quoted(_, _, _) => PlanQuoted(t, a)
    case Rejection(_, _, _) => PlanRejection(t, a)
    case Place(_, _) => PlanPlace(t, a)
    case _ => PlanSeed(t, a)
  }

  function Effect(t: Tables, w: Writes): Tables
  {
    Tables(t.users + w.users, t.cash + w.cash, t.holdings + w.holdings, t.orders + w.orders, t.processed + w.processed)
  }

  lemma UnionOne<K, V>(m: map<K, V>, k: K, v: V)
    ensures m + map[k := v] == m[k := v]
  {
  }

  lemma UnionNone<K, V>(m: map<K, V>)
    ensures m + map[] == m
  {
  }

  /** Writes that only mark an event. */
  lemma EffectOfMark(t: Tables, e: EventId)
    ensures Effect(t, NO_WRITES.(processed := {e})) == t.(processed := t.processed + {e})
  {
    UnionNone(t.cash);
    UnionNone(t.holdings);
    UnionNone(t.orders);
  }

  /** Writes that mark an event and change one order. */
  lemma EffectOfOrder(t: Tables, e: EventId, o: OrderId, row: OrderRow)
    ensures Effect(t, OrderWrites(e, o, row)) == t.(orders := t.orders[o := row], processed := t.processed + {e})
  {
    UnionNone(t.cash);
    UnionNone(t.holdings);
    UnionOne(t.orders, o, row);
  }

  /** Writes that mark an event and change one order, one holding and some cash. */
  lemma EffectOfFill(t: Tables, e: EventId, o: OrderId, row: OrderRow, slot: Slot, held: nat, cash: map<UserId, nat>)
    ensures Effect(t, OrderWrites(e, o, row).(cash := cash, holdings := map[slot := held]))
         == t.(cash := t.cash + cash, holdings := t.holdings[slot := held],
               orders := t.orders[o := row], processed := t.processed + {e})
  {
    UnionOne(t.holdings, slot, held);
    UnionOne(t.orders, o, row);
  }

  lemma EffectOfNothing(t: Tables)
    ensures Effect(t, NO_WRITES) == t
  {
    UnionNone(t.cash);
    UnionNone(t.holdings);
    UnionNone(t.orders);
  }

  /** One transaction run alone. */
  function Apply(t: Tables, a: Action): Tables
  {
    match PlanOf(t, a)
    case Commit(w, _) => Effect(t, w)
    case Rollback(_) => t
  }

  lemma ValuePositive(price: int, quantity: int)
    requires price >= 1 && quantity >= 1
    ensures price * quantity >= 1
  {
  }

  /** The quote is new and finds its order CREATED, with a portfolio to settle against. */
  predicate Settles(t: Tables, a: Action)
  {
    && a.Quoted? && a.price >= 1 && a.event !in t.processed
    && IsCreated(t, a.order) && t.orders[a.order].user in t.cash
  }

  /** What it takes to execute: cash for a BUY, asset for a SELL. */
  predicate CanFill(t: Tables, a: Action)
    requires Settles(t, a)
  {
    var row := t.orders[a.order];
    if row.side.Buy? then Affordable(t.cash[row.user], a.price, row.quantity)
    else Get(t.holdings, row.HoldingSlot(), 0) >= row.quantity
  }

  /** An execution moves one balance, one holding and one order row, by these amounts. */
  function FilledTables(t: Tables, a: Action): (t': Tables)
    requires Settles(t, a) && CanFill(t, a)
    ensures t'.processed == t.processed + {a.event} && t'.orders == t.orders[a.order := MarkedExecuted(t.orders[a.order], a.price)]
    ensures t'.cash.Keys == t.cash.Keys
  {
    var row := t.orders[a.order];
    var value, slot := a.price * row.quantity, row.HoldingSlot();
    var cash, held := t.cash[row.user], Get(t.holdings, slot, 0);
    ValuePositive(a.price, row.quantity);
    DebitIsHalfDown(if row.side.Buy? then cash else value, value);
    var cash' := if row.side.Buy? then cash - HalfDown(value) else cash + HalfUp(value);
    var held' := if row.side.Buy? then held + row.quantity else held - row.quantity;
    t.(cash := t.cash[row.user := cash'],
       holdings := t.holdings[slot := held'],
       orders := t.orders[a.order := MarkedExecuted(row, a.price)],
       processed := t.processed + {a.event})
  }

  /** A covered quote executes its order. */
  lemma SettleFills(t: Tables, a: Action)
    requires Settles(t, a) && CanFill(t, a)
    ensures PlanOf(t, a).Commit? && PlanOf(t, a).reply == FilledReply(t.orders[a.order], a.price)
    ensures Apply(t, a) == FilledTables(t, a)
  {
    var row := t.orders[a.order];
    var value, slot, cash := a.price * row.quantity, row.HoldingSlot(), t.cash[row.user];
    ValuePositive(a.price, row.quantity);
    var w := PlanOf(t, a).writes;
    UnionOne(t.holdings, slot, w.holdings[slot]);
    UnionOne(t.orders, a.order, w.orders[a.order]);
    UnionOne(t.cash, row.user, w.cash[row.user]);
    if row.side.Buy? {
      DebitIsHalfDown(cash, value);
    } else {
      CreditIsHalfUp(cash, value);
    }
  }

  /** A quote that is not covered rejects its order for a true shortage and moves nothing. */
  lemma SettleRefuses(t: Tables, a: Action)
    requires Settles(t, a) && !CanFill(t, a)
    ensures PlanOf(t, a).Commit? && PlanOf(t, a).reply.Refused?
    ensures TrueShortage(t.orders[a.order], PlanOf(t, a).reply.reason, PlanOf(t, a).reply.detail)
    ensures var detail := PlanOf(t, a).reply.detail;
            && Apply(t, a) == t.(orders := t.orders[a.order := MarkedRejected(t.orders[a.order], detail)],
                                 processed := t.processed + {a.event})
            && (detail.ShortOfCash? ==> detail.have == t.cash[t.orders[a.order].user])
            && (detail.ShortOfAsset? ==> detail.held == Get(t.holdings, t.orders[a.order].HoldingSlot(), 0))
  {
    EffectOfOrder(t, a.event, a.order, MarkedRejected(t.orders[a.order], PlanOf(t, a).reply.detail));
  }

  /** A new quote for a CREATED BUY: it executes exactly when a hundred times the cash covers price times
   *  quantity. Then the cash falls by the value in cash units, rounded to the nearest with ties down, the
   *  holding of the order's symbol rises by its quantity, and the row gets the status and the price; else
   *  only the row changes, which is refused for its value and the cash there was. */
  lemma BuyMeaning(t: Tables, a: Action) returns (spent: int)
    requires a.Quoted? && a.price >= 1 && a.event !in t.processed && a.order in t.orders
    requires t.orders[a.order].status == Created && t.orders[a.order].side == Buy && t.orders[a.order].user in t.cash
    ensures var row := t.orders[a.order];
            var value, slot := a.price * row.quantity, (row.user, Normalize(row.symbol));
            if value <= 100 * t.cash[row.user] then
              && -50 <= 100 * spent - value < 50 && 0 <= t.cash[row.user] - spent
              && PlanOf(t, a).reply == Filled(row.user, Normalize(row.symbol), Buy, row.quantity, a.price)
              && Apply(t, a) == t.(
                   cash := t.cash[row.user := t.cash[row.user] - spent],
                   holdings := t.holdings[slot := (if slot in t.holdings then t.holdings[slot] else 0) + row.quantity],
                   orders := t.orders[a.order := row.(status := OrderStatus.Executed, price := Some(a.price))],
                   processed := t.processed + {a.event})
            else
              && PlanOf(t, a).reply == Refused(InsufficientBalance, ShortOfCash(value, t.cash[row.user]))
              && Apply(t, a) == t.(
                   orders := t.orders[a.order := row.(status := OrderStatus.Rejected, reason := Some(ShortOfCash(value, t.cash[row.user])))],
                   processed := t.processed + {a.event})
  {
    var row := t.orders[a.order];
    var value := a.price * row.quantity;
    spent := HalfDown(value);
    if CanFill(t, a) {
      SettleFills(t, a);
      DebitIsHalfDown(t.cash[row.user], value);
    } else {
      SettleRefuses(t, a);
    }
  }

  /** A new quote for a CREATED SELL: it executes exactly when the holding of the order's symbol covers the
   *  quantity. Then the holding falls by it, the cash rises by the value rounded to the nearest with ties
   *  up, and the row gets the status and the price; else only the row changes. */
  lemma SellMeaning(t: Tables, a: Action) returns (gained: int)
    requires a.Quoted? && a.price >= 1 && a.event !in t.processed && a.order in t.orders
    requires t.orders[a.order].status == Created && t.orders[a.order].side == Sell && t.orders[a.order].user in t.cash
    ensures var row := t.orders[a.order];
            var value, slot := a.price * row.quantity, (row.user, Normalize(row.symbol));
            var held := if slot in t.holdings then t.holdings[slot] else 0;
            if row.quantity <= held then
              && -50 < 100 * gained - value <= 50 && 0 <= gained
              && PlanOf(t, a).reply == Filled(row.user, Normalize(row.symbol), Sell, row.quantity, a.price)
              && Apply(t, a) == t.(
                   cash := t.cash[row.user := t.cash[row.user] + gained],
                   holdings := t.holdings[slot := held - row.quantity],
                   orders := t.orders[a.order := row.(status := OrderStatus.Executed, price := Some(a.price))],
                   processed := t.processed + {a.event})
            else
              var detail := ShortOfAsset(row.quantity, Normalize(row.symbol), held);
              && PlanOf(t, a).reply == Refused(InsufficientAsset, detail)
              && Apply(t, a) == t.(
                   orders := t.orders[a.order := row.(status := OrderStatus.Rejected, reason := Some(detail))],
                   processed := t.processed + {a.event})
  {
    var row := t.orders[a.order];
    gained := HalfUp(a.price * row.quantity);
    ValuePositive(a.price, row.quantity);
    if CanFill(t, a) {
      SettleFills(t, a);
    } else {
      SettleRefuses(t, a);
    }
  }

  /** The reason fits the side, and the detail names a need greater than what there is. */
  predicate TrueShortage(row: OrderRow, reason: RejectionReason, detail: Detail)
  {
    if row.side.Buy? then
      reason.InsufficientBalance? && detail.ShortOfCash? && detail.need > VALUE_UNITS_PER_CASH_UNIT * detail.have
    else
      && reason.InsufficientAsset? && detail.ShortOfAsset? && detail.required == row.quantity
      && detail.asset == row.Asset() && detail.required > detail.held
  }

  /** A quote or rejection that is a duplicate, or whose order is missing or no longer CREATED,
   *  touches the event ledger at most. */
  lemma SettledIsIdle(t: Tables, a: Action)
    requires a.Quoted? || a.Rejection?
    requires a.event in t.processed || !IsCreated(t, a.order)
    ensures PlanOf(t, a).reply == if a.Quoted? then Skipped else Acknowledged
    ensures Apply(t, a) == t.(processed := t.processed + {a.event})
  {
    EffectOfMark(t, a.event);
    if a.event in t.processed {
      assert t.processed + {a.event} == t.processed;
    }
  }

  /** A first rejection of a CREATED order. */
  lemma RejectionRejects(t: Tables, a: Action)
    requires a.Rejection? && a.event !in t.processed && IsCreated(t, a.order)
    ensures PlanOf(t, a).reply == Acknowledged
    ensures Apply(t, a) == t.(orders := t.orders[a.order := t.orders[a.order].(status := OrderStatus.Rejected, reason := Some(a.detail))],
                              processed := t.processed + {a.event})
  {
    EffectOfOrder(t, a.event, a.order, MarkedRejected(t.orders[a.order], a.detail));
  }

  lemma PlaceEffect(t: Tables, a: Action)
    requires a.Place?
    ensures Apply(t, a) == if PlanOf(t, a).Commit? then t.(orders := t.orders[a.id := NewRow(a.request)]) else t
  {
    if PlanOf(t, a).Commit? {
      UnionNone(t.cash);
      UnionNone(t.holdings);
      UnionOne(t.orders, a.id, NewRow(a.request));
    }
  }

  lemma SeedUserEffect(t: Tables)
    ensures Apply(t, SeedUser) == t.(users := t.users + {DEMO_USER_ID})
  {
    UnionNone(t.cash);
    UnionNone(t.holdings);
    UnionNone(t.orders);
  }

  lemma SeedCashEffect(t: Tables)
    ensures Apply(t, SeedCash) == if DEMO_USER_ID in t.users && DEMO_USER_ID !in t.cash
                                  then t.(cash := t.cash[DEMO_USER_ID := DEMO_STARTING_CASH]) else t
  {
    EffectOfNothing(t);
    UnionOne(t.cash, DEMO_USER_ID, DEMO_STARTING_CASH);
    UnionNone(t.holdings);
    UnionNone(t.orders);
  }

  lemma SeedHoldingEffect(t: Tables)
    ensures Apply(t, SeedHolding) == if DEMO_USER_ID in t.users && DEMO_SLOT !in t.holdings
                                     then t.(holdings := t.holdings[DEMO_SLOT := DEMO_HOLDING_QTY]) else t
  {
    EffectOfNothing(t);
    UnionNone(t.cash);
    UnionOne(t.holdings, DEMO_SLOT, DEMO_HOLDING_QTY);
    UnionNone(t.orders);
  }

  /** Transactions run one at a time. */
  function Run(t: Tables, actions: seq<Action>): Tables
  {
    if actions == [] then t else Apply(Run(t, actions[..|actions| - 1]), actions[|actions| - 1])
  }

  lemma RunSnoc(t: Tables, actions: seq<Action>, a: Action)
    ensures Run(t, actions + [a]) == Apply(Run(t, actions), a)
  {
    assert (actions + [a])[..|actions|] == actions;
  }

  /** Only POST /orders adds an order, and only requests mark events. */
  lemma OrdersAndEventsKept(t: Tables, a: Action)
    ensures !a.Place? ==> Apply(t, a).orders.Keys == t.orders.Keys
    ensures a.Place? ==> Apply(t, a).orders.Keys <= t.orders.Keys + {a.id}
    ensures !IsRequest(a) ==> Apply(t, a).processed == t.processed
  {
    match a
    case Place(_, _) => PlaceEffect(t, a);
    case SeedUser => SeedUserEffect(t);
    case SeedCash => SeedCashEffect(t);
    case SeedHolding => SeedHoldingEffect(t);
    case _ => RequestKeepsOrders(t, a);
  }

  lemma RequestKeepsOrders(t: Tables, a: Action)
    requires IsRequest(a)
    ensures Apply(t, a).orders.Keys == t.orders.Keys
  {
    if PlanOf(t, a).Commit? {
      assert PlanOf(t, a).writes.orders.Keys <= t.orders.Keys;
    }
  }

  const DEMO_SEED: seq<Action> := [SeedUser, SeedCash, SeedHolding]

  lemma SeedRun(t: Tables)
    ensures Run(t, DEMO_SEED) == Apply(Apply(Apply(t, SeedUser), SeedCash), SeedHolding)
  {
    RunSnoc(t, [SeedUser, SeedCash], SeedHolding);
    RunSnoc(t, [SeedUser], SeedCash);
    RunSnoc(t, [], SeedUser);
    assert [SeedUser, SeedCash] + [SeedHolding] == DEMO_SEED;
    assert [SeedUser] + [SeedCash] == [SeedUser, SeedCash];
    assert [] + [SeedUser] == [SeedUser];
  }

  /** The rows `seed_demo` makes sure of. */
  predicate Seeded(t: Tables)
  {
    DEMO_USER_ID in t.users && DEMO_USER_ID in t.cash && DEMO_SLOT in t.holdings
  }

  // ------------------------------------------------------------ well-formedness

  /** A price exactly when EXECUTED, a reason exactly when REJECTED, and never PRICED. */
  predicate RowConsistent(row: OrderRow)
  {
    && (row.price.Some? <==> row.status.Executed?)
    && (row.reason.Some? <==> row.status.Rejected?)
    && !row.status.Priced?
    && (row.price.Some? ==> row.price.value >= 1)
  }

  /** The foreign keys, normalised holding symbols, consistent rows, and a portfolio for every
   *  order's user. */
  predicate WellFormed(t: Tables)
  {
    && t.cash.Keys <= t.users
    && (forall slot <- t.holdings :: slot.0 in t.users && IsNormal(slot.1))
    && (forall o <- t.orders :: RowConsistent(t.orders[o]) && t.orders[o].user in t.cash)
  }

  /** Quotes carry a positive price, and POST /orders checks the portfolio before inserting. */
  predicate Admissible(t: Tables, a: Action)
  {
    && (a.Quoted? ==> a.price >= 1)
    && (a.Place? ==> a.request.Validate() && a.request.user in t.cash)
  }

  predicate AdmissibleRun(t: Tables, actions: seq<Action>)
  {
    actions != [] ==>
      && AdmissibleRun(t, actions[..|actions| - 1])
      && Admissible(Run(t, actions[..|actions| - 1]), actions[|actions| - 1])
  }

  /** Every transaction keeps the tables well formed, and none of the two saga transactions can hit a
   *  missing portfolio or a CHECK. */
  lemma ApplyKeepsWellFormed(t: Tables, a: Action)
    requires WellFormed(t) && Admissible(t, a)
    ensures WellFormed(Apply(t, a))
    ensures a.Quoted? || a.Rejection? ==> !PlanOf(t, a).reply.Failed?
  {
    match a
    case Quoted(o, e, _) =>
      if !IsCreated(t, o) || e in t.processed {
        SettledIsIdle(t, a);
      } else if CanFill(t, a) {
        FillKeepsWellFormed(t, a);
      } else {
        SettleRefuses(t, a);
      }
    case Rejection(o, e, _) =>
      if !IsCreated(t, o) || e in t.processed {
        SettledIsIdle(t, a);
      } else {
        RejectionRejects(t, a);
      }
    case Place(_, _) => PlaceEffect(t, a);
    case _ => SeedKeepsWellFormed(t, a);
  }

  lemma FillKeepsWellFormed(t: Tables, a: Action)
    requires WellFormed(t) && Settles(t, a) && CanFill(t, a)
    ensures WellFormed(Apply(t, a)) && PlanOf(t, a).reply.Filled?
  {
    SettleFills(t, a);
    NormalizeIsNormal(t.orders[a.order].symbol);
  }

  lemma SeedKeepsWellFormed(t: Tables, a: Action)
    requires WellFormed(t) && (a.SeedUser? || a.SeedCash? || a.SeedHolding?)
    ensures WellFormed(Apply(t, a))
  {
    NormalIsFixed(DEMO_SLOT.1);
    SeedUserEffect(t);
    SeedCashEffect(t);
    SeedHoldingEffect(t);
  }

  lemma {:induction false} RunKeepsWellFormed(t: Tables, actions: seq<Action>)
    requires WellFormed(t) && AdmissibleRun(t, actions)
    ensures WellFormed(Run(t, actions))
  {
    if actions != [] {
      RunKeepsWellFormed(t, actions[..|actions| - 1]);
      ApplyKeepsWellFormed(Run(t, actions[..|actions| - 1]), actions[|actions| - 1]);
    }
  }

  /** What never goes back: events stay processed, portfolios stay, orders stay with the same
   *  request, and a terminal row never changes again. */
  predicate Onward(t: Tables, t': Tables)
  {
    && t.users <= t'.users
    && t.cash.Keys <= t'.cash.Keys
    && t.holdings.Keys <= t'.holdings.Keys
    && t.processed <= t'.processed
    && (forall o <- t.orders ::
          && o in t'.orders
          && SameRequest(t.orders[o], t'.orders[o])
          && (!t.orders[o].status.Created? ==> t'.orders[o] == t.orders[o]))
  }

  predicate SameRequest(row: OrderRow, row': OrderRow)
  {
    row'.user == row.user && row'.symbol == row.symbol && row'.side == row.side && row'.quantity == row.quantity
  }

  lemma ApplyOnward(t: Tables, a: Action)
    ensures Onward(t, Apply(t, a))
  {
  }

  lemma {:induction false} RunOnward(t: Tables, actions: seq<Action>, more: seq<Action>)
    ensures Onward(Run(t, actions), Run(t, actions + more))
  {
    if more == [] {
      assert actions + more == actions;
    } else {
      var init, last := more[..|more| - 1], more[|more| - 1];
      RunOnward(t, actions, init);
      assert actions + more == (actions + init) + [last];
      RunSnoc(t, actions + init, last);
      ApplyOnward(Run(t, actions + init), last);
    }
  }

  // ------------------------------------------------------------ requests

  /** POST /orders stores a quantity within half a column unit of the requested one, and a validated
   *  request is refused by the column exactly when it asks for less than half a unit. */
  lemma StoredQuantity(request: NewOrder)
    requires request.Validate()
    ensures 2 * Abs(request.Stored() * FINE_PER_UNIT - request.quantity) <= FINE_PER_UNIT
    ensures request.Stored() > 0 <==> 2 * request.quantity >= FINE_PER_UNIT
  {
    RoundHalfAwayIsNearest(request.quantity, FINE_PER_UNIT);
  }

  /** An order is stored exactly when its id is new, its user exists and it asks for at least half a column
   *  unit of 10^-10; and it is stored as requested, with the quantity rounded to the column with ties up,
   *  CREATED, without a price or a reason. Otherwise nothing changes. */
  lemma PlaceMeaning(t: Tables, id: OrderId, request: NewOrder)
    ensures var a := Place(id, request);
            (PlanOf(t, a).Commit? <==> id !in t.orders && request.user in t.users && 2 * request.quantity >= 1_000_000_000_000_000_000)
            && (PlanOf(t, a).Commit? <==> PlanOf(t, a).reply.Inserted?)
    ensures var a, t' := Place(id, request), Apply(t, Place(id, request));
            if PlanOf(t, a).Commit? then
              && t' == t.(orders := t'.orders) && id in t'.orders && t'.orders == t.orders[id := t'.orders[id]]
              && PlanOf(t, a).reply == Inserted(t'.orders[id])
              && (var row := t'.orders[id];
                  && row.user == request.user && row.symbol == request.symbol && row.side == request.side
                  && -500_000_000_000_000_000 < row.quantity * 1_000_000_000_000_000_000 - request.quantity <= 500_000_000_000_000_000
                  && row.status == Created && row.price == None && row.reason == None)
            else t' == t && PlanOf(t, a).reply.Failed?
  {
    PlaceEffect(t, Place(id, request));
    RoundHalfAwayIsNearest(request.quantity, FINE_PER_UNIT);
  }

  /** Validation looks at the raw text, so it lets an empty symbol through exactly when the text is
   *  nothing but blanks. */
  lemma ValidatedSymbol(request: NewOrder)
    requires request.Validate() && request.Stored() > 0
    ensures NewRow(request).Asset() == "" <==> forall i :: 0 <= i < |request.symbol| ==> IsSpace(request.symbol[i])
    ensures IsNormal(NewRow(request).Asset())
  {
    NormalizeEmpty(request.symbol);
    NormalizeFixedPoint(request.symbol);
  }

  /** A single blank passes as a symbol, and the order is for the empty one. */
  lemma BlankSymbolPasses(user: UserId)
    ensures var request := NewOrder(user, " ", Buy, FINE_PER_UNIT);
            request.Validate() && request.Stored() == 1 && NewRow(request).Asset() == ""
  {
    var request := NewOrder(user, " ", Buy, FINE_PER_UNIT);
    NormalizeEmpty(request.symbol);
  }

  /** The smallest positive quantity passes validation, and the column refuses it whatever the tables. */
  lemma TinyQuantityRefused(t: Tables, id: OrderId, user: UserId)
    ensures var request := NewOrder(user, "BTC", Buy, 1);
            && request.Validate() && request.Stored() == 0
            && PlanOf(t, Place(id, request)) == Rollback(Failed(CheckViolation))
  {
    StoredQuantity(NewOrder(user, "BTC", Buy, 1));
  }
}
