/** Balances are a function of the opening balances and the orders table alone. The argument runs on
 *  the ledger the service refines: a total over tickets is a total over the rows of the orders
 *  table. */
module Balances {
  import opened Money
  import opened Domain
  import opened Transactions
  import opened Ledger

  /** What an orders table can be summed into. */
  datatype Meter =
    | CashOf(user: UserId)        // cash units moved
    | HoldingOf(slot: Slot)       // asset units moved
    | ExactCashOf(user: UserId)   // value units moved, unrounded
    | TradesOf(user: UserId)      // executed orders

  function Weight(k: Ticket, m: Meter): int
  {
    if !k.resolution.FilledAt? then 0
    else
      var value := k.resolution.price * k.quantity;
      match m
      case CashOf(u) => if k.user != u then 0 else if k.side.Buy? then -HalfDown(value) else HalfUp(value)
      case HoldingOf(s) => if (k.user, k.asset) != s then 0 else if k.side.Buy? then k.quantity else 0 - k.quantity
      case ExactCashOf(u) => if k.user != u then 0 else if k.side.Buy? then -value else value
      case TradesOf(u) => if k.user != u then 0 else 1
  }

  /** What an order's row weighs. Unless it is EXECUTED, nothing. A purchase takes its value in cash units,
   *  rounded to the nearest with ties down, from its user, and adds its quantity to the holding of its
   *  symbol; a sale brings its value, rounded with ties up, and takes its quantity. */
  lemma WeightMeaning(row: OrderRow, u: UserId, s: Slot)
    requires RowConsistent(row)
    ensures var k, mine, own := TicketOf(row), row.user == u, (row.user, Normalize(row.symbol)) == s;
            if row.status == OrderStatus.Executed then
              var value := row.price.value * row.quantity;
              && (!mine ==> Weight(k, CashOf(u)) == Weight(k, ExactCashOf(u)) == Weight(k, TradesOf(u)) == 0)
              && (!own ==> Weight(k, HoldingOf(s)) == 0)
              && (mine ==> Weight(k, TradesOf(u)) == 1)
              && (mine && row.side == Buy ==> -50 <= -100 * Weight(k, CashOf(u)) - value < 50 && Weight(k, ExactCashOf(u)) == -value)
              && (mine && row.side == Sell ==> -50 < 100 * Weight(k, CashOf(u)) - value <= 50 && Weight(k, ExactCashOf(u)) == value)
              && (own ==> Weight(k, HoldingOf(s)) == if row.side == Buy then row.quantity else -(row.quantity as int))
            else Weight(k, CashOf(u)) == Weight(k, ExactCashOf(u)) == Weight(k, TradesOf(u)) == Weight(k, HoldingOf(s)) == 0
  {
  }

  ghost function Pick(tickets: map<OrderId, Ticket>): OrderId
    requires tickets != map[]
    ensures Pick(tickets) in tickets
  {
    assert tickets.Keys != {};
    var o :| o in tickets;
    o
  }

  ghost function Total(tickets: map<OrderId, Ticket>, m: Meter): int
    decreases |tickets|
  {
    if tickets == map[] then 0
    else
      var o := Pick(tickets);
      Weight(tickets[o], m) + Total(Without(tickets, o), m)
  }

  function Without(tickets: map<OrderId, Ticket>, o: OrderId): (rest: map<OrderId, Ticket>)
    ensures rest.Keys == tickets.Keys - {o}
    ensures o in tickets ==> |rest| == |tickets| - 1
  {
    var rest := tickets - {o};
    assert rest.Keys == tickets.Keys - {o};
    assert |rest| == |rest.Keys| && |tickets| == |tickets.Keys|;
    rest
  }

  /** A total does not depend on the order in which tickets are taken. */
  lemma {:induction false} TotalWithout(tickets: map<OrderId, Ticket>, o: OrderId, m: Meter)
    requires o in tickets
    ensures Total(tickets, m) == Weight(tickets[o], m) + Total(Without(tickets, o), m)
    decreases |tickets|
  {
    var p := Pick(tickets);
    if p != o {
      TotalWithout(Without(tickets, p), o, m);
      TotalWithout(Without(tickets, o), p, m);
      assert Without(Without(tickets, p), o) == Without(Without(tickets, o), p);
    }
  }

  lemma TotalUpdated(tickets: map<OrderId, Ticket>, o: OrderId, k: Ticket, m: Meter)
    ensures Total(tickets[o := k], m)
         == Total(tickets, m) + Weight(k, m) - (if o in tickets then Weight(tickets[o], m) else 0)
  {
    TotalWithout(tickets[o := k], o, m);
    assert Without(tickets[o := k], o) == Without(tickets, o);
    if o in tickets {
      TotalWithout(tickets, o, m);
    } else {
      assert Without(tickets, o) == tickets;
    }
  }

  // ------------------------------------------------------------ the balance equation

  /** The balances rows were opened with; a missing row opens at zero. */
  datatype Opening = Opening(cash: map<UserId, int>, holdings: map<Slot, int>)

  ghost predicate CashBalanced(l: Ledger, op: Opening, u: UserId)
  {
    Get(l.cash, u, 0) == Get(op.cash, u, 0) + Total(l.tickets, CashOf(u))
  }

  ghost predicate HoldingBalanced(l: Ledger, op: Opening, s: Slot)
  {
    Get(l.assets, s, 0) == Get(op.holdings, s, 0) + Total(l.tickets, HoldingOf(s))
  }

  ghost predicate Balanced(l: Ledger, op: Opening)
  {
    && (forall u: UserId :: CashBalanced(l, op, u))
    && (forall s: Slot :: HoldingBalanced(l, op, s))
  }

  /** Only an entry that opens a row changes an opening balance. */
  function OpeningAfter(op: Opening, e: Entry): Opening
  {
    match e
    case OpenCash(u, amount) => op.(cash := op.cash[u := Get(op.cash, u, 0) + amount])
    case OpenAsset(s, amount) => op.(holdings := op.holdings[s := Get(op.holdings, s, 0) + amount])
    case _ => op
  }

  function OpeningRun(op: Opening, entries: seq<Entry>): Opening
  {
    if entries == [] then op
    else OpeningAfter(OpeningRun(op, entries[..|entries| - 1]), entries[|entries| - 1])
  }

  lemma PostKeepsBalanced(l: Ledger, op: Opening, e: Entry)
    requires Balanced(l, op) && CanPost(l, e)
    ensures Balanced(Post(l, e), OpeningAfter(op, e))
  {
    forall u: UserId
      ensures CashBalanced(Post(l, e), OpeningAfter(op, e), u)
    {
      PostKeepsCash(l, op, e, u);
    }
    forall s: Slot
      ensures HoldingBalanced(Post(l, e), OpeningAfter(op, e), s)
    {
      PostKeepsHolding(l, op, e, s);
    }
  }

  lemma PostKeepsCash(l: Ledger, op: Opening, e: Entry, u: UserId)
    requires CashBalanced(l, op, u) && CanPost(l, e)
    ensures CashBalanced(Post(l, e), OpeningAfter(op, e), u)
  {
    PostMoves(l, e, CashOf(u));
  }

  lemma PostKeepsHolding(l: Ledger, op: Opening, e: Entry, s: Slot)
    requires HoldingBalanced(l, op, s) && CanPost(l, e)
    ensures HoldingBalanced(Post(l, e), OpeningAfter(op, e), s)
  {
    PostMoves(l, e, HoldingOf(s));
  }

  /** A total moves by the weight of the ticket that was filled, and otherwise not at all. */
  lemma PostMoves(l: Ledger, e: Entry, m: Meter)
    requires CanPost(l, e)
    ensures Total(Post(l, e).tickets, m)
         == Total(l.tickets, m)
          + if e.Fill? then Weight(l.tickets[e.id].(resolution := FilledAt(e.price)), m) else 0
  {
    match e
    case OpenTicket(id, k) => TotalUpdated(l.tickets, id, k, m);
    case Fill(id, price) => TotalUpdated(l.tickets, id, l.tickets[id].(resolution := FilledAt(price)), m);
    case Decline(id) => TotalUpdated(l.tickets, id, l.tickets[id].(resolution := Declined), m);
    case _ =>
  }

  lemma {:induction false} PostAllKeepsBalanced(l: Ledger, op: Opening, entries: seq<Entry>)
    requires Balanced(l, op) && PostAll(l, entries).Some?
    ensures Balanced(PostAll(l, entries).value, OpeningRun(op, entries))
  {
    if entries != [] {
      var init := entries[..|entries| - 1];
      PostAllKeepsBalanced(l, op, init);
      PostKeepsBalanced(PostAll(l, init).value, OpeningRun(op, init), entries[|entries| - 1]);
    }
  }

  /** After any run of the service each holding is its opening plus bought minus sold quantities, and
   *  each cash balance its opening minus half-down-rounded purchases plus half-up-rounded sales. */
  lemma BalancesOverRun(t: Tables, op: Opening, actions: seq<Action>)
    requires WellFormed(t) && AdmissibleRun(t, actions) && Balanced(View(t), op)
    ensures Balanced(View(Run(t, actions)), OpeningRun(op, Entries(t, actions)))
  {
    RunRefines(t, actions);
    PostAllKeepsBalanced(View(t), op, Entries(t, actions));
  }

  // ------------------------------------------------------------ one opening for all runs

  function OpeningOf(t: Tables): Opening
  {
    Opening(map u | u in t.cash :: t.cash[u], map s | s in t.holdings :: t.holdings[s])
  }

  /** Before the first order the balances are the opening ones. */
  lemma OpensBalanced(t: Tables)
    requires t.orders == map[]
    ensures Balanced(View(t), OpeningOf(t))
  {
    assert View(t).tickets == map[];
  }

  lemma SeededEntry(t: Tables, a: Action)
    requires Seeded(t)
    ensures !EntryOf(t, a).OpenCash? && !EntryOf(t, a).OpenAsset?
  {
  }

  lemma SeededStays(t: Tables, actions: seq<Action>)
    requires Seeded(t)
    ensures Seeded(Run(t, actions))
  {
    RunOnward(t, [], actions);
    assert [] + actions == actions;
  }

  lemma EntriesSnoc(t: Tables, actions: seq<Action>)
    requires actions != []
    ensures var init, entries := actions[..|actions| - 1], Entries(t, actions);
            && entries != [] && entries[..|entries| - 1] == Entries(t, init)
            && entries[|entries| - 1] == EntryOf(Run(t, init), actions[|actions| - 1])
  {
  }

  /** Once the demo seed has completed, no run opens another balance. */
  lemma {:induction false} SeededOpening(t: Tables, op: Opening, actions: seq<Action>)
    requires Seeded(t)
    ensures OpeningRun(op, Entries(t, actions)) == op
  {
    if actions != [] {
      var init := actions[..|actions| - 1];
      SeededOpening(t, op, init);
      EntriesSnoc(t, actions);
      SeededStays(t, init);
      SeededEntry(Run(t, init), actions[|actions| - 1]);
    }
  }

  /** No balance tells the two apart; a missing row counts as zero. */
  ghost predicate SameBalances(t: Tables, t': Tables)
  {
    && (forall u: UserId :: Get(t.cash, u, 0) == Get(t'.cash, u, 0))
    && (forall s: Slot :: Get(t.holdings, s, 0) == Get(t'.holdings, s, 0))
  }

  /** Equal openings and equal orders tables give equal balances, in whatever order the trades
   *  executed and whatever events carried them. */
  lemma BalancesFromOrders(t: Tables, t': Tables, op: Opening)
    requires Balanced(View(t), op) && Balanced(View(t'), op) && t.orders == t'.orders
    ensures SameBalances(t, t')
  {
    var l, l' := View(t), View(t');
    assert l.tickets == l'.tickets;
    forall u: UserId
      ensures Get(t.cash, u, 0) == Get(t'.cash, u, 0)
    {
      assert CashBalanced(l, op, u) && CashBalanced(l', op, u);
    }
    forall s: Slot
      ensures Get(t.holdings, s, 0) == Get(t'.holdings, s, 0)
    {
      assert HoldingBalanced(l, op, s) && HoldingBalanced(l', op, s);
    }
  }

  /** Two runs from the same start that end with equal orders tables end with equal balances. */
  ghost predicate OrdersDetermineBalances(t: Tables)
  {
    forall a, b :: AdmissibleRun(t, a) && AdmissibleRun(t, b) && Run(t, a).orders == Run(t, b).orders ==>
      SameBalances(Run(t, a), Run(t, b))
  }

  /** Balances are a function of the start and the orders table alone exactly when the demo seed has
   *  completed before. */
  lemma DeterminedIffSeeded(t: Tables, op: Opening)
    requires WellFormed(t) && Balanced(View(t), op)
    ensures OrdersDetermineBalances(t) <==> Seeded(t)
  {
    if Seeded(t) {
      forall a, b | AdmissibleRun(t, a) && AdmissibleRun(t, b) && Run(t, a).orders == Run(t, b).orders
        ensures SameBalances(Run(t, a), Run(t, b))
      {
        BalancesOverRun(t, op, a);
        BalancesOverRun(t, op, b);
        SeededOpening(t, op, a);
        SeededOpening(t, op, b);
        BalancesFromOrders(Run(t, a), Run(t, b), op);
      }
    } else {
      SeedMoves(t);
    }
  }

  /** An incomplete seed, completed, changes a balance and no order. */
  lemma SeedMoves(t: Tables)
    requires WellFormed(t) && !Seeded(t)
    ensures AdmissibleRun(t, []) && AdmissibleRun(t, DEMO_SEED) && Run(t, DEMO_SEED).orders == Run(t, []).orders
    ensures !SameBalances(Run(t, DEMO_SEED), Run(t, []))
  {
    SeedRun(t);
    SeedUserEffect(t);
    SeedCashEffect(Apply(t, SeedUser));
    SeedHoldingEffect(Apply(Apply(t, SeedUser), SeedCash));
    SeedAdmissible(t);
    var seeded := Run(t, DEMO_SEED);
    if DEMO_USER_ID !in t.cash {
      assert Get(seeded.cash, DEMO_USER_ID, 0) != Get(t.cash, DEMO_USER_ID, 0);
    } else {
      assert Get(seeded.holdings, DEMO_SLOT, 0) != Get(t.holdings, DEMO_SLOT, 0);
    }
  }

  lemma SeedAdmissible(t: Tables)
    ensures AdmissibleRun(t, DEMO_SEED)
  {
    var one, two := [SeedUser], [SeedUser, SeedCash];
    assert one[..0] == [] && two[..1] == one && DEMO_SEED[..2] == two;
    assert AdmissibleRun(t, one);
    assert AdmissibleRun(t, two);
  }

  /** A purchase of the demo asset before or after its holding is seeded: the orders are equal, the
   *  holdings are not. */
  lemma SeedAfterBuying(t: Tables, buy: Action)
    requires Settles(t, buy) && CanFill(t, buy) && t.orders[buy.order].side.Buy?
    requires t.orders[buy.order].HoldingSlot() == DEMO_SLOT && DEMO_SLOT !in t.holdings && DEMO_USER_ID in t.users
    ensures var late, early := Apply(Apply(t, buy), SeedHolding), Apply(Apply(t, SeedHolding), buy);
            && late.orders == early.orders && DEMO_SLOT in late.holdings && DEMO_SLOT in early.holdings
            && early.holdings[DEMO_SLOT] == late.holdings[DEMO_SLOT] + DEMO_HOLDING_QTY
  {
    SettleFills(t, buy);
    SeedHoldingEffect(Apply(t, buy));
    SeedHoldingEffect(t);
    var t1 := Apply(t, SeedHolding);
    assert Settles(t1, buy) && CanFill(t1, buy);
    SettleFills(t1, buy);
  }

  // ------------------------------------------------------------ exactness

  /** Cash moved and exact value moved agree to within half a cash unit a trade. */
  predicate WithinHalfUnits(cash: int, exact: int, trades: int)
  {
    -50 * trades <= 100 * cash - exact <= 50 * trades
  }

  lemma DriftsAdd(c: int, x: int, n: int, c': int, x': int, n': int)
    requires WithinHalfUnits(c, x, n) && WithinHalfUnits(c', x', n')
    ensures WithinHalfUnits(c + c', x + x', n + n')
  {
  }

  /** The value of the trade is a whole number of cash units. */
  predicate WholeValue(price: int, quantity: int)
  {
    (price * quantity) % VALUE_UNITS_PER_CASH_UNIT == 0
  }

  lemma WeightDrift(k: Ticket, u: UserId)
    ensures WithinHalfUnits(Weight(k, CashOf(u)), Weight(k, ExactCashOf(u)), Weight(k, TradesOf(u)))
    ensures k.user == u && k.resolution.FilledAt? ==>
              (100 * Weight(k, CashOf(u)) == Weight(k, ExactCashOf(u)) <==> WholeValue(k.resolution.price, k.quantity))
    ensures k.user != u || !k.resolution.FilledAt? ==> Weight(k, CashOf(u)) == 0 == Weight(k, ExactCashOf(u))
  {
  }

  /** A quantity of at most eight decimals has a whole value at any price. */
  lemma CoarseIsWhole(price: int, quantity: int)
    requires quantity % 100 == 0
    ensures WholeValue(price, quantity)
  {
    var lots := quantity / 100;
    assert price * quantity == 100 * (price * lots);
  }

  /** One trade: the stored cash moves by exactly the value of the trade if and only if that value is a
   *  whole number of cash units. */
  lemma FillIsExact(t: Tables, a: Action)
    requires Settles(t, a) && CanFill(t, a)
    ensures var row, t' := t.orders[a.order], Apply(t, a);
            var value := a.price * row.quantity;
            && row.user in t'.cash
            && (100 * t'.cash[row.user] == 100 * t.cash[row.user] + (if row.side.Buy? then -value else value)
                <==> WholeValue(a.price, row.quantity))
  {
    SettleFills(t, a);
    FillMoves(t, a);
    HalvesExact(a.price * t.orders[a.order].quantity);
  }

  lemma HalvesExact(value: int)
    ensures 100 * HalfDown(value) == value <==> value % 100 == 0
    ensures 100 * HalfUp(value) == value <==> value % 100 == 0
  {
  }

  /** The smallest quantity bought at 1.50 costs one unit of cash instead of one and a half. */
  lemma InexactPurchase()
    ensures var row := OrderRow(0, "BTC", Buy, 1, Created, None, None);
            var t, a := Tables({0}, map[0 := 100], map[], map[0 := row], {}), Quoted(0, 0, 150);
            && Settles(t, a) && CanFill(t, a) && !WholeValue(a.price, row.quantity)
            && Apply(t, a).cash == map[0 := 99] && 100 * 99 != 100 * 100 - a.price * row.quantity
  {
    var row := OrderRow(0, "BTC", Buy, 1, Created, None, None);
    var t, a := Tables({0}, map[0 := 100], map[], map[0 := row], {}), Quoted(0, 0, 150);
    SettleFills(t, a);
  }

  /** Rounded and exact cash drift apart by at most half a unit a trade. */
  lemma {:induction false} TotalDrift(tickets: map<OrderId, Ticket>, u: UserId)
    ensures WithinHalfUnits(Total(tickets, CashOf(u)), Total(tickets, ExactCashOf(u)), Total(tickets, TradesOf(u)))
    decreases |tickets|
  {
    if tickets != map[] {
      var o := Pick(tickets);
      var k, rest := tickets[o], Without(tickets, o);
      WeightDrift(k, u);
      TotalDrift(rest, u);
      DriftsAdd(Weight(k, CashOf(u)), Weight(k, ExactCashOf(u)), Weight(k, TradesOf(u)),
                Total(rest, CashOf(u)), Total(rest, ExactCashOf(u)), Total(rest, TradesOf(u)));
    }
  }

  /** Every filled ticket of the user has a whole value. */
  predicate WholeTrades(tickets: map<OrderId, Ticket>, u: UserId)
  {
    forall o <- tickets ::
      tickets[o].user == u && tickets[o].resolution.FilledAt? ==> WholeValue(tickets[o].resolution.price, tickets[o].quantity)
  }

  /** The user's cash in value units, had nothing been rounded. */
  ghost function ExactCash(l: Ledger, op: Opening, u: UserId): int
  {
    100 * Get(op.cash, u, 0) + Total(l.tickets, ExactCashOf(u))
  }

  ghost predicate CashExact(l: Ledger, op: Opening, u: UserId)
  {
    100 * Get(l.cash, u, 0) == ExactCash(l, op, u)
  }

  /** How far a stored balance is from exact decimal arithmetic over the user's executed orders. */
  lemma CashDrift(t: Tables, op: Opening, u: UserId)
    requires Balanced(View(t), op) && u in t.cash
    ensures WithinHalfUnits(t.cash[u], ExactCash(View(t), op, u), Total(View(t).tickets, TradesOf(u)))
  {
    assert CashBalanced(View(t), op, u);
    var start, tickets := Get(op.cash, u, 0), View(t).tickets;
    TotalDrift(tickets, u);
    DriftsAdd(start, 100 * start, 0,
              Total(tickets, CashOf(u)), Total(tickets, ExactCashOf(u)), Total(tickets, TradesOf(u)));
  }

  /** After one more entry, exact cash stays exact just when the entry is no fill of the user's with a
   *  value that needs rounding. */
  lemma PostExact(l: Ledger, op: Opening, e: Entry, u: UserId)
    requires Balanced(l, op) && CanPost(l, e) && CashExact(l, op, u)
    ensures CashExact(Post(l, e), OpeningAfter(op, e), u) <==>
              (e.Fill? && l.tickets[e.id].user == u ==> WholeValue(e.price, l.tickets[e.id].quantity))
  {
    PostKeepsCash(l, op, e, u);
    PostMoves(l, e, CashOf(u));
    PostMoves(l, e, ExactCashOf(u));
    if e.Fill? {
      WeightDrift(l.tickets[e.id].(resolution := FilledAt(e.price)), u);
    }
  }

  lemma PostWhole(l: Ledger, e: Entry, u: UserId)
    requires CanPost(l, e)
    ensures WholeTrades(Post(l, e).tickets, u) <==>
              WholeTrades(l.tickets, u) && (e.Fill? && l.tickets[e.id].user == u ==> WholeValue(e.price, l.tickets[e.id].quantity))
  {
    var l' := Post(l, e);
    if WholeTrades(l'.tickets, u) {
      forall o | o in l.tickets && l.tickets[o].user == u && l.tickets[o].resolution.FilledAt?
        ensures WholeValue(l.tickets[o].resolution.price, l.tickets[o].quantity)
      {
        assert l'.tickets[o] == l.tickets[o];
      }
      if e.Fill? {
        assert l'.tickets[e.id].resolution == FilledAt(e.price);
      }
    }
  }

  ghost predicate ExactAfter(l: Ledger, op: Opening, entries: seq<Entry>, u: UserId)
  {
    PostAll(l, entries).Some? && CashExact(PostAll(l, entries).value, OpeningRun(op, entries), u)
  }

  /** The user's cash was exact at the start and after each of the entries. */
  ghost predicate ExactAlong(l: Ledger, op: Opening, entries: seq<Entry>, u: UserId)
  {
    ExactAfter(l, op, entries, u) && (entries != [] ==> ExactAlong(l, op, entries[..|entries| - 1], u))
  }

  lemma {:induction false} ExactAlongIff(l: Ledger, op: Opening, entries: seq<Entry>, u: UserId)
    requires Balanced(l, op) && CashExact(l, op, u) && WholeTrades(l.tickets, u) && PostAll(l, entries).Some?
    ensures ExactAlong(l, op, entries, u) <==> WholeTrades(PostAll(l, entries).value.tickets, u)
  {
    if entries != [] {
      var init, e := entries[..|entries| - 1], entries[|entries| - 1];
      ExactAlongIff(l, op, init, u);
      PostAllKeepsBalanced(l, op, init);
      PostWhole(PostAll(l, init).value, e, u);
      if WholeTrades(PostAll(l, init).value.tickets, u) {
        PostExact(PostAll(l, init).value, OpeningRun(op, init), e, u);
      }
    }
  }

  /** From the first order on, the user's stored cash equals exact decimal cash after every transaction
   *  if and only if every one of the user's executed trades has a whole value. */
  lemma ExactRun(t: Tables, actions: seq<Action>, u: UserId)
    requires WellFormed(t) && AdmissibleRun(t, actions) && t.orders == map[]
    ensures ExactAlong(View(t), OpeningOf(t), Entries(t, actions), u) <==> WholeTrades(View(Run(t, actions)).tickets, u)
  {
    OpensBalanced(t);
    RunRefines(t, actions);
    assert View(t).tickets == map[];
    ExactAlongIff(View(t), OpeningOf(t), Entries(t, actions), u);
  }

  // ------------------------------------------------------------ buying and selling back

  /** A BUY that executes, and a SELL of the same quantity of the same asset, by the same user and at the
   *  same price, waiting to be quoted. */
  predicate SellsBack(t: Tables, buy: Action, sell: Action)
  {
    && Settles(t, buy) && t.orders[buy.order].side.Buy? && CanFill(t, buy)
    && Settles(t, sell) && t.orders[sell.order].side.Sell? && sell.event != buy.event
    && t.orders[sell.order].HoldingSlot() == t.orders[buy.order].HoldingSlot()
    && t.orders[sell.order].quantity == t.orders[buy.order].quantity && sell.price == buy.price
  }

  lemma SaleReady(t: Tables, buy: Action, sell: Action)
    requires SellsBack(t, buy, sell)
    ensures var t1 := Apply(t, buy);
            && t1 == FilledTables(t, buy) && t1.orders[buy.order].status.Executed? && sell.order != buy.order
            && Settles(t1, sell) && CanFill(t1, sell) && t1.orders[sell.order] == t.orders[sell.order]
  {
    SettleFills(t, buy);
  }

  /** The second of two trades in one slot, in terms of the tables before the first. */
  lemma TwoFills(t: Tables, t1: Tables, first: Action, second: Action)
    requires Settles(t, first) && CanFill(t, first) && t1 == FilledTables(t, first)
    requires Settles(t1, second) && CanFill(t1, second) && second.order in t.orders
    requires t1.orders[second.order] == t.orders[second.order]
    requires t.orders[second.order].HoldingSlot() == t.orders[first.order].HoldingSlot()
    ensures var t2, slot := FilledTables(t1, second), t.orders[first.order].HoldingSlot();
            && slot.0 in t2.cash && t2.cash == t.cash[slot.0 := t2.cash[slot.0]]
            && slot in t2.holdings && t2.holdings == t.holdings[slot := t2.holdings[slot]]
            && t2.orders == t1.orders[second.order := MarkedExecuted(t1.orders[second.order], second.price)]
  {
    FillMoves(t, first);
    FillMoves(t1, second);
  }

  /** Buying and selling back executes both orders, restores the holding exactly, and returns the cash,
   *  plus one unit exactly when the value falls on a rounding tie; it touches no other balance. */
  lemma BuyThenSell(t: Tables, buy: Action, sell: Action)
    requires SellsBack(t, buy, sell)
    ensures var t', row := Apply(Apply(t, buy), sell), t.orders[buy.order];
            var tie := (buy.price * row.quantity) % VALUE_UNITS_PER_CASH_UNIT == 50;
            && buy.order in t'.orders && t'.orders[buy.order].status.Executed?
            && sell.order in t'.orders && t'.orders[sell.order].status.Executed?
            && t'.cash == t.cash[row.user := t.cash[row.user] + if tie then 1 else 0]
            && t'.holdings == t.holdings[row.HoldingSlot() := Get(t.holdings, row.HoldingSlot(), 0)]
  {
    var t1 := Apply(t, buy);
    SaleReady(t, buy, sell);
    SettleFills(t1, sell);
    TwoFills(t, t1, buy, sell);
    BackAgain(t, t1, buy, sell);
  }

  lemma BackAgain(t: Tables, t1: Tables, buy: Action, sell: Action)
    requires SellsBack(t, buy, sell) && t1 == FilledTables(t, buy)
    requires Settles(t1, sell) && CanFill(t1, sell) && t1.orders[sell.order] == t.orders[sell.order]
    ensures var t2, row := FilledTables(t1, sell), t.orders[buy.order];
            var tie := (buy.price * row.quantity) % VALUE_UNITS_PER_CASH_UNIT == 50;
            && row.user in t2.cash && t2.cash[row.user] == t.cash[row.user] + (if tie then 1 else 0)
            && row.HoldingSlot() in t2.holdings && t2.holdings[row.HoldingSlot()] == Get(t.holdings, row.HoldingSlot(), 0)
  {
    FillMoves(t, buy);
    FillMoves(t1, sell);
    var cash, value := t.cash[t.orders[buy.order].user], buy.price * t.orders[buy.order].quantity;
    ValuePositive(buy.price, t.orders[buy.order].quantity);
    RoundTrip(cash, value);
    DebitIsHalfDown(cash, value);
    CreditIsHalfUp(cash - HalfDown(value), value);
  }

  // ------------------------------------------------------------ one trade or many

  lemma {:induction false} RunCons(t: Tables, a: Action, actions: seq<Action>)
    ensures Run(t, [a] + actions) == Run(Apply(t, a), actions)
  {
    if actions == [] {
      assert [a] + actions == [a] && [a][..0] == [];
    } else {
      var init := actions[..|actions| - 1];
      RunCons(t, a, init);
      assert ([a] + actions)[..|actions|] == [a] + init;
    }
  }

  /** Each quote in turn executes its order. */
  predicate AllFill(t: Tables, quotes: seq<Action>)
    decreases |quotes|
  {
    quotes != [] ==> Settles(t, quotes[0]) && CanFill(t, quotes[0]) && AllFill(Apply(t, quotes[0]), quotes[1..])
  }

  /** The quotes are at one price, for orders on one side of one slot. */
  predicate OneMarket(t: Tables, quotes: seq<Action>, slot: Slot, side: Side, price: int)
  {
    forall i :: 0 <= i < |quotes| ==>
      && quotes[i].Quoted? && quotes[i].price == price && quotes[i].order in t.orders
      && t.orders[quotes[i].order].HoldingSlot() == slot && t.orders[quotes[i].order].side == side
  }

  function Quantities(t: Tables, quotes: seq<Action>): (s: seq<int>)
    requires forall i :: 0 <= i < |quotes| ==> quotes[i].Quoted? && quotes[i].order in t.orders
    ensures |s| == |quotes|
  {
    seq(|quotes|, i requires 0 <= i < |quotes| => t.orders[quotes[i].order].quantity)
  }

  /** What the trades move, over all. */
  function CashMoved(side: Side, values: seq<int>): int
  {
    if side.Buy? then -SumHalfDown(values) else SumHalfUp(values)
  }

  predicate Moved(t: Tables, t': Tables, slot: Slot, cash: int, asset: int)
  {
    && slot.0 in t.cash && slot.0 in t'.cash && t'.cash == t.cash[slot.0 := t'.cash[slot.0]]
    && t'.cash[slot.0] == t.cash[slot.0] + cash
    && slot in t'.holdings && t'.holdings == t.holdings[slot := t'.holdings[slot]]
    && t'.holdings[slot] == Get(t.holdings, slot, 0) + asset
  }

  lemma MovedTwice(t: Tables, t1: Tables, t2: Tables, slot: Slot, cash: int, asset: int, cash': int, asset': int)
    requires Moved(t, t1, slot, cash, asset) && Moved(t1, t2, slot, cash', asset')
    ensures Moved(t, t2, slot, cash + cash', asset + asset')
  {
  }

  /** The market of the quotes that are left is the same after the first. */
  lemma MarketStays(t: Tables, quotes: seq<Action>, slot: Slot, side: Side, price: int)
    requires quotes != [] && OneMarket(t, quotes, slot, side, price)
    ensures OneMarket(Apply(t, quotes[0]), quotes[1..], slot, side, price)
    ensures Quantities(t, quotes) == [t.orders[quotes[0].order].quantity] + Quantities(Apply(t, quotes[0]), quotes[1..])
  {
    ApplyOnward(t, quotes[0]);
  }

  lemma FillMoved(t: Tables, a: Action)
    requires Settles(t, a) && CanFill(t, a)
    ensures var row := t.orders[a.order];
            MovedBy(t, Apply(t, a), row.HoldingSlot(), row.side, a.price, row.quantity)
  {
    SettleFills(t, a);
    FillMoves(t, a);
  }

  function AssetMoved(side: Side, quantities: seq<int>): int
  {
    if side.Buy? then Sum(quantities) else 0 - Sum(quantities)
  }

  lemma {:induction false} QuotesMove(t: Tables, quotes: seq<Action>, slot: Slot, side: Side, price: int)
    requires quotes != [] && AllFill(t, quotes) && OneMarket(t, quotes, slot, side, price)
    ensures var quantities := Quantities(t, quotes);
            Moved(t, Run(t, quotes), slot, CashMoved(side, Values(price, quantities)), AssetMoved(side, quantities))
    decreases |quotes|
  {
    var t1, rest := Apply(t, quotes[0]), quotes[1..];
    FillMoved(t, quotes[0]);
    MarketStays(t, quotes, slot, side, price);
    RunCons(t, quotes[0], rest);
    assert quotes == [quotes[0]] + rest;
    var q, more := t.orders[quotes[0].order].quantity, Quantities(t1, rest);
    if rest == [] {
      assert Run(t1, []) == t1;
      MoveOnly(t, t1, slot, side, price, q, more);
    } else {
      QuotesMove(t1, rest, slot, side, price);
      MoveMore(t, t1, Run(t1, rest), slot, side, price, q, more);
    }
  }

  /** One trade's part of the sums. */
  predicate MovedBy(t: Tables, t': Tables, slot: Slot, side: Side, price: int, q: int)
  {
    Moved(t, t', slot, if side.Buy? then -HalfDown(price * q) else HalfUp(price * q), if side.Buy? then q else 0 - q)
  }

  lemma MoveOnly(t: Tables, t': Tables, slot: Slot, side: Side, price: int, q: int, none: seq<int>)
    requires MovedBy(t, t', slot, side, price, q) && none == []
    ensures Moved(t, t', slot, CashMoved(side, Values(price, [q] + none)), AssetMoved(side, [q] + none))
  {
    SumsCons(price, q, none);
  }

  lemma MoveMore(t: Tables, t1: Tables, t2: Tables, slot: Slot, side: Side, price: int, q: int, more: seq<int>)
    requires MovedBy(t, t1, slot, side, price, q)
    requires Moved(t1, t2, slot, CashMoved(side, Values(price, more)), AssetMoved(side, more))
    ensures Moved(t, t2, slot, CashMoved(side, Values(price, [q] + more)), AssetMoved(side, [q] + more))
  {
    SumsCons(price, q, more);
    MovedTwice(t, t1, t2, slot, if side.Buy? then -HalfDown(price * q) else HalfUp(price * q), if side.Buy? then q else 0 - q,
               CashMoved(side, Values(price, more)), AssetMoved(side, more));
  }

  lemma SumsCons(price: int, q: int, more: seq<int>)
    ensures Sum([q] + more) == q + Sum(more)
    ensures SumHalfDown(Values(price, [q] + more)) == HalfDown(price * q) + SumHalfDown(Values(price, more))
    ensures SumHalfUp(Values(price, [q] + more)) == HalfUp(price * q) + SumHalfUp(Values(price, more))
  {
    assert ([q] + more)[1..] == more;
    assert Values(price, [q] + more)[1..] == Values(price, more);
  }

  lemma SplitCash(price: int, quantities: seq<int>, side: Side)
    ensures WithinPieces(if side.Buy? then -HalfDown(price * Sum(quantities)) else HalfUp(price * Sum(quantities)),
                         CashMoved(side, Values(price, quantities)), |quantities|)
  {
    var values := Values(price, quantities);
    SumScales(price, quantities, values);
    SplitDrift(values);
    NegatedWithin(HalfDown(Sum(values)), SumHalfDown(values), |values|);
  }

  lemma MovedApart(t: Tables, one: Tables, many: Tables, slot: Slot, cash: int, cash': int, asset: int, k: nat)
    requires Moved(t, one, slot, cash, asset) && Moved(t, many, slot, cash', asset) && WithinPieces(cash, cash', k)
    ensures many.holdings == one.holdings && slot.0 in one.cash && slot.0 in many.cash
    ensures many.cash == one.cash[slot.0 := many.cash[slot.0]] && WithinPieces(one.cash[slot.0], many.cash[slot.0], k)
  {
  }

  /** An order executed at once, or as k orders of the same total quantity at the same price: the holding
   *  ends the same, the cash at most (k + 1) / 2 units apart, and no other balance differs. */
  lemma SplitOrders(t: Tables, whole: Action, pieces: seq<Action>)
    requires Settles(t, whole) && CanFill(t, whole) && pieces != [] && AllFill(t, pieces)
    requires OneMarket(t, pieces, t.orders[whole.order].HoldingSlot(), t.orders[whole.order].side, whole.price)
    requires Sum(Quantities(t, pieces)) == t.orders[whole.order].quantity
    ensures var one, many, user := Apply(t, whole), Run(t, pieces), t.orders[whole.order].user;
            && many.holdings == one.holdings && user in one.cash && user in many.cash
            && many.cash == one.cash[user := many.cash[user]]
            && WithinPieces(one.cash[user], many.cash[user], |pieces|)
  {
    var row, quantities := t.orders[whole.order], Quantities(t, pieces);
    FillMoved(t, whole);
    QuotesMove(t, pieces, row.HoldingSlot(), row.side, whole.price);
    SplitCash(whole.price, quantities, row.side);
    MovedApart(t, Apply(t, whole), Run(t, pieces), row.HoldingSlot(),
               if row.side.Buy? then -HalfDown(whole.price * row.quantity) else HalfUp(whole.price * row.quantity),
               CashMoved(row.side, Values(whole.price, quantities)), AssetMoved(row.side, quantities), |pieces|);
  }
}
