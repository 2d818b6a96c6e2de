/** A ledger far simpler than the service: tickets, cash and assets. It opens a ticket, resolves an
 *  open one once by filling or declining it, moves money and asset only when filling, and knows
 *  nothing of events, duplicates or tables. Every transaction of the service posts at most one entry
 *  of it. */
module Ledger {
  import opened Money
  import opened Domain
  import opened Transactions

  datatype Resolution = Open | FilledAt(price: int) | Declined

  datatype Ticket = Ticket(user: UserId, asset: string, side: Side, quantity: Quantity, resolution: Resolution)

  datatype Ledger = Ledger(cash: map<UserId, int>, assets: map<Slot, int>, tickets: map<OrderId, Ticket>)

  datatype Entry =
    | OpenTicket(id: OrderId, ticket: Ticket)
    | Fill(id: OrderId, price: int)
    | Decline(id: OrderId)
    | OpenCash(user: UserId, amount: int)
    | OpenAsset(slot: Slot, amount: int)
    | Nothing

  /** A ticket id is used once; a ticket is resolved only while open; a fill must be covered. */
  predicate CanPost(l: Ledger, e: Entry)
  {
    match e
    case OpenTicket(id, ticket) => id !in l.tickets && ticket.resolution.Open? && ticket.user in l.cash
    case Fill(id, price) =>
      && id in l.tickets && l.tickets[id].resolution.Open? && l.tickets[id].user in l.cash && price >= 1
      && Covered(l, l.tickets[id], price)
    case Decline(id) => id in l.tickets && l.tickets[id].resolution.Open?
    case OpenCash(user, _) => user !in l.cash
    case OpenAsset(slot, _) => slot !in l.assets
    case Nothing => true
  }

  predicate Covered(l: Ledger, k: Ticket, price: int)
    requires k.user in l.cash
  {
    match k.side
    case Buy => 100 * l.cash[k.user] >= price * k.quantity
    case Sell => Get(l.assets, (k.user, k.asset), 0) >= k.quantity
  }

  /** A buyer pays the value rounded half down and a seller receives it rounded half up. */
  function Post(l: Ledger, e: Entry): Ledger
    requires CanPost(l, e)
  {
    match e
    case OpenTicket(id, ticket) => l.(tickets := l.tickets[id := ticket])
    case Fill(id, price) =>
      var k := l.tickets[id];
      var slot, value := (k.user, k.asset), price * k.quantity;
      var paid := if k.side.Buy? then -HalfDown(value) else HalfUp(value);
      var moved := if k.side.Buy? then k.quantity else 0 - k.quantity;
      Ledger(l.cash[k.user := l.cash[k.user] + paid],
             l.assets[slot := Get(l.assets, slot, 0) + moved],
             l.tickets[id := k.(resolution := FilledAt(price))])
    case Decline(id) => l.(tickets := l.tickets[id := l.tickets[id].(resolution := Declined)])
    case OpenCash(user, amount) => l.(cash := l.cash[user := amount])
    case OpenAsset(slot, amount) => l.(assets := l.assets[slot := amount])
    case Nothing => l
  }

  function TicketOf(row: OrderRow): Ticket
  {
    Ticket(row.user, row.Asset(), row.side, row.quantity,
           if row.status.Executed? && row.price.Some? then FilledAt(row.price.value)
           else if row.status.Rejected? then Declined
           else Open)
  }

  /** The tables, forgetting the event ledger, the raw texts and the reasons. */
  function View(t: Tables): Ledger
  {
    Ledger(map u | u in t.cash :: t.cash[u], map s | s in t.holdings :: t.holdings[s], map o | o in t.orders :: TicketOf(t.orders[o]))
  }

  /** The entry a transaction posts, read off what it returned. */
  function EntryOf(t: Tables, a: Action): Entry
  {
    var reply := PlanOf(t, a).reply;
    match a
    case Quoted(o, _, p) => if reply.Filled? then Fill(o, p) else if reply.Refused? then Decline(o) else Nothing
    case Rejection(o, e, _) => if e !in t.processed && IsCreated(t, o) then Decline(o) else Nothing
    case Place(id, _) => if reply.Inserted? then OpenTicket(id, TicketOf(reply.row)) else Nothing
    case SeedUser => Nothing
    case SeedCash => if DEMO_USER_ID in t.users && DEMO_USER_ID !in t.cash then OpenCash(DEMO_USER_ID, DEMO_STARTING_CASH) else Nothing
    case SeedHolding => if DEMO_USER_ID in t.users && DEMO_SLOT !in t.holdings then OpenAsset(DEMO_SLOT, DEMO_HOLDING_QTY) else Nothing
  }

  /** Every transaction of the service is one allowed posting to the ledger. */
  lemma Refines(t: Tables, a: Action)
    requires WellFormed(t) && Admissible(t, a)
    ensures CanPost(View(t), EntryOf(t, a))
    ensures View(Apply(t, a)) == Post(View(t), EntryOf(t, a))
  {
    match a
    case Quoted(o, e, p) =>
      if e in t.processed || !IsCreated(t, o) {
        SettledIsIdle(t, a);
      } else if CanFill(t, a) {
        SettleFills(t, a);
        FillRefines(t, a);
      } else {
        SettleRefuses(t, a);
        DeclineRefines(t, Apply(t, a), o);
      }
    case Rejection(o, e, _) =>
      if e in t.processed || !IsCreated(t, o) {
        SettledIsIdle(t, a);
      } else {
        RejectionRejects(t, a);
        DeclineRefines(t, Apply(t, a), o);
      }
    case Place(id, request) => PlaceRefines(t, a);
    case _ => SeedRefines(t, a);
  }

  lemma DeclineRefines(t: Tables, t': Tables, o: OrderId)
    requires WellFormed(t) && IsCreated(t, o)
    requires t'.cash == t.cash && t'.holdings == t.holdings
    requires exists detail :: t'.orders == t.orders[o := MarkedRejected(t.orders[o], detail)]
    ensures CanPost(View(t), Decline(o)) && View(t') == Post(View(t), Decline(o))
  {
    assert View(t').tickets == View(t).tickets[o := TicketOf(t.orders[o]).(resolution := Declined)];
  }

  lemma FillCovered(t: Tables, a: Action)
    requires WellFormed(t) && Settles(t, a) && CanFill(t, a)
    ensures CanPost(View(t), Fill(a.order, a.price))
  {
    assert View(t).tickets[a.order] == TicketOf(t.orders[a.order]);
  }

  lemma FillRefines(t: Tables, a: Action)
    requires WellFormed(t) && Settles(t, a) && CanFill(t, a)
    ensures CanPost(View(t), Fill(a.order, a.price))
    ensures View(FilledTables(t, a)) == Post(View(t), Fill(a.order, a.price))
  {
    FillCovered(t, a);
    var row, t' := t.orders[a.order], FilledTables(t, a);
    FillMoves(t, a);
    ViewOfFill(t, t', a.order, a.price);
    FillPosts(View(t), View(t'), a.order, TicketOf(row), a.price);
  }

  /** What makes a ledger the one after a fill. */
  lemma FillPosts(l: Ledger, l': Ledger, id: OrderId, k: Ticket, price: int)
    requires CanPost(l, Fill(id, price)) && l.tickets[id] == k
    requires var slot, value := (k.user, k.asset), price * k.quantity;
             && l'.cash == l.cash[k.user := l.cash[k.user] + (if k.side.Buy? then -HalfDown(value) else HalfUp(value))]
             && l'.assets == l.assets[slot := Get(l.assets, slot, 0) + (if k.side.Buy? then k.quantity else 0 - k.quantity)]
             && l'.tickets == l.tickets[id := k.(resolution := FilledAt(price))]
    ensures l' == Post(l, Fill(id, price))
  {
  }

  /** The three rows an execution changes. */
  lemma FillMoves(t: Tables, a: Action)
    requires Settles(t, a) && CanFill(t, a)
    ensures var row, t' := t.orders[a.order], FilledTables(t, a);
            var value, slot := a.price * row.quantity, row.HoldingSlot();
            && t'.cash == t.cash[row.user := t'.cash[row.user]]
            && t'.cash[row.user] == t.cash[row.user] + (if row.side.Buy? then -HalfDown(value) else HalfUp(value))
            && slot in t'.holdings
            && t'.holdings == t.holdings[slot := t'.holdings[slot]]
            && t'.holdings[slot] == Get(t.holdings, slot, 0) + (if row.side.Buy? then row.quantity else 0 - row.quantity)
  {
  }

  lemma ViewOfFill(t: Tables, t': Tables, o: OrderId, price: int)
    requires o in t.orders
    requires var row := t.orders[o];
             && row.user in t'.cash && t'.cash == t.cash[row.user := t'.cash[row.user]]
             && row.HoldingSlot() in t'.holdings && t'.holdings == t.holdings[row.HoldingSlot() := t'.holdings[row.HoldingSlot()]]
             && t'.orders == t.orders[o := MarkedExecuted(row, price)]
    ensures var row, l := t.orders[o], View(t);
            && View(t').cash == l.cash[row.user := t'.cash[row.user]]
            && View(t').assets == l.assets[row.HoldingSlot() := t'.holdings[row.HoldingSlot()]]
            && View(t').tickets == l.tickets[o := TicketOf(row).(resolution := FilledAt(price))]
  {
  }

  lemma PlaceRefines(t: Tables, a: Action)
    requires WellFormed(t) && Admissible(t, a) && a.Place?
    ensures CanPost(View(t), EntryOf(t, a))
    ensures View(Apply(t, a)) == Post(View(t), EntryOf(t, a))
  {
    PlaceEffect(t, a);
    if PlanOf(t, a).Commit? {
      var row := NewRow(a.request);
      OpensTicket(t, t.(orders := t.orders[a.id := row]), a.id, row);
    }
  }

  lemma OpensTicket(t: Tables, t': Tables, id: OrderId, row: OrderRow)
    requires id !in t.orders && t' == t.(orders := t.orders[id := row])
    ensures View(t') == View(t).(tickets := View(t).tickets[id := TicketOf(row)])
  {
  }

  lemma SeedRefines(t: Tables, a: Action)
    requires a.SeedUser? || a.SeedCash? || a.SeedHolding?
    ensures CanPost(View(t), EntryOf(t, a))
    ensures View(Apply(t, a)) == Post(View(t), EntryOf(t, a))
  {
    match a
    case SeedUser =>
      SeedUserEffect(t);
      SameView(t, Apply(t, a));
    case SeedCash =>
      SeedCashEffect(t);
      OpensCash(t, DEMO_USER_ID, DEMO_STARTING_CASH);
    case SeedHolding =>
      SeedHoldingEffect(t);
      OpensAsset(t, DEMO_SLOT, DEMO_HOLDING_QTY);
  }

  lemma SameView(t: Tables, t': Tables)
    requires t'.cash == t.cash && t'.holdings == t.holdings && t'.orders == t.orders
    ensures View(t') == View(t)
  {
  }

  lemma OpensCash(t: Tables, u: UserId, amount: nat)
    ensures View(t.(cash := t.cash[u := amount])) == View(t).(cash := View(t).cash[u := amount])
  {
  }

  lemma OpensAsset(t: Tables, slot: Slot, amount: nat)
    ensures View(t.(holdings := t.holdings[slot := amount])) == View(t).(assets := View(t).assets[slot := amount])
  {
  }

  // ------------------------------------------------------------ whole runs

  function Entries(t: Tables, actions: seq<Action>): seq<Entry>
  {
    if actions == [] then []
    else
      var init := actions[..|actions| - 1];
      Entries(t, init) + [EntryOf(Run(t, init), actions[|actions| - 1])]
  }

  /** Posting entries one at a time; `None` when one of them is not allowed. */
  function PostAll(l: Ledger, entries: seq<Entry>): Option<Ledger>
  {
    if entries == [] then Some(l)
    else
      var before := PostAll(l, entries[..|entries| - 1]);
      var e := entries[|entries| - 1];
      if before.Some? && CanPost(before.value, e) then Some(Post(before.value, e)) else None
  }

  /** Any run of the service, with duplicate events, several quotes for an order and late rejections,
   *  is a run of the ledger. */
  lemma {:induction false} RunRefines(t: Tables, actions: seq<Action>)
    requires WellFormed(t) && AdmissibleRun(t, actions)
    ensures PostAll(View(t), Entries(t, actions)) == Some(View(Run(t, actions)))
  {
    if actions != [] {
      var init, last := actions[..|actions| - 1], actions[|actions| - 1];
      RunRefines(t, init);
      RunKeepsWellFormed(t, init);
      Refines(Run(t, init), last);
      var entries := Entries(t, actions);
      assert entries[..|entries| - 1] == Entries(t, init);
    }
  }

  predicate Resolves(e: Entry, id: OrderId)
  {
    (e.Fill? || e.Decline?) && e.id == id
  }

  /** In any run of the ledger each ticket is resolved at most once. */
  lemma {:induction false} ResolvedOnce(l: Ledger, entries: seq<Entry>, i: nat, j: nat, id: OrderId)
    requires PostAll(l, entries).Some?
    requires i < j < |entries| && Resolves(entries[i], id)
    ensures !Resolves(entries[j], id)
  {
    var init := entries[..|entries| - 1];
    if j < |init| {
      ResolvedOnce(l, init, i, j, id);
    } else {
      ResolvedStays(l, init, i, id);
    }
  }

  lemma {:induction false} ResolvedStays(l: Ledger, entries: seq<Entry>, i: nat, id: OrderId)
    requires PostAll(l, entries).Some?
    requires i < |entries| && Resolves(entries[i], id)
    ensures var l' := PostAll(l, entries).value; id in l'.tickets && !l'.tickets[id].resolution.Open?
  {
    var init := entries[..|entries| - 1];
    if i < |init| {
      ResolvedStays(l, init, i, id);
    }
  }
}
