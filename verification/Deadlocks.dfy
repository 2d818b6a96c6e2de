/** Which deadlocks the lock order of the saga transactions allows. A BUY locks the portfolio and then
 *  the holding, a SELL the holding and then the portfolio, so deadlocks exist; they are all of one
 *  kind. */
module Deadlocks {
  import opened Money
  import opened Domain
  import opened Transactions
  import opened Interleaving
  import opened Serializability

  predicate WaitsFor(s: System, a: TxId, b: TxId)
    requires AllRequests(s)
  {
    && a in s.txs && b in s.txs && a != b && !s.txs[a].stage.Ready?
    && (var k := Wants(s.tables, s.txs[a]); k.Some? && k.value in Locks(s.txs[b]))
  }

  function After(c: seq<TxId>, i: nat): TxId
    requires i < |c|
  {
    c[if i + 1 < |c| then i + 1 else 0]
  }

  /** Each transaction of the ring waits for the next, and none appears twice. */
  predicate Cycle(s: System, c: seq<TxId>)
    requires AllRequests(s)
  {
    && c != []
    && (forall i, j :: 0 <= i < j < |c| ==> c[i] != c[j])
    && (forall i :: 0 <= i < |c| ==> WaitsFor(s, c[i], After(c, i)))
  }

  /** A BUY that holds the portfolio row and waits for the holding row, and a SELL of the same user and
   *  symbol that holds the holding row and waits for the portfolio row. */
  predicate Crossed(t: Tables, buy: Tx, sell: Tx)
    requires IsRequest(buy.action) && IsRequest(sell.action)
  {
    && buy.stage.Crediting? && sell.stage.Paying?
    && buy.stage.row.side.Buy? && sell.stage.row.side.Sell?
    && buy.stage.row.HoldingSlot() == sell.stage.row.HoldingSlot()
    && CashKey(buy.stage.row.user) in Locks(buy) && Wants(t, buy) == Some(HoldingKey(buy.stage.row.HoldingSlot()))
    && HoldingKey(sell.stage.row.HoldingSlot()) in Locks(sell) && Wants(t, sell) == Some(CashKey(sell.stage.row.user))
  }

  /** What a waiting transaction that is itself waited for can be: its waiter is at an earlier
   *  statement, unless both row locks are in play. */
  lemma WaitedFor(t: Tables, tx: Tx, waiter: Tx)
    requires IsRequest(tx.action) && IsRequest(waiter.action)
    requires Wants(t, tx).Some? && Wants(t, waiter).Some? && Wants(t, waiter).value in Locks(tx)
    requires !waiter.stage.Begun?
    ensures tx.stage.Reading? ==> waiter.stage.Marked?
    ensures tx.stage.Reading? || tx.stage.Crediting? || tx.stage.Paying?
    ensures tx.stage.Crediting? && !waiter.stage.Marked? ==> Wants(t, waiter) == Some(CashKey(tx.stage.row.user))
    ensures tx.stage.Paying? && !waiter.stage.Marked? ==> Wants(t, waiter) == Some(HoldingKey(tx.stage.row.HoldingSlot()))
  {
  }

  function Prev(c: seq<TxId>, i: nat): nat
    requires i < |c|
  {
    if i == 0 then |c| - 1 else i - 1
  }

  lemma RingWaits(s: System, c: seq<TxId>, i: nat)
    requires AllRequests(s) && Cycle(s, c) && i < |c|
    ensures Prev(c, i) < |c| && WaitsFor(s, c[Prev(c, i)], c[i])
  {
    AfterPrev(c, i);
    PrevWaits(s, c, Prev(c, i));
  }

  lemma AfterPrev(c: seq<TxId>, i: nat)
    requires i < |c|
    ensures After(c, Prev(c, i)) == c[i]
  {
  }

  lemma PrevWaits(s: System, c: seq<TxId>, j: nat)
    requires AllRequests(s) && Cycle(s, c) && j < |c|
    ensures WaitsFor(s, c[j], After(c, j))
  {
    assert WaitsFor(s, c[j], After(c, j));
  }

  /** Nobody on a ring is at its first two statements: a first one holds nothing to wait for, and a
   *  second one only what a first one waits for. */
  lemma NotFirst(s: System, c: seq<TxId>, i: nat)
    requires AllRequests(s) && Cycle(s, c) && i < |c|
    ensures !s.txs[c[i]].stage.Begun?
  {
    RingWaits(s, c, i);
  }

  lemma NotSecond(s: System, c: seq<TxId>, i: nat)
    requires AllRequests(s) && Cycle(s, c) && i < |c|
    ensures !s.txs[c[i]].stage.Marked?
  {
    var j := Prev(c, i);
    RingWaits(s, c, i);
    RingWaits(s, c, j);
    NotFirst(s, c, j);
    WaitedFor(s.tables, s.txs[c[i]], s.txs[c[j]]) by {
      RingWaits(s, c, if i + 1 < |c| then i + 1 else 0);
    }
  }

  /** Everybody on a ring holds one row beyond its order and waits for the other. */
  lemma OnlyLateStages(s: System, c: seq<TxId>, i: nat)
    requires AllRequests(s) && Cycle(s, c) && i < |c|
    ensures var tx, waiter := s.txs[c[i]], s.txs[c[Prev(c, i)]];
            && (tx.stage.Crediting? || tx.stage.Paying?)
            && Wants(s.tables, waiter) == Some(if tx.stage.Crediting? then CashKey(tx.stage.row.user)
                                               else HoldingKey(tx.stage.row.HoldingSlot()))
  {
    var j := Prev(c, i);
    RingWaits(s, c, i);
    NotFirst(s, c, j);
    NotSecond(s, c, j);
    WaitedFor(s.tables, s.txs[c[i]], s.txs[c[j]]) by {
      RingWaits(s, c, if i + 1 < |c| then i + 1 else 0);
    }
  }

  /** What a transaction with one row lock waits for. */
  lemma CrossWants(t: Tables, tx: Tx, waiter: Tx)
    requires IsRequest(waiter.action)
    requires tx.stage.Crediting? || tx.stage.Paying?
    requires waiter.stage.Crediting? || waiter.stage.Paying?
    requires Wants(t, waiter) == Some(if tx.stage.Crediting? then CashKey(tx.stage.row.user) else HoldingKey(tx.stage.row.HoldingSlot()))
    ensures tx.stage.Crediting? ==> waiter.stage.Paying? && waiter.stage.row.user == tx.stage.row.user
    ensures tx.stage.Paying? ==> waiter.stage.Crediting? && waiter.stage.row.HoldingSlot() == tx.stage.row.HoldingSlot()
  {
  }

  /** Two neighbours on a ring cross: one holds the portfolio, the other the holding of its slot. */
  lemma NeighboursCross(s: System, c: seq<TxId>, i: nat)
    requires AllRequests(s) && Cycle(s, c) && i < |c| && |c| > 1
    ensures Prev(c, i) < |c| && c[Prev(c, i)] in s.txs && c[i] in s.txs
    ensures var tx, waiter := s.txs[c[i]], s.txs[c[Prev(c, i)]];
            && (tx.stage.Crediting? || tx.stage.Paying?)
            && (tx.stage.Crediting? ==> waiter.stage.Paying? && waiter.stage.row.user == tx.stage.row.user)
            && (tx.stage.Paying? ==> waiter.stage.Crediting? && waiter.stage.row.HoldingSlot() == tx.stage.row.HoldingSlot())
  {
    OnlyLateStages(s, c, i);
    OnlyLateStages(s, c, Prev(c, i));
    CrossWants(s.tables, s.txs[c[i]], s.txs[c[Prev(c, i)]]);
  }

  /** Every wait-for cycle has length exactly two and crosses one BUY with one SELL of the same user and
   *  symbol; a transaction that waits for an event key or an order row is in none. */
  lemma CyclesAreCrossed(t0: Tables, s: System, c: seq<TxId>)
    requires Inv(t0, s) && Cycle(s, c)
    ensures |c| == 2
    ensures Crossed(s.tables, s.txs[c[0]], s.txs[c[1]]) || Crossed(s.tables, s.txs[c[1]], s.txs[c[0]])
  {
    assert WaitsFor(s, c[0], After(c, 0));
    assert |c| >= 2;
    if |c| > 2 {
      var i, k := LongRingsClash(s, c);
      assert false;
    }
    OnlyLateStages(s, c, 0);
    OnlyLateStages(s, c, 1);
    NeighboursCross(s, c, 0);
    assert TxOk(s.tables, s.txs[c[0]]) && TxOk(s.tables, s.txs[c[1]]);
  }

  /** On a longer ring one portfolio row would have two holders. */
  lemma LongRingsClash(s: System, c: seq<TxId>) returns (i: nat, k: nat)
    requires AllRequests(s) && Cycle(s, c) && |c| > 2
    ensures i < |c| && k < |c| && c[i] != c[k] && !(Locks(s.txs[c[i]]) !! Locks(s.txs[c[k]]))
  {
    OnlyLateStages(s, c, 0);
    NeighboursCross(s, c, 0);
    k := if s.txs[c[0]].stage.Crediting? then 0 else |c| - 1;
    var j := Prev(c, k);
    i := Prev(c, j);
    NeighboursCross(s, c, k);
    NeighboursCross(s, c, j);
    TwoHolders(s.tables, s.txs[c[k]], s.txs[c[j]], s.txs[c[i]]);
  }

  lemma TwoHolders(t: Tables, x: Tx, y: Tx, z: Tx)
    requires IsRequest(x.action) && IsRequest(z.action)
    requires x.stage.Crediting? && y.stage.Paying? && z.stage.Crediting?
    requires y.stage.row.user == x.stage.row.user && z.stage.row.HoldingSlot() == y.stage.row.HoldingSlot()
    ensures !(Locks(x) !! Locks(z))
  {
    assert CashKey(x.stage.row.user) in Locks(x) && CashKey(x.stage.row.user) in Locks(z);
  }

  /** In every reachable state. */
  lemma ReachableCycles(t0: Tables, s: System, c: seq<TxId>)
    requires WellFormed(t0) && Reachable(Start(t0), s) && AllRequests(s) && Cycle(s, c)
    ensures |c| == 2
    ensures Crossed(s.tables, s.txs[c[0]], s.txs[c[1]]) || Crossed(s.tables, s.txs[c[1]], s.txs[c[0]])
  {
    ReachableInv(t0, s);
    CyclesAreCrossed(t0, s, c);
  }

  // ------------------------------------------------------------ runs of two transactions

  /** Two transactions in flight over these tables, and nothing returned yet. */
  function Two(t: Tables, x: Tx, y: Tx, clock: nat): System
  {
    System(t, map[0 := x, 1 := y], clock, [])
  }

  /** One of the two transactions, seen from its own side. */
  function Pair(t: Tables, first: bool, me: Tx, other: Tx, clock: nat): System
  {
    if first then Two(t, me, other, clock) else Two(t, other, me, clock)
  }

  function Turn(first: bool): Label
  {
    Statement(if first then 0 else 1)
  }

  lemma PairStatement(t: Tables, first: bool, me: Tx, other: Tx, me': Tx, clock: nat)
    requires IsRequest(me.action) && IsRequest(other.action) && !me.stage.Ready?
    requires Advance(t, me, clock) == Goto(me')
    requires var k := Wants(t, me); k.Some? ==> k.value !in Locks(other)
    ensures var two := Pair(t, first, me, other, clock);
            && AllRequests(two) && Enabled(two, Turn(first))
            && Next(two, Turn(first)) == Pair(t, first, me', other, clock + 1)
  {
    assert Pair(t, first, me, other, clock).txs[if first then 0 else 1] == me;
    if first {
      assert map[0 := me, 1 := other][0 := me'] == map[0 := me', 1 := other];
    } else {
      assert map[0 := other, 1 := me][1 := me'] == map[0 := other, 1 := me'];
    }
  }

  /** One of two transactions runs a statement the other does not block. */
  lemma MyStep(s: System, t: Tables, first: bool, me: Tx, other: Tx, me': Tx, clock: nat)
    requires IsRequest(me.action) && IsRequest(other.action) && !me.stage.Ready?
    requires Reachable(s, Pair(t, first, me, other, clock))
    requires Advance(t, me, clock) == Goto(me')
    requires var k := Wants(t, me); k.Some? ==> k.value !in Locks(other)
    ensures Reachable(s, Pair(t, first, me', other, clock + 1))
  {
    PairStatement(t, first, me, other, me', clock);
    ReachNext(s, Pair(t, first, me, other, clock), Turn(first));
  }

  lemma MarkStep(s: System, t: Tables, first: bool, a: Action, other: Tx, clock: nat)
    requires Settles(t, a) && IsRequest(other.action) && EventKey(a.event) !in Locks(other)
    requires Reachable(s, Pair(t, first, Tx(a, Begun, None), other, clock))
    ensures Reachable(s, Pair(t, first, Tx(a, Marked, None), other, clock + 1))
  {
    MyStep(s, t, first, Tx(a, Begun, None), other, Tx(a, Marked, None), clock);
  }

  lemma OrderStep(s: System, t: Tables, first: bool, a: Action, other: Tx, clock: nat)
    requires Settles(t, a) && IsRequest(other.action) && OrderKey(a.order) !in Locks(other)
    requires Reachable(s, Pair(t, first, Tx(a, Marked, None), other, clock))
    ensures Reachable(s, Pair(t, first, Tx(a, Reading(t.orders[a.order]), None), other, clock + 1))
  {
    MyStep(s, t, first, Tx(a, Marked, None), other, Tx(a, Reading(t.orders[a.order]), None), clock);
  }

  /** A covered BUY locks its portfolio row. */
  lemma CashStep(s: System, t: Tables, first: bool, a: Action, other: Tx, clock: nat)
    requires Settles(t, a) && CanFill(t, a) && t.orders[a.order].side.Buy?
    requires IsRequest(other.action) && CashKey(t.orders[a.order].user) !in Locks(other)
    requires Reachable(s, Pair(t, first, Tx(a, Reading(t.orders[a.order]), None), other, clock))
    ensures var row := t.orders[a.order];
            Reachable(s, Pair(t, first, Tx(a, Charging(row, t.cash[row.user]), None), other, clock + 1))
  {
    var row := t.orders[a.order];
    MyStep(s, t, first, Tx(a, Reading(row), None), other, Tx(a, Charging(row, t.cash[row.user]), None), clock);
  }

  function CashLeft(t: Tables, a: Action): int
    requires Settles(t, a)
  {
    t.cash[t.orders[a.order].user] - HalfDown(a.price * t.orders[a.order].quantity)
  }

  /** It charges it. */
  lemma ChargeStep(s: System, t: Tables, first: bool, a: Action, other: Tx, clock: nat)
    requires Settles(t, a) && CanFill(t, a) && t.orders[a.order].side.Buy? && IsRequest(other.action)
    requires var row := t.orders[a.order];
             Reachable(s, Pair(t, first, Tx(a, Charging(row, t.cash[row.user]), None), other, clock))
    ensures var row := t.orders[a.order];
            && CashLeft(t, a) >= 0
            && Reachable(s, Pair(t, first, Tx(a, Crediting(row, CashLeft(t, a)), None), other, clock + 1))
  {
    var row := t.orders[a.order];
    DebitIsHalfDown(t.cash[row.user], a.price * row.quantity);
    MyStep(s, t, first, Tx(a, Charging(row, t.cash[row.user]), None), other, Tx(a, Crediting(row, CashLeft(t, a)), None), clock);
  }

  /** It credits the holding. */
  lemma CreditStep(s: System, t: Tables, first: bool, a: Action, cash': nat, other: Tx, clock: nat)
    returns (w: Writes)
    requires Settles(t, a) && IsRequest(other.action) && HoldingKey(t.orders[a.order].HoldingSlot()) !in Locks(other)
    requires Reachable(s, Pair(t, first, Tx(a, Crediting(t.orders[a.order], cash'), None), other, clock))
    ensures var row := t.orders[a.order];
            Reachable(s, Pair(t, first, Tx(a, Closing(ExecutionLocks(a, row), w, FilledReply(row, a.price)), None), other, clock + 1))
  {
    var row := t.orders[a.order];
    w := Execution(a, row, map[row.user := cash'], Get(t.holdings, row.HoldingSlot(), 0) + row.quantity);
    MyStep(s, t, first, Tx(a, Crediting(row, cash'), None), other,
           Tx(a, Closing(ExecutionLocks(a, row), w, FilledReply(row, a.price)), None), clock);
  }

  lemma CloseStep(s: System, t: Tables, first: bool, me: Tx, other: Tx, clock: nat)
    requires IsRequest(me.action) && IsRequest(other.action) && me.stage.Closing?
    requires Reachable(s, Pair(t, first, me, other, clock))
    ensures var me' := me.(stage := Ready(me.stage.locks, me.stage.writes, me.stage.reply));
            Reachable(s, Pair(t, first, me', other, clock + 1))
  {
    MyStep(s, t, first, me, other, me.(stage := Ready(me.stage.locks, me.stage.writes, me.stage.reply)), clock);
  }

  /** A covered SELL locks its holding row. */
  lemma HoldingStep(s: System, t: Tables, first: bool, a: Action, other: Tx, clock: nat)
    requires Settles(t, a) && CanFill(t, a) && t.orders[a.order].side.Sell?
    requires IsRequest(other.action) && HoldingKey(t.orders[a.order].HoldingSlot()) !in Locks(other)
    requires Reachable(s, Pair(t, first, Tx(a, Reading(t.orders[a.order]), None), other, clock))
    ensures var row := t.orders[a.order];
            Reachable(s, Pair(t, first, Tx(a, Taking(row, Get(t.holdings, row.HoldingSlot(), 0)), None), other, clock + 1))
  {
    var row := t.orders[a.order];
    MyStep(s, t, first, Tx(a, Reading(row), None), other, Tx(a, Taking(row, Get(t.holdings, row.HoldingSlot(), 0)), None), clock);
  }

  /** A SELL that finds no holding row is about to be refused. */
  lemma MissStep(s: System, t: Tables, first: bool, a: Action, other: Tx, clock: nat) returns (me: Tx)
    requires Settles(t, a) && t.orders[a.order].side.Sell? && t.orders[a.order].HoldingSlot() !in t.holdings
    requires IsRequest(other.action)
    requires Reachable(s, Pair(t, first, Tx(a, Reading(t.orders[a.order]), None), other, clock))
    ensures me.action == a && me.missed == Some(clock) && me.stage.Closing? && me.stage.reply.Refused?
    ensures Locks(me) == OrderLocks(a)
    ensures Reachable(s, Pair(t, first, me, other, clock + 1))
  {
    var row := t.orders[a.order];
    me := AfterHoldingRead(t, Tx(a, Reading(row), None), row, clock);
    MyStep(s, t, first, Tx(a, Reading(row), None), other, me, clock);
  }

  /** It takes the asset. */
  lemma TakeStep(s: System, t: Tables, first: bool, a: Action, held: nat, other: Tx, clock: nat)
    requires Settles(t, a) && held >= t.orders[a.order].quantity && IsRequest(other.action)
    requires Reachable(s, Pair(t, first, Tx(a, Taking(t.orders[a.order], held), None), other, clock))
    ensures var row := t.orders[a.order];
            Reachable(s, Pair(t, first, Tx(a, Paying(row, held - row.quantity), None), other, clock + 1))
  {
    var row := t.orders[a.order];
    MyStep(s, t, first, Tx(a, Taking(row, held), None), other, Tx(a, Paying(row, held - row.quantity), None), clock);
  }

  lemma TwoBegin(t: Tables, a: Action, b: Action)
    requires IsRequest(a) && IsRequest(b) && Admissible(t, a) && Admissible(t, b)
    ensures Reachable(Start(t), Two(t, Tx(a, Begun, None), Tx(b, Begun, None), 2))
  {
    var x, y := Tx(a, Begun, None), Tx(b, Begun, None);
    ReachStart(Start(t));
    ReachNext(Start(t), Start(t), Begin(0, a));
    ReachNext(Start(t), System(t, map[0 := x], 1, []), Begin(1, b));
    assert map[0 := x][1 := y] == map[0 := x, 1 := y];
  }

  /** Two settling transactions of different events and orders get as far as their row locks. */
  lemma BothReading(t: Tables, a: Action, b: Action)
    requires Settles(t, a) && Settles(t, b) && a.event != b.event && a.order != b.order
    ensures Reachable(Start(t), Two(t, Tx(a, Reading(t.orders[a.order]), None), Tx(b, Reading(t.orders[b.order]), None), 6))
  {
    TwoBegin(t, a, b);
    MarkStep(Start(t), t, true, a, Tx(b, Begun, None), 2);
    MarkStep(Start(t), t, false, b, Tx(a, Marked, None), 3);
    OrderStep(Start(t), t, true, a, Tx(b, Marked, None), 4);
    OrderStep(Start(t), t, false, b, Tx(a, Reading(t.orders[a.order]), None), 5);
  }

  predicate Crossing(t: Tables, a: Action, b: Action)
  {
    && Settles(t, a) && CanFill(t, a) && Settles(t, b) && CanFill(t, b) && a.event != b.event
    && t.orders[a.order].side.Buy? && t.orders[b.order].side.Sell?
    && t.orders[a.order].HoldingSlot() == t.orders[b.order].HoldingSlot()
  }

  function BuyHalfway(t: Tables, a: Action): Tx
    requires Settles(t, a) && CanFill(t, a) && t.orders[a.order].side.Buy?
  {
    DebitIsHalfDown(t.cash[t.orders[a.order].user], a.price * t.orders[a.order].quantity);
    Tx(a, Crediting(t.orders[a.order], CashLeft(t, a)), None)
  }

  function SellHalfway(t: Tables, b: Action): Tx
    requires Settles(t, b) && CanFill(t, b) && t.orders[b.order].side.Sell?
  {
    var row := t.orders[b.order];
    Tx(b, Paying(row, Get(t.holdings, row.HoldingSlot(), 0) - row.quantity), None)
  }

  /** The BUY has locked its portfolio, the SELL its holding. */
  lemma BothLocked(t: Tables, a: Action, b: Action)
    requires Crossing(t, a, b)
    ensures var buy, sell := t.orders[a.order], t.orders[b.order];
            var x, y := Tx(a, Charging(buy, t.cash[buy.user]), None), Tx(b, Taking(sell, Get(t.holdings, sell.HoldingSlot(), 0)), None);
            Reachable(Start(t), Two(t, x, y, 8))
  {
    BothReading(t, a, b);
    var buy, sell := t.orders[a.order], t.orders[b.order];
    CashStep(Start(t), t, true, a, Tx(b, Reading(sell), None), 6);
    HoldingStep(Start(t), t, false, b, Tx(a, Charging(buy, t.cash[buy.user]), None), 7);
  }

  lemma BothHalfway(t: Tables, a: Action, b: Action)
    requires Crossing(t, a, b)
    ensures Reachable(Start(t), Two(t, BuyHalfway(t, a), SellHalfway(t, b), 10))
  {
    BothLocked(t, a, b);
    var held := Get(t.holdings, t.orders[b.order].HoldingSlot(), 0);
    ChargeStep(Start(t), t, true, a, Tx(b, Taking(t.orders[b.order], held), None), 8);
    TakeStep(Start(t), t, false, b, held, BuyHalfway(t, a), 9);
  }

  /** A covered BUY and a covered SELL in flight for the same user and symbol can always deadlock. */
  lemma DeadlockArises(t: Tables, a: Action, b: Action) returns (s: System)
    requires Crossing(t, a, b)
    ensures Reachable(Start(t), s) && AllRequests(s) && Cycle(s, [0, 1])
  {
    BothHalfway(t, a, b);
    s := Two(t, BuyHalfway(t, a), SellHalfway(t, b), 10);
    HalfwayCrossed(t, a, b);
    CrossedIsCycle(t, BuyHalfway(t, a), SellHalfway(t, b), 10);
  }

  lemma HalfwayCrossed(t: Tables, a: Action, b: Action)
    requires Crossing(t, a, b)
    ensures Crossed(t, BuyHalfway(t, a), SellHalfway(t, b))
  {
  }

  lemma CrossedIsCycle(t: Tables, x: Tx, y: Tx, clock: nat)
    requires IsRequest(x.action) && IsRequest(y.action) && Crossed(t, x, y)
    ensures AllRequests(Two(t, x, y, clock)) && Cycle(Two(t, x, y, clock), [0, 1])
  {
    var s := Two(t, x, y, clock);
    assert WaitsFor(s, 0, 1) && WaitsFor(s, 1, 0);
  }

  // ------------------------------------------------------------ commit order is not enough

  /** The SELL misses its holding row. */
  predicate Overtakes(t: Tables, sell: Action, buy: Action)
  {
    && Settles(t, sell) && Settles(t, buy) && CanFill(t, buy) && sell.event != buy.event
    && (var s, b := t.orders[sell.order], t.orders[buy.order];
        && s.side.Sell? && b.side.Buy? && s.HoldingSlot() == b.HoldingSlot()
        && s.HoldingSlot() !in t.holdings && s.quantity <= b.quantity)
  }

  /** The second transaction, a covered BUY, runs from its order read up to its commit. */
  lemma BuyRuns(s: System, t: Tables, x: Tx, a: Action, clock: nat) returns (y: Tx)
    requires Settles(t, a) && CanFill(t, a) && t.orders[a.order].side.Buy?
    requires IsRequest(x.action) && Locks(x) == OrderLocks(x.action)
    requires Reachable(s, Two(t, x, Tx(a, Reading(t.orders[a.order]), None), clock))
    ensures y.action == a && y.missed.None? && y.stage.Ready? && y.stage.reply.Filled?
    ensures Reachable(s, Two(t, x, y, clock + 4))
  {
    var row := t.orders[a.order];
    CashStep(s, t, false, a, x, clock);
    ChargeStep(s, t, false, a, x, clock + 1);
    var w := CreditStep(s, t, false, a, CashLeft(t, a), x, clock + 2);
    CloseStep(s, t, false, Tx(a, Closing(ExecutionLocks(a, row), w, FilledReply(row, a.price)), None), x, clock + 3);
    y := Tx(a, Ready(ExecutionLocks(a, row), w, FilledReply(row, a.price)), None);
  }

  /** A SELL reads that the user holds nothing; a BUY then fills and commits; the SELL commits last,
   *  refused. Its place in the serial order is before the BUY: behind it, it would have been filled. */
  lemma CommitOrderIsNotSerial(t: Tables, sell: Action, buy: Action) returns (s: System)
    requires Overtakes(t, sell, buy)
    ensures Reachable(Start(t), s) && AllRequests(s) && Enabled(s, CommitTx(1))
    ensures var s1 := Next(s, CommitTx(1));
            && AllRequests(s1) && Enabled(s1, Statement(0))
            && (var s2 := Next(s1, Statement(0));
                && AllRequests(s2) && Enabled(s2, CommitTx(0))
                && (var h := Next(s2, CommitTx(0)).history;
                    && |h| == 2
                    && h[0].action == sell && h[0].reply.Refused?
                    && h[1].action == buy && h[1].reply.Filled?))
    ensures PlanOf(Apply(t, buy), sell).reply.Filled?
  {
    BothReading(t, sell, buy);
    var x := MissStep(Start(t), t, true, sell, Tx(buy, Reading(t.orders[buy.order]), None), 6);
    var y := BuyRuns(Start(t), t, x, buy, 7);
    s := Two(t, x, y, 11);
    LateCommit(t, x, y, 6, 11);
    SoldAfterBuying(t, sell, buy);
  }

  /** The second transaction commits, and then the one that missed its row at an earlier time. */
  lemma LateCommit(t: Tables, x: Tx, y: Tx, at: nat, clock: nat)
    requires IsRequest(x.action) && IsRequest(y.action) && at < clock
    requires x.stage.Closing? && x.missed == Some(at) && y.stage.Ready? && y.missed.None?
    ensures var s := Two(t, x, y, clock);
            && AllRequests(s) && Enabled(s, CommitTx(1))
            && (var s1 := Next(s, CommitTx(1));
                && AllRequests(s1) && Enabled(s1, Statement(0))
                && (var s2 := Next(s1, Statement(0));
                    && AllRequests(s2) && Enabled(s2, CommitTx(0))
                    && Next(s2, CommitTx(0)).history
                       == [Entry(at, x.action, x.stage.reply, true), Entry(clock, y.action, y.stage.reply, true)]))
  {
    var s := Two(t, x, y, clock);
    var e, late := Entry(clock, y.action, y.stage.reply, true), Entry(at, x.action, x.stage.reply, true);
    var x' := x.(stage := Ready(x.stage.locks, x.stage.writes, x.stage.reply));
    var s1 := System(Effect(t, y.stage.writes), map[0 := x], clock + 1, [e]);
    assert map[0 := x, 1 := y] - {1} == map[0 := x];
    assert Next(s, CommitTx(1)) == s1;
    var s2 := s1.(txs := map[0 := x'], clock := clock + 2);
    assert map[0 := x][0 := x'] == map[0 := x'];
    assert Next(s1, Statement(0)) == s2;
    InsertFirst(e, late);
  }

  lemma InsertFirst(e: Entry, late: Entry)
    requires late.at < e.at
    ensures Insert([e], late) == [late, e]
  {
    assert [e][..0] == [];
    assert Insert([], late) == [late];
  }

  lemma SoldAfterBuying(t: Tables, sell: Action, buy: Action)
    requires Overtakes(t, sell, buy)
    ensures PlanOf(Apply(t, buy), sell).reply.Filled?
  {
    SettleFills(t, buy);
    var t' := Apply(t, buy);
    assert Settles(t', sell) && t'.orders[sell.order] == t.orders[sell.order];
    assert CanFill(t', sell);
    SettleFills(t', sell);
  }
}
