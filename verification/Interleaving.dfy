/** Saga transactions interleaved statement by statement, under PostgreSQL row locks at READ
 *  COMMITTED.
 *
 *  A statement that locks a row waits while another transaction holds it, and then sees the latest
 *  committed version. Inserting a key another transaction has inserted and not committed waits too. A
 *  locking read that finds no committed row takes no lock and does not see uncommitted inserts. Locks
 *  are held until commit or abort; an abort may come at any point and leaves nothing behind, the
 *  ledger mark included.
 */
module Interleaving {
  import opened Money
  import opened Domain
  import opened Transactions

  type TxId = nat

  /** What a transaction can lock: an event id in the ledger, or a row. */
  datatype Key = EventKey(event: EventId) | OrderKey(order: OrderId) | CashKey(user: UserId) | HoldingKey(slot: Slot)

  /** Where a transaction stands: which statement it runs next and what it has read so far. */
  datatype Stage =
    | Begun                                                     // INSERT INTO processed_events
    | Marked                                                    // SELECT ... FROM orders FOR UPDATE
    | Reading(row: OrderRow)                                    // SELECT cash or holding FOR UPDATE
    | Charging(row: OrderRow, cash: nat)                        // BUY: UPDATE portfolios
    | Crediting(row: OrderRow, cash': nat)                      // BUY: upsert holdings
    | Taking(row: OrderRow, held: nat)                          // SELL: UPDATE holdings
    | Paying(row: OrderRow, held': nat)                         // SELL: UPDATE portfolios
    | Closing(locks: set<Key>, writes: Writes, reply: Reply)    // UPDATE orders
    | Ready(locks: set<Key>, writes: Writes, reply: Reply)      // COMMIT

  /** `missed` is the time of the locking read that found no row, if there was one. */
  datatype Tx = Tx(action: Action, stage: Stage, missed: Option<nat>)

  function OrderLocks(a: Action): set<Key>
    requires IsRequest(a)
  {
    {EventKey(a.event), OrderKey(a.order)}
  }

  function Locks(tx: Tx): set<Key>
    requires IsRequest(tx.action)
  {
    match tx.stage
    case Begun => {}
    case Marked => {EventKey(tx.action.event)}
    case Reading(_) => OrderLocks(tx.action)
    case Charging(row, _) => OrderLocks(tx.action) + {CashKey(row.user)}
    case Crediting(row, _) => OrderLocks(tx.action) + {CashKey(row.user)}
    case Taking(row, _) => OrderLocks(tx.action) + {HoldingKey(row.HoldingSlot())}
    case Paying(row, _) => OrderLocks(tx.action) + {HoldingKey(row.HoldingSlot())}
    case Closing(locks, _, _) => locks
    case Ready(locks, _, _) => locks
  }

  /** The lock the next statement must get; none when it locks no row that exists. */
  function Wants(t: Tables, tx: Tx): Option<Key>
    requires IsRequest(tx.action)
  {
    match tx.stage
    case Begun => Some(EventKey(tx.action.event))
    case Marked => if tx.action.order in t.orders then Some(OrderKey(tx.action.order)) else None
    case Reading(row) =>
      if row.side.Buy? then (if row.user in t.cash then Some(CashKey(row.user)) else None)
      else if row.HoldingSlot() in t.holdings then Some(HoldingKey(row.HoldingSlot()))
      else None
    case Crediting(row, _) => Some(HoldingKey(row.HoldingSlot()))
    case Paying(row, _) => if row.user in t.cash then Some(CashKey(row.user)) else None
    case _ => None
  }

  datatype Move = Goto(tx: Tx) | Return(reply: Reply) | Fail(error: DbError)

  /** What a request that has nothing to do returns. */
  function IdleReply(a: Action): Reply
  {
    if a.Quoted? then Skipped else Acknowledged
  }

  function MarkWrites(e: EventId): Writes
  {
    NO_WRITES.(processed := {e})
  }

  function AfterOrderRead(t: Tables, tx: Tx, now: nat): Tx
    requires IsRequest(tx.action)
  {
    var a := tx.action;
    if a.order !in t.orders then
      Tx(a, Ready({EventKey(a.event)}, MarkWrites(a.event), IdleReply(a)), Some(now))
    else
      var row := t.orders[a.order];
      if !row.status.Created? then tx.(stage := Ready(OrderLocks(a), MarkWrites(a.event), IdleReply(a)))
      else if a.Quoted? then tx.(stage := Reading(row))
      else tx.(stage := Closing(OrderLocks(a), OrderWrites(a.event, a.order, MarkedRejected(row, a.detail)), Acknowledged))
  }

  function Refusal(a: Action, row: OrderRow, locks: set<Key>, reason: RejectionReason, detail: Detail): Stage
    requires IsRequest(a)
  {
    Closing(locks, OrderWrites(a.event, a.order, MarkedRejected(row, detail)), Refused(reason, detail))
  }

  function AfterCashRead(t: Tables, tx: Tx, row: OrderRow): Move
    requires tx.action.Quoted?
  {
    var a := tx.action;
    if row.user !in t.cash then Fail(MissingPortfolio)
    else
      var cash := t.cash[row.user];
      if Affordable(cash, a.price, row.quantity) then Goto(tx.(stage := Charging(row, cash)))
      else Goto(tx.(stage := Refusal(a, row, OrderLocks(a) + {CashKey(row.user)},
                                     InsufficientBalance, ShortOfCash(a.price * row.quantity, cash))))
  }

  function AfterHoldingRead(t: Tables, tx: Tx, row: OrderRow, now: nat): Tx
    requires tx.action.Quoted?
  {
    var a, slot := tx.action, row.HoldingSlot();
    if slot !in t.holdings then
      Tx(a, Refusal(a, row, OrderLocks(a), InsufficientAsset, ShortOfAsset(row.quantity, row.Asset(), 0)), Some(now))
    else
      var held := t.holdings[slot];
      if held >= row.quantity then tx.(stage := Taking(row, held))
      else tx.(stage := Refusal(a, row, OrderLocks(a) + {HoldingKey(slot)},
                                InsufficientAsset, ShortOfAsset(row.quantity, row.Asset(), held)))
  }

  function Execution(a: Action, row: OrderRow, cash: map<UserId, nat>, held: nat): Writes
    requires a.Quoted?
  {
    OrderWrites(a.event, a.order, MarkedExecuted(row, a.price)).(cash := cash, holdings := map[row.HoldingSlot() := held])
  }

  function ExecutionLocks(a: Action, row: OrderRow): set<Key>
    requires IsRequest(a)
  {
    OrderLocks(a) + {CashKey(row.user), HoldingKey(row.HoldingSlot())}
  }

  /** One statement of a transaction, run against the latest committed tables. */
  function Advance(t: Tables, tx: Tx, now: nat): Move
    requires IsRequest(tx.action) && !tx.stage.Ready?
  {
    var a := tx.action;
    match tx.stage
    case Begun => if a.event in t.processed then Return(IdleReply(a)) else Goto(tx.(stage := Marked))
    case Marked => Goto(AfterOrderRead(t, tx, now))
    case Closing(locks, w, reply) => Goto(tx.(stage := Ready(locks, w, reply)))
    case _ => if a.Rejection? then Fail(CheckViolation) else Settle(t, tx, now)
  }

  function Settle(t: Tables, tx: Tx, now: nat): Move
    requires tx.action.Quoted?
  {
    var a := tx.action;
    match tx.stage
    case Reading(row) =>
      if row.side.Buy? then AfterCashRead(t, tx, row) else Goto(AfterHoldingRead(t, tx, row, now))
    case Charging(row, cash) =>
      var cash' := Debited(cash, a.price * row.quantity);
      if cash' < 0 then Fail(CheckViolation) else Goto(tx.(stage := Crediting(row, cash')))
    case Crediting(row, cash') =>
      var held := Get(t.holdings, row.HoldingSlot(), 0) + row.quantity;
      Goto(tx.(stage := Closing(ExecutionLocks(a, row), Execution(a, row, map[row.user := cash'], held), FilledReply(row, a.price))))
    case Taking(row, held) =>
      if held < row.quantity then Fail(CheckViolation) else Goto(tx.(stage := Paying(row, held - row.quantity)))
    case Paying(row, held') =>
      if row.user !in t.cash then
        Goto(tx.(stage := Closing(OrderLocks(a) + {HoldingKey(row.HoldingSlot())}, Execution(a, row, map[], held'), FilledReply(row, a.price))))
      else
        var cash' := Credited(t.cash[row.user], a.price * row.quantity);
        if cash' < 0 then Fail(CheckViolation)
        else Goto(tx.(stage := Closing(ExecutionLocks(a, row), Execution(a, row, map[row.user := cash'], held'), FilledReply(row, a.price))))
    case _ => Fail(CheckViolation)
  }

  // ------------------------------------------------------------ the system

  /** A transaction that returned: when it takes effect, what it was, what it returned, and whether it
   *  committed (a duplicate rolls back). */
  datatype Entry = Entry(at: nat, action: Action, reply: Reply, committed: bool)

  datatype System = System(tables: Tables, txs: map<TxId, Tx>, clock: nat, history: seq<Entry>)

  datatype Label =
    | Begin(id: TxId, action: Action)
    | Statement(id: TxId)
    | CommitTx(id: TxId)
    | Abort(id: TxId)
    | Auto(action: Action)     // a single autocommitted INSERT: POST /orders or a seed

  function Start(t: Tables): System
  {
    System(t, map[], 0, [])
  }

  predicate AllRequests(s: System)
  {
    forall id <- s.txs :: IsRequest(s.txs[id].action)
  }

  predicate Free(s: System, id: TxId, k: Key)
    requires AllRequests(s)
  {
    forall other <- s.txs :: other != id ==> k !in Locks(s.txs[other])
  }

  predicate Enabled(s: System, l: Label)
    requires AllRequests(s)
  {
    match l
    case Begin(id, a) => id !in s.txs && IsRequest(a) && Admissible(s.tables, a)
    case Statement(id) =>
      && id in s.txs && !s.txs[id].stage.Ready?
      && (var k := Wants(s.tables, s.txs[id]); k.Some? ==> Free(s, id, k.value))
      && !Advance(s.tables, s.txs[id], s.clock).Fail?
    case CommitTx(id) => id in s.txs && s.txs[id].stage.Ready?
    case Abort(id) => id in s.txs
    case Auto(a) =>
      && !IsRequest(a) && Admissible(s.tables, a) && PlanOf(s.tables, a).Commit?
      && (a.SeedHolding? ==> DEMO_SLOT in s.tables.holdings || forall id <- s.txs :: HoldingKey(DEMO_SLOT) !in Locks(s.txs[id]))
  }

  /** Insert an entry at its place in time. */
  function Insert(h: seq<Entry>, e: Entry): seq<Entry>
  {
    if h == [] || h[|h| - 1].at < e.at then h + [e] else Insert(h[..|h| - 1], e) + [h[|h| - 1]]
  }

  /** The entry a transaction leaves: at its commit, or at the read that found no row. */
  function EntryOf(s: System, tx: Tx): Entry
    requires tx.stage.Ready?
  {
    Entry(if tx.missed.Some? then tx.missed.value else s.clock, tx.action, tx.stage.reply, true)
  }

  function Next(s: System, l: Label): System
    requires AllRequests(s) && Enabled(s, l)
  {
    var s' := s.(clock := s.clock + 1);
    match l
    case Begin(id, a) => s'.(txs := s.txs[id := Tx(a, Begun, None)])
    case Statement(id) =>
      (match Advance(s.tables, s.txs[id], s.clock)
       case Goto(tx) => s'.(txs := s.txs[id := tx])
       case Return(reply) =>
         s'.(txs := s.txs - {id}, history := Insert(s.history, Entry(s.clock, s.txs[id].action, reply, false)))
       case Fail(_) => s')
    case CommitTx(id) =>
      s'.(tables := Effect(s.tables, s.txs[id].stage.writes),
          txs := s.txs - {id},
          history := Insert(s.history, EntryOf(s, s.txs[id])))
    case Abort(id) => s'.(txs := s.txs - {id})
    case Auto(a) =>
      s'.(tables := Apply(s.tables, a),
          history := Insert(s.history, Entry(s.clock, a, PlanOf(s.tables, a).reply, true)))
  }

  /** A run of the system; `None` when some label is not enabled. */
  function Exec(s: System, labels: seq<Label>): Option<System>
  {
    if labels == [] then Some(s)
    else
      var before, l := Exec(s, labels[..|labels| - 1]), labels[|labels| - 1];
      if before.Some? && AllRequests(before.value) && Enabled(before.value, l) then Some(Next(before.value, l)) else None
  }

  ghost predicate Reachable(s: System, s': System)
  {
    exists labels :: Exec(s, labels) == Some(s')
  }

  lemma ReachStart(s: System)
    ensures Reachable(s, s)
  {
    assert Exec(s, []) == Some(s);
  }

  lemma ReachNext(s: System, s': System, l: Label)
    requires Reachable(s, s') && AllRequests(s') && Enabled(s', l)
    ensures Reachable(s, Next(s', l))
  {
    var labels :| Exec(s, labels) == Some(s');
    assert (labels + [l])[..|labels|] == labels;
    assert Exec(s, labels + [l]) == Some(Next(s', l));
  }
}
