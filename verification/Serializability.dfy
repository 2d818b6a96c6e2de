/** The invariant of the interleaved system, and what follows from it: serialisability, and no
 *  statement ever hitting a CHECK. */
module Serializability {
  import opened Money
  import opened Domain
  import opened Transactions
  import opened Interleaving
  import opened Serial
  import Balances
  import Ledger

  // ------------------------------------------------------------ one transaction

  /** Nothing under these locks is written. */
  predicate Clear(locks: set<Key>, w: Writes)
  {
    && (forall e <- w.processed :: EventKey(e) !in locks)
    && (forall o <- w.orders :: OrderKey(o) !in locks)
    && (forall u <- w.cash :: CashKey(u) !in locks)
    && (forall s <- w.holdings :: HoldingKey(s) !in locks)
  }

  /** Everything written is under these locks. */
  predicate Within(w: Writes, locks: set<Key>)
  {
    && w.users == {}
    && (forall e <- w.processed :: EventKey(e) in locks)
    && (forall o <- w.orders :: OrderKey(o) in locks)
    && (forall u <- w.cash :: CashKey(u) in locks)
    && (forall s <- w.holdings :: HoldingKey(s) in locks)
  }

  lemma WithinIsClear(w: Writes, locks: set<Key>, others: set<Key>)
    requires Within(w, locks) && locks !! others
    ensures Clear(others, w)
  {
  }

  /** Locked order and portfolio rows exist. */
  ghost predicate Grounded(t: Tables, locks: set<Key>)
  {
    && (forall o: OrderId :: OrderKey(o) in locks ==> o in t.orders)
    && (forall u: UserId :: CashKey(u) in locks ==> u in t.cash)
  }

  /** The rows the plan of a request reads are all locked. */
  predicate Covers(locks: set<Key>, t: Tables, a: Action)
    requires IsRequest(a)
  {
    && EventKey(a.event) in locks && OrderKey(a.order) in locks && a.order in t.orders
    && (a.Quoted? && IsCreated(t, a.order) ==>
          var row := t.orders[a.order];
          var slot := row.HoldingSlot();
          && row.user in t.cash
          && (row.side.Buy? ==>
                && CashKey(row.user) in locks
                && (Affordable(t.cash[row.user], a.price, row.quantity) ==> HoldingKey(slot) in locks))
          && (row.side.Sell? ==>
                && HoldingKey(slot) in locks
                && (Get(t.holdings, slot, 0) >= row.quantity ==> CashKey(row.user) in locks)))
  }

  /** A plan depends on locked rows only. */
  lemma CoveredPlanStays(t: Tables, w: Writes, locks: set<Key>, a: Action)
    requires IsRequest(a) && Covers(locks, t, a) && Clear(locks, w)
    ensures Covers(locks, Effect(t, w), a)
    ensures PlanOf(Effect(t, w), a) == PlanOf(t, a)
  {
    var t' := Effect(t, w);
    assert a.event in t'.processed <==> a.event in t.processed;
    assert t'.orders[a.order] == t.orders[a.order];
    if a.Quoted? && IsCreated(t, a.order) {
      LockedRowsStay(t, w, locks, t.orders[a.order]);
    }
  }

  lemma LockedRowsStay(t: Tables, w: Writes, locks: set<Key>, row: OrderRow)
    requires Clear(locks, w)
    ensures CashKey(row.user) in locks && row.user in t.cash ==> Effect(t, w).cash[row.user] == t.cash[row.user]
    ensures HoldingKey(row.HoldingSlot()) in locks ==>
              && (row.HoldingSlot() in Effect(t, w).holdings <==> row.HoldingSlot() in t.holdings)
              && Get(Effect(t, w).holdings, row.HoldingSlot(), 0) == Get(t.holdings, row.HoldingSlot(), 0)
  {
  }

  /** The quote is to settle this order row, which is still as it was read. */
  predicate Settling(t: Tables, a: Action, row: OrderRow)
  {
    Settles(t, a) && t.orders[a.order] == row
  }

  /** A transaction whose statements are done, but for its order row. */
  predicate EndOk(t: Tables, tx: Tx, locks: set<Key>, w: Writes, reply: Reply)
    requires IsRequest(tx.action)
  {
    var a := tx.action;
    && a.event !in t.processed && Within(w, locks) && !reply.Failed?
    && (if tx.missed.None? then Covers(locks, t, a) && PlanOf(t, a) == Commit(w, reply)
        else Narrow(w) && w.processed == {a.event} && w.orders.Keys <= {a.order})
  }

  /** What a transaction has read is what the tables say, and its locks are on existing rows. */
  ghost predicate TxOk(t: Tables, tx: Tx)
  {
    && IsRequest(tx.action)
    && (tx.action.Quoted? ==> tx.action.price >= 1)
    && Grounded(t, Locks(tx))
    && (tx.missed.Some? ==> tx.stage.Closing? || tx.stage.Ready?)
    && StageOk(t, tx)
  }

  predicate StageOk(t: Tables, tx: Tx)
    requires IsRequest(tx.action)
  {
    var a := tx.action;
    match tx.stage
    case Begun => true
    case Marked => a.event !in t.processed
    case Reading(row) => Settling(t, a, row)
    case Charging(row, cash) =>
      && Settling(t, a, row) && row.side.Buy? && CanFill(t, a) && cash == t.cash[row.user]
    case Crediting(row, cash') =>
      && Settling(t, a, row) && row.side.Buy? && CanFill(t, a)
      && cash' == Debited(t.cash[row.user], a.price * row.quantity)
    case Taking(row, held) =>
      && Settling(t, a, row) && row.side.Sell? && CanFill(t, a) && held == Get(t.holdings, row.HoldingSlot(), 0)
    case Paying(row, held') =>
      && Settling(t, a, row) && row.side.Sell? && CanFill(t, a)
      && held' == Get(t.holdings, row.HoldingSlot(), 0) - row.quantity
    case Closing(locks, w, reply) => EndOk(t, tx, locks, w, reply)
    case Ready(locks, w, reply) => EndOk(t, tx, locks, w, reply)
  }

  /** Another transaction's commit does not disturb what this one has read. */
  lemma OthersKeepTxOk(t: Tables, w: Writes, tx: Tx)
    requires TxOk(t, tx) && Clear(Locks(tx), w)
    ensures TxOk(Effect(t, w), tx)
  {
    var t', a := Effect(t, w), tx.action;
    match tx.stage
    case Begun =>
    case Marked =>
    case Closing(locks, _, _) => EndKeepsOk(t, w, tx, locks);
    case Ready(locks, _, _) => EndKeepsOk(t, w, tx, locks);
    case _ =>
      var row := tx.stage.row;
      assert a.event !in t'.processed;
      assert t'.orders[a.order] == row;
      LockedRowsStay(t, w, Locks(tx), row);
  }

  lemma EndKeepsOk(t: Tables, w: Writes, tx: Tx, locks: set<Key>)
    requires TxOk(t, tx) && Clear(locks, w) && locks == Locks(tx)
    requires tx.stage.Closing? || tx.stage.Ready?
    ensures EndOk(Effect(t, w), tx, locks, tx.stage.writes, tx.stage.reply)
  {
    assert EndOk(t, tx, locks, tx.stage.writes, tx.stage.reply);
    if tx.missed.None? {
      CoveredPlanStays(t, w, locks, tx.action);
    } else {
      assert EventKey(tx.action.event) in locks;
    }
  }

  // ------------------------------------------------------------ one statement

  function Ending(tx: Tx): bool
  {
    tx.stage.Closing? || tx.stage.Ready?
  }

  /** What a statement may do: keep the transaction sound, and add at most the lock it asked for. */
  ghost predicate StatementOk(t: Tables, tx: Tx, tx': Tx, now: nat)
    requires IsRequest(tx.action)
  {
    && tx'.action == tx.action
    && TxOk(t, tx')
    && Locks(tx') <= Locks(tx) + (var k := Wants(t, tx); if k.Some? then {k.value} else {})
    && (tx'.missed == tx.missed || (tx.missed.None? && tx'.missed == Some(now)))
    && (tx'.missed.Some? && tx.missed.Some? ==>
          Ending(tx) && Ending(tx') && tx'.stage.writes == tx.stage.writes && tx'.stage.reply == tx.stage.reply)
    && (tx'.missed.Some? && tx.missed.None? ==>
          && Ending(tx') && PlanOf(t, tx.action) == Commit(tx'.stage.writes, tx'.stage.reply)
          && (tx.action.order in t.orders ==> OrderKey(tx.action.order) in Locks(tx')))
  }

  /** No statement of a sound transaction fails, and each leaves it sound. */
  lemma AdvanceOk(t: Tables, tx: Tx, now: nat)
    requires WellFormed(t) && TxOk(t, tx) && !tx.stage.Ready?
    ensures var m := Advance(t, tx, now);
            && !m.Fail?
            && (m.Goto? ==> StatementOk(t, tx, m.tx, now))
            && (m.Return? ==> tx.stage.Begun? && tx.action.event in t.processed && m.reply == IdleReply(tx.action))
  {
    match tx.stage
    case Begun =>
    case Marked => OrderReadOk(t, tx, now);
    case Reading(row) =>
      if row.side.Buy? {
        CashReadOk(t, tx, now);
      } else {
        HoldingReadOk(t, tx, now);
      }
    case Charging(row, cash) => DebitIsHalfDown(cash, tx.action.price * row.quantity);
    case Crediting(_, _) => CreditingOk(t, tx, now);
    case Taking(_, _) =>
    case Paying(_, _) => PayingOk(t, tx, now);
    case Closing(_, _, _) =>
  }

  lemma OrderReadOk(t: Tables, tx: Tx, now: nat)
    requires WellFormed(t) && TxOk(t, tx) && tx.stage.Marked?
    ensures StatementOk(t, tx, AfterOrderRead(t, tx, now), now)
  {
    var a := tx.action;
    if a.order in t.orders {
      assert RowConsistent(t.orders[a.order]) && t.orders[a.order].user in t.cash;
    }
  }

  lemma CashReadOk(t: Tables, tx: Tx, now: nat)
    requires WellFormed(t) && TxOk(t, tx) && tx.stage.Reading? && tx.stage.row.side.Buy?
    ensures var m := AfterCashRead(t, tx, tx.stage.row); m.Goto? && StatementOk(t, tx, m.tx, now)
  {
  }

  lemma HoldingReadOk(t: Tables, tx: Tx, now: nat)
    requires WellFormed(t) && TxOk(t, tx) && tx.stage.Reading? && tx.stage.row.side.Sell?
    ensures StatementOk(t, tx, AfterHoldingRead(t, tx, tx.stage.row, now), now)
  {
  }

  lemma CreditingOk(t: Tables, tx: Tx, now: nat)
    requires WellFormed(t) && TxOk(t, tx) && tx.stage.Crediting?
    ensures var m := Settle(t, tx, now); m.Goto? && StatementOk(t, tx, m.tx, now)
  {
  }

  lemma PayingOk(t: Tables, tx: Tx, now: nat)
    requires WellFormed(t) && TxOk(t, tx) && tx.stage.Paying?
    ensures var m := Settle(t, tx, now); m.Goto? && StatementOk(t, tx, m.tx, now)
  {
    var row := tx.stage.row;
    ValuePositive(tx.action.price, row.quantity);
    CreditIsHalfUp(t.cash[row.user], tx.action.price * row.quantity);
  }

  // ------------------------------------------------------------ the whole system

  /** The entry a transaction that missed a row will leave. */
  function LateEntry(tx: Tx): Entry
    requires tx.missed.Some? && Ending(tx)
  {
    Entry(tx.missed.value, tx.action, tx.stage.reply, true)
  }

  /** A transaction that missed a row could have run in full at that read, and nothing that returned
   *  since touches what it will write. */
  predicate LateOk(t0: Tables, h: seq<Entry>, clock: nat, tx: Tx)
  {
    tx.missed.Some? && Ending(tx) ==>
      var at, past := tx.missed.value, RunHistory(t0, Before(h, tx.missed.value));
      && at < clock && NotAt(h, at)
      && PlanOf(past, tx.action) == Commit(tx.stage.writes, tx.stage.reply)
      && Faithful(past, LateEntry(tx))
      && (forall x <- h :: x.at > at ==> Apart(x, tx.stage.writes))
  }

  /** Of two that missed a row, the later one is apart from the writes of the earlier. */
  predicate PairOk(a: Tx, b: Tx)
  {
    a.missed.Some? && Ending(a) && b.missed.Some? && Ending(b) ==>
      && a.missed != b.missed
      && (a.missed.value < b.missed.value ==> Apart(LateEntry(b), a.stage.writes))
  }

  ghost predicate TxsOk(t0: Tables, t: Tables, h: seq<Entry>, clock: nat, txs: map<TxId, Tx>)
  {
    && (forall id <- txs :: TxOk(t, txs[id]) && LateOk(t0, h, clock, txs[id]))
    && (forall i, j :: i in txs && j in txs && i != j ==> Locks(txs[i]) !! Locks(txs[j]) && PairOk(txs[i], txs[j]))
  }

  predicate HistoryOk(t0: Tables, t: Tables, h: seq<Entry>, clock: nat)
  {
    Ordered(h, clock) && Replays(t0, h) && RunHistory(t0, h) == t && WellFormed(t0) && WellFormed(t)
  }

  ghost predicate Inv(t0: Tables, s: System)
  {
    && HistoryOk(t0, s.tables, s.history, s.clock)
    && TxsOk(t0, s.tables, s.history, s.clock, s.txs)
  }

  lemma NextKeepsInv(t0: Tables, s: System, l: Label)
    requires Inv(t0, s) && Enabled(s, l)
    ensures Inv(t0, Next(s, l))
  {
    match l
    case Begin(id, a) => BeginKeepsInv(t0, s, id, a);
    case Statement(id) =>
      AdvanceOk(s.tables, s.txs[id], s.clock);
      if Advance(s.tables, s.txs[id], s.clock).Goto? {
        GotoKeepsInv(t0, s, id);
      } else {
        ReturnKeepsInv(t0, s, id);
      }
    case CommitTx(id) =>
      if s.txs[id].missed.Some? {
        LateCommitKeepsInv(t0, s, id);
      } else {
        CommitKeepsInv(t0, s, id);
      }
    case Abort(id) =>
    case Auto(a) => AutoKeepsInv(t0, s, a);
  }

  lemma BeginKeepsInv(t0: Tables, s: System, id: TxId, a: Action)
    requires Inv(t0, s) && Enabled(s, Begin(id, a))
    ensures Inv(t0, Next(s, Begin(id, a)))
  {
    var tx := Tx(a, Begun, None);
    assert Locks(tx) == {};
    assert TxOk(s.tables, tx);
    var txs := s.txs[id := tx];
    forall i, j | i in txs && j in txs && i != j
      ensures Locks(txs[i]) !! Locks(txs[j]) && PairOk(txs[i], txs[j])
    {
    }
  }

  lemma BeforeEnd(h: seq<Entry>, clock: nat)
    requires Ordered(h, clock)
    ensures Before(h, clock) == h
  {
  }

  lemma GotoKeepsInv(t0: Tables, s: System, id: TxId)
    requires Inv(t0, s) && Enabled(s, Statement(id)) && Advance(s.tables, s.txs[id], s.clock).Goto?
    ensures Inv(t0, Next(s, Statement(id)))
  {
    var tx, tx' := s.txs[id], Advance(s.tables, s.txs[id], s.clock).tx;
    AdvanceOk(s.tables, tx, s.clock);
    GotoKeepsLate(t0, s, tx, tx');
    forall j | j in s.txs && j != id
      ensures Locks(tx') !! Locks(s.txs[j]) && PairOk(tx', s.txs[j]) && PairOk(s.txs[j], tx')
    {
      assert Locks(tx) !! Locks(s.txs[j]) && PairOk(tx, s.txs[j]) && PairOk(s.txs[j], tx);
      NewLateIsApart(t0, s, tx, tx', s.txs[j]);
    }
    OneReplaced(t0, s, Next(s, Statement(id)), id, tx');
  }

  /** Replacing one transaction by a sound one, apart from the others, keeps all of them sound. */
  lemma OneReplaced(t0: Tables, s: System, s': System, id: TxId, tx: Tx)
    requires TxsOk(t0, s.tables, s.history, s.clock, s.txs) && id in s.txs
    requires s'.tables == s.tables && s'.history == s.history && s'.clock == s.clock + 1 && s'.txs == s.txs[id := tx]
    requires TxOk(s.tables, tx) && LateOk(t0, s.history, s.clock + 1, tx)
    requires forall j <- s.txs :: j != id ==>
               Locks(tx) !! Locks(s.txs[j]) && PairOk(tx, s.txs[j]) && PairOk(s.txs[j], tx)
    ensures TxsOk(t0, s'.tables, s'.history, s'.clock, s'.txs)
  {
  }

  lemma GotoKeepsLate(t0: Tables, s: System, tx: Tx, tx': Tx)
    requires HistoryOk(t0, s.tables, s.history, s.clock)
    requires TxOk(s.tables, tx) && LateOk(t0, s.history, s.clock, tx) && StatementOk(s.tables, tx, tx', s.clock)
    ensures LateOk(t0, s.history, s.clock + 1, tx')
  {
    if tx'.missed.Some? && tx.missed.None? {
      BeforeEnd(s.history, s.clock);
      assert EndOk(s.tables, tx', Locks(tx'), tx'.stage.writes, tx'.stage.reply);
    }
  }

  /** A transaction that has just missed a row is apart from everything earlier ones will write. */
  lemma NewLateIsApart(t0: Tables, s: System, tx: Tx, tx': Tx, other: Tx)
    requires TxOk(s.tables, tx) && StatementOk(s.tables, tx, tx', s.clock)
    requires TxOk(s.tables, other) && LateOk(t0, s.history, s.clock, other)
    requires PairOk(tx, other) && PairOk(other, tx) && Locks(tx) !! Locks(other)
    requires var k := Wants(s.tables, tx); k.Some? ==> k.value !in Locks(other)
    ensures Locks(tx') !! Locks(other) && PairOk(tx', other) && PairOk(other, tx')
  {
    if tx'.missed.Some? && tx.missed.None? && other.missed.Some? {
      var a, w := tx.action, other.stage.writes;
      assert EndOk(s.tables, other, Locks(other), w, other.stage.reply);
      assert EndOk(s.tables, tx', Locks(tx'), tx'.stage.writes, tx'.stage.reply);
      assert EventKey(a.event) in Locks(tx');
      assert other.missed.value < s.clock;
      assert Apart(LateEntry(tx'), w);
    }
  }

  /** The tables, history and clock move on without disturbing an unfinished transaction. */
  ghost predicate Undisturbed(t0: Tables, s': System, tx: Tx)
  {
    TxOk(s'.tables, tx) && LateOk(t0, s'.history, s'.clock, tx)
  }

  /** Dropping one transaction and moving on without disturbing the others keeps them all sound. */
  lemma OthersStay(t0: Tables, s: System, s': System)
    requires TxsOk(t0, s.tables, s.history, s.clock, s.txs)
    requires s'.txs.Keys <= s.txs.Keys && forall id <- s'.txs :: s'.txs[id] == s.txs[id]
    requires forall id <- s'.txs :: Undisturbed(t0, s', s.txs[id])
    ensures TxsOk(t0, s'.tables, s'.history, s'.clock, s'.txs)
  {
  }

  /** An entry appended at the present does not disturb a transaction it is apart from. */
  lemma AppendKeepsLate(t0: Tables, h: seq<Entry>, clock: nat, e: Entry, tx: Tx)
    requires Ordered(h, clock) && e.at == clock && LateOk(t0, h, clock, tx)
    requires tx.missed.Some? && Ending(tx) ==> Apart(e, tx.stage.writes)
    ensures LateOk(t0, Insert(h, e), clock + 1, tx)
  {
    if tx.missed.Some? && Ending(tx) {
      BeforeInsert(h, e, tx.missed.value, clock);
    }
  }

  lemma ReturnKeepsLate(t0: Tables, s: System, a: Action, other: Tx)
    requires IsRequest(a) && a.event in s.tables.processed
    requires Ordered(s.history, s.clock) && TxOk(s.tables, other) && LateOk(t0, s.history, s.clock, other)
    ensures LateOk(t0, Insert(s.history, Entry(s.clock, a, IdleReply(a), false)), s.clock + 1, other)
  {
    if other.missed.Some? && Ending(other) {
      assert EndOk(s.tables, other, Locks(other), other.stage.writes, other.stage.reply);
    }
    AppendKeepsLate(t0, s.history, s.clock, Entry(s.clock, a, IdleReply(a), false), other);
  }

  lemma ReturnKeepsInv(t0: Tables, s: System, id: TxId)
    requires Inv(t0, s) && Enabled(s, Statement(id)) && Advance(s.tables, s.txs[id], s.clock).Return?
    ensures Inv(t0, Next(s, Statement(id)))
  {
    var s', a := Next(s, Statement(id)), s.txs[id].action;
    AdvanceOk(s.tables, s.txs[id], s.clock);
    var e := Entry(s.clock, a, IdleReply(a), false);
    AppendReplays(t0, s.history, e);
    InsertOrdered(s.history, e, s.clock + 1);
    forall other | other in s'.txs
      ensures Undisturbed(t0, s', s.txs[other])
    {
      ReturnKeepsLate(t0, s, a, s.txs[other]);
    }
    OthersStay(t0, s, s');
  }

  /** A transaction that holds these locks is apart from what another will write under its own. */
  lemma LockedIsApart(t: Tables, tx: Tx, other: Tx, at: nat)
    requires TxOk(t, tx) && TxOk(t, other) && Locks(tx) !! Locks(other)
    requires Ending(tx) && tx.missed.None? && other.missed.Some? && Ending(other)
    ensures Apart(Entry(at, tx.action, tx.stage.reply, true), other.stage.writes)
  {
    assert EndOk(t, tx, Locks(tx), tx.stage.writes, tx.stage.reply);
    assert EndOk(t, other, Locks(other), other.stage.writes, other.stage.reply);
  }

  /** A commit writes only what it has locked, so it disturbs nobody else. */
  lemma CommitKeepsTxOk(t: Tables, tx: Tx, other: Tx)
    requires TxOk(t, tx) && TxOk(t, other) && Locks(tx) !! Locks(other) && tx.stage.Ready?
    ensures TxOk(Effect(t, tx.stage.writes), other)
  {
    assert EndOk(t, tx, Locks(tx), tx.stage.writes, tx.stage.reply);
    WithinIsClear(tx.stage.writes, Locks(tx), Locks(other));
    OthersKeepTxOk(t, tx.stage.writes, other);
  }

  lemma CommitKeepsLate(t0: Tables, s: System, tx: Tx, other: Tx)
    requires TxOk(s.tables, tx) && TxOk(s.tables, other) && Locks(tx) !! Locks(other)
    requires tx.stage.Ready? && tx.missed.None?
    requires Ordered(s.history, s.clock) && LateOk(t0, s.history, s.clock, other)
    ensures LateOk(t0, Insert(s.history, EntryOf(s, tx)), s.clock + 1, other)
  {
    if other.missed.Some? {
      LockedIsApart(s.tables, tx, other, s.clock);
    }
    AppendKeepsLate(t0, s.history, s.clock, EntryOf(s, tx), other);
  }

  lemma CommitKeepsHistory(t0: Tables, s: System, tx: Tx)
    requires HistoryOk(t0, s.tables, s.history, s.clock)
    requires TxOk(s.tables, tx) && tx.stage.Ready? && tx.missed.None?
    ensures HistoryOk(t0, Effect(s.tables, tx.stage.writes), Insert(s.history, EntryOf(s, tx)), s.clock + 1)
  {
    var e := EntryOf(s, tx);
    assert EndOk(s.tables, tx, Locks(tx), tx.stage.writes, tx.stage.reply);
    AppendReplays(t0, s.history, e);
    InsertOrdered(s.history, e, s.clock + 1);
    ReplaysWellFormed(t0, Insert(s.history, e));
  }

  lemma CommitUndisturbs(t0: Tables, s: System, s': System, tx: Tx, other: Tx)
    requires TxOk(s.tables, tx) && TxOk(s.tables, other) && Locks(tx) !! Locks(other)
    requires tx.stage.Ready? && tx.missed.None?
    requires Ordered(s.history, s.clock) && LateOk(t0, s.history, s.clock, other)
    requires s'.tables == Effect(s.tables, tx.stage.writes)
    requires s'.history == Insert(s.history, EntryOf(s, tx)) && s'.clock == s.clock + 1
    ensures Undisturbed(t0, s', other)
  {
    CommitKeepsTxOk(s.tables, tx, other);
    CommitKeepsLate(t0, s, tx, other);
  }

  lemma CommitKeepsOthers(t0: Tables, s: System, s': System, id: TxId)
    requires TxsOk(t0, s.tables, s.history, s.clock, s.txs) && Ordered(s.history, s.clock)
    requires id in s.txs && s.txs[id].stage.Ready? && s.txs[id].missed.None?
    requires s'.tables == Effect(s.tables, s.txs[id].stage.writes) && s'.txs == s.txs - {id}
    requires s'.history == Insert(s.history, EntryOf(s, s.txs[id])) && s'.clock == s.clock + 1
    ensures TxsOk(t0, s'.tables, s'.history, s'.clock, s'.txs)
  {
    forall other | other in s'.txs
      ensures Undisturbed(t0, s', s.txs[other])
    {
      CommitUndisturbs(t0, s, s', s.txs[id], s.txs[other]);
    }
    OthersStay(t0, s, s');
  }

  lemma CommitKeepsInv(t0: Tables, s: System, id: TxId)
    requires Inv(t0, s) && Enabled(s, CommitTx(id)) && s.txs[id].missed.None?
    ensures Inv(t0, Next(s, CommitTx(id)))
  {
    CommitKeepsHistory(t0, s, s.txs[id]);
    CommitKeepsOthers(t0, s, Next(s, CommitTx(id)), id);
  }

  /** The past of a later reader gains only writes it is apart from. */
  lemma InsertKeepsPast(t0: Tables, s: System, tx: Tx, other: Tx)
    requires Ordered(s.history, s.clock) && Replays(t0, s.history)
    requires tx.missed.Some? && Ending(tx) && LateOk(t0, s.history, s.clock, tx) && Narrow(tx.stage.writes)
    requires other.missed.Some? && Ending(other) && LateOk(t0, s.history, s.clock, other)
    requires tx.missed.value < other.missed.value && Apart(LateEntry(other), tx.stage.writes)
    ensures var past := RunHistory(t0, Insert(Before(s.history, other.missed.value), LateEntry(tx)));
            && PlanOf(past, other.action) == Commit(other.stage.writes, other.stage.reply)
            && Faithful(past, LateEntry(other))
  {
    var h, at := s.history, other.missed.value;
    InsertBefore(t0, h, LateEntry(tx), tx.stage.writes, at, s.clock);
    PlanIgnores(RunHistory(t0, Before(h, at)), tx.stage.writes, LateEntry(other));
  }

  /** Putting a late entry in its place does not disturb the other late ones. */
  lemma InsertKeepsLate(t0: Tables, s: System, tx: Tx, other: Tx)
    requires Ordered(s.history, s.clock) && Replays(t0, s.history)
    requires tx.missed.Some? && Ending(tx) && LateOk(t0, s.history, s.clock, tx) && Narrow(tx.stage.writes)
    requires LateOk(t0, s.history, s.clock, other) && PairOk(tx, other) && PairOk(other, tx)
    ensures LateOk(t0, Insert(s.history, LateEntry(tx)), s.clock + 1, other)
  {
    if other.missed.Some? && Ending(other) {
      InsertOrdered(s.history, LateEntry(tx), s.clock);
      InsertNotAt(s.history, LateEntry(tx), other.missed.value, s.clock);
      BeforeInsert(s.history, LateEntry(tx), other.missed.value, s.clock);
      if tx.missed.value < other.missed.value {
        InsertKeepsPast(t0, s, tx, other);
      }
    }
  }

  /** The history before a later time gains exactly the late entry's writes. */
  lemma {:induction false} InsertBefore(t0: Tables, h: seq<Entry>, e: Entry, w: Writes, at: nat, clock: nat)
    requires Ordered(h, clock) && NotAt(h, e.at) && Replays(t0, h) && e.at < at
    requires Faithful(RunHistory(t0, Before(h, e.at)), e)
    requires PlanOf(RunHistory(t0, Before(h, e.at)), e.action) == Commit(w, e.reply) && Narrow(w)
    requires forall x <- h :: x.at > e.at ==> Apart(x, w)
    ensures RunHistory(t0, Insert(Before(h, at), e)) == Effect(RunHistory(t0, Before(h, at)), w)
  {
    var b := Before(h, at);
    BeforeOrdered(h, at, clock);
    ReplaysBefore(t0, h, at);
    BeforeBefore(h, e.at, at, clock);
    forall i | 0 <= i < |b|
      ensures b[i].at != e.at
    {
      assert b[i] in h;
    }
    InsertReplays(t0, b, e, w, clock);
  }

  lemma {:induction false} BeforeBefore(h: seq<Entry>, early: nat, late: nat, clock: nat)
    requires Ordered(h, clock) && early < late
    ensures Before(Before(h, late), early) == Before(h, early)
  {
    if h != [] && h[|h| - 1].at >= late {
      BeforeBefore(h[..|h| - 1], early, late, clock);
    }
  }

  lemma LateCommitKeepsHistory(t0: Tables, s: System, tx: Tx)
    requires HistoryOk(t0, s.tables, s.history, s.clock)
    requires TxOk(s.tables, tx) && tx.stage.Ready? && tx.missed.Some? && LateOk(t0, s.history, s.clock, tx)
    ensures Narrow(tx.stage.writes)
    ensures HistoryOk(t0, Effect(s.tables, tx.stage.writes), Insert(s.history, LateEntry(tx)), s.clock + 1)
  {
    var e := LateEntry(tx);
    assert EndOk(s.tables, tx, Locks(tx), tx.stage.writes, tx.stage.reply);
    InsertReplays(t0, s.history, e, tx.stage.writes, s.clock);
    InsertOrdered(s.history, e, s.clock);
    ReplaysWellFormed(t0, Insert(s.history, e));
  }

  lemma LateCommitKeepsInv(t0: Tables, s: System, id: TxId)
    requires Inv(t0, s) && Enabled(s, CommitTx(id)) && s.txs[id].missed.Some?
    ensures Inv(t0, Next(s, CommitTx(id)))
  {
    var s', tx := Next(s, CommitTx(id)), s.txs[id];
    assert EntryOf(s, tx) == LateEntry(tx);
    LateCommitKeepsHistory(t0, s, tx);
    forall other | other in s'.txs
      ensures Undisturbed(t0, s', s.txs[other])
    {
      CommitKeepsTxOk(s.tables, tx, s.txs[other]);
      InsertKeepsLate(t0, s, tx, s.txs[other]);
    }
    OthersStay(t0, s, s');
  }

  lemma {:induction false} ReplaysWellFormed(t0: Tables, h: seq<Entry>)
    requires WellFormed(t0) && Replays(t0, h)
    ensures WellFormed(RunHistory(t0, h)) && AdmissibleRun(t0, Actions(h))
  {
    if h != [] {
      var init, last := h[..|h| - 1], h[|h| - 1];
      ReplaysWellFormed(t0, init);
      ApplyKeepsWellFormed(RunHistory(t0, init), last.action);
      RunHistoryIsRun(t0, init);
      assert Actions(h)[..|Actions(h)| - 1] == Actions(init);
    }
  }

  /** An autocommitted insert writes nothing a transaction has locked. */
  lemma AutoIsClear(s: System, a: Action, tx: Tx)
    requires !IsRequest(a) && PlanOf(s.tables, a).Commit? && TxOk(s.tables, tx)
    requires a.SeedHolding? ==> DEMO_SLOT in s.tables.holdings || HoldingKey(DEMO_SLOT) !in Locks(tx)
    ensures Clear(Locks(tx), PlanOf(s.tables, a).writes)
    ensures tx.missed.Some? && Ending(tx) && (forall o <- tx.stage.writes.orders :: o in s.tables.orders) ==>
              Apart(Entry(s.clock, a, PlanOf(s.tables, a).reply, true), tx.stage.writes)
  {
  }

  lemma AutoUndisturbs(t0: Tables, s: System, s': System, a: Action, tx: Tx)
    requires !IsRequest(a) && PlanOf(s.tables, a).Commit? && TxOk(s.tables, tx)
    requires a.SeedHolding? ==> DEMO_SLOT in s.tables.holdings || HoldingKey(DEMO_SLOT) !in Locks(tx)
    requires Ordered(s.history, s.clock) && LateOk(t0, s.history, s.clock, tx)
    requires s'.tables == Apply(s.tables, a) && s'.clock == s.clock + 1
    requires s'.history == Insert(s.history, Entry(s.clock, a, PlanOf(s.tables, a).reply, true))
    ensures Undisturbed(t0, s', tx)
  {
    AutoIsClear(s, a, tx);
    OthersKeepTxOk(s.tables, PlanOf(s.tables, a).writes, tx);
    if Ending(tx) {
      assert EndOk(s.tables, tx, Locks(tx), tx.stage.writes, tx.stage.reply);
    }
    AppendKeepsLate(t0, s.history, s.clock, Entry(s.clock, a, PlanOf(s.tables, a).reply, true), tx);
  }

  lemma AutoKeepsHistory(t0: Tables, s: System, a: Action)
    requires HistoryOk(t0, s.tables, s.history, s.clock) && Admissible(s.tables, a) && PlanOf(s.tables, a).Commit? && !IsRequest(a)
    ensures HistoryOk(t0, Apply(s.tables, a), Insert(s.history, Entry(s.clock, a, PlanOf(s.tables, a).reply, true)), s.clock + 1)
  {
    var e := Entry(s.clock, a, PlanOf(s.tables, a).reply, true);
    assert Faithful(s.tables, e);
    AppendReplays(t0, s.history, e);
    InsertOrdered(s.history, e, s.clock + 1);
    ApplyKeepsWellFormed(s.tables, a);
  }

  lemma AutoKeepsInv(t0: Tables, s: System, a: Action)
    requires Inv(t0, s) && Enabled(s, Auto(a))
    ensures Inv(t0, Next(s, Auto(a)))
  {
    var s' := Next(s, Auto(a));
    AutoKeepsHistory(t0, s, a);
    forall id | id in s'.txs
      ensures Undisturbed(t0, s', s.txs[id])
    {
      AutoUndisturbs(t0, s, s', a, s.txs[id]);
    }
    OthersStay(t0, s, s');
  }

  // ------------------------------------------------------------ theorems

  lemma {:induction false} ExecInv(t0: Tables, labels: seq<Label>)
    requires WellFormed(t0) && Exec(Start(t0), labels).Some?
    ensures Inv(t0, Exec(Start(t0), labels).value)
  {
    if labels != [] {
      var init := labels[..|labels| - 1];
      ExecInv(t0, init);
      NextKeepsInv(t0, Exec(Start(t0), init).value, labels[|labels| - 1]);
    }
  }

  lemma ReachableInv(t0: Tables, s: System)
    requires WellFormed(t0) && Reachable(Start(t0), s)
    ensures Inv(t0, s)
  {
    var labels :| Exec(Start(t0), labels) == Some(s);
    ExecInv(t0, labels);
  }

  /** Any interleaving, with aborts anywhere, leaves the tables that its returned transactions leave
   *  when run one at a time in the order of their times, and each of them returned what it returns
   *  there. */
  lemma Serializable(t0: Tables, s: System)
    requires WellFormed(t0) && Reachable(Start(t0), s)
    ensures Ordered(s.history, s.clock)
    ensures s.tables == Run(t0, Actions(s.history))
    ensures forall i :: 0 <= i < |s.history| ==>
              PlanOf(Run(t0, Actions(s.history[..i])), s.history[i].action).reply == s.history[i].reply
    ensures AdmissibleRun(t0, Actions(s.history))
  {
    ReachableInv(t0, s);
    RunHistoryIsRun(t0, s.history);
    ReplaysWellFormed(t0, s.history);
    forall i | 0 <= i < |s.history|
      ensures PlanOf(Run(t0, Actions(s.history[..i])), s.history[i].action).reply == s.history[i].reply
    {
      ReplaysAt(t0, s.history, i);
      RunHistoryIsRun(t0, s.history[..i]);
    }
  }

  /** Where a commit puts its transaction: last, unless it missed a row, and then at that read. */
  lemma CommitPlaces(t0: Tables, s: System, id: TxId)
    requires WellFormed(t0) && Reachable(Start(t0), s) && id in s.txs && s.txs[id].stage.Ready?
    ensures var missed := s.txs[id].missed;
            var earlier := if missed.Some? then Before(s.history, missed.value) else s.history;
            && AllRequests(s) && Enabled(s, CommitTx(id))
            && earlier <= s.history
            && Next(s, CommitTx(id)).history == earlier + [EntryOf(s, s.txs[id])] + s.history[|earlier|..]
            && (forall x <- s.history[|earlier|..] :: missed.Some? && x.at > missed.value)
  {
    ReachableInv(t0, s);
    InsertSplits(s.history, EntryOf(s, s.txs[id]), s.clock);
    BeforeEnd(s.history, s.clock);
  }

  lemma {:induction false} InsertSplits(h: seq<Entry>, e: Entry, clock: nat)
    requires Ordered(h, clock) && NotAt(h, e.at)
    ensures var earlier := Before(h, e.at);
            && earlier <= h
            && Insert(h, e) == earlier + [e] + h[|earlier|..]
            && (forall x <- h[|earlier|..] :: x.at > e.at)
  {
    if h == [] || h[|h| - 1].at < e.at {
    } else {
      var init, last := h[..|h| - 1], h[|h| - 1];
      InsertSplits(init, e, clock);
      var earlier := Before(init, e.at);
      assert h[|earlier|..] == init[|earlier|..] + [last];
    }
  }

  lemma {:induction false} ReplaysAt(t0: Tables, h: seq<Entry>, i: nat)
    requires Replays(t0, h) && i < |h|
    ensures Faithful(RunHistory(t0, h[..i]), h[i])
  {
    if i < |h| - 1 {
      ReplaysAt(t0, h[..|h| - 1], i);
      assert h[..|h| - 1][..i] == h[..i];
    }
  }

  /** In no interleaving can a statement run into a missing portfolio or a CHECK. */
  lemma ChecksNeverFire(t0: Tables, s: System, id: TxId)
    requires WellFormed(t0) && Reachable(Start(t0), s) && id in s.txs && !s.txs[id].stage.Ready?
    ensures IsRequest(s.txs[id].action) && !Advance(s.tables, s.txs[id], s.clock).Fail?
  {
    ReachableInv(t0, s);
    AdvanceOk(s.tables, s.txs[id], s.clock);
  }

  /** In every committed state of every interleaving the balances are what the orders table says. */
  lemma InterleavingsBalance(t0: Tables, s: System, op: Balances.Opening)
    requires WellFormed(t0) && Reachable(Start(t0), s) && Balances.Balanced(Ledger.View(t0), op)
    ensures Balances.Balanced(Ledger.View(s.tables), Balances.OpeningRun(op, Ledger.Entries(t0, Actions(s.history))))
    ensures Seeded(t0) ==> Balances.Balanced(Ledger.View(s.tables), op)
  {
    Serializable(t0, s);
    Balances.BalancesOverRun(t0, op, Actions(s.history));
    if Seeded(t0) {
      Balances.SeededOpening(t0, op, Actions(s.history));
    }
  }

  /** Once the demo seed has completed, two interleavings that reach equal orders tables reach equal
   *  balances. */
  lemma InterleavingsAgree(t0: Tables, s: System, s': System, op: Balances.Opening)
    requires WellFormed(t0) && Seeded(t0) && Balances.Balanced(Ledger.View(t0), op)
    requires Reachable(Start(t0), s) && Reachable(Start(t0), s') && s.tables.orders == s'.tables.orders
    ensures Balances.SameBalances(s.tables, s'.tables)
  {
    InterleavingsBalance(t0, s, op);
    InterleavingsBalance(t0, s', op);
    Balances.BalancesFromOrders(s.tables, s'.tables, op);
  }
}
