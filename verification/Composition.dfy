/** The whole of it: the services' moves with Portfolio's transactions taken apart into their statements,
 *  interleaved with one another and with everything else. Its database, topics, sends and
 *  acknowledgements are those of a run of the saga, where each transaction is one step. */
module Composition {
  import opened Domain
  import opened Pricing
  import opened Transactions
  import opened Events
  import opened Saga
  import opened SagaProperties
  import opened Trace
  import I = Interleaving
  import S = Serial
  import Z = Serializability

  /** `msgs` tells which message each transaction in flight is handling. */
  datatype Whole = Whole(sys: I.System, world: World, msgs: map<I.TxId, nat>)

  datatype Step =
    | Moves(move: Move)               // any move of the saga but a transaction
    | Begins(id: I.TxId, msg: nat)    // a handler begins its transaction for a message
    | Runs(id: I.TxId)                // the transaction runs its next statement
    | Commits(id: I.TxId)
    | Aborts(id: I.TxId)

  /** A consumer is still at the message its transaction is for, so no commit passes it meanwhile. */
  predicate CanStep(e: Engine, x: Whole, s: Step)
    requires I.AllRequests(x.sys)
  {
    match s
    case Moves(m) =>
      && !m.Transacts? && Enabled(e, x.world, m)
      && (Committed(x.world, m).Some? ==> I.Enabled(x.sys, I.Auto(Committed(x.world, m).value)))
      && (m.Acks? || m.PassesOver? ==> forall id <- x.msgs :: x.msgs[id] != m.msg)
    case Begins(id, msg) =>
      && Open(x.world, msg) && ForPortfolio(x.world.log[msg].payload)
      && I.Enabled(x.sys, I.Begin(id, Request(x.world.log[msg])))
    case Runs(id) => id in x.msgs && I.Enabled(x.sys, I.Statement(id))
    case Commits(id) => id in x.msgs && I.Enabled(x.sys, I.CommitTx(id))
    case Aborts(id) => I.Enabled(x.sys, I.Abort(id))
  }

  /** A transaction has returned: its handler goes on to send the outcome, or is done. */
  function Finish(w: World, t: Tables, a: Action, msg: nat, reply: Reply): World
  {
    var outcome := OutcomeOf(reply);
    var w' := w.(db := t, history := w.history + [a]);
    if outcome.Some? then w'.(sending := w.sending[msg := outcome.value]) else w'.(handled := w.handled + {msg})
  }

  function StepTo(e: Engine, x: Whole, s: Step): Whole
    requires I.AllRequests(x.sys) && CanStep(e, x, s)
  {
    match s
    case Moves(m) =>
      var a := Committed(x.world, m);
      Whole(if a.Some? then I.Next(x.sys, I.Auto(a.value)) else x.sys.(clock := x.sys.clock + 1), Next(e, x.world, m), x.msgs)
    case Begins(id, msg) => Whole(I.Next(x.sys, I.Begin(id, Request(x.world.log[msg]))), x.world, x.msgs[id := msg])
    case Runs(id) =>
      var sys', a := I.Next(x.sys, I.Statement(id)), x.sys.txs[id].action;
      if id in sys'.txs then x.(sys := sys')
      else Whole(sys', Finish(x.world, x.world.db, a, x.msgs[id], I.IdleReply(a)), x.msgs - {id})
    case Commits(id) =>
      var sys', tx := I.Next(x.sys, I.CommitTx(id)), x.sys.txs[id];
      Whole(sys', Finish(x.world, sys'.tables, tx.action, x.msgs[id], tx.stage.reply), x.msgs - {id})
    case Aborts(id) => Whole(I.Next(x.sys, I.Abort(id)), x.world, x.msgs - {id})
  }

  function Beginning(t: Tables): Whole
  {
    Whole(I.Start(t), Start(t), map[])
  }

  function Go(e: Engine, t0: Tables, steps: seq<Step>): Option<Whole>
  {
    if steps == [] then Some(Beginning(t0))
    else
      var before, s := Go(e, t0, steps[..|steps| - 1]), steps[|steps| - 1];
      if before.Some? && I.AllRequests(before.value.sys) && CanStep(e, before.value, s)
      then Some(StepTo(e, before.value, s)) else None
  }

  // ------------------------------------------------------------ the invariant

  /** The trace plays to this world. */
  predicate Follows(e: Engine, t0: Tables, sys: I.System, w: World, trace: seq<Timed<Move>>)
  {
    && Past(trace, sys.clock) && Play(e, t0, trace).Some? && Alike(Play(e, t0, trace).value, w)
    && sys.tables == w.db
  }

  predicate Missing(tx: I.Tx)
  {
    tx.missed.Some? && Z.Ending(tx)
  }

  function MissOf(tx: I.Tx, msg: nat): Miss
    requires Missing(tx) && tx.stage.reply.Refused?
  {
    Miss(tx.missed.value, msg, tx.action, tx.stage.writes, OrderRejected(tx.stage.reply.reason, tx.stage.reply.detail))
  }

  /** A transaction that missed a row can be put back to the time of that read. */
  predicate MissTracked(e: Engine, t0: Tables, trace: seq<Timed<Move>>, tx: I.Tx, msg: nat)
  {
    Missing(tx) ==> tx.stage.reply.Refused? && Insertable(e, t0, trace, MissOf(tx, msg))
  }

  predicate At(w: World, tx: I.Tx, msg: nat)
  {
    Open(w, msg) && ForPortfolio(w.log[msg].payload) && tx.action == Request(w.log[msg])
  }

  predicate TxsTracked(e: Engine, t0: Tables, x: Whole, trace: seq<Timed<Move>>)
  {
    && x.msgs.Keys == x.sys.txs.Keys
    && (forall id <- x.sys.txs :: At(x.world, x.sys.txs[id], x.msgs[id]))
    && (forall id <- x.sys.txs :: MissTracked(e, t0, trace, x.sys.txs[id], x.msgs[id]))
  }

  predicate Tracked(e: Engine, t0: Tables, x: Whole, trace: seq<Timed<Move>>)
  {
    Follows(e, t0, x.sys, x.world, trace) && TxsTracked(e, t0, x, trace)
  }

  /** The world of a followed trace has the invariants of the saga, but for its history. */
  lemma Sound(e: Engine, t0: Tables, sys: I.System, w: World, trace: seq<Timed<Move>>)
    requires e.Valid() && FreshDatabase(t0) && Follows(e, t0, sys, w, trace)
    ensures Inv(e, t0, Play(e, t0, trace).value) && Truthful(e, w) && WellFormed(w.db)
  {
    PlayReaches(e, t0, trace);
    ReachableInv(e, t0, Play(e, t0, trace).value);
  }

  // ------------------------------------------------------------ what Serializability says

  lemma MissedBefore(t0: Tables, sys: I.System, id: I.TxId)
    requires Z.Inv(t0, sys) && id in sys.txs && Missing(sys.txs[id])
    ensures sys.txs[id].missed.value < sys.clock
  {
    assert Z.LateOk(t0, sys.history, sys.clock, sys.txs[id]);
  }

  /** The transaction of a move, if any, is in the history as it ran. */
  predicate Recorded(sys': I.System, w: World, m: Move, clock: nat)
  {
    var a := Committed(w, m);
    a.Some? ==> S.Faithful(w.db, EntryAt(clock, w.db, a.value)) && EntryAt(clock, w.db, a.value) in sys'.history
  }

  /** A transaction that missed a row is apart from all that returned since. */
  lemma RecordedBeside(e: Engine, t0: Tables, sys': I.System, w: World, move: Move, clock: nat, id: I.TxId, m: Miss)
    requires Z.Inv(t0, sys') && Enabled(e, w, move) && Recorded(sys', w, move, clock) && id in sys'.txs && Missing(sys'.txs[id])
    requires sys'.txs[id].missed.value == m.at < clock && sys'.txs[id].stage.writes == m.writes
    ensures Beside(e, w, move, m)
  {
    if Committed(w, move).Some? {
      EntryApart(t0, sys', EntryAt(clock, w.db, Committed(w, move).value), sys'.txs[id]);
    }
  }

  lemma EntryApart(t0: Tables, sys': I.System, y: I.Entry, tx: I.Tx)
    requires Z.LateOk(t0, sys'.history, sys'.clock, tx) && Missing(tx) && y in sys'.history && y.at > tx.missed.value
    ensures S.Apart(y, tx.stage.writes)
  {
  }

  lemma MissesPaired(t0: Tables, sys: I.System, id: I.TxId, other: I.TxId, msg: nat, otherMsg: nat)
    requires Z.Inv(t0, sys) && I.AllRequests(sys) && id in sys.txs && other in sys.txs && id != other
    requires Missing(sys.txs[id]) && sys.txs[id].stage.reply.Refused?
    requires Missing(sys.txs[other]) && sys.txs[other].stage.reply.Refused?
    ensures Paired(MissOf(sys.txs[id], msg), MissOf(sys.txs[other], otherMsg))
  {
    assert Z.PairOk(sys.txs[id], sys.txs[other]) && Z.PairOk(sys.txs[other], sys.txs[id]);
  }

  /** What a transaction that missed a row writes is its event and its order. */
  lemma MissNarrow(t0: Tables, sys: I.System, id: I.TxId)
    requires Z.Inv(t0, sys) && id in sys.txs && Missing(sys.txs[id])
    ensures S.Narrow(sys.txs[id].stage.writes)
  {
    var tx := sys.txs[id];
    assert Z.TxOk(sys.tables, tx);
    assert Z.EndOk(sys.tables, tx, I.Locks(tx), tx.stage.writes, tx.stage.reply);
  }

  /** A transaction that is ready, and missed no row, has carried out the plan for the present tables. */
  lemma ReadyPlan(t0: Tables, sys: I.System, id: I.TxId)
    requires Z.Inv(t0, sys) && id in sys.txs && sys.txs[id].stage.Ready? && sys.txs[id].missed.None?
    ensures PlanOf(sys.tables, sys.txs[id].action) == Commit(sys.txs[id].stage.writes, sys.txs[id].stage.reply)
    ensures !sys.txs[id].stage.reply.Failed?
  {
    var tx := sys.txs[id];
    assert Z.TxOk(sys.tables, tx);
    assert Z.EndOk(sys.tables, tx, I.Locks(tx), tx.stage.writes, tx.stage.reply);
  }

  lemma DuplicatePlan(t: Tables, a: Action)
    requires IsRequest(a) && a.event in t.processed
    ensures PlanOf(t, a) == Rollback(I.IdleReply(a))
  {
  }

  /** Nothing disturbs the transactions when time goes on and some of them are aborted. */
  lemma CutKeepsInv(t0: Tables, s: I.System, gone: set<I.TxId>)
    requires Z.Inv(t0, s)
    ensures Z.Inv(t0, s.(clock := s.clock + 1, txs := s.txs - gone))
  {
    var s' := s.(clock := s.clock + 1, txs := s.txs - gone);
    forall id | id in s'.txs
      ensures Z.Undisturbed(t0, s', s.txs[id])
    {
      assert Z.TxOk(s.tables, s.txs[id]) && Z.LateOk(t0, s.history, s.clock, s.txs[id]);
    }
    Z.OthersStay(t0, s, s');
  }

  /** An entry of the present goes last. */
  lemma InsertNow(h: seq<I.Entry>, y: I.Entry, clock: nat)
    requires S.Ordered(h, clock) && y.at == clock
    ensures I.Insert(h, y) == h + [y]
  {
  }

  // ------------------------------------------------------------ what happens now comes last

  lemma FollowsMore(e: Engine, t0: Tables, sys: I.System, w: World, trace: seq<Timed<Move>>, m: Move)
    requires Follows(e, t0, sys, w, trace) && Enabled(e, w, m)
    ensures var trace' := trace + [Timed(sys.clock, m)];
            && Past(trace', sys.clock + 1) && Play(e, t0, trace').Some? && Alike(Play(e, t0, trace').value, Next(e, w, m))
  {
    AlikeNext(e, w, Play(e, t0, trace).value, m);
    PlaySnoc(e, t0, trace, Timed(sys.clock, m));
  }

  /** A late transaction can still be put back when something beside it happens. */
  lemma MissMore(e: Engine, t0: Tables, sys: I.System, w: World, trace: seq<Timed<Move>>, move: Move, m: Miss)
    requires Follows(e, t0, sys, w, trace) && Beside(e, w, move, m) && m.at < sys.clock && Insertable(e, t0, trace, m)
    ensures Insertable(e, t0, trace + [Timed(sys.clock, move)], m)
  {
    AlikeNext(e, w, Play(e, t0, trace).value, move);
    InsertableMore(e, t0, trace, Timed(sys.clock, move), m);
  }

  /** The transactions that go on are for messages still open. */
  ghost predicate GoOn(x: Whole, x': Whole)
  {
    && x'.msgs.Keys == x'.sys.txs.Keys <= x.sys.txs.Keys <= x.msgs.Keys
    && (forall id <- x'.sys.txs :: x'.sys.txs[id] == x.sys.txs[id] && x'.msgs[id] == x.msgs[id])
    && (forall id <- x'.msgs :: x'.msgs[id] !in x'.world.acked)
  }

  /** The platform moves on by a move of the present. */
  ghost predicate MovesOn(e: Engine, t0: Tables, x: Whole, x': Whole, m: Move)
  {
    && Enabled(e, x.world, m) && x'.world == Next(e, x.world, m)
    && Z.Inv(t0, x.sys) && Z.Inv(t0, x'.sys) && x'.sys.clock == x.sys.clock + 1 && x'.sys.tables == x'.world.db
    && Recorded(x'.sys, x.world, m, x.sys.clock)
    && GoOn(x, x')
  }

  lemma MissTrackedOn(e: Engine, t0: Tables, x: Whole, x': Whole, trace: seq<Timed<Move>>, m: Move, id: I.TxId)
    requires Follows(e, t0, x.sys, x.world, trace) && MovesOn(e, t0, x, x', m) && id in x'.sys.txs
    requires MissTracked(e, t0, trace, x.sys.txs[id], x.msgs[id])
    ensures MissTracked(e, t0, trace + [Timed(x.sys.clock, m)], x'.sys.txs[id], x'.msgs[id])
  {
    if Missing(x.sys.txs[id]) {
      var miss := MissOf(x.sys.txs[id], x.msgs[id]);
      MissedBefore(t0, x.sys, id);
      RecordedBeside(e, t0, x'.sys, x.world, m, x.sys.clock, id, miss);
      MissMore(e, t0, x.sys, x.world, trace, m, miss);
    }
  }

  lemma PresentTracked(e: Engine, t0: Tables, x: Whole, x': Whole, trace: seq<Timed<Move>>, m: Move)
    requires Tracked(e, t0, x, trace) && MovesOn(e, t0, x, x', m)
    ensures Tracked(e, t0, x', trace + [Timed(x.sys.clock, m)])
  {
    FollowsMore(e, t0, x.sys, x.world, trace, m);
    LogGrows(e, x.world, m);
    forall id | id in x'.sys.txs
      ensures At(x'.world, x'.sys.txs[id], x'.msgs[id])
      ensures MissTracked(e, t0, trace + [Timed(x.sys.clock, m)], x'.sys.txs[id], x'.msgs[id])
    {
      assert At(x.world, x.sys.txs[id], x.msgs[id]);
      MissTrackedOn(e, t0, x, x', trace, m, id);
    }
  }

  // ------------------------------------------------------------ moves of the saga

  lemma AckedByMove(e: Engine, w: World, m: Move)
    requires Enabled(e, w, m)
    ensures forall i <- Next(e, w, m).acked :: i in w.acked || ((m.Acks? || m.PassesOver?) && i == m.msg)
  {
  }

  lemma InsertRecorded(t0: Tables, sys: I.System, w: World, m: Move)
    requires Z.Inv(t0, sys) && I.AllRequests(sys) && sys.tables == w.db
    requires Committed(w, m).Some? && I.Enabled(sys, I.Auto(Committed(w, m).value))
    ensures Recorded(I.Next(sys, I.Auto(Committed(w, m).value)), w, m, sys.clock)
  {
    InsertNow(sys.history, EntryAt(sys.clock, sys.tables, Committed(w, m).value), sys.clock);
  }

  lemma SystemKept(e: Engine, t0: Tables, x: Whole, m: Move)
    requires Z.Inv(t0, x.sys) && I.AllRequests(x.sys) && CanStep(e, x, Moves(m)) && x.sys.tables == x.world.db
    ensures Z.Inv(t0, StepTo(e, x, Moves(m)).sys) && Recorded(StepTo(e, x, Moves(m)).sys, x.world, m, x.sys.clock)
  {
    if Committed(x.world, m).Some? {
      Z.NextKeepsInv(t0, x.sys, I.Auto(Committed(x.world, m).value));
      InsertRecorded(t0, x.sys, x.world, m);
    } else {
      CutKeepsInv(t0, x.sys, {});
      assert x.sys.txs - {} == x.sys.txs;
    }
  }

  lemma MovesGoOn(e: Engine, t0: Tables, x: Whole, trace: seq<Timed<Move>>, m: Move)
    requires TxsTracked(e, t0, x, trace) && I.AllRequests(x.sys) && CanStep(e, x, Moves(m))
    ensures GoOn(x, StepTo(e, x, Moves(m)))
  {
    AckedByMove(e, x.world, m);
    forall id | id in x.msgs
      ensures x.msgs[id] !in Next(e, x.world, m).acked
    {
      assert At(x.world, x.sys.txs[id], x.msgs[id]);
    }
  }

  lemma MoveTracked(e: Engine, t0: Tables, x: Whole, trace: seq<Timed<Move>>, m: Move)
    requires Tracked(e, t0, x, trace) && Z.Inv(t0, x.sys) && I.AllRequests(x.sys) && CanStep(e, x, Moves(m))
    ensures Tracked(e, t0, StepTo(e, x, Moves(m)), trace + [Timed(x.sys.clock, m)])
  {
    SystemKept(e, t0, x, m);
    MovesGoOn(e, t0, x, trace, m);
    MoveDb(e, x.world, m);
    PresentTracked(e, t0, x, StepTo(e, x, Moves(m)), trace, m);
  }

  // ------------------------------------------------------------ returns and commits

  /** What a message asks for is in order in every world of the saga. */
  lemma RequestInOrder(e: Engine, w: World, msg: nat)
    requires Truthful(e, w) && WellFormed(w.db) && msg < |w.log| && ForPortfolio(w.log[msg].payload)
    ensures IsRequest(Request(w.log[msg])) && Admissible(w.db, Request(w.log[msg])) && !PlanOf(w.db, Request(w.log[msg])).reply.Failed?
    ensures Request(w.log[msg]).order in w.db.orders
  {
    assert TrueIn(e, w.db, w.log[msg].order, w.log[msg].payload);
    RequestSettles(e, w.db, w.log[msg]);
  }

  /** The history has gained the present transaction for a message. */
  lemma EntryRecorded(e: Engine, sys: I.System, sys': I.System, w: World, msg: nat)
    requires Truthful(e, w) && WellFormed(w.db) && msg < |w.log| && ForPortfolio(w.log[msg].payload)
    requires S.Ordered(sys.history, sys.clock)
    requires sys'.history == I.Insert(sys.history, EntryAt(sys.clock, w.db, Request(w.log[msg])))
    ensures Recorded(sys', w, Transacts(msg), sys.clock)
  {
    RequestInOrder(e, w, msg);
    InsertNow(sys.history, EntryAt(sys.clock, w.db, Request(w.log[msg])), sys.clock);
  }

  /** What a handler's transaction, returning a reply, does to the world. */
  predicate Finishes(e: Engine, w: World, msg: nat, t: Tables, reply: Reply)
  {
    && Open(w, msg) && ForPortfolio(w.log[msg].payload) && Enabled(e, w, Transacts(msg))
    && Next(e, w, Transacts(msg)) == Finish(w, t, Request(w.log[msg]), msg, reply)
    && PlanOf(w.db, Request(w.log[msg])).reply == reply
  }

  /** Handling a duplicate is the saga's move of the present. */
  lemma DuplicateFinishes(e: Engine, w: World, msg: nat)
    requires Open(w, msg) && ForPortfolio(w.log[msg].payload) && w.log[msg].event in w.db.processed
    ensures Finishes(e, w, msg, w.db, I.IdleReply(Request(w.log[msg])))
  {
  }

  /** A transaction that missed no row is, when it commits, the saga's move of the present. */
  lemma CommitFinishes(e: Engine, w: World, msg: nat, writes: Writes, reply: Reply)
    requires Open(w, msg) && ForPortfolio(w.log[msg].payload) && !reply.Failed?
    requires PlanOf(w.db, Request(w.log[msg])) == Commit(writes, reply)
    ensures Finishes(e, w, msg, Effect(w.db, writes), reply)
  {
  }

  /** What the end of a transaction does to the system. */
  ghost predicate Ends(t0: Tables, sys: I.System, sys': I.System, id: I.TxId, a: Action)
  {
    && Z.Inv(t0, sys) && Z.Inv(t0, sys') && sys'.clock == sys.clock + 1
    && sys'.txs == sys.txs - {id} && sys'.history == I.Insert(sys.history, EntryAt(sys.clock, sys.tables, a))
  }

  /** A transaction returns because its event is in the ledger already. */
  ghost predicate ReturnsNow(t0: Tables, sys: I.System, sys': I.System, id: I.TxId, a: Action)
  {
    IsRequest(a) && Ends(t0, sys, sys', id, a) && sys'.tables == sys.tables && a.event in sys.tables.processed
  }

  lemma ReturnEnds(t0: Tables, sys: I.System, id: I.TxId)
    requires Z.Inv(t0, sys) && I.AllRequests(sys) && I.Enabled(sys, I.Statement(id))
    requires I.Advance(sys.tables, sys.txs[id], sys.clock).Return?
    ensures ReturnsNow(t0, sys, I.Next(sys, I.Statement(id)), id, sys.txs[id].action)
  {
    Z.AdvanceOk(sys.tables, sys.txs[id], sys.clock);
    Z.NextKeepsInv(t0, sys, I.Statement(id));
    DuplicatePlan(sys.tables, sys.txs[id].action);
  }

  /** A transaction commits that missed no row, having carried out the plan for the present tables. */
  ghost predicate CommitsNow(t0: Tables, sys: I.System, sys': I.System, id: I.TxId, a: Action, writes: Writes, reply: Reply)
  {
    && Ends(t0, sys, sys', id, a) && sys'.tables == Effect(sys.tables, writes)
    && PlanOf(sys.tables, a) == Commit(writes, reply) && !reply.Failed?
  }

  lemma CommitEnds(t0: Tables, sys: I.System, id: I.TxId)
    requires Z.Inv(t0, sys) && I.AllRequests(sys) && I.Enabled(sys, I.CommitTx(id)) && sys.txs[id].missed.None?
    ensures var tx := sys.txs[id];
            CommitsNow(t0, sys, I.Next(sys, I.CommitTx(id)), id, tx.action, tx.stage.writes, tx.stage.reply)
  {
    Z.NextKeepsInv(t0, sys, I.CommitTx(id));
    ReadyPlan(t0, sys, id);
  }

  lemma OthersGoOn(e: Engine, t0: Tables, x: Whole, x': Whole, trace: seq<Timed<Move>>, id: I.TxId)
    requires TxsTracked(e, t0, x, trace) && x'.msgs == x.msgs - {id} && x'.sys.txs == x.sys.txs - {id}
    requires x'.world.acked == x.world.acked
    ensures GoOn(x, x')
  {
    forall other | other in x'.msgs
      ensures x.msgs[other] !in x.world.acked
    {
      assert At(x.world, x.sys.txs[other], x.msgs[other]);
    }
  }

  /** Finishing a transaction now is the saga's move of the present. */
  lemma FinishTracked(e: Engine, t0: Tables, x: Whole, x': Whole, trace: seq<Timed<Move>>, id: I.TxId, reply: Reply)
    requires e.Valid() && FreshDatabase(t0) && Tracked(e, t0, x, trace) && id in x.sys.txs
    requires Ends(t0, x.sys, x'.sys, id, x.sys.txs[id].action) && x'.msgs == x.msgs - {id}
    requires Finishes(e, x.world, x.msgs[id], x'.sys.tables, reply)
    requires x'.world == Finish(x.world, x'.sys.tables, x.sys.txs[id].action, x.msgs[id], reply)
    ensures Tracked(e, t0, x', trace + [Timed(x.sys.clock, Transacts(x.msgs[id]))])
  {
    assert At(x.world, x.sys.txs[id], x.msgs[id]);
    Sound(e, t0, x.sys, x.world, trace);
    EntryRecorded(e, x.sys, x'.sys, x.world, x.msgs[id]);
    OthersGoOn(e, t0, x, x', trace, id);
    PresentTracked(e, t0, x, x', trace, Transacts(x.msgs[id]));
  }

  lemma ReturnTracked(e: Engine, t0: Tables, x: Whole, x': Whole, trace: seq<Timed<Move>>, id: I.TxId, a: Action)
    requires e.Valid() && FreshDatabase(t0) && Tracked(e, t0, x, trace) && id in x.sys.txs && a == x.sys.txs[id].action
    requires ReturnsNow(t0, x.sys, x'.sys, id, a) && x'.msgs == x.msgs - {id}
    requires x'.world == Finish(x.world, x.world.db, a, x.msgs[id], I.IdleReply(a))
    ensures Tracked(e, t0, x', trace + [Timed(x.sys.clock, Transacts(x.msgs[id]))])
  {
    assert At(x.world, x.sys.txs[id], x.msgs[id]);
    DuplicateFinishes(e, x.world, x.msgs[id]);
    FinishTracked(e, t0, x, x', trace, id, I.IdleReply(a));
  }

  lemma CommitTracked(e: Engine, t0: Tables, x: Whole, x': Whole, trace: seq<Timed<Move>>, id: I.TxId, writes: Writes, reply: Reply)
    requires e.Valid() && FreshDatabase(t0) && Tracked(e, t0, x, trace) && id in x.sys.txs
    requires CommitsNow(t0, x.sys, x'.sys, id, x.sys.txs[id].action, writes, reply) && x'.msgs == x.msgs - {id}
    requires x'.world == Finish(x.world, x'.sys.tables, x.sys.txs[id].action, x.msgs[id], reply)
    ensures Tracked(e, t0, x', trace + [Timed(x.sys.clock, Transacts(x.msgs[id]))])
  {
    assert At(x.world, x.sys.txs[id], x.msgs[id]);
    CommitFinishes(e, x.world, x.msgs[id], writes, reply);
    FinishTracked(e, t0, x, x', trace, id, reply);
  }

  // ------------------------------------------------------------ late commits

  /** A refusal that commits late leaves the world of its late move. */
  lemma FinishIsLate(w: World, tx: I.Tx, msg: nat, a: Action)
    requires Missing(tx) && tx.stage.reply.Refused?
    ensures Alike(Late(w, MissOf(tx, msg)), Finish(w, Effect(w.db, tx.stage.writes), a, msg, tx.stage.reply))
  {
  }

  lemma LateFollows(e: Engine, t0: Tables, sys: I.System, w: World, w': World, trace: seq<Timed<Move>>, m: Miss)
    requires Follows(e, t0, sys, w, trace) && Insertable(e, t0, trace, m) && m.at < sys.clock && Alike(Late(w, m), w')
    ensures var trace' := Put(trace, MoveOf(m));
            && Past(trace', sys.clock + 1) && Play(e, t0, trace').Some? && Alike(Play(e, t0, trace').value, w')
  {
    PutPlaces(e, t0, trace, m);
    PutPast(trace, MoveOf(m), sys.clock);
    assert Alike(Late(Play(e, t0, trace).value, m), Late(w, m));
  }

  /** A transaction commits that missed a row. */
  predicate CommitsLate(sys: I.System, sys': I.System, id: I.TxId)
  {
    && id in sys.txs && Missing(sys.txs[id]) && sys.txs[id].stage.reply.Refused?
    && sys'.clock == sys.clock + 1 && sys'.tables == Effect(sys.tables, sys.txs[id].stage.writes) && sys'.txs == sys.txs - {id}
  }

  lemma LateEnds(sys: I.System, id: I.TxId)
    requires I.AllRequests(sys) && I.Enabled(sys, I.CommitTx(id)) && sys.txs[id].missed.Some? && sys.txs[id].stage.reply.Refused?
    ensures CommitsLate(sys, I.Next(sys, I.CommitTx(id)), id)
  {
  }

  lemma OtherMissTracked(e: Engine, t0: Tables, x: Whole, trace: seq<Timed<Move>>, id: I.TxId, other: I.TxId)
    requires TxsTracked(e, t0, x, trace) && Z.Inv(t0, x.sys) && I.AllRequests(x.sys)
    requires id in x.sys.txs && other in x.sys.txs && id != other && Missing(x.sys.txs[id]) && x.sys.txs[id].stage.reply.Refused?
    ensures MissTracked(e, t0, Put(trace, MoveOf(MissOf(x.sys.txs[id], x.msgs[id]))), x.sys.txs[other], x.msgs[other])
  {
    assert MissTracked(e, t0, trace, x.sys.txs[id], x.msgs[id]);
    assert MissTracked(e, t0, trace, x.sys.txs[other], x.msgs[other]);
    if Missing(x.sys.txs[other]) {
      MissesPaired(t0, x.sys, id, other, x.msgs[id], x.msgs[other]);
      OtherInsertable(e, t0, trace, MissOf(x.sys.txs[id], x.msgs[id]), MissOf(x.sys.txs[other], x.msgs[other]));
    }
  }

  lemma LateOthers(e: Engine, t0: Tables, x: Whole, x': Whole, trace: seq<Timed<Move>>, id: I.TxId)
    requires TxsTracked(e, t0, x, trace) && Z.Inv(t0, x.sys) && I.AllRequests(x.sys) && CommitsLate(x.sys, x'.sys, id)
    requires x'.msgs == x.msgs - {id} && x'.world.log == x.world.log && x'.world.acked == x.world.acked
    ensures TxsTracked(e, t0, x', Put(trace, MoveOf(MissOf(x.sys.txs[id], x.msgs[id]))))
  {
    var m := MissOf(x.sys.txs[id], x.msgs[id]);
    forall other | other in x'.sys.txs
      ensures At(x'.world, x'.sys.txs[other], x'.msgs[other])
      ensures MissTracked(e, t0, Put(trace, MoveOf(m)), x'.sys.txs[other], x'.msgs[other])
    {
      assert At(x.world, x.sys.txs[other], x.msgs[other]);
      OtherMissTracked(e, t0, x, trace, id, other);
    }
  }

  /** Such a commit is the saga's move of the time at which the row was missed. */
  lemma LateTracked(e: Engine, t0: Tables, x: Whole, x': Whole, trace: seq<Timed<Move>>, id: I.TxId)
    requires Tracked(e, t0, x, trace) && Z.Inv(t0, x.sys) && I.AllRequests(x.sys) && CommitsLate(x.sys, x'.sys, id)
    requires x'.msgs == x.msgs - {id}
    requires x'.world == Finish(x.world, x'.sys.tables, x.sys.txs[id].action, x.msgs[id], x.sys.txs[id].stage.reply)
    ensures Tracked(e, t0, x', Put(trace, MoveOf(MissOf(x.sys.txs[id], x.msgs[id]))))
  {
    var tx, m := x.sys.txs[id], MissOf(x.sys.txs[id], x.msgs[id]);
    assert MissTracked(e, t0, trace, tx, x.msgs[id]);
    MissedBefore(t0, x.sys, id);
    FinishIsLate(x.world, tx, x.msgs[id], tx.action);
    LateFollows(e, t0, x.sys, x.world, x'.world, trace, m);
    LateOthers(e, t0, x, x', trace, id);
  }

  // ------------------------------------------------------------ statements

  /** One transaction is new, or has gone on. */
  predicate OneSet(x: Whole, x': Whole, id: I.TxId, tx: I.Tx, msg: nat)
  {
    && x'.world == x.world && x'.sys.tables == x.sys.tables && x'.sys.clock == x.sys.clock + 1
    && x'.sys.txs == x.sys.txs[id := tx] && x'.msgs == x.msgs[id := msg]
  }

  lemma OneTracked(e: Engine, t0: Tables, x: Whole, x': Whole, trace: seq<Timed<Move>>, id: I.TxId, tx: I.Tx, msg: nat)
    requires Tracked(e, t0, x, trace) && OneSet(x, x', id, tx, msg) && At(x.world, tx, msg) && MissTracked(e, t0, trace, tx, msg)
    ensures Tracked(e, t0, x', trace)
  {
    forall other | other in x'.sys.txs
      ensures At(x.world, x'.sys.txs[other], x'.msgs[other]) && MissTracked(e, t0, trace, x'.sys.txs[other], x'.msgs[other])
    {
      assert other != id ==> At(x.world, x.sys.txs[other], x.msgs[other]) && MissTracked(e, t0, trace, x.sys.txs[other], x.msgs[other]);
    }
  }

  lemma BeginTracked(e: Engine, t0: Tables, x: Whole, trace: seq<Timed<Move>>, id: I.TxId, msg: nat)
    requires Tracked(e, t0, x, trace) && I.AllRequests(x.sys) && CanStep(e, x, Begins(id, msg))
    ensures Tracked(e, t0, StepTo(e, x, Begins(id, msg)), trace)
  {
    OneTracked(e, t0, x, StepTo(e, x, Begins(id, msg)), trace, id, I.Tx(Request(x.world.log[msg]), I.Begun, None), msg);
  }

  lemma FewerTracked(e: Engine, t0: Tables, x: Whole, x': Whole, trace: seq<Timed<Move>>, id: I.TxId)
    requires Tracked(e, t0, x, trace) && x'.world == x.world && x'.sys.tables == x.sys.tables && x'.sys.clock == x.sys.clock + 1
    requires x'.sys.txs == x.sys.txs - {id} && x'.msgs == x.msgs - {id}
    ensures Tracked(e, t0, x', trace)
  {
  }

  lemma AbortTracked(e: Engine, t0: Tables, x: Whole, trace: seq<Timed<Move>>, id: I.TxId)
    requires Tracked(e, t0, x, trace) && I.AllRequests(x.sys) && CanStep(e, x, Aborts(id))
    ensures Tracked(e, t0, StepTo(e, x, Aborts(id)), trace)
  {
    FewerTracked(e, t0, x, StepTo(e, x, Aborts(id)), trace, id);
  }

  /** In the saga every order that a quote is about exists, so the only row a transaction can miss is a
   *  holding, and then it refuses. */
  lemma MissRefuses(t: Tables, tx: I.Tx, now: nat)
    requires IsRequest(tx.action) && tx.action.order in t.orders && !tx.stage.Ready? && tx.missed.None?
    requires I.Advance(t, tx, now).Goto? && I.Advance(t, tx, now).tx.missed.Some?
    ensures Z.Ending(I.Advance(t, tx, now).tx) && I.Advance(t, tx, now).tx.stage.reply.Refused?
  {
  }

  /** What a statement does to a transaction and its read that found no row. */
  predicate Reads(t: Tables, tx: I.Tx, tx': I.Tx, now: nat)
  {
    && IsRequest(tx.action) && !tx.stage.Ready? && I.Advance(t, tx, now) == I.Goto(tx')
    && tx'.action == tx.action && (tx'.missed == tx.missed || (tx.missed.None? && tx'.missed == Some(now)))
    && (Missing(tx') && tx.missed.Some? ==>
          Z.Ending(tx) && tx'.stage.writes == tx.stage.writes && tx'.stage.reply == tx.stage.reply)
    && (Missing(tx') ==> S.Narrow(tx'.stage.writes))
    && (Missing(tx') && tx.missed.None? ==> PlanOf(t, tx.action) == Commit(tx'.stage.writes, tx'.stage.reply))
  }

  lemma StatementReads(t0: Tables, sys: I.System, id: I.TxId)
    requires Z.Inv(t0, sys) && I.AllRequests(sys) && I.Enabled(sys, I.Statement(id))
    requires I.Advance(sys.tables, sys.txs[id], sys.clock).Goto?
    ensures Reads(sys.tables, sys.txs[id], I.Advance(sys.tables, sys.txs[id], sys.clock).tx, sys.clock)
  {
    Z.AdvanceOk(sys.tables, sys.txs[id], sys.clock);
    Z.NextKeepsInv(t0, sys, I.Statement(id));
    if Missing(I.Advance(sys.tables, sys.txs[id], sys.clock).tx) {
      MissNarrow(t0, I.Next(sys, I.Statement(id)), id);
    }
  }

  /** Where a refusal could have run, it writes its event and its order only. */
  lemma RefusalRipe(e: Engine, t0: Tables, w: World, tx: I.Tx, msg: nat)
    requires Inv(e, t0, w) && Enabled(e, w, Transacts(msg)) && Missing(tx) && tx.stage.reply.Refused?
    requires tx.action == Request(w.log[msg]) && PlanOf(w.db, tx.action) == Commit(tx.stage.writes, tx.stage.reply)
    requires S.Narrow(tx.stage.writes)
    ensures Ripe(e, w, MissOf(tx, msg))
  {
    assert IsCreated(w.db, tx.action.order);
    RequestInOrder(e, w, msg);
    NewOutcomeIsOnly(e, w, msg);
  }

  /** A read of the present sees the world of the whole trace. */
  lemma NewMiss(e: Engine, t0: Tables, sys: I.System, w: World, trace: seq<Timed<Move>>, tx: I.Tx, msg: nat)
    requires e.Valid() && FreshDatabase(t0) && Follows(e, t0, sys, w, trace) && At(w, tx, msg)
    requires Missing(tx) && tx.missed == Some(sys.clock) && tx.stage.reply.Refused? && S.Narrow(tx.stage.writes)
    requires PlanOf(w.db, tx.action) == Commit(tx.stage.writes, tx.stage.reply)
    ensures MissTracked(e, t0, trace, tx, msg)
  {
    Sound(e, t0, sys, w, trace);
    RequestInOrder(e, w, msg);
    AlikeNext(e, w, Play(e, t0, trace).value, Transacts(msg));
    RefusalRipe(e, t0, Play(e, t0, trace).value, tx, msg);
  }

  lemma StatementMiss(e: Engine, t0: Tables, x: Whole, trace: seq<Timed<Move>>, tx: I.Tx, tx': I.Tx, msg: nat)
    requires e.Valid() && FreshDatabase(t0) && Follows(e, t0, x.sys, x.world, trace)
    requires At(x.world, tx, msg) && MissTracked(e, t0, trace, tx, msg) && Reads(x.sys.tables, tx, tx', x.sys.clock)
    ensures MissTracked(e, t0, trace, tx', msg)
  {
    if Missing(tx') && tx.missed.None? {
      Sound(e, t0, x.sys, x.world, trace);
      RequestInOrder(e, x.world, msg);
      MissRefuses(x.sys.tables, tx, x.sys.clock);
      NewMiss(e, t0, x.sys, x.world, trace, tx', msg);
    }
  }

  lemma GotoTracked(e: Engine, t0: Tables, x: Whole, x': Whole, trace: seq<Timed<Move>>, id: I.TxId, tx': I.Tx)
    requires e.Valid() && FreshDatabase(t0) && Tracked(e, t0, x, trace)
    requires id in x.sys.txs && OneSet(x, x', id, tx', x.msgs[id]) && Reads(x.sys.tables, x.sys.txs[id], tx', x.sys.clock)
    ensures Tracked(e, t0, x', trace)
  {
    assert At(x.world, x.sys.txs[id], x.msgs[id]) && MissTracked(e, t0, trace, x.sys.txs[id], x.msgs[id]);
    StatementMiss(e, t0, x, trace, x.sys.txs[id], tx', x.msgs[id]);
    OneTracked(e, t0, x, x', trace, id, tx', x.msgs[id]);
  }

  // ------------------------------------------------------------ a transaction that runs alone

  /** How many statements are left at most. */
  function Left(stage: I.Stage): nat
  {
    match stage
    case Begun => 6
    case Marked => 5
    case Reading(_) => 4
    case Charging(_, _) => 3
    case Taking(_, _) => 3
    case Crediting(_, _) => 2
    case Paying(_, _) => 2
    case Closing(_, _, _) => 1
    case Ready(_, _, _) => 0
  }

  lemma StatementsEnd(t: Tables, tx: I.Tx, now: nat)
    requires IsRequest(tx.action) && !tx.stage.Ready? && I.Advance(t, tx, now).Goto?
    ensures Left(I.Advance(t, tx, now).tx.stage) < Left(tx.stage)
  {
  }

  /** A row it has missed is still missing. */
  predicate Planned(t: Tables, tx: I.Tx)
  {
    Missing(tx) ==> PlanOf(t, tx.action) == Commit(tx.stage.writes, tx.stage.reply) && !tx.stage.reply.Failed?
  }

  lemma ReadyFinishes(e: Engine, t0: Tables, sys: I.System, w: World, id: I.TxId, msg: nat)
    requires Z.Inv(t0, sys) && sys.tables == w.db && id in sys.txs && sys.txs[id].stage.Ready?
    requires At(w, sys.txs[id], msg) && Planned(w.db, sys.txs[id])
    ensures var tx := sys.txs[id]; Finishes(e, w, msg, Effect(w.db, tx.stage.writes), tx.stage.reply)
  {
    var tx := sys.txs[id];
    if tx.missed.None? {
      ReadyPlan(t0, sys, id);
    }
    CommitFinishes(e, w, msg, tx.stage.writes, tx.stage.reply);
  }

  /** Nobody is in the way of it. */
  lemma StatementAllowed(t0: Tables, sys: I.System, id: I.TxId)
    requires Z.Inv(t0, sys) && I.AllRequests(sys) && sys.txs.Keys == {id} && !sys.txs[id].stage.Ready?
    ensures I.Enabled(sys, I.Statement(id))
  {
    assert Z.TxOk(sys.tables, sys.txs[id]);
    Z.AdvanceOk(sys.tables, sys.txs[id], sys.clock);
  }

  // ------------------------------------------------------------ the refinement

  lemma StepSystem(e: Engine, t0: Tables, x: Whole, s: Step)
    requires Z.Inv(t0, x.sys) && I.AllRequests(x.sys) && CanStep(e, x, s) && x.sys.tables == x.world.db
    ensures Z.Inv(t0, StepTo(e, x, s).sys)
  {
    match s
    case Moves(m) => SystemKept(e, t0, x, m);
    case Begins(id, msg) => Z.NextKeepsInv(t0, x.sys, I.Begin(id, Request(x.world.log[msg])));
    case Runs(id) => Z.NextKeepsInv(t0, x.sys, I.Statement(id));
    case Commits(id) => Z.NextKeepsInv(t0, x.sys, I.CommitTx(id));
    case Aborts(id) => Z.NextKeepsInv(t0, x.sys, I.Abort(id));
  }

  lemma RunsTracked(e: Engine, t0: Tables, x: Whole, trace: seq<Timed<Move>>, id: I.TxId) returns (trace': seq<Timed<Move>>)
    requires e.Valid() && FreshDatabase(t0) && Tracked(e, t0, x, trace) && Z.Inv(t0, x.sys)
    requires I.AllRequests(x.sys) && CanStep(e, x, Runs(id))
    ensures Tracked(e, t0, StepTo(e, x, Runs(id)), trace')
  {
    var move := I.Advance(x.sys.tables, x.sys.txs[id], x.sys.clock);
    if move.Goto? {
      StatementReads(t0, x.sys, id);
      assert x.msgs[id := x.msgs[id]] == x.msgs;
      GotoTracked(e, t0, x, StepTo(e, x, Runs(id)), trace, id, move.tx);
      trace' := trace;
    } else {
      ReturnEnds(t0, x.sys, id);
      ReturnTracked(e, t0, x, StepTo(e, x, Runs(id)), trace, id, x.sys.txs[id].action);
      trace' := trace + [Timed(x.sys.clock, Transacts(x.msgs[id]))];
    }
  }

  lemma CommitsTracked(e: Engine, t0: Tables, x: Whole, trace: seq<Timed<Move>>, id: I.TxId) returns (trace': seq<Timed<Move>>)
    requires e.Valid() && FreshDatabase(t0) && Tracked(e, t0, x, trace) && Z.Inv(t0, x.sys)
    requires I.AllRequests(x.sys) && CanStep(e, x, Commits(id))
    ensures Tracked(e, t0, StepTo(e, x, Commits(id)), trace')
  {
    var tx := x.sys.txs[id];
    if tx.missed.None? {
      CommitEnds(t0, x.sys, id);
      CommitTracked(e, t0, x, StepTo(e, x, Commits(id)), trace, id, tx.stage.writes, tx.stage.reply);
      trace' := trace + [Timed(x.sys.clock, Transacts(x.msgs[id]))];
    } else {
      assert MissTracked(e, t0, trace, tx, x.msgs[id]);
      LateEnds(x.sys, id);
      LateTracked(e, t0, x, StepTo(e, x, Commits(id)), trace, id);
      trace' := Put(trace, MoveOf(MissOf(tx, x.msgs[id])));
    }
  }

  lemma StepTracked(e: Engine, t0: Tables, x: Whole, trace: seq<Timed<Move>>, s: Step) returns (trace': seq<Timed<Move>>)
    requires e.Valid() && FreshDatabase(t0) && Tracked(e, t0, x, trace) && Z.Inv(t0, x.sys)
    requires I.AllRequests(x.sys) && CanStep(e, x, s)
    ensures Tracked(e, t0, StepTo(e, x, s), trace')
  {
    match s
    case Moves(m) =>
      MoveTracked(e, t0, x, trace, m);
      trace' := trace + [Timed(x.sys.clock, m)];
    case Begins(id, msg) =>
      BeginTracked(e, t0, x, trace, id, msg);
      trace' := trace;
    case Runs(id) => trace' := RunsTracked(e, t0, x, trace, id);
    case Commits(id) => trace' := CommitsTracked(e, t0, x, trace, id);
    case Aborts(id) =>
      AbortTracked(e, t0, x, trace, id);
      trace' := trace;
  }

  lemma {:induction false} GoTracked(e: Engine, t0: Tables, steps: seq<Step>) returns (trace: seq<Timed<Move>>)
    requires e.Valid() && FreshDatabase(t0) && Go(e, t0, steps).Some?
    ensures Tracked(e, t0, Go(e, t0, steps).value, trace) && Z.Inv(t0, Go(e, t0, steps).value.sys)
  {
    if steps == [] {
      trace := [];
    } else {
      var init, s := steps[..|steps| - 1], steps[|steps| - 1];
      var before := GoTracked(e, t0, init);
      trace := StepTracked(e, t0, Go(e, t0, init).value, before, s);
      StepSystem(e, t0, Go(e, t0, init).value, s);
    }
  }

  /** A transaction may begin for every open message for Portfolio. */
  lemma BeginAllowed(e: Engine, t0: Tables, steps: seq<Step>, id: I.TxId, msg: nat)
    requires e.Valid() && FreshDatabase(t0) && Go(e, t0, steps).Some?
    requires var x := Go(e, t0, steps).value; id !in x.sys.txs && Open(x.world, msg) && ForPortfolio(x.world.log[msg].payload)
    ensures I.AllRequests(Go(e, t0, steps).value.sys) && CanStep(e, Go(e, t0, steps).value, Begins(id, msg))
  {
    var trace := GoTracked(e, t0, steps);
    var x := Go(e, t0, steps).value;
    Sound(e, t0, x.sys, x.world, trace);
    RequestInOrder(e, x.world, msg);
    InvRequests(t0, x.sys);
  }

  lemma InvRequests(t0: Tables, sys: I.System)
    requires Z.Inv(t0, sys)
    ensures I.AllRequests(sys)
  {
    forall id | id in sys.txs
      ensures IsRequest(sys.txs[id].action)
    {
      assert Z.TxOk(sys.tables, sys.txs[id]);
    }
  }

  /** However the statements of transactions interleave with one another and with sends, deliveries,
   *  crashes and commits: the database, the log, what is unsent, being sent, handled, acknowledged and
   *  given up are those of some reachable world of the saga. */
  lemma WholeRefinesSaga(e: Engine, t0: Tables, steps: seq<Step>) returns (w: World)
    requires e.Valid() && FreshDatabase(t0) && Go(e, t0, steps).Some?
    ensures Reachable(e, t0, w) && Alike(w, Go(e, t0, steps).value.world)
    ensures Go(e, t0, steps).value.sys.tables == w.db
  {
    var trace := GoTracked(e, t0, steps);
    w := Play(e, t0, trace).value;
    PlayReaches(e, t0, trace);
  }
}
