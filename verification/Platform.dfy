/** The whole platform: consumers with partitions, positions, commits and restarts, and Portfolio's
 *  transactions taken apart into their statements, interleaved with one another and with everything
 *  else. Its database, topics and cursors are those of a story of the cluster, where each transaction is
 *  one step; so what holds of every such story holds of it. */
module Platform {
  import opened Domain
  import opened Pricing
  import opened Transactions
  import opened Events
  import opened Kafka
  import opened Saga
  import opened SagaProperties
  import opened Trace
  import opened Delivery
  import opened Chronicle
  import I = Interleaving
  import S = Serial
  import Z = Serializability
  import C = Composition

  /** `msgs` tells which message each transaction in flight is for. */
  datatype Platform = Platform(sys: I.System, cluster: Cluster, msgs: map<I.TxId, nat>)

  datatype Step =
    | Occurs(what: Occurrence)        // anything but a transaction
    | Begins(id: I.TxId, msg: nat)    // the handler of a received message begins its transaction
    | Runs(id: I.TxId)                // the transaction runs its next statement
    | Commits(id: I.TxId)
    | Aborts(id: I.TxId)

  /** The message received has been left to its handler, which has done nothing yet. */
  predicate Fresh(c: Cluster, msg: nat)
  {
    && |c.cursors| == PARTITIONS && Receiving(c, msg)
    && msg !in c.served && msg !in c.world.sending && ForPortfolio(c.world.log[msg].payload)
  }

  /** The transaction, if any, of an occurrence that is no consumed message's. */
  function Inserted(w: World, o: Occurrence): Option<Action>
  {
    match o
    case Service(m) => Committed(w, m)
    case _ => None
  }

  predicate InFlight(x: Platform, msg: nat)
  {
    exists id :: id in x.msgs && x.msgs[id] == msg
  }

  /** A handler runs one transaction at a time, and does not return while it does. */
  predicate CanStep(e: Engine, x: Platform, s: Step)
    requires I.AllRequests(x.sys)
  {
    match s
    case Occurs(o) =>
      && Happens(e, Some(x.cluster), o) && !(o.Service? && o.move.Transacts?)
      && (Inserted(x.cluster.world, o).Some? ==> I.Enabled(x.sys, I.Auto(Inserted(x.cluster.world, o).value)))
      && (o.Returned? ==> !InFlight(x, o.msg))
    case Begins(id, msg) =>
      && Fresh(x.cluster, msg) && !InFlight(x, msg)
      && I.Enabled(x.sys, I.Begin(id, Request(x.cluster.world.log[msg])))
    case Runs(id) => id in x.msgs && I.Enabled(x.sys, I.Statement(id))
    case Commits(id) => id in x.msgs && I.Enabled(x.sys, I.CommitTx(id))
    case Aborts(id) => I.Enabled(x.sys, I.Abort(id))
  }

  /** A transaction has returned: its handler goes on to send the outcome, or is done. */
  function Finish(c: Cluster, t: Tables, a: Action, msg: nat, reply: Reply): Cluster
  {
    c.(world := C.Finish(c.world, t, a, msg, reply), served := c.served + if OutcomeOf(reply).None? then {msg} else {})
  }

  /** The transactions of the consumers that start again. */
  function Cut(x: Platform, o: Occurrence): set<I.TxId>
  {
    if o.Restarts? then set id | id in x.msgs && x.msgs[id] in Within(x.cluster.world.log, o.partitions) else {}
  }

  /** A restart aborts the transactions in flight. */
  function SystemAfter(x: Platform, o: Occurrence): I.System
    requires I.AllRequests(x.sys)
    requires Inserted(x.cluster.world, o).Some? ==> I.Enabled(x.sys, I.Auto(Inserted(x.cluster.world, o).value))
  {
    var a := Inserted(x.cluster.world, o);
    if a.Some? then I.Next(x.sys, I.Auto(a.value))
    else x.sys.(clock := x.sys.clock + 1, txs := x.sys.txs - Cut(x, o))
  }

  function StepTo(e: Engine, x: Platform, s: Step): Platform
    requires I.AllRequests(x.sys) && CanStep(e, x, s)
  {
    match s
    case Occurs(o) => Platform(SystemAfter(x, o), Occur(e, x.cluster, o), x.msgs - Cut(x, o))
    case Begins(id, msg) => Platform(I.Next(x.sys, I.Begin(id, Request(x.cluster.world.log[msg]))), x.cluster, x.msgs[id := msg])
    case Runs(id) =>
      var sys', a := I.Next(x.sys, I.Statement(id)), x.sys.txs[id].action;
      if id in sys'.txs then x.(sys := sys')
      else Platform(sys', Finish(x.cluster, x.cluster.world.db, a, x.msgs[id], I.IdleReply(a)), x.msgs - {id})
    case Commits(id) =>
      var sys', tx := I.Next(x.sys, I.CommitTx(id)), x.sys.txs[id];
      Platform(sys', Finish(x.cluster, sys'.tables, tx.action, x.msgs[id], tx.stage.reply), x.msgs - {id})
    case Aborts(id) => Platform(I.Next(x.sys, I.Abort(id)), x.cluster, x.msgs - {id})
  }

  function Begun(t: Tables): Platform
  {
    Platform(I.Start(t), Booted(t), map[])
  }

  function Go(e: Engine, t0: Tables, steps: seq<Step>): Option<Platform>
  {
    if steps == [] then Some(Begun(t0))
    else
      var before, s := Go(e, t0, steps[..|steps| - 1]), steps[|steps| - 1];
      if before.Some? && I.AllRequests(before.value.sys) && CanStep(e, before.value, s)
      then Some(StepTo(e, before.value, s)) else None
  }

  // ------------------------------------------------------------ the invariant

  /** The diary tells of this cluster. */
  predicate Follows(e: Engine, t0: Tables, sys: I.System, c: Cluster, diary: Diary)
  {
    && Past(diary, sys.clock) && Told(e, t0, diary).Some? && AlikeIn(Told(e, t0, diary).value, c)
    && sys.tables == c.world.db
  }

  /** A transaction that missed a row can be put back to the time of that read. */
  predicate MissTracked(e: Engine, t0: Tables, diary: Diary, tx: I.Tx, msg: nat)
  {
    C.Missing(tx) ==> tx.stage.reply.Refused? && Enterable(e, t0, diary, C.MissOf(tx, msg))
  }

  predicate At(c: Cluster, tx: I.Tx, msg: nat)
  {
    Fresh(c, msg) && tx.action == Request(c.world.log[msg])
  }

  predicate Distinct(msgs: map<I.TxId, nat>)
  {
    forall i, j :: i in msgs && j in msgs && i != j ==> msgs[i] != msgs[j]
  }

  predicate TxsTracked(e: Engine, t0: Tables, x: Platform, diary: Diary)
  {
    && x.msgs.Keys == x.sys.txs.Keys
    && (forall id <- x.sys.txs :: At(x.cluster, x.sys.txs[id], x.msgs[id]))
    && (forall id <- x.sys.txs :: MissTracked(e, t0, diary, x.sys.txs[id], x.msgs[id]))
    && Distinct(x.msgs)
  }

  predicate Tracked(e: Engine, t0: Tables, x: Platform, diary: Diary)
  {
    Follows(e, t0, x.sys, x.cluster, diary) && TxsTracked(e, t0, x, diary)
  }

  /** What holds of every told cluster, but for its history. */
  lemma Sound(e: Engine, t0: Tables, sys: I.System, c: Cluster, diary: Diary)
    requires e.Valid() && FreshDatabase(t0) && Follows(e, t0, sys, c, diary)
    ensures InStep(c) && Inv(e, t0, Told(e, t0, diary).value.world) && Truthful(e, c.world) && WellFormed(c.world.db)
  {
    var told := Told(e, t0, diary).value;
    ClusterRefinesSaga(e, t0, Story(diary));
    ReachableInv(e, t0, told.world);
    AlikeInStep(told, c);
  }

  lemma AlikeInStep(c: Cluster, c': Cluster)
    requires InStep(c) && AlikeIn(c, c')
    ensures InStep(c')
  {
    assert |c'.cursors| == PARTITIONS;
    forall i: nat | Receiving(c, i)
      ensures Receiving(c', i)
    {
    }
  }

  // ------------------------------------------------------------ what a handler at work does not notice

  /** The occurrence is no doing of this message's handler, and does not end it. */
  predicate Spares(c: Cluster, o: Occurrence, msg: nat)
    requires msg < |c.world.log|
  {
    match o
    case Service(m) => m != Transacts(msg)
    case Returned(k, _) => k != msg
    case Broker(_) => true
    case Restarts(group) => PartitionOf(c.world.log[msg]) !in group
  }

  lemma FreshThroughMove(e: Engine, c: Cluster, m: Move, msg: nat)
    requires InStep(c) && CanOccur(e, c, Service(m)) && Fresh(c, msg) && m != Transacts(msg)
    ensures Fresh(Occur(e, c, Service(m)), msg)
  {
    ServiceEnabled(e, c, m);
    ServiceFrame(e, c.world, m);
    StillReceiving(c, Occur(e, c, Service(m)), msg);
  }

  lemma FreshThroughReturn(e: Engine, c: Cluster, k: nat, ok: bool, msg: nat)
    requires InStep(c) && CanOccur(e, c, Returned(k, ok)) && Fresh(c, msg) && k != msg
    ensures Fresh(Occur(e, c, Returned(k, ok)), msg)
  {
    if PartitionOf(c.world.log[k]) == PartitionOf(c.world.log[msg]) {
      ReceivingOne(c, k, msg);
    }
  }

  lemma FreshStays(e: Engine, c: Cluster, o: Occurrence, msg: nat)
    requires InStep(c) && CanOccur(e, c, o) && Fresh(c, msg) && Spares(c, o, msg)
    ensures Fresh(Occur(e, c, o), msg)
  {
    match o
    case Service(m) => FreshThroughMove(e, c, m, msg);
    case Returned(k, ok) => FreshThroughReturn(e, c, k, ok, msg);
    case Broker(h) => BrokerKeepsCursors(c, h);
    case Restarts(_) =>
  }

  lemma LogKept(e: Engine, c: Cluster, o: Occurrence)
    requires InStep(c) && CanOccur(e, c, o)
    ensures c.world.log <= Occur(e, c, o).world.log
  {
    CommittedGrows(e, c, o);
  }

  // ------------------------------------------------------------ what happens now comes last

  lemma FollowsMore(e: Engine, t0: Tables, sys: I.System, c: Cluster, diary: Diary, o: Occurrence)
    requires Follows(e, t0, sys, c, diary) && Happens(e, Some(c), o)
    ensures var diary' := diary + [Timed(sys.clock, o)];
            && Past(diary', sys.clock + 1) && Happens(e, Told(e, t0, diary), o)
            && Told(e, t0, diary').Some? && AlikeIn(Told(e, t0, diary').value, Occur(e, c, o))
  {
    AlikeBack(Told(e, t0, diary).value, c);
    AlikeOccur(e, c, Told(e, t0, diary).value, o);
    ToldSnoc(e, t0, diary, Timed(sys.clock, o));
    AlikeBack(Occur(e, c, o), Told(e, t0, diary + [Timed(sys.clock, o)]).value);
  }

  lemma AlikeBack(c: Cluster, c': Cluster)
    requires AlikeIn(c, c')
    ensures AlikeIn(c', c)
  {
  }

  predicate Recorded(sys': I.System, c: Cluster, o: Occurrence, clock: nat)
  {
    o.Service? ==> C.Recorded(sys', c.world, o.move, clock)
  }

  lemma RecordedBesideIn(e: Engine, t0: Tables, sys': I.System, c: Cluster, o: Occurrence, clock: nat, id: I.TxId, m: Miss)
    requires InStep(c) && Happens(e, Some(c), o) && m.msg < |c.world.log| && Spares(c, o, m.msg)
    requires Z.Inv(t0, sys') && Recorded(sys', c, o, clock) && id in sys'.txs && C.Missing(sys'.txs[id])
    requires sys'.txs[id].missed.value == m.at < clock && sys'.txs[id].stage.writes == m.writes
    ensures BesideIn(e, c, o, m)
  {
    match o
    case Service(move) =>
      ServiceEnabled(e, c, move);
      C.RecordedBeside(e, t0, sys', c.world, move, clock, id, m);
    case _ =>
  }

  lemma BesideAlike(e: Engine, c: Cluster, c': Cluster, o: Occurrence, m: Miss)
    requires BesideIn(e, c, o, m) && AlikeIn(c, c')
    ensures BesideIn(e, c', o, m)
  {
    match o
    case Service(move) => AlikeNext(e, c.world, c'.world, move);
    case _ =>
  }

  /** A late transaction can still be put back when something beside it happens. */
  lemma MissMore(e: Engine, t0: Tables, sys: I.System, c: Cluster, diary: Diary, o: Occurrence, m: Miss)
    requires Follows(e, t0, sys, c, diary) && Happens(e, Some(c), o) && BesideIn(e, c, o, m) && m.at < sys.clock
    requires Enterable(e, t0, diary, m)
    ensures Enterable(e, t0, diary + [Timed(sys.clock, o)], m)
  {
    FollowsMore(e, t0, sys, c, diary, o);
    AlikeBack(Told(e, t0, diary).value, c);
    BesideAlike(e, c, Told(e, t0, diary).value, o, m);
    EnterableMore(e, t0, diary, Timed(sys.clock, o), m);
  }

  /** The transactions that go on are for messages that the occurrence spares. */
  ghost predicate GoOn(x: Platform, x': Platform, o: Occurrence)
  {
    && x'.msgs.Keys == x'.sys.txs.Keys <= x.sys.txs.Keys <= x.msgs.Keys
    && (forall id <- x'.sys.txs :: x'.sys.txs[id] == x.sys.txs[id] && x'.msgs[id] == x.msgs[id])
    && (forall id <- x'.msgs :: x'.msgs[id] < |x.cluster.world.log| && Spares(x.cluster, o, x'.msgs[id]))
  }

  /** The platform moves on by an occurrence of the present. */
  ghost predicate MovesOn(e: Engine, t0: Tables, x: Platform, x': Platform, o: Occurrence)
  {
    && Happens(e, Some(x.cluster), o) && x'.cluster == Occur(e, x.cluster, o)
    && Z.Inv(t0, x.sys) && Z.Inv(t0, x'.sys) && x'.sys.clock == x.sys.clock + 1 && x'.sys.tables == x'.cluster.world.db
    && Recorded(x'.sys, x.cluster, o, x.sys.clock)
    && GoOn(x, x', o)
  }

  lemma MissTrackedOn(e: Engine, t0: Tables, x: Platform, x': Platform, diary: Diary, o: Occurrence, id: I.TxId)
    requires Follows(e, t0, x.sys, x.cluster, diary) && InStep(x.cluster) && MovesOn(e, t0, x, x', o) && id in x'.sys.txs
    requires MissTracked(e, t0, diary, x.sys.txs[id], x.msgs[id])
    ensures MissTracked(e, t0, diary + [Timed(x.sys.clock, o)], x'.sys.txs[id], x'.msgs[id])
  {
    var tx := x.sys.txs[id];
    if C.Missing(tx) {
      var m := C.MissOf(tx, x.msgs[id]);
      C.MissedBefore(t0, x.sys, id);
      RecordedBesideIn(e, t0, x'.sys, x.cluster, o, x.sys.clock, id, m);
      MissMore(e, t0, x.sys, x.cluster, diary, o, m);
    }
  }

  lemma AtStays(e: Engine, c: Cluster, o: Occurrence, tx: I.Tx, msg: nat)
    requires InStep(c) && CanOccur(e, c, o) && At(c, tx, msg) && Spares(c, o, msg)
    ensures At(Occur(e, c, o), tx, msg)
  {
    FreshStays(e, c, o, msg);
    LogKept(e, c, o);
  }

  lemma PresentTracked(e: Engine, t0: Tables, x: Platform, x': Platform, diary: Diary, o: Occurrence)
    requires e.Valid() && FreshDatabase(t0) && Tracked(e, t0, x, diary) && MovesOn(e, t0, x, x', o)
    ensures Tracked(e, t0, x', diary + [Timed(x.sys.clock, o)])
  {
    Sound(e, t0, x.sys, x.cluster, diary);
    FollowsMore(e, t0, x.sys, x.cluster, diary, o);
    forall id | id in x'.sys.txs
      ensures At(x'.cluster, x'.sys.txs[id], x'.msgs[id])
      ensures MissTracked(e, t0, diary + [Timed(x.sys.clock, o)], x'.sys.txs[id], x'.msgs[id])
    {
      AtStays(e, x.cluster, o, x.sys.txs[id], x.msgs[id]);
      MissTrackedOn(e, t0, x, x', diary, o, id);
    }
  }

  // ------------------------------------------------------------ occurrences

  lemma SystemKept(t0: Tables, x: Platform, o: Occurrence)
    requires Z.Inv(t0, x.sys) && I.AllRequests(x.sys) && x.sys.tables == x.cluster.world.db
    requires Inserted(x.cluster.world, o).Some? ==> I.Enabled(x.sys, I.Auto(Inserted(x.cluster.world, o).value))
    ensures Z.Inv(t0, SystemAfter(x, o)) && Recorded(SystemAfter(x, o), x.cluster, o, x.sys.clock)
  {
    if Inserted(x.cluster.world, o).Some? {
      Z.NextKeepsInv(t0, x.sys, I.Auto(Inserted(x.cluster.world, o).value));
      C.InsertRecorded(t0, x.sys, x.cluster.world, o.move);
    } else {
      C.CutKeepsInv(t0, x.sys, Cut(x, o));
    }
  }

  /** An occurrence changes the database by its transaction, if it has one. */
  lemma OccurDb(e: Engine, c: Cluster, o: Occurrence)
    requires InStep(c) && CanOccur(e, c, o)
    ensures Occur(e, c, o).world.db ==
              if Inserted(c.world, o).Some? then Apply(c.world.db, Inserted(c.world, o).value) else c.world.db
  {
    match o
    case Service(m) =>
      ServiceEnabled(e, c, m);
      MoveDb(e, c.world, m);
    case _ =>
  }

  lemma OccursSpares(e: Engine, x: Platform, o: Occurrence, id: I.TxId)
    requires I.AllRequests(x.sys) && CanStep(e, x, Occurs(o)) && id in x.msgs && x.msgs[id] < |x.cluster.world.log|
    requires id !in Cut(x, o)
    ensures Spares(x.cluster, o, x.msgs[id])
  {
    match o
    case Returned(msg, _) => assert x.msgs[id] == msg ==> InFlight(x, msg);
    case _ =>
  }

  lemma OccursGoOn(e: Engine, t0: Tables, x: Platform, x': Platform, diary: Diary, o: Occurrence)
    requires TxsTracked(e, t0, x, diary) && I.AllRequests(x.sys) && CanStep(e, x, Occurs(o))
    requires x'.sys.txs == x.sys.txs - Cut(x, o) && x'.msgs == x.msgs - Cut(x, o)
    ensures GoOn(x, x', o)
  {
    forall id | id in x'.msgs
      ensures x.msgs[id] < |x.cluster.world.log| && Spares(x.cluster, o, x.msgs[id])
    {
      assert At(x.cluster, x.sys.txs[id], x.msgs[id]);
      OccursSpares(e, x, o, id);
    }
  }

  lemma CutLeaves(t0: Tables, x: Platform, o: Occurrence)
    requires I.AllRequests(x.sys)
    requires Inserted(x.cluster.world, o).Some? ==> I.Enabled(x.sys, I.Auto(Inserted(x.cluster.world, o).value))
    ensures SystemAfter(x, o).txs == x.sys.txs - Cut(x, o)
  {
  }

  lemma OccursTracked(e: Engine, t0: Tables, x: Platform, diary: Diary, o: Occurrence)
    requires e.Valid() && FreshDatabase(t0) && Tracked(e, t0, x, diary) && Z.Inv(t0, x.sys)
    requires I.AllRequests(x.sys) && CanStep(e, x, Occurs(o))
    ensures Tracked(e, t0, StepTo(e, x, Occurs(o)), diary + [Timed(x.sys.clock, o)])
  {
    Sound(e, t0, x.sys, x.cluster, diary);
    SystemKept(t0, x, o);
    OccurDb(e, x.cluster, o);
    CutLeaves(t0, x, o);
    OccursGoOn(e, t0, x, StepTo(e, x, Occurs(o)), diary, o);
    PresentTracked(e, t0, x, StepTo(e, x, Occurs(o)), diary, o);
  }

  // ------------------------------------------------------------ returns and commits

  /** A handler that has done its transaction goes on as the cluster says. */
  lemma TransactOccurs(e: Engine, c: Cluster, msg: nat, t: Tables, reply: Reply)
    requires Fresh(c, msg) && C.Finishes(e, c.world, msg, t, reply)
    ensures Happens(e, Some(c), Service(Transacts(msg)))
    ensures Occur(e, c, Service(Transacts(msg))) == Finish(c, t, Request(c.world.log[msg]), msg, reply)
  {
  }

  /** The transactions that others have in flight are for other messages. */
  lemma OthersGoOn(e: Engine, t0: Tables, x: Platform, x': Platform, diary: Diary, id: I.TxId)
    requires TxsTracked(e, t0, x, diary) && id in x.msgs && x'.msgs == x.msgs - {id} && x'.sys.txs == x.sys.txs - {id}
    ensures GoOn(x, x', Service(Transacts(x.msgs[id])))
  {
    forall other | other in x'.msgs
      ensures x.msgs[other] < |x.cluster.world.log| && Spares(x.cluster, Service(Transacts(x.msgs[id])), x.msgs[other])
    {
      assert At(x.cluster, x.sys.txs[other], x.msgs[other]);
    }
  }

  /** Finishing a transaction now is the cluster's move of the present. */
  lemma FinishTracked(e: Engine, t0: Tables, x: Platform, x': Platform, diary: Diary, id: I.TxId, reply: Reply)
    requires e.Valid() && FreshDatabase(t0) && Tracked(e, t0, x, diary) && id in x.sys.txs
    requires C.Ends(t0, x.sys, x'.sys, id, x.sys.txs[id].action) && x'.msgs == x.msgs - {id}
    requires C.Finishes(e, x.cluster.world, x.msgs[id], x'.sys.tables, reply)
    requires x'.cluster == Finish(x.cluster, x'.sys.tables, x.sys.txs[id].action, x.msgs[id], reply)
    ensures Tracked(e, t0, x', diary + [Timed(x.sys.clock, Service(Transacts(x.msgs[id])))])
  {
    assert At(x.cluster, x.sys.txs[id], x.msgs[id]);
    Sound(e, t0, x.sys, x.cluster, diary);
    C.EntryRecorded(e, x.sys, x'.sys, x.cluster.world, x.msgs[id]);
    TransactOccurs(e, x.cluster, x.msgs[id], x'.sys.tables, reply);
    OthersGoOn(e, t0, x, x', diary, id);
    PresentTracked(e, t0, x, x', diary, Service(Transacts(x.msgs[id])));
  }

  /** A handler whose event is in the ledger already is done. */
  lemma ReturnTracked(e: Engine, t0: Tables, x: Platform, x': Platform, diary: Diary, id: I.TxId, a: Action)
    requires e.Valid() && FreshDatabase(t0) && Tracked(e, t0, x, diary) && id in x.sys.txs && a == x.sys.txs[id].action
    requires C.ReturnsNow(t0, x.sys, x'.sys, id, a) && x'.msgs == x.msgs - {id}
    requires x'.cluster == Finish(x.cluster, x.cluster.world.db, a, x.msgs[id], I.IdleReply(a))
    ensures Tracked(e, t0, x', diary + [Timed(x.sys.clock, Service(Transacts(x.msgs[id])))])
  {
    assert At(x.cluster, x.sys.txs[id], x.msgs[id]);
    Sound(e, t0, x.sys, x.cluster, diary);
    ReceivedIsOpen(x.cluster, x.msgs[id]);
    C.DuplicateFinishes(e, x.cluster.world, x.msgs[id]);
    FinishTracked(e, t0, x, x', diary, id, I.IdleReply(a));
  }

  lemma CommitTracked(e: Engine, t0: Tables, x: Platform, x': Platform, diary: Diary, id: I.TxId, writes: Writes, reply: Reply)
    requires e.Valid() && FreshDatabase(t0) && Tracked(e, t0, x, diary) && id in x.sys.txs
    requires C.CommitsNow(t0, x.sys, x'.sys, id, x.sys.txs[id].action, writes, reply) && x'.msgs == x.msgs - {id}
    requires x'.cluster == Finish(x.cluster, x'.sys.tables, x.sys.txs[id].action, x.msgs[id], reply)
    ensures Tracked(e, t0, x', diary + [Timed(x.sys.clock, Service(Transacts(x.msgs[id])))])
  {
    assert At(x.cluster, x.sys.txs[id], x.msgs[id]);
    Sound(e, t0, x.sys, x.cluster, diary);
    ReceivedIsOpen(x.cluster, x.msgs[id]);
    C.CommitFinishes(e, x.cluster.world, x.msgs[id], writes, reply);
    FinishTracked(e, t0, x, x', diary, id, reply);
  }

  // ------------------------------------------------------------ late commits

  lemma SinceAlike(c: Cluster, c': Cluster, m: Miss)
    requires AlikeIn(c, c')
    ensures AlikeIn(Since(c, m), Since(c', m))
  {
  }

  /** A refusal that commits late leaves the cluster of its late move. */
  lemma FinishIsSince(c: Cluster, tx: I.Tx, msg: nat, a: Action)
    requires C.Missing(tx) && tx.stage.reply.Refused?
    ensures AlikeIn(Since(c, C.MissOf(tx, msg)), Finish(c, Effect(c.world.db, tx.stage.writes), a, msg, tx.stage.reply))
  {
    C.FinishIsLate(c.world, tx, msg, a);
  }

  lemma LateFollows(e: Engine, t0: Tables, sys: I.System, c: Cluster, c': Cluster, diary: Diary, m: Miss)
    requires Follows(e, t0, sys, c, diary) && Enterable(e, t0, diary, m) && m.at < sys.clock && AlikeIn(Since(c, m), c')
    ensures var diary' := Put(diary, Entry(m));
            && Past(diary', sys.clock + 1) && Told(e, t0, diary').Some? && AlikeIn(Told(e, t0, diary').value, c')
  {
    var told, told' := Told(e, t0, diary).value, Told(e, t0, Put(diary, Entry(m)));
    EnterWorks(e, t0, diary, m);
    PutPast(diary, Entry(m), sys.clock);
    SinceAlike(told, c, m);
    AlikeTrans(Since(told, m), Since(c, m), c');
    AlikeBack(Since(told, m), told'.value);
    AlikeTrans(told'.value, Since(told, m), c');
  }

  lemma OtherMissTracked(e: Engine, t0: Tables, x: Platform, diary: Diary, id: I.TxId, other: I.TxId)
    requires TxsTracked(e, t0, x, diary) && Z.Inv(t0, x.sys) && I.AllRequests(x.sys)
    requires id in x.sys.txs && other in x.sys.txs && id != other && C.Missing(x.sys.txs[id]) && x.sys.txs[id].stage.reply.Refused?
    ensures MissTracked(e, t0, Put(diary, Entry(C.MissOf(x.sys.txs[id], x.msgs[id]))), x.sys.txs[other], x.msgs[other])
  {
    assert MissTracked(e, t0, diary, x.sys.txs[id], x.msgs[id]);
    assert MissTracked(e, t0, diary, x.sys.txs[other], x.msgs[other]);
    if C.Missing(x.sys.txs[other]) {
      C.MissesPaired(t0, x.sys, id, other, x.msgs[id], x.msgs[other]);
      OtherEnterable(e, t0, diary, C.MissOf(x.sys.txs[id], x.msgs[id]), C.MissOf(x.sys.txs[other], x.msgs[other]));
    }
  }

  lemma FreshBesideLate(c: Cluster, c': Cluster, m: Miss, msg: nat)
    requires Fresh(c, msg) && AlikeIn(Since(c, m), c') && msg != m.msg
    ensures Fresh(c', msg) && c'.world.log == c.world.log
  {
  }

  lemma LateOthers(e: Engine, t0: Tables, x: Platform, x': Platform, diary: Diary, id: I.TxId)
    requires Tracked(e, t0, x, diary) && Z.Inv(t0, x.sys) && I.AllRequests(x.sys) && C.CommitsLate(x.sys, x'.sys, id)
    requires x'.msgs == x.msgs - {id}
    requires x'.cluster == Finish(x.cluster, x'.sys.tables, x.sys.txs[id].action, x.msgs[id], x.sys.txs[id].stage.reply)
    ensures TxsTracked(e, t0, x', Put(diary, Entry(C.MissOf(x.sys.txs[id], x.msgs[id]))))
  {
    var m := C.MissOf(x.sys.txs[id], x.msgs[id]);
    FinishIsSince(x.cluster, x.sys.txs[id], x.msgs[id], x.sys.txs[id].action);
    forall other | other in x'.sys.txs
      ensures At(x'.cluster, x'.sys.txs[other], x'.msgs[other])
      ensures MissTracked(e, t0, Put(diary, Entry(m)), x'.sys.txs[other], x'.msgs[other])
    {
      FreshBesideLate(x.cluster, x'.cluster, m, x.msgs[other]);
      OtherMissTracked(e, t0, x, diary, id, other);
    }
  }

  /** Such a commit is the cluster's move of the time at which the row was missed. */
  lemma LateTracked(e: Engine, t0: Tables, x: Platform, x': Platform, diary: Diary, id: I.TxId)
    requires Tracked(e, t0, x, diary) && Z.Inv(t0, x.sys) && I.AllRequests(x.sys) && C.CommitsLate(x.sys, x'.sys, id)
    requires x'.msgs == x.msgs - {id}
    requires x'.cluster == Finish(x.cluster, x'.sys.tables, x.sys.txs[id].action, x.msgs[id], x.sys.txs[id].stage.reply)
    ensures Tracked(e, t0, x', Put(diary, Entry(C.MissOf(x.sys.txs[id], x.msgs[id]))))
  {
    var tx, m := x.sys.txs[id], C.MissOf(x.sys.txs[id], x.msgs[id]);
    assert MissTracked(e, t0, diary, tx, x.msgs[id]);
    C.MissedBefore(t0, x.sys, id);
    FinishIsSince(x.cluster, tx, x.msgs[id], tx.action);
    LateFollows(e, t0, x.sys, x.cluster, x'.cluster, diary, m);
    LateOthers(e, t0, x, x', diary, id);
  }

  // ------------------------------------------------------------ statements

  /** One transaction is new, or has gone on. */
  predicate OneSet(x: Platform, x': Platform, id: I.TxId, tx: I.Tx, msg: nat)
  {
    && x'.cluster == x.cluster && x'.sys.tables == x.sys.tables && x'.sys.clock == x.sys.clock + 1
    && x'.sys.txs == x.sys.txs[id := tx] && x'.msgs == x.msgs[id := msg]
  }

  lemma OneAt(e: Engine, t0: Tables, x: Platform, x': Platform, diary: Diary, id: I.TxId, tx: I.Tx, msg: nat)
    requires TxsTracked(e, t0, x, diary) && OneSet(x, x', id, tx, msg)
    requires At(x.cluster, tx, msg) && MissTracked(e, t0, diary, tx, msg)
    ensures forall other <- x'.sys.txs ::
              At(x.cluster, x'.sys.txs[other], x'.msgs[other]) && MissTracked(e, t0, diary, x'.sys.txs[other], x'.msgs[other])
  {
    forall other | other in x'.sys.txs
      ensures At(x.cluster, x'.sys.txs[other], x'.msgs[other]) && MissTracked(e, t0, diary, x'.sys.txs[other], x'.msgs[other])
    {
      assert other != id ==> At(x.cluster, x.sys.txs[other], x.msgs[other]) && MissTracked(e, t0, diary, x.sys.txs[other], x.msgs[other]);
    }
  }

  lemma OneDistinct(msgs: map<I.TxId, nat>, id: I.TxId, msg: nat)
    requires Distinct(msgs) && forall other <- msgs :: other != id ==> msgs[other] != msg
    ensures Distinct(msgs[id := msg])
  {
  }

  lemma OneTracked(e: Engine, t0: Tables, x: Platform, x': Platform, diary: Diary, id: I.TxId, tx: I.Tx, msg: nat)
    requires Tracked(e, t0, x, diary) && OneSet(x, x', id, tx, msg)
    requires At(x.cluster, tx, msg) && MissTracked(e, t0, diary, tx, msg)
    requires forall other <- x.msgs :: other != id ==> x.msgs[other] != msg
    ensures Tracked(e, t0, x', diary)
  {
    OneAt(e, t0, x, x', diary, id, tx, msg);
    OneDistinct(x.msgs, id, msg);
  }

  lemma BeginTracked(e: Engine, t0: Tables, x: Platform, diary: Diary, id: I.TxId, msg: nat)
    requires Tracked(e, t0, x, diary) && I.AllRequests(x.sys) && CanStep(e, x, Begins(id, msg))
    ensures Tracked(e, t0, StepTo(e, x, Begins(id, msg)), diary)
  {
    forall other | other in x.msgs
      ensures x.msgs[other] != msg
    {
      assert x.msgs[other] == msg ==> InFlight(x, msg);
    }
    var tx := I.Tx(Request(x.cluster.world.log[msg]), I.Begun, None);
    OneTracked(e, t0, x, StepTo(e, x, Begins(id, msg)), diary, id, tx, msg);
  }

  lemma FewerTracked(e: Engine, t0: Tables, x: Platform, x': Platform, diary: Diary, id: I.TxId)
    requires Tracked(e, t0, x, diary) && x'.cluster == x.cluster
    requires x'.sys.tables == x.sys.tables && x'.sys.clock == x.sys.clock + 1
    requires x'.sys.txs == x.sys.txs - {id} && x'.msgs == x.msgs - {id}
    ensures Tracked(e, t0, x', diary)
  {
  }

  lemma AbortTracked(e: Engine, t0: Tables, x: Platform, diary: Diary, id: I.TxId)
    requires Tracked(e, t0, x, diary) && I.AllRequests(x.sys) && CanStep(e, x, Aborts(id))
    ensures Tracked(e, t0, StepTo(e, x, Aborts(id)), diary)
  {
    FewerTracked(e, t0, x, StepTo(e, x, Aborts(id)), diary, id);
  }

  /** A read of the present sees the cluster of the whole diary. */
  lemma NewMiss(e: Engine, t0: Tables, sys: I.System, c: Cluster, diary: Diary, tx: I.Tx, msg: nat)
    requires e.Valid() && FreshDatabase(t0) && Follows(e, t0, sys, c, diary) && At(c, tx, msg)
    requires C.Missing(tx) && tx.missed == Some(sys.clock) && tx.stage.reply.Refused? && S.Narrow(tx.stage.writes)
    requires PlanOf(c.world.db, tx.action) == Commit(tx.stage.writes, tx.stage.reply)
    ensures MissTracked(e, t0, diary, tx, msg)
  {
    var told := Told(e, t0, diary).value;
    Sound(e, t0, sys, c, diary);
    C.RequestInOrder(e, c.world, msg);
    ReceivedIsOpen(c, msg);
    AlikeBack(told, c);
    AlikeOccur(e, c, told, Service(Transacts(msg)));
    C.RefusalRipe(e, t0, told.world, tx, msg);
  }

  lemma StatementMiss(e: Engine, t0: Tables, x: Platform, diary: Diary, tx: I.Tx, tx': I.Tx, msg: nat)
    requires e.Valid() && FreshDatabase(t0) && Follows(e, t0, x.sys, x.cluster, diary)
    requires At(x.cluster, tx, msg) && MissTracked(e, t0, diary, tx, msg) && C.Reads(x.sys.tables, tx, tx', x.sys.clock)
    ensures MissTracked(e, t0, diary, tx', msg)
  {
    if C.Missing(tx') && tx.missed.None? {
      Sound(e, t0, x.sys, x.cluster, diary);
      C.RequestInOrder(e, x.cluster.world, msg);
      C.MissRefuses(x.sys.tables, tx, x.sys.clock);
      NewMiss(e, t0, x.sys, x.cluster, diary, tx', msg);
    }
  }

  lemma GotoTracked(e: Engine, t0: Tables, x: Platform, x': Platform, diary: Diary, id: I.TxId, tx': I.Tx)
    requires e.Valid() && FreshDatabase(t0) && Tracked(e, t0, x, diary)
    requires id in x.sys.txs && OneSet(x, x', id, tx', x.msgs[id]) && C.Reads(x.sys.tables, x.sys.txs[id], tx', x.sys.clock)
    ensures Tracked(e, t0, x', diary)
  {
    assert At(x.cluster, x.sys.txs[id], x.msgs[id]) && MissTracked(e, t0, diary, x.sys.txs[id], x.msgs[id]);
    StatementMiss(e, t0, x, diary, x.sys.txs[id], tx', x.msgs[id]);
    OneTracked(e, t0, x, x', diary, id, tx', x.msgs[id]);
  }

  // ------------------------------------------------------------ the refinement

  lemma StepSystem(e: Engine, t0: Tables, x: Platform, s: Step)
    requires Z.Inv(t0, x.sys) && I.AllRequests(x.sys) && CanStep(e, x, s) && x.sys.tables == x.cluster.world.db
    ensures Z.Inv(t0, StepTo(e, x, s).sys)
  {
    match s
    case Occurs(o) => SystemKept(t0, x, o);
    case Begins(id, msg) => Z.NextKeepsInv(t0, x.sys, I.Begin(id, Request(x.cluster.world.log[msg])));
    case Runs(id) => Z.NextKeepsInv(t0, x.sys, I.Statement(id));
    case Commits(id) => Z.NextKeepsInv(t0, x.sys, I.CommitTx(id));
    case Aborts(id) => Z.NextKeepsInv(t0, x.sys, I.Abort(id));
  }

  /** The POSTs that have died by the second diary are those by the first, and the one this step says. */
  ghost predicate Buries(diary: Diary, diary': Diary, s: Step)
  {
    forall o :: Died(Story(diary'), o) <==> Died(Story(diary), o) || s == Occurs(Service(PostDies(o)))
  }

  lemma PutBuries(diary: Diary, y: Timed<Occurrence>, s: Step)
    requires s == Occurs(y.what) || (!s.Occurs? && y.what.Service? && y.what.move.Transacts?)
    ensures Buries(diary, Put(diary, y), s)
  {
    StoryPut(diary, y);
  }

  lemma Present(diary: Diary, clock: nat, o: Occurrence, s: Step) returns (diary': Diary)
    requires Past(diary, clock) && (s == Occurs(o) || (!s.Occurs? && o.Service? && o.move.Transacts?))
    ensures diary' == diary + [Timed(clock, o)] && Buries(diary, diary', s)
  {
    diary' := Put(diary, Timed(clock, o));
    PutNow(diary, Timed(clock, o));
    PutBuries(diary, Timed(clock, o), s);
  }

  lemma GoesOn(e: Engine, t0: Tables, x: Platform, id: I.TxId)
    requires Z.Inv(t0, x.sys) && I.AllRequests(x.sys) && CanStep(e, x, Runs(id)) && id in x.sys.txs
    requires I.Advance(x.sys.tables, x.sys.txs[id], x.sys.clock).Goto?
    ensures var tx' := I.Advance(x.sys.tables, x.sys.txs[id], x.sys.clock).tx;
            OneSet(x, StepTo(e, x, Runs(id)), id, tx', x.msgs[id]) && C.Reads(x.sys.tables, x.sys.txs[id], tx', x.sys.clock)
  {
    C.StatementReads(t0, x.sys, id);
    assert x.msgs[id := x.msgs[id]] == x.msgs;
  }

  lemma RunsTracked(e: Engine, t0: Tables, x: Platform, x': Platform, diary: Diary, id: I.TxId) returns (diary': Diary)
    requires e.Valid() && FreshDatabase(t0) && Tracked(e, t0, x, diary) && Z.Inv(t0, x.sys)
    requires I.AllRequests(x.sys) && CanStep(e, x, Runs(id)) && x' == StepTo(e, x, Runs(id))
    ensures Tracked(e, t0, x', diary') && Buries(diary, diary', Runs(id))
  {
    if I.Advance(x.sys.tables, x.sys.txs[id], x.sys.clock).Goto? {
      GoesOn(e, t0, x, id);
      GotoTracked(e, t0, x, x', diary, id, I.Advance(x.sys.tables, x.sys.txs[id], x.sys.clock).tx);
      diary' := diary;
    } else {
      C.ReturnEnds(t0, x.sys, id);
      ReturnTracked(e, t0, x, x', diary, id, x.sys.txs[id].action);
      diary' := Present(diary, x.sys.clock, Service(Transacts(x.msgs[id])), Runs(id));
    }
  }

  lemma CommitsTracked(e: Engine, t0: Tables, x: Platform, x': Platform, diary: Diary, id: I.TxId) returns (diary': Diary)
    requires e.Valid() && FreshDatabase(t0) && Tracked(e, t0, x, diary) && Z.Inv(t0, x.sys)
    requires I.AllRequests(x.sys) && CanStep(e, x, Commits(id)) && x' == StepTo(e, x, Commits(id))
    ensures Tracked(e, t0, x', diary') && Buries(diary, diary', Commits(id))
  {
    var tx := x.sys.txs[id];
    if tx.missed.None? {
      C.CommitEnds(t0, x.sys, id);
      CommitTracked(e, t0, x, x', diary, id, tx.stage.writes, tx.stage.reply);
      diary' := Present(diary, x.sys.clock, Service(Transacts(x.msgs[id])), Commits(id));
    } else {
      assert MissTracked(e, t0, diary, tx, x.msgs[id]);
      C.LateEnds(x.sys, id);
      LateTracked(e, t0, x, x', diary, id);
      diary' := Put(diary, Entry(C.MissOf(tx, x.msgs[id])));
      PutBuries(diary, Entry(C.MissOf(tx, x.msgs[id])), Commits(id));
    }
  }

  lemma StepTracked(e: Engine, t0: Tables, x: Platform, x': Platform, diary: Diary, s: Step) returns (diary': Diary)
    requires e.Valid() && FreshDatabase(t0) && Tracked(e, t0, x, diary) && Z.Inv(t0, x.sys)
    requires I.AllRequests(x.sys) && CanStep(e, x, s) && x' == StepTo(e, x, s)
    ensures Tracked(e, t0, x', diary') && Buries(diary, diary', s)
  {
    match s
    case Occurs(o) =>
      OccursTracked(e, t0, x, diary, o);
      diary' := Present(diary, x.sys.clock, o, s);
    case Begins(id, msg) =>
      BeginTracked(e, t0, x, diary, id, msg);
      diary' := diary;
    case Runs(id) => diary' := RunsTracked(e, t0, x, x', diary, id);
    case Commits(id) => diary' := CommitsTracked(e, t0, x, x', diary, id);
    case Aborts(id) =>
      AbortTracked(e, t0, x, diary, id);
      diary' := diary;
  }

  /** The POSTs that died in a run are those that died in its diary. */
  ghost predicate SameDeaths(steps: seq<Step>, diary: Diary)
  {
    forall o :: Died(Story(diary), o) <==> DiedIn(steps, o)
  }

  predicate DiedIn(steps: seq<Step>, o: OrderId)
  {
    Occurs(Service(PostDies(o))) in steps
  }

  lemma DeathsMore(steps: seq<Step>, s: Step, diary: Diary, diary': Diary)
    requires SameDeaths(steps, diary) && Buries(diary, diary', s)
    ensures SameDeaths(steps + [s], diary')
  {
    forall o
      ensures Died(Story(diary'), o) <==> DiedIn(steps + [s], o)
    {
      assert Died(Story(diary), o) <==> DiedIn(steps, o);
    }
  }

  /** The diary tells of the platform after these steps. */
  ghost predicate Tells(e: Engine, t0: Tables, steps: seq<Step>, x: Platform, diary: Diary)
  {
    Tracked(e, t0, x, diary) && Z.Inv(t0, x.sys) && SameDeaths(steps, diary)
  }

  lemma TellsMore(e: Engine, t0: Tables, init: seq<Step>, x: Platform, s: Step, diary: Diary) returns (diary': Diary)
    requires e.Valid() && FreshDatabase(t0) && Tells(e, t0, init, x, diary) && I.AllRequests(x.sys) && CanStep(e, x, s)
    ensures Tells(e, t0, init + [s], StepTo(e, x, s), diary')
  {
    diary' := StepTracked(e, t0, x, StepTo(e, x, s), diary, s);
    StepSystem(e, t0, x, s);
    DeathsMore(init, s, diary, diary');
  }

  lemma {:induction false} GoTracked(e: Engine, t0: Tables, steps: seq<Step>) returns (diary: Diary)
    requires e.Valid() && FreshDatabase(t0) && Go(e, t0, steps).Some?
    ensures Tells(e, t0, steps, Go(e, t0, steps).value, diary)
  {
    if steps == [] {
      diary := [];
    } else {
      var init, s := steps[..|steps| - 1], steps[|steps| - 1];
      assert steps == init + [s];
      diary := GoTracked(e, t0, init);
      diary := TellsMore(e, t0, init, Go(e, t0, init).value, s, diary);
    }
  }

  /** What holds of the platform after any run. */
  lemma GoSound(e: Engine, t0: Tables, steps: seq<Step>)
    requires e.Valid() && FreshDatabase(t0) && Go(e, t0, steps).Some?
    ensures var x := Go(e, t0, steps).value;
            && Z.Inv(t0, x.sys) && I.AllRequests(x.sys) && InStep(x.cluster) && x.sys.tables == x.cluster.world.db
            && Truthful(e, x.cluster.world) && WellFormed(x.cluster.world.db) && x.msgs.Keys == x.sys.txs.Keys
  {
    var diary := GoTracked(e, t0, steps);
    var x := Go(e, t0, steps).value;
    Sound(e, t0, x.sys, x.cluster, diary);
    C.InvRequests(t0, x.sys);
  }

  /** A handler that has received a message for Portfolio may begin its transaction. */
  lemma BeginAllowed(e: Engine, t0: Tables, steps: seq<Step>, id: I.TxId, msg: nat)
    requires e.Valid() && FreshDatabase(t0) && Go(e, t0, steps).Some?
    requires var x := Go(e, t0, steps).value; id !in x.sys.txs && Fresh(x.cluster, msg) && !InFlight(x, msg)
    ensures I.AllRequests(Go(e, t0, steps).value.sys) && CanStep(e, Go(e, t0, steps).value, Begins(id, msg))
  {
    GoSound(e, t0, steps);
    C.RequestInOrder(e, Go(e, t0, steps).value.cluster.world, msg);
  }

  /** However the statements of transactions interleave with one another and with all that producers,
   *  consumers and the broker do: there is a story of the cluster, each transaction one step of it, that
   *  leads to the same database, topics, sends, handlers' progress and cursors, and in which the same
   *  POSTs die. */
  lemma PlatformRefinesCluster(e: Engine, t0: Tables, steps: seq<Step>) returns (story: seq<Occurrence>)
    requires e.Valid() && FreshDatabase(t0) && Go(e, t0, steps).Some?
    ensures Life(e, t0, story).Some? && AlikeIn(Life(e, t0, story).value, Go(e, t0, steps).value.cluster)
    ensures Go(e, t0, steps).value.sys.tables == Life(e, t0, story).value.world.db
    ensures forall o :: Died(story, o) <==> DiedIn(steps, o)
  {
    var diary := GoTracked(e, t0, steps);
    story := Story(diary);
  }

  /** So over any such interleaving an order is given up exactly when its POST dies between insert and
   *  send, or the committed offset passes a message of it that was never handled. */
  lemma GivenUpExactly(e: Engine, t0: Tables, steps: seq<Step>, o: OrderId)
    requires e.Valid() && FreshDatabase(t0) && Go(e, t0, steps).Some?
    ensures var c := Go(e, t0, steps).value.cluster;
            |c.cursors| == PARTITIONS && (o in c.world.abandoned <==> DiedIn(steps, o) || LostMessage(c, o))
  {
    var story := PlatformRefinesCluster(e, t0, steps);
    AbandonedExactly(e, t0, story, o);
    assert Died(story, o) <==> DiedIn(steps, o);
    LostAlike(Life(e, t0, story).value, Go(e, t0, steps).value.cluster, o);
  }

  lemma LostAlike(c: Cluster, c': Cluster, o: OrderId)
    requires AlikeIn(c, c') && |c.cursors| == PARTITIONS
    ensures LostMessage(c, o) <==> LostMessage(c', o)
  {
    assert forall i :: 0 <= i < |c.world.log| ==> (Passed(c, i) <==> Passed(c', i));
  }

  /** And once every message is committed and no POST is under way, the stored order is terminal unless
   *  that is so of it. */
  lemma NoneForgotten(e: Engine, t0: Tables, steps: seq<Step>, o: OrderId)
    requires e.Valid() && FreshDatabase(t0) && Go(e, t0, steps).Some?
    requires var x := Go(e, t0, steps).value;
             |x.cluster.cursors| == PARTITIONS && AllCommitted(x.cluster) && x.cluster.world.unsent == {} && o in x.sys.tables.orders
    ensures var x := Go(e, t0, steps).value; Terminal(x.sys.tables, o) || DiedIn(steps, o) || LostMessage(x.cluster, o)
  {
    var story := PlatformRefinesCluster(e, t0, steps);
    var c, c' := Life(e, t0, story).value, Go(e, t0, steps).value.cluster;
    CommittedAlike(c', c);
    NoOrderForgotten(e, t0, story, o);
    assert Died(story, o) <==> DiedIn(steps, o);
    LostAlike(c, c', o);
  }

  lemma CommittedAlike(c: Cluster, c': Cluster)
    requires AlikeIn(c, c') && |c.cursors| == PARTITIONS && AllCommitted(c)
    ensures AllCommitted(c')
  {
  }
}
