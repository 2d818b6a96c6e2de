/** Every story of the cluster is a run of the platform: one in which each transaction runs alone. */
module Coverage {
  import opened Domain
  import opened Pricing
  import opened Transactions
  import opened Events
  import opened Kafka
  import opened Saga
  import opened Delivery
  import opened Chronicle
  import opened Platform
  import I = Interleaving
  import Z = Serializability
  import C = Composition

  lemma GoSnoc(e: Engine, t0: Tables, steps: seq<Step>, s: Step)
    requires Go(e, t0, steps).Some? && I.AllRequests(Go(e, t0, steps).value.sys) && CanStep(e, Go(e, t0, steps).value, s)
    ensures Go(e, t0, steps + [s]) == Some(StepTo(e, Go(e, t0, steps).value, s))
  {
    assert (steps + [s])[..|steps|] == steps;
  }

  /** The transaction for this message is the only one; a row it has missed is still missing. */
  predicate Alone(x: Platform, id: I.TxId, msg: nat)
  {
    && x.sys.txs.Keys == {id} && x.msgs == map[id := msg] && At(x.cluster, x.sys.txs[id], msg)
    && C.Planned(x.cluster.world.db, x.sys.txs[id])
  }

  /** No transaction is in flight. */
  predicate Still(x: Platform)
  {
    x.sys.txs == map[] && x.msgs == map[]
  }

  lemma CommitAlone(e: Engine, t0: Tables, x: Platform, id: I.TxId, msg: nat)
    requires Z.Inv(t0, x.sys) && I.AllRequests(x.sys) && InStep(x.cluster) && x.sys.tables == x.cluster.world.db
    requires Alone(x, id, msg) && x.sys.txs[id].stage.Ready?
    ensures CanStep(e, x, Commits(id)) && Still(StepTo(e, x, Commits(id)))
    ensures Happens(e, Some(x.cluster), Service(Transacts(msg)))
    ensures StepTo(e, x, Commits(id)).cluster == Occur(e, x.cluster, Service(Transacts(msg)))
  {
    ReceivedIsOpen(x.cluster, msg);
    C.ReadyFinishes(e, t0, x.sys, x.cluster.world, id, msg);
    TransactOccurs(e, x.cluster, msg, Effect(x.sys.tables, x.sys.txs[id].stage.writes), x.sys.txs[id].stage.reply);
  }

  lemma ReturnAlone(e: Engine, t0: Tables, x: Platform, id: I.TxId, msg: nat)
    requires Z.Inv(t0, x.sys) && I.AllRequests(x.sys) && InStep(x.cluster) && x.sys.tables == x.cluster.world.db
    requires Alone(x, id, msg) && !x.sys.txs[id].stage.Ready? && CanStep(e, x, Runs(id))
    requires I.Advance(x.sys.tables, x.sys.txs[id], x.sys.clock).Return?
    ensures Still(StepTo(e, x, Runs(id)))
    ensures Happens(e, Some(x.cluster), Service(Transacts(msg)))
    ensures StepTo(e, x, Runs(id)).cluster == Occur(e, x.cluster, Service(Transacts(msg)))
  {
    ReceivedIsOpen(x.cluster, msg);
    C.DuplicateFinishes(e, x.cluster.world, msg);
    TransactOccurs(e, x.cluster, msg, x.cluster.world.db, I.IdleReply(x.sys.txs[id].action));
  }

  lemma GotoAlone(e: Engine, t0: Tables, x: Platform, id: I.TxId, msg: nat)
    requires Z.Inv(t0, x.sys) && I.AllRequests(x.sys) && x.sys.tables == x.cluster.world.db
    requires Truthful(e, x.cluster.world) && WellFormed(x.cluster.world.db)
    requires Alone(x, id, msg) && !x.sys.txs[id].stage.Ready? && CanStep(e, x, Runs(id))
    requires I.Advance(x.sys.tables, x.sys.txs[id], x.sys.clock).Goto?
    ensures Alone(StepTo(e, x, Runs(id)), id, msg) && StepTo(e, x, Runs(id)).cluster == x.cluster
    ensures C.Left(StepTo(e, x, Runs(id)).sys.txs[id].stage) < C.Left(x.sys.txs[id].stage)
  {
    C.StatementReads(t0, x.sys, id);
    C.RequestInOrder(e, x.cluster.world, msg);
    C.StatementsEnd(x.sys.tables, x.sys.txs[id], x.sys.clock);
  }

  /** A transaction that runs alone carries out the cluster's move for its message. */
  lemma {:induction false} RunsAlone(e: Engine, t0: Tables, steps: seq<Step>, id: I.TxId, msg: nat) returns (steps': seq<Step>)
    requires e.Valid() && FreshDatabase(t0) && Go(e, t0, steps).Some? && Alone(Go(e, t0, steps).value, id, msg)
    ensures var c, o := Go(e, t0, steps).value.cluster, Service(Transacts(msg));
            && Go(e, t0, steps').Some? && Still(Go(e, t0, steps').value)
            && Happens(e, Some(c), o) && Go(e, t0, steps').value.cluster == Occur(e, c, o)
    decreases C.Left(Go(e, t0, steps).value.sys.txs[id].stage)
  {
    var x := Go(e, t0, steps).value;
    GoSound(e, t0, steps);
    if x.sys.txs[id].stage.Ready? {
      CommitAlone(e, t0, x, id, msg);
      GoSnoc(e, t0, steps, Commits(id));
      steps' := steps + [Commits(id)];
    } else {
      C.StatementAllowed(t0, x.sys, id);
      GoSnoc(e, t0, steps, Runs(id));
      if I.Advance(x.sys.tables, x.sys.txs[id], x.sys.clock).Return? {
        ReturnAlone(e, t0, x, id, msg);
        steps' := steps + [Runs(id)];
      } else {
        GotoAlone(e, t0, x, id, msg);
        steps' := RunsAlone(e, t0, steps + [Runs(id)], id, msg);
      }
    }
  }

  lemma TransactAlone(e: Engine, t0: Tables, steps: seq<Step>, msg: nat) returns (steps': seq<Step>)
    requires e.Valid() && FreshDatabase(t0) && Go(e, t0, steps).Some? && Still(Go(e, t0, steps).value)
    requires Happens(e, Some(Go(e, t0, steps).value.cluster), Service(Transacts(msg)))
    ensures Go(e, t0, steps').Some? && Still(Go(e, t0, steps').value)
    ensures Go(e, t0, steps').value.cluster == Occur(e, Go(e, t0, steps).value.cluster, Service(Transacts(msg)))
  {
    BeginAllowed(e, t0, steps, 0, msg);
    GoSnoc(e, t0, steps, Begins(0, msg));
    steps' := RunsAlone(e, t0, steps + [Begins(0, msg)], 0, msg);
  }

  /** A seed statement before its user is there fails, and changes nothing. */
  predicate FailedSeed(w: World, o: Occurrence)
  {
    o.Service? && o.move.Seeds? && !PlanOf(w.db, o.move.seed).Commit?
  }

  lemma FailedSeedIsIdle(e: Engine, c: Cluster, o: Occurrence)
    requires Happens(e, Some(c), o) && FailedSeed(c.world, o)
    ensures AlikeIn(Occur(e, c, o), c)
  {
  }

  lemma InsertAllowed(e: Engine, sys: I.System, w: World, m: Move)
    requires Enabled(e, w, m) && !m.Transacts? && Committed(w, m).Some? && !FailedSeed(w, Service(m))
    requires I.AllRequests(sys) && sys.txs == map[] && sys.tables == w.db
    ensures I.Enabled(sys, I.Auto(Committed(w, m).value))
  {
  }

  /** Anything else that may occur in the cluster may occur on the platform. */
  lemma OccursAlone(e: Engine, t0: Tables, x: Platform, o: Occurrence)
    requires InStep(x.cluster) && I.AllRequests(x.sys) && x.sys.tables == x.cluster.world.db && Still(x)
    requires Happens(e, Some(x.cluster), o) && !(o.Service? && o.move.Transacts?) && !FailedSeed(x.cluster.world, o)
    ensures CanStep(e, x, Occurs(o)) && Still(StepTo(e, x, Occurs(o)))
  {
    match o
    case Service(m) =>
      ServiceEnabled(e, x.cluster, m);
      if Committed(x.cluster.world, m).Some? {
        InsertAllowed(e, x.sys, x.cluster.world, m);
      }
    case _ =>
  }

  lemma StoryStep(e: Engine, t0: Tables, steps: seq<Step>, o: Occurrence) returns (steps': seq<Step>)
    requires e.Valid() && FreshDatabase(t0) && Go(e, t0, steps).Some? && Still(Go(e, t0, steps).value)
    requires Happens(e, Some(Go(e, t0, steps).value.cluster), o)
    ensures Go(e, t0, steps').Some? && Still(Go(e, t0, steps').value)
    ensures AlikeIn(Occur(e, Go(e, t0, steps).value.cluster, o), Go(e, t0, steps').value.cluster)
  {
    var x := Go(e, t0, steps).value;
    if o.Service? && o.move.Transacts? {
      steps' := TransactAlone(e, t0, steps, o.move.msg);
    } else if FailedSeed(x.cluster.world, o) {
      FailedSeedIsIdle(e, x.cluster, o);
      steps' := steps;
    } else {
      GoSound(e, t0, steps);
      OccursAlone(e, t0, x, o);
      GoSnoc(e, t0, steps, Occurs(o));
      steps' := steps + [Occurs(o)];
    }
  }

  /** The converse of PlatformRefinesCluster: whatever a story of the cluster leads to, some run of the
   *  platform's statements leads to as well. */
  lemma {:induction false} ClusterIsCovered(e: Engine, t0: Tables, story: seq<Occurrence>) returns (steps: seq<Step>)
    requires e.Valid() && FreshDatabase(t0) && Life(e, t0, story).Some?
    ensures Go(e, t0, steps).Some? && Still(Go(e, t0, steps).value)
    ensures AlikeIn(Life(e, t0, story).value, Go(e, t0, steps).value.cluster)
  {
    if story == [] {
      steps := [];
    } else {
      var init, o := story[..|story| - 1], story[|story| - 1];
      var before := ClusterIsCovered(e, t0, init);
      AlikeOccur(e, Life(e, t0, init).value, Go(e, t0, before).value.cluster, o);
      steps := StoryStep(e, t0, before, o);
      AlikeTrans(Life(e, t0, story).value, Occur(e, Go(e, t0, before).value.cluster, o), Go(e, t0, steps).value.cluster);
    }
  }

  predicate ToldBy(e: Engine, t0: Tables, c: Cluster, story: seq<Occurrence>)
  {
    Life(e, t0, story).Some? && AlikeIn(Life(e, t0, story).value, c)
  }

  predicate RunBy(e: Engine, t0: Tables, c: Cluster, steps: seq<Step>)
  {
    Go(e, t0, steps).Some? && AlikeIn(Go(e, t0, steps).value.cluster, c)
  }

  /** The cluster and the platform reach the same: statements in any order do neither more nor less than
   *  transactions one at a time. */
  lemma SameReached(e: Engine, t0: Tables, c: Cluster)
    requires e.Valid() && FreshDatabase(t0)
    ensures (exists story :: ToldBy(e, t0, c, story)) <==> (exists steps :: RunBy(e, t0, c, steps))
  {
    if story :| ToldBy(e, t0, c, story) {
      var steps := ClusterIsCovered(e, t0, story);
      AlikeBack(Life(e, t0, story).value, Go(e, t0, steps).value.cluster);
      AlikeTrans(Go(e, t0, steps).value.cluster, Life(e, t0, story).value, c);
      assert RunBy(e, t0, c, steps);
    }
    if steps :| RunBy(e, t0, c, steps) {
      var story := PlatformRefinesCluster(e, t0, steps);
      AlikeTrans(Life(e, t0, story).value, Go(e, t0, steps).value.cluster, c);
      assert ToldBy(e, t0, c, story);
    }
  }
}
