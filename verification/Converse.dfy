/** Every run of the saga is a run of interleaved statements: one in which each transaction runs alone. */
module Converse {
  import opened Domain
  import opened Pricing
  import opened Transactions
  import opened Events
  import opened Saga
  import opened SagaProperties
  import opened Trace
  import opened Composition
  import I = Interleaving
  import Z = Serializability

  lemma GoSnoc(e: Engine, t0: Tables, steps: seq<Step>, s: Step)
    requires Go(e, t0, steps).Some? && I.AllRequests(Go(e, t0, steps).value.sys) && CanStep(e, Go(e, t0, steps).value, s)
    ensures Go(e, t0, steps + [s]) == Some(StepTo(e, Go(e, t0, steps).value, s))
  {
    assert (steps + [s])[..|steps|] == steps;
  }

  lemma GoSound(e: Engine, t0: Tables, steps: seq<Step>)
    requires e.Valid() && FreshDatabase(t0) && Go(e, t0, steps).Some?
    ensures var x := Go(e, t0, steps).value;
            && Z.Inv(t0, x.sys) && I.AllRequests(x.sys) && x.sys.tables == x.world.db
            && Truthful(e, x.world) && WellFormed(x.world.db)
  {
    var trace := GoTracked(e, t0, steps);
    var x := Go(e, t0, steps).value;
    Sound(e, t0, x.sys, x.world, trace);
    InvRequests(t0, x.sys);
  }

  /** The transaction for this message is the only one. */
  predicate Alone(x: Whole, id: I.TxId, msg: nat)
  {
    x.sys.txs.Keys == {id} && x.msgs == map[id := msg] && At(x.world, x.sys.txs[id], msg) && Planned(x.world.db, x.sys.txs[id])
  }

  /** No transaction is in flight. */
  predicate Still(x: Whole)
  {
    x.sys.txs == map[] && x.msgs == map[]
  }

  lemma CommitAlone(e: Engine, t0: Tables, x: Whole, id: I.TxId, msg: nat)
    requires Z.Inv(t0, x.sys) && I.AllRequests(x.sys) && x.sys.tables == x.world.db
    requires Alone(x, id, msg) && x.sys.txs[id].stage.Ready?
    ensures CanStep(e, x, Commits(id)) && Still(StepTo(e, x, Commits(id))) && Enabled(e, x.world, Transacts(msg))
    ensures StepTo(e, x, Commits(id)).world == Next(e, x.world, Transacts(msg))
  {
    ReadyFinishes(e, t0, x.sys, x.world, id, msg);
  }

  lemma ReturnAlone(e: Engine, t0: Tables, x: Whole, id: I.TxId, msg: nat)
    requires Z.Inv(t0, x.sys) && I.AllRequests(x.sys) && x.sys.tables == x.world.db
    requires Alone(x, id, msg) && !x.sys.txs[id].stage.Ready? && CanStep(e, x, Runs(id))
    requires I.Advance(x.sys.tables, x.sys.txs[id], x.sys.clock).Return?
    ensures Still(StepTo(e, x, Runs(id))) && Enabled(e, x.world, Transacts(msg))
    ensures StepTo(e, x, Runs(id)).world == Next(e, x.world, Transacts(msg))
  {
    DuplicateFinishes(e, x.world, msg);
  }

  lemma GotoAlone(e: Engine, t0: Tables, x: Whole, id: I.TxId, msg: nat)
    requires Z.Inv(t0, x.sys) && I.AllRequests(x.sys) && x.sys.tables == x.world.db
    requires Truthful(e, x.world) && WellFormed(x.world.db)
    requires Alone(x, id, msg) && !x.sys.txs[id].stage.Ready? && CanStep(e, x, Runs(id))
    requires I.Advance(x.sys.tables, x.sys.txs[id], x.sys.clock).Goto?
    ensures Alone(StepTo(e, x, Runs(id)), id, msg) && StepTo(e, x, Runs(id)).world == x.world
    ensures Left(StepTo(e, x, Runs(id)).sys.txs[id].stage) < Left(x.sys.txs[id].stage)
  {
    StatementReads(t0, x.sys, id);
    RequestInOrder(e, x.world, msg);
    StatementsEnd(x.sys.tables, x.sys.txs[id], x.sys.clock);
  }

  /** A transaction that runs alone carries out the saga's move for its message. */
  lemma {:induction false} RunsAlone(e: Engine, t0: Tables, steps: seq<Step>, id: I.TxId, msg: nat) returns (steps': seq<Step>)
    requires e.Valid() && FreshDatabase(t0) && Go(e, t0, steps).Some? && Alone(Go(e, t0, steps).value, id, msg)
    ensures var w := Go(e, t0, steps).value.world;
            && Go(e, t0, steps').Some? && Still(Go(e, t0, steps').value)
            && Enabled(e, w, Transacts(msg)) && Go(e, t0, steps').value.world == Next(e, w, Transacts(msg))
    decreases Left(Go(e, t0, steps).value.sys.txs[id].stage)
  {
    var x := Go(e, t0, steps).value;
    GoSound(e, t0, steps);
    if x.sys.txs[id].stage.Ready? {
      CommitAlone(e, t0, x, id, msg);
      GoSnoc(e, t0, steps, Commits(id));
      steps' := steps + [Commits(id)];
    } else {
      StatementAllowed(t0, x.sys, id);
      GoSnoc(e, t0, steps, Runs(id));
      if I.Advance(x.sys.tables, x.sys.txs[id], x.sys.clock).Return? {
        ReturnAlone(e, t0, x, id, msg);
        steps' := steps + [Runs(id)];
      } else {
        GotoAlone(e, t0, x, id, msg);
        steps' := RunsAlone(e, t0, steps + [Runs(id)], id, msg);
      }
    }
  }

  lemma TransactAlone(e: Engine, t0: Tables, steps: seq<Step>, msg: nat) returns (steps': seq<Step>)
    requires e.Valid() && FreshDatabase(t0) && Go(e, t0, steps).Some? && Still(Go(e, t0, steps).value)
    requires Enabled(e, Go(e, t0, steps).value.world, Transacts(msg))
    ensures Go(e, t0, steps').Some? && Still(Go(e, t0, steps').value)
    ensures Go(e, t0, steps').value.world == Next(e, Go(e, t0, steps).value.world, Transacts(msg))
  {
    BeginAllowed(e, t0, steps, 0, msg);
    GoSnoc(e, t0, steps, Begins(0, msg));
    steps' := RunsAlone(e, t0, steps + [Begins(0, msg)], 0, msg);
  }

  /** A seed statement before its user is there fails, and changes nothing. */
  predicate FailedSeed(w: World, m: Move)
  {
    m.Seeds? && !PlanOf(w.db, m.seed).Commit?
  }

  lemma MoveAlone(e: Engine, x: Whole, m: Move)
    requires I.AllRequests(x.sys) && x.sys.tables == x.world.db && Still(x)
    requires Enabled(e, x.world, m) && !m.Transacts? && !FailedSeed(x.world, m)
    ensures CanStep(e, x, Moves(m)) && Still(StepTo(e, x, Moves(m)))
  {
  }

  lemma MoveCovered(e: Engine, t0: Tables, steps: seq<Step>, m: Move) returns (steps': seq<Step>)
    requires e.Valid() && FreshDatabase(t0) && Go(e, t0, steps).Some? && Still(Go(e, t0, steps).value)
    requires Enabled(e, Go(e, t0, steps).value.world, m)
    ensures Go(e, t0, steps').Some? && Still(Go(e, t0, steps').value)
    ensures Alike(Next(e, Go(e, t0, steps).value.world, m), Go(e, t0, steps').value.world)
  {
    var x := Go(e, t0, steps).value;
    if m.Transacts? {
      steps' := TransactAlone(e, t0, steps, m.msg);
    } else if FailedSeed(x.world, m) {
      steps' := steps;
    } else {
      GoSound(e, t0, steps);
      MoveAlone(e, x, m);
      GoSnoc(e, t0, steps, Moves(m));
      steps' := steps + [Moves(m)];
    }
  }

  /** The converse of WholeRefinesSaga: whatever a run of the saga leads to, some run of statements leads to
   *  as well. */
  lemma {:induction false} SagaIsCovered(e: Engine, t0: Tables, moves: seq<Move>) returns (steps: seq<Step>)
    requires e.Valid() && FreshDatabase(t0) && Exec(e, Start(t0), moves).Some?
    ensures Go(e, t0, steps).Some? && Still(Go(e, t0, steps).value)
    ensures Alike(Exec(e, Start(t0), moves).value, Go(e, t0, steps).value.world)
  {
    if moves == [] {
      steps := [];
    } else {
      var init, m := moves[..|moves| - 1], moves[|moves| - 1];
      var before := SagaIsCovered(e, t0, init);
      AlikeNext(e, Exec(e, Start(t0), init).value, Go(e, t0, before).value.world, m);
      steps := MoveCovered(e, t0, before, m);
    }
  }

  predicate RunBy(e: Engine, t0: Tables, w: World, steps: seq<Step>)
  {
    Go(e, t0, steps).Some? && Alike(Go(e, t0, steps).value.world, w)
  }

  ghost predicate MovedTo(e: Engine, t0: Tables, w: World)
  {
    exists v :: Reachable(e, t0, v) && Alike(v, w)
  }

  /** Statements in any order and transactions one at a time reach the same worlds. */
  lemma SameWorlds(e: Engine, t0: Tables, w: World)
    requires e.Valid() && FreshDatabase(t0)
    ensures MovedTo(e, t0, w) <==> exists steps :: RunBy(e, t0, w, steps)
  {
    if MovedTo(e, t0, w) {
      var v :| Reachable(e, t0, v) && Alike(v, w);
      var moves :| Exec(e, Start(t0), moves) == Some(v);
      var steps := SagaIsCovered(e, t0, moves);
      assert RunBy(e, t0, w, steps);
    }
    if steps :| RunBy(e, t0, w, steps) {
      var v := WholeRefinesSaga(e, t0, steps);
      assert Alike(v, w);
    }
  }
}
