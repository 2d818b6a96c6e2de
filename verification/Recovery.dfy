/** What restarting the consumers makes good: every order that still has a live token, and nothing
 *  else. */
module Recovery {
  import opened Domain
  import opened Pricing
  import opened Transactions
  import opened Events
  import opened Kafka
  import opened Saga
  import opened SagaProperties
  import opened Delivery
  import opened Rest

  // ------------------------------------------------------------ nothing is skipped after a restart

  /** No failure is behind the consumer, and its commits under way reach up to it. */
  predicate TightCursor(c: Cursor)
  {
    c.failed == {} && c.position == if c.pending == [] then c.committed else c.pending[|c.pending| - 1]
  }

  predicate Tight(c: Cluster)
  {
    |c.cursors| == PARTITIONS && forall p :: 0 <= p < PARTITIONS ==> TightCursor(c.cursors[p])
  }

  lemma ProgressKeepsTight(e: Engine, c: Cluster, o: Occurrence)
    requires Tight(c) && CanOccur(e, c, o) && Progress(c, o)
    ensures Tight(Occur(e, c, o))
  {
    var c' := Occur(e, c, o);
    assert |c'.cursors| == PARTITIONS;
    forall p | 0 <= p < PARTITIONS
      ensures TightCursor(c'.cursors[p])
    {
      assert TightCursor(c.cursors[p]);
    }
  }

  lemma IdleTightCommitted(c: Cluster)
    requires Tight(c) && Idle(c)
    ensures AllCommitted(c)
  {
    forall i | 0 <= i < |c.world.log| && !c.world.log[i].payload.OrderExecuted?
      ensures Offset(c.world.log, i) < CursorOf(c, i).committed
    {
      assert TightCursor(CursorOf(c, i));
    }
  }

  // ------------------------------------------------------------ a message ahead resolves its order

  /** The order is terminal, or a message of it lies ahead of its consumer, its handler's work not done. */
  predicate Alive(c: Cluster, o: OrderId)
    requires |c.cursors| == PARTITIONS
  {
    Terminal(c.world.db, o) || exists i :: 0 <= i < |c.world.log| && AheadFor(c, i, o)
  }

  predicate AheadFor(c: Cluster, i: nat, o: OrderId)
    requires |c.cursors| == PARTITIONS
  {
    && i < |c.world.log| && c.world.log[i].order == o && !c.world.log[i].payload.OrderExecuted?
    && CursorOf(c, i).position <= Offset(c.world.log, i) && i !in c.served
  }

  lemma TerminalStays(t: Tables, t': Tables, o: OrderId)
    requires Terminal(t, o) && Onward(t, t')
    ensures Terminal(t', o)
  {
  }

  lemma ReachesOnward(e: Engine, w: World, w': World)
    requires Reaches(e, w, w')
    ensures Onward(w.db, w'.db)
  {
    var moves :| Exec(e, w, moves) == Some(w');
    ExecOnward(e, w, moves);
  }

  /** A message ahead stays ahead while another one is worked on or returned. */
  lemma AheadStays(e: Engine, c: Cluster, x: Occurrence, i: nat, o: OrderId)
    requires InStep(c) && CanOccur(e, c, x) && Progress(c, x) && AheadFor(c, i, o)
    requires x.Service? ==> i !in Served(c.world, x.move)
    ensures |Occur(e, c, x).cursors| == PARTITIONS && AheadFor(Occur(e, c, x), i, o)
  {
    match x
    case Service(m) =>
      ServiceEnabled(e, c, m);
      ServiceFrame(e, c.world, m);
      OffsetsKept(c.world.log, Next(e, c.world, m).log);
    case Returned(msg, _) =>
      if PartitionOf(c.world.log[i]) == PartitionOf(c.world.log[msg]) && Offset(c.world.log, i) == Offset(c.world.log, msg) {
        OffsetUnique(c.world.log, i, msg);
      }
    case Broker(h) =>
  }

  /** The handler of a message ahead resolves its order, or publishes another message ahead. */
  lemma ServedAlive(e: Engine, t0: Tables, c: Cluster, m: Move, i: nat)
    requires Inv(e, t0, c.world) && InStep(c) && CanOccur(e, c, Service(m)) && Enabled(e, c.world, m)
    requires i in Served(c.world, m)
    ensures var c' := Occur(e, c, Service(m));
            && |c'.cursors| == PARTITIONS && i < |c.world.log| && Alive(c', c.world.log[i].order)
  {
    var c', w := Occur(e, c, Service(m)), c.world;
    match m
    case MarketReplies(msg, bps) => AnswerAhead(e, c, m);
    case OutcomeSent(msg) => OutcomeTerminal(e, w.db, w.log[msg].order, w.sending[msg]);
    case Transacts(msg) =>
      RequestSettles(e, w.db, w.log[msg]);
      if w.log[msg].event in w.db.processed {
        AlreadyTerminal(w, msg);
        ApplyOnward(w.db, Request(w.log[msg]));
        TerminalStays(w.db, c'.world.db, w.log[msg].order);
      }
    case _ =>
  }

  lemma AnswerPublished(e: Engine, w: World, m: Move)
    requires Enabled(e, w, m) && m.MarketReplies?
    ensures var w' := Next(e, w, m);
            && w.log <= w'.log && |w'.log| == |w.log| + 1
            && w'.log[|w.log|].order == w.log[m.msg].order && !w'.log[|w.log|].payload.OrderExecuted?
  {
  }

  lemma AnswerAhead(e: Engine, c: Cluster, m: Move)
    requires CursorsOk(c) && AtWork(c) && CanOccur(e, c, Service(m)) && Enabled(e, c.world, m) && m.MarketReplies?
    ensures var c' := Occur(e, c, Service(m));
            && |c'.cursors| == PARTITIONS && m.msg < |c.world.log|
            && AheadFor(c', |c.world.log|, c.world.log[m.msg].order)
  {
    AnswerPublished(e, c.world, m);
    PublishedAhead(c, Occur(e, c, Service(m)));
  }

  /** A message just published lies ahead of its consumer. */
  lemma PublishedAhead(c: Cluster, c': Cluster)
    requires CursorsOk(c) && AtWork(c) && c'.cursors == c.cursors && |c.world.log| !in c'.served
    requires c.world.log <= c'.world.log && |c'.world.log| == |c.world.log| + 1
    requires !c'.world.log[|c.world.log|].payload.OrderExecuted?
    ensures AheadFor(c', |c.world.log|, c'.world.log[|c.world.log|].order)
  {
    var j := |c.world.log|;
    OffsetsKept(c.world.log, c'.world.log);
    assert CursorIn(CursorOf(c', j), Length(c.world.log, PartitionOf(c'.world.log[j])));
  }

  lemma AheadKeepsAlive(e: Engine, t0: Tables, c: Cluster, x: Occurrence, i: nat, o: OrderId)
    requires Inv(e, t0, c.world) && InStep(c) && CanOccur(e, c, x) && Progress(c, x) && AheadFor(c, i, o)
    ensures |Occur(e, c, x).cursors| == PARTITIONS && Alive(Occur(e, c, x), o)
  {
    if x.Service? && i in Served(c.world, x.move) {
      ServiceEnabled(e, c, x.move);
      ServedAlive(e, t0, c, x.move, i);
    } else {
      AheadStays(e, c, x, i, o);
    }
  }

  lemma ProgressKeepsAlive(e: Engine, t0: Tables, c: Cluster, x: Occurrence, o: OrderId)
    requires e.Valid() && FreshDatabase(t0) && ClusterInv(e, t0, c) && CanOccur(e, c, x) && Progress(c, x) && Alive(c, o)
    ensures |Occur(e, c, x).cursors| == PARTITIONS && Alive(Occur(e, c, x), o)
  {
    if Terminal(c.world.db, o) {
      OccurReaches(e, c, x);
      OccurKeeps(e, c, x);
      ReachesOnward(e, c.world, Occur(e, c, x).world);
      TerminalStays(c.world.db, Occur(e, c, x).world.db, o);
    } else {
      var i :| 0 <= i < |c.world.log| && AheadFor(c, i, o);
      ReachableInv(e, t0, c.world);
      AheadKeepsAlive(e, t0, c, x, i, o);
    }
  }

  lemma {:induction false} RunKeepsAlive(e: Engine, t0: Tables, c: Cluster, story: seq<Occurrence>, o: OrderId)
    requires e.Valid() && FreshDatabase(t0) && ClusterInv(e, t0, c) && ProgressRun(e, c, story) && Alive(c, o)
    ensures Goes(e, c, story).Some? && |Goes(e, c, story).value.cursors| == PARTITIONS
    ensures Alive(Goes(e, c, story).value, o)
  {
    if story != [] {
      var init, x := story[..|story| - 1], story[|story| - 1];
      RunKeepsAlive(e, t0, c, init, o);
      ProgressRunFalls(e, t0, c, init);
      ProgressKeepsAlive(e, t0, Goes(e, c, init).value, x, o);
    }
  }

  lemma {:induction false} RunKeepsTight(e: Engine, t0: Tables, c: Cluster, story: seq<Occurrence>)
    requires e.Valid() && FreshDatabase(t0) && ClusterInv(e, t0, c) && ProgressRun(e, c, story) && Tight(c)
    ensures Goes(e, c, story).Some? && Tight(Goes(e, c, story).value)
  {
    if story != [] {
      var init, x := story[..|story| - 1], story[|story| - 1];
      RunKeepsTight(e, t0, c, init);
      ProgressKeepsTight(e, Goes(e, c, init).value, x);
    }
  }

  /** At rest nothing is ahead. */
  lemma IdleAliveTerminal(c: Cluster, o: OrderId)
    requires |c.cursors| == PARTITIONS && Idle(c) && Alive(c, o)
    ensures Terminal(c.world.db, o)
  {
  }

  // ------------------------------------------------------------ sending what is unsent

  lemma SendKeepsTokens(e: Engine, t0: Tables, c: Cluster, id: OrderId)
    requires ClusterInv(e, t0, c) && CanOccur(e, c, Service(PostSends(id))) && Enabled(e, c.world, PostSends(id))
    ensures forall o :: HasToken(c.world, o) ==> HasToken(Occur(e, c, Service(PostSends(id))).world, o)
  {
    var w, w' := c.world, Occur(e, c, Service(PostSends(id))).world;
    forall o | HasToken(w, o)
      ensures HasToken(w', o)
    {
      if o == id {
        assert w'.log[|w.log|].order == o && Outstanding(w', |w.log|);
      } else if o !in w.unsent {
        var i :| 0 <= i < |w.log| && Outstanding(w, i) && w.log[i].order == o;
        assert w'.log[i] == w.log[i] && Outstanding(w', i);
      }
    }
  }

  /** Every POST under way can send. */
  lemma {:induction false} SendsAll(e: Engine, t0: Tables, c: Cluster) returns (story: seq<Occurrence>)
    requires e.Valid() && FreshDatabase(t0) && ClusterInv(e, t0, c)
    ensures Goes(e, c, story).Some? && ClusterInv(e, t0, Goes(e, c, story).value)
    ensures Goes(e, c, story).value.world.unsent == {}
    ensures forall o :: HasToken(c.world, o) ==> HasToken(Goes(e, c, story).value.world, o)
    ensures Onward(c.world.db, Goes(e, c, story).value.world.db)
    decreases |c.world.unsent|
  {
    if c.world.unsent == {} {
      story := [];
    } else {
      ReachableInv(e, t0, c.world);
      var id :| id in c.world.unsent;
      var x := Service(PostSends(id));
      var c' := Occur(e, c, x);
      assert |c'.world.unsent| == |c.world.unsent| - 1;
      SendKeepsTokens(e, t0, c, id);
      GoesSnoc(e, c, [], x);
      assert [] + [x] == [x];
      GoesOn(e, t0, c, [x]);
      var later := SendsAll(e, t0, c');
      GoesJoin(e, c, [x], later);
      story := [x] + later;
    }
  }

  // ------------------------------------------------------------ restarting

  /** A restart of every consumer puts each back at its committed offset, so an unacknowledged message is
   *  ahead again. */
  lemma RestartRevives(c: Cluster, c': Cluster, o: OrderId)
    requires InStep(c) && c.world.unsent == {} && HasToken(c.world, o)
    requires |c'.cursors| == PARTITIONS && forall p :: 0 <= p < PARTITIONS ==> c'.cursors[p] == Reopen(c.cursors[p])
    requires c'.served == {} && c'.world == c.world.(sending := map[])
    ensures Alive(c', o)
  {
    var i :| 0 <= i < |c.world.log| && Outstanding(c.world, i) && c.world.log[i].order == o;
    assert AheadFor(c', i, o);
  }

  lemma RestartTightens(c: Cluster, c': Cluster)
    requires |c.cursors| == PARTITIONS == |c'.cursors|
    requires forall p :: 0 <= p < PARTITIONS ==> c'.cursors[p] == Reopen(c.cursors[p])
    ensures Tight(c')
  {
  }

  /** The successful steps after such a restart lead to rest, with every message committed and every order
   *  with a live token resolved. */
  lemma RestartResolves(e: Engine, t0: Tables, c: Cluster) returns (story: seq<Occurrence>)
    requires e.Valid() && FreshDatabase(t0) && ClusterInv(e, t0, c)
    ensures Goes(e, c, story).Some? && |Goes(e, c, story).value.cursors| == PARTITIONS
    ensures var end := Goes(e, c, story).value;
            && AllCommitted(end) && Idle(end) && Onward(c.world.db, end.world.db)
            && forall o :: HasToken(c.world, o) ==> Terminal(end.world.db, o)
  {
    var sends := SendsAll(e, t0, c);
    var c1 := Goes(e, c, sends).value;
    var c2 := Occur(e, c1, Restarts(ALL_PARTITIONS));
    GoesSnoc(e, c, sends, Restarts(ALL_PARTITIONS));
    GoesOn(e, t0, c, sends + [Restarts(ALL_PARTITIONS)]);
    RestartAll(e, c1);
    RestartTightens(c1, c2);
    var drain := GoesIdle(e, t0, c2, []);
    ProgressRunFalls(e, t0, c2, drain);
    var end := Goes(e, c2, drain).value;
    RunKeepsTight(e, t0, c2, drain);
    IdleTightCommitted(end);
    forall o | HasToken(c.world, o)
      ensures Terminal(end.world.db, o)
    {
      RestartRevives(c1, c2, o);
      RunKeepsAlive(e, t0, c2, drain, o);
      IdleAliveTerminal(end, o);
    }
    story := sends + [Restarts(ALL_PARTITIONS)] + drain;
    GoesJoin(e, c, sends + [Restarts(ALL_PARTITIONS)], drain);
    GoesOn(e, t0, c, story);
    ReachesOnward(e, c.world, end.world);
  }

  /** From any cluster, a restart of every consumer and successful steps lead to a cluster with every
   *  message committed, and with every order terminal except those whose POST had died unsent and those
   *  a message of which the committed offset had passed unhandled before. */
  lemma RestartRecovers(e: Engine, t0: Tables, story: seq<Occurrence>) returns (more: seq<Occurrence>)
    requires e.Valid() && FreshDatabase(t0) && Life(e, t0, story).Some?
    ensures |Life(e, t0, story).value.cursors| == PARTITIONS
    ensures Life(e, t0, story + more).Some? && |Life(e, t0, story + more).value.cursors| == PARTITIONS
    ensures var c, end := Life(e, t0, story).value, Life(e, t0, story + more).value;
            && AllCommitted(end) && Idle(end)
            && forall o <- c.world.db.orders :: Terminal(end.world.db, o) || Died(story, o) || LostMessage(c, o)
  {
    ClusterRefinesSaga(e, t0, story);
    var c := Life(e, t0, story).value;
    more := RestartResolves(e, t0, c);
    GoesJoin(e, Booted(t0), story, more);
    var end := Life(e, t0, story + more).value;
    ReachableInv(e, t0, c.world);
    forall o | o in c.world.db.orders
      ensures Terminal(end.world.db, o) || Died(story, o) || LostMessage(c, o)
    {
      assert RowConsistent(c.world.db.orders[o]);
      if IsCreated(c.world.db, o) {
        CreatedHasToken(e, t0, c.world, o);
        if o in c.world.abandoned {
          AbandonedWhy(e, t0, story, o);
        }
      } else {
        TerminalStays(c.world.db, end.world.db, o);
      }
    }
  }

  ghost predicate ConsumersCanResolve(e: Engine, c: Cluster, o: OrderId)
  {
    exists story :: Goes(e, c, story).Some? && Terminal(Goes(e, c, story).value.world.db, o)
  }

  /** With the real consumers, too, a CREATED order can still be resolved if and only if it has a live
   *  token. */
  lemma TokenRecovers(e: Engine, t0: Tables, story: seq<Occurrence>, o: OrderId)
    requires e.Valid() && FreshDatabase(t0) && Life(e, t0, story).Some?
    requires IsCreated(Life(e, t0, story).value.world.db, o)
    ensures ConsumersCanResolve(e, Life(e, t0, story).value, o) <==> HasToken(Life(e, t0, story).value.world, o)
  {
    ClusterRefinesSaga(e, t0, story);
    var c := Life(e, t0, story).value;
    if HasToken(c.world, o) {
      var more := RestartResolves(e, t0, c);
    } else {
      forall more | Goes(e, c, more).Some?
        ensures !Terminal(Goes(e, c, more).value.world.db, o)
      {
        NeverRecovers(e, t0, c, more, o);
      }
    }
  }

  lemma NeverRecovers(e: Engine, t0: Tables, c: Cluster, more: seq<Occurrence>, o: OrderId)
    requires e.Valid() && FreshDatabase(t0) && ClusterInv(e, t0, c) && Stranded(c.world, o) && Goes(e, c, more).Some?
    ensures !Terminal(Goes(e, c, more).value.world.db, o)
  {
    GoesOn(e, t0, c, more);
    ReachableInv(e, t0, c.world);
    var moves :| Exec(e, c.world, moves) == Some(Goes(e, c, more).value.world);
    StrandedForEver(e, t0, c.world, moves, o);
  }
}
