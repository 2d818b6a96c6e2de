/** The saga over real consumers: partitions, positions, commits and restarts instead of messages that
 *  may be delivered at any time. Every run of this cluster is a run of the saga. */
module Delivery {
  import opened Domain
  import opened Pricing
  import opened Transactions
  import opened Events
  import opened Kafka
  import opened Saga
  import opened SagaProperties

  // ------------------------------------------------------------ offsets

  /** How many of the first `n` messages went to a partition. */
  function CountIn(log: seq<Envelope>, p: nat, n: nat): nat
    requires n <= |log|
  {
    if n == 0 then 0 else CountIn(log, p, n - 1) + if PartitionOf(log[n - 1]) == p then 1 else 0
  }

  /** The offset of a message in its partition. */
  function Offset(log: seq<Envelope>, i: nat): nat
    requires i < |log|
  {
    CountIn(log, PartitionOf(log[i]), i)
  }

  function Length(log: seq<Envelope>, p: nat): nat
  {
    CountIn(log, p, |log|)
  }

  lemma {:induction false} CountGrows(log: seq<Envelope>, p: nat, m: nat, n: nat)
    requires m <= n <= |log|
    ensures CountIn(log, p, m) <= CountIn(log, p, n)
    ensures m < n && PartitionOf(log[m]) == p ==> CountIn(log, p, m) < CountIn(log, p, n)
  {
    if m < n {
      CountGrows(log, p, m, n - 1);
    }
  }

  /** A message is known by its partition and offset. */
  lemma OffsetUnique(log: seq<Envelope>, i: nat, j: nat)
    requires i < |log| && j < |log| && PartitionOf(log[i]) == PartitionOf(log[j]) && Offset(log, i) == Offset(log, j)
    ensures i == j
  {
    if i < j {
      CountGrows(log, PartitionOf(log[i]), i, j);
    } else {
      CountGrows(log, PartitionOf(log[i]), j, i);
    }
  }

  lemma OffsetBelowLength(log: seq<Envelope>, i: nat)
    requires i < |log|
    ensures Offset(log, i) < Length(log, PartitionOf(log[i]))
  {
    CountGrows(log, PartitionOf(log[i]), i, |log|);
  }

  lemma {:induction false} CountKept(log: seq<Envelope>, log': seq<Envelope>, p: nat, n: nat)
    requires n <= |log| && log <= log'
    ensures CountIn(log', p, n) == CountIn(log, p, n)
  {
    if n > 0 {
      CountKept(log, log', p, n - 1);
    }
  }

  /** Publishing changes no offset and shortens no partition. */
  lemma OffsetsKept(log: seq<Envelope>, log': seq<Envelope>)
    requires log <= log'
    ensures forall i :: 0 <= i < |log| ==> Offset(log', i) == Offset(log, i)
    ensures forall p :: Length(log, p) <= Length(log', p)
    ensures forall i :: |log| <= i < |log'| ==> Length(log, PartitionOf(log'[i])) <= Offset(log', i)
  {
    forall i | 0 <= i < |log|
      ensures Offset(log', i) == Offset(log, i)
    {
      CountKept(log, log', PartitionOf(log[i]), i);
    }
    forall p
      ensures Length(log, p) <= Length(log', p)
    {
      CountKept(log, log', p, |log|);
      CountGrows(log', p, |log|, |log'|);
    }
    forall i | |log| <= i < |log'|
      ensures Length(log, PartitionOf(log'[i])) <= Offset(log', i)
    {
      CountKept(log, log', PartitionOf(log'[i]), |log|);
      CountGrows(log', PartitionOf(log'[i]), |log|, i);
    }
  }

  predicate InRange(log: seq<Envelope>, p: nat, from: nat, to: nat, i: nat)
  {
    i < |log| && PartitionOf(log[i]) == p && from <= Offset(log, i) < to
  }

  // ------------------------------------------------------------ the cluster

  /** The saga's world with a cursor for each partition; a partition has one consumer group. `served` are
   *  the messages whose handler, in its present delivery, has done its work. */
  datatype Cluster = Cluster(world: World, cursors: seq<Cursor>, served: set<nat>)

  datatype Occurrence =
    | Service(move: Move)              // a service makes a move of the saga
    | Returned(msg: nat, ok: bool)     // the handler of a received message returns
    | Broker(happening: Happening)     // a commit lands or is lost, or a receive error
    | Restarts(partitions: set<nat>)   // a process starts again, or its partitions move to another

  function CursorOf(c: Cluster, msg: nat): Cursor
    requires |c.cursors| == PARTITIONS && msg < |c.world.log|
  {
    c.cursors[PartitionOf(c.world.log[msg])]
  }

  /** The consumer of the message's partition stands at it. */
  predicate Receiving(c: Cluster, msg: nat)
    requires |c.cursors| == PARTITIONS
  {
    && msg < |c.world.log| && !c.world.log[msg].payload.OrderExecuted?
    && Offset(c.world.log, msg) == CursorOf(c, msg).position
  }

  /** A handler runs once in each delivery, on the message received, and returns Ok only when it has done
   *  its work; it may return Err at any point, even then. */
  predicate CanOccur(e: Engine, c: Cluster, o: Occurrence)
    requires |c.cursors| == PARTITIONS
  {
    match o
    case Service(MarketReplies(msg, bps)) =>
      Receiving(c, msg) && msg !in c.served && c.world.log[msg].payload.OrderCreated? && InBand(bps)
    case Service(Transacts(msg)) =>
      && Receiving(c, msg) && msg !in c.served && msg !in c.world.sending && ForPortfolio(c.world.log[msg].payload)
      && !PlanOf(c.world.db, Request(c.world.log[msg])).reply.Failed?
    case Service(Acks(_)) => false
    case Service(PassesOver(_)) => false
    case Service(m) => Enabled(e, c.world, m)
    case Returned(msg, ok) => Receiving(c, msg) && msg !in c.world.sending && (ok ==> msg in c.served)
    case Broker(h) => !h.Received? && !h.Restart?
    case Restarts(_) => true
  }

  /** The message whose handler has done its work with this move, if any. */
  function Served(w: World, m: Move): set<nat>
  {
    match m
    case MarketReplies(msg, _) => {msg}
    case OutcomeSent(msg) => {msg}
    case Transacts(msg) =>
      if msg < |w.log| && ForPortfolio(w.log[msg].payload) && OutcomeOf(PlanOf(w.db, Request(w.log[msg])).reply).None?
      then {msg} else {}
    case _ => {}
  }

  /** Committed offsets pass messages; the order of one never handled with Ok is given up. */
  function PassAll(w: World, s: set<nat>): World
    requires forall i <- s :: i < |w.log|
  {
    w.(acked := w.acked + s, abandoned := w.abandoned + set i | i in s && i !in w.handled :: w.log[i].order)
  }

  /** The messages that the oldest commit under way takes the committed offset past. */
  function Landing(c: Cluster, p: nat): set<nat>
    requires |c.cursors| == PARTITIONS && p < PARTITIONS
  {
    set i | 0 <= i < |c.world.log| && InRange(c.world.log, p, c.cursors[p].committed, Land(c.cursors[p]).committed, i)
  }

  function LandIn(c: Cluster, p: nat): World
    requires |c.cursors| == PARTITIONS
  {
    if p < PARTITIONS then PassAll(c.world, Landing(c, p)) else c.world
  }

  /** The messages of some partitions. */
  function Within(log: seq<Envelope>, group: set<nat>): set<nat>
  {
    set i | 0 <= i < |log| && PartitionOf(log[i]) in group
  }

  function DropAll(w: World, s: set<nat>): World
  {
    w.(sending := w.sending - s)
  }

  /** In a run every service's move is enabled in the saga, by ServiceEnabled. */
  function Occur(e: Engine, c: Cluster, o: Occurrence): Cluster
    requires |c.cursors| == PARTITIONS && CanOccur(e, c, o)
  {
    match o
    case Service(m) =>
      if Enabled(e, c.world, m) then c.(world := Next(e, c.world, m), served := c.served + Served(c.world, m)) else c
    case Returned(msg, ok) =>
      var p := PartitionOf(c.world.log[msg]);
      c.(cursors := c.cursors[p := Receive(c.cursors[p], ok)], served := c.served - {msg})
    case Broker(h) =>
      c.(world := if h.CommitLands? then LandIn(c, h.partition) else c.world,
         cursors := seq(PARTITIONS, p requires 0 <= p < PARTITIONS => Step(c.cursors[p], p, h)))
    case Restarts(group) =>
      Cluster(DropAll(c.world, Within(c.world.log, group)),
              seq(PARTITIONS, p requires 0 <= p < PARTITIONS => if p in group then Reopen(c.cursors[p]) else c.cursors[p]),
              c.served - Within(c.world.log, group))
  }

  const ALL_PARTITIONS: set<nat> := {0, 1, 2, 3, 4, 5, 6, 7, 8, 9, 10, 11}

  function Booted(t: Tables): Cluster
  {
    Cluster(Start(t), seq(PARTITIONS, _ => FRESH), {})
  }

  /** What a story makes of a cluster; `None` when something in it cannot occur. */
  function Goes(e: Engine, c: Cluster, story: seq<Occurrence>): Option<Cluster>
  {
    if story == [] then Some(c)
    else
      var before, o := Goes(e, c, story[..|story| - 1]), story[|story| - 1];
      if before.Some? && |before.value.cursors| == PARTITIONS && CanOccur(e, before.value, o)
      then Some(Occur(e, before.value, o)) else None
  }

  function Life(e: Engine, t0: Tables, story: seq<Occurrence>): Option<Cluster>
  {
    Goes(e, Booted(t0), story)
  }

  // ------------------------------------------------------------ the invariant

  predicate CursorIn(c: Cursor, length: nat)
  {
    CursorOk(c) && c.seen <= length
  }

  predicate CursorsOk(c: Cluster)
  {
    && |c.cursors| == PARTITIONS
    && forall p :: 0 <= p < PARTITIONS ==> CursorIn(c.cursors[p], Length(c.world.log, p))
  }

  /** Acknowledged are exactly the messages that the committed offset has passed. */
  predicate AckedBelow(c: Cluster)
    requires |c.cursors| == PARTITIONS
  {
    && (forall i <- c.world.acked :: i < |c.world.log|)
    && (forall i :: 0 <= i < |c.world.log| ==> (i in c.world.acked <==> Offset(c.world.log, i) < CursorOf(c, i).committed))
  }

  predicate OkHandled(c: Cluster)
    requires |c.cursors| == PARTITIONS
  {
    forall i :: 0 <= i < |c.world.log| && Offset(c.world.log, i) in CursorOf(c, i).ok ==> i in c.world.handled
  }

  /** Handlers at work are at work on received messages. */
  predicate AtWork(c: Cluster)
    requires |c.cursors| == PARTITIONS
  {
    && (forall i <- c.served :: Receiving(c, i) && i in c.world.handled)
    && (forall i <- c.world.sending :: Receiving(c, i) && c.world.log[i].payload.PriceQuoted? && i !in c.served)
  }

  predicate InStep(c: Cluster)
  {
    CursorsOk(c) && AckedBelow(c) && OkHandled(c) && AtWork(c)
  }

  ghost predicate ClusterInv(e: Engine, t0: Tables, c: Cluster)
  {
    InStep(c) && Reachable(e, t0, c.world)
  }

  /** What is received has not been acknowledged. */
  lemma ReceivedIsOpen(c: Cluster, msg: nat)
    requires CursorsOk(c) && AckedBelow(c) && Receiving(c, msg)
    ensures Open(c.world, msg)
  {
    assert CursorIn(CursorOf(c, msg), Length(c.world.log, PartitionOf(c.world.log[msg])));
  }

  /** A partition's consumer stands at one message. */
  lemma ReceivingOne(c: Cluster, i: nat, j: nat)
    requires |c.cursors| == PARTITIONS && Receiving(c, i) && Receiving(c, j)
    requires PartitionOf(c.world.log[i]) == PartitionOf(c.world.log[j])
    ensures i == j
  {
    OffsetUnique(c.world.log, i, j);
  }

  // ------------------------------------------------------------ moves of services

  lemma ServiceEnabled(e: Engine, c: Cluster, m: Move)
    requires CursorsOk(c) && AckedBelow(c) && CanOccur(e, c, Service(m))
    ensures Enabled(e, c.world, m) && !m.Acks? && !m.PassesOver?
  {
    match m
    case MarketReplies(msg, _) => ReceivedIsOpen(c, msg);
    case Transacts(msg) => ReceivedIsOpen(c, msg);
    case _ =>
  }

  /** A move of a service adds messages and handled ones, and acknowledges nothing. */
  lemma ServiceFrame(e: Engine, w: World, m: Move)
    requires Enabled(e, w, m) && !m.Acks? && !m.PassesOver?
    ensures var w' := Next(e, w, m);
            && w.log <= w'.log && w'.acked == w.acked && w.handled + Served(w, m) <= w'.handled
            && w'.abandoned <= w.abandoned + (if m.PostDies? then {m.id} else {})
            && w'.sending.Keys <= w.sending.Keys + (if m.Transacts? && Served(w, m) == {} then {m.msg} else {})
            && (m.OutcomeSent? ==> m.msg in w.sending && m.msg !in w'.sending)
  {
  }

  lemma ServiceKeeps(e: Engine, c: Cluster, m: Move)
    requires InStep(c) && CanOccur(e, c, Service(m))
    ensures InStep(Occur(e, c, Service(m)))
  {
    ServiceEnabled(e, c, m);
    ServiceFrame(e, c.world, m);
    var w', served := Next(e, c.world, m), c.served + Served(c.world, m);
    GrowthKeeps(c, w', served);
    WorkGoesOn(e, c, m);
  }

  /** Growing logs and handled sets keep the cursors in step. */
  lemma GrowthKeeps(c: Cluster, w': World, served: set<nat>)
    requires CursorsOk(c) && AckedBelow(c) && OkHandled(c)
    requires c.world.log <= w'.log && w'.acked == c.world.acked && c.world.handled <= w'.handled
    ensures var c' := c.(world := w', served := served); CursorsOk(c') && AckedBelow(c') && OkHandled(c')
  {
    var c' := c.(world := w', served := served);
    OffsetsKept(c.world.log, w'.log);
    GrowthKeepsCursors(c, c');
    forall i | 0 <= i < |w'.log|
      ensures i in w'.acked <==> Offset(w'.log, i) < CursorOf(c', i).committed
      ensures Offset(w'.log, i) in CursorOf(c', i).ok ==> i in w'.handled
    {
      GrowthKeepsMessage(c, c', i);
    }
  }

  lemma GrowthKeepsCursors(c: Cluster, c': Cluster)
    requires CursorsOk(c) && c'.cursors == c.cursors && forall p :: Length(c.world.log, p) <= Length(c'.world.log, p)
    ensures CursorsOk(c')
  {
  }

  lemma GrowthKeepsMessage(c: Cluster, c': Cluster, i: nat)
    requires CursorsOk(c) && AckedBelow(c) && OkHandled(c) && i < |c'.world.log| && c'.cursors == c.cursors
    requires c.world.log <= c'.world.log && c'.world.acked == c.world.acked && c.world.handled <= c'.world.handled
    requires i < |c.world.log| ==> Offset(c'.world.log, i) == Offset(c.world.log, i)
    requires |c.world.log| <= i ==> Length(c.world.log, PartitionOf(c'.world.log[i])) <= Offset(c'.world.log, i)
    ensures i in c'.world.acked <==> Offset(c'.world.log, i) < CursorOf(c', i).committed
    ensures Offset(c'.world.log, i) in CursorOf(c', i).ok ==> i in c'.world.handled
  {
    if i < |c.world.log| {
      assert CursorOf(c', i) == CursorOf(c, i);
    } else {
      assert CursorIn(CursorOf(c', i), Length(c.world.log, PartitionOf(c'.world.log[i])));
    }
  }

  /** Publishing moves no consumer. */
  lemma StillReceiving(c: Cluster, c': Cluster, i: nat)
    requires |c.cursors| == PARTITIONS && c'.cursors == c.cursors && c.world.log <= c'.world.log && Receiving(c, i)
    ensures Receiving(c', i)
  {
    OffsetsKept(c.world.log, c'.world.log);
  }

  lemma WorkGoesOn(e: Engine, c: Cluster, m: Move)
    requires CursorsOk(c) && AckedBelow(c) && AtWork(c) && CanOccur(e, c, Service(m))
    ensures AtWork(Occur(e, c, Service(m)))
  {
    ServiceEnabled(e, c, m);
    ServiceFrame(e, c.world, m);
    var c' := Occur(e, c, Service(m));
    forall i | i in c'.served
      ensures Receiving(c', i) && i in c'.world.handled
    {
      StillReceiving(c, c', i);
    }
    forall i | i in c'.world.sending
      ensures Receiving(c', i) && c'.world.log[i].payload.PriceQuoted? && i !in c'.served
    {
      SendingGoesOn(e, c, m, i);
      StillReceiving(c, c', i);
    }
  }

  lemma SendingGoesOn(e: Engine, c: Cluster, m: Move, i: nat)
    requires |c.cursors| == PARTITIONS && AtWork(c) && CanOccur(e, c, Service(m)) && Enabled(e, c.world, m)
    requires i in Next(e, c.world, m).sending
    ensures Receiving(c, i) && c.world.log[i].payload.PriceQuoted? && i !in c.served + Served(c.world, m)
  {
  }

  // ------------------------------------------------------------ returns and restarts

  lemma ReturnKeeps(e: Engine, c: Cluster, msg: nat, ok: bool)
    requires InStep(c) && CanOccur(e, c, Returned(msg, ok))
    ensures InStep(Occur(e, c, Returned(msg, ok)))
  {
    var c', p := Occur(e, c, Returned(msg, ok)), PartitionOf(c.world.log[msg]);
    assert CursorIn(c.cursors[p], Length(c.world.log, p));
    ReceiveKeepsOk(c.cursors[p], ok);
    OffsetBelowLength(c.world.log, msg);
    assert CursorsOk(c');
    ReturnKeepsHandled(e, c, msg, ok);
    ReturnKeepsWork(e, c, msg, ok);
  }

  lemma ReturnKeepsHandled(e: Engine, c: Cluster, msg: nat, ok: bool)
    requires InStep(c) && CanOccur(e, c, Returned(msg, ok))
    ensures |Occur(e, c, Returned(msg, ok)).cursors| == PARTITIONS && OkHandled(Occur(e, c, Returned(msg, ok)))
  {
    var c', p := Occur(e, c, Returned(msg, ok)), PartitionOf(c.world.log[msg]);
    forall i | 0 <= i < |c.world.log| && Offset(c.world.log, i) in CursorOf(c', i).ok
      ensures i in c.world.handled
    {
      if PartitionOf(c.world.log[i]) == p && Offset(c.world.log, i) == c.cursors[p].position && ok {
        OffsetUnique(c.world.log, i, msg);
      }
    }
  }

  lemma ReturnKeepsWork(e: Engine, c: Cluster, msg: nat, ok: bool)
    requires InStep(c) && CanOccur(e, c, Returned(msg, ok))
    ensures |Occur(e, c, Returned(msg, ok)).cursors| == PARTITIONS && AtWork(Occur(e, c, Returned(msg, ok)))
  {
    var c' := Occur(e, c, Returned(msg, ok));
    forall i: nat | i != msg && Receiving(c, i)
      ensures Receiving(c', i)
    {
      if PartitionOf(c.world.log[i]) == PartitionOf(c.world.log[msg]) {
        ReceivingOne(c, i, msg);
      }
    }
  }

  lemma RestartKeeps(e: Engine, c: Cluster, group: set<nat>)
    requires InStep(c)
    ensures var c' := Occur(e, c, Restarts(group));
            InStep(c')
  {
    var c' := Occur(e, c, Restarts(group));
    forall p | 0 <= p < PARTITIONS
      ensures CursorIn(c'.cursors[p], Length(c.world.log, p))
    {
      assert CursorIn(c.cursors[p], Length(c.world.log, p));
      CommitKeepsOk(c.cursors[p]);
    }
    RestartKeepsOffsets(e, c, group);
    RestartKeepsWork(e, c, group);
  }

  lemma RestartKeepsOffsets(e: Engine, c: Cluster, group: set<nat>)
    requires |c.cursors| == PARTITIONS && AckedBelow(c) && OkHandled(c)
    ensures AckedBelow(Occur(e, c, Restarts(group))) && OkHandled(Occur(e, c, Restarts(group)))
  {
    var c' := Occur(e, c, Restarts(group));
    forall i | 0 <= i < |c.world.log|
      ensures CursorOf(c', i).committed == CursorOf(c, i).committed && CursorOf(c', i).ok == CursorOf(c, i).ok
    {
    }
  }

  lemma RestartKeepsWork(e: Engine, c: Cluster, group: set<nat>)
    requires |c.cursors| == PARTITIONS && AtWork(c)
    ensures AtWork(Occur(e, c, Restarts(group)))
  {
    var c', gone := Occur(e, c, Restarts(group)), Within(c.world.log, group);
    forall i: nat | Receiving(c, i) && i !in gone
      ensures Receiving(c', i)
    {
      assert CursorOf(c', i) == CursorOf(c, i);
    }
  }

  lemma EveryPartition(p: nat)
    ensures p in ALL_PARTITIONS <==> p < PARTITIONS
  {
  }

  /** A restart of every consumer: each stands at its committed offset, and no handler is at work. */
  lemma RestartAll(e: Engine, c: Cluster)
    requires InStep(c)
    ensures var c' := Occur(e, c, Restarts(ALL_PARTITIONS));
            && |c'.cursors| == PARTITIONS && (forall p :: 0 <= p < PARTITIONS ==> c'.cursors[p] == Reopen(c.cursors[p]))
            && c'.served == {} && c'.world == c.world.(sending := map[])
  {
    var all := Within(c.world.log, ALL_PARTITIONS);
    forall i: nat | i < |c.world.log|
      ensures i in all
    {
      EveryPartition(PartitionOf(c.world.log[i]));
    }
    assert c.served - all == {};
    assert c.world.sending - all == map[];
    forall p | 0 <= p < PARTITIONS
      ensures Occur(e, c, Restarts(ALL_PARTITIONS)).cursors[p] == Reopen(c.cursors[p])
    {
      EveryPartition(p);
    }
  }

  // ------------------------------------------------------------ commits

  lemma BrokerKeepsCursors(c: Cluster, h: Happening)
    requires CursorsOk(c) && !h.Received? && !h.Restart?
    ensures forall p :: 0 <= p < PARTITIONS ==>
              && CursorIn(Step(c.cursors[p], p, h), Length(c.world.log, p))
              && Step(c.cursors[p], p, h).ok == c.cursors[p].ok
              && Step(c.cursors[p], p, h).position == c.cursors[p].position
              && (h != CommitLands(p) ==> Step(c.cursors[p], p, h).committed == c.cursors[p].committed)
  {
    forall p | 0 <= p < PARTITIONS
      ensures CursorIn(Step(c.cursors[p], p, h), Length(c.world.log, p))
    {
      assert CursorIn(c.cursors[p], Length(c.world.log, p));
      StepKeepsOk(c.cursors[p], p, h);
    }
  }

  lemma BrokerKeeps(e: Engine, c: Cluster, h: Happening)
    requires InStep(c) && CanOccur(e, c, Broker(h))
    ensures InStep(Occur(e, c, Broker(h)))
  {
    BrokerKeepsCursors(c, h);
    var c' := Occur(e, c, Broker(h));
    assert CursorsOk(c');
    BrokerKeepsWork(c, c');
    if h.CommitLands? && h.partition < PARTITIONS {
      LandedAcked(c, c', h.partition);
    } else {
      assert forall i :: 0 <= i < |c.world.log| ==>
        CursorOf(c', i).committed == CursorOf(c, i).committed && CursorOf(c', i).ok == CursorOf(c, i).ok;
    }
  }

  lemma BrokerKeepsWork(c: Cluster, c': Cluster)
    requires |c.cursors| == PARTITIONS && |c'.cursors| == PARTITIONS && AtWork(c) && c'.served == c.served
    requires c'.world.log == c.world.log && c'.world.handled == c.world.handled && c'.world.sending == c.world.sending
    requires forall p :: 0 <= p < PARTITIONS ==> c'.cursors[p].position == c.cursors[p].position
    ensures AtWork(c')
  {
    forall i: nat | Receiving(c, i)
      ensures Receiving(c', i)
    {
    }
  }

  lemma LandedAcked(c: Cluster, c': Cluster, p: nat)
    requires CursorsOk(c) && AckedBelow(c) && OkHandled(c) && p < PARTITIONS && |c'.cursors| == PARTITIONS
    requires c'.world == LandIn(c, p)
    requires c'.cursors[p] == Land(c.cursors[p]) && c.cursors[p].committed <= c'.cursors[p].committed
    requires forall q :: 0 <= q < PARTITIONS ==> c'.cursors[q].ok == c.cursors[q].ok
    requires forall q :: 0 <= q < PARTITIONS && q != p ==> c'.cursors[q].committed == c.cursors[q].committed
    ensures AckedBelow(c') && OkHandled(c')
  {
    forall i | 0 <= i < |c.world.log|
      ensures i in c'.world.acked <==> Offset(c.world.log, i) < CursorOf(c', i).committed
      ensures CursorOf(c', i).ok == CursorOf(c, i).ok
    {
    }
  }

  // ------------------------------------------------------------ the refinement

  lemma PassOne(e: Engine, w0: World, w: World, msg: nat)
    requires Reaches(e, w0, w) && Open(w, msg)
    ensures Reaches(e, w0, PassAll(w, {msg}))
  {
    var m := if msg in w.handled then Acks(msg) else PassesOver(msg);
    ReachesNext(e, w0, w, m);
    assert Next(e, w, m) == PassAll(w, {msg});
  }

  lemma PassMore(w: World, s: set<nat>, msg: nat)
    requires (forall i <- s :: i < |w.log|) && msg in s
    ensures PassAll(w, s) == PassAll(PassAll(w, s - {msg}), {msg})
  {
    assert s == s - {msg} + {msg};
    assert w.acked + s == w.acked + (s - {msg}) + {msg};
    assert (set i | i in s && i !in w.handled :: w.log[i].order)
        == (set i | i in s - {msg} && i !in w.handled :: w.log[i].order)
         + (set i | i in {msg} && i !in w.handled :: w.log[i].order);
  }

  /** The committed offset moves by moves of the saga, one message at a time. */
  lemma {:induction false} PassReaches(e: Engine, w: World, s: set<nat>)
    requires forall i <- s :: i < |w.log| && Open(w, i)
    ensures Reaches(e, w, PassAll(w, s))
    decreases |s|
  {
    if s == {} {
      ReachesItself(e, w);
      assert PassAll(w, s) == w;
    } else {
      var msg :| msg in s;
      PassReaches(e, w, s - {msg});
      PassOne(e, w, PassAll(w, s - {msg}), msg);
      PassMore(w, s, msg);
    }
  }

  /** A restart drops what it was about to send, one outcome at a time. */
  lemma {:induction false} DropReaches(e: Engine, w: World, s: set<nat>)
    ensures Reaches(e, w, DropAll(w, s))
    decreases |s|
  {
    if s == {} {
      ReachesItself(e, w);
      assert w.sending - s == w.sending;
    } else {
      var k :| k in s;
      DropReaches(e, w, s - {k});
      var w1 := DropAll(w, s - {k});
      assert w.sending - s == w1.sending - {k};
      if k in w1.sending {
        ReachesNext(e, w, w1, OutcomeDropped(k));
      } else {
        assert w1.sending - {k} == w1.sending;
      }
    }
  }

  /** Whatever occurs in the cluster is a run of the saga. */
  lemma OccurReaches(e: Engine, c: Cluster, o: Occurrence)
    requires InStep(c) && CanOccur(e, c, o)
    ensures Reaches(e, c.world, Occur(e, c, o).world)
  {
    ReachesItself(e, c.world);
    match o
    case Service(m) =>
      ServiceEnabled(e, c, m);
      ReachesNext(e, c.world, c.world, m);
    case Returned(_, _) =>
    case Broker(h) =>
      if h.CommitLands? && h.partition < PARTITIONS {
        PassReaches(e, c.world, Landing(c, h.partition));
      }
    case Restarts(group) => DropReaches(e, c.world, Within(c.world.log, group));
  }

  lemma OccurKeeps(e: Engine, c: Cluster, o: Occurrence)
    requires InStep(c) && CanOccur(e, c, o)
    ensures InStep(Occur(e, c, o))
  {
    match o
    case Service(m) => ServiceKeeps(e, c, m);
    case Returned(msg, ok) => ReturnKeeps(e, c, msg, ok);
    case Broker(h) => BrokerKeeps(e, c, h);
    case Restarts(group) => RestartKeeps(e, c, group);
  }

  lemma BootedInv(e: Engine, t0: Tables)
    ensures ClusterInv(e, t0, Booted(t0))
  {
    assert Exec(e, Start(t0), []) == Some(Start(t0));
  }

  lemma {:induction false} GoesInStep(e: Engine, c: Cluster, story: seq<Occurrence>)
    requires InStep(c) && Goes(e, c, story).Some?
    ensures InStep(Goes(e, c, story).value)
  {
    if story != [] {
      GoesInStep(e, c, story[..|story| - 1]);
      OccurKeeps(e, Goes(e, c, story[..|story| - 1]).value, story[|story| - 1]);
    }
  }

  lemma {:induction false} GoesOn(e: Engine, t0: Tables, c: Cluster, story: seq<Occurrence>)
    requires ClusterInv(e, t0, c) && Goes(e, c, story).Some?
    ensures ClusterInv(e, t0, Goes(e, c, story).value) && Reaches(e, c.world, Goes(e, c, story).value.world)
  {
    if story == [] {
      ReachesItself(e, c.world);
    } else {
      var before, o := Goes(e, c, story[..|story| - 1]).value, story[|story| - 1];
      GoesOn(e, t0, c, story[..|story| - 1]);
      OccurKeeps(e, before, o);
      OccurReaches(e, before, o);
      ReachableThen(e, t0, before.world, Occur(e, before, o).world);
      ReachesJoin(e, c.world, before.world, Occur(e, before, o).world);
    }
  }

  /** Every run of the cluster is a run of the saga, with exactly the messages below the committed
   *  offsets acknowledged. */
  lemma ClusterRefinesSaga(e: Engine, t0: Tables, story: seq<Occurrence>)
    requires Life(e, t0, story).Some?
    ensures ClusterInv(e, t0, Life(e, t0, story).value)
  {
    BootedInv(e, t0);
    GoesOn(e, t0, Booted(t0), story);
  }

  lemma GoesSnoc(e: Engine, c: Cluster, story: seq<Occurrence>, o: Occurrence)
    ensures var before := Goes(e, c, story);
            Goes(e, c, story + [o]) ==
              if before.Some? && |before.value.cursors| == PARTITIONS && CanOccur(e, before.value, o)
              then Some(Occur(e, before.value, o)) else None
  {
    assert (story + [o])[..|story|] == story;
  }

  lemma {:induction false} GoesJoin(e: Engine, c: Cluster, first: seq<Occurrence>, later: seq<Occurrence>)
    requires Goes(e, c, first).Some?
    ensures Goes(e, c, first + later) == Goes(e, Goes(e, c, first).value, later)
  {
    if later == [] {
      assert first + later == first;
    } else {
      var init, o := later[..|later| - 1], later[|later| - 1];
      GoesJoin(e, c, first, init);
      GoesSnoc(e, c, first + init, o);
      assert first + later == first + init + [o];
    }
  }

  // ------------------------------------------------------------ no order is forgotten

  /** No delivery of the message ever did its work, let alone returned Ok. */
  predicate Undone(c: Cluster, i: nat)
    requires |c.cursors| == PARTITIONS && i < |c.world.log|
  {
    i !in c.world.handled && Offset(c.world.log, i) !in CursorOf(c, i).ok
  }

  /** The committed offset has passed a message of the order that was never handled. */
  predicate LostMessage(c: Cluster, o: OrderId)
    requires |c.cursors| == PARTITIONS
  {
    exists i :: 0 <= i < |c.world.log| && c.world.log[i].order == o && Passed(c, i)
  }

  predicate Passed(c: Cluster, i: nat)
    requires |c.cursors| == PARTITIONS && i < |c.world.log|
  {
    Offset(c.world.log, i) < CursorOf(c, i).committed && Undone(c, i)
  }

  predicate Died(story: seq<Occurrence>, o: OrderId)
  {
    Service(PostDies(o)) in story
  }

  /** Only a received message is newly handled. */
  lemma NewlyHandled(e: Engine, c: Cluster, x: Occurrence, i: nat)
    requires InStep(c) && CanOccur(e, c, x) && i !in c.world.handled && i in Occur(e, c, x).world.handled
    ensures Receiving(c, i)
  {
    match x
    case Service(m) =>
      ServiceEnabled(e, c, m);
      HandledByMove(e, c.world, m, i);
    case _ =>
  }

  lemma HandledByMove(e: Engine, w: World, m: Move, i: nat)
    requires Enabled(e, w, m) && i !in w.handled && i in Next(e, w, m).handled
    ensures m == OutcomeSent(i) || m == Transacts(i) || (m.MarketReplies? && m.msg == i)
  {
  }

  lemma CommittedGrows(e: Engine, c: Cluster, x: Occurrence)
    requires InStep(c) && CanOccur(e, c, x)
    ensures var c' := Occur(e, c, x);
            && |c'.cursors| == PARTITIONS && c.world.log <= c'.world.log
            && (forall p :: 0 <= p < PARTITIONS ==> c.cursors[p].committed <= c'.cursors[p].committed)
  {
    match x
    case Service(m) =>
      ServiceEnabled(e, c, m);
      ServiceFrame(e, c.world, m);
    case Returned(_, _) =>
    case Restarts(group) =>
    case Broker(h) =>
      forall p | 0 <= p < PARTITIONS
        ensures c.cursors[p].committed <= Step(c.cursors[p], p, h).committed
      {
        assert CursorIn(c.cursors[p], Length(c.world.log, p));
        StepKeepsOk(c.cursors[p], p, h);
      }
  }

  /** A passed message is never received again. */
  lemma PassedStaysUndone(e: Engine, c: Cluster, x: Occurrence, i: nat)
    requires InStep(c) && CanOccur(e, c, x) && i < |c.world.log| && Passed(c, i)
    ensures i !in Occur(e, c, x).world.handled
  {
    assert CursorIn(CursorOf(c, i), Length(c.world.log, PartitionOf(c.world.log[i])));
    if i in Occur(e, c, x).world.handled {
      NewlyHandled(e, c, x, i);
    }
  }

  lemma PassedStays(c: Cluster, c': Cluster, i: nat)
    requires |c.cursors| == PARTITIONS == |c'.cursors| && i < |c.world.log| && Passed(c, i)
    requires c.world.log <= c'.world.log && OkHandled(c') && i !in c'.world.handled
    requires forall p :: 0 <= p < PARTITIONS ==> c.cursors[p].committed <= c'.cursors[p].committed
    ensures Passed(c', i)
  {
    OffsetsKept(c.world.log, c'.world.log);
  }

  /** What is lost stays lost. */
  lemma LostStays(e: Engine, c: Cluster, x: Occurrence, o: OrderId)
    requires InStep(c) && CanOccur(e, c, x) && LostMessage(c, o)
    ensures |Occur(e, c, x).cursors| == PARTITIONS && LostMessage(Occur(e, c, x), o)
  {
    var i :| 0 <= i < |c.world.log| && c.world.log[i].order == o && Passed(c, i);
    CommittedGrows(e, c, x);
    OccurKeeps(e, c, x);
    PassedStaysUndone(e, c, x, i);
    PassedStays(c, Occur(e, c, x), i);
  }

  /** An order is newly given up only when its POST dies or a message of it is lost. */
  lemma NewlyAbandoned(e: Engine, c: Cluster, x: Occurrence, order: OrderId)
    requires InStep(c) && CanOccur(e, c, x)
    requires order !in c.world.abandoned && order in Occur(e, c, x).world.abandoned
    ensures |Occur(e, c, x).cursors| == PARTITIONS
    ensures x == Service(PostDies(order)) || LostMessage(Occur(e, c, x), order)
  {
    match x
    case Service(m) =>
      ServiceEnabled(e, c, m);
      ServiceFrame(e, c.world, m);
    case Returned(_, _) =>
    case Restarts(_) =>
    case Broker(h) =>
      var msg :| msg in Landing(c, h.partition) && msg !in c.world.handled && c.world.log[msg].order == order;
      OccurKeeps(e, c, x);
      assert Passed(Occur(e, c, x), msg);
  }

  lemma {:induction false} AbandonedWhy(e: Engine, t0: Tables, story: seq<Occurrence>, o: OrderId)
    requires Life(e, t0, story).Some? && o in Life(e, t0, story).value.world.abandoned
    ensures |Life(e, t0, story).value.cursors| == PARTITIONS
    ensures Died(story, o) || LostMessage(Life(e, t0, story).value, o)
  {
    ClusterRefinesSaga(e, t0, story);
    if story != [] {
      var init, last := story[..|story| - 1], story[|story| - 1];
      var before := Life(e, t0, init).value;
      ClusterRefinesSaga(e, t0, init);
      if o in before.world.abandoned {
        AbandonedWhy(e, t0, init, o);
        if LostMessage(before, o) {
          LostStays(e, before, last, o);
        }
      } else {
        NewlyAbandoned(e, before, last, o);
      }
    }
  }

  lemma {:induction false} DiedIsAbandoned(e: Engine, t0: Tables, story: seq<Occurrence>, o: OrderId)
    requires Life(e, t0, story).Some? && Died(story, o)
    ensures o in Life(e, t0, story).value.world.abandoned
  {
    var init, last := story[..|story| - 1], story[|story| - 1];
    ClusterRefinesSaga(e, t0, init);
    AbandonedGrows(e, Life(e, t0, init).value, last);
    if last == Service(PostDies(o)) {
      ServiceEnabled(e, Life(e, t0, init).value, PostDies(o));
    } else {
      DiedIsAbandoned(e, t0, init, o);
    }
  }

  lemma AbandonedGrows(e: Engine, c: Cluster, x: Occurrence)
    requires InStep(c) && CanOccur(e, c, x)
    ensures c.world.abandoned <= Occur(e, c, x).world.abandoned
  {
  }

  lemma LostIsAbandoned(c: Cluster, o: OrderId)
    requires InStep(c) && HandledWell(c.world) && LostMessage(c, o)
    ensures o in c.world.abandoned
  {
    var i :| 0 <= i < |c.world.log| && c.world.log[i].order == o && Passed(c, i);
    assert i in c.world.acked;
  }

  /** The orders given up are exactly those whose POST died between insert and send, and those a message
   *  of which the committed offset passed though it was never handled. */
  lemma AbandonedExactly(e: Engine, t0: Tables, story: seq<Occurrence>, o: OrderId)
    requires e.Valid() && FreshDatabase(t0) && Life(e, t0, story).Some?
    ensures |Life(e, t0, story).value.cursors| == PARTITIONS
    ensures o in Life(e, t0, story).value.world.abandoned <==> Died(story, o) || LostMessage(Life(e, t0, story).value, o)
  {
    ClusterRefinesSaga(e, t0, story);
    var c := Life(e, t0, story).value;
    ReachableInv(e, t0, c.world);
    if o in c.world.abandoned {
      AbandonedWhy(e, t0, story, o);
    }
    if Died(story, o) {
      DiedIsAbandoned(e, t0, story, o);
    }
    if LostMessage(c, o) {
      LostIsAbandoned(c, o);
    }
  }

  /** Every message that a service consumes lies below its committed offset. */
  predicate AllCommitted(c: Cluster)
    requires |c.cursors| == PARTITIONS
  {
    forall i :: 0 <= i < |c.world.log| && !c.world.log[i].payload.OrderExecuted? ==>
      Offset(c.world.log, i) < CursorOf(c, i).committed
  }

  /** Over any failures, lost commits, restarts and redeliveries: once every message is committed and
   *  no POST is under way, an order is terminal unless its POST had died between insert and send or
   *  the committed offset has passed a message of it that was never handled. */
  lemma NoOrderForgotten(e: Engine, t0: Tables, story: seq<Occurrence>, o: OrderId)
    requires e.Valid() && FreshDatabase(t0) && Life(e, t0, story).Some?
    requires |Life(e, t0, story).value.cursors| == PARTITIONS && AllCommitted(Life(e, t0, story).value)
    requires Life(e, t0, story).value.world.unsent == {} && o in Life(e, t0, story).value.world.db.orders
    ensures Terminal(Life(e, t0, story).value.world.db, o) || Died(story, o) || LostMessage(Life(e, t0, story).value, o)
  {
    ClusterRefinesSaga(e, t0, story);
    var c := Life(e, t0, story).value;
    forall i | 0 <= i < |c.world.log|
      ensures !Outstanding(c.world, i)
    {
    }
    NothingOutstanding(e, t0, c.world, o);
    if o in c.world.abandoned {
      AbandonedWhy(e, t0, story, o);
    }
  }
}
