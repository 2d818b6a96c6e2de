/** Where the cluster comes to rest: how far its services and consumers go by themselves, what a failed
 *  handler leaves behind, and what a restart makes good. */
module Rest {
  import opened Domain
  import opened Pricing
  import opened Transactions
  import opened Events
  import opened Kafka
  import opened Saga
  import opened SagaProperties
  import opened Delivery

  /** A successful step of a service, a consumer or the broker: no new POST, no failure, no restart. */
  predicate Progress(c: Cluster, o: Occurrence)
    requires |c.cursors| == PARTITIONS
  {
    match o
    case Service(m) => m.PostSends? || m.MarketReplies? || m.Transacts? || m.OutcomeSent?
    case Returned(_, ok) => ok
    case Broker(CommitLands(p)) => p < PARTITIONS && c.cursors[p].pending != []
    case _ => false
  }

  /** No successful step is possible. */
  ghost predicate Stuck(e: Engine, c: Cluster)
    requires |c.cursors| == PARTITIONS
  {
    forall o :: CanOccur(e, c, o) ==> !Progress(c, o)
  }

  predicate ProgressRun(e: Engine, c: Cluster, story: seq<Occurrence>)
  {
    story != [] ==>
      var before, o := Goes(e, c, story[..|story| - 1]), story[|story| - 1];
      && ProgressRun(e, c, story[..|story| - 1]) && before.Some? && |before.value.cursors| == PARTITIONS
      && CanOccur(e, before.value, o) && Progress(before.value, o)
  }

  // ------------------------------------------------------------ sums

  function SumOf(s: seq<nat>): nat
  {
    if s == [] then 0 else SumOf(s[..|s| - 1]) + s[|s| - 1]
  }

  lemma SumSnoc(s: seq<nat>, x: nat)
    ensures SumOf(s + [x]) == SumOf(s) + x
  {
    assert (s + [x])[..|s|] == s;
  }

  lemma {:induction false} SumUpdated(s: seq<nat>, k: nat, x: nat)
    requires k < |s|
    ensures SumOf(s[k := x]) + s[k] == SumOf(s) + x
  {
    if k < |s| - 1 {
      SumUpdated(s[..|s| - 1], k, x);
      assert s[k := x][..|s| - 1] == s[..|s| - 1][k := x];
    } else {
      assert s[k := x][..|s| - 1] == s[..|s| - 1];
    }
  }

  // ------------------------------------------------------------ the measure

  /** Steps a message can still cause before its handler has returned and its commit landed. */
  function Burden(c: Cluster, i: nat): nat
    requires |c.cursors| == PARTITIONS && i < |c.world.log|
  {
    if Offset(c.world.log, i) < CursorOf(c, i).position then 0
    else if i in c.served then 2
    else match c.world.log[i].payload
         case OrderCreated(_, _, _, _) => 10
         case PriceQuoted(_, _) => if i in c.world.sending then 6 else 7
         case OrderRejected(_, _) => 3
         case OrderExecuted(_, _, _, _, _) => 0
  }

  function Burdens(c: Cluster): (s: seq<nat>)
    requires |c.cursors| == PARTITIONS
    ensures |s| == |c.world.log| && forall i :: 0 <= i < |s| ==> s[i] == Burden(c, i)
  {
    seq(|c.world.log|, i requires 0 <= i < |c.world.log| => Burden(c, i))
  }

  function Pendings(c: Cluster): (s: seq<nat>)
    ensures |s| == |c.cursors| && forall p :: 0 <= p < |s| ==> s[p] == |c.cursors[p].pending|
  {
    seq(|c.cursors|, p requires 0 <= p < |c.cursors| => |c.cursors[p].pending|)
  }

  /** A bound on the successful steps left. */
  function Effort(c: Cluster): nat
    requires |c.cursors| == PARTITIONS
  {
    11 * |c.world.unsent| + SumOf(Burdens(c)) + SumOf(Pendings(c))
  }

  /** A message elsewhere weighs what it did. */
  lemma BurdenKept(c: Cluster, c': Cluster, i: nat)
    requires |c.cursors| == PARTITIONS && c'.cursors == c.cursors && i < |c.world.log| && c.world.log <= c'.world.log
    requires (i in c'.served <==> i in c.served) && (i in c'.world.sending <==> i in c.world.sending)
    ensures Burden(c', i) == Burden(c, i)
  {
    OffsetsKept(c.world.log, c'.world.log);
  }

  /** A message just published lies ahead of its consumer. */
  lemma NewBurden(c: Cluster, c': Cluster)
    requires CursorsOk(c) && AtWork(c) && c'.cursors == c.cursors
    requires c.world.log <= c'.world.log && |c'.world.log| == |c.world.log| + 1
    requires |c.world.log| !in c'.served && |c.world.log| !in c'.world.sending
    ensures var x := c'.world.log[|c.world.log|].payload;
            Burden(c', |c.world.log|) == if x.OrderCreated? then 10 else if x.PriceQuoted? then 7 else if x.OrderRejected? then 3 else 0
  {
    OffsetsKept(c.world.log, c'.world.log);
    assert CursorIn(CursorOf(c', |c.world.log|), Length(c.world.log, PartitionOf(c'.world.log[|c.world.log|])));
  }

  /** One message changes its weight, and perhaps one is published. */
  predicate OneChanges(s: seq<nat>, s': seq<nat>, k: nat)
  {
    && k < |s| <= |s'| <= |s| + 1
    && (forall i :: 0 <= i < |s| && i != k ==> s'[i] == s[i])
  }

  lemma SumChanges(s: seq<nat>, s': seq<nat>, k: nat)
    requires OneChanges(s, s', k)
    ensures SumOf(s') + s[k] == SumOf(s) + s'[k] + if |s'| > |s| then s'[|s|] else 0
  {
    SumUpdated(s, k, s'[k]);
    if |s'| == |s| {
      assert s' == s[k := s'[k]];
    } else {
      assert s' == s[k := s'[k]] + [s'[|s|]];
      SumSnoc(s[k := s'[k]], s'[|s|]);
    }
  }

  /** A handler's move touches its own message and perhaps publishes one. */
  lemma ServiceTouches(e: Engine, c: Cluster, m: Move, msg: nat)
    requires InStep(c) && CanOccur(e, c, Service(m)) && Enabled(e, c.world, m)
    requires m == Transacts(msg) || m == OutcomeSent(msg) || (m.MarketReplies? && m.msg == msg)
    ensures msg < |c.world.log| && |Occur(e, c, Service(m)).cursors| == PARTITIONS
    ensures OneChanges(Burdens(c), Burdens(Occur(e, c, Service(m))), msg)
  {
    var c' := Occur(e, c, Service(m));
    forall i | 0 <= i < |c.world.log| && i != msg
      ensures Burden(c', i) == Burden(c, i)
    {
      BurdenKept(c, c', i);
    }
  }

  lemma OneFalls(c: Cluster, c': Cluster, k: nat)
    requires |c.cursors| == PARTITIONS && c'.cursors == c.cursors && c'.world.unsent == c.world.unsent
    requires OneChanges(Burdens(c), Burdens(c'), k)
    requires var published := if |Burdens(c')| > |Burdens(c)| then Burdens(c')[|Burdens(c)|] else 0;
             Burdens(c')[k] + published < Burdens(c)[k]
    ensures Effort(c') < Effort(c)
  {
    SumChanges(Burdens(c), Burdens(c'), k);
    assert Pendings(c') == Pendings(c);
  }

  lemma SendBurdens(e: Engine, c: Cluster, m: Move)
    requires InStep(c) && CanOccur(e, c, Service(m)) && m.PostSends?
    ensures |Occur(e, c, Service(m)).cursors| == PARTITIONS
    ensures Burdens(Occur(e, c, Service(m))) == Burdens(c) + [10]
  {
    var c' := Occur(e, c, Service(m));
    forall i | 0 <= i < |c.world.log|
      ensures Burden(c', i) == Burden(c, i)
    {
      BurdenKept(c, c', i);
    }
    NewBurden(c, c');
  }

  lemma SendFalls(e: Engine, c: Cluster, m: Move)
    requires InStep(c) && CanOccur(e, c, Service(m)) && m.PostSends?
    ensures |Occur(e, c, Service(m)).cursors| == PARTITIONS && Effort(Occur(e, c, Service(m))) < Effort(c)
  {
    var c' := Occur(e, c, Service(m));
    SendBurdens(e, c, m);
    SentOne(c, c', m.id);
  }

  lemma SentOne(c: Cluster, c': Cluster, id: OrderId)
    requires |c.cursors| == PARTITIONS && c'.cursors == c.cursors
    requires id in c.world.unsent && c'.world.unsent == c.world.unsent - {id}
    requires Burdens(c') == Burdens(c) + [10]
    ensures Effort(c') < Effort(c)
  {
    SumSnoc(Burdens(c), 10);
    assert Pendings(c') == Pendings(c);
    assert |c'.world.unsent| == |c.world.unsent| - 1;
  }

  lemma ReplyBurdens(e: Engine, c: Cluster, m: Move)
    requires InStep(c) && CanOccur(e, c, Service(m)) && m.MarketReplies? && Enabled(e, c.world, m)
    ensures var c' := Occur(e, c, Service(m));
            && |c'.cursors| == PARTITIONS && |c'.world.log| == |c.world.log| + 1
            && Burden(c, m.msg) == 10 && Burden(c', m.msg) == 2 && Burden(c', |c.world.log|) <= 7
  {
    var c' := Occur(e, c, Service(m));
    NewBurden(c, c');
    OffsetsKept(c.world.log, c'.world.log);
  }

  lemma ReplyFalls(e: Engine, c: Cluster, m: Move)
    requires InStep(c) && CanOccur(e, c, Service(m)) && m.MarketReplies? && Enabled(e, c.world, m)
    ensures |Occur(e, c, Service(m)).cursors| == PARTITIONS && Effort(Occur(e, c, Service(m))) < Effort(c)
  {
    ServiceTouches(e, c, m, m.msg);
    ReplyBurdens(e, c, m);
    OneFalls(c, Occur(e, c, Service(m)), m.msg);
  }

  lemma TransactBurdens(e: Engine, c: Cluster, m: Move)
    requires InStep(c) && CanOccur(e, c, Service(m)) && m.Transacts? && Enabled(e, c.world, m)
    ensures var c' := Occur(e, c, Service(m));
            && |c'.cursors| == PARTITIONS && c'.world.log == c.world.log
            && m.msg < |c.world.log| && Burden(c', m.msg) < Burden(c, m.msg)
  {
  }

  lemma TransactFalls(e: Engine, c: Cluster, m: Move)
    requires InStep(c) && CanOccur(e, c, Service(m)) && m.Transacts? && Enabled(e, c.world, m)
    ensures |Occur(e, c, Service(m)).cursors| == PARTITIONS && Effort(Occur(e, c, Service(m))) < Effort(c)
  {
    ServiceTouches(e, c, m, m.msg);
    TransactBurdens(e, c, m);
    OneFalls(c, Occur(e, c, Service(m)), m.msg);
  }

  lemma OutcomeBurdens(e: Engine, c: Cluster, m: Move)
    requires InStep(c) && CanOccur(e, c, Service(m)) && m.OutcomeSent? && Enabled(e, c.world, m)
    requires IsOutcome(c.world.sending[m.msg])
    ensures var c' := Occur(e, c, Service(m));
            && |c'.cursors| == PARTITIONS && |c'.world.log| == |c.world.log| + 1
            && Burden(c, m.msg) == 6 && Burden(c', m.msg) == 2 && Burden(c', |c.world.log|) <= 3
  {
    var c' := Occur(e, c, Service(m));
    NewBurden(c, c');
    OffsetsKept(c.world.log, c'.world.log);
  }

  lemma OutcomeFalls(e: Engine, c: Cluster, m: Move)
    requires InStep(c) && CanOccur(e, c, Service(m)) && m.OutcomeSent? && Enabled(e, c.world, m)
    requires IsOutcome(c.world.sending[m.msg])
    ensures |Occur(e, c, Service(m)).cursors| == PARTITIONS && Effort(Occur(e, c, Service(m))) < Effort(c)
  {
    ServiceTouches(e, c, m, m.msg);
    OutcomeBurdens(e, c, m);
    OneFalls(c, Occur(e, c, Service(m)), m.msg);
  }

  /** The consumer moves past one message. */
  lemma ReturnTouches(e: Engine, c: Cluster, msg: nat)
    requires InStep(c) && CanOccur(e, c, Returned(msg, true))
    ensures |Occur(e, c, Returned(msg, true)).cursors| == PARTITIONS
    ensures OneChanges(Burdens(c), Burdens(Occur(e, c, Returned(msg, true))), msg)
    ensures Burden(c, msg) == 2 && Burden(Occur(e, c, Returned(msg, true)), msg) == 0
  {
    var c' := Occur(e, c, Returned(msg, true));
    forall i | 0 <= i < |c.world.log| && i != msg
      ensures Burden(c', i) == Burden(c, i)
    {
      if PartitionOf(c.world.log[i]) == PartitionOf(c.world.log[msg]) && Offset(c.world.log, i) == Offset(c.world.log, msg) {
        OffsetUnique(c.world.log, i, msg);
      }
    }
  }

  /** A commit queued or landed. */
  lemma PendingFalls(c: Cluster, c': Cluster, p: nat)
    requires |c.cursors| == PARTITIONS == |c'.cursors| && p < PARTITIONS && c'.world.unsent == c.world.unsent
    requires forall q :: 0 <= q < PARTITIONS && q != p ==> c'.cursors[q] == c.cursors[q]
    requires SumOf(Burdens(c')) + |c'.cursors[p].pending| < SumOf(Burdens(c)) + |c.cursors[p].pending|
    ensures Effort(c') < Effort(c)
  {
    SumChanges(Pendings(c), Pendings(c'), p);
  }

  lemma ReturnQueues(e: Engine, c: Cluster, msg: nat)
    requires InStep(c) && CanOccur(e, c, Returned(msg, true))
    ensures var c', p := Occur(e, c, Returned(msg, true)), PartitionOf(c.world.log[msg]);
            && |c'.cursors| == PARTITIONS && c'.world == c.world
            && |c'.cursors[p].pending| == |c.cursors[p].pending| + 1
            && (forall q :: 0 <= q < PARTITIONS && q != p ==> c'.cursors[q] == c.cursors[q])
  {
  }

  lemma ReturnFalls(e: Engine, c: Cluster, msg: nat)
    requires InStep(c) && CanOccur(e, c, Returned(msg, true))
    ensures |Occur(e, c, Returned(msg, true)).cursors| == PARTITIONS && Effort(Occur(e, c, Returned(msg, true))) < Effort(c)
  {
    var c' := Occur(e, c, Returned(msg, true));
    ReturnTouches(e, c, msg);
    ReturnQueues(e, c, msg);
    SumChanges(Burdens(c), Burdens(c'), msg);
    PendingFalls(c, c', PartitionOf(c.world.log[msg]));
  }

  lemma LandFalls(e: Engine, c: Cluster, p: nat)
    requires CursorsOk(c) && p < PARTITIONS && c.cursors[p].pending != []
    ensures var c' := Occur(e, c, Broker(CommitLands(p))); |c'.cursors| == PARTITIONS && Effort(c') < Effort(c)
  {
    var c' := Occur(e, c, Broker(CommitLands(p)));
    forall i | 0 <= i < |c.world.log|
      ensures Burden(c', i) == Burden(c, i)
    {
    }
    assert Burdens(c') == Burdens(c);
    PendingFalls(c, c', p);
  }

  /** Every successful step makes the effort fall. */
  lemma ProgressFalls(e: Engine, t0: Tables, c: Cluster, o: Occurrence)
    requires e.Valid() && FreshDatabase(t0) && ClusterInv(e, t0, c) && CanOccur(e, c, o) && Progress(c, o)
    ensures |Occur(e, c, o).cursors| == PARTITIONS && Effort(Occur(e, c, o)) < Effort(c)
  {
    match o
    case Service(m) =>
      ServiceEnabled(e, c, m);
      match m {
        case PostSends(_) => SendFalls(e, c, m);
        case MarketReplies(_, _) => ReplyFalls(e, c, m);
        case Transacts(_) => TransactFalls(e, c, m);
        case OutcomeSent(_) =>
          ReachableInv(e, t0, c.world);
          OutcomeFalls(e, c, m);
      }
    case Returned(msg, _) => ReturnFalls(e, c, msg);
    case Broker(h) => LandFalls(e, c, h.partition);
  }

  lemma {:induction false} ProgressRunFalls(e: Engine, t0: Tables, c: Cluster, story: seq<Occurrence>)
    requires e.Valid() && FreshDatabase(t0) && ClusterInv(e, t0, c) && ProgressRun(e, c, story)
    ensures Goes(e, c, story).Some? && ClusterInv(e, t0, Goes(e, c, story).value)
    ensures |story| + Effort(Goes(e, c, story).value) <= Effort(c)
  {
    if story != [] {
      var init, o := story[..|story| - 1], story[|story| - 1];
      ProgressRunFalls(e, t0, c, init);
      ProgressFalls(e, t0, Goes(e, c, init).value, o);
      GoesOn(e, t0, c, story);
    }
  }

  // ------------------------------------------------------------ where progress ends

  /** A received message can always be worked on or returned. */
  lemma ReceivingGoesOn(e: Engine, t0: Tables, c: Cluster, msg: nat) returns (o: Occurrence)
    requires e.Valid() && FreshDatabase(t0) && ClusterInv(e, t0, c) && Receiving(c, msg)
    ensures CanOccur(e, c, o) && Progress(c, o)
  {
    ReachableInv(e, t0, c.world);
    if msg in c.served {
      o := Returned(msg, true);
    } else if msg in c.world.sending {
      o := Service(OutcomeSent(msg));
    } else if c.world.log[msg].payload.OrderCreated? {
      o := Service(MarketReplies(msg, 0));
    } else {
      RequestSettles(e, c.world.db, c.world.log[msg]);
      o := Service(Transacts(msg));
    }
  }

  lemma {:induction false} MessageAt(log: seq<Envelope>, p: nat, offset: nat, n: nat) returns (i: nat)
    requires n <= |log| && offset < CountIn(log, p, n)
    ensures i < n && PartitionOf(log[i]) == p && Offset(log, i) == offset
  {
    if PartitionOf(log[n - 1]) == p && CountIn(log, p, n - 1) == offset {
      i := n - 1;
    } else {
      i := MessageAt(log, p, offset, n - 1);
    }
  }

  lemma OneTopic(a: Envelope, b: Envelope)
    requires PartitionOf(a) == PartitionOf(b)
    ensures TopicOf(a.payload) == TopicOf(b.payload)
  {
  }

  /** While a message lies ahead of its consumer, something can go on. */
  lemma AheadGoesOn(e: Engine, t0: Tables, c: Cluster, i: nat) returns (o: Occurrence)
    requires e.Valid() && FreshDatabase(t0) && ClusterInv(e, t0, c) && i < |c.world.log|
    requires !c.world.log[i].payload.OrderExecuted? && CursorOf(c, i).position <= Offset(c.world.log, i)
    ensures CanOccur(e, c, o) && Progress(c, o)
  {
    var p := PartitionOf(c.world.log[i]);
    OffsetBelowLength(c.world.log, i);
    var j := MessageAt(c.world.log, p, c.cursors[p].position, |c.world.log|);
    OneTopic(c.world.log[i], c.world.log[j]);
    o := ReceivingGoesOn(e, t0, c, j);
  }

  /** Nothing is left to send, commit or receive. */
  predicate Idle(c: Cluster)
    requires |c.cursors| == PARTITIONS
  {
    && c.world.unsent == {} && c.world.sending == map[]
    && (forall p :: 0 <= p < PARTITIONS ==> c.cursors[p].pending == [])
    && (forall i :: 0 <= i < |c.world.log| && !c.world.log[i].payload.OrderExecuted? ==>
          Offset(c.world.log, i) < CursorOf(c, i).position)
  }

  /** A cluster that is not idle can go on. */
  lemma BusyGoesOn(e: Engine, t0: Tables, c: Cluster) returns (o: Occurrence)
    requires e.Valid() && FreshDatabase(t0) && ClusterInv(e, t0, c) && !Idle(c)
    ensures CanOccur(e, c, o) && Progress(c, o)
  {
    ReachableInv(e, t0, c.world);
    if c.world.unsent != {} {
      var id :| id in c.world.unsent;
      o := Service(PostSends(id));
    } else if c.world.sending != map[] {
      assert c.world.sending.Keys != {};
      var k :| k in c.world.sending;
      o := ReceivingGoesOn(e, t0, c, k);
    } else if p :| 0 <= p < PARTITIONS && c.cursors[p].pending != [] {
      o := Broker(CommitLands(p));
    } else {
      var i :| 0 <= i < |c.world.log| && !c.world.log[i].payload.OrderExecuted?
               && Offset(c.world.log, i) >= CursorOf(c, i).position;
      o := AheadGoesOn(e, t0, c, i);
    }
  }

  /** A cluster cannot go on exactly when it is idle. */
  lemma StuckIffIdle(e: Engine, t0: Tables, c: Cluster)
    requires e.Valid() && FreshDatabase(t0) && ClusterInv(e, t0, c)
    ensures Stuck(e, c) <==> Idle(c)
  {
    if !Idle(c) {
      var o := BusyGoesOn(e, t0, c);
    } else {
      forall o | CanOccur(e, c, o)
        ensures !Progress(c, o)
      {
      }
    }
  }

  /** The consumer has gone past a message of the order that was never handled. */
  predicate LeftBehind(c: Cluster, o: OrderId)
    requires |c.cursors| == PARTITIONS
  {
    exists i :: 0 <= i < |c.world.log| && c.world.log[i].order == o
                && Offset(c.world.log, i) < CursorOf(c, i).position && Undone(c, i)
  }

  /** A message behind its consumer has been handled, or its order is left behind. */
  lemma Fate(c: Cluster, i: nat)
    requires InStep(c) && i < |c.world.log| && Offset(c.world.log, i) < CursorOf(c, i).position
    ensures i in c.world.handled || LeftBehind(c, c.world.log[i].order)
  {
    if i !in c.world.handled {
      assert Undone(c, i);
    }
  }

  lemma LostIsBehind(c: Cluster, o: OrderId)
    requires CursorsOk(c) && LostMessage(c, o)
    ensures LeftBehind(c, o)
  {
    var i :| 0 <= i < |c.world.log| && c.world.log[i].order == o && Passed(c, i);
    assert CursorIn(CursorOf(c, i), Length(c.world.log, PartitionOf(c.world.log[i])));
  }

  /** Where nothing lies ahead, a consumed message is handled or its order is left behind. */
  lemma IdleMessage(c: Cluster, i: nat)
    requires InStep(c) && Idle(c) && i < |c.world.log| && !c.world.log[i].payload.OrderExecuted?
    ensures i in c.world.handled || LeftBehind(c, c.world.log[i].order)
  {
    Fate(c, i);
  }

  lemma AnswerFate(e: Engine, t0: Tables, c: Cluster, j: nat)
    requires Inv(e, t0, c.world) && InStep(c) && Idle(c)
    requires j < |c.world.log| && IsAnswer(c.world.log[j].payload) && IsCreated(c.world.db, c.world.log[j].order)
    ensures LeftBehind(c, c.world.log[j].order)
  {
    IdleMessage(c, j);
    CreatedUnhandled(c.world, j);
  }

  lemma SentFate(e: Engine, t0: Tables, c: Cluster, o: OrderId)
    requires Inv(e, t0, c.world) && InStep(c) && Idle(c) && IsCreated(c.world.db, o) && Sent(c.world, o)
    ensures LeftBehind(c, o)
  {
    var w := c.world;
    var i :| 0 <= i < |w.log| && w.log[i].order == o && w.log[i].payload.OrderCreated?;
    IdleMessage(c, i);
    if i in w.handled {
      assert WellHandled(w, i);
      var j :| 0 <= j < |w.log| && w.log[j].order == o && IsAnswer(w.log[j].payload);
      AnswerFate(e, t0, c, j);
    }
  }

  /** Without restarts, a run of successful steps is bounded by the effort, and a cluster that cannot go on
   *  has nothing to send, commit or receive; every order is terminal, except that its POST had died
   *  between insert and send, or its consumer has gone past a message of it that was never handled. */
  lemma ComesToRest(e: Engine, t0: Tables, story: seq<Occurrence>, more: seq<Occurrence>, o: OrderId)
    requires e.Valid() && FreshDatabase(t0) && Life(e, t0, story).Some?
    requires ProgressRun(e, Life(e, t0, story).value, more)
    ensures |Life(e, t0, story).value.cursors| == PARTITIONS && |more| <= Effort(Life(e, t0, story).value)
    ensures var end := Life(e, t0, story + more);
            && end.Some? && |end.value.cursors| == PARTITIONS
            && (Stuck(e, end.value) ==>
                  && Idle(end.value)
                  && (o in end.value.world.db.orders ==>
                        Terminal(end.value.world.db, o) || Died(story + more, o) || LeftBehind(end.value, o)))
  {
    ClusterRefinesSaga(e, t0, story);
    ProgressRunFalls(e, t0, Life(e, t0, story).value, more);
    GoesJoin(e, Booted(t0), story, more);
    var c := Life(e, t0, story + more).value;
    if Stuck(e, c) {
      StuckIffIdle(e, t0, c);
      if o in c.world.db.orders {
        IdleFate(e, t0, story + more, o);
      }
    }
  }

  lemma IdleFate(e: Engine, t0: Tables, story: seq<Occurrence>, o: OrderId)
    requires e.Valid() && FreshDatabase(t0) && Life(e, t0, story).Some?
    requires |Life(e, t0, story).value.cursors| == PARTITIONS && Idle(Life(e, t0, story).value)
    requires o in Life(e, t0, story).value.world.db.orders
    ensures var c := Life(e, t0, story).value;
            Terminal(c.world.db, o) || Died(story, o) || LeftBehind(c, o)
  {
    ClusterRefinesSaga(e, t0, story);
    var c := Life(e, t0, story).value;
    ReachableInv(e, t0, c.world);
    assert Accounted(c.world, o) && RowConsistent(c.world.db.orders[o]);
    if o in c.world.abandoned {
      AbandonedWhy(e, t0, story, o);
      if LostMessage(c, o) {
        LostIsBehind(c, o);
      }
    } else if IsCreated(c.world.db, o) {
      SentFate(e, t0, c, o);
    }
  }

  /** A cluster that is not idle lets its run go on by one step. */
  lemma OneMore(e: Engine, t0: Tables, c: Cluster, sofar: seq<Occurrence>) returns (more: seq<Occurrence>)
    requires e.Valid() && FreshDatabase(t0) && ClusterInv(e, t0, c) && ProgressRun(e, c, sofar)
    requires Goes(e, c, sofar).Some? && ClusterInv(e, t0, Goes(e, c, sofar).value) && !Idle(Goes(e, c, sofar).value)
    ensures |more| == |sofar| + 1 && ProgressRun(e, c, more)
  {
    var o := BusyGoesOn(e, t0, Goes(e, c, sofar).value);
    more := sofar + [o];
    assert more[..|more| - 1] == sofar;
  }

  /** Some run of successful steps makes the cluster idle. */
  lemma {:induction false} GoesIdle(e: Engine, t0: Tables, c: Cluster, sofar: seq<Occurrence>) returns (story: seq<Occurrence>)
    requires e.Valid() && FreshDatabase(t0) && ClusterInv(e, t0, c) && ProgressRun(e, c, sofar)
    ensures ProgressRun(e, c, story) && Goes(e, c, story).Some?
    ensures |Goes(e, c, story).value.cursors| == PARTITIONS && Idle(Goes(e, c, story).value)
    decreases Effort(c) - |sofar|
  {
    ProgressRunFalls(e, t0, c, sofar);
    if Idle(Goes(e, c, sofar).value) {
      story := sofar;
    } else {
      var more := OneMore(e, t0, c, sofar);
      ProgressRunFalls(e, t0, c, more);
      story := GoesIdle(e, t0, c, more);
    }
  }
}
