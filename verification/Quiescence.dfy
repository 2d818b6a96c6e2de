/** Left alone, the saga comes to rest. */
module Quiescence {
  import opened Domain
  import opened Pricing
  import opened Transactions
  import opened Events
  import opened Saga
  import opened SagaProperties

  /** A successful step that is neither a new POST nor the handling of a message already handled with Ok. */
  predicate Quiet(w: World, m: Move)
  {
    match m
    case PostSends(_) => true
    case MarketReplies(msg, _) => msg !in w.handled
    case Transacts(msg) => msg !in w.handled && msg !in w.sending
    case OutcomeSent(_) => true
    case Acks(_) => true
    case _ => false
  }

  /** Steps that a message can still cause: until it is handled, and until it is acknowledged. */
  function Ahead(p: Payload): nat
  {
    match p
    case OrderCreated(_, _, _, _) => 7
    case PriceQuoted(_, _) => 5
    case OrderRejected(_, _) => 2
    case OrderExecuted(_, _, _, _, _) => 0
  }

  function Weight(w: World, i: nat): nat
    requires i < |w.log|
  {
    (if i in w.acked || w.log[i].payload.OrderExecuted? then 0
     else if i in w.handled || i in w.sending then 1
     else Ahead(w.log[i].payload))
    + (if i in w.sending then 3 else 0)
  }

  function Total(w: World, n: nat): nat
    requires n <= |w.log|
  {
    if n == 0 then 0 else Total(w, n - 1) + Weight(w, n - 1)
  }

  /** A bound on the quiet steps left. */
  function Measure(w: World): nat
  {
    8 * |w.unsent| + Total(w, |w.log|)
  }

  lemma {:induction false} TotalAgrees(w: World, w': World, n: nat)
    requires n <= |w.log| && n <= |w'.log|
    requires forall i :: 0 <= i < n ==> Weight(w', i) == Weight(w, i)
    ensures Total(w', n) == Total(w, n)
  {
    if n > 0 {
      TotalAgrees(w, w', n - 1);
    }
  }

  lemma {:induction false} TotalChanges(w: World, w': World, n: nat, k: nat)
    requires k < n <= |w.log| && n <= |w'.log|
    requires forall i :: 0 <= i < n && i != k ==> Weight(w', i) == Weight(w, i)
    ensures Total(w', n) - Weight(w', k) == Total(w, n) - Weight(w, k)
  {
    if k < n - 1 {
      TotalChanges(w, w', n - 1, k);
    } else {
      TotalAgrees(w, w', n - 1);
    }
  }

  /** Only messages in the log are acknowledged, handled or being sent for. */
  predicate InLog(w: World)
  {
    && (forall i <- w.acked :: i < |w.log|)
    && (forall i <- w.handled :: i < |w.log|)
    && (forall i <- w.sending :: i < |w.log|)
  }

  lemma InvInLog(e: Engine, t0: Tables, w: World)
    requires Inv(e, t0, w)
    ensures InLog(w)
  {
    assert forall i <- w.handled :: WellHandled(w, i);
  }

  lemma PublishWeighs(w: World, order: OrderId, payload: Payload)
    requires InLog(w)
    ensures var w' := Publish(w, order, payload);
            && Total(w', |w'.log|) == Total(w, |w.log|) + Ahead(payload)
            && (forall i :: 0 <= i < |w.log| ==> Weight(w', i) == Weight(w, i))
            && Weight(w', |w.log|) == Ahead(payload)
  {
    TotalAgrees(w, Publish(w, order, payload), |w.log|);
  }

  lemma SendFalls(e: Engine, w: World, m: Move)
    requires InLog(w) && Enabled(e, w, m) && m.PostSends?
    ensures Measure(Next(e, w, m)) < Measure(w)
  {
    var w1, w' := Publish(w, m.id, CreatedPayload(w.db.orders[m.id])), Next(e, w, m);
    PublishWeighs(w, m.id, CreatedPayload(w.db.orders[m.id]));
    TotalAgrees(w1, w', |w1.log|);
    assert |w'.unsent| == |w.unsent| - 1;
  }

  lemma ReplyFalls(e: Engine, w: World, m: Move)
    requires InLog(w) && Enabled(e, w, m) && m.MarketReplies? && Quiet(w, m) && m.msg !in w.sending
    ensures Measure(Next(e, w, m)) < Measure(w)
  {
    var answer := Answer(e, w.log[m.msg].payload.symbol, m.bps);
    var w1, w' := Publish(w, w.log[m.msg].order, answer), Next(e, w, m);
    PublishWeighs(w, w.log[m.msg].order, answer);
    TotalChanges(w1, w', |w1.log|, m.msg);
    assert Ahead(answer) <= 5;
  }

  lemma OutcomeFalls(e: Engine, w: World, m: Move)
    requires InLog(w) && Truthful(e, w) && Enabled(e, w, m) && m.OutcomeSent?
    ensures Measure(Next(e, w, m)) < Measure(w)
  {
    var outcome := w.sending[m.msg];
    var w1, w' := Publish(w, w.log[m.msg].order, outcome), Next(e, w, m);
    PublishWeighs(w, w.log[m.msg].order, outcome);
    OutcomeWeighs(e, w, m.msg, w1, w');
  }

  lemma OutcomeWeighs(e: Engine, w: World, msg: nat, w1: World, w': World)
    requires Truthful(e, w) && msg in w.sending && msg < |w.log| <= |w1.log| == |w'.log|
    requires w1 == Publish(w, w.log[msg].order, w.sending[msg])
    requires w' == w1.(sending := w.sending - {msg}, handled := w.handled + {msg})
    ensures Total(w', |w'.log|) + Ahead(w.sending[msg]) < Total(w1, |w1.log|)
  {
    assert Ahead(w.sending[msg]) <= 2;
    TotalChanges(w1, w', |w1.log|, msg);
  }

  lemma TransactFalls(e: Engine, w: World, m: Move)
    requires Enabled(e, w, m) && m.Transacts? && Quiet(w, m) && WellFormed(w.db)
    requires TrueIn(e, w.db, w.log[m.msg].order, w.log[m.msg].payload)
    ensures Measure(Next(e, w, m)) < Measure(w)
  {
    RequestSettles(e, w.db, w.log[m.msg]);
    TotalChanges(w, Next(e, w, m), |w.log|, m.msg);
  }

  lemma AckFalls(e: Engine, w: World, m: Move)
    requires Enabled(e, w, m) && m.Acks? && !w.log[m.msg].payload.OrderExecuted?
    ensures Measure(Next(e, w, m)) < Measure(w)
  {
    TotalChanges(w, Next(e, w, m), |w.log|, m.msg);
  }

  /** Every quiet step makes the measure fall. */
  lemma QuietFalls(e: Engine, t0: Tables, w: World, m: Move)
    requires Inv(e, t0, w) && Enabled(e, w, m) && Quiet(w, m)
    ensures Measure(Next(e, w, m)) < Measure(w)
  {
    InvInLog(e, t0, w);
    match m
    case PostSends(_) => SendFalls(e, w, m);
    case MarketReplies(_, _) => ReplyFalls(e, w, m);
    case Transacts(_) => TransactFalls(e, w, m);
    case OutcomeSent(_) => OutcomeFalls(e, w, m);
    case Acks(msg) =>
      assert WellHandled(w, msg);
      AckFalls(e, w, m);
  }

  predicate QuietRun(e: Engine, w: World, moves: seq<Move>)
  {
    moves == [] ||
    var init, m := moves[..|moves| - 1], moves[|moves| - 1];
    && QuietRun(e, w, init) && Exec(e, w, init).Some?
    && Enabled(e, Exec(e, w, init).value, m) && Quiet(Exec(e, w, init).value, m)
  }

  lemma {:induction false} QuietRunFalls(e: Engine, t0: Tables, w: World, moves: seq<Move>)
    requires Inv(e, t0, w) && QuietRun(e, w, moves)
    ensures Exec(e, w, moves).Some? && Inv(e, t0, Exec(e, w, moves).value)
    ensures |moves| + Measure(Exec(e, w, moves).value) <= Measure(w)
    ensures Exec(e, w, moves).value.abandoned == w.abandoned
    ensures Exec(e, w, moves).value.db.orders.Keys == w.db.orders.Keys
  {
    if moves != [] {
      var init, m := moves[..|moves| - 1], moves[|moves| - 1];
      QuietRunFalls(e, t0, w, init);
      var before := Exec(e, w, init).value;
      NextKeepsInv(e, t0, before, m);
      QuietFalls(e, t0, before, m);
      QuietKeepsOrders(e, before, m);
    }
  }

  lemma QuietKeepsOrders(e: Engine, w: World, m: Move)
    requires Enabled(e, w, m) && Quiet(w, m)
    ensures Next(e, w, m).db.orders.Keys == w.db.orders.Keys && Next(e, w, m).abandoned == w.abandoned
  {
    if m.Transacts? {
      OrdersAndEventsKept(w.db, Request(w.log[m.msg]));
    }
  }

  lemma {:induction false} HeavyMessage(w: World, n: nat) returns (i: nat)
    requires n <= |w.log| && Total(w, n) > 0
    ensures i < n && Weight(w, i) > 0
  {
    if Weight(w, n - 1) > 0 {
      i := n - 1;
    } else {
      i := HeavyMessage(w, n - 1);
    }
  }

  lemma MessageMoves(e: Engine, t0: Tables, w: World, i: nat) returns (m: Move)
    requires Inv(e, t0, w) && i < |w.log| && Weight(w, i) > 0
    ensures Enabled(e, w, m) && Quiet(w, m)
  {
    if i in w.sending {
      m := OutcomeSent(i);
    } else if i in w.handled {
      m := Acks(i);
    } else if w.log[i].payload.OrderCreated? {
      m := MarketReplies(i, 0);
    } else {
      RequestSettles(e, w.db, w.log[i]);
      m := Transacts(i);
    }
  }

  /** Until the measure is zero, some quiet step is possible. */
  lemma QuietProgress(e: Engine, t0: Tables, w: World) returns (m: Move)
    requires Inv(e, t0, w) && Measure(w) > 0
    ensures Enabled(e, w, m) && Quiet(w, m)
  {
    if w.unsent != {} {
      var o :| o in w.unsent;
      m := PostSends(o);
    } else {
      var i := HeavyMessage(w, |w.log|);
      m := MessageMoves(e, t0, w, i);
    }
  }

  lemma {:induction false} TotalCovers(w: World, n: nat, i: nat)
    requires i < n <= |w.log|
    ensures Weight(w, i) <= Total(w, n)
  {
    if i < n - 1 {
      TotalCovers(w, n - 1, i);
    }
  }

  predicate AtRest(w: World)
  {
    w.unsent == {} && w.sending == map[] && forall i :: 0 <= i < |w.log| ==> !Outstanding(w, i)
  }

  lemma ZeroIsAtRest(e: Engine, t0: Tables, w: World)
    requires Inv(e, t0, w) && Measure(w) == 0
    ensures AtRest(w)
  {
    forall i | 0 <= i < |w.log|
      ensures !Outstanding(w, i) && i !in w.sending
    {
      TotalCovers(w, |w.log|, i);
    }
    assert forall k <- w.sending :: k < |w.log|;
  }

  /** Without new POSTs and without handling again what was handled with Ok, every run of successful steps
   *  has at most Measure(w) steps, and if it cannot go on, nothing is outstanding, no outcome is waiting
   *  to be sent, and every order is terminal except those whose POST had died unsent or whose messages
   *  had been passed over. */
  lemma Quiesces(e: Engine, t0: Tables, w: World, moves: seq<Move>)
    requires e.Valid() && FreshDatabase(t0) && Reachable(e, t0, w) && QuietRun(e, w, moves)
    ensures Exec(e, w, moves).Some? && |moves| <= Measure(w)
    ensures var end := Exec(e, w, moves).value;
            (forall m :: Enabled(e, end, m) ==> !Quiet(end, m)) ==>
              && AtRest(end) && end.db.orders.Keys == w.db.orders.Keys
              && forall o <- w.db.orders :: Terminal(end.db, o) || o in w.abandoned
  {
    ReachableInv(e, t0, w);
    QuietRunFalls(e, t0, w, moves);
    var end := Exec(e, w, moves).value;
    ReachableThen(e, t0, w, end);
    if forall m :: Enabled(e, end, m) ==> !Quiet(end, m) {
      if Measure(end) > 0 {
        var m := QuietProgress(e, t0, end);
      }
      ZeroIsAtRest(e, t0, end);
      forall o | o in w.db.orders
        ensures Terminal(end.db, o) || o in w.abandoned
      {
        NothingOutstanding(e, t0, end, o);
      }
    }
  }

  /** A world with something outstanding lets its run go on by one step. */
  lemma OneMore(e: Engine, t0: Tables, w: World, sofar: seq<Move>) returns (more: seq<Move>)
    requires QuietRun(e, w, sofar) && Exec(e, w, sofar).Some? && Inv(e, t0, Exec(e, w, sofar).value)
    requires Measure(Exec(e, w, sofar).value) > 0
    ensures |more| == |sofar| + 1 && QuietRun(e, w, more)
  {
    var m := QuietProgress(e, t0, Exec(e, w, sofar).value);
    more := sofar + [m];
    assert more[..|more| - 1] == sofar;
  }

  /** And such a run exists from every reachable world. */
  lemma {:induction false} Drains(e: Engine, t0: Tables, w: World, sofar: seq<Move>) returns (moves: seq<Move>)
    requires Inv(e, t0, w) && QuietRun(e, w, sofar)
    ensures QuietRun(e, w, moves) && Exec(e, w, moves).Some? && AtRest(Exec(e, w, moves).value)
    decreases Measure(w) - |sofar|
  {
    QuietRunFalls(e, t0, w, sofar);
    if Measure(Exec(e, w, sofar).value) == 0 {
      ZeroIsAtRest(e, t0, Exec(e, w, sofar).value);
      moves := sofar;
    } else {
      var more := OneMore(e, t0, w, sofar);
      QuietRunFalls(e, t0, w, more);
      moves := Drains(e, t0, w, more);
    }
  }
}
