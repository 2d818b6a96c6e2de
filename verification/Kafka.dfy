/** The consumer loop and its offsets. A handled message is committed only when its handler returned
 *  Ok; a failed one is left, and the loop goes on to the next. */
module Kafka {

  /** Where a consumer group stands on one partition: the next offset to receive, the offset the broker
   *  has committed, and asynchronous commits still under way. The rest is history: `seen` offsets have
   *  been received at least once, `ok` ones handled with Ok; `failed` ones failed since the last
   *  restart, and `overtaken` ones had failed when a later one was handled with Ok. */
  datatype Cursor = Cursor(
    position: nat,
    committed: nat,
    pending: seq<nat>,
    seen: nat,
    ok: set<nat>,
    failed: set<nat>,
    overtaken: set<nat>)

  const FRESH := Cursor(0, 0, [], 0, {}, {}, {})

  datatype Happening =
    | Received(partition: nat, handled: bool)   // a message arrives and its handler returns
    | CommitLands(partition: nat)               // the oldest commit under way reaches the broker
    | CommitLost(partition: nat)                // or is lost
    | ReceiveError                              // logged, and nothing else
    | Restart                                   // the process starts again from the committed offsets

  function Receive(c: Cursor, handled: bool): Cursor
  {
    var next := c.(position := c.position + 1, seen := if c.position < c.seen then c.seen else c.position + 1);
    if handled then
      next.(pending := c.pending + [c.position + 1], ok := c.ok + {c.position}, overtaken := c.overtaken + c.failed)
    else
      next.(failed := c.failed + {c.position})
  }

  function Land(c: Cursor): Cursor
  {
    if c.pending == [] then c else c.(committed := c.pending[0], pending := c.pending[1..])
  }

  function Lose(c: Cursor): Cursor
  {
    if c.pending == [] then c else c.(pending := c.pending[1..])
  }

  function Reopen(c: Cursor): Cursor
  {
    c.(position := c.committed, pending := [], failed := {})
  }

  function Step(c: Cursor, partition: nat, h: Happening): Cursor
  {
    match h
    case Received(p, handled) => if p == partition then Receive(c, handled) else c
    case CommitLands(p) => if p == partition then Land(c) else c
    case CommitLost(p) => if p == partition then Lose(c) else c
    case ReceiveError => c
    case Restart => Reopen(c)
  }

  /** One partition over a whole life of the group. */
  function Live(c: Cursor, partition: nat, life: seq<Happening>): Cursor
  {
    if life == [] then c else Step(Live(c, partition, life[..|life| - 1]), partition, life[|life| - 1])
  }

  lemma LiveSnoc(c: Cursor, partition: nat, life: seq<Happening>, h: Happening)
    ensures Live(c, partition, life + [h]) == Step(Live(c, partition, life), partition, h)
  {
    assert (life + [h])[..|life|] == life;
  }

  // ------------------------------------------------------------ at least once

  /** Handled with Ok, or failed and then overtaken. */
  predicate Settled(c: Cursor, offset: nat)
  {
    offset in c.ok || offset in c.overtaken
  }

  predicate SettledBelow(c: Cursor, bound: nat)
  {
    forall o :: 0 <= o < bound ==> Settled(c, o)
  }

  predicate CursorOk(c: Cursor)
  {
    && c.committed <= c.position <= c.seen
    && (forall i :: 0 <= i < |c.pending| ==> c.committed < c.pending[i] <= c.position)
    && (forall i, j :: 0 <= i < j < |c.pending| ==> c.pending[i] < c.pending[j])
    && (forall o :: 0 <= o < c.position ==> Settled(c, o) || o in c.failed)
    && SettledBelow(c, c.committed)
    && (forall i :: 0 <= i < |c.pending| ==> SettledBelow(c, c.pending[i]))
    && (forall o <- c.ok :: o < c.seen)
  }

  lemma ReceiveKeepsOk(c: Cursor, handled: bool)
    requires CursorOk(c)
    ensures CursorOk(Receive(c, handled))
  {
    var c' := Receive(c, handled);
    assert forall o :: Settled(c, o) ==> Settled(c', o);
    assert forall i :: 0 <= i < |c.pending| ==> SettledBelow(c', c.pending[i]);
    if handled {
      assert SettledBelow(c', c.position + 1);
    }
  }

  lemma LandKeepsOk(c: Cursor)
    requires CursorOk(c)
    ensures CursorOk(Land(c)) && c.committed <= Land(c).committed
  {
    assert forall o :: Settled(Land(c), o) <==> Settled(c, o);
    if c.pending != [] {
      assert SettledBelow(c, c.pending[0]);
    }
  }

  lemma LoseKeepsOk(c: Cursor)
    requires CursorOk(c)
    ensures CursorOk(Lose(c))
  {
    assert forall o :: Settled(Lose(c), o) <==> Settled(c, o);
  }

  lemma ReopenKeepsOk(c: Cursor)
    requires CursorOk(c)
    ensures CursorOk(Reopen(c))
  {
    assert forall o :: Settled(Reopen(c), o) <==> Settled(c, o);
  }

  lemma CommitKeepsOk(c: Cursor)
    requires CursorOk(c)
    ensures CursorOk(Land(c)) && CursorOk(Lose(c)) && CursorOk(Reopen(c))
    ensures c.committed <= Land(c).committed
  {
    LandKeepsOk(c);
    LoseKeepsOk(c);
    ReopenKeepsOk(c);
  }

  lemma StepKeepsOk(c: Cursor, partition: nat, h: Happening)
    requires CursorOk(c)
    ensures CursorOk(Step(c, partition, h))
    ensures c.committed <= Step(c, partition, h).committed
  {
    match h
    case Received(_, handled) => ReceiveKeepsOk(c, handled);
    case _ => CommitKeepsOk(c);
  }

  lemma {:induction false} LiveKeepsOk(c: Cursor, partition: nat, life: seq<Happening>)
    requires CursorOk(c)
    ensures CursorOk(Live(c, partition, life))
  {
    if life != [] {
      LiveKeepsOk(c, partition, life[..|life| - 1]);
      StepKeepsOk(Live(c, partition, life[..|life| - 1]), partition, life[|life| - 1]);
    }
  }

  /** Over any life with failures, lost commits and restarts, every offset below the committed one had
   *  its handler run, and had it return Ok unless it was overtaken after failing. */
  lemma CommittedWasHandled(partition: nat, life: seq<Happening>, offset: nat)
    requires offset < Live(FRESH, partition, life).committed
    ensures var c := Live(FRESH, partition, life);
            && offset < c.seen
            && (offset in c.ok || offset in c.overtaken)
            && (c.overtaken == {} ==> offset in c.ok)
  {
    LiveKeepsOk(FRESH, partition, life);
    assert SettledBelow(Live(FRESH, partition, life), Live(FRESH, partition, life).committed);
    assert Settled(Live(FRESH, partition, life), offset);
  }

  // ------------------------------------------------------------ what redelivery is worth

  /** A message the committed offset has passed is never handled again. */
  lemma {:induction false} PassedForever(c: Cursor, partition: nat, life: seq<Happening>, offset: nat)
    requires CursorOk(c) && offset < c.committed && offset !in c.ok
    ensures offset !in Live(c, partition, life).ok && offset < Live(c, partition, life).committed
  {
    if life != [] {
      var init := life[..|life| - 1];
      PassedForever(c, partition, init, offset);
      LiveKeepsOk(c, partition, init);
      StepKeepsOk(Live(c, partition, init), partition, life[|life| - 1]);
    }
  }

  /** After a restart the messages from the committed offset on are received again, in order. */
  lemma {:induction false} ReplayReaches(c: Cursor, partition: nat, n: nat) returns (life: seq<Happening>)
    ensures var c' := Live(c, partition, life);
            && c'.position == c.committed + n
            && (forall o :: c.committed <= o < c.committed + n ==> o in c'.ok)
  {
    if n == 0 {
      life := [Restart];
      LiveSnoc(c, partition, [], Restart);
      assert [] + [Restart] == life;
    } else {
      var before := ReplayReaches(c, partition, n - 1);
      life := before + [Received(partition, true)];
      LiveSnoc(c, partition, before, Received(partition, true));
    }
  }

  ghost predicate CanBeHandled(c: Cursor, partition: nat, offset: nat)
  {
    exists life :: offset in Live(c, partition, life).ok
  }

  /** "Left uncommitted and redelivered" holds of a message exactly while the committed offset has not
   *  passed it. */
  lemma RedeliveredExactly(c: Cursor, partition: nat, offset: nat)
    requires CursorOk(c)
    ensures CanBeHandled(c, partition, offset) <==> offset in c.ok || c.committed <= offset
  {
    if offset in c.ok {
      assert offset in Live(c, partition, []).ok;
    } else if c.committed <= offset {
      var life := ReplayReaches(c, partition, offset - c.committed + 1);
      assert offset in Live(c, partition, life).ok;
    } else {
      forall life
        ensures offset !in Live(c, partition, life).ok
      {
        PassedForever(c, partition, life, offset);
      }
    }
  }

  // ------------------------------------------------------------ no retry before a restart

  ghost predicate CanBeHandledWithoutRestart(c: Cursor, partition: nat, offset: nat)
  {
    exists life :: Restart !in life && offset in Live(c, partition, life).ok
  }

  /** The loop only goes forward: what it has gone past stays as it is until a restart. */
  lemma {:induction false} BehindStays(c: Cursor, partition: nat, life: seq<Happening>, offset: nat)
    requires Restart !in life && offset < c.position && offset !in c.ok
    ensures offset !in Live(c, partition, life).ok && offset < Live(c, partition, life).position
  {
    if life != [] {
      var init, last := life[..|life| - 1], life[|life| - 1];
      assert life == init + [last];
      BehindStays(c, partition, init, offset);
    }
  }

  lemma {:induction false} GoingOnReaches(c: Cursor, partition: nat, n: nat) returns (life: seq<Happening>)
    ensures var c' := Live(c, partition, life);
            && Restart !in life && c'.position == c.position + n
            && (forall o :: c.position <= o < c.position + n ==> o in c'.ok)
  {
    if n == 0 {
      life := [];
    } else {
      var before := GoingOnReaches(c, partition, n - 1);
      life := before + [Received(partition, true)];
      LiveSnoc(c, partition, before, Received(partition, true));
    }
  }

  /** "Will retry" holds, until a restart, of no message that the loop has gone past: without one, a
   *  message is handled with Ok if and only if it has been, or still lies ahead. */
  lemma RetriedOnlyAfterRestart(c: Cursor, partition: nat, offset: nat)
    ensures CanBeHandledWithoutRestart(c, partition, offset) <==> offset in c.ok || c.position <= offset
  {
    if offset in c.ok {
      assert offset in Live(c, partition, []).ok;
    } else if c.position <= offset {
      var life := GoingOnReaches(c, partition, offset - c.position + 1);
      assert offset in Live(c, partition, life).ok;
    } else {
      forall life | Restart !in life
        ensures offset !in Live(c, partition, life).ok
      {
        BehindStays(c, partition, life, offset);
      }
    }
  }

  /** The run that breaks the documented promise: one failure, one success after it, one commit. */
  lemma FailureSwallowed(partition: nat)
    ensures var c := Live(FRESH, partition, [Received(partition, false), Received(partition, true), CommitLands(partition)]);
            c.committed == 2 && 0 !in c.ok && !CanBeHandled(c, partition, 0)
  {
    var l1, l2 := [Received(partition, false)], [Received(partition, false), Received(partition, true)];
    var c1 := Cursor(1, 0, [], 1, {}, {0}, {});
    assert [] + l1 == l1;
    LiveSnoc(FRESH, partition, [], Received(partition, false));
    assert Live(FRESH, partition, l1) == c1;
    assert l1 + [Received(partition, true)] == l2;
    LiveSnoc(FRESH, partition, l1, Received(partition, true));
    var c2 := Cursor(2, 0, [2], 2, {1}, {0}, {0});
    assert Live(FRESH, partition, l2) == c2;
    assert l2 + [CommitLands(partition)] == [Received(partition, false), Received(partition, true), CommitLands(partition)];
    LiveSnoc(FRESH, partition, l2, CommitLands(partition));
    LiveKeepsOk(FRESH, partition, l2 + [CommitLands(partition)]);
    RedeliveredExactly(Live(FRESH, partition, l2 + [CommitLands(partition)]), partition, 0);
  }
}
